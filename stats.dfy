/** The statistics the tracker derives from its sessions: the per-session
    average and total cost, and the global count, sum, rounded average,
    minimum and maximum over every recorded cost. Costs come from `parseInt`
    and are integers. */
module Stats {
  import opened Sessions

  /** `Math.round(sum / n)` for a positive count: the integer nearest to the
      quotient, a tie going toward +infinity. */
  function RoundDiv(sum: int, n: int): (r: int)
    requires n > 0
    ensures 2 * n * r - n <= 2 * sum < 2 * n * r + n
  {
    var q := (2 * sum + n) / (2 * n);
    assert 2 * sum + n == 2 * n * q + (2 * sum + n) % (2 * n);
    q
  }

  lemma MulMonotone(n: int, a: int, b: int)
    requires n > 0 && a <= b
    ensures n * a <= n * b
  {
    assert n * b - n * a == n * (b - a);
  }

  /** A rounded mean never leaves the range the summed values lie in. */
  lemma RoundDivWithin(sum: int, n: int, lo: int, hi: int)
    requires n > 0 && n * lo <= sum <= n * hi
    ensures lo <= RoundDiv(sum, n) <= hi
  {
    var r := RoundDiv(sum, n);
    var p, a, b := n * r, n * lo, n * hi;
    assert 2 * n * r == 2 * p;
    assert p < b + n && a < p + n;
    assert n * (hi + 1) == b + n && n * (r + 1) == p + n;
    if r > hi {
      MulMonotone(n, hi + 1, r);
      assert false;
    }
    if r < lo {
      MulMonotone(n, r + 1, lo);
      assert false;
    }
  }

  function Sum(xs: seq<int>): int
  {
    if xs == [] then 0 else Sum(xs[..|xs| - 1]) + xs[|xs| - 1]
  }

  lemma {:induction false} SumAppend(a: seq<int>, b: seq<int>)
    ensures Sum(a + b) == Sum(a) + Sum(b)
  {
    if b == [] {
      assert a + b == a;
    } else {
      assert (a + b)[..|a + b| - 1] == a + b[..|b| - 1];
      SumAppend(a, b[..|b| - 1]);
    }
  }

  /** `Math.min(...xs)` for a non-empty list. */
  function Min(xs: seq<int>): (m: int)
    requires xs != []
    ensures m in xs && forall x :: x in xs ==> m <= x
  {
    if |xs| == 1 then xs[0]
    else
      var front := xs[..|xs| - 1];
      var m := Min(front);
      assert forall x :: x in xs ==> x in front || x == xs[|xs| - 1];
      if xs[|xs| - 1] < m then xs[|xs| - 1] else m
  }

  /** `Math.max(...xs)` for a non-empty list. */
  function Max(xs: seq<int>): (m: int)
    requires xs != []
    ensures m in xs && forall x :: x in xs ==> x <= m
  {
    if |xs| == 1 then xs[0]
    else
      var front := xs[..|xs| - 1];
      var m := Max(front);
      assert forall x :: x in xs ==> x in front || x == xs[|xs| - 1];
      if xs[|xs| - 1] > m then xs[|xs| - 1] else m
  }

  /** `upgrades.map(upgrade => upgrade.cost)`. */
  function Costs(events: seq<UpgradeEvent>): (cs: seq<int>)
    ensures |cs| == |events| && forall i :: 0 <= i < |events| ==> cs[i] == events[i].cost
  {
    seq(|events|, i requires 0 <= i < |events| => events[i].cost)
  }

  lemma {:induction false} SumCosts(events: seq<UpgradeEvent>)
    ensures Sum(Costs(events)) == TotalCost(events)
  {
    if events != [] {
      var n := |events|;
      assert Costs(events)[..n - 1] == Costs(events[..n - 1]);
      SumCosts(events[..n - 1]);
    }
  }

  /** If every cost lies in [lo, hi], their total lies between n*lo and n*hi. */
  lemma TotalCostBounds(events: seq<UpgradeEvent>, lo: int, hi: int)
    requires forall i :: 0 <= i < |events| ==> lo <= events[i].cost <= hi
    ensures |events| * lo <= TotalCost(events) <= |events| * hi
  {
    SumCosts(events);
    SumBounds(Costs(events), lo, hi);
  }

  /** The average cost of one session, as `getAverageCost` (script.js:40-43)
      computes it for the open session and `displayHistory` (script.js:92-93)
      for each finished one: 0 without events, otherwise the rounded mean. */
  function SessionAverage(s: Session): (r: int)
    ensures s.upgrades == [] ==> r == 0
    ensures s.upgrades != [] ==>
      var n := |s.upgrades|; 2 * n * r - n <= 2 * TotalCost(s.upgrades) < 2 * n * r + n
  {
    if |s.upgrades| == 0 then 0 else RoundDiv(TotalCost(s.upgrades), |s.upgrades|)
  }

  /** If every cost of a session lies in [lo, hi], its average does too. */
  lemma AverageWithinCostRange(s: Session, lo: int, hi: int)
    requires s.upgrades != []
    requires forall i :: 0 <= i < |s.upgrades| ==> lo <= s.upgrades[i].cost <= hi
    ensures lo <= SessionAverage(s) <= hi
  {
    TotalCostBounds(s.upgrades, lo, hi);
    RoundDivWithin(TotalCost(s.upgrades), |s.upgrades|, lo, hi);
  }

  /** For a session that keeps its invariant the total cost is what the
      balance dropped by, however many events it took. */
  lemma SessionTotalIsBalanceDrop(s: Session)
    requires Chained(s)
    ensures TotalCost(s.upgrades) == s.startingMoney - s.currentMoney
  {
    ChainedCostTelescopes(s.startingMoney, s.upgrades);
  }

  /** The costs of the open session, taken only when it has events
      (script.js:118-123). */
  function SessionCosts(current: Option<Session>): seq<int>
  {
    if current.Some? && |current.value.upgrades| > 0 then Costs(current.value.upgrades) else []
  }

  /** The costs of every finished session, in history order (script.js:126-131). */
  function HistoryCosts(history: seq<Session>): seq<int>
  {
    if history == [] then []
    else HistoryCosts(history[..|history| - 1]) + Costs(history[|history| - 1].upgrades)
  }

  /** `allCosts` as `updateGlobalStats` collects it. */
  function AllCosts(current: Option<Session>, history: seq<Session>): seq<int>
  {
    SessionCosts(current) + HistoryCosts(history)
  }

  /** Number of events over all sessions of a history. */
  function EventCount(history: seq<Session>): nat
  {
    if history == [] then 0 else EventCount(history[..|history| - 1]) + |history[|history| - 1].upgrades|
  }

  lemma {:induction false} HistoryCostsAppend(a: seq<Session>, b: seq<Session>)
    ensures HistoryCosts(a + b) == HistoryCosts(a) + HistoryCosts(b)
  {
    if b == [] {
      assert a + b == a;
    } else {
      assert (a + b)[..|a + b| - 1] == a + b[..|b| - 1];
      HistoryCostsAppend(a, b[..|b| - 1]);
    }
  }

  /** The costs collected from a history are exactly the costs of its
      events: one per event, and each of them the cost of some event. */
  lemma {:induction false} HistoryCostsAreEventCosts(history: seq<Session>)
    ensures |HistoryCosts(history)| == EventCount(history)
    ensures forall c :: c in HistoryCosts(history) <==>
      exists i, j :: 0 <= i < |history| && 0 <= j < |history[i].upgrades| && history[i].upgrades[j].cost == c
  {
    if history != [] {
      var n := |history|;
      var front := history[..n - 1];
      HistoryCostsAreEventCosts(front);
      forall c | c in HistoryCosts(history)
        ensures exists i, j :: 0 <= i < n && 0 <= j < |history[i].upgrades| && history[i].upgrades[j].cost == c
      {
        if c in HistoryCosts(front) {
          var i, j :| 0 <= i < |front| && 0 <= j < |front[i].upgrades| && front[i].upgrades[j].cost == c;
          assert history[i] == front[i];
        } else {
          var cs := Costs(history[n - 1].upgrades);
          assert c in cs;
          var j :| 0 <= j < |cs| && cs[j] == c;
          assert history[n - 1].upgrades[j].cost == c;
        }
      }
      forall c, i, j | 0 <= i < n && 0 <= j < |history[i].upgrades| && history[i].upgrades[j].cost == c
        ensures c in HistoryCosts(history)
      {
        if i < n - 1 {
          assert front[i] == history[i];
          assert c in HistoryCosts(front);
        } else {
          assert Costs(history[n - 1].upgrades)[j] == c;
        }
      }
    }
  }

  /** What `updateGlobalStats` computes (script.js:112-135). */
  datatype GlobalStats = GlobalStats(
    totalUpgrades: nat,
    totalCost: int,
    globalAverage: int,
    minCost: Option<int>,
    maxCost: Option<int>)

  /** The statistics of a list of costs: the count and the sum; the rounded
      mean, 0 when there is none; and the least and greatest cost, absent
      exactly when there is no cost, otherwise attained and bounding every
      cost. */
  function StatsOf(costs: seq<int>): (st: GlobalStats)
    ensures st.totalUpgrades == |costs| && st.totalCost == Sum(costs)
    ensures costs == [] ==> st.globalAverage == 0
    ensures costs != [] ==>
      var n := |costs|; 2 * n * st.globalAverage - n <= 2 * Sum(costs) < 2 * n * st.globalAverage + n
    ensures st.minCost.None? <==> costs == []
    ensures st.maxCost.None? <==> costs == []
    ensures st.minCost.Some? ==> st.minCost.value in costs && forall c :: c in costs ==> st.minCost.value <= c
    ensures st.maxCost.Some? ==> st.maxCost.value in costs && forall c :: c in costs ==> c <= st.maxCost.value
  {
    var n := |costs|;
    GlobalStats(
      n,
      Sum(costs),
      if n > 0 then RoundDiv(Sum(costs), n) else 0,
      if n > 0 then Some(Min(costs)) else None,
      if n > 0 then Some(Max(costs)) else None)
  }

  /** The global average lies between the least and the greatest cost. */
  lemma GlobalAverageBetweenExtremes(costs: seq<int>)
    requires costs != []
    ensures var st := StatsOf(costs); st.minCost.value <= st.globalAverage <= st.maxCost.value
  {
    var st := StatsOf(costs);
    assert forall i :: 0 <= i < |costs| ==> costs[i] in costs;
    SumBounds(costs, st.minCost.value, st.maxCost.value);
    RoundDivWithin(Sum(costs), |costs|, st.minCost.value, st.maxCost.value);
  }

  lemma {:induction false} SumBounds(xs: seq<int>, lo: int, hi: int)
    requires forall i :: 0 <= i < |xs| ==> lo <= xs[i] <= hi
    ensures |xs| * lo <= Sum(xs) <= |xs| * hi
  {
    if xs != [] {
      var n := |xs|;
      SumBounds(xs[..n - 1], lo, hi);
      assert n * lo == (n - 1) * lo + lo && n * hi == (n - 1) * hi + hi;
    }
  }

  /** Taking the last element out of one of two sequences with the same
      elements, and a matching element out of the other, leaves two
      sequences with the same elements. */
  lemma RemoveMatching<T>(a: seq<T>, b: seq<T>, k: int)
    requires multiset(a) == multiset(b) && a != []
    requires 0 <= k < |b| && b[k] == a[|a| - 1]
    ensures b == b[..k] + [b[k]] + b[k + 1..]
    ensures multiset(a[..|a| - 1]) == multiset(b[..k] + b[k + 1..])
  {
    var n := |a|;
    var x := b[k];
    assert a == a[..n - 1] + [x];
    assert b == b[..k] + [x] + b[k + 1..];
    assert multiset(a) == multiset(a[..n - 1]) + multiset{x};
    assert multiset(b) == multiset(b[..k]) + multiset{x} + multiset(b[k + 1..]);
    assert multiset(b[..k] + b[k + 1..]) == multiset(b[..k]) + multiset(b[k + 1..]);
    assert multiset(a[..n - 1]) == multiset(a) - multiset{x};
  }

  /** The sum of a list depends only on which values it holds, with their
      multiplicities, not on their order. */
  lemma {:induction false} SumPermutation(a: seq<int>, b: seq<int>)
    requires multiset(a) == multiset(b)
    ensures Sum(a) == Sum(b)
  {
    if a == [] {
      assert |b| == |multiset(b)| == 0;
    } else {
      var n := |a|;
      var x := a[n - 1];
      assert a == a[..n - 1] + [x];
      assert x in multiset(b);
      var k :| 0 <= k < |b| && b[k] == x;
      var rest := b[..k] + b[k + 1..];
      RemoveMatching(a, b, k);
      SumPermutation(a[..n - 1], rest);
      SumAppend(b[..k] + [x], b[k + 1..]);
      SumAppend(b[..k], [x]);
      SumAppend(b[..k], b[k + 1..]);
      assert [x][..0] == [];
    }
  }

  /** Reordering a history reorders its costs and nothing more. */
  lemma {:induction false} HistoryCostsPermutation(h1: seq<Session>, h2: seq<Session>)
    requires multiset(h1) == multiset(h2)
    ensures multiset(HistoryCosts(h1)) == multiset(HistoryCosts(h2))
  {
    if h1 == [] {
      assert |h2| == |multiset(h2)| == 0;
    } else {
      var n := |h1|;
      var s := h1[n - 1];
      assert h1 == h1[..n - 1] + [s];
      assert s in multiset(h2);
      var k :| 0 <= k < |h2| && h2[k] == s;
      var rest := h2[..k] + h2[k + 1..];
      RemoveMatching(h1, h2, k);
      HistoryCostsPermutation(h1[..n - 1], rest);
      HistoryCostsAppend(h2[..k] + [s], h2[k + 1..]);
      HistoryCostsAppend(h2[..k], [s]);
      HistoryCostsAppend(h2[..k], h2[k + 1..]);
      assert [s][..0] == [];
    }
  }

  /** The statistics depend only on the multiset of costs. */
  lemma StatsOfPermutation(a: seq<int>, b: seq<int>)
    requires multiset(a) == multiset(b)
    ensures StatsOf(a) == StatsOf(b)
  {
    assert |a| == |multiset(a)| == |b|;
    SumPermutation(a, b);
    assert forall x :: x in a <==> x in b by {
      forall x ensures x in a <==> x in b {
        assert x in a <==> x in multiset(a);
        assert x in b <==> x in multiset(b);
      }
    }
  }

  /** Global statistics do not depend on the order of the history. */
  lemma StatsIgnoreHistoryOrder(current: Option<Session>, h1: seq<Session>, h2: seq<Session>)
    requires multiset(h1) == multiset(h2)
    ensures StatsOf(AllCosts(current, h1)) == StatsOf(AllCosts(current, h2))
  {
    HistoryCostsPermutation(h1, h2);
    StatsOfPermutation(AllCosts(current, h1), AllCosts(current, h2));
  }

  // ---------------------------------------------------------------------
  // The global statistics in terms of the recorded events
  // ---------------------------------------------------------------------

  /** The events of the open session; none when there is no session. */
  function OpenEvents(current: Option<Session>): seq<UpgradeEvent>
  {
    if current.Some? then current.value.upgrades else []
  }

  /** Sum of the costs of every finished session. */
  function HistoryTotal(history: seq<Session>): int
  {
    if history == [] then 0 else HistoryTotal(history[..|history| - 1]) + TotalCost(history[|history| - 1].upgrades)
  }

  lemma {:induction false} HistoryCostsSum(history: seq<Session>)
    ensures Sum(HistoryCosts(history)) == HistoryTotal(history)
  {
    if history != [] {
      var n := |history|;
      HistoryCostsSum(history[..n - 1]);
      SumAppend(HistoryCosts(history[..n - 1]), Costs(history[n - 1].upgrades));
      SumCosts(history[n - 1].upgrades);
    }
  }

  /** `c` is the cost of some event, of the open session or of a finished one. */
  ghost predicate IsEventCost(current: Option<Session>, history: seq<Session>, c: int)
  {
    || (exists j :: 0 <= j < |OpenEvents(current)| && OpenEvents(current)[j].cost == c)
    || (exists i, j :: 0 <= i < |history| && 0 <= j < |history[i].upgrades| && history[i].upgrades[j].cost == c)
  }

  /** `c` is at most every event cost. */
  ghost predicate BelowEveryCost(current: Option<Session>, history: seq<Session>, c: int)
  {
    && (forall j :: 0 <= j < |OpenEvents(current)| ==> c <= OpenEvents(current)[j].cost)
    && (forall i, j :: 0 <= i < |history| && 0 <= j < |history[i].upgrades| ==> c <= history[i].upgrades[j].cost)
  }

  /** `c` is at least every event cost. */
  ghost predicate AboveEveryCost(current: Option<Session>, history: seq<Session>, c: int)
  {
    && (forall j :: 0 <= j < |OpenEvents(current)| ==> OpenEvents(current)[j].cost <= c)
    && (forall i, j :: 0 <= i < |history| && 0 <= j < |history[i].upgrades| ==> history[i].upgrades[j].cost <= c)
  }

  /** The costs `updateGlobalStats` collects are exactly the event costs. */
  lemma AllCostsAreEventCosts(current: Option<Session>, history: seq<Session>)
    ensures |AllCosts(current, history)| == |OpenEvents(current)| + EventCount(history)
    ensures Sum(AllCosts(current, history)) == TotalCost(OpenEvents(current)) + HistoryTotal(history)
    ensures forall c :: c in AllCosts(current, history) <==> IsEventCost(current, history, c)
  {
    var open := OpenEvents(current);
    HistoryCostsAreEventCosts(history);
    HistoryCostsSum(history);
    SumCosts(open);
    assert SessionCosts(current) == Costs(open);
    SumAppend(Costs(open), HistoryCosts(history));
    forall c ensures c in Costs(open) <==> exists j :: 0 <= j < |open| && open[j].cost == c {
      if c in Costs(open) {
        var j :| 0 <= j < |open| && Costs(open)[j] == c;
      }
    }
  }

  /** What `updateGlobalStats` reports (script.js:112-135), in terms of the
      events recorded in the open session and in the history: the number
      of events, the sum of their costs, an average of 0 when there is none,
      and a least and a greatest cost that are absent exactly when there
      is no event, and otherwise are costs of events and bound every
      event's cost. */
  lemma GlobalStatsOverEvents(current: Option<Session>, history: seq<Session>)
    ensures var st := StatsOf(AllCosts(current, history));
            var count := |OpenEvents(current)| + EventCount(history);
            && st.totalUpgrades == count
            && st.totalCost == TotalCost(OpenEvents(current)) + HistoryTotal(history)
            && (count == 0 ==> st.globalAverage == 0)
            && (st.minCost.None? <==> count == 0)
            && (st.maxCost.None? <==> count == 0)
            && (st.minCost.Some? ==>
                  IsEventCost(current, history, st.minCost.value) && BelowEveryCost(current, history, st.minCost.value))
            && (st.maxCost.Some? ==>
                  IsEventCost(current, history, st.maxCost.value) && AboveEveryCost(current, history, st.maxCost.value))
  {
    var costs := AllCosts(current, history);
    var st := StatsOf(costs);
    AllCostsAreEventCosts(current, history);
    if st.minCost.Some? {
      var lo := st.minCost.value;
      var hi := st.maxCost.value;
      forall j | 0 <= j < |OpenEvents(current)|
        ensures lo <= OpenEvents(current)[j].cost <= hi
      {
        assert IsEventCost(current, history, OpenEvents(current)[j].cost);
      }
      forall i, j | 0 <= i < |history| && 0 <= j < |history[i].upgrades|
        ensures lo <= history[i].upgrades[j].cost <= hi
      {
        assert IsEventCost(current, history, history[i].upgrades[j].cost);
      }
    }
  }

  /** The converse does not hold: events whose costs cancel out average 0. */
  lemma ZeroAverageWithEvents()
    ensures StatsOf([5, -5]).totalUpgrades == 2 && StatsOf([5, -5]).globalAverage == 0
  {
    assert [5, -5][..1] == [5];
    assert Sum([5, -5]) == 0;
  }
}
