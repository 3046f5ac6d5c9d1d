/** Upgrade events and sessions: the records the tracker keeps, and the
    transitions that build a session one recorded balance at a time. */
module Sessions {

  datatype Option<+T> = None | Some(value: T)

  /** One recorded balance transition. `cost` is what the upgrade took from
      the balance; it is negative when the balance went up. Timestamps are
      opaque strings supplied by the caller. */
  datatype UpgradeEvent = UpgradeEvent(previousAmount: int, newAmount: int, cost: int, timestamp: string)

  /** A session, in progress or finished. `endTime` is set when the session
      is finalised; `source` and `sessionNumber` are set only on sessions
      produced by the text import. */
  datatype Session = Session(
    startingMoney: int,
    currentMoney: int,
    upgrades: seq<UpgradeEvent>,
    startTime: string,
    endTime: Option<string>,
    source: Option<string>,
    sessionNumber: Option<int>)

  /** The balance reached after `events`, starting from `start`. */
  function Balance(start: int, events: seq<UpgradeEvent>): int
  {
    if events == [] then start else events[|events| - 1].newAmount
  }

  /** Each event starts where the previous one ended (the first one at
      `start`) and its cost is the drop in balance. */
  predicate ChainedEvents(start: int, events: seq<UpgradeEvent>)
  {
    && (|events| > 0 ==> events[0].previousAmount == start)
    && (forall i :: 0 < i < |events| ==> events[i].previousAmount == events[i - 1].newAmount)
    && (forall i :: 0 <= i < |events| ==> events[i].cost == events[i].previousAmount - events[i].newAmount)
  }

  /** The session invariant: the events chain from the starting balance and
      the running balance is where the last event ended. */
  predicate Chained(s: Session)
  {
    ChainedEvents(s.startingMoney, s.upgrades) && s.currentMoney == Balance(s.startingMoney, s.upgrades)
  }

  /** Sum of the costs of `events`. */
  function TotalCost(events: seq<UpgradeEvent>): int
  {
    if events == [] then 0 else TotalCost(events[..|events| - 1]) + events[|events| - 1].cost
  }

  /** The session `startNewSession` creates (script.js:10-15). */
  function NewSession(startingMoney: int, now: string): (s: Session)
    ensures Chained(s) && s.upgrades == [] && s.currentMoney == startingMoney
    ensures s.endTime.None? && s.source.None? && s.sessionNumber.None? && s.startTime == now
  {
    Session(startingMoney, startingMoney, [], now, None, None, None)
  }

  /** The event `recordUpgrade` appends to `s` for the new balance `newAmount`. */
  function UpgradeTo(s: Session, newAmount: int, now: string): (e: UpgradeEvent)
    ensures e.previousAmount == s.currentMoney && e.newAmount == newAmount && e.timestamp == now
    ensures e.cost == e.previousAmount - e.newAmount
    ensures ChainedEvents(s.currentMoney, [e]) && Balance(s.currentMoney, [e]) == newAmount
  {
    UpgradeEvent(s.currentMoney, newAmount, s.currentMoney - newAmount, now)
  }

  /** `recordUpgrade` on an open session (script.js:24-33): exactly one event
      is appended, earlier events and every other field are kept, the
      running balance becomes `newAmount`, and the invariant is preserved. */
  function AppendUpgrade(s: Session, newAmount: int, now: string): (r: Session)
    ensures |r.upgrades| == |s.upgrades| + 1 && r.upgrades[..|s.upgrades|] == s.upgrades
    ensures r.upgrades[|s.upgrades|].previousAmount == s.currentMoney
    ensures r.upgrades[|s.upgrades|].newAmount == newAmount
    ensures r.upgrades[|s.upgrades|].cost == s.currentMoney - newAmount
    ensures r.upgrades[|s.upgrades|].timestamp == now
    ensures r.currentMoney == newAmount
    ensures r.startingMoney == s.startingMoney && r.startTime == s.startTime && r.endTime == s.endTime
    ensures r.source == s.source && r.sessionNumber == s.sessionNumber
    ensures TotalCost(r.upgrades) == TotalCost(s.upgrades) + s.currentMoney - newAmount
    ensures Chained(s) ==> Chained(r)
  {
    var r := s.(upgrades := s.upgrades + [UpgradeTo(s, newAmount, now)], currentMoney := newAmount);
    assert r.upgrades[..|s.upgrades|] == s.upgrades;
    r
  }

  /** The copy of a session that is put into the history: `{...session, endTime}`. */
  function Finalize(s: Session, now: string): (r: Session)
    ensures r.endTime == Some(now)
    ensures r.(endTime := s.endTime) == s
    ensures Chained(r) <==> Chained(s)
  {
    s.(endTime := Some(now))
  }

  /** Over a chained session the costs telescope: their sum is what the
      balance dropped by from the start. */
  lemma {:induction false} ChainedCostTelescopes(start: int, events: seq<UpgradeEvent>)
    requires ChainedEvents(start, events)
    ensures TotalCost(events) == start - Balance(start, events)
  {
    if events != [] {
      var n := |events|;
      var prefix := events[..n - 1];
      assert ChainedEvents(start, prefix) by {
        forall i | 0 < i < |prefix| ensures prefix[i].previousAmount == prefix[i - 1].newAmount {
          assert prefix[i] == events[i] && prefix[i - 1] == events[i - 1];
        }
      }
      ChainedCostTelescopes(start, prefix);
      assert n > 1 ==> events[n - 1].previousAmount == Balance(start, prefix);
    }
  }

  /** The events that moving a balance from `start` successively to each of
      `amounts` records, in closed form. */
  function EventsThrough(start: int, amounts: seq<int>, now: string): (events: seq<UpgradeEvent>)
    ensures |events| == |amounts|
    ensures ChainedEvents(start, events)
    ensures Balance(start, events) == if amounts == [] then start else amounts[|amounts| - 1]
  {
    seq(|amounts|, i requires 0 <= i < |amounts| =>
      var previous := if i == 0 then start else amounts[i - 1];
      UpgradeEvent(previous, amounts[i], previous - amounts[i], now))
  }

  /** Moving the balance through one more amount records one more event,
      from where the balance stood to that amount. */
  lemma EventsThroughSnoc(start: int, amounts: seq<int>, now: string)
    requires amounts != []
    ensures var n := |amounts|;
            var previous := if n == 1 then start else amounts[n - 2];
            EventsThrough(start, amounts, now)
            == EventsThrough(start, amounts[..n - 1], now) + [UpgradeEvent(previous, amounts[n - 1], previous - amounts[n - 1], now)]
  {
  }

  /** `recordUpgrade` applied once for each of `amounts`, in order. */
  function RecordAll(s: Session, amounts: seq<int>, now: string): Session
  {
    if amounts == [] then s
    else AppendUpgrade(RecordAll(s, amounts[..|amounts| - 1], now), amounts[|amounts| - 1], now)
  }

  /** After N calls of `recordUpgrade` the session holds exactly the N events
      those calls describe and its balance is the last amount recorded. */
  lemma {:induction false} RecordAllClosedForm(s: Session, amounts: seq<int>, now: string)
    ensures RecordAll(s, amounts, now)
      == s.(upgrades := s.upgrades + EventsThrough(s.currentMoney, amounts, now),
            currentMoney := if amounts == [] then s.currentMoney else amounts[|amounts| - 1])
  {
    if amounts != [] {
      var n := |amounts|;
      var front := amounts[..n - 1];
      RecordAllClosedForm(s, front, now);
      var before := RecordAll(s, front, now);
      var previous := if n == 1 then s.currentMoney else amounts[n - 2];
      assert before.currentMoney == previous;
      var event := UpgradeTo(before, amounts[n - 1], now);
      assert event == UpgradeEvent(previous, amounts[n - 1], previous - amounts[n - 1], now);
      EventsThroughSnoc(s.currentMoney, amounts, now);
      var earlier := EventsThrough(s.currentMoney, front, now);
      assert before.upgrades + [event] == s.upgrades + (earlier + [event]);
    }
  }
}
