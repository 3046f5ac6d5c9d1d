/** The `UpgradeTracker` object (script.js:1-259): the session being played
    and the history of finished sessions, and the operations that change
    them. Rendering, persistence, dialogs and clocks are not modelled: each
    operation receives its timestamp `now` as a parameter, a confirmation
    dialog's answer as a boolean, and the outcome of `JSON.parse` as a
    value. */
module Tracker {
  import opened Sessions
  import opened Stats
  import opened TextImport

  // ---------------------------------------------------------------------
  // History surgery
  // ---------------------------------------------------------------------

  /** `history.splice(index, 1)` for a non-negative index: the entry at
      `index` is removed and the others keep their order; an index past the
      end removes nothing. */
  function RemoveAt(h: seq<Session>, index: nat): (r: seq<Session>)
    ensures index < |h| ==> |r| == |h| - 1
    ensures index < |h| ==> forall k :: 0 <= k < index ==> r[k] == h[k]
    ensures index < |h| ==> forall k :: index <= k < |r| ==> r[k] == h[k + 1]
    ensures index >= |h| ==> r == h
  {
    if index < |h| then h[..index] + h[index + 1..] else h
  }

  /** Where `splice(index, ...)` starts on a list of `length` entries: a
      negative index counts back from the end, and the position is clamped
      to the list. */
  function SpliceStart(length: nat, index: int): (start: nat)
    ensures start <= length
    ensures 0 <= index <= length ==> start == index
    ensures -(length as int) <= index < 0 ==> start + -index == length
    ensures index < -(length as int) ==> start == 0
    ensures index > length ==> start == length
  {
    if index < 0 then (if length + index < 0 then 0 else length + index)
    else if index > length then length
    else index
  }

  /** Removing an entry takes exactly that entry out of the history, as a
      multiset. */
  lemma RemoveAtTakesOneOut(h: seq<Session>, index: nat)
    requires index < |h|
    ensures multiset(RemoveAt(h, index)) + multiset{h[index]} == multiset(h)
  {
    assert h == h[..index] + [h[index]] + h[index + 1..];
  }

  /** The history read backwards, latest session first. */
  function Reverse(h: seq<Session>): (r: seq<Session>)
    ensures |r| == |h|
  {
    if h == [] then [] else [h[|h| - 1]] + Reverse(h[..|h| - 1])
  }

  /** Position `p` of the reversed history holds entry `|h| - 1 - p`. */
  lemma {:induction false} ReverseAt(h: seq<Session>)
    ensures forall p :: 0 <= p < |h| ==> Reverse(h)[p] == h[|h| - 1 - p]
  {
    if h != [] {
      ReverseAt(h[..|h| - 1]);
    }
  }

  /** Reversing twice gives back the history in its original order. */
  lemma ReverseTwice(h: seq<Session>)
    ensures Reverse(Reverse(h)) == h
  {
    ReverseAt(h);
    ReverseAt(Reverse(h));
  }

  /** Removing position `p` of the reversed history is removing entry
      `|h| - 1 - p` of the history, read backwards. */
  lemma ReverseRemoveAt(h: seq<Session>, p: nat)
    requires p < |h|
    ensures Reverse(RemoveAt(h, |h| - 1 - p)) == RemoveAt(Reverse(h), p)
  {
    var rest := RemoveAt(h, |h| - 1 - p);
    ReverseAt(h);
    ReverseAt(rest);
    var left := Reverse(rest);
    var right := RemoveAt(Reverse(h), p);
    forall q | 0 <= q < |left|
      ensures left[q] == right[q]
    {
      if q < p {
        assert left[q] == rest[|h| - 2 - q] == h[|h| - 1 - q] == Reverse(h)[q];
      } else {
        assert left[q] == rest[|h| - 2 - q] == h[|h| - 2 - q] == Reverse(h)[q + 1];
      }
    }
  }

  /** The delete button of the row shown at position `p` (script.js:104)
      names the chronological index of the session shown there, and
      deleting that index removes exactly that row from the display. */
  lemma DeleteButtonMatchesRow(h: seq<Session>, p: nat)
    requires p < |h|
    ensures 0 <= |h| - 1 - p < |h| && h[|h| - 1 - p] == Reverse(h)[p]
    ensures Reverse(RemoveAt(h, |h| - 1 - p)) == RemoveAt(Reverse(h), p)
  {
    ReverseAt(h);
    ReverseRemoveAt(h, p);
  }

  /** Deleting a session drops exactly its events from the global count. */
  lemma DeleteDropsItsEvents(h: seq<Session>, index: nat)
    requires index < |h|
    ensures EventCount(RemoveAt(h, index)) + |h[index].upgrades| == EventCount(h)
  {
    var before := h[..index];
    var after := h[index + 1..];
    assert h == before + [h[index]] + after;
    assert RemoveAt(h, index) == before + after;
    HistoryCostsAppend(before + [h[index]], after);
    HistoryCostsAppend(before, [h[index]]);
    HistoryCostsAppend(before, after);
    assert [h[index]][..0] == [];
    HistoryCostsAreEventCosts(h);
    HistoryCostsAreEventCosts(before + after);
    HistoryCostsAreEventCosts(before);
    HistoryCostsAreEventCosts(after);
    HistoryCostsAreEventCosts([h[index]]);
  }

  /** Walking the history one more session adds that session's costs. */
  lemma HistoryCostsStep(base: seq<int>, h: seq<Session>, k: nat)
    requires k < |h|
    ensures base + HistoryCosts(h[..k]) + Costs(h[k].upgrades) == base + HistoryCosts(h[..k + 1])
  {
    assert h[..k + 1][..k] == h[..k];
  }

  /** The `forEach` over the finished sessions in `updateGlobalStats`
      (script.js:126-131): starting from the tallies so far, each
      session's costs are counted, added to the total and appended to the
      list of all costs. */
  method AccumulateHistory(h: seq<Session>, upgrades0: nat, cost0: int, costs0: seq<int>)
    returns (totalUpgrades: nat, totalCost: int, allCosts: seq<int>)
    requires upgrades0 == |costs0| && cost0 == Sum(costs0)
    ensures allCosts == costs0 + HistoryCosts(h)
    ensures totalUpgrades == |allCosts| && totalCost == Sum(allCosts)
  {
    totalUpgrades, totalCost, allCosts := upgrades0, cost0, costs0;
    assert costs0 + HistoryCosts(h[..0]) == costs0;
    for k := 0 to |h|
      invariant allCosts == costs0 + HistoryCosts(h[..k])
      invariant totalUpgrades == |allCosts| && totalCost == Sum(allCosts)
    {
      var sessionCosts := Costs(h[k].upgrades);
      HistoryCostsStep(costs0, h, k);
      SumAppend(allCosts, sessionCosts);
      totalUpgrades := totalUpgrades + |h[k].upgrades|;
      totalCost := totalCost + Sum(sessionCosts);
      allCosts := allCosts + sessionCosts;
    }
    assert h[..|h|] == h;
  }

  // ---------------------------------------------------------------------
  // What the history display shows
  // ---------------------------------------------------------------------

  /** One row of the history list (script.js:92-104): the session's start
      time, starting balance, number of upgrades, average and total cost,
      and the index its delete button passes to `deleteSession`. */
  datatype HistoryRow = HistoryRow(
    startTime: string,
    startingMoney: int,
    upgradeCount: nat,
    averageCost: int,
    totalCost: int,
    deleteIndex: int)

  /** The row shown for session `s` whose delete button carries `deleteIndex`. */
  function RowOf(s: Session, deleteIndex: int): HistoryRow
  {
    HistoryRow(s.startTime, s.startingMoney, |s.upgrades|, SessionAverage(s), TotalCost(s.upgrades), deleteIndex)
  }

  /** The figures one history row shows (script.js:92-93, 99-104): the
      total of the costs, and their mean rounded half up, 0 when the
      session has no upgrades. */
  method SessionRow(session: Session, deleteIndex: int) returns (row: HistoryRow)
    ensures row == RowOf(session, deleteIndex)
  {
    var totalCost := Sum(Costs(session.upgrades));
    SumCosts(session.upgrades);
    var averageCost := if |session.upgrades| > 0 then RoundDiv(totalCost, |session.upgrades|) else 0;
    row := HistoryRow(session.startTime, session.startingMoney, |session.upgrades|, averageCost, totalCost, deleteIndex);
  }

  // ---------------------------------------------------------------------
  // Imports
  // ---------------------------------------------------------------------

  /** What `JSON.parse(importString)` and the read of `data.upgrades` give:
      either an exception (the text is not JSON, or it is `null`), or a
      value whose `upgrades` member is a list of sessions (`Some`) or is
      absent or otherwise falsy (`None`). */
  datatype JsonOutcome = Unparsable | Parsed(upgrades: Option<seq<Session>>)

  /** The message an import ends with. */
  datatype ImportResult = JsonImported | TextImported(count: nat) | NoValidData

  // ---------------------------------------------------------------------
  // The tracker
  // ---------------------------------------------------------------------

  class UpgradeTracker {
    /** The session being played, if any. */
    var currentSession: Option<Session>
    /** The finished sessions, oldest first (`this.upgrades` in the source). */
    var history: seq<Session>

    /** Loading the stored state (script.js:3-4): a missing history is an
        empty one, a missing session is none. */
    constructor (storedHistory: Option<seq<Session>>, storedSession: Option<Session>)
      ensures history == (if storedHistory.Some? then storedHistory.value else [])
      ensures currentSession == storedSession
    {
      history := if storedHistory.Some? then storedHistory.value else [];
      currentSession := storedSession;
    }

    /** `startNewSession` (script.js:9-15): any session being played is
        replaced by a fresh one at `startingMoney`; the history is kept. */
    method StartNewSession(startingMoney: int, now: string)
      modifies this
      ensures currentSession == Some(NewSession(startingMoney, now))
      ensures history == old(history)
    {
      currentSession := Some(NewSession(startingMoney, now));
    }

    /** `recordUpgrade` (script.js:21-33): without a session nothing
        changes; otherwise one event from the running balance to
        `newAmount` is appended, the running balance becomes `newAmount`,
        and the session invariant is kept. */
    method RecordUpgrade(newAmount: int, now: string)
      modifies this
      ensures old(currentSession).None? ==> currentSession == old(currentSession)
      ensures old(currentSession).Some? ==> currentSession == Some(AppendUpgrade(old(currentSession).value, newAmount, now))
      ensures old(currentSession).Some? && Chained(old(currentSession).value) ==> Chained(currentSession.value)
      ensures history == old(history)
    {
      if currentSession.None? {
        return;
      }
      var session := currentSession.value;
      var upgrade := UpgradeTo(session, newAmount, now);
      session := session.(upgrades := session.upgrades + [upgrade]);
      session := session.(currentMoney := newAmount);
      currentSession := Some(session);
    }

    /** `getAverageCost` (script.js:39-44): 0 without a session or without
        upgrades, otherwise the mean cost rounded half up. */
    function GetAverageCost(): (r: int)
      reads this
      ensures currentSession.None? || currentSession.value.upgrades == [] ==> r == 0
      ensures currentSession.Some? && currentSession.value.upgrades != [] ==>
        var n := |currentSession.value.upgrades|;
        2 * n * r - n <= 2 * TotalCost(currentSession.value.upgrades) < 2 * n * r + n
    {
      if currentSession.None? || |currentSession.value.upgrades| == 0 then 0
      else SessionAverage(currentSession.value)
    }

    /** `resetSession` (script.js:46-53): a session that recorded an upgrade
        is finalised and appended to the history; an empty one is dropped;
        afterwards no session is open. */
    method ResetSession(now: string)
      modifies this
      ensures currentSession.None?
      ensures old(currentSession).Some? && |old(currentSession).value.upgrades| > 0 ==>
        history == old(history) + [Finalize(old(currentSession).value, now)]
      ensures old(currentSession).None? || |old(currentSession).value.upgrades| == 0 ==>
        history == old(history)
    {
      if currentSession.Some? && |currentSession.value.upgrades| > 0 {
        history := history + [currentSession.value.(endTime := Some(now))];
      }
      currentSession := None;
    }

    /** `deleteSession` (script.js:144-145): `splice(index, 1)` removes the
        entry at `index`, counted from the end when `index` is negative,
        and nothing when that position is outside the history. */
    method DeleteSession(index: int)
      modifies this
      ensures history == RemoveAt(old(history), SpliceStart(|old(history)|, index))
      ensures currentSession == old(currentSession)
    {
      var start := SpliceStart(|history|, index);
      if start < |history| {
        history := history[..start] + history[start + 1..];
      }
    }

    /** `clearHistory` (script.js:150-155): empties the history when the
        user confirms. */
    method ClearHistory(confirmed: bool)
      modifies this
      ensures history == (if confirmed then [] else old(history))
      ensures currentSession == old(currentSession)
    {
      if confirmed {
        history := [];
      }
    }

    /** The accumulation of `updateGlobalStats` (script.js:113-131): the
        costs of the open session, when it has upgrades, then those of every
        finished session in order, with their number and sum. */
    method CollectCosts() returns (totalUpgrades: nat, totalCost: int, allCosts: seq<int>)
      ensures allCosts == AllCosts(currentSession, history)
      ensures totalUpgrades == |allCosts| && totalCost == Sum(allCosts)
    {
      totalUpgrades := 0;
      totalCost := 0;
      allCosts := [];
      var current := currentSession;
      if current.Some? && |current.value.upgrades| > 0 {
        var sessionCosts := Costs(current.value.upgrades);
        totalUpgrades := totalUpgrades + |sessionCosts|;
        totalCost := totalCost + Sum(sessionCosts);
        allCosts := sessionCosts;
      }
      totalUpgrades, totalCost, allCosts := AccumulateHistory(history, totalUpgrades, totalCost, allCosts);
    }

    /** `updateGlobalStats` (script.js:112-135): the collected costs are
        counted, summed, averaged and their extremes taken. */
    method UpdateGlobalStats() returns (st: GlobalStats)
      ensures st == StatsOf(AllCosts(currentSession, history))
    {
      var totalUpgrades, totalCost, allCosts := CollectCosts();
      var globalAverage := if totalUpgrades > 0 then RoundDiv(totalCost, totalUpgrades) else 0;
      var minCost := if |allCosts| > 0 then Some(Min(allCosts)) else None;
      var maxCost := if |allCosts| > 0 then Some(Max(allCosts)) else None;
      st := GlobalStats(totalUpgrades, totalCost, globalAverage, minCost, maxCost);
    }

    /** `displayHistory` (script.js:77-110): the global statistics, then the
        rows of the finished sessions; the history is left as it was. */
    method DisplayHistory() returns (st: GlobalStats, rows: seq<HistoryRow>)
      modifies this
      ensures history == old(history) && currentSession == old(currentSession)
      ensures st == StatsOf(AllCosts(currentSession, history))
      ensures |rows| == |history|
      ensures forall p :: 0 <= p < |rows| ==> rows[p] == RowOf(history[|history| - 1 - p], |history| - 1 - p)
    {
      st := UpdateGlobalStats();
      rows := ListHistory();
    }

    /** The history list of `displayHistory` (script.js:83-109): one row per
        finished session, latest first. The history is reversed in place
        for the walk and reversed back afterwards, so its order is
        unchanged; the row at position `p` shows the session at
        chronological index `|history| - 1 - p`, which is the index its
        delete button carries. */
    method ListHistory() returns (rows: seq<HistoryRow>)
      modifies this
      ensures history == old(history) && currentSession == old(currentSession)
      ensures |rows| == |history|
      ensures forall p :: 0 <= p < |rows| ==> rows[p] == RowOf(history[|history| - 1 - p], |history| - 1 - p)
    {
      rows := [];
      if |history| == 0 {
        return;
      }
      ghost var original := history;
      ReverseAt(original);
      history := Reverse(history);
      var length := |history|;
      for index := 0 to length
        invariant history == Reverse(original) && currentSession == old(currentSession)
        invariant |rows| == index
        invariant forall p :: 0 <= p < index ==> rows[p] == RowOf(original[length - 1 - p], length - 1 - p)
      {
        assert history[index] == original[length - 1 - index];
        var row := SessionRow(history[index], length - 1 - index);
        rows := rows + [row];
      }
      history := Reverse(history);
      ReverseTwice(original);
    }

    /** `importTextNotes` (script.js:178-196): the sessions read from the
        text are appended to the history; when there are none, nothing
        changes. */
    method ImportTextNotes(textNotes: string, now: string) returns (result: ImportResult)
      modifies this
      ensures var sessions := TextNotes(textNotes, now);
        && (sessions == [] ==> result == NoValidData && history == old(history))
        && (sessions != [] ==> result == TextImported(|sessions|) && history == old(history) + sessions)
      ensures currentSession == old(currentSession)
    {
      var sessions := ParseTextNotes(textNotes, now);
      if |sessions| == 0 {
        return NoValidData;
      }
      history := history + sessions;
      result := TextImported(|sessions|);
    }

    /** `importData` (script.js:159-176): a JSON document appends the
        sessions of its `upgrades` member, if it has one, and does not fall
        back to the text importer even when it has none; a text that does
        not parse as JSON is imported as notes. */
    method ImportData(parsed: JsonOutcome, importString: string, now: string) returns (result: ImportResult)
      modifies this
      ensures parsed.Parsed? ==> result == JsonImported
      ensures parsed.Parsed? && parsed.upgrades.Some? ==> history == old(history) + parsed.upgrades.value
      ensures parsed.Parsed? && parsed.upgrades.None? ==> history == old(history)
      ensures parsed.Unparsable? ==>
        var sessions := TextNotes(importString, now);
        && result == (if sessions == [] then NoValidData else TextImported(|sessions|))
        && history == old(history) + sessions
      ensures currentSession == old(currentSession)
    {
      match parsed
      case Unparsable =>
        result := ImportTextNotes(importString, now);
      case Parsed(upgrades) =>
        if upgrades.Some? {
          history := history + upgrades.value;
        }
        result := JsonImported;
    }
  }
}
