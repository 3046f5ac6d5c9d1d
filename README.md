# MSM SF17 upgrade cost tracker: a Dafny model of its core

The tracker records, for one play session, the balance a player starts
with and each balance they reach after an upgrade. It derives the cost of
each upgrade (old balance minus new balance), keeps a history of finished
sessions and shows statistics over every recorded cost. It can also import
sessions from a JSON document or from plain-text notes (one balance per
line, sessions separated by lines of dashes).

All of this lives in the `UpgradeTracker` class of `script.js`. The model
has four modules:

- `Sessions` (`sessions.dfy`): the session and upgrade-event records.
  - Operations: opening a session, recording an upgrade, finalising a
    session.
  - The session invariant: events chain from the starting balance, and each
    cost is the balance drop.
  - The telescoping of costs, and the closed form of any number of recorded
    upgrades.
- `Stats` (`stats.dfy`): the statistics.
  - `Math.round(sum / n)`, computed on exact integers as `floor((2*sum + n) / (2*n))`.
  - The per-session average and total.
  - The global count, total, rounded average, minimum and maximum.
  - Their meaning in terms of the recorded events, and their independence
    from the order of the history.
- `TextImport` (`text_import.dfy`): `parseTextNotes`. The steps it models:
  - split at line feeds;
  - trim with ECMAScript white space and drop blank lines;
  - recognise `/^-+$/` separators;
  - strip `\s` and read with radix-less `parseInt`, including the `0x`
    prefix;
  - run the scanning loop as an imperative method, proved against a fold
    of a step function.

  The scan is also proved equal to a reference definition: the numbers
  between separators form blocks, and each block of two or more numbers
  gives one session.
- `Tracker` (`tracker.dfy`): the class `UpgradeTracker`.
  - Its two fields: `currentSession` (an `Option<Session>`) and `history`
    (the source's `this.upgrades`, a `seq<Session>`).
  - Its methods change those fields as the source does.
  - The accumulation loop of `updateGlobalStats`.
  - The reverse / walk / reverse-back of `displayHistory`, and the mapping
    from a displayed row to the index its delete button carries.
  - The dispatch of `importData` between JSON and text.

`Samples` (`samples.dfy`) works the notes `"1000\n1500\n2000\n-----\n500\n800\n"`
through the importer. They give two sessions:
- 1000 to 1500 to 2000, with costs -500 and -500;
- 500 to 800, with cost -300, numbered 2.

A lone number imports nothing.

Clocks are replaced by a `now: string` parameter, and a confirmation
dialog by a boolean. `JSON.parse`, together with the read of its
`upgrades` member, is replaced by a `JsonOutcome` value:
- `Unparsable`: the call threw;
- `Parsed(None)`: the document has no usable `upgrades`;
- `Parsed(Some(sessions))`: the document carries those sessions.

Three behaviours of the code are easy to misread, and the model keeps them:
- `Math.round` sends ties toward +infinity (`-2.5` rounds to `-2`), which
  is neither half-away-from-zero nor half-to-even.
- `importData` reports a JSON import without a count (script.js:170).
- `deleteSession` with a negative index removes an entry counted from the
  end, as `splice` does (script.js:145). An index at or past the end is a
  no-op.

## Model

| member | source | states |
|---|---|---|
| Sessions.NewSession | script.js:9-15 | A new session starts and stands at the given balance, has no events, is stamped with the current time and satisfies the session invariant. |
| Sessions.UpgradeTo | script.js:24-30 | The event runs from the session's running balance to the new amount, carries the timestamp, and its cost is the old balance minus the new one. On its own it is a chain from that balance that ends at the new amount. |
| Sessions.AppendUpgrade | script.js:24-33 | Recording an upgrade appends exactly one event. It runs from the old balance to the new amount, its cost is their difference, and it carries the current time. Earlier events and every other field are unchanged. The balance becomes the new amount, the total cost grows by the event's cost, and the invariant is preserved. |
| Sessions.Finalize | script.js:48 | The history copy of a session gets its end time, and nothing else changes. The invariant holds for the copy exactly when it holds for the session. |
| Sessions.ChainedCostTelescopes | script.js:21-33 | Over chained events, the costs add up to the starting balance minus the final balance. |
| Sessions.EventsThrough | script.js:21-33 | Moving a balance through a list of amounts produces one event per amount. The events are chained from the start, and the balance ends at the last amount. |
| Sessions.EventsThroughSnoc | script.js:24-33 | One more amount adds exactly one event, from the previous amount (or the starting balance) to the new one. |
| Sessions.RecordAllClosedForm | script.js:21-33 | After N `recordUpgrade` calls, the session holds its earlier events followed by exactly the N events of those amounts. Its balance is the last amount. |
| Stats.RoundDiv | script.js:43 | `Math.round(sum / n)` on the exact quotient: the integer nearest to it, with ties going up, 2nr - n <= 2sum < 2nr + n. |
| Stats.RoundDivWithin | script.js:43 | A rounded mean of values in [lo, hi] stays in [lo, hi]. |
| Stats.SumAppend | script.js:42 | The sum of a concatenation is the sum of the sums. |
| Stats.Min | script.js:134 | `Math.min(...costs)` is one of the costs and at most every cost. |
| Stats.Max | script.js:135 | `Math.max(...costs)` is one of the costs and at least every cost. |
| Stats.Costs | script.js:120 | `upgrades.map(u => u.cost)` keeps the length and takes each event's cost, position by position. |
| Stats.SumCosts | script.js:120-121 | Reducing the mapped costs gives the events' total cost. |
| Stats.TotalCostBounds | script.js:42 | When every cost lies in [lo, hi], the total lies between n*lo and n*hi. |
| Stats.SessionAverage | script.js:39-44 | The average is 0 without events. Otherwise it is the mean cost rounded half up. |
| Stats.AverageWithinCostRange | script.js:39-44 | For a session with at least one upgrade, when every cost lies in [lo, hi], so does its average. |
| Stats.SessionTotalIsBalanceDrop | script.js:92 | For a session that keeps the invariant, the total shown is the starting balance minus the current balance. |
| Stats.HistoryCostsAppend | script.js:126-131 | The costs of two histories joined are the costs of each, in order. |
| Stats.HistoryCostsAreEventCosts | script.js:126-131 | The costs collected from the history are one per event, and a value is among them exactly when it is some event's cost. |
| Stats.HistoryCostsSum | script.js:126-131 | The collected history costs add up to the sum of the sessions' totals. |
| Stats.StatsOf | script.js:133-135 | The statistics of a list of costs: the count and the sum. The average is 0 when there are no costs and the half-up rounded mean otherwise. Minimum and maximum are absent exactly when there is no cost, and otherwise are attained and bound every cost. |
| Stats.GlobalAverageBetweenExtremes | script.js:133-135 | The global average lies between the minimum and the maximum cost. |
| Stats.SumBounds | script.js:133 | Values that lie in [lo, hi] have a sum between n*lo and n*hi. |
| Stats.SumPermutation | script.js:121 | The sum depends only on the multiset of values. |
| Stats.HistoryCostsPermutation | script.js:126-131 | Reordering the history reorders the collected costs and does nothing else. |
| Stats.StatsOfPermutation | script.js:133-135 | The statistics depend only on the multiset of costs. |
| Stats.StatsIgnoreHistoryOrder | script.js:112-135 | The global statistics do not depend on the order of the history. |
| Stats.AllCostsAreEventCosts | script.js:113-131 | The costs collected by `updateGlobalStats` number the open session's events plus the history's events. They sum to those events' total, and a value is among them exactly when it is some event's cost. |
| Stats.GlobalStatsOverEvents | script.js:112-135 | In terms of events: `totalUpgrades` is the number of events and `totalCost` the sum of their costs. The average is 0 when there are none. Minimum and maximum are absent exactly when there are no events, and otherwise are event costs that bound every event's cost. |
| Stats.ZeroAverageWithEvents | script.js:133 | The average can be 0 while there are events: the costs 5 and -5 count 2 and average 0. |
| TextImport.SplitLines | script.js:199 | `split('\n')` gives at least one piece, none holding a line feed, and joining the pieces with line feeds gives back the text. |
| TextImport.SplitLinesPrefix | script.js:199 | A leading piece without line feeds heads the first line of the split. |
| TextImport.SplitLinesAfterLine | script.js:199 | A line followed by a line feed becomes the first piece, and the rest is split on its own. |
| TextImport.SplitTerminated | script.js:199 | Lines that each end in a line feed split back into those lines plus one empty piece. |
| TextImport.SplitJoin | script.js:199 | Splitting undoes joining, for lines without line feeds. |
| TextImport.TrimStart | script.js:199 | Trimming the start drops a prefix made only of white space, and the result does not start with white space. |
| TextImport.TrimEnd | script.js:199 | Trimming the end drops a suffix made only of white space, and the result does not end with white space. |
| TextImport.TrimIsPiece | script.js:199 | `trim()` returns a contiguous piece of the line, and everything before and after that piece is white space. |
| TextImport.PieceOfPiece | script.js:199 | A piece cut from the end of a piece cut from the start, with white space cut off on each side, stands in the line with only white space around it. |
| TextImport.TrimEnds | script.js:199 | The trimmed line is empty or neither starts nor ends with white space. |
| TextImport.TrimmedIsFixed | script.js:199 | Trimming leaves unchanged a line that neither starts nor ends with white space. |
| TextImport.TrimTwice | script.js:199 | Trimming is idempotent. |
| TextImport.TrimEmptyIffBlank | script.js:199 | A trimmed line is empty exactly when the line is all white space. |
| TextImport.NonBlankLines | script.js:199 | Trimming and filtering keeps at most as many lines as there were, and none of them is empty. Which lines are kept, and as what, is stated by NonBlankLineIsKept and BlankLineIsDropped. |
| TextImport.NonBlankLinesAreTrimmed | script.js:199 | Every line kept is its own trim. |
| TextImport.NonBlankLineIsKept | script.js:199 | A line that is not blank, wherever it stands, is kept as its trim, between the lines kept before and after it. |
| TextImport.NonBlankLinesKeepsTrimmed | script.js:199 | Lines that are already trimmed and not empty all pass through unchanged. |
| TextImport.NonBlankLinesAppend | script.js:199 | Trimming and filtering distributes over concatenation. |
| TextImport.BlankLineIsDropped | script.js:199 | A blank line leaves no trace in the lines the importer reads, wherever it stands. |
| TextImport.RemoveWhiteSpace | script.js:221 | `replace(/\s/g, '')` never lengthens the line. Its contents and their order are stated by RemoveWhiteSpaceAppend and RemoveWhiteSpaceChar, which together determine it. |
| TextImport.RemoveWhiteSpaceKeepsTheRest | script.js:221 | Removing white space leaves none, keeps exactly the other characters, and leaves a line without white space unchanged. |
| TextImport.RemoveWhiteSpaceAppend | script.js:221 | Removing white space works piece by piece, so the remaining characters keep their order. |
| TextImport.RemoveWhiteSpaceChar | script.js:221 | A single character is dropped if it is white space and kept otherwise. |
| TextImport.DigitValue | script.js:221 | `0` to `9` are worth 0 to 9, and `a` to `f` and `A` to `F` are worth 10 to 15. |
| TextImport.DigitRun | script.js:221 | `parseInt` reads the longest prefix of digits of its base: every character in the prefix is a digit, and the next one is not. |
| TextImport.ParseUnsigned | script.js:221 | After a `0x`/`0X` prefix the base is 16, otherwise 10. The result is NaN exactly when the text after the prefix is empty or does not start with a digit of the base. |
| TextImport.ParseInt | script.js:221 | An optional sign, then the unsigned numeral: NaN exactly when the unsigned part is. A leading `-` gives a value at most 0, and otherwise the value is at least 0. |
| TextImport.ParseIntSign | script.js:221 | A leading `-` negates the value of the numeral after it. |
| TextImport.LeadingZeroValue | script.js:221 | A leading zero does not change the value of a numeral, in either base. |
| TextImport.ParseUnsignedReadsDigits | script.js:221 | Without a hexadecimal prefix, the unsigned part of `parseInt` reads the value of its leading run of decimal digits, leading zeros included, whatever non-digit follows. The one exception is a lone `0` followed by `x` or `X`. |
| TextImport.ParseUnsignedReadsHex | script.js:221 | After `0x` or `0X`, the unsigned part of `parseInt` reads the value of its leading run of hexadecimal digits, in either case, whatever non-digit follows. |
| TextImport.HexDigit | script.js:221 | The digit written for a value below 16 is a hexadecimal digit worth that value. |
| TextImport.HexStringValue | script.js:221 | A hexadecimal numeral is worth the number it writes. |
| TextImport.ParseUnsignedReadsHexString | script.js:221 | The unsigned part of `parseInt` reads back any natural written in hexadecimal after `0x`. |
| TextImport.ParseIntSigns | script.js:221 | A leading `+` is ignored and a leading `-` negates, whatever follows, provided it is not a second sign. |
| TextImport.ParseUnsignedReadsDecimal | script.js:221 | The unsigned part of `parseInt` reads back a decimal numeral, whatever non-digit follows it, unless that character is an `x` that would turn a lone `0` into a hexadecimal prefix. |
| TextImport.ParseIntReadsDecimal | script.js:221 | `parseInt` reads back any integer written in decimal, under the same condition on what follows. |
| TextImport.NumeralLineIsAmount | script.js:206-223 | A line holding an integer's decimal numeral is classified as that amount. |
| TextImport.Classify | script.js:206-223 | A line is a separator exactly when it matches `/^-+$/`. Otherwise it is the amount `parseInt` reads from it once its white space is removed, and it is skipped exactly when that read gives NaN. |
| TextImport.Kinds | script.js:204-223 | Each line is classified on its own, in order. |
| TextImport.Opened | script.js:227-234 | A first number opens a session that starts and stands at that amount, has no upgrades, is stamped with the current time, carries the import tag and the current counter, and satisfies the session invariant. |
| TextImport.Close | script.js:208-213 | Completing the session being read keeps the earlier sessions. It adds one more exactly when a session with an upgrade was open, and that one is the session with its end time. |
| TextImport.Step | script.js:204-248 | A skipped line changes nothing. A separator completes the open session, leaves none open and advances the counter. A number opens a session at that amount when none is open, and otherwise records the upgrade on the open one exactly as `recordUpgrade` does (one event appended, every other field kept). The counter and completed sessions stay. |
| TextImport.ParseTextNotes | script.js:198-258 | `parseTextNotes` returns the sessions that the cleaned lines of the text describe. |
| TextImport.ScanLines | script.js:200-257 | The loop, with its local session, counter and result list, returns what the fold of the step function over the lines' kinds gives. |
| TextImport.RunFromAppend | script.js:204-248 | Scanning two runs of lines is scanning the second from where the first left off. |
| TextImport.SkippedLineIsInert | script.js:221-223 | A line that is neither a separator nor a number has no effect, wherever it stands. |
| TextImport.Blocks | script.js:206-217 | The numbers between separators form exactly one block more than there are separators. |
| TextImport.AppendExtendsBlockSession | script.js:235-247 | Recording one more number on a block's session gives the session of the extended block. |
| TextImport.StepTracksBlocks | script.js:204-248 | Each line moves the scanner's state in step with the blocks. |
| TextImport.ScanFollowsBlocks | script.js:204-248 | After any prefix of the lines, the scanner's counter, completed sessions and open session are those of the prefix's blocks. |
| TextImport.CloseEmitsLastBlock | script.js:251-256 | The final close emits the last block's session, if it has an upgrade. |
| TextImport.ScanIsBlockSessions | script.js:198-258 | The sessions returned are those of the blocks that hold at least two numbers, numbered by block. |
| TextImport.EmitProperties | script.js:208-256 | The sessions of n blocks are at most n. Each has an upgrade, chained events, the import tag and its end time. Their numbers increase strictly and lie between 1 and n. |
| TextImport.ScanProperties | script.js:198-258 | Every session returned has at least one upgrade. Its events chain from its starting balance, its balance is the last amount, and its costs add up to the balance drop. There are at most one more sessions than separators, and their numbers increase strictly. |
| TextImport.CountSeparatorsMonotone | script.js:216 | A longer prefix of the lines holds at least as many separators. |
| TextImport.OpeningLineIsUnique | script.js:226-234 | Two sessions with the same number were opened by the same line, so they have the same starting balance. |
| TextImport.ScanOpensAt | script.js:202-234 | While scanning, the counter is one more than the separators read. Every session, open or completed, was opened by the first number line of its block, which holds its starting balance; its number is one more than the separators before that line. With no session open, the current block holds no number yet. |
| TextImport.BlockSessionAmounts | script.js:226-247 | The session read from a block moves through exactly the block's numbers: its starting balance, then each upgrade's new balance. |
| TextImport.EmitFromBlocks | script.js:208-256 | Every session the blocks give is the finalised session of the block its number names, and that block holds at least two numbers. |
| TextImport.EmittedIsReadFrom | script.js:226-256 | A session given by leading blocks of the lines, whose opening line is known, moved through exactly the numbers of that line's block. |
| TextImport.ScanOpeningLines | script.js:202-248 | While scanning, the counter is one more than the separators read. Every session, open or completed, was opened by the first number line of its block and moved through exactly the numbers of that block; its number is one more than the separators before that line. |
| TextImport.ScanSessionNumbers | script.js:198-258 | Each session returned was opened by the first number line of its block and moved through exactly that block's numbers. It is the finalised session of the block its number names, and that number is at most one more than the separators. |
| Tracker.SpliceStart | script.js:145 | `splice` starts at the index when the index is within the list. A negative index counts back from the end. The start is clamped to the list. |
| Tracker.RemoveAt | script.js:145 | Removing at a position within the history drops exactly that entry and keeps the others in order. At or past the end, nothing changes. |
| Tracker.RemoveAtTakesOneOut | script.js:145 | As multisets, the history after a removal plus the removed entry is the history before. |
| Tracker.Reverse | script.js:88 | `reverse()` keeps the length. |
| Tracker.ReverseAt | script.js:88 | Position p of the reversed history holds entry length - 1 - p. |
| Tracker.ReverseTwice | script.js:88-109 | Reversing twice restores the history. |
| Tracker.ReverseRemoveAt | script.js:104-145 | Deleting chronological index length - 1 - p removes position p of the displayed, reversed list. |
| Tracker.DeleteButtonMatchesRow | script.js:88-104 | The delete button of displayed row p names the chronological index of the session shown in that row. Deleting that index removes exactly that row. |
| Tracker.DeleteDropsItsEvents | script.js:127-145 | Deleting a session lowers the global event count by exactly its number of events. |
| Tracker.HistoryCostsStep | script.js:126-131 | One more session walked adds its costs to the collected costs. |
| Tracker.AccumulateHistory | script.js:126-131 | The `forEach` over the history appends every session's costs in order. Its count and total stay the length and sum of the collected costs. |
| Tracker.SessionRow | script.js:92-104 | A history row shows the session's start time, starting balance, number of upgrades, total cost, rounded average and the index its delete button carries. |
| Tracker.UpgradeTracker.constructor | script.js:3-4 | A missing stored history loads as an empty one, and a missing stored session as none. |
| Tracker.UpgradeTracker.StartNewSession | script.js:9-15 | Any session being played is replaced by a fresh one at the given balance, and the history is unchanged. |
| Tracker.UpgradeTracker.RecordUpgrade | script.js:21-33 | Without a session, nothing changes. Otherwise the session is the old one with exactly one event appended, and the invariant is preserved. The history is unchanged. |
| Tracker.UpgradeTracker.GetAverageCost | script.js:39-44 | The average is 0 without a session or without upgrades. Otherwise it is the mean cost rounded half up. |
| Tracker.UpgradeTracker.ResetSession | script.js:46-53 | The history grows by the finalised session exactly when a session with an upgrade was open, and is unchanged otherwise. No session is open afterwards. |
| Tracker.UpgradeTracker.DeleteSession | script.js:144-145 | The history loses exactly the entry at the splice position, and the session is unchanged. |
| Tracker.UpgradeTracker.ClearHistory | script.js:150-155 | The history is emptied when confirmed and is unchanged otherwise. |
| Tracker.UpgradeTracker.CollectCosts | script.js:113-131 | Collects the open session's costs (when it has upgrades), then every finished session's costs. The tallies are their count and sum. |
| Tracker.UpgradeTracker.UpdateGlobalStats | script.js:112-135 | The statistics reported are those of all collected costs. |
| Tracker.UpgradeTracker.DisplayHistory | script.js:77-110 | Reports the global statistics and one row per finished session, latest first. Row p shows the session at chronological index length - 1 - p and deletes that index. The state is unchanged. |
| Tracker.UpgradeTracker.ListHistory | script.js:83-109 | The history is reversed in place, walked and reversed back, so its order is unchanged. The rows follow the reversed order. |
| Tracker.UpgradeTracker.ImportTextNotes | script.js:178-196 | When the notes yield sessions, exactly those sessions are appended and their count is reported. Otherwise nothing changes and "no valid data" is reported. |
| Tracker.UpgradeTracker.ImportData | script.js:159-176 | A parsed document appends the sessions of its `upgrades`, if any, and never falls back to the text importer. A text that does not parse falls back to the text importer. |
| Samples.TwoSessionsScan | script.js:204-258 | The kinds 1000, 1500, 2000, separator, 500, 800 scan to the two expected sessions. |
| Samples.TwoSessionsImport | script.js:198-258 | The notes "1000\n1500\n2000\n-----\n500\n800\n" import as two sessions. The first goes 1000 to 1500 to 2000 with costs -500 and -500. The second goes 500 to 800 with cost -300 and is numbered 2. |
| Samples.OneLineSplit | script.js:199 | A text without line feeds splits into one piece, itself. |
| Samples.EmptyLineIsSkipped | script.js:221-223 | An empty string reads as NaN, so it is skipped. |
| Samples.LoneLineIsRead | script.js:199 | A text of one line that is not blank is read as that line, trimmed. |
| Samples.LoneKindScansNothing | script.js:226-256 | A lone number line opens a session and returns nothing. |
| Samples.LoneAmountImportsNothing | script.js:198-258 | A text of one line, without line feeds, whose trimmed form reads as a number opens a session that records no upgrade, so it imports nothing. White space around the number and text after it do not change that. |
| Samples.SameOpeningAmountTwice | script.js:198-258 | For the lines 5, a separator, 5 and 3, the session of the second block was read from that block, and the same session numbered 1 was not, although the first block also opens on 5. |
| Samples.LoneNumberImportsNothing | script.js:251-256 | The notes "1000" import nothing. |
| Samples.LeadingZerosRead | script.js:221 | "007" reads as 7. |
| Samples.HexPrefixRead | script.js:221 | "0x1A" reads as 26. |
| Samples.PlusSignRead | script.js:221 | "+5" reads as 5. |

## Left out

- Rendering and UI glue are not modelled. This covers `updateDisplay`, `loadSession`, the HTML of `displayHistory`, `toLocaleString`, the global wrapper functions and their input checks. The history rows and the statistics are returned as values instead.
- The display shows `-` for a minimum or maximum that is `null` or `0` (script.js:140-141). The model returns the value itself.
- Persistence is left out: `localStorage`, `saveSession`, `saveUpgrades` and the removal of the stored session. The constructor receives the stored values.
- `JSON.parse` itself is left out. Its outcome is a parameter, and the caller decides how a document maps onto `JsonOutcome`.
  - `null`, and an `upgrades` member that is truthy but not iterable, throw before the history changes. They belong to `Unparsable`.
  - A string `upgrades` member would be spread into its characters. This is not modelled.
  - Elements of `upgrades` that are not sessions make `displayHistory` throw after the history has already grown, and the text importer then runs as well. This is not modelled.
- `new Date()`: each operation receives one timestamp `now`. The several clock reads within one `parseTextNotes` call all share it.
- `alert` and `confirm`: messages are the `ImportResult` values, and the confirmation is a boolean.
- The `catch` of `importTextNotes` (script.js:193-195) is not modelled. `parseTextNotes` does not throw on a string. The steps after it throw only on a storage failure in `saveUpgrades` or on a malformed history entry in `displayHistory`, and both are left out.
- JavaScript numbers are modelled as unbounded integers. Amounts and sums beyond 2^53, which JavaScript rounds, are exact in the model, and so is `parseInt` on long numerals.
- Stats.RoundDiv: rounds the exact quotient, which equals `Math.round(sum / n)` only while |sum| < 2^52. From there on the double quotient `sum / n` can itself round across a half, and JavaScript then gives one more (n = 3, sum = 3·2^51 + 1 rounds to 2^51 + 1, the model to 2^51). Floating-point division is not modelled.
- TextImport.NonBlankLines: its own contract states only the length and that no kept line is empty. That each non-blank line is kept as its trim, in place, is stated by the lemmas NonBlankLineIsKept, BlankLineIsDropped and NonBlankLinesAreTrimmed instead, because a contract on the function itself would be unfolded at every use of the line cleaning.
- Stats.GlobalStatsOverEvents: states that the average is 0 when there are no events, but not the converse, because the converse does not hold (Stats.ZeroAverageWithEvents).
- The source mutates the open session's event list in place and shares it with the copy pushed into the history. No reference to it survives the reset, so value semantics give the same states.
