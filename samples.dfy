/** Worked examples of the text importer on concrete notes. Each fact about
    a literal line is stated on its own, and the facts are combined by
    lemmas over arbitrary lines, so that no proof has to unfold the
    importer over a whole literal text at once. */
module Samples {
  import opened Sessions
  import opened TextImport

  // ---------------------------------------------------------------------
  // Six lines, each ended by a line feed
  // ---------------------------------------------------------------------

  lemma TerminatedSix(a: string, b: string, c: string, d: string, e: string, f: string)
    ensures Terminated([a, b, c, d, e, f])
         == a + ("\n" + (b + ("\n" + (c + ("\n" + (d + ("\n" + (e + ("\n" + (f + "\n"))))))))))
  {
    var lines := [a, b, c, d, e, f];
    assert lines[5..][1..] == [];
    assert "\n" + Terminated([]) == "\n";
    assert Terminated(lines[5..]) == f + "\n";
    assert lines[4..][1..] == lines[5..];
    assert Terminated(lines[4..]) == e + ("\n" + (f + "\n"));
    assert lines[3..][1..] == lines[4..];
    assert Terminated(lines[3..]) == d + ("\n" + (e + ("\n" + (f + "\n"))));
    assert lines[2..][1..] == lines[3..];
    assert Terminated(lines[2..]) == c + ("\n" + (d + ("\n" + (e + ("\n" + (f + "\n"))))));
    assert lines[1..][1..] == lines[2..];
    assert Terminated(lines[1..]) == b + ("\n" + (c + ("\n" + (d + ("\n" + (e + ("\n" + (f + "\n"))))))));
  }

  lemma SplitSix(a: string, b: string, c: string, d: string, e: string, f: string)
    requires '\n' !in a && '\n' !in b && '\n' !in c && '\n' !in d && '\n' !in e && '\n' !in f
    ensures SplitLines(a + ("\n" + (b + ("\n" + (c + ("\n" + (d + ("\n" + (e + ("\n" + (f + "\n")))))))))))
         == [a, b, c, d, e, f, ""]
  {
    SplitTerminated([a, b, c, d, e, f]);
    TerminatedSix(a, b, c, d, e, f);
  }

  lemma LinesSix(a: string, b: string, c: string, d: string, e: string, f: string)
    requires '\n' !in a && '\n' !in b && '\n' !in c && '\n' !in d && '\n' !in e && '\n' !in f
    requires a != [] && b != [] && c != [] && d != [] && e != [] && f != []
    requires Trim(a) == a && Trim(b) == b && Trim(c) == c && Trim(d) == d && Trim(e) == e && Trim(f) == f
    ensures Lines(a + ("\n" + (b + ("\n" + (c + ("\n" + (d + ("\n" + (e + ("\n" + (f + "\n"))))))))))) == [a, b, c, d, e, f]
  {
    var lines := [a, b, c, d, e, f];
    SplitSix(a, b, c, d, e, f);
    assert [a, b, c, d, e, f, ""] == lines + [""];
    NonBlankBeforeEmpty(lines);
  }

  lemma KindsSix(a: string, b: string, c: string, d: string, e: string, f: string)
    ensures Kinds([a, b, c, d, e, f]) == [Classify(a), Classify(b), Classify(c), Classify(d), Classify(e), Classify(f)]
  {
  }

  /** Trimmed, non-blank lines followed by an empty piece are read as
      those lines. */
  lemma NonBlankBeforeEmpty(lines: seq<string>)
    requires forall i :: 0 <= i < |lines| ==> lines[i] != [] && Trim(lines[i]) == lines[i]
    ensures NonBlankLines(lines + [""]) == lines
  {
    NonBlankLinesKeepsTrimmed(lines);
    assert (lines + [""])[..|lines|] == lines;
    assert Trim("") == "";
  }

  /** A non-empty line made only of digits and dashes. */
  predicate Plain(line: string)
  {
    line != [] && forall i :: 0 <= i < |line| ==> IsDecimalDigit(line[i]) || line[i] == '-'
  }

  /** A plain line holds no line feed and is left as it is by trimming. */
  lemma PlainLineIsTrimmed(line: string)
    requires Plain(line)
    ensures '\n' !in line && Trim(line) == line
  {
    assert !IsWhiteSpace(line[0]);
    assert TrimStart(line) == line;
    assert !IsWhiteSpace(line[|line| - 1]);
    assert TrimEnd(line) == line;
    assert forall i :: 0 <= i < |line| ==> line[i] != '\n';
  }

  // ---------------------------------------------------------------------
  // The notes of two sessions
  // ---------------------------------------------------------------------

  /** Two sessions of notes separated by a line of dashes. */
  const TwoSessions: string := "1000\n1500\n2000\n-----\n500\n800\n"

  lemma ThousandIsAmount()
    ensures Classify("1000") == Amount(1000)
  {
    NumeralLineIsAmount(1000);
    assert NatString(1) == "1" && NatString(10) == "10" && NatString(100) == "100" && NatString(1000) == "1000";
  }

  lemma FifteenHundredIsAmount()
    ensures Classify("1500") == Amount(1500)
  {
    NumeralLineIsAmount(1500);
    assert NatString(1) == "1" && NatString(15) == "15" && NatString(150) == "150" && NatString(1500) == "1500";
  }

  lemma TwoThousandIsAmount()
    ensures Classify("2000") == Amount(2000)
  {
    NumeralLineIsAmount(2000);
    assert NatString(2) == "2" && NatString(20) == "20" && NatString(200) == "200" && NatString(2000) == "2000";
  }

  lemma FiveHundredIsAmount()
    ensures Classify("500") == Amount(500)
  {
    NumeralLineIsAmount(500);
    assert NatString(5) == "5" && NatString(50) == "50" && NatString(500) == "500";
  }

  lemma EightHundredIsAmount()
    ensures Classify("800") == Amount(800)
  {
    NumeralLineIsAmount(800);
    assert NatString(8) == "8" && NatString(80) == "80" && NatString(800) == "800";
  }

  /** The notes are their six lines, each ended by a line feed. */
  lemma TwoSessionsText()
    ensures TwoSessions
      == "1000" + ("\n" + ("1500" + ("\n" + ("2000" + ("\n" + ("-----" + ("\n" + ("500" + ("\n" + ("800" + "\n"))))))))))
  {
  }

  /** What each line of the notes is read as. */
  lemma TwoSessionsAmounts()
    ensures Classify("1000") == Amount(1000) && Classify("1500") == Amount(1500) && Classify("2000") == Amount(2000)
    ensures Classify("500") == Amount(500) && Classify("800") == Amount(800)
  {
    ThousandIsAmount();
    FifteenHundredIsAmount();
    TwoThousandIsAmount();
    FiveHundredIsAmount();
    EightHundredIsAmount();
  }

  /** The lines of the notes are plain, and the middle one is a separator. */
  lemma TwoSessionsPlainLines()
    ensures Plain("1000") && Plain("1500") && Plain("2000") && Plain("-----") && Plain("500") && Plain("800")
    ensures IsSeparator("-----")
  {
  }

  /** The first session read from the notes: 1000, then 1500, then 2000. */
  function FirstSession(now: string): Session
  {
    Session(1000, 2000, [UpgradeEvent(1000, 1500, -500, now), UpgradeEvent(1500, 2000, -500, now)],
            now, Some(now), Some(TextImportSource), Some(1))
  }

  /** The second session read from the notes: 500, then 800. */
  function SecondSession(now: string): Session
  {
    Session(500, 800, [UpgradeEvent(500, 800, -300, now)], now, Some(now), Some(TextImportSource), Some(2))
  }

  lemma TwoSessionsScan(now: string)
    ensures Scan([Amount(1000), Amount(1500), Amount(2000), Separator, Amount(500), Amount(800)], now)
      == [FirstSession(now), SecondSession(now)]
  {
    var kinds := [Amount(1000), Amount(1500), Amount(2000), Separator, Amount(500), Amount(800)];
    var first := FirstSession(now);
    var started := Opened(1000, 1, now);
    assert RunFrom(Initial, kinds[..1], now) == ScanState(Some(started), 1, []);
    assert kinds[..2][..1] == kinds[..1];
    var once := AppendUpgrade(started, 1500, now);
    assert RunFrom(Initial, kinds[..2], now) == ScanState(Some(once), 1, []);
    assert kinds[..3][..2] == kinds[..2];
    var twice := AppendUpgrade(once, 2000, now);
    assert RunFrom(Initial, kinds[..3], now) == ScanState(Some(twice), 1, []);
    assert Finalize(twice, now) == first;
    assert kinds[..4][..3] == kinds[..3];
    assert RunFrom(Initial, kinds[..4], now) == ScanState(None, 2, [first]);
    assert kinds[..5][..4] == kinds[..4];
    var reopened := Opened(500, 2, now);
    assert RunFrom(Initial, kinds[..5], now) == ScanState(Some(reopened), 2, [first]);
    assert kinds[..5] == kinds[..|kinds| - 1];
    var last := AppendUpgrade(reopened, 800, now);
    assert RunFrom(Initial, kinds, now) == ScanState(Some(last), 2, [first]);
    assert Finalize(last, now) == SecondSession(now);
  }

  /** Any six lines that read as the numbers and the separator of the
      notes give the same two sessions. */
  lemma TwoBlocksOfLines(text: string, a: string, b: string, c: string, d: string, e: string, f: string, now: string)
    requires text == a + ("\n" + (b + ("\n" + (c + ("\n" + (d + ("\n" + (e + ("\n" + (f + "\n"))))))))))
    requires Plain(a) && Plain(b) && Plain(c) && Plain(d) && Plain(e) && Plain(f)
    requires Classify(a) == Amount(1000) && Classify(b) == Amount(1500) && Classify(c) == Amount(2000)
    requires IsSeparator(d) && Classify(e) == Amount(500) && Classify(f) == Amount(800)
    ensures TextNotes(text, now) == [FirstSession(now), SecondSession(now)]
  {
    PlainLineIsTrimmed(a);
    PlainLineIsTrimmed(b);
    PlainLineIsTrimmed(c);
    PlainLineIsTrimmed(d);
    PlainLineIsTrimmed(e);
    PlainLineIsTrimmed(f);
    LinesSix(a, b, c, d, e, f);
    KindsSix(a, b, c, d, e, f);
    TwoSessionsScan(now);
  }

  /** The notes give two sessions: 1000 to 1500 to 2000, two upgrades that
      each raised the balance by 500 (cost -500), then, after the
      separator, 500 to 800, one upgrade of cost -300, numbered 2. */
  lemma TwoSessionsImport(now: string)
    ensures TextNotes(TwoSessions, now) == [FirstSession(now), SecondSession(now)]
  {
    TwoSessionsAmounts();
    TwoSessionsPlainLines();
    TwoSessionsText();
    TwoBlocksOfLines(TwoSessions, "1000", "1500", "2000", "-----", "500", "800", now);
  }

  // ---------------------------------------------------------------------
  // A lone number
  // ---------------------------------------------------------------------

  /** A text without line feeds is a single piece. */
  lemma OneLineSplit(line: string)
    requires '\n' !in line
    ensures SplitLines(line) == [line]
  {
    SplitTerminated([]);
    SplitLinesPrefix(line, []);
    assert line + [] == line && line + "" == line;
  }

  /** An empty line is neither a separator nor a number. */
  lemma EmptyLineIsSkipped()
    ensures Classify([]) == Skipped
  {
    assert RemoveWhiteSpace([]) == [];
  }

  /** A lone number opens a session and nothing more. */
  lemma LoneKindScansNothing(v: int, now: string)
    ensures Scan([Amount(v)], now) == []
  {
    var kinds := [Amount(v)];
    assert kinds[..0] == [];
    assert RunFrom(Initial, kinds, now) == ScanState(Some(Opened(v, 1, now)), 1, []);
  }

  /** A text of one line that holds a number, whatever white space or
      trailing text surrounds it, opens a session that records no upgrade,
      so nothing is imported. */
  lemma LoneAmountImportsNothing(line: string, v: int, now: string)
    requires '\n' !in line && Classify(Trim(line)) == Amount(v)
    ensures TextNotes(line, now) == []
  {
    var trimmed := Trim(line);
    assert trimmed != [] by {
      EmptyLineIsSkipped();
    }
    var kinds := [Amount(v)];
    assert Kinds(Lines(line)) == kinds by {
      LoneLineIsRead(line);
    }
    LoneKindScansNothing(v, now);
  }

  /** A text of one line that is not blank is read as that line, trimmed. */
  lemma LoneLineIsRead(line: string)
    requires '\n' !in line && Trim(line) != []
    ensures Lines(line) == [Trim(line)]
  {
    OneLineSplit(line);
    NonBlankLineIsKept([], line, []);
    assert [] + [line] + [] == [line];
  }

  /** The notes "1000" import nothing. */
  lemma LoneNumberImportsNothing(now: string)
    ensures TextNotes("1000", now) == []
  {
    ThousandIsAmount();
    TwoSessionsPlainLines();
    PlainLineIsTrimmed("1000");
    LoneAmountImportsNothing("1000", 1000, now);
  }

  // ---------------------------------------------------------------------
  // Two blocks that open on the same amount
  // ---------------------------------------------------------------------

  /** The lines 5, then a separator, then 5 and 3: the second block's
      session was read from the second block, and the same session numbered
      1 was not, although the first block also opens on 5. */
  lemma SameOpeningAmountTwice(now: string)
    ensures var kinds := [Amount(5), Separator, Amount(5), Amount(3)];
            var s := Finalize(BlockSession([5, 3], 2, now), now);
            ReadFrom(s, kinds) && !ReadFrom(s.(sessionNumber := Some(1)), kinds)
  {
    var kinds := [Amount(5), Separator, Amount(5), Amount(3)];
    var s := Finalize(BlockSession([5, 3], 2, now), now);
    assert kinds[..0] == [] && kinds[..1] == [Amount(5)] && kinds[..2] == [Amount(5), Separator];
    assert kinds[..3] == [Amount(5), Separator, Amount(5)];
    assert Blocks(kinds[..1]) == [[5]] by {
      assert kinds[..1][..0] == [];
      var empty: seq<int> := [];
      assert Blocks([]) == [empty];
      assert empty + [5] == [5] && [empty][..0] == [];
      assert [empty][..0] + [empty + [5]] == [[5]];
    }
    assert Blocks(kinds[..2]) == [[5], []] by {
      assert kinds[..2][..1] == kinds[..1];
    }
    assert Blocks(kinds[..3]) == [[5], [5]] by {
      assert kinds[..3][..2] == kinds[..2];
      var empty: seq<int> := [];
      assert empty + [5] == [5] && [[5], empty][..1] == [[5]];
      assert [[5], empty][..1] + [empty + [5]] == [[5], [5]];
    }
    assert Blocks(kinds) == [[5], [5, 3]] by {
      assert kinds[..3] == kinds[..|kinds| - 1];
      assert [5] + [3] == [5, 3] && [[5], [5]][..1] == [[5]];
      assert [[5], [5]][..1] + [[5] + [3]] == [[5], [5, 3]];
    }
    BlockSessionAmounts([5, 3], 2, now);
    assert OpensAtLine(s, kinds, 2);
    ReadFromBlock(s, kinds, 1);
  }

  // ---------------------------------------------------------------------
  // Numerals that are not written canonically
  // ---------------------------------------------------------------------

  /** Leading zeros are read past: "007" reads as 7. */
  lemma LeadingZerosRead()
    ensures ParseInt("007") == Some(7)
  {
    assert DigitsValue("7", false) == 7 by {
      assert "7"[..0] == [];
    }
    assert DigitsValue("007", false) == 7 by {
      LeadingZeroValue("7", false);
      LeadingZeroValue("07", false);
      assert "0" + "7" == "07" && "0" + "07" == "007";
    }
    ParseUnsignedReadsDigits("007", []);
    assert "007" + [] == "007";
  }

  /** A `0x` prefix selects base 16, in either case of digit: "0x1A" reads
      as 26. */
  lemma HexPrefixRead()
    ensures ParseInt("0x1A") == Some(26)
  {
    assert DigitsValue("1A", true) == 26 by {
      assert "1A"[..1] == "1" && "1"[..0] == [];
    }
    ParseUnsignedReadsHex('x', "1A", []);
    assert ['0', 'x'] + "1A" + [] == "0x1A";
  }

  /** A leading `+` is read past: "+5" reads as 5. */
  lemma PlusSignRead()
    ensures ParseInt("+5") == Some(5)
  {
    assert DigitsValue("5", false) == 5 by {
      assert "5"[..0] == [];
    }
    ParseUnsignedReadsDigits("5", []);
    assert "5" + [] == "5";
    ParseIntSigns("5");
  }
}
