/** Reading `show vlan brief` back: rows, and the lines their port lists are wrapped onto. */
module VlanBrief {
  import opened Wrappers
  import opened Text
  import opened VlanList
  import opened Facts
  import opened Lines

  /** The non-empty entries of a comma-separated port list. */
  function SplitPorts(raw: string): seq<string> {
    Named(SplitOn(raw, ','))
  }

  function Named(parts: seq<string>): seq<string> {
    if parts == [] then []
    else (if Strip(parts[0]) == "" then [] else [Strip(parts[0])]) + Named(parts[1..])
  }

  /** A row: an id of up to four digits at the start of the line, a name, a status, and ports. */
  function RowOf(line: string): Option<VlanFacts> {
    var id := line[..WordEnd(line)];
    var afterId := StripLeft(line[WordEnd(line)..]);
    var name := afterId[..WordEnd(afterId)];
    var afterName := StripLeft(afterId[WordEnd(afterId)..]);
    if 1 <= |id| <= 4 && AllDigits(id) && name != "" && WordEnd(afterName) > 0 then
      Some(VlanFacts(NatValue(id), name, SplitPorts(StripLeft(afterName[WordEnd(afterName)..]))))
    else None
  }

  predicate IsPortText(s: string) {
    s != "" && forall i :: 0 <= i < |s| ==>
                 'a' <= s[i] <= 'z' || 'A' <= s[i] <= 'Z' || IsDigit(s[i]) || s[i] in "/,.-" || IsSpace(s[i])
  }

  /** Blank lines, rules and the heading. */
  predicate IsSkipped(raw: string) {
    var s := Strip(raw);
    s == "" || s[0] == '-' || "vlan " <= Lower(s)
  }

  /** One line: a row adds a VLAN, a line of ports continues the last one. */
  function BriefStep(vlans: seq<VlanFacts>, raw: string): seq<VlanFacts> {
    if IsSkipped(raw) then vlans
    else match RowOf(StripRight(raw))
         case Some(row) => vlans + [row]
         case None => if vlans != [] && IsPortText(Strip(raw)) then Continue(vlans, SplitPorts(Strip(raw))) else vlans
  }

  function Continue(vlans: seq<VlanFacts>, ports: seq<string>): seq<VlanFacts>
    requires vlans != []
  {
    var last := vlans[|vlans| - 1];
    vlans[..|vlans| - 1] + [last.(ports := last.ports + ports)]
  }

  function BriefSteps(vlans: seq<VlanFacts>, lines: seq<string>): seq<VlanFacts>
    decreases |lines|
  {
    if lines == [] then vlans else BriefSteps(BriefStep(vlans, lines[0]), lines[1..])
  }

  method ParseShowVlanBrief(output: string) returns (vlans: seq<VlanFacts>)
    ensures vlans == BriefSteps([], SplitLines(output))
  {
    hide IsSkipped, RowOf, SplitPorts, IsPortText, SplitLines, Strip, StripRight;
    var lines := SplitLines(output);
    vlans := [];
    for k := 0 to |lines|
      invariant BriefSteps([], lines) == BriefSteps(vlans, lines[k..])
    {
      BriefStepOne(vlans, lines, k);
      if IsSkipped(lines[k]) {
        continue;
      }
      var row := RowOf(StripRight(lines[k]));
      if row.None? {
        if vlans != [] && IsPortText(Strip(lines[k])) {
          var previous := vlans[|vlans| - 1];
          vlans := vlans[|vlans| - 1 := previous.(ports := previous.ports + SplitPorts(Strip(lines[k])))];
        }
        continue;
      }
      vlans := vlans + [row.value];
    }
  }

  lemma {:induction false} BriefStepOne(vlans: seq<VlanFacts>, lines: seq<string>, k: nat)
    requires k < |lines|
    ensures BriefSteps(vlans, lines[k..]) == BriefSteps(BriefStep(vlans, lines[k]), lines[k + 1..])
    ensures vlans != [] ==> forall ports: seq<string> ::
                              Continue(vlans, ports)
                              == vlans[|vlans| - 1 := vlans[|vlans| - 1].(ports := vlans[|vlans| - 1].ports + ports)]
  {
    hide BriefStep;
    assert lines[k..][1..] == lines[k + 1..];
  }

  // ---- Port lists ----

  lemma {:induction false} SplitStep(s: string, c: char, n: nat)
    requires n == IndexOf(s, c)
    ensures SplitOn(s, c) == if n == |s| then [s] else [s[..n]] + SplitOn(s[n + 1..], c)
  {
  }

  lemma {:induction false} CommaSeam(a: string, b: string)
    ensures var s, n := a + "," + b, IndexOf(a, ',');
            && IndexOf(s, ',') == n < |s| && s[..n] == a[..n]
            && s[n + 1..] == if n < |a| then a[n + 1..] + "," + b else b
  {
    IndexOfIs(a + "," + b, ',', IndexOf(a, ','));
  }

  lemma {:induction false} SplitAtComma(a: string, b: string)
    ensures SplitOn(a + "," + b, ',') == SplitOn(a, ',') + SplitOn(b, ',')
    decreases |a|
  {
    hide SplitOn;
    var s, n := a + "," + b, IndexOf(a, ',');
    CommaSeam(a, b);
    SplitStep(s, ',', n);
    SplitStep(a, ',', n);
    if n < |a| {
      SplitAtComma(a[n + 1..], b);
      Assoc([a[..n]], SplitOn(a[n + 1..], ','), SplitOn(b, ','));
    } else {
      assert a[..n] == a;
    }
  }

  lemma {:induction false} NamedAppend(a: seq<string>, b: seq<string>)
    ensures Named(a + b) == Named(a) + Named(b)
  {
    hide Strip;
    if a == [] {
      assert a + b == b;
    } else {
      assert (a + b)[1..] == a[1..] + b;
      NamedAppend(a[1..], b);
    }
  }

  /** A list broken after a comma names the same ports as the two parts. */
  lemma {:induction false} PortsAcrossBreak(a: string, b: string)
    requires a != "" && a[|a| - 1] == ','
    ensures SplitPorts(a + b) == SplitPorts(a) + SplitPorts(b)
  {
    hide SplitOn, Named;
    var front := a[..|a| - 1];
    assert a == front + "," + "" && a + b == front + "," + b;
    SplitAtComma(front, b);
    SplitAtComma(front, "");
    NamedAppend(SplitOn(front, ','), SplitOn(b, ','));
    NamedAppend(SplitOn(front, ','), SplitOn("", ','));
    NothingNamed();
  }

  lemma {:induction false} NothingNamed()
    ensures Named(SplitOn("", ',')) == []
  {
  }

  // ---- Rows that go on ----

  lemma {:induction false} WordEndGoesOn(s: string, more: string)
    requires WordEnd(s) < |s|
    ensures WordEnd(s + more) == WordEnd(s)
  {
    WordEndIs(s + more, WordEnd(s));
  }

  lemma {:induction false} StripLeftGoesOn(s: string, more: string)
    requires StripLeft(s) != ""
    ensures StripLeft(s + more) == StripLeft(s) + more
  {
    hide IsSpace;
    if IsSpace(s[0]) {
      assert (s + more)[1..] == s[1..] + more;
      StripLeftGoesOn(s[1..], more);
    }
  }

  lemma {:induction false} StripLeftOfNothing(s: string)
    requires StripLeft(s) != ""
    ensures s != ""
  {
  }

  /** The port list of a row, as text. */
  function PortText(line: string): string {
    var afterId := StripLeft(line[WordEnd(line)..]);
    var afterName := StripLeft(afterId[WordEnd(afterId)..]);
    StripLeft(afterName[WordEnd(afterName)..])
  }

  /** More text behind a row that already lists ports belongs to its port list. */
  lemma {:induction false} RowGoesOn(line: string, more: string)
    requires RowOf(line).Some? && PortText(line) != ""
    ensures PortText(line + more) == PortText(line) + more
    ensures RowOf(line + more) == Some(RowOf(line).value.(ports := SplitPorts(PortText(line) + more)))
  {
    hide SplitPorts, StripLeft, WordEnd, NatValue;
    var afterId := StripLeft(line[WordEnd(line)..]);
    var afterName := StripLeft(afterId[WordEnd(afterId)..]);
    ShorterWords(line, afterId, afterName);
    WordEndGoesOn(line, more);
    assert (line + more)[WordEnd(line)..] == line[WordEnd(line)..] + more;
    assert (line + more)[..WordEnd(line)] == line[..WordEnd(line)];
    StripLeftGoesOn(line[WordEnd(line)..], more);
    WordEndGoesOn(afterId, more);
    assert (afterId + more)[WordEnd(afterId)..] == afterId[WordEnd(afterId)..] + more;
    assert (afterId + more)[..WordEnd(afterId)] == afterId[..WordEnd(afterId)];
    StripLeftGoesOn(afterId[WordEnd(afterId)..], more);
    WordEndGoesOn(afterName, more);
    assert (afterName + more)[WordEnd(afterName)..] == afterName[WordEnd(afterName)..] + more;
    StripLeftGoesOn(afterName[WordEnd(afterName)..], more);
  }

  /** Each word of the row ends before the text does, since the ports are still to come. */
  lemma {:induction false} ShorterWords(line: string, afterId: string, afterName: string)
    requires afterId == StripLeft(line[WordEnd(line)..]) && afterName == StripLeft(afterId[WordEnd(afterId)..])
    requires StripLeft(afterName[WordEnd(afterName)..]) != ""
    ensures WordEnd(line) < |line| && WordEnd(afterId) < |afterId| && WordEnd(afterName) < |afterName|
    ensures afterId != "" && afterName != ""
  {
    StripLeftOfNothing(afterName[WordEnd(afterName)..]);
    StripLeftOfNothing(afterId[WordEnd(afterId)..]);
    StripLeftOfNothing(line[WordEnd(line)..]);
  }

  /** A row that lists no ports: they follow a blank. */
  lemma {:induction false} BareRowGoesOn(line: string, piece: string)
    requires RowOf(line).Some? && PortText(line) == "" && StripRight(line) == line
    requires piece != "" && !IsSpace(piece[0])
    ensures PortText(line + (" " + piece)) == piece
    ensures RowOf(line + (" " + piece)) == Some(RowOf(line).value.(ports := SplitPorts(piece)))
  {
    hide SplitPorts, StripLeft, StripRight, WordEnd, NatValue, IsSpace;
    var more := " " + piece;
    var afterId := StripLeft(line[WordEnd(line)..]);
    var afterName := StripLeft(afterId[WordEnd(afterId)..]);
    StripLeftOfNothing(afterId[WordEnd(afterId)..]);
    StripLeftOfNothing(line[WordEnd(line)..]);
    assert afterName != "" by { NoWordInNothing(); }
    WordEndGoesOn(line, more);
    assert (line + more)[WordEnd(line)..] == line[WordEnd(line)..] + more;
    assert (line + more)[..WordEnd(line)] == line[..WordEnd(line)];
    StripLeftGoesOn(line[WordEnd(line)..], more);
    WordEndGoesOn(afterId, more);
    assert (afterId + more)[WordEnd(afterId)..] == afterId[WordEnd(afterId)..] + more;
    assert (afterId + more)[..WordEnd(afterId)] == afterId[..WordEnd(afterId)];
    StripLeftGoesOn(afterId[WordEnd(afterId)..], more);
    LastWord(line, afterId, afterName);
    BlankEndsWord(afterName, piece);
    StripLeftOfBlank(piece);
    assert (afterName + more)[|afterName|..] == more;
  }

  lemma {:induction false} NoWordInNothing()
    ensures WordEnd("") == 0
  {
  }

  lemma {:induction false} BlankEndsWord(w: string, rest: string)
    requires WordEnd(w) == |w|
    ensures WordEnd(w + (" " + rest)) == |w|
  {
    WordEndIs(w + (" " + rest), |w|);
  }

  lemma {:induction false} StripLeftOfBlank(s: string)
    requires s != "" && !IsSpace(s[0])
    ensures StripLeft(" " + s) == s
  {
    assert (" " + s)[1..] == s;
  }

  /** Without ports or white space at its end, a row ends with its status. */
  lemma {:induction false} LastWord(line: string, afterId: string, afterName: string)
    requires StripRight(line) == line && line != ""
    requires afterId == StripLeft(line[WordEnd(line)..]) && afterName == StripLeft(afterId[WordEnd(afterId)..])
    requires afterName != "" && StripLeft(afterName[WordEnd(afterName)..]) == ""
    ensures WordEnd(afterName) == |afterName|
  {
    hide IsSpace;
    LeftKeepsEnd(line[WordEnd(line)..]);
    LeftKeepsEnd(afterId[WordEnd(afterId)..]);
    assert !IsSpace(line[|line| - 1]) by { SolidEnd(line); }
    if WordEnd(afterName) < |afterName| {
      var rest := afterName[WordEnd(afterName)..];
      LeftOfSolidEnd(rest);
    }
  }

  lemma {:induction false} SolidEnd(s: string)
    requires StripRight(s) == s && s != ""
    ensures !IsSpace(s[|s| - 1])
  {
    StripRightShrinks(s[..|s| - 1]);
  }

  lemma {:induction false} StripRightShrinks(s: string)
    ensures |StripRight(s)| <= |s|
    decreases |s|
  {
    if s != "" && IsSpace(s[|s| - 1]) {
      StripRightShrinks(s[..|s| - 1]);
    }
  }

  lemma {:induction false} LeftKeepsEnd(s: string)
    ensures StripLeft(s) != "" ==> s != "" && StripLeft(s)[|StripLeft(s)| - 1] == s[|s| - 1]
  {
    hide IsSpace;
    if s != "" && IsSpace(s[0]) {
      LeftKeepsEnd(s[1..]);
    }
  }

  lemma {:induction false} LeftOfSolidEnd(s: string)
    requires s != "" && !IsSpace(s[|s| - 1])
    ensures StripLeft(s) != ""
  {
    hide IsSpace;
    if IsSpace(s[0]) {
      LeftOfSolidEnd(s[1..]);
    }
  }

  // ---- Broken port lists ----

  /** A further line of the port list of a row. */
  predicate IsPortLine(raw: string) {
    !IsSkipped(raw) && RowOf(StripRight(raw)).None? && IsPortText(Strip(raw))
  }

  predicate IsRow(line: string) {
    RowOf(StripRight(line)).Some?
  }

  /** What the unbroken row has between two pieces of its port list: the comma, if the first does not end in one. */
  function Glue(row: string): string {
    var ports := PortText(row);
    if ports == "" then " " else if ports[|ports| - 1] == ',' then "" else ","
  }

  /** A row and a further line of its ports, as one row. */
  function Mended(line: string, raw: string): string {
    StripRight(line) + (Glue(StripRight(line)) + Strip(raw))
  }

  lemma {:induction false} MendedRow(line: string, raw: string)
    requires IsRow(line) && IsPortLine(raw)
    ensures var row, whole := StripRight(line), Mended(line, raw);
            && StripRight(whole) == whole && !IsSkipped(whole) && !IsSkipped(line)
            && RowOf(whole) == Some(RowOf(row).value.(ports := RowOf(row).value.ports + SplitPorts(Strip(raw))))
  {
    hide RowOf, SplitPorts, PortText, IsPortText, IsSkipped, Strip, StripRight, IsSpace;
    var row, piece := StripRight(line), Strip(raw);
    var ports := PortText(row);
    NotBlank(raw);
    StripEnds(raw);
    RowStartsWithDigit(row);
    StripRightTwice(line);
    DigitRowStays(row, Glue(row) + piece);
    DigitIsNotSkipped(line);
    RowPorts(row);
    if ports == "" {
      BareRowGoesOn(row, piece);
      NoPorts();
      assert [] + SplitPorts(piece) == SplitPorts(piece);
    } else {
      RowGoesOn(row, Glue(row) + piece);
      if ports[|ports| - 1] == ',' {
        assert "" + piece == piece;
        PortsAcrossBreak(ports, piece);
      } else {
        assert ports + ("," + piece) == ports + "," + piece;
        SplitAtComma(ports, piece);
        hide SplitOn, Named;
        PortsAtComma(ports, piece);
      }
    }
  }

  lemma {:induction false} PortsAtComma(a: string, b: string)
    ensures SplitPorts(a + "," + b) == SplitPorts(a) + SplitPorts(b)
  {
    hide SplitOn, Named;
    SplitAtComma(a, b);
    NamedAppend(SplitOn(a, ','), SplitOn(b, ','));
  }

  lemma {:induction false} NoPorts()
    ensures SplitPorts("") == []
  {
    NothingNamed();
  }

  lemma {:induction false} NotBlank(raw: string)
    requires !IsSkipped(raw)
    ensures Strip(raw) != ""
  {
  }

  lemma {:induction false} StripRightTwice(s: string)
    ensures StripRight(StripRight(s)) == StripRight(s)
    decreases |s|
  {
    if s != "" && IsSpace(s[|s| - 1]) {
      StripRightTwice(s[..|s| - 1]);
    }
  }

  lemma {:induction false} DigitIsNotSkipped(line: string)
    requires StripRight(line) != "" && IsDigit(StripRight(line)[0])
    ensures !IsSkipped(line)
  {
    var row := StripRight(line);
    assert line[0] == row[0] && StripLeft(line) == line;
    assert Lower(row)[0] == row[0];
    assert "vlan "[0] == 'v';
  }

  /** Breaking a port list once, after a comma or in place of one, does not change what is read. */
  lemma {:induction false} BrokenOnce(vlans: seq<VlanFacts>, line: string, raw: string, rest: seq<string>)
    requires IsRow(line) && IsPortLine(raw)
    ensures BriefSteps(vlans, [line, raw] + rest) == BriefSteps(vlans, [Mended(line, raw)] + rest)
    ensures IsRow(Mended(line, raw))
  {
    hide RowOf, SplitPorts, IsPortText, IsSkipped, Strip, StripRight, Mended;
    var row := RowOf(StripRight(line)).value;
    MendedRow(line, raw);
    TwoSteps(vlans, line, raw, rest);
    assert ([Mended(line, raw)] + rest)[1..] == rest;
    assert Continue(vlans + [row], SplitPorts(Strip(raw)))
        == vlans + [row.(ports := row.ports + SplitPorts(Strip(raw)))];
  }

  /** A line of a listing and the further lines its port list is broken onto, if it is broken. */
  datatype Entry = Entry(line: string, pieces: seq<string>)

  predicate BreaksOk(line: string, pieces: seq<string>) {
    pieces != [] ==> IsRow(line) && forall i :: 0 <= i < |pieces| ==> IsPortLine(pieces[i])
  }

  function Joined(line: string, pieces: seq<string>): string
    decreases |pieces|
  {
    if pieces == [] then line else Joined(Mended(line, pieces[0]), pieces[1..])
  }

  /** The listing as the device prints it, and with its port lists in one piece. */
  function Broken(entries: seq<Entry>): seq<string> {
    if entries == [] then [] else [entries[0].line] + entries[0].pieces + Broken(entries[1..])
  }

  function Unbroken(entries: seq<Entry>): seq<string> {
    if entries == [] then [] else [Joined(entries[0].line, entries[0].pieces)] + Unbroken(entries[1..])
  }

  lemma {:induction false} RowBreaks(vlans: seq<VlanFacts>, line: string, pieces: seq<string>, rest: seq<string>)
    requires BreaksOk(line, pieces)
    ensures BriefSteps(vlans, [line] + pieces + rest) == BriefSteps(vlans, [Joined(line, pieces)] + rest)
    decreases |pieces|
  {
    hide BriefStep, IsRow, IsPortLine, Mended;
    if pieces == [] {
      assert [line] + pieces + rest == [line] + rest;
    } else {
      BrokenOnce(vlans, line, pieces[0], pieces[1..] + rest);
      assert [line] + pieces + rest == [line, pieces[0]] + (pieces[1..] + rest);
      var longer := Mended(line, pieces[0]);
      RowBreaks(vlans, longer, pieces[1..], rest);
      assert [longer] + (pieces[1..] + rest) == [longer] + pieces[1..] + rest;
    }
  }

  /** However many port lists of a listing are broken, however often, after their commas or in place of them, or right
      behind the status: the same VLANs and ports are read. */
  lemma {:induction false} BreakingDoesNotMatter(vlans: seq<VlanFacts>, entries: seq<Entry>)
    requires forall i :: 0 <= i < |entries| ==> BreaksOk(entries[i].line, entries[i].pieces)
    ensures BriefSteps(vlans, Broken(entries)) == BriefSteps(vlans, Unbroken(entries))
    decreases |entries|
  {
    hide BriefStep, BreaksOk, Joined;
    if entries != [] {
      var e, rest := entries[0], entries[1..];
      RowBreaks(vlans, e.line, e.pieces, Broken(rest));
      var line := Joined(e.line, e.pieces);
      BreakingDoesNotMatter(BriefStep(vlans, line), rest);
      assert ([line] + Broken(rest))[1..] == Broken(rest) && ([line] + Unbroken(rest))[1..] == Unbroken(rest);
    }
  }

  lemma {:induction false} RowPorts(line: string)
    requires RowOf(line).Some?
    ensures RowOf(line).value.ports == SplitPorts(PortText(line))
  {
    hide SplitPorts, NatValue;
  }

  lemma {:induction false} TwoSteps(vlans: seq<VlanFacts>, a: string, b: string, rest: seq<string>)
    ensures BriefSteps(vlans, [a, b] + rest) == BriefSteps(BriefStep(BriefStep(vlans, a), b), rest)
  {
    hide BriefStep;
    var all := [a, b] + rest;
    assert all[1..] == [b] + rest && ([b] + rest)[1..] == rest;
  }

  lemma {:induction false} RowStartsWithDigit(line: string)
    requires RowOf(line).Some?
    ensures line != "" && IsDigit(line[0])
  {
    hide SplitPorts, NatValue;
    assert line[..WordEnd(line)][0] == line[0];
  }

  lemma {:induction false} DigitRowStays(line: string, piece: string)
    requires line != "" && IsDigit(line[0]) && piece != "" && !IsSpace(piece[|piece| - 1])
    ensures StripRight(line + piece) == line + piece && !IsSkipped(line + piece)
  {
    var s := line + piece;
    StripOfSolid(s);
    assert Lower(s)[0] == s[0];
    assert "vlan "[0] == 'v';
  }
}
