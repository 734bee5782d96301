/** What is read from a printed `show vlan brief`: the rows that were printed, however their port lists are broken. */
module VlanListing {
  import opened Wrappers
  import opened Text
  import opened Lines
  import opened VlanList
  import opened Facts
  import opened Device
  import opened VlanBrief
  import opened CiscoDriver

  /** A row of `show vlan brief`, with the white space its columns are filled up with and that behind each comma. */
  datatype VlanRow = VlanRow(id: nat, name: string, status: string, ports: seq<string>,
                             afterId: string, afterName: string, afterStatus: string, afterCommas: seq<string>)

  predicate AllSpace(s: string) {
    forall i :: 0 <= i < |s| ==> IsSpace(s[i])
  }

  predicate IsGap(s: string) {
    s != "" && AllSpace(s)
  }

  /** A port as it is listed: a word without a comma. */
  predicate IsPortName(s: string) {
    IsWord(s) && ',' !in s
  }

  predicate VlanRowOk(r: VlanRow) {
    && r.id <= VLAN_ID_MAX && IsWord(r.name) && IsWord(r.status)
    && IsGap(r.afterId) && IsGap(r.afterName) && IsGap(r.afterStatus)
    && PortsOk(r.ports, r.afterCommas)
  }

  predicate PortsOk(ports: seq<string>, gaps: seq<string>) {
    && |gaps| == |ports|
    && forall i :: 0 <= i < |ports| ==> IsPortName(ports[i]) && AllSpace(gaps[i])
  }

  /** Ports with commas between them, and any white space behind each comma. */
  function PortsText(ports: seq<string>, gaps: seq<string>): string
    requires |gaps| == |ports|
  {
    if ports == [] then "" else if |ports| == 1 then ports[0]
    else ports[0] + "," + (gaps[0] + PortsText(ports[1..], gaps[1..]))
  }

  function StatusText(r: VlanRow): string
    requires |r.afterCommas| == |r.ports|
  {
    r.status + (if r.ports == [] then "" else r.afterStatus + PortsText(r.ports, r.afterCommas))
  }

  function RowText(r: VlanRow): string
    requires |r.afterCommas| == |r.ports|
  {
    PrintNat(r.id) + (r.afterId + (r.name + (r.afterName + StatusText(r))))
  }

  function RowFacts(r: VlanRow): VlanFacts {
    VlanFacts(r.id, r.name, r.ports)
  }

  lemma {:induction false} GapIsSkipped(gap: string, rest: string)
    requires AllSpace(gap) && (rest == "" || !IsSpace(rest[0]))
    ensures StripLeft(gap + rest) == rest
  {
    hide IsSpace;
    if gap == "" {
      assert gap + rest == rest;
    } else {
      assert (gap + rest)[1..] == gap[1..] + rest;
      GapIsSkipped(gap[1..], rest);
    }
  }

  /** A column: the word, the gap behind it, and what follows. */
  lemma {:induction false} ColumnIsRead(w: string, gap: string, rest: string)
    requires IsWord(w) && IsGap(gap) && rest != "" && !IsSpace(rest[0])
    ensures var s := w + (gap + rest); s[..WordEnd(s)] == w && StripLeft(s[WordEnd(s)..]) == rest
  {
    hide IsSpace;
    var s := w + (gap + rest);
    assert forall i :: 0 <= i < |w| ==> s[i] == w[i];
    WordEndIs(s, |w|);
    GapIsSkipped(gap, rest);
    assert s[|w|..] == gap + rest;
  }

  lemma {:induction false} PortsAreRead(before: string, ports: seq<string>, gaps: seq<string>)
    requires AllSpace(before) && PortsOk(ports, gaps)
    ensures SplitPorts(before + PortsText(ports, gaps)) == ports
    decreases |ports|
  {
    hide SplitOn, Named, SplitPorts, IsPortName, AllSpace;
    if ports == [] {
      SpaceIsNoPort(before);
      assert before + "" == before;
    } else {
      var p := ports[0];
      OnePort(before, p);
      if |ports| == 1 {
        assert [p] == ports;
      } else {
        var rest := gaps[0] + PortsText(ports[1..], gaps[1..]);
        PortsAreRead(gaps[0], ports[1..], gaps[1..]);
        PortsAtComma(before + p, rest);
        assert before + PortsText(ports, gaps) == before + p + "," + rest;
        assert [p] + ports[1..] == ports;
      }
    }
  }

  lemma {:induction false} SpaceIsNoPort(s: string)
    requires AllSpace(s)
    ensures SplitPorts(s) == []
  {
    hide IsSpace;
    CommaIsNoSpace();
    IndexOfIs(s, ',', |s|);
    SplitStep(s, ',', |s|);
    GapIsSkipped(s, "");
    assert s + "" == s;
    StripOfSolid("");
    assert Named([s]) == [] + Named([]);
  }

  lemma {:induction false} CommaIsNoSpace()
    ensures !IsSpace(',')
  {
  }

  lemma {:induction false} OnePort(before: string, p: string)
    requires AllSpace(before) && IsPortName(p)
    ensures SplitPorts(before + p) == [p]
  {
    hide IsSpace;
    var q := before + p;
    CommaIsNoSpace();
    IndexOfIs(q, ',', |q|);
    GapIsSkipped(before, p);
    StripOfWord(p);
    assert StripLeft(p) == p;
    JustOne(q);
  }

  lemma {:induction false} JustOne(s: string)
    requires IndexOf(s, ',') == |s| && Strip(s) != ""
    ensures SplitPorts(s) == [Strip(s)]
  {
    hide Strip;
    SplitStep(s, ',', |s|);
    assert Named([s]) == [Strip(s)] + Named([]);
  }

  lemma {:induction false} StatusIsRead(r: VlanRow)
    requires VlanRowOk(r)
    ensures var s := StatusText(r);
            s != "" && !IsSpace(s[0]) && WordEnd(s) > 0 && SplitPorts(StripLeft(s[WordEnd(s)..])) == r.ports
  {
    hide SplitPorts, IsSpace, PrintNat;
    var s := StatusText(r);
    PortsAreRead("", r.ports, r.afterCommas);
    assert "" + PortsText(r.ports, r.afterCommas) == PortsText(r.ports, r.afterCommas);
    if r.ports == [] {
      WordEndIs(r.status, |r.status|);
      assert s == r.status && s[|s|..] == "";
    } else {
      PortsTextIsSolid(r.ports, r.afterCommas);
      ColumnIsRead(r.status, r.afterStatus, PortsText(r.ports, r.afterCommas));
      assert s == r.status + (r.afterStatus + PortsText(r.ports, r.afterCommas));
      assert s[0] == r.status[0];
      SomeWord(s);
    }
  }

  lemma {:induction false} SomeWord(s: string)
    requires s != "" && !IsSpace(s[0])
    ensures WordEnd(s) > 0
  {
  }

  lemma {:induction false} PortsTextIsSolid(ports: seq<string>, gaps: seq<string>)
    requires ports != [] && PortsOk(ports, gaps)
    ensures PortsText(ports, gaps) != "" && !IsSpace(PortsText(ports, gaps)[0])
  {
    hide IsSpace;
    assert PortsText(ports, gaps)[0] == ports[0][0];
  }

  /** A printed row is read back column by column. */
  lemma {:induction false} RowIsRead(r: VlanRow)
    requires VlanRowOk(r)
    ensures RowOf(RowText(r)) == Some(RowFacts(r))
    ensures RowText(r) != "" && IsDigit(RowText(r)[0])
  {
    hide IsSpace, SplitPorts, StripLeft, WordEnd, NatValue, PrintNat;
    var status := StatusText(r);
    var name := r.name + (r.afterName + status);
    StatusIsRead(r);
    ColumnIsRead(r.name, r.afterName, status);
    assert name[0] == r.name[0];
    PrintNatIsId(r.id);
    DigitsAreWord(PrintNat(r.id));
    ColumnIsRead(PrintNat(r.id), r.afterId, name);
    assert RowText(r)[0] == PrintNat(r.id)[0];
  }

  lemma {:induction false} DigitsAreWord(s: string)
    requires s != "" && AllDigits(s)
    ensures IsWord(s)
  {
  }

  /** The lines are these rows, in order, among blank lines, rules and the heading. */
  predicate PrintsRows(lines: seq<string>, rows: seq<VlanRow>) {
    if lines == [] then rows == []
    else if IsSkipped(lines[0]) then PrintsRows(lines[1..], rows)
    else
      && rows != [] && VlanRowOk(rows[0]) && StripRight(lines[0]) == RowText(rows[0])
      && PrintsRows(lines[1..], rows[1..])
  }

  function AllRowFacts(rows: seq<VlanRow>): (r: seq<VlanFacts>)
    ensures |r| == |rows|
  {
    seq(|rows|, i requires 0 <= i < |rows| => RowFacts(rows[i]))
  }

  lemma {:induction false} RowsAreRead(vlans: seq<VlanFacts>, lines: seq<string>, rows: seq<VlanRow>)
    requires PrintsRows(lines, rows)
    ensures BriefSteps(vlans, lines) == vlans + AllRowFacts(rows)
    decreases |lines|
  {
    hide IsSkipped, VlanRowOk, RowText, RowFacts, RowOf, StripRight, Strip, IsPortText;
    if lines != [] {
      if IsSkipped(lines[0]) {
        RowsAreRead(vlans, lines[1..], rows);
      } else {
        RowIsRead(rows[0]);
        RowsAreRead(vlans + [RowFacts(rows[0])], lines[1..], rows[1..]);
        assert AllRowFacts(rows) == [RowFacts(rows[0])] + AllRowFacts(rows[1..]);
      }
    }
  }

  /** A printed listing, its port lists broken anywhere the device may break them, is read back as its rows. */
  lemma {:induction false} RowsRoundTrip(entries: seq<Entry>, rows: seq<VlanRow>, ends: seq<string>)
    requires forall i :: 0 <= i < |entries| ==> BreaksOk(entries[i].line, entries[i].pieces)
    requires PrintsRows(Unbroken(entries), rows)
    requires EndsOk(Broken(entries), ends)
    ensures BriefSteps([], SplitLines(Printed(Broken(entries), ends))) == AllRowFacts(rows)
  {
    hide BriefSteps, Broken, Unbroken, BreaksOk, VlanRowOk, PrintsRows, EndsOk, SplitLines, Printed;
    PrintedSplits(Broken(entries), ends);
    BreakingDoesNotMatter([], entries);
    RowsAreRead([], Unbroken(entries), rows);
    assert [] + AllRowFacts(rows) == AllRowFacts(rows);
  }

  /** The rows are the VLANs of the configuration, in any order. */
  ghost predicate RowsOf(c: Config, rows: seq<VlanRow>) {
    && (forall i :: 0 <= i < |rows| ==> rows[i].id in c.vlans && rows[i].name == c.vlans[rows[i].id])
    && (forall id :: id in c.vlans ==> exists i :: 0 <= i < |rows| && rows[i].id == id)
  }

  /** Each access port stands in the row of its VLAN, if there is one, and in no other. */
  ghost predicate PlacesPorts(c: Config, rows: seq<VlanRow>) {
    forall name, i :: 0 <= i < |rows| && IsAccessPort(c, name) ==>
      (HoldsPort(RowFacts(rows[i]), name) <==> rows[i].id == c.ports[NormalizeInterfaceName(name)].accessVlan)
  }

  /** The VLANs of a configuration and the ports in them, in any order, the port lists broken in any way: what is parsed
      reports the configuration. */
  lemma {:induction false} VlansAreReported(c: Config, entries: seq<Entry>, rows: seq<VlanRow>, ends: seq<string>)
    requires forall i :: 0 <= i < |entries| ==> BreaksOk(entries[i].line, entries[i].pieces)
    requires RowsOf(c, rows) && PrintsRows(Unbroken(entries), rows) && EndsOk(Broken(entries), ends)
    ensures ReportsVlans(c, BriefSteps([], SplitLines(Printed(Broken(entries), ends))))
    ensures PlacesPorts(c, rows) ==> ReportsMembership(c, BriefSteps([], SplitLines(Printed(Broken(entries), ends))))
  {
    hide BriefSteps, Broken, Unbroken, BreaksOk, VlanRowOk, PrintsRows, EndsOk, SplitLines, Printed;
    hide HoldsPort, IsAccessPort, NormalizeInterfaceName;
    RowsRoundTrip(entries, rows, ends);
    var vlans := AllRowFacts(rows);
    forall id | id in c.vlans ensures exists i :: 0 <= i < |vlans| && vlans[i].vlanId == id {
      var i :| 0 <= i < |rows| && rows[i].id == id;
      assert vlans[i].vlanId == id;
    }
  }

  // ---- Which lines continue a row ----

  predicate IsPortChar(c: char) {
    'a' <= c <= 'z' || 'A' <= c <= 'Z' || '0' <= c <= '9' || c == '/' || c == '.' || c == '-'
  }

  /** A port as the device names it. */
  predicate IsPlainPort(s: string) {
    s != "" && ('a' <= s[0] <= 'z' || 'A' <= s[0] <= 'Z') && forall i :: 0 <= i < |s| ==> IsPortChar(s[i])
  }

  lemma {:induction false} PortsAreText(ports: seq<string>, gaps: seq<string>)
    requires PortsOk(ports, gaps) && ports != [] && forall i :: 0 <= i < |ports| ==> IsPlainPort(ports[i])
    ensures var s := PortsText(ports, gaps);
            && IsPortText(s) && ports[0] <= s && (s == ports[0] || s[|ports[0]|] == ',') && !IsSpace(s[|s| - 1])
  {
    hide IsSpace;
    if |ports| > 1 {
      PortsAreText(ports[1..], gaps[1..]);
    } else {
      var p := ports[0];
      assert IsPortChar(p[|p| - 1]);
      PortIsSolid(p[|p| - 1]);
    }
  }

  lemma {:induction false} PortIsSolid(c: char)
    ensures IsPortChar(c) ==> !IsSpace(c)
  {
  }

  /** A line that lists ports, behind white space, continues the row above it. */
  lemma {:induction false} PortsContinue(before: string, ports: seq<string>, gaps: seq<string>)
    requires IsGap(before) && PortsOk(ports, gaps) && ports != []
    requires forall i :: 0 <= i < |ports| ==> IsPlainPort(ports[i])
    ensures IsPortLine(before + PortsText(ports, gaps))
  {
    hide IsSpace, IsPortText, StripRight, WordEnd;
    var s := PortsText(ports, gaps);
    PortsAreText(ports, gaps);
    PortIsSolid(s[0]);
    GapIsSkipped(before, s);
    SolidAtEnd(before + s);
    SolidAtEnd(s);
    NoRowBehindSpace(before + s);
    NotSkipped(s, ports[0]);
  }

  lemma {:induction false} SolidAtEnd(s: string)
    requires s != "" && !IsSpace(s[|s| - 1])
    ensures StripRight(s) == s
  {
  }

  lemma {:induction false} NoRowBehindSpace(line: string)
    requires line != "" && IsSpace(line[0])
    ensures RowOf(line).None?
  {
    assert WordEnd(line) == 0;
  }

  lemma {:induction false} NotSkipped(s: string, port: string)
    requires IsPlainPort(port) && port <= s && (s == port || s[|port|] == ',')
    ensures s[0] != '-' && !("vlan " <= Lower(s))
  {
    BlankAtFour(s);
    assert forall i :: 0 <= i < |port| ==> s[i] == port[i];
  }

  lemma {:induction false} BlankAtFour(s: string)
    ensures "vlan " <= Lower(s) ==> |s| > 4 && s[4] == ' ' && forall i :: 0 <= i < 4 ==> s[i] != ','
  {
    assert "vlan "[0] == 'v' && "vlan "[1] == 'l' && "vlan "[2] == 'a' && "vlan "[3] == 'n' && "vlan "[4] == ' ';
    assert forall i :: 0 <= i < |s| ==> Lower(s)[i] == LowerChar(s[i]);
    assert "vlan " <= Lower(s) ==> forall i :: 0 <= i < 5 ==> Lower(s)[i] == "vlan "[i];
  }
}
