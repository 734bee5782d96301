/** Reading `router` blocks and switchport listings back from what the device prints. */
module CliParsers {
  import opened Wrappers
  import opened Text
  import opened VlanList
  import opened Facts
  import opened Lines

  // ---- router blocks ----

  const ROUTER := "router "

  /** The parser between two lines: the block being read, if any, and the blocks done. */
  datatype RouterState = RouterState(name: Option<string>, statements: seq<string>, processes: seq<RoutingProcessFacts>)

  function Finish(s: RouterState): seq<RoutingProcessFacts> {
    if s.name.None? then s.processes else s.processes + [RoutingProcessFacts(s.name.value, s.statements)]
  }

  predicate IsNoise(raw: string) {
    Strip(raw) == "" || Strip(raw) == "!"
  }

  /** One line: a header starts a block, an indented line belongs to it, any other line ends it. */
  function RouterStep(s: RouterState, raw: string): RouterState {
    if ROUTER <= raw then RouterState(Some(Strip(raw[|ROUTER|..])), [], Finish(s))
    else if s.name.None? || IsNoise(raw) then s
    else if raw != "" && IsSpace(raw[0]) then s.(statements := s.statements + [Strip(raw)])
    else RouterState(None, [], Finish(s))
  }

  function RouterSteps(s: RouterState, lines: seq<string>): RouterState
    decreases |lines|
  {
    if lines == [] then s else RouterSteps(RouterStep(s, lines[0]), lines[1..])
  }

  function RouterBlocks(lines: seq<string>): seq<RoutingProcessFacts> {
    Finish(RouterSteps(RouterState(None, [], []), lines))
  }

  method ParseRoutingProcesses(output: string) returns (processes: seq<RoutingProcessFacts>)
    ensures processes == RouterBlocks(SplitLines(output))
  {
    hide RouterStep, Strip, SplitLines;
    var lines := SplitLines(output);
    processes := [];
    var name: Option<string>, statements: seq<string> := None, [];
    for k := 0 to |lines|
      invariant RouterSteps(RouterState(None, [], []), lines)
             == RouterSteps(RouterState(name, statements, processes), lines[k..])
    {
      var raw := lines[k];
      StepOne(RouterState(name, statements, processes), lines, k);
      StepCases(RouterState(name, statements, processes), raw);
      if ROUTER <= raw {
        if name.Some? {
          processes := processes + [RoutingProcessFacts(name.value, statements)];
        }
        name, statements := Some(Strip(raw[|ROUTER|..])), [];
        continue;
      }
      if name.None? || Strip(raw) == "" || Strip(raw) == "!" {
        continue;
      }
      if raw != "" && IsSpace(raw[0]) {
        statements := statements + [Strip(raw)];
      } else {
        processes := processes + [RoutingProcessFacts(name.value, statements)];
        name, statements := None, [];
      }
    }
    if name.Some? {
      processes := processes + [RoutingProcessFacts(name.value, statements)];
    }
  }

  lemma {:induction false} StepOne(s: RouterState, lines: seq<string>, k: nat)
    requires k < |lines|
    ensures RouterSteps(s, lines[k..]) == RouterSteps(RouterStep(s, lines[k]), lines[k + 1..])
  {
    assert lines[k..][1..] == lines[k + 1..];
  }

  lemma {:induction false} StepCases(s: RouterState, raw: string)
    ensures RouterStep(s, raw)
         == if ROUTER <= raw then RouterState(Some(Strip(raw[|ROUTER|..])), [], Finish(s))
            else if s.name.None? || Strip(raw) == "" || Strip(raw) == "!" then s
            else if raw != "" && IsSpace(raw[0]) then s.(statements := s.statements + [Strip(raw)])
            else RouterState(None, [], Finish(s))
  {
  }

  /** The line that opens a block of this name. */
  predicate IsHeader(raw: string, name: string) {
    raw == ROUTER + name && Strip(name) == name
  }

  /** A line holding this statement: indented in any way, with any white space behind it. */
  predicate IsStatementLine(raw: string, statement: string) {
    raw != "" && IsSpace(raw[0]) && Strip(raw) == statement && statement != "" && statement != "!"
  }

  /** The lines print these blocks, with blank lines and `!` lines anywhere. */
  predicate PrintsBlocks(lines: seq<string>, blocks: seq<RoutingProcessFacts>)
    decreases |lines|, |blocks|, 1
  {
    if lines != [] && IsNoise(lines[0]) then PrintsBlocks(lines[1..], blocks)
    else if blocks == [] then lines == []
    else lines != [] && IsHeader(lines[0], blocks[0].name) && PrintsBody(lines[1..], blocks[0].statements, blocks[1..])
  }

  predicate PrintsBody(lines: seq<string>, statements: seq<string>, rest: seq<RoutingProcessFacts>)
    decreases |lines|, |rest| + 1, 0
  {
    if lines != [] && IsNoise(lines[0]) then PrintsBody(lines[1..], statements, rest)
    else if statements == [] then PrintsBlocks(lines, rest)
    else lines != [] && IsStatementLine(lines[0], statements[0]) && PrintsBody(lines[1..], statements[1..], rest)
  }

  lemma {:induction false} NoiseIsSkipped(s: RouterState, raw: string)
    requires IsNoise(raw)
    ensures RouterStep(s, raw) == s
  {
    if ROUTER <= raw {
      HeaderIsLong(raw);
    }
  }

  lemma {:induction false} HeaderIsLong(raw: string)
    requires ROUTER <= raw
    ensures Strip(raw) != "" && Strip(raw) != "!"
  {
    hide IsSpace;
    assert raw[0] == 'r' && raw[1] == 'o';
    Letters();
    KeepsFirstTwo(raw);
  }

  lemma {:induction false} Letters()
    ensures !IsSpace('r') && !IsSpace('o')
  {
  }

  lemma {:induction false} KeepsFirstTwo(s: string)
    requires |s| >= 2 && !IsSpace(s[0]) && !IsSpace(s[1])
    ensures |Strip(s)| >= 2
  {
    RightKeepsTwo(s);
  }

  lemma {:induction false} RightKeepsTwo(s: string)
    requires |s| >= 2 && !IsSpace(s[0]) && !IsSpace(s[1])
    ensures |StripRight(s)| >= 2
    decreases |s|
  {
    if IsSpace(s[|s| - 1]) {
      RightKeepsTwo(s[..|s| - 1]);
    }
  }

  /** Whatever was read so far, the blocks that follow are read as printed. */
  lemma {:induction false} BlocksAreRead(s: RouterState, lines: seq<string>, blocks: seq<RoutingProcessFacts>)
    requires PrintsBlocks(lines, blocks)
    ensures Finish(RouterSteps(s, lines)) == Finish(s) + blocks
    decreases |lines|, |blocks|, 1
  {
    hide RouterStep, IsNoise, IsHeader;
    if lines != [] && IsNoise(lines[0]) {
      NoiseIsSkipped(s, lines[0]);
      BlocksAreRead(s, lines[1..], blocks);
    } else if blocks != [] {
      var next := RouterStep(s, lines[0]);
      HeaderIsRead(s, lines[0], blocks[0].name);
      BodyIsRead(next, lines[1..], blocks[0].name, [], blocks[0].statements, blocks[1..]);
      assert Finish(s) + [blocks[0]] + blocks[1..] == Finish(s) + blocks;
      assert [] + blocks[0].statements == blocks[0].statements;
    }
  }

  lemma {:induction false} HeaderIsRead(s: RouterState, raw: string, name: string)
    requires IsHeader(raw, name)
    ensures RouterStep(s, raw) == RouterState(Some(name), [], Finish(s))
  {
    hide Strip;
    assert raw[|ROUTER|..] == name;
  }

  lemma {:induction false} StatementIsRead(s: RouterState, raw: string, statement: string)
    requires s.name.Some? && IsStatementLine(raw, statement)
    ensures RouterStep(s, raw) == s.(statements := s.statements + [statement])
  {
    hide Strip;
    assert !(ROUTER <= raw) by { NotHeader(raw); }
  }

  lemma {:induction false} NotHeader(raw: string)
    requires raw != "" && IsSpace(raw[0])
    ensures !(ROUTER <= raw)
  {
    Letters();
  }

  lemma {:induction false} BodyIsRead(s: RouterState, lines: seq<string>, name: string, done: seq<string>,
                                      statements: seq<string>, rest: seq<RoutingProcessFacts>)
    requires PrintsBody(lines, statements, rest) && s.name == Some(name) && s.statements == done
    ensures Finish(RouterSteps(s, lines)) == s.processes + [RoutingProcessFacts(name, done + statements)] + rest
    decreases |lines|, |rest| + 1, 0
  {
    hide RouterStep, IsNoise, IsStatementLine;
    if lines != [] && IsNoise(lines[0]) {
      NoiseIsSkipped(s, lines[0]);
      BodyIsRead(s, lines[1..], name, done, statements, rest);
    } else if statements == [] {
      assert done + statements == done;
      BlocksAreRead(s, lines, rest);
    } else {
      StatementIsRead(s, lines[0], statements[0]);
      BodyIsRead(RouterStep(s, lines[0]), lines[1..], name, done + [statements[0]], statements[1..], rest);
      assert done + [statements[0]] + statements[1..] == done + statements;
    }
  }

  /** Printing blocks, with blank and `!` lines inserted anywhere and each line ended either way, the last one possibly
      not at all, and parsing recovers exactly the blocks. */
  lemma {:induction false} BlocksRoundTrip(lines: seq<string>, ends: seq<string>, blocks: seq<RoutingProcessFacts>)
    requires PrintsBlocks(lines, blocks) && EndsOk(lines, ends)
    ensures RouterBlocks(SplitLines(Printed(lines, ends))) == blocks
  {
    hide SplitLines, Printed, PrintsBlocks, EndsOk;
    PrintedSplits(lines, ends);
    BlocksAreRead(RouterState(None, [], []), lines, blocks);
    assert [] + blocks == blocks;
  }

  // ---- Switchport listings ----

  /** The parser between two lines of `show interfaces switchport`. */
  datatype PortState = PortState(fields: map<string, string>, last: Option<string>, ports: seq<SwitchportFacts>)

  predicate IsLabelChar(c: char) {
    'a' <= c <= 'z' || 'A' <= c <= 'Z' || IsDigit(c) || c in " ()./-"
  }

  /** A line `Label: value`. */
  predicate IsField(line: string) {
    var n := IndexOf(line, ':');
    && 0 < n < |line|
    && ('a' <= line[0] <= 'z' || 'A' <= line[0] <= 'Z')
    && forall i :: 0 <= i < n ==> IsLabelChar(line[i])
  }

  function FieldOf(fields: map<string, string>, tag: string): string {
    if tag in fields then fields[tag] else ""
  }

  function NonEmpty(s: string): Option<string> {
    if s == "" then None else Some(s)
  }

  /** The block read so far becomes a port if it named one. */
  function Flush(s: PortState): seq<SwitchportFacts> {
    if FieldOf(s.fields, "Name") == "" then s.ports
    else
      s.ports + [SwitchportFacts(FieldOf(s.fields, "Name"), FieldOf(s.fields, "Administrative Mode"),
                                 NonEmpty(FieldOf(s.fields, "Trunking VLANs Enabled")),
                                 NonEmpty(FieldOf(s.fields, "Administrative Trunking Encapsulation")))]
  }

  function Store(s: PortState, tag: string, value: string): PortState {
    var base := if tag == "Name" then PortState(map[], s.last, Flush(s)) else s;
    PortState(base.fields[tag := value], Some(tag), base.ports)
  }

  /** One line: a field is stored under its label; a line without a label continues the last value. */
  function PortStep(s: PortState, raw: string): PortState {
    var line := Strip(raw);
    if line == "" then s
    else if IsField(line) then Store(s, Strip(Before(line, ':')), Strip(After(line, ':')))
    else if s.last.Some? then s.(fields := s.fields[s.last.value := FieldOf(s.fields, s.last.value) + line])
    else s
  }

  function PortSteps(s: PortState, lines: seq<string>): PortState
    decreases |lines|
  {
    if lines == [] then s else PortSteps(PortStep(s, lines[0]), lines[1..])
  }

  function SwitchportList(lines: seq<string>): seq<SwitchportFacts> {
    Flush(PortSteps(PortState(map[], None, []), lines))
  }

  method ParseSwitchports(output: string) returns (ports: seq<SwitchportFacts>)
    ensures ports == SwitchportList(SplitLines(output))
  {
    hide Strip, SplitLines, IsField, Flush;
    var lines := SplitLines(output);
    var fields: map<string, string>, last: Option<string> := map[], None;
    ports := [];
    for k := 0 to |lines|
      invariant PortSteps(PortState(map[], None, []), lines) == PortSteps(PortState(fields, last, ports), lines[k..])
    {
      PortStepOne(PortState(fields, last, ports), lines, k);
      var line := Strip(lines[k]);
      if line == "" {
        continue;
      }
      if !IsField(line) {
        if last.Some? {
          fields := fields[last.value := FieldOf(fields, last.value) + line];
        }
        continue;
      }
      var tag := Strip(Before(line, ':'));
      if tag == "Name" {
        ports := Flush(PortState(fields, last, ports));
        fields := map[];
      }
      fields, last := fields[tag := Strip(After(line, ':'))], Some(tag);
    }
    ports := Flush(PortState(fields, last, ports));
  }

  lemma {:induction false} PortStepOne(s: PortState, lines: seq<string>, k: nat)
    requires k < |lines|
    ensures PortSteps(s, lines[k..]) == PortSteps(PortStep(s, lines[k]), lines[k + 1..])
  {
    hide PortStep;
    assert lines[k..][1..] == lines[k + 1..];
  }

  /** A stretch of a wrapped value, as a line of its own: indented in any way, and not starting like a label. */
  predicate IsContinuation(raw: string) {
    var piece := Strip(raw);
    piece != "" && !('a' <= piece[0] <= 'z') && !('A' <= piece[0] <= 'Z')
  }

  function Pieces(lines: seq<string>): string {
    if lines == [] then "" else Strip(lines[0]) + Pieces(lines[1..])
  }

  /** Solid text behind a value whose own end is solid: stripping does not touch the seam. */
  lemma {:induction false} StripSeam(a: string, c: string)
    requires c != "" && !IsSpace(c[0]) && !IsSpace(c[|c| - 1])
    requires a == "" || !IsSpace(a[|a| - 1])
    ensures Strip(a + c) == Strip(a) + c
    decreases |a|
  {
    hide IsSpace;
    if a != "" && IsSpace(a[0]) {
      assert (a + c)[1..] == a[1..] + c;
      StripSeam(a[1..], c);
    } else {
      StripOfSolid(a + c);
      StripOfSolid(a);
      assert a == "" ==> a + c == c;
    }
  }

  /** Reading a field line and then its continuation is reading them as one line. */
  lemma {:induction false} WrapOnce(s: PortState, line: string, raw: string)
    requires Strip(line) == line && line != "" && IsField(line) && IsContinuation(raw)
    ensures PortStep(PortStep(s, line), raw) == PortStep(s, line + Strip(raw))
    ensures Strip(line + Strip(raw)) == line + Strip(raw) && IsField(line + Strip(raw))
  {
    hide IsSpace, Flush, IsLabelChar, Strip;
    var piece := Strip(raw);
    var n := IndexOf(line, ':');
    StripEnds(raw);
    StripEnds(line);
    StripTwice(raw);
    JoinedField(line, piece);
    assert !IsField(piece);
    StripSeam(line, piece);
    var value := After(line, ':');
    assert value != "" ==> value[|value| - 1] == line[|line| - 1];
    StripSeam(value, piece);
  }

  lemma {:induction false} JoinedField(line: string, piece: string)
    requires IsField(line)
    ensures IsField(line + piece) && Before(line + piece, ':') == Before(line, ':')
    ensures After(line + piece, ':') == After(line, ':') + piece
  {
    hide IsLabelChar;
    var n := IndexOf(line, ':');
    IndexOfIs(line + piece, ':', n);
    assert (line + piece)[..n] == line[..n];
    forall i | 0 <= i < n ensures IsLabelChar((line + piece)[i]) {
      assert (line + piece)[i] == line[i];
    }
  }

  lemma {:induction false} WrapMany(s: PortState, line: string, wrapped: seq<string>, rest: seq<string>)
    requires Strip(line) == line && line != "" && IsField(line)
    requires forall i :: 0 <= i < |wrapped| ==> IsContinuation(wrapped[i])
    ensures PortSteps(PortStep(s, line), wrapped + rest) == PortSteps(PortStep(s, line + Pieces(wrapped)), rest)
    decreases |wrapped|
  {
    hide PortStep, IsField, IsContinuation, Strip;
    if wrapped == [] {
      assert wrapped + rest == rest && line + "" == line;
    } else {
      var all := wrapped + rest;
      assert all[0] == wrapped[0] && all[1..] == wrapped[1..] + rest;
      WrapOnce(s, line, wrapped[0]);
      WrapMany(s, line + Strip(wrapped[0]), wrapped[1..], rest);
      assert line + Strip(wrapped[0]) + Pieces(wrapped[1..]) == line + Pieces(wrapped);
    }
  }

  /** A line of a listing and the further lines its value is wrapped onto, if it is wrapped. */
  datatype Field = Field(line: string, pieces: seq<string>)

  predicate WrapOk(f: Field) {
    f.pieces != [] ==> IsField(Strip(f.line)) && forall i :: 0 <= i < |f.pieces| ==> IsContinuation(f.pieces[i])
  }

  function OneLine(f: Field): string {
    if f.pieces == [] then f.line else Strip(f.line) + Pieces(f.pieces)
  }

  /** The listing as the device prints it, and with every value in one piece. */
  function Wrapped(fields: seq<Field>): seq<string> {
    if fields == [] then [] else [fields[0].line] + fields[0].pieces + Wrapped(fields[1..])
  }

  function Unwrapped(fields: seq<Field>): seq<string> {
    if fields == [] then [] else [OneLine(fields[0])] + Unwrapped(fields[1..])
  }

  lemma {:induction false} FieldWraps(s: PortState, f: Field, rest: seq<string>)
    requires WrapOk(f)
    ensures PortSteps(s, [f.line] + f.pieces + rest) == PortSteps(PortStep(s, OneLine(f)), rest)
  {
    hide PortStep, IsField, IsContinuation, Strip, Pieces;
    var all := [f.line] + f.pieces + rest;
    assert all[0] == f.line && all[1..] == f.pieces + rest;
    if f.pieces == [] {
      assert f.pieces + rest == rest;
    } else {
      var line := Strip(f.line);
      StripTwice(f.line);
      SpaceAround(s, f.line);
      NoField();
      WrapMany(s, line, f.pieces, rest);
    }
  }

  lemma {:induction false} SpaceAround(s: PortState, raw: string)
    ensures PortStep(s, Strip(raw)) == PortStep(s, raw)
  {
    hide Strip, IsField;
    StripTwice(raw);
  }

  lemma {:induction false} NoField()
    ensures !IsField("")
  {
  }

  /** However many values of a listing are wrapped onto however many further lines, each indented in any way: the same
      switchports are read. */
  lemma {:induction false} WrappingDoesNotMatter(s: PortState, fields: seq<Field>)
    requires forall i :: 0 <= i < |fields| ==> WrapOk(fields[i])
    ensures PortSteps(s, Wrapped(fields)) == PortSteps(s, Unwrapped(fields))
    decreases |fields|
  {
    hide PortStep, WrapOk, OneLine;
    if fields != [] {
      var f, rest := fields[0], fields[1..];
      FieldWraps(s, f, Wrapped(rest));
      WrappingDoesNotMatter(PortStep(s, OneLine(f)), rest);
      assert ([OneLine(f)] + Unwrapped(rest))[1..] == Unwrapped(rest);
    }
  }
}
