/** Commands are stored newline-joined and split back into lines when the plan is applied: what those lines do. */
module StoredText {
  import opened Wrappers
  import opened Text
  import opened Lines
  import opened VlanList
  import opened Device
  import opened CommandLine
  import opened CiscoDriver
  import opened Undo

  function Texts(commands: seq<Command>): (r: seq<string>)
    ensures |r| == |commands|
  {
    seq(|commands|, i requires 0 <= i < |commands| => CommandText(commands[i]))
  }

  /** What is stored for a batch. */
  function Stored(commands: seq<Command>): string {
    JoinOn(Texts(commands), '\n')
  }

  /** What is sent for it. */
  function Sent(commands: seq<Command>): seq<string> {
    SplitLines(Stored(commands))
  }

  // ---- Splitting text that ends in white space ----

  predicate Spaces(x: string) {
    forall i :: 0 <= i < |x| ==> IsSpace(x[i])
  }

  /** The lines of a text are this one, with white space behind it, and then lines of white space. */
  predicate Padded(lines: seq<string>, a: string) {
    && (a != "" ==> lines != [])
    && (lines != [] ==> a <= lines[0] && Spaces(lines[0][|a|..]))
    && forall i :: 1 <= i < |lines| ==> Spaces(lines[i])
  }

  predicate TypablePads(lines: seq<string>, a: string)
    requires Padded(lines, a)
  {
    && (lines != [] ==> Typable(lines[0][|a|..]))
    && forall i :: 1 <= i < |lines| ==> Typable(lines[i])
  }

  lemma {:induction false} NothingIsOneLine()
    ensures OneLine("") && SplitLines("") == [] && Typable("") && IsTrail("") && Padded([], "") && TypablePads([], "")
  {
  }

  /** White space on one line may be sent exactly if it is all blanks. */
  lemma {:induction false} TrailOnOneLine(x: string)
    requires Spaces(x) && OneLine(x)
    ensures IsTrail(x) <==> Typable(x)
  {
    hide IsSpace, IsBreak;
    forall i | 0 <= i < |x| ensures IsBlank(x[i]) ==> IsSpace(x[i]) {
    }
  }

  lemma {:induction false} TrailAppend(a: string, c: string, b: string)
    requires IsTrail(c)
    ensures IsTrail(a + c + b) <==> IsTrail(a) && IsTrail(b)
  {
    var s := a + c + b;
    if IsTrail(s) {
      forall i | 0 <= i < |a| ensures IsBlank(a[i]) || IsBreak(a[i]) {
        assert s[i] == a[i];
      }
      forall i | 0 <= i < |b| ensures IsBlank(b[i]) || IsBreak(b[i]) {
        assert s[|a| + |c| + i] == b[i];
      }
    }
  }

  /** One line, white space behind it, and possibly another line: only lines of white space come in between, and
      all of it may be sent exactly if it is blanks and breaks. */
  lemma {:induction false} SplitPadded(a: string, x: string, tail: string, rest: string) returns (lines: seq<string>)
    requires OneLine(a) && Spaces(x) && ((tail == "" && rest == "") || tail == "\n" + rest)
    ensures SplitLines(a + x + tail) == lines + SplitLines(rest)
    ensures Padded(lines, a) && (TypablePads(lines, a) <==> IsTrail(x))
    decreases |x|
  {
    hide SplitLines, OneLine, Padded, TypablePads, IsTrail, Spaces, Typable;
    NothingIsOneLine();
    var n := LineEnd(x);
    SplitSpaces(x, n);
    OneLineAppend(a, x[..n]);
    TrailOnOneLine(x[..n]);
    if n == |x| {
      assert x[..n] == x;
      lines := SplitLast(a, x, tail, rest);
    } else if n + 1 == |x| && x[n] == '\r' && tail != "" {
      assert a + x + tail == a + x[..n] + "\r\n" + rest;
      SplitAtPair(a + x[..n], rest);
      lines := [a + x[..n]];
      PaddedCons(a, x[..n], []);
      assert lines == lines + [];
      BreakIsTrail(x[n]);
      TrailAppend(x[..n], [x[n]], "");
      assert x == x[..n] + [x[n]] + "";
    } else {
      var k := FirstBreak(a, x, n, tail);
      SplitSpaces(x, k);
      var more := SplitPadded("", x[k..], tail, rest);
      assert "" + x[k..] + tail == x[k..] + tail;
      lines := [a + x[..n]] + more;
      Assoc([a + x[..n]], more, SplitLines(rest));
      PaddedCons(a, x[..n], more);
      TrailAppend(x[..n], x[n..k], x[k..]);
      assert x == x[..n] + x[n..k] + x[k..];
    }
  }

  lemma {:induction false} SplitSpaces(x: string, n: nat)
    requires Spaces(x) && n <= |x|
    ensures Spaces(x[..n]) && Spaces(x[n..])
    ensures n == LineEnd(x) ==> OneLine(x[..n])
  {
  }

  lemma {:induction false} BreakIsTrail(c: char)
    requires IsBreak(c)
    ensures IsTrail([c])
  {
  }

  /** Where the text goes on behind its first break. */
  lemma {:induction false} FirstBreak(a: string, x: string, n: nat, tail: string) returns (k: nat)
    requires n == LineEnd(x) < |x| && OneLine(a + x[..n]) && !(n + 1 == |x| && x[n] == '\r' && tail != "")
    ensures n < k <= |x| && SplitLines(a + x + tail) == [a + x[..n]] + SplitLines(x[k..] + tail)
    ensures IsTrail(x[n..k])
  {
    hide SplitLines, OneLine;
    var line := a + x[..n];
    // A carriage return takes the newline behind it along.
    if x[n] == '\r' && n + 1 < |x| && x[n + 1] == '\n' {
      k := n + 2;
      assert a + x + tail == line + "\r\n" + (x[k..] + tail);
      SplitAtPair(line, x[k..] + tail);
    } else {
      k := n + 1;
      assert a + x + tail == line + [x[n]] + (x[k..] + tail);
      SplitAtBreak(line, x[n], x[k..] + tail);
    }
  }

  lemma {:induction false} SplitLast(a: string, x: string, tail: string, rest: string) returns (lines: seq<string>)
    requires OneLine(a + x) && Spaces(x) && ((tail == "" && rest == "") || tail == "\n" + rest)
    ensures SplitLines(a + x + tail) == lines + SplitLines(rest)
    ensures Padded(lines, a) && (TypablePads(lines, a) <==> Typable(x))
  {
    hide SplitLines, OneLine, Spaces, Typable;
    NothingIsOneLine();
    assert (a + x)[|a|..] == x;
    if tail == "" {
      LastLine(a + x);
      assert a + x + tail == a + x;
      lines := if a + x == "" then [] else [a + x];
    } else {
      SplitAtBreak(a + x, '\n', rest);
      assert a + x + tail == a + x + ['\n'] + rest;
      lines := [a + x];
    }
  }

  lemma {:induction false} PaddedCons(a: string, x: string, more: seq<string>)
    requires Spaces(x) && Padded(more, "")
    ensures Padded([a + x] + more, a)
    ensures TypablePads([a + x] + more, a) <==> Typable(x) && TypablePads(more, "")
  {
    hide Spaces, Typable;
    var lines := [a + x] + more;
    if more != [] {
      assert more[0][|""|..] == more[0];
      assert lines[1] == more[0];
    }
    assert (a + x)[|a|..] == x;
    assert forall i :: 1 <= i < |lines| ==> lines[i] == more[i - 1];
    assert forall i :: 0 <= i < |more| ==> more[i] == lines[i + 1];
  }

  // ---- Lines that spell commands ----

  /** A line that does nothing. */
  predicate Blanks(x: string) {
    Spaces(x) && Typable(x)
  }

  /** Blank lines aside, the lines are those of the commands. */
  predicate Spells(lines: seq<string>, commands: seq<Command>)
    decreases |lines|
  {
    if lines == [] then commands == []
    else
      || (Blanks(lines[0]) && Spells(lines[1..], commands))
      || (commands != [] && IsLineOf(lines[0], commands[0]) && Spells(lines[1..], commands[1..]))
  }

  predicate IsLineOf(line: string, c: Command) {
    Typable(line) && Strip(line) == Strip(CommandText(c))
  }

  predicate AllSendable(commands: seq<Command>) {
    forall i :: 0 <= i < |commands| ==> Sendable(commands[i])
  }

  lemma {:induction false} SpacesStrip(x: string)
    requires Spaces(x)
    ensures Strip(x) == ""
  {
    StripTrailing("", x);
    assert "" + x == x;
  }

  /** Such lines do what the commands do. */
  lemma {:induction false} SpelledRuns(s: State, lines: seq<string>, commands: seq<Command>)
    requires Spells(lines, commands) && AllSendable(commands)
    ensures RunLinesFrom(s, lines) == RunFrom(s, commands)
    decreases |lines|
  {
    hide Spaces, IsLineOf, Exec, Sendable, Typable, Parse;
    if lines != [] {
      if Blanks(lines[0]) && Spells(lines[1..], commands) {
        SpacesStrip(lines[0]);
        SpelledRuns(s, lines[1..], commands);
      } else {
        LineOfDoes(s, commands[0], lines[0]);
        match ExecLine(s, lines[0])
        case None =>
        case Some(next) => SpelledRuns(next, lines[1..], commands[1..]);
      }
    }
  }

  lemma {:induction false} LineOfDoes(s: State, c: Command, line: string)
    requires IsLineOf(line, c) && Sendable(c)
    ensures ExecLine(s, line) == Exec(s, c)
  {
    hide ExecLine, Exec, Sendable;
    LineDoes(s, c, line);
  }

  /** Any number of the lines spells some number of the commands. */
  lemma {:induction false} SpelledPrefix(lines: seq<string>, commands: seq<Command>, k: nat) returns (j: nat)
    requires Spells(lines, commands) && k <= |lines|
    ensures j <= |commands| && Spells(lines[..k], commands[..j])
    decreases k
  {
    hide Blanks, IsLineOf;
    if k == 0 {
      j := 0;
    } else {
      assert lines[..k][1..] == lines[1..][..k - 1] && lines[..k][0] == lines[0];
      if Blanks(lines[0]) && Spells(lines[1..], commands) {
        j := SpelledPrefix(lines[1..], commands, k - 1);
      } else {
        var i := SpelledPrefix(lines[1..], commands[1..], k - 1);
        j := i + 1;
        assert commands[..j][1..] == commands[1..][..i] && commands[..j][0] == commands[0];
      }
    }
  }

  lemma {:induction false} BlankLinesSpell(lines: seq<string>, rest: seq<string>, commands: seq<Command>)
    requires (forall i :: 0 <= i < |lines| ==> Blanks(lines[i])) && Spells(rest, commands)
    ensures Spells(lines + rest, commands)
    decreases |lines|
  {
    hide Blanks, IsLineOf;
    if lines == [] {
      assert lines + rest == rest;
    } else {
      assert (lines + rest)[1..] == lines[1..] + rest;
      BlankLinesSpell(lines[1..], rest, commands);
    }
  }

  lemma {:induction false} PaddedSpells(lines: seq<string>, c: Command, rest: seq<string>, commands: seq<Command>)
    requires lines != [] && IsLineOf(lines[0], c) && (forall i :: 1 <= i < |lines| ==> Blanks(lines[i]))
    requires Spells(rest, commands)
    ensures Spells(lines + rest, [c] + commands)
  {
    hide Blanks, IsLineOf;
    BlankLinesSpell(lines[1..], rest, commands);
    assert (lines + rest)[1..] == lines[1..] + rest && ([c] + commands)[1..] == commands;
  }

  /** Every text of the batch reaches the device as one line. */
  predicate AllClean(commands: seq<Command>) {
    forall i :: 0 <= i < |commands| ==> Clean(CommandText(commands[i]))
  }

  lemma {:induction false} CleanIsOneLine(s: string)
    requires Clean(s)
    ensures OneLine(StripRight(s))
  {
    hide StripRight;
    TypableIsOneLine(StripRight(s));
  }

  /** The first line of such a text is the command, if the white space behind it may be sent. */
  lemma {:induction false} FirstLine(c: Command, lines: seq<string>)
    requires Sendable(c) && Padded(lines, StripRight(CommandText(c)))
    ensures lines != []
    ensures IsLineOf(lines[0], c)
       <==> Typable(StripRight(CommandText(c))) && Typable(lines[0][|StripRight(CommandText(c))|..])
    ensures !IsLineOf(lines[0], c) ==> !Typable(lines[0])
  {
    hide IsSpace, Sendable, CommandText, StripRight, Strip;
    var text, a := CommandText(c), StripRight(CommandText(c));
    RightTail(text);
    CommandIsThere(c);
    var x := lines[0][|a|..];
    assert lines[0] == a + x;
    StripTrailing(a, x);
    TypableAppend(a, x);
  }

  lemma {:induction false} CommandIsThere(c: Command)
    requires Sendable(c)
    ensures StripRight(CommandText(c)) != "" && CommandText(c) != ""
  {
    hide Sendable, CommandText, Words;
    CommandWords(c);
    ArgumentExists(c);
    WordsOfStrip(CommandText(c));
    WordsOfStripRight(CommandText(c));
    NothingToParse();
    assert Keywords(c) + ArgumentWords(c) != [] by {
      if Keywords(c) == [] { assert Argument(c).Some?; }
    }
  }

  /** Stored and split again, clean texts spell their commands. */
  lemma {:induction false} StoredSpells(commands: seq<Command>)
    requires AllSendable(commands) && AllClean(commands)
    ensures Spells(Sent(commands), commands)
    decreases |commands|
  {
    hide SplitLines, Sendable, CommandText, Clean, Padded, IsLineOf, Spaces, Typable, OneLine, StripRight;
    if commands == [] {
      LastLine("");
    } else {
      var c, rest := commands[0], commands[1..];
      StoredSpells(rest);
      StoredStep(commands);
      CleanIsOneLine(CommandText(c));
      var tail := if rest == [] then "" else "\n" + Stored(rest);
      var lines := SplitCommand(c, tail, Stored(rest));
      PaddedSpells(lines, c, Sent(rest), rest);
      assert [c] + rest == commands;
    }
  }

  lemma {:induction false} StoredStep(commands: seq<Command>)
    requires commands != []
    ensures Stored(commands)
         == CommandText(commands[0]) + if commands[1..] == [] then "" else "\n" + Stored(commands[1..])
    ensures Stored([]) == ""
  {
    hide CommandText;
    assert Texts(commands)[1..] == Texts(commands[1..]);
  }

  /** The lines of one command: its own, and lines of white space behind it. */
  lemma {:induction false} SplitCommand(c: Command, tail: string, rest: string) returns (lines: seq<string>)
    requires Sendable(c) && OneLine(StripRight(CommandText(c)))
    requires (tail == "" && rest == "") || tail == "\n" + rest
    ensures SplitLines(CommandText(c) + tail) == lines + SplitLines(rest)
    ensures lines != [] && forall i :: 1 <= i < |lines| ==> Spaces(lines[i])
    ensures !IsLineOf(lines[0], c) ==> !Typable(lines[0])
    ensures Clean(CommandText(c)) <==> IsLineOf(lines[0], c) && forall i :: 1 <= i < |lines| ==> Typable(lines[i])
  {
    hide SplitLines, Sendable, CommandText, Spaces, IsLineOf, StripRight, Typable, OneLine, IsTrail;
    var text, a := CommandText(c), StripRight(CommandText(c));
    TailIsSpace(text);
    lines := SplitPadded(a, text[|a|..], tail, rest);
    assert a + text[|a|..] == text;
    FirstLine(c, lines);
  }

  lemma {:induction false} TailIsSpace(s: string)
    ensures Spaces(s[|StripRight(s)|..])
  {
    RightTail(s);
  }

  // ---- Undoing what was sent ----

  /** After k lines of the change, all of the inverse is accepted and the configuration is what it was. */
  ghost predicate PutsBackFrom(c: Config, lines: seq<string>, inverse: seq<string>, k: nat)
    requires k <= |lines|
  {
    && RunLines(c, lines[..k]).completed
    && RunLines(RunLines(c, lines[..k]).config, inverse) == Outcome(c, true)
  }

  ghost predicate PutsBack(c: Config, lines: seq<string>, inverse: seq<string>) {
    forall k :: 0 <= k <= |lines| ==> PutsBackFrom(c, lines, inverse, k)
  }

  /** All of the change is accepted, and its inverse leaves something else. */
  ghost predicate LeavesBehind(c: Config, lines: seq<string>, inverse: seq<string>) {
    RunLines(c, lines).completed && RunLines(RunLines(c, lines).config, inverse).config != c
  }

  ghost predicate SentClean(r: RenderedChange) {
    AllSendable(r.commands) && AllSendable(r.inverse) && AllClean(r.commands) && AllClean(r.inverse)
  }

  lemma {:induction false} SentRuns(c: Config, commands: seq<Command>)
    requires AllSendable(commands) && AllClean(commands)
    ensures RunLines(c, Sent(commands)) == Run(c, commands)
  {
    hide RunLinesFrom, RunFrom, Sent, AllSendable, AllClean;
    StoredSpells(commands);
    SpelledRuns(State(c, Global), Sent(commands), commands);
  }

  /** What holds of the commands holds of the lines. */
  lemma {:induction false} SentAsCommands(c: Config, r: RenderedChange)
    requires SentClean(r)
    ensures RunLines(c, Sent(r.commands)) == Run(c, r.commands)
    ensures Restores(c, r) ==> PutsBack(c, Sent(r.commands), Sent(r.inverse))
    ensures Loses(c, r) ==> LeavesBehind(c, Sent(r.commands), Sent(r.inverse))
  {
    hide Sent, AllSendable, AllClean, Run, RunLines;
    SentRuns(c, r.commands);
    SentRuns(Run(c, r.commands).config, r.inverse);
    if Restores(c, r) {
      forall k | 0 <= k <= |Sent(r.commands)| ensures PutsBackFrom(c, Sent(r.commands), Sent(r.inverse), k) {
        PrefixPutsBack(c, r, k);
      }
    }
  }

  lemma {:induction false} PrefixPutsBack(c: Config, r: RenderedChange, k: nat)
    requires SentClean(r) && Restores(c, r) && k <= |Sent(r.commands)|
    ensures PutsBackFrom(c, Sent(r.commands), Sent(r.inverse), k)
  {
    hide Sent, RunLinesFrom, RunFrom, Sendable, AllClean, Spells;
    StoredSpells(r.commands);
    var j := SpelledPrefix(Sent(r.commands), r.commands, k);
    assert RestoresFrom(c, r, j);
    SpelledRuns(State(c, Global), Sent(r.commands)[..k], r.commands[..j]);
    SentRuns(Run(c, r.commands[..j]).config, r.inverse);
  }
}
