/** Text as lines: where Python's splitlines breaks it, and which white space a terminal takes as such. */
module Lines {
  import opened Text
  import opened VlanList

  /** Every character Python's splitlines ends a line at. */
  predicate IsBreak(c: char) {
    || ('\n' <= c <= '\r') || ('\U{1c}' <= c <= '\U{1e}') || c == '\U{85}' || c == '\U{2028}' || c == '\U{2029}'
  }

  predicate OneLine(s: string) {
    forall i :: 0 <= i < |s| ==> !IsBreak(s[i])
  }

  function LineEnd(s: string): (n: nat)
    ensures n <= |s|
    ensures forall i :: 0 <= i < n ==> !IsBreak(s[i])
    ensures n < |s| ==> IsBreak(s[n])
  {
    if s == "" || IsBreak(s[0]) then 0 else 1 + LineEnd(s[1..])
  }

  /** A break ends a line, carriage return and newline together being one; no empty line at the end. */
  function SplitLines(s: string): seq<string>
    decreases |s|
  {
    if s == "" then []
    else
      var n := LineEnd(s);
      if n == |s| then [s]
      else if s[n] == '\r' && n + 1 < |s| && s[n + 1] == '\n' then [s[..n]] + SplitLines(s[n + 2..])
      else [s[..n]] + SplitLines(s[n + 1..])
  }

  lemma {:induction false} LineEndIs(s: string, n: nat)
    requires n <= |s| && (forall i :: 0 <= i < n ==> !IsBreak(s[i])) && (n < |s| ==> IsBreak(s[n]))
    ensures LineEnd(s) == n
  {
  }

  lemma {:induction false} SplitLinesAreLines(s: string)
    ensures forall i :: 0 <= i < |SplitLines(s)| ==> OneLine(SplitLines(s)[i])
    decreases |s|
  {
    if s != "" {
      var n := LineEnd(s);
      assert s[..|s|] == s;
      if n < |s| && s[n] == '\r' && n + 1 < |s| && s[n + 1] == '\n' {
        SplitLinesAreLines(s[n + 2..]);
      } else if n < |s| {
        SplitLinesAreLines(s[n + 1..]);
      }
    }
  }

  /** A line, a break that is not half of one, and more text. */
  lemma {:induction false} SplitAtBreak(a: string, c: char, rest: string)
    requires OneLine(a) && IsBreak(c) && !(c == '\r' && rest != "" && rest[0] == '\n')
    ensures SplitLines(a + [c] + rest) == [a] + SplitLines(rest)
  {
    var s := a + [c] + rest;
    LineEndIs(s, |a|);
    assert s[..|a|] == a && s[|a| + 1..] == rest;
  }

  /** The same with a carriage return and newline. */
  lemma {:induction false} SplitAtPair(a: string, rest: string)
    requires OneLine(a)
    ensures SplitLines(a + "\r\n" + rest) == [a] + SplitLines(rest)
  {
    var s := a + "\r\n" + rest;
    LineEndIs(s, |a|);
    assert s[..|a|] == a && s[|a| + 2..] == rest;
  }

  lemma {:induction false} LastLine(a: string)
    requires OneLine(a)
    ensures SplitLines(a) == if a == "" then [] else [a]
  {
    if a != "" {
      LineEndIs(a, |a|);
    }
  }

  // ---- Lines that survive being joined ----

  /** Single lines, the last of them not empty, come back as they were. */
  lemma {:induction false} LinesSurvive(ts: seq<string>)
    requires ts != [] && ts[|ts| - 1] != "" && forall i :: 0 <= i < |ts| ==> OneLine(ts[i])
    ensures SplitLines(JoinOn(ts, '\n')) == ts
  {
    hide SplitLines, OneLine;
    if |ts| == 1 {
      LastLine(ts[0]);
    } else {
      LinesSurvive(ts[1..]);
      SplitAtBreak(ts[0], '\n', JoinOn(ts[1..], '\n'));
    }
  }

  /** Joined and split again, lines come back as they were exactly when none of them holds a line break. */
  lemma {:induction false} SurvivesExactlyWhenOneLine(ts: seq<string>)
    requires ts != [] && forall i :: 0 <= i < |ts| ==> ts[i] != ""
    ensures SplitLines(JoinOn(ts, '\n')) == ts <==> forall i :: 0 <= i < |ts| ==> OneLine(ts[i])
  {
    hide OneLine, SplitLines, JoinOn;
    SplitLinesAreLines(JoinOn(ts, '\n'));
    if forall i :: 0 <= i < |ts| ==> OneLine(ts[i]) {
      LinesSurvive(ts);
    }
  }

  /** Output as a device prints it: every line with its own ending, which the last may lack. */
  predicate EndsOk(lines: seq<string>, ends: seq<string>) {
    && |ends| == |lines|
    && forall i :: 0 <= i < |lines| ==>
         && OneLine(lines[i])
         && (ends[i] == "\n" || ends[i] == "\r\n" || (ends[i] == "" && i == |lines| - 1 && lines[i] != ""))
  }

  function Printed(lines: seq<string>, ends: seq<string>): string
    requires |ends| == |lines|
  {
    if lines == [] then "" else lines[0] + ends[0] + Printed(lines[1..], ends[1..])
  }

  lemma {:induction false} PrintedSplits(lines: seq<string>, ends: seq<string>)
    requires EndsOk(lines, ends)
    ensures SplitLines(Printed(lines, ends)) == lines
  {
    hide SplitLines, OneLine;
    if lines == [] {
      assert Printed(lines, ends) == "";
      LastLine("");
    } else {
      var rest := Printed(lines[1..], ends[1..]);
      PrintedSplits(lines[1..], ends[1..]);
      if ends[0] == "\n" {
        SplitAtBreak(lines[0], '\n', rest);
      } else if ends[0] == "\r\n" {
        SplitAtPair(lines[0], rest);
      } else {
        assert rest == "" && Printed(lines, ends) == lines[0];
        LastLine(lines[0]);
      }
    }
  }

  // ---- White space on a terminal ----

  /** What separates words on the command line of a device; other white space it refuses. */
  predicate IsBlank(c: char) {
    c == ' ' || c == '\t'
  }

  /** Text without any white space but blanks. */
  predicate Typable(s: string) {
    forall i :: 0 <= i < |s| ==> IsSpace(s[i]) ==> IsBlank(s[i])
  }

  /** Blanks and line breaks. */
  predicate IsTrail(x: string) {
    forall i :: 0 <= i < |x| ==> IsBlank(x[i]) || IsBreak(x[i])
  }

  /** Text that reaches the device as one line: no white space but blanks, line breaks at the end aside. */
  predicate Clean(s: string) {
    Typable(StripRight(s)) && IsTrail(s[|StripRight(s)|..])
  }

  lemma {:induction false} TypableAppend(a: string, b: string)
    ensures Typable(a + b) <==> Typable(a) && Typable(b)
  {
    hide IsSpace, IsBlank;
    if Typable(a + b) {
      forall i | 0 <= i < |a| && IsSpace(a[i]) ensures IsBlank(a[i]) {
        assert (a + b)[i] == a[i];
      }
      forall i | 0 <= i < |b| && IsSpace(b[i]) ensures IsBlank(b[i]) {
        assert (a + b)[|a| + i] == b[i];
      }
    }
  }

  lemma {:induction false} WordIsTypable(w: string)
    requires IsWord(w)
    ensures Typable(w)
  {
  }

  lemma {:induction false} JoinIsTypable(ws: seq<string>)
    requires AllWords(ws)
    ensures Typable(Join(ws))
  {
    hide Typable;
    BlankIsTypable();
    if ws != [] {
      WordIsTypable(ws[0]);
      if |ws| > 1 {
        JoinIsTypable(ws[1..]);
        TypableAppend(ws[0], " ");
        TypableAppend(ws[0] + " ", Join(ws[1..]));
      }
    }
  }

  lemma {:induction false} BlankIsTypable()
    ensures Typable(" ") && Typable("")
  {
  }

  lemma {:induction false} TypableIsOneLine(s: string)
    requires Typable(s)
    ensures OneLine(s)
  {
    hide IsSpace, IsBreak;
    forall i | 0 <= i < |s| ensures !IsBreak(s[i]) {
      BreaksAreOddSpace(s[i]);
    }
  }

  lemma {:induction false} BreaksAreOddSpace(c: char)
    ensures IsBreak(c) ==> IsSpace(c) && !IsBlank(c)
  {
  }

  lemma {:induction false} OneLineAppend(a: string, b: string)
    ensures OneLine(a + b) <==> OneLine(a) && OneLine(b)
  {
    if OneLine(a + b) {
      forall i | 0 <= i < |a| ensures !IsBreak(a[i]) {
        assert (a + b)[i] == a[i];
      }
      forall i | 0 <= i < |b| ensures !IsBreak(b[i]) {
        assert (a + b)[|a| + i] == b[i];
      }
    }
  }
}
