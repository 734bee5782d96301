/** The string operations the services lean on, with Python's notion of white space. */
module Text {
  predicate IsSpace(c: char) {
    || ('\t' <= c <= '\r') || ('\U{1c}' <= c <= ' ') || c == '\U{85}' || c == '\U{a0}' || c == '\U{1680}'
    || ('\U{2000}' <= c <= '\U{200a}') || c == '\U{2028}' || c == '\U{2029}' || c == '\U{202f}' || c == '\U{205f}'
    || c == '\U{3000}'
  }

  function StripLeft(s: string): string {
    if s != "" && IsSpace(s[0]) then StripLeft(s[1..]) else s
  }

  function StripRight(s: string): (r: string)
    ensures r <= s
  {
    if s != "" && IsSpace(s[|s| - 1]) then StripRight(s[..|s| - 1]) else s
  }

  function Strip(s: string): string {
    StripRight(StripLeft(s))
  }

  /** ASCII only: every value that is lowered here has passed an ASCII pattern or came from a device. */
  function LowerChar(c: char): char {
    if 'A' <= c <= 'Z' then c - 'A' + 'a' else c
  }

  function Lower(s: string): (r: string)
    ensures |r| == |s|
  {
    seq(|s|, i requires 0 <= i < |s| => LowerChar(s[i]))
  }

  function LowerAll(ws: seq<string>): (r: seq<string>)
    ensures |r| == |ws|
  {
    seq(|ws|, i requires 0 <= i < |ws| => Lower(ws[i]))
  }

  // ---- Words ----

  predicate IsWord(w: string) {
    w != "" && forall i :: 0 <= i < |w| ==> !IsSpace(w[i])
  }

  predicate AllWords(ws: seq<string>) {
    forall i :: 0 <= i < |ws| ==> IsWord(ws[i])
  }

  /** The length of the leading run of characters that are not white space. */
  function WordEnd(s: string): (n: nat)
    ensures n <= |s|
    ensures forall i :: 0 <= i < n ==> !IsSpace(s[i])
    ensures n < |s| ==> IsSpace(s[n])
  {
    if s == "" || IsSpace(s[0]) then 0 else 1 + WordEnd(s[1..])
  }

  function Words(s: string): seq<string>
    decreases |s|
  {
    if s == "" then []
    else if IsSpace(s[0]) then Words(s[1..])
    else [s[..WordEnd(s)]] + Words(s[WordEnd(s)..])
  }

  function Join(ws: seq<string>): string {
    if ws == [] then "" else if |ws| == 1 then ws[0] else ws[0] + " " + Join(ws[1..])
  }

  /** One space between words, lower case: the form on which configuration lines are compared. */
  function Normalize(text: string): string {
    Lower(Join(Words(text)))
  }

  /** The same as a list of words. */
  function Key(text: string): seq<string> {
    LowerAll(Words(text))
  }

  lemma {:induction false} WordsAreWords(s: string)
    ensures AllWords(Words(s))
    decreases |s|
  {
    if s != "" {
      WordsAreWords(if IsSpace(s[0]) then s[1..] else s[WordEnd(s)..]);
    }
  }

  lemma {:induction false} WordEndIs(s: string, n: nat)
    requires n <= |s| && (forall i :: 0 <= i < n ==> !IsSpace(s[i])) && (n < |s| ==> IsSpace(s[n]))
    ensures WordEnd(s) == n
  {
  }

  lemma {:induction false} WordsOfWord(w: string)
    requires IsWord(w)
    ensures Words(w) == [w]
  {
    WordEndIs(w, |w|);
    assert w[..|w|] == w && w[|w|..] == "";
  }

  /** White space anywhere separates. */
  lemma {:induction false} WordsSplit(a: string, c: char, b: string)
    requires IsSpace(c)
    ensures Words(a + [c] + b) == Words(a) + Words(b)
    decreases |a|
  {
    hide IsSpace;
    var all := a + [c] + b;
    if a == "" {
      assert all[1..] == b;
    } else if IsSpace(a[0]) {
      assert all[1..] == a[1..] + [c] + b;
      WordsSplit(a[1..], c, b);
    } else {
      var n := WordEnd(a);
      WordEndIs(all, n);
      assert all[..n] == a[..n] && all[n..] == a[n..] + [c] + b;
      WordsSplit(a[n..], c, b);
      Assoc([a[..n]], Words(a[n..]), Words(b));
    }
  }

  lemma {:induction false} Assoc<T>(a: seq<T>, b: seq<T>, c: seq<T>)
    ensures (a + b) + c == a + (b + c)
  {
  }

  lemma {:induction false} WordsOfJoin(ws: seq<string>)
    requires AllWords(ws)
    ensures Words(Join(ws)) == ws
  {
    if ws != [] {
      WordsOfWord(ws[0]);
      if |ws| > 1 {
        WordsOfJoin(ws[1..]);
        assert ws[0] + " " + Join(ws[1..]) == ws[0] + [' '] + Join(ws[1..]);
        WordsSplit(ws[0], ' ', Join(ws[1..]));
      }
    }
  }

  // ---- Case ----

  lemma {:induction false} LowerKeepsSpace(c: char)
    ensures IsSpace(LowerChar(c)) <==> IsSpace(c)
  {
  }

  lemma {:induction false} WordEndOfLower(s: string)
    ensures WordEnd(Lower(s)) == WordEnd(s)
  {
    hide IsSpace, LowerChar;
    var n := WordEnd(s);
    forall i | 0 <= i < |s| ensures IsSpace(Lower(s)[i]) <==> IsSpace(s[i]) {
      LowerKeepsSpace(s[i]);
    }
    WordEndIs(Lower(s), n);
  }

  lemma {:induction false} WordsOfLower(s: string)
    ensures Words(Lower(s)) == LowerAll(Words(s))
    decreases |s|
  {
    hide IsSpace, LowerChar;
    if s != "" {
      LowerKeepsSpace(s[0]);
      if IsSpace(s[0]) {
        assert Lower(s)[1..] == Lower(s[1..]);
        WordsOfLower(s[1..]);
      } else {
        WordEndOfLower(s);
        var n := WordEnd(s);
        assert Lower(s)[..n] == Lower(s[..n]) && Lower(s)[n..] == Lower(s[n..]);
        WordsOfLower(s[n..]);
        LowerAllCons(s[..n], Words(s[n..]));
      }
    }
  }

  lemma {:induction false} LowerAllCons(w: string, ws: seq<string>)
    ensures LowerAll([w] + ws) == [Lower(w)] + LowerAll(ws)
  {
  }

  lemma {:induction false} LowerTwice(s: string)
    ensures Lower(Lower(s)) == Lower(s)
  {
  }

  lemma {:induction false} LowerAllTwice(ws: seq<string>)
    ensures LowerAll(LowerAll(ws)) == LowerAll(ws)
  {
    forall i | 0 <= i < |ws| ensures Lower(Lower(ws[i])) == Lower(ws[i]) {
      LowerTwice(ws[i]);
    }
  }

  lemma {:induction false} LowerOfJoin(ws: seq<string>)
    ensures Lower(Join(ws)) == Join(LowerAll(ws))
  {
    if |ws| > 1 {
      LowerOfJoin(ws[1..]);
      assert LowerAll(ws)[1..] == LowerAll(ws[1..]);
      assert Lower(ws[0] + " " + Join(ws[1..])) == Lower(ws[0]) + " " + Lower(Join(ws[1..]));
    }
  }

  lemma {:induction false} LowerAllAreWords(ws: seq<string>)
    requires AllWords(ws)
    ensures AllWords(LowerAll(ws))
  {
    forall i, k | 0 <= i < |ws| && 0 <= k < |ws[i]| ensures !IsSpace(Lower(ws[i])[k]) {
      LowerKeepsSpace(ws[i][k]);
    }
  }

  lemma {:induction false} KeyIsWords(text: string)
    ensures AllWords(Key(text)) && Normalize(text) == Join(Key(text)) && Words(Normalize(text)) == Key(text)
  {
    WordsAreWords(text);
    LowerAllAreWords(Words(text));
    LowerOfJoin(Words(text));
    WordsOfJoin(Key(text));
  }

  /** Comparing normalised text is comparing the lowered words: spacing and case do not matter, anything else
      does. */
  lemma {:induction false} NormalizeComparesWords(a: string, b: string)
    ensures Normalize(a) == Normalize(b) <==> Key(a) == Key(b)
  {
    KeyIsWords(a);
    KeyIsWords(b);
  }

  lemma {:induction false} KeyOfNormalize(text: string)
    ensures Key(Normalize(text)) == Key(text)
  {
    KeyIsWords(text);
    LowerAllTwice(Words(text));
  }

  /** Collapsing the white space of a value changes no word of it. */
  lemma {:induction false} WordsOfCollapse(text: string)
    ensures Words(Join(Words(text))) == Words(text)
  {
    WordsAreWords(text);
    WordsOfJoin(Words(text));
  }

  lemma {:induction false} WordsOfStripLeft(s: string)
    ensures Words(StripLeft(s)) == Words(s)
  {
    if s != "" && IsSpace(s[0]) {
      WordsOfStripLeft(s[1..]);
    }
  }

  lemma {:induction false} WordsOfStripRight(s: string)
    ensures Words(StripRight(s)) == Words(s)
    decreases |s|
  {
    if s != "" && IsSpace(s[|s| - 1]) {
      var front, c := s[..|s| - 1], s[|s| - 1];
      WordsOfStripRight(front);
      WordsSplit(front, c, "");
      assert front + [c] + "" == s;
      assert Words(front) + [] == Words(front);
    }
  }

  lemma {:induction false} WordsOfStrip(s: string)
    ensures Words(Strip(s)) == Words(s)
  {
    WordsOfStripLeft(s);
    WordsOfStripRight(StripLeft(s));
  }

  // ---- What stripping leaves ----

  lemma {:induction false} StripOfSolid(s: string)
    requires s == "" || (!IsSpace(s[0]) && !IsSpace(s[|s| - 1]))
    ensures Strip(s) == s
  {
  }

  lemma {:induction false} StripOfWord(w: string)
    requires IsWord(w)
    ensures Strip(w) == w
  {
    assert !IsSpace(w[0]) && !IsSpace(w[|w| - 1]);
    StripOfSolid(w);
  }

  lemma {:induction false} LowerOfPlain(s: string)
    requires forall i :: 0 <= i < |s| ==> !('A' <= s[i] <= 'Z')
    ensures Lower(s) == s
  {
  }

  lemma {:induction false} StripEnds(s: string)
    ensures Strip(s) == "" || (!IsSpace(Strip(s)[0]) && !IsSpace(Strip(s)[|Strip(s)| - 1]))
  {
    LeftEnd(s);
    RightEnd(StripLeft(s));
  }

  lemma {:induction false} LeftEnd(s: string)
    ensures StripLeft(s) == "" || !IsSpace(StripLeft(s)[0])
  {
    if s != "" && IsSpace(s[0]) {
      LeftEnd(s[1..]);
    }
  }

  lemma {:induction false} RightEnd(s: string)
    requires s == "" || !IsSpace(s[0])
    ensures StripRight(s) == "" || (!IsSpace(StripRight(s)[0]) && !IsSpace(StripRight(s)[|StripRight(s)| - 1]))
    decreases |s|
  {
    if s != "" && IsSpace(s[|s| - 1]) {
      RightEnd(s[..|s| - 1]);
    }
  }

  lemma {:induction false} StripTwice(s: string)
    ensures Strip(Strip(s)) == Strip(s)
  {
    StripEnds(s);
    StripOfSolid(Strip(s));
  }

  // ---- Prefixes of normalised lines ----

  /** A normalised line starts with some whole words and a last one exactly when its words do, the last as a
      prefix. */
  lemma {:induction false} PrefixByWords(p: seq<string>, last: string, ws: seq<string>)
    requires AllWords(p) && IsWord(last) && AllWords(ws)
    ensures Join(p + [last]) <= Join(ws)
       <==> |p| < |ws| && ws[..|p|] == p && last <= ws[|p|]
    decreases |p|
  {
    hide IsSpace;
    if p == [] {
      assert p + [last] == [last];
      FirstWordPrefix(last, ws);
    } else {
      var tail := p[1..] + [last];
      assert (p + [last])[1..] == tail;
      assert Join(p + [last]) == p[0] + (" " + Join(tail));
      if ws == [] {
      } else if |ws| == 1 {
        SpaceBreaksPrefix(p[0], Join(tail), ws[0]);
      } else {
        PrefixByWords(p[1..], last, ws[1..]);
        assert Join(ws) == ws[0] + (" " + Join(ws[1..]));
        SameFirstWord(p[0], Join(tail), ws[0], Join(ws[1..]));
        if |p| <= |ws| {
          assert ws[..|p|] == [ws[0]] + ws[1..][..|p| - 1] && p == [p[0]] + p[1..];
        }
      }
    }
  }

  lemma {:induction false} WordWithin(w: string, s: string)
    requires IsWord(w) && w <= s
    ensures |w| <= WordEnd(s)
    decreases |w|
  {
    assert s[0] == w[0];
    if |w| > 1 {
      WordWithin(w[1..], s[1..]);
    }
  }

  lemma {:induction false} WordEndOfPrefix(l: string, r: string)
    requires l <= r && WordEnd(l) < |l|
    ensures WordEnd(r) == WordEnd(l)
  {
    WordEndIs(r, WordEnd(l));
  }

  lemma {:induction false} WordEndBeforeSpace(w: string, rest: string)
    requires IsWord(w)
    ensures WordEnd(w + (" " + rest)) == |w| && WordEnd(w) == |w|
  {
    WordEndIs(w + (" " + rest), |w|);
    WordEndIs(w, |w|);
  }

  lemma {:induction false} FirstWordPrefix(w: string, ws: seq<string>)
    requires IsWord(w) && AllWords(ws)
    ensures w <= Join(ws) <==> ws != [] && w <= ws[0]
  {
    hide IsSpace;
    if |ws| > 1 {
      var rest := Join(ws[1..]);
      assert Join(ws) == ws[0] + (" " + rest);
      WordEndBeforeSpace(ws[0], rest);
      if w <= Join(ws) {
        WordWithin(w, Join(ws));
        assert w == Join(ws)[..|w|] == ws[0][..|w|];
      }
    }
  }

  lemma {:induction false} SpaceBreaksPrefix(w: string, rest: string, word: string)
    requires IsWord(w) && IsWord(word)
    ensures !(w + (" " + rest) <= word)
  {
    hide IsSpace;
    var l := w + (" " + rest);
    WordEndBeforeSpace(w, rest);
    WordEndBeforeSpace(word, "");
    if l <= word {
      WordEndOfPrefix(l, word);
    }
  }

  lemma {:induction false} SameFirstWord(a: string, x: string, b: string, y: string)
    requires IsWord(a) && IsWord(b)
    ensures a + (" " + x) <= b + (" " + y) <==> a == b && x <= y
  {
    hide IsSpace;
    var l, r := a + (" " + x), b + (" " + y);
    WordEndBeforeSpace(a, x);
    WordEndBeforeSpace(b, y);
    if l <= r {
      WordEndOfPrefix(l, r);
      assert a == l[..|a|] && b == r[..|b|];
      assert x == l[|a| + 1..] && y == r[|b| + 1..];
    }
    if a == b && x <= y {
      assert forall i :: 0 <= i < |l| ==> l[i] == r[i];
    }
  }
}
