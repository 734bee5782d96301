/** Trunk VLAN lists: text such as 1,10,20-30 and the set of ids it names. */
module VlanList {
  import opened Wrappers
  import opened Text

  const VLAN_ID_MIN := 1
  const VLAN_ID_MAX := 4094

  predicate Between(lo: int, i: int, hi: int) {
    lo <= i <= hi
  }

  function Interval(lo: int, hi: int): set<int> {
    set i {:trigger Between(lo, i, hi)} | lo <= i <= hi
  }

  function AllVlans(): set<int> {
    Interval(VLAN_ID_MIN, VLAN_ID_MAX)
  }

  // ---- Numbers ----

  predicate IsDigit(c: char) {
    '0' <= c <= '9'
  }

  predicate AllDigits(s: string) {
    forall i :: 0 <= i < |s| ==> IsDigit(s[i])
  }

  function DigitValue(c: char): int {
    c as int - '0' as int
  }

  function NatValue(s: string): (n: int)
    ensures AllDigits(s) ==> n >= 0
  {
    if s == "" then 0 else NatValue(s[..|s| - 1]) * 10 + DigitValue(s[|s| - 1])
  }

  /** Plain decimal digits, white space around them ignored. */
  function ParseInt(s: string): Option<nat> {
    var digits := Strip(s);
    if digits != "" && AllDigits(digits) then Some(NatValue(digits)) else None
  }

  function PrintNat(n: nat): string {
    if n < 10 then [('0' as int + n) as char] else PrintNat(n / 10) + [('0' as int + n % 10) as char]
  }

  // ---- Splitting ----

  /** Where c first occurs, or the length. */
  function IndexOf(s: string, c: char): (n: nat)
    ensures n <= |s|
    ensures forall i :: 0 <= i < n ==> s[i] != c
    ensures n < |s| ==> s[n] == c
  {
    if s == "" || s[0] == c then 0 else 1 + IndexOf(s[1..], c)
  }

  function SplitOn(s: string, c: char): (parts: seq<string>)
    ensures parts != []
    decreases |s|
  {
    var n := IndexOf(s, c);
    if n == |s| then [s] else [s[..n]] + SplitOn(s[n + 1..], c)
  }

  function Before(s: string, c: char): string {
    s[..IndexOf(s, c)]
  }

  function After(s: string, c: char): string {
    if IndexOf(s, c) == |s| then "" else s[IndexOf(s, c) + 1..]
  }

  // ---- Meaning of a list ----

  /** One part: an id or a range. A part that is neither names nothing. */
  function PartIds(part: string): set<int> {
    var low, high := Before(part, '-'), After(part, '-');
    match ParseInt(low)
    case None => {}
    case Some(lo) =>
      if high == "" then Interval(lo, lo)
      else match ParseInt(high)
           case None => {}
           case Some(hi) => Interval(lo, hi)
  }

  function PartsIds(parts: seq<string>): set<int> {
    if parts == [] then {} else PartsIds(parts[..|parts| - 1]) + PartIds(parts[|parts| - 1])
  }

  function Expand(text: string): set<int> {
    var cleaned := Lower(Strip(text));
    if cleaned == "" || cleaned == "none" then {}
    else if cleaned == "all" then AllVlans()
    else PartsIds(SplitOn(cleaned, ','))
  }

  lemma {:induction false} ExpandOfStrip(list: string)
    ensures Expand(Strip(list)) == Expand(list)
  {
    hide Strip, Lower, PartsIds, SplitOn;
    StripTwice(list);
  }

  /** The two words a device prints in place of a list, in any case, and nothing at all. */
  lemma {:induction false} ExpandOfWord(text: string)
    requires Strip(text) == "" || Lower(Strip(text)) == "none" || Lower(Strip(text)) == "all"
    ensures forall id :: id in Expand(text) <==> Lower(Strip(text)) == "all" && 1 <= id <= 4094
  {
    hide Strip, PartsIds, SplitOn;
    assert Strip(text) == "" ==> Lower(Strip(text)) == "";
    hide Lower;
    assert forall id :: id in AllVlans() <==> Between(VLAN_ID_MIN, id, VLAN_ID_MAX);
  }

  method ExpandVlanList(text: string) returns (ids: set<int>)
    ensures ids == Expand(text)
  {
    hide Interval, PartsIds, Strip, Lower, ParseInt;
    var cleaned := Lower(Strip(text));
    if cleaned == "" || cleaned == "none" {
      return {};
    }
    if cleaned == "all" {
      return AllVlans();
    }
    ids := {};
    var parts := SplitOn(cleaned, ',');
    PartsIdsOfNone(parts);
    for k := 0 to |parts|
      invariant ids == PartsIds(parts[..k])
    {
      PartsIdsStep(parts, k);
      var start := ParseInt(Before(parts[k], '-'));
      var high := After(parts[k], '-');
      var end := if high == "" then start else ParseInt(high);
      if start.Some? && end.Some? {
        ids := ids + Interval(start.value, end.value);
      }
    }
    assert parts[..|parts|] == parts;
  }

  lemma {:induction false} PartsIdsOfNone(parts: seq<string>)
    ensures PartsIds(parts[..0]) == {}
  {
  }

  lemma {:induction false} PartsIdsStep(parts: seq<string>, k: nat)
    requires k < |parts|
    ensures PartsIds(parts[..k + 1]) == PartsIds(parts[..k]) + PartIds(parts[k])
  {
    assert parts[..k + 1][..k] == parts[..k];
  }

  // ---- Which lists are accepted ----

  datatype ListIssue = BadShape | Backwards(part: string) | OutOfRange(part: string)

  /** One to four digits. */
  predicate IsIdText(s: string) {
    1 <= |s| <= 4 && AllDigits(s)
  }

  predicate PartShape(part: string) {
    && IsIdText(Before(part, '-'))
    && (IndexOf(part, '-') < |part| ==> IsIdText(After(part, '-')))
  }

  function PartLow(part: string): int {
    NatValue(Before(part, '-'))
  }

  function PartHigh(part: string): int {
    if After(part, '-') == "" then PartLow(part) else NatValue(After(part, '-'))
  }

  predicate PartOk(part: string) {
    PartShape(part) && VLAN_ID_MIN <= PartLow(part) <= PartHigh(part) <= VLAN_ID_MAX
  }

  predicate AllShaped(parts: seq<string>) {
    forall i :: 0 <= i < |parts| ==> PartShape(parts[i])
  }

  /** A list of ids and ranges in range, none of them backwards. */
  predicate Accepted(text: string) {
    var parts := SplitOn(Strip(text), ',');
    forall i :: 0 <= i < |parts| ==> PartOk(parts[i])
  }

  /** The first thing wrong with a list, if anything is: its shape first, then its parts in order. */
  method VlanListIssues(text: string) returns (issue: Option<ListIssue>)
    ensures issue.None? <==> Accepted(text)
    ensures issue == Some(BadShape) <==> !AllShaped(SplitOn(Strip(text), ','))
    ensures issue.Some? && issue.value.Backwards? ==> PartLow(issue.value.part) > PartHigh(issue.value.part)
    ensures issue.Some? && issue.value.OutOfRange? ==>
              && PartLow(issue.value.part) <= PartHigh(issue.value.part)
              && (PartLow(issue.value.part) < VLAN_ID_MIN || PartHigh(issue.value.part) > VLAN_ID_MAX)
  {
    hide PartLow, PartHigh, PartShape, SplitOn, Strip;
    var parts := SplitOn(Strip(text), ',');
    if !AllShaped(parts) {
      return Some(BadShape);
    }
    for k := 0 to |parts|
      invariant forall i :: 0 <= i < k ==> PartOk(parts[i])
    {
      var start, end := PartLow(parts[k]), PartHigh(parts[k]);
      if start > end {
        return Some(Backwards(parts[k]));
      }
      if !(VLAN_ID_MIN <= start && end <= VLAN_ID_MAX) {
        return Some(OutOfRange(parts[k]));
      }
    }
    issue := None;
  }

  // ---- Digits are left alone by cleaning ----

  lemma {:induction false} ParseOfDigits(s: string)
    requires s != "" && AllDigits(s)
    ensures ParseInt(s) == Some(NatValue(s))
  {
    assert IsDigit(s[0]) && IsDigit(s[|s| - 1]);
    StripOfSolid(s);
  }

  lemma {:induction false} PartIdsOfOk(part: string)
    requires PartShape(part)
    ensures PartIds(part) == Interval(PartLow(part), PartHigh(part))
  {
    ParseOfDigits(Before(part, '-'));
    if After(part, '-') != "" {
      ParseOfDigits(After(part, '-'));
    }
  }

  /** Characters a list is made of. */
  predicate ListChar(c: char) {
    IsDigit(c) || c == '-' || c == ','
  }

  lemma {:induction false} AcceptedChars(s: string)
    requires AllShaped(SplitOn(s, ','))
    ensures s != "" && forall i :: 0 <= i < |s| ==> ListChar(s[i])
    decreases |s|
  {
    var parts, n := SplitOn(s, ','), IndexOf(s, ',');
    assert PartShape(parts[0]);
    PartChars(parts[0]);
    if n < |s| {
      assert parts[1..] == SplitOn(s[n + 1..], ',');
      AcceptedChars(s[n + 1..]);
      forall i | 0 <= i < |s| ensures ListChar(s[i]) {
        if i < n {
          assert s[i] == parts[0][i];
        } else if i > n {
          assert s[i] == s[n + 1..][i - n - 1];
        }
      }
    }
  }

  lemma {:induction false} PartChars(part: string)
    requires PartShape(part)
    ensures part != "" && forall i :: 0 <= i < |part| ==> ListChar(part[i])
  {
    var n := IndexOf(part, '-');
    forall i | 0 <= i < |part| ensures ListChar(part[i]) {
      if i < n {
        assert part[i] == Before(part, '-')[i];
      } else if i > n {
        assert part[i] == After(part, '-')[i - n - 1];
      }
    }
  }

  lemma {:induction false} CleaningIsNothing(s: string)
    requires s != "" && forall i :: 0 <= i < |s| ==> ListChar(s[i])
    ensures Strip(s) == s && Lower(s) == s && s != "none" && s != "all"
  {
    assert ListChar(s[0]) && ListChar(s[|s| - 1]);
    StripOfSolid(s);
    LowerOfPlain(s);
  }

  lemma {:induction false} PartsIdsHas(parts: seq<string>, i: nat)
    requires i < |parts|
    ensures PartIds(parts[i]) <= PartsIds(parts)
    decreases |parts|
  {
    if i < |parts| - 1 {
      PartsIdsHas(parts[..|parts| - 1], i);
    }
  }

  lemma {:induction false} PartsIdsWithin(parts: seq<string>, bound: set<int>)
    requires forall i :: 0 <= i < |parts| ==> PartIds(parts[i]) <= bound
    ensures PartsIds(parts) <= bound
    decreases |parts|
  {
    if parts != [] {
      PartsIdsWithin(parts[..|parts| - 1], bound);
    }
  }

  /** Stripping and lowering change nothing in an accepted list. */
  lemma {:induction false} ExpandOfAccepted(text: string)
    requires Accepted(text)
    ensures Expand(text) == PartsIds(SplitOn(Strip(text), ','))
  {
    var s := Strip(text);
    AcceptedChars(s);
    CleaningIsNothing(s);
  }

  /** An accepted list names at least one VLAN and none outside 1..4094. */
  lemma {:induction false} AcceptedListDenotes(text: string)
    requires Accepted(text)
    ensures Expand(text) != {} && Expand(text) <= AllVlans()
  {
    var parts := SplitOn(Strip(text), ',');
    ExpandOfAccepted(text);
    forall i | 0 <= i < |parts| ensures PartIds(parts[i]) <= AllVlans() {
      PartIdsOfOk(parts[i]);
    }
    PartsIdsWithin(parts, AllVlans());
    assert PartOk(parts[0]);
    PartIdsOfOk(parts[0]);
    PartsIdsHas(parts, 0);
    assert PartLow(parts[0]) in PartIds(parts[0]);
  }

  // ---- Printing ranges ----

  /** A closed range of ids. */
  datatype Range = Range(lo: nat, hi: nat)

  predicate RangesOk(ranges: seq<Range>) {
    && ranges != []
    && forall i :: 0 <= i < |ranges| ==> VLAN_ID_MIN <= ranges[i].lo <= ranges[i].hi <= VLAN_ID_MAX
  }

  function Denote(ranges: seq<Range>): set<int> {
    if ranges == [] then {}
    else Denote(ranges[..|ranges| - 1]) + Interval(ranges[|ranges| - 1].lo, ranges[|ranges| - 1].hi)
  }

  /** A range of one may be written either way. */
  function PrintRange(r: Range, short: bool): string {
    if short && r.lo == r.hi then PrintNat(r.lo) else PrintNat(r.lo) + "-" + PrintNat(r.hi)
  }

  function PrintParts(ranges: seq<Range>, short: bool): (parts: seq<string>)
    ensures |parts| == |ranges|
    ensures forall i :: 0 <= i < |ranges| ==> parts[i] == PrintRange(ranges[i], short)
  {
    seq(|ranges|, i requires 0 <= i < |ranges| => PrintRange(ranges[i], short))
  }

  function JoinOn(parts: seq<string>, c: char): string {
    if parts == [] then "" else if |parts| == 1 then parts[0] else parts[0] + [c] + JoinOn(parts[1..], c)
  }

  function PrintRanges(ranges: seq<Range>, short: bool): string {
    JoinOn(PrintParts(ranges, short), ',')
  }

  lemma {:induction false} PrintNatParses(n: nat)
    ensures PrintNat(n) != "" && AllDigits(PrintNat(n)) && NatValue(PrintNat(n)) == n
    ensures n < 10 ==> |PrintNat(n)| == 1
    ensures n >= 10 ==> |PrintNat(n)| == |PrintNat(n / 10)| + 1
  {
    var s := PrintNat(n);
    if n < 10 {
      assert s[..0] == "" && NatValue(s[..0]) == 0;
    } else {
      PrintNatParses(n / 10);
      assert s[..|s| - 1] == PrintNat(n / 10);
    }
  }

  lemma {:induction false} PrintNatIsId(n: nat)
    requires n <= VLAN_ID_MAX
    ensures IsIdText(PrintNat(n)) && NatValue(PrintNat(n)) == n
  {
    PrintNatParses(n);
    PrintNatParses(n / 10);
    PrintNatParses(n / 100);
    PrintNatParses(n / 1000);
    assert n / 10 / 10 == n / 100 && n / 100 / 10 == n / 1000;
  }

  lemma {:induction false} IndexOfIs(s: string, c: char, n: nat)
    requires n <= |s| && (forall i :: 0 <= i < n ==> s[i] != c) && (n < |s| ==> s[n] == c)
    ensures IndexOf(s, c) == n
  {
  }

  lemma {:induction false} PrintRangeIsOk(r: Range, short: bool)
    requires VLAN_ID_MIN <= r.lo <= r.hi <= VLAN_ID_MAX
    ensures var part := PrintRange(r, short); PartOk(part) && PartLow(part) == r.lo && PartHigh(part) == r.hi
  {
    hide NatValue, PrintNat;
    var part, low, high := PrintRange(r, short), PrintNat(r.lo), PrintNat(r.hi);
    PrintNatIsId(r.lo);
    PrintNatIsId(r.hi);
    if short && r.lo == r.hi {
      IndexOfIs(part, '-', |part|);
      assert part[..|part|] == part;
    } else {
      forall i | 0 <= i < |low| ensures part[i] != '-' {
        assert part[i] == low[i] && IsDigit(low[i]);
      }
      IndexOfIs(part, '-', |low|);
      assert part[..|low|] == low && part[|low| + 1..] == high;
    }
  }

  lemma {:induction false} SplitOfJoin(parts: seq<string>, c: char)
    requires parts != [] && forall i :: 0 <= i < |parts| ==> c !in parts[i]
    ensures SplitOn(JoinOn(parts, c), c) == parts
  {
    var s, head := JoinOn(parts, c), parts[0];
    if |parts| == 1 {
      IndexOfIs(s, c, |s|);
    } else {
      var tail := JoinOn(parts[1..], c);
      assert s == head + [c] + tail;
      IndexOfIs(s, c, |head|);
      assert s[..|head|] == head && s[|head| + 1..] == tail;
      SplitOfJoin(parts[1..], c);
    }
  }

  lemma {:induction false} CommaFree(part: string)
    requires PartShape(part)
    ensures ',' !in part
  {
    var n := IndexOf(part, '-');
    forall i | 0 <= i < |part| ensures part[i] != ',' {
      if i < n {
        assert part[i] == Before(part, '-')[i];
      } else if i > n {
        assert part[i] == After(part, '-')[i - n - 1];
      }
    }
  }

  lemma {:induction false} PartsDenote(ranges: seq<Range>, short: bool)
    requires forall i :: 0 <= i < |ranges| ==> VLAN_ID_MIN <= ranges[i].lo <= ranges[i].hi <= VLAN_ID_MAX
    ensures PartsIds(PrintParts(ranges, short)) == Denote(ranges)
    decreases |ranges|
  {
    if ranges != [] {
      var n := |ranges| - 1;
      PartsDenote(ranges[..n], short);
      assert PrintParts(ranges, short)[..n] == PrintParts(ranges[..n], short);
      PrintRangeIsOk(ranges[n], short);
      PartIdsOfOk(PrintRange(ranges[n], short));
    }
  }

  /** Whatever ranges a list is printed from, in whatever order, overlapping or not, single ids written short
      or as ranges: it is accepted, and expanding it gives back exactly the ids of those ranges. */
  lemma {:induction false} PrintedListExpands(ranges: seq<Range>, short: bool)
    requires RangesOk(ranges)
    ensures Accepted(PrintRanges(ranges, short)) && Expand(PrintRanges(ranges, short)) == Denote(ranges)
  {
    var parts, s := PrintParts(ranges, short), PrintRanges(ranges, short);
    forall i | 0 <= i < |parts| ensures PartOk(parts[i]) && ',' !in parts[i] {
      PrintRangeIsOk(ranges[i], short);
      CommaFree(parts[i]);
    }
    SplitOfJoin(parts, ',');
    AcceptedChars(s);
    CleaningIsNothing(s);
    ExpandOfAccepted(s);
    PartsDenote(ranges, short);
  }

  /** Re-ranging a list does not change what it names. */
  lemma {:induction false} ReRangingKeepsMeaning(a: seq<Range>, shortA: bool, b: seq<Range>, shortB: bool)
    requires RangesOk(a) && RangesOk(b)
    ensures Expand(PrintRanges(a, shortA)) == Expand(PrintRanges(b, shortB)) <==> Denote(a) == Denote(b)
  {
    PrintedListExpands(a, shortA);
    PrintedListExpands(b, shortB);
  }
}
