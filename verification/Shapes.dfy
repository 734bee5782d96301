/** The forms that validation takes, said by what they are printed from rather than by how they are recognised. */
module Shapes {
  import opened Wrappers
  import opened Text
  import opened Lines
  import opened VlanList
  import opened CiscoDriver

  // ---- The forms ----

  predicate LetterOrDigit(c: char) {
    'a' <= c <= 'z' || 'A' <= c <= 'Z' || '0' <= c <= '9'
  }

  predicate StartsWithLetter(s: string) {
    s != "" && ('a' <= s[0] <= 'z' || 'A' <= s[0] <= 'Z')
  }

  /** A numeral from 1 to max, without leading zeros. */
  ghost predicate NumeralForm(s: string, max: nat) {
    exists n: nat :: 1 <= n <= max && s == PrintNat(n)
  }

  /** Some digits, leading zeros and all, that come to at most max. */
  predicate DigitsForm(s: string, digits: nat, max: nat) {
    1 <= |s| <= digits && (forall i :: 0 <= i < |s| ==> '0' <= s[i] <= '9') && NatValue(s) <= max
  }

  predicate IsQuadOf(parts: seq<string>) {
    |parts| == 4 && forall i :: 0 <= i < 4 ==> DigitsForm(parts[i], 3, 255)
  }

  ghost predicate QuadForm(s: string) {
    exists parts :: IsQuadOf(parts) && s == JoinOn(parts, '.')
  }

  function Dotted(a: nat, b: nat, c: nat, d: nat): string {
    JoinOn([PrintNat(a), PrintNat(b), PrintNat(c), PrintNat(d)], '.')
  }

  ghost predicate AddressForm(s: string) {
    exists a: nat, b: nat, c: nat, d: nat :: a <= 255 && b <= 255 && c <= 255 && d <= 255 && s == Dotted(a, b, c, d)
  }

  /** An address, or a name that starts with a letter. */
  ghost predicate NextHopForm(s: string) {
    || AddressForm(s)
    || (StartsWithLetter(s) && forall i :: 0 <= i < |s| ==> LetterOrDigit(s[i]) || s[i] in "./:_-")
  }

  ghost predicate ProcessForm(spec: string) {
    var s := Lower(Strip(spec));
    || s == "rip"
    || (exists id :: NumeralForm(id, 65535) && s == "ospf " + id)
    || (exists id :: NumeralForm(id, 65535) && s == "eigrp " + id)
  }

  ghost predicate BgpProcessForm(spec: string) {
    exists id :: NumeralForm(id, 4294967295) && Lower(Strip(spec)) == "bgp " + id
  }

  /** One network for RIP, one or a network and a wildcard for EIGRP, and both with an area for OSPF. */
  ghost predicate NetworkForm(process: string, value: string) {
    var s, words := Lower(Strip(process)), Words(value);
    if s == "rip" then |words| == 1 && QuadForm(words[0])
    else if "eigrp " <= s then 1 <= |words| <= 2 && QuadForm(words[0]) && (|words| == 2 ==> QuadForm(words[1]))
    else
      && |words| == 4 && QuadForm(words[0]) && QuadForm(words[1]) && words[2] == "area"
      && (QuadForm(words[3]) || (1 <= |words[3]| <= 10 && AllDigits(words[3])))
  }

  ghost predicate NeighborForm(value: string) {
    exists peer, id :: QuadForm(peer) && NumeralForm(id, 4294967295) && Key(value) == [peer, "remote-as", id]
  }

  ghost predicate VlanIdForm(s: string) {
    var digits := Strip(s);
    digits != "" && AllDigits(digits) && 1 <= NatValue(digits) <= 4094 && NatValue(digits) !in {1002, 1003, 1004, 1005}
  }

  /** A letter, then letters, digits and hyphens, 63 characters in all; one line break at the end goes unnoticed. */
  ghost predicate HostnameForm(name: string) {
    |name| <= 63 && exists body :: (name == body || name == body + "\n") && BareForm(body)
  }

  predicate BareForm(body: string) {
    StartsWithLetter(body) && forall i :: 0 <= i < |body| ==> LetterOrDigit(body[i]) || body[i] == '-'
  }

  predicate VlanNameForm(name: string) {
    1 <= |name| <= 32 && forall i :: 0 <= i < |name| ==> LetterOrDigit(name[i]) || name[i] == '-' || name[i] == '_'
  }

  predicate Printable(c: char) {
    c == ' ' || (' ' < c < '\U{7f}') || ('\U{9f}' < c && !IsSpace(c))
  }

  predicate DescriptionForm(text: string) {
    && |text| <= 240 && (forall i :: 0 <= i < |text| ==> Printable(text[i]))
    && exists i :: 0 <= i < |text| && text[i] != ' '
  }

  /** An id, or two with a hyphen between them, in order. */
  ghost predicate PartForm(part: string) {
    || (DigitsForm(part, 4, 4094) && NatValue(part) >= 1)
    || (exists low, high :: DigitsForm(low, 4, 4094) && DigitsForm(high, 4, 4094) && part == low + "-" + high
                            && 1 <= NatValue(low) <= NatValue(high))
  }

  ghost predicate ListForm(list: string) {
    exists parts :: parts != [] && Strip(list) == JoinOn(parts, ',')
                    && forall i :: 0 <= i < |parts| ==> PartForm(parts[i])
  }

  // ---- Numerals ----

  function Power(k: nat): nat {
    if k == 0 then 1 else 10 * Power(k - 1)
  }

  lemma {:induction false} PrintedLength(n: nat, k: nat)
    requires 1 <= k && n < Power(k)
    ensures |PrintNat(n)| <= k
  {
    PrintNatParses(n);
    if n >= 10 {
      PrintedLength(n / 10, k - 1);
    }
  }

  lemma {:induction false} FirstDigit(n: nat)
    ensures n > 0 ==> PrintNat(n)[0] != '0'
  {
    PrintNatParses(n);
    if n >= 10 {
      PrintNatParses(n / 10);
      FirstDigit(n / 10);
      assert PrintNat(n)[0] == PrintNat(n / 10)[0];
    }
  }

  /** Digits without a leading zero are the numeral of their value. */
  lemma {:induction false} DigitsArePrinted(s: string)
    requires s != "" && AllDigits(s) && (|s| > 1 ==> s[0] != '0')
    ensures s == PrintNat(NatValue(s)) && (s[0] != '0' <==> NatValue(s) >= 1)
    decreases |s|
  {
    var front, last := s[..|s| - 1], s[|s| - 1];
    if front == "" {
      assert NatValue(front) == 0;
    } else {
      DigitsArePrinted(front);
      assert front[0] == s[0];
      var n := NatValue(front) * 10 + DigitValue(last);
      assert n / 10 == NatValue(front) && n % 10 == DigitValue(last);
      assert s == front + [last];
    }
  }

  lemma {:induction false} NumbersAreNumerals(s: string, digits: nat, max: nat)
    requires digits >= 1 && max < Power(digits)
    ensures IsNumber(s, digits, max) <==> NumeralForm(s, max)
  {
    if IsNumber(s, digits, max) {
      DigitsArePrinted(s);
    }
    if n: nat :| 1 <= n <= max && s == PrintNat(n) {
      PrintNatParses(n);
      PrintedLength(n, digits);
      FirstDigit(n);
    }
  }

  lemma {:induction false} Powers()
    ensures Power(3) == 1000 && Power(4) == 10000 && Power(5) == 100000 && Power(10) == 10000000000
  {
  }

  // ---- Dotted forms ----

  lemma {:induction false} JoinOfSplit(s: string, c: char)
    ensures JoinOn(SplitOn(s, c), c) == s
    ensures forall i :: 0 <= i < |SplitOn(s, c)| ==> c !in SplitOn(s, c)[i]
    decreases |s|
  {
    var n := IndexOf(s, c);
    if n < |s| {
      JoinOfSplit(s[n + 1..], c);
      assert s == s[..n] + [c] + s[n + 1..];
    }
  }

  lemma {:induction false} QuadsAreQuads(s: string)
    ensures IsQuad(s) <==> QuadForm(s)
  {
    hide NatValue;
    JoinOfSplit(s, '.');
    if IsQuad(s) {
      assert IsQuadOf(SplitOn(s, '.'));
    }
    if parts :| IsQuadOf(parts) && s == JoinOn(parts, '.') {
      forall i | 0 <= i < 4 ensures '.' !in parts[i] && IsOctet(parts[i]) {
        assert DigitsForm(parts[i], 3, 255);
      }
      SplitOfJoin(parts, '.');
    }
  }

  lemma {:induction false} AddressIsPrinted(s: string)
    requires IsAddress(s)
    ensures AddressForm(s)
  {
    hide NatValue, PrintNat, JoinOn;
    var parts := SplitOn(s, '.');
    JoinOfSplit(s, '.');
    hide SplitOn;
    forall i | 0 <= i < 4 ensures parts[i] == PrintNat(NatValue(parts[i])) && NatValue(parts[i]) <= 255 {
      DigitsArePrinted(parts[i]);
    }
    var a, b, c, d := NatValue(parts[0]), NatValue(parts[1]), NatValue(parts[2]), NatValue(parts[3]);
    assert parts == [PrintNat(a), PrintNat(b), PrintNat(c), PrintNat(d)];
    assert s == Dotted(a, b, c, d);
  }

  lemma {:induction false} PrintedIsAddress(a: nat, b: nat, c: nat, d: nat)
    requires a <= 255 && b <= 255 && c <= 255 && d <= 255
    ensures IsAddress(Dotted(a, b, c, d))
  {
    hide NatValue, PrintNat, SplitOn, JoinOn, IsOctet;
    OctetIsPrinted(a);
    OctetIsPrinted(b);
    OctetIsPrinted(c);
    OctetIsPrinted(d);
    SplitOfJoin([PrintNat(a), PrintNat(b), PrintNat(c), PrintNat(d)], '.');
  }

  lemma {:induction false} AddressesAreAddresses(s: string)
    ensures IsAddress(s) <==> AddressForm(s)
  {
    hide IsAddress, Dotted;
    if IsAddress(s) {
      AddressIsPrinted(s);
    }
    if a: nat, b: nat, c: nat, d: nat :| a <= 255 && b <= 255 && c <= 255 && d <= 255 && s == Dotted(a, b, c, d) {
      PrintedIsAddress(a, b, c, d);
    }
  }

  lemma {:induction false} OctetIsPrinted(n: nat)
    requires n <= 255
    ensures var s := PrintNat(n); IsOctet(s) && '.' !in s && (|s| > 1 ==> s[0] != '0')
  {
    PrintNatParses(n);
    Powers();
    PrintedLength(n, 3);
    FirstDigit(n);
  }

  lemma {:induction false} NextHopsAreNextHops(s: string)
    ensures IsNextHop(s) <==> NextHopForm(s)
  {
    hide IsAddress, AddressForm;
    AddressesAreAddresses(s);
  }

  // ---- Router blocks ----

  lemma {:induction false} ProcessesAreProcesses(spec: string)
    ensures IsProcess(spec) <==> ProcessForm(spec)
    ensures IsBgpProcess(spec) <==> BgpProcessForm(spec)
  {
    hide IsNumber, NumeralForm, Lower, Strip;
    var s := Lower(Strip(spec));
    Powers();
    forall id ensures IsNumber(id, 5, 65535) <==> NumeralForm(id, 65535) {
      NumbersAreNumerals(id, 5, 65535);
    }
    forall id ensures IsNumber(id, 10, 4294967295) <==> NumeralForm(id, 4294967295) {
      NumbersAreNumerals(id, 10, 4294967295);
    }
    assert "ospf " <= s ==> s == "ospf " + s[5..];
    assert "eigrp " <= s ==> s == "eigrp " + s[6..];
    assert "bgp " <= s ==> s == "bgp " + s[4..];
    assert forall id :: ("ospf " + id)[5..] == id && ("eigrp " + id)[6..] == id && ("bgp " + id)[4..] == id;
  }

  lemma {:induction false} NetworksAreNetworks(process: string, value: string)
    ensures IsNetwork(process, value) <==> NetworkForm(process, value)
  {
    hide IsQuad, QuadForm, Lower, Strip, Words;
    forall s ensures IsQuad(s) <==> QuadForm(s) {
      QuadsAreQuads(s);
    }
  }

  lemma {:induction false} NeighborsAreNeighbors(value: string)
    ensures IsBgpNeighbor(value) <==> NeighborForm(value)
  {
    hide IsQuad, QuadForm, Key, IsNumber, NumeralForm;
    Powers();
    forall s ensures IsQuad(s) <==> QuadForm(s) {
      QuadsAreQuads(s);
    }
    forall id ensures IsNumber(id, 10, 4294967295) <==> NumeralForm(id, 4294967295) {
      NumbersAreNumerals(id, 10, 4294967295);
    }
    if IsBgpNeighbor(value) {
      assert Key(value) == [Key(value)[0], "remote-as", Key(value)[2]];
    }
  }

  // ---- Names and texts ----

  lemma {:induction false} VlanIdsAreVlanIds(s: string)
    ensures IsVlanId(s) <==> VlanIdForm(s)
  {
    hide NatValue, Strip;
  }

  lemma {:induction false} BareNames(body: string)
    ensures IsBareName(body) <==> BareForm(body)
    ensures BareForm(body) ==> body[|body| - 1] != '\n'
  {
    forall i | 0 <= i < |body|
      ensures LetterOrDigit(body[i]) || body[i] == '-' <==> IsLetter(body[i]) || IsDigit(body[i]) || body[i] == '-'
    {
    }
    assert BareForm(body) ==> LetterOrDigit(body[|body| - 1]) || body[|body| - 1] == '-';
  }

  lemma {:induction false} HostnamesAreHostnames(name: string)
    ensures IsHostname(name) <==> HostnameForm(name)
  {
    hide IsBareName, BareForm;
    var body := if name != "" && name[|name| - 1] == '\n' then name[..|name| - 1] else name;
    BareNames(body);
    assert name == body || name == body + "\n";
    assert IsHostname(name) <==> |name| <= 63 && IsBareName(body);
    if HostnameForm(name) {
      var other :| (name == other || name == other + "\n") && BareForm(other);
      BareNames(other);
      assert name == other + "\n" ==> name[..|name| - 1] == other;
      NotEmptyName(other);
      assert body == other;
    }
  }

  lemma {:induction false} NotEmptyName(body: string)
    requires BareForm(body)
    ensures body != ""
  {
  }

  lemma {:induction false} VlanNamesAreVlanNames(name: string)
    ensures IsVlanName(name) <==> VlanNameForm(name)
  {
  }

  lemma {:induction false} DescriptionsAreDescriptions(text: string)
    ensures IsDescription(text) <==> DescriptionForm(text)
  {
    hide Strip;
    forall i | 0 <= i < |text| ensures IsPrintable(text[i]) <==> Printable(text[i]) {
      PrintableIs(text[i]);
    }
    if forall i :: 0 <= i < |text| ==> IsPrintable(text[i]) {
      forall i | 0 <= i < |text| ensures IsSpace(text[i]) <==> text[i] == ' ' {
        OnlyBlanks(text[i]);
      }
      StripIsEmpty(text);
    }
  }

  lemma {:induction false} PrintableIs(c: char)
    ensures IsPrintable(c) <==> Printable(c)
  {
  }

  lemma {:induction false} OnlyBlanks(c: char)
    requires IsPrintable(c)
    ensures IsSpace(c) <==> c == ' '
  {
  }

  lemma {:induction false} StripIsEmpty(s: string)
    ensures Strip(s) == "" <==> forall i :: 0 <= i < |s| ==> IsSpace(s[i])
  {
    hide IsSpace;
    LeftIsEmpty(s);
    LeftEnd(s);
    RightIsEmpty(StripLeft(s));
  }

  lemma {:induction false} LeftIsEmpty(s: string)
    ensures StripLeft(s) == "" <==> forall i :: 0 <= i < |s| ==> IsSpace(s[i])
  {
    hide IsSpace;
    if s != "" && IsSpace(s[0]) {
      LeftIsEmpty(s[1..]);
      assert forall i :: 1 <= i < |s| ==> s[i] == s[1..][i - 1];
    }
  }

  lemma {:induction false} RightIsEmpty(s: string)
    ensures s != "" && !IsSpace(s[0]) ==> StripRight(s) != ""
    decreases |s|
  {
    hide IsSpace;
    if s != "" && IsSpace(s[|s| - 1]) {
      RightIsEmpty(s[..|s| - 1]);
    }
  }

  // ---- Trunk lists ----

  lemma {:induction false} SingleIs(part: string)
    requires IndexOf(part, '-') == |part|
    ensures PartOk(part) <==> DigitsForm(part, 4, 4094) && NatValue(part) >= 1
  {
    hide NatValue;
    assert part[..|part|] == part;
  }

  lemma {:induction false} PairIs(low: string, high: string)
    requires '-' !in low
    ensures PartOk(low + "-" + high) <==>
              && DigitsForm(low, 4, 4094) && DigitsForm(high, 4, 4094) && 1 <= NatValue(low) <= NatValue(high)
  {
    hide NatValue;
    var part := low + "-" + high;
    IndexOfIs(part, '-', |low|);
    assert part[..|low|] == low && part[|low| + 1..] == high;
  }

  lemma {:induction false} NoHyphen(s: string)
    requires DigitsForm(s, 4, 4094)
    ensures '-' !in s && IndexOf(s, '-') == |s|
  {
    hide NatValue;
    IndexOfIs(s, '-', |s|);
  }

  lemma {:induction false} PairHasHyphen(low: string, high: string)
    ensures IndexOf(low + "-" + high, '-') < |low + "-" + high|
  {
    assert (low + "-" + high)[|low|] == '-';
  }

  lemma {:induction false} PartsAreParts(part: string)
    ensures PartOk(part) <==> PartForm(part)
  {
    hide NatValue, PartOk, DigitsForm;
    var n := IndexOf(part, '-');
    if n == |part| {
      SingleIs(part);
      forall low: string, high: string ensures part != low + "-" + high {
        PairHasHyphen(low, high);
      }
    } else {
      var low, high := part[..n], part[n + 1..];
      assert part == low + "-" + high;
      PairIs(low, high);
      if DigitsForm(part, 4, 4094) {
        NoHyphen(part);
      }
      if a, b :| DigitsForm(a, 4, 4094) && DigitsForm(b, 4, 4094) && part == a + "-" + b
                 && 1 <= NatValue(a) <= NatValue(b)
      {
        NoHyphen(a);
        PairIs(a, b);
      }
    }
  }

  lemma {:induction false} ListsAreLists(list: string)
    ensures Accepted(list) <==> ListForm(list)
  {
    hide PartOk, PartForm, Strip;
    var s := Strip(list);
    JoinOfSplit(s, ',');
    forall part ensures PartOk(part) <==> PartForm(part) {
      PartsAreParts(part);
    }
    if parts :| parts != [] && s == JoinOn(parts, ',') && forall i :: 0 <= i < |parts| ==> PartForm(parts[i]) {
      forall i | 0 <= i < |parts| ensures ',' !in parts[i] {
        CommaFreePart(parts[i]);
      }
      SplitOfJoin(parts, ',');
    }
  }

  lemma {:induction false} CommaFreePart(part: string)
    requires PartOk(part)
    ensures ',' !in part
  {
    CommaFree(part);
  }
}
