/** Interface names: the long and the short spelling of a type name the same interface, and no two types are confused. */
module Spellings {
  import opened Wrappers
  import opened Text
  import opened VlanList
  import opened Facts

  datatype Kind = TwentyFiveGig | TenGig | FortyGig | HundredGig | Gig | Fast | Ether | PortChannel

  /** As `show interfaces` spells it, apart from case. */
  function Long(kind: Kind): string {
    match kind
    case TwentyFiveGig => "twentyfivegige"
    case TenGig => "tengigabitethernet"
    case FortyGig => "fortygigabitethernet"
    case HundredGig => "hundredgige"
    case Gig => "gigabitethernet"
    case Fast => "fastethernet"
    case Ether => "ethernet"
    case PortChannel => "port-channel"
  }

  /** As `show vlan brief` does. */
  function Short(kind: Kind): string {
    match kind
    case TwentyFiveGig => "twe"
    case TenGig => "te"
    case FortyGig => "fo"
    case HundredGig => "hu"
    case Gig => "gi"
    case Fast => "fa"
    case Ether => "et"
    case PortChannel => "po"
  }

  /** Slot and port: a digit, then anything without white space. */
  predicate IsPlace(s: string) {
    IsWord(s) && IsDigit(s[0])
  }

  // ---- The table ----

  function Place(kind: Kind): nat {
    match kind
    case TwentyFiveGig => 0
    case TenGig => 1
    case FortyGig => 2
    case HundredGig => 3
    case Gig => 4
    case Fast => 5
    case Ether => 6
    case PortChannel => 7
  }

  lemma {:induction false} TableHas(kind: Kind)
    ensures |INTERFACE_PREFIXES| == 8 && INTERFACE_PREFIXES[Place(kind)] == (Long(kind), Short(kind))
  {
  }

  lemma {:induction false} KindAt(k: nat) returns (kind: Kind)
    requires k < 8
    ensures Place(kind) == k
  {
    kind := [TwentyFiveGig, TenGig, FortyGig, HundredGig, Gig, Fast, Ether, PortChannel][k];
  }

  /** The third letter of a long spelling goes on with the word; the first three tell the types apart. */
  lemma {:induction false} Letters(kind: Kind)
    ensures |Long(kind)| > 3 && 2 <= |Short(kind)| <= 3
    ensures var l, s := Long(kind), Short(kind);
            match kind
            case TwentyFiveGig => l[0] == 't' && l[1] == 'w' && l[3] == 'n' && s[0] == 't' && s[1] == 'w' && |s| == 3
            case TenGig => l[0] == 't' && l[1] == 'e' && l[2] == 'n' && s[0] == 't' && s[1] == 'e' && |s| == 2
            case FortyGig => l[0] == 'f' && l[1] == 'o' && l[2] == 'r' && s[0] == 'f' && s[1] == 'o' && |s| == 2
            case HundredGig => l[0] == 'h' && l[2] == 'n' && s[0] == 'h' && |s| == 2
            case Gig => l[0] == 'g' && l[2] == 'g' && s[0] == 'g' && |s| == 2
            case Fast => l[0] == 'f' && l[1] == 'a' && l[2] == 's' && s[0] == 'f' && s[1] == 'a' && |s| == 2
            case Ether => l[0] == 'e' && l[2] == 'h' && s[0] == 'e' && |s| == 2
            case PortChannel => l[0] == 'p' && l[2] == 'r' && s[0] == 'p' && |s| == 2
  {
  }

  lemma {:induction false} OnlyItsOwn(kind: Kind, other: Kind, rest: string)
    ensures Long(other) <= Long(kind) + rest <==> other == kind
  {
    Letters(kind);
    Letters(other);
    hide Long, Short;
    SameStart(Long(other), Long(kind) + rest);
  }

  lemma {:induction false} SameStart(p: string, s: string)
    requires |p| > 3
    ensures p <= s ==> |s| > 3 && p[0] == s[0] && p[1] == s[1] && p[2] == s[2] && p[3] == s[3]
  {
  }

  lemma {:induction false} NotLong(kind: Kind, other: Kind, rest: string)
    requires rest != "" && IsDigit(rest[0])
    ensures !(Long(other) <= Short(kind) + rest)
  {
    Letters(kind);
    Letters(other);
    hide Long, Short;
    var s := Short(kind) + rest;
    assert s[|Short(kind)|] == rest[0];
    SameStart(Long(other), s);
  }

  lemma {:induction false} FoundAt(s: string, table: seq<(string, string)>, i: nat)
    requires i < |table| && table[i].0 <= s && forall j :: 0 <= j < i ==> !(table[j].0 <= s)
    ensures ShortForm(s, table) == table[i].1 + s[|table[i].0|..]
  {
    if i > 0 {
      FoundAt(s, table[1..], i - 1);
    }
  }

  lemma {:induction false} NotFound(s: string, table: seq<(string, string)>)
    requires forall j :: 0 <= j < |table| ==> !(table[j].0 <= s)
    ensures ShortForm(s, table) == s
  {
    if table != [] {
      NotFound(s, table[1..]);
    }
  }

  lemma {:induction false} LongIsShortened(kind: Kind, rest: string)
    ensures ShortForm(Long(kind) + rest, INTERFACE_PREFIXES) == Short(kind) + rest
  {
    hide Long, Short;
    var s := Long(kind) + rest;
    TableHas(kind);
    forall j | 0 <= j < Place(kind) ensures !(INTERFACE_PREFIXES[j].0 <= s) {
      var other := KindAt(j);
      TableHas(other);
      OnlyItsOwn(kind, other, rest);
    }
    FoundAt(s, INTERFACE_PREFIXES, Place(kind));
    assert s[|Long(kind)|..] == rest;
  }

  lemma {:induction false} ShortStays(kind: Kind, rest: string)
    requires rest != "" && IsDigit(rest[0])
    ensures ShortForm(Short(kind) + rest, INTERFACE_PREFIXES) == Short(kind) + rest
  {
    hide Long, Short;
    TableHas(kind);
    forall j | 0 <= j < 8 ensures !(INTERFACE_PREFIXES[j].0 <= Short(kind) + rest) {
      var other := KindAt(j);
      TableHas(other);
      NotLong(kind, other, rest);
    }
    NotFound(Short(kind) + rest, INTERFACE_PREFIXES);
  }

  // ---- Names ----

  lemma {:induction false} Solid(kind: Kind)
    ensures IsWord(Long(kind)) && IsWord(Short(kind))
  {
    if kind.TwentyFiveGig? || kind.TenGig? || kind.FortyGig? {
      FirstArePlain(kind);
    } else {
      OthersArePlain(kind);
    }
    ShortIsPlain(kind);
    hide Long, Short, IsSpace;
    GraphicIsSolid(Long(kind));
    GraphicIsSolid(Short(kind));
  }

  predicate IsPlain(s: string) {
    s != "" && forall i :: 0 <= i < |s| ==> '!' <= s[i] <= '~'
  }

  lemma {:induction false} FirstArePlain(kind: Kind)
    requires kind.TwentyFiveGig? || kind.TenGig? || kind.FortyGig?
    ensures IsPlain(Long(kind))
  {
  }

  lemma {:induction false} OthersArePlain(kind: Kind)
    requires !(kind.TwentyFiveGig? || kind.TenGig? || kind.FortyGig?)
    ensures IsPlain(Long(kind))
  {
  }

  lemma {:induction false} ShortIsPlain(kind: Kind)
    ensures IsPlain(Short(kind))
  {
  }

  lemma {:induction false} GraphicIsSolid(s: string)
    requires IsPlain(s)
    ensures IsWord(s)
  {
  }

  lemma {:induction false} NameStays(name: string, place: string)
    requires IsPlace(place) && IsWord(Lower(name))
    ensures Lower(Strip(name + place)) == Lower(name) + Lower(place)
  {
    hide IsSpace, LowerChar;
    var s := name + place;
    forall i | 0 <= i < |s| ensures !IsSpace(s[i]) {
      if i < |name| {
        assert Lower(name)[i] == LowerChar(name[i]);
        LowerKeepsSpace(name[i]);
      }
    }
    StripOfWord(s);
    assert Lower(s) == Lower(name) + Lower(place);
  }

  lemma {:induction false} DigitStays(place: string)
    requires IsPlace(place)
    ensures Lower(place) != "" && IsDigit(Lower(place)[0])
  {
  }

  lemma {:induction false} NormalForm(kind: Kind, name: string, place: string)
    requires IsPlace(place) && (Lower(name) == Long(kind) || Lower(name) == Short(kind))
    ensures NormalizeInterfaceName(name + place) == Short(kind) + Lower(place)
  {
    hide Long, Short, Lower, Strip, IsWord, IsPlace, ShortForm;
    Solid(kind);
    NameStays(name, place);
    DigitStays(place);
    LongIsShortened(kind, Lower(place));
    ShortStays(kind, Lower(place));
  }

  /** Two names, spelled long or short and in any case, are taken for the same interface exactly if type and place
      agree. */
  lemma {:induction false} SameExactlyWhenAlike(a: Kind, b: Kind, here: string, there: string, left: string,
                                                right: string)
    requires IsPlace(here) && IsPlace(there)
    requires Lower(left) == Long(a) || Lower(left) == Short(a)
    requires Lower(right) == Long(b) || Lower(right) == Short(b)
    ensures SameInterface(left + here, right + there) <==> a == b && Lower(here) == Lower(there)
  {
    hide NormalizeInterfaceName, Lower, IsPlace;
    NormalForm(a, left, here);
    NormalForm(b, right, there);
    Letters(a);
    Letters(b);
    DigitStays(here);
    DigitStays(there);
    hide Long, Short;
    var x, y := Short(a) + Lower(here), Short(b) + Lower(there);
    assert x[|Short(a)|] == Lower(here)[0] && y[|Short(b)|] == Lower(there)[0];
    assert x[|Short(a)|..] == Lower(here) && y[|Short(b)|..] == Lower(there);
    assert x[0] == Short(a)[0] && y[0] == Short(b)[0] && x[1] == Short(a)[1] && y[1] == Short(b)[1];
  }
}
