/** What is read from a printed `show interfaces switchport`: the ports that were printed, field by field. */
module SwitchportListing {
  import opened Wrappers
  import opened Text
  import opened Lines
  import opened VlanList
  import opened Facts
  import opened Device
  import opened CliParsers
  import opened CiscoDriver

  datatype Entry = Entry(tag: string, value: string)

  /** The block of a port: its name, then any other fields in any order. */
  datatype PortBlock = PortBlock(name: string, entries: seq<Entry>)

  predicate IsSolid(s: string) {
    s == "" || (!IsSpace(s[0]) && !IsSpace(s[|s| - 1]))
  }

  predicate IsTag(s: string) {
    && s != "" && ('a' <= s[0] <= 'z' || 'A' <= s[0] <= 'Z') && !IsSpace(s[|s| - 1])
    && forall i :: 0 <= i < |s| ==> IsLabelChar(s[i])
  }

  predicate EntryOk(e: Entry) {
    IsTag(e.tag) && IsSolid(e.value)
  }

  predicate BlockOk(b: PortBlock) {
    && b.name != "" && IsSolid(b.name)
    && forall i :: 0 <= i < |b.entries| ==> EntryOk(b.entries[i]) && b.entries[i].tag != "Name"
  }

  /** The value of a field; printed twice, the later one. */
  function ValueOf(entries: seq<Entry>, tag: string): string {
    if entries == [] then ""
    else if entries[|entries| - 1].tag == tag then entries[|entries| - 1].value
    else ValueOf(entries[..|entries| - 1], tag)
  }

  function BlockFacts(b: PortBlock): SwitchportFacts {
    SwitchportFacts(b.name, ValueOf(b.entries, "Administrative Mode"),
                    NonEmpty(ValueOf(b.entries, "Trunking VLANs Enabled")),
                    NonEmpty(ValueOf(b.entries, "Administrative Trunking Encapsulation")))
  }

  /** `Label: value`, with a blank or without, and white space around it. */
  predicate PrintsEntry(raw: string, e: Entry) {
    Strip(raw) == e.tag + (":" + e.value) || (e.value != "" && Strip(raw) == e.tag + (":" + (" " + e.value)))
  }

  /** The lines print these entries, with blank lines anywhere. */
  predicate PrintsEntries(lines: seq<string>, entries: seq<Entry>)
    decreases |lines|
  {
    if lines == [] then entries == []
    else if Strip(lines[0]) == "" then PrintsEntries(lines[1..], entries)
    else entries != [] && PrintsEntry(lines[0], entries[0]) && PrintsEntries(lines[1..], entries[1..])
  }

  function EntriesOf(blocks: seq<PortBlock>): seq<Entry> {
    if blocks == [] then []
    else EntriesOf(blocks[..|blocks| - 1]) + ([Entry("Name", blocks[|blocks| - 1].name)] + blocks[|blocks| - 1].entries)
  }

  function AllBlockFacts(blocks: seq<PortBlock>): (r: seq<SwitchportFacts>)
    ensures |r| == |blocks|
  {
    seq(|blocks|, i requires 0 <= i < |blocks| => BlockFacts(blocks[i]))
  }

  // ---- One line ----

  lemma {:induction false} EntryIsField(e: Entry, rest: string)
    requires EntryOk(e)
    ensures var line := e.tag + (":" + rest); IsField(line) && Before(line, ':') == e.tag && After(line, ':') == rest
    ensures Strip(e.tag) == e.tag
  {
    var line := e.tag + (":" + rest);
    LabelHasNoColon(e.tag);
    IndexOfIs(line, ':', |e.tag|);
    forall i | 0 <= i < |e.tag| ensures line[i] == e.tag[i] {
    }
    LettersAreNoSpace(e.tag[0]);
    StripOfSolid(e.tag);
  }

  lemma {:induction false} LabelHasNoColon(tag: string)
    requires IsTag(tag)
    ensures forall i :: 0 <= i < |tag| ==> tag[i] != ':'
  {
    assert !IsLabelChar(':');
  }

  lemma {:induction false} LettersAreNoSpace(c: char)
    requires 'a' <= c <= 'z' || 'A' <= c <= 'Z'
    ensures !IsSpace(c)
  {
  }

  lemma {:induction false} BlankValue(v: string)
    requires IsSolid(v)
    ensures Strip(v) == v && (v != "" ==> Strip(" " + v) == v)
  {
    StripOfSolid(v);
    assert (" " + v)[1..] == v;
    assert v != "" ==> StripLeft(v) == v;
  }

  lemma {:induction false} EntryIsRead(s: PortState, raw: string, e: Entry)
    requires EntryOk(e) && PrintsEntry(raw, e)
    ensures PortStep(s, raw) == Store(s, e.tag, e.value)
  {
    hide Strip, IsField, IsTag, IsSolid, Store;
    EntryIsField(e, e.value);
    EntryIsField(e, " " + e.value);
    BlankValue(e.value);
  }

  // ---- Whole listings ----

  function StoreAll(s: PortState, entries: seq<Entry>): PortState {
    if entries == [] then s
    else Store(StoreAll(s, entries[..|entries| - 1]), entries[|entries| - 1].tag, entries[|entries| - 1].value)
  }

  lemma {:induction false} StoreFirst(s: PortState, entries: seq<Entry>)
    requires entries != []
    ensures StoreAll(s, entries) == StoreAll(Store(s, entries[0].tag, entries[0].value), entries[1..])
  {
    hide Store;
    if |entries| > 1 {
      StoreFirst(s, entries[..|entries| - 1]);
      assert entries[..|entries| - 1][1..] == entries[1..][..|entries| - 2];
    }
  }

  lemma {:induction false} StoreAppend(s: PortState, a: seq<Entry>, b: seq<Entry>)
    ensures StoreAll(s, a + b) == StoreAll(StoreAll(s, a), b)
    decreases |b|
  {
    hide Store;
    if b == [] {
      assert a + b == a;
    } else {
      assert (a + b)[..|a + b| - 1] == a + b[..|b| - 1];
      StoreAppend(s, a, b[..|b| - 1]);
    }
  }

  lemma {:induction false} EntriesAreRead(s: PortState, lines: seq<string>, entries: seq<Entry>)
    requires PrintsEntries(lines, entries) && forall i :: 0 <= i < |entries| ==> EntryOk(entries[i])
    ensures PortSteps(s, lines) == StoreAll(s, entries)
    decreases |lines|
  {
    hide PortStep, EntryOk, PrintsEntry, Strip, Store, StoreAll;
    if lines == [] {
      StoreNothing(s);
    } else if Strip(lines[0]) == "" {
      BlankIsSkipped(s, lines[0]);
      EntriesAreRead(s, lines[1..], entries);
    } else {
      EntryIsRead(s, lines[0], entries[0]);
      EntriesAreRead(Store(s, entries[0].tag, entries[0].value), lines[1..], entries[1..]);
      StoreFirst(s, entries);
    }
  }

  lemma {:induction false} StoreNothing(s: PortState)
    ensures StoreAll(s, []) == s
  {
  }

  lemma {:induction false} BlankIsSkipped(s: PortState, raw: string)
    requires Strip(raw) == ""
    ensures PortStep(s, raw) == s
  {
  }

  /** The fields of a block are stored under its name, and no port is closed before the next name. */
  lemma {:induction false} BodyIsStored(s: PortState, name: string, entries: seq<Entry>)
    requires s.fields == map["Name" := name]
    requires forall i :: 0 <= i < |entries| ==> entries[i].tag != "Name"
    ensures var t := StoreAll(s, entries);
            && t.ports == s.ports && FieldOf(t.fields, "Name") == name
            && forall tag :: tag != "Name" ==> FieldOf(t.fields, tag) == ValueOf(entries, tag)
  {
    if entries != [] {
      BodyIsStored(s, name, entries[..|entries| - 1]);
    }
  }

  lemma {:induction false} BlocksAreStored(blocks: seq<PortBlock>)
    requires forall i :: 0 <= i < |blocks| ==> BlockOk(blocks[i])
    ensures Flush(StoreAll(PortState(map[], None, []), EntriesOf(blocks))) == AllBlockFacts(blocks)
  {
    hide Flush, StoreAll, BlockFacts, BlockOk;
    var s := PortState(map[], None, []);
    if blocks == [] {
      StoreNothing(s);
      NothingToFlush();
    } else {
      var front, b := blocks[..|blocks| - 1], blocks[|blocks| - 1];
      var header := [Entry("Name", b.name)];
      BlocksAreStored(front);
      StoreAppend(s, EntriesOf(front), header + b.entries);
      BlockIsStored(StoreAll(s, EntriesOf(front)), b);
      assert AllBlockFacts(blocks) == AllBlockFacts(front) + [BlockFacts(b)];
    }
  }

  lemma {:induction false} NothingToFlush()
    ensures Flush(PortState(map[], None, [])) == []
  {
  }

  lemma {:induction false} BlockIsStored(s: PortState, b: PortBlock)
    requires BlockOk(b)
    ensures Flush(StoreAll(s, [Entry("Name", b.name)] + b.entries)) == Flush(s) + [BlockFacts(b)]
  {
    hide StoreAll, ValueOf, EntryOk, IsSolid;
    var all := [Entry("Name", b.name)] + b.entries;
    var begun := Store(s, "Name", b.name);
    StoreFirst(s, all);
    assert all[1..] == b.entries;
    assert begun.fields == map["Name" := b.name];
    BodyIsStored(begun, b.name, b.entries);
  }

  lemma {:induction false} EntriesAreOk(blocks: seq<PortBlock>)
    requires forall i :: 0 <= i < |blocks| ==> BlockOk(blocks[i])
    ensures forall i :: 0 <= i < |EntriesOf(blocks)| ==> EntryOk(EntriesOf(blocks)[i])
  {
    hide EntryOk;
    if blocks != [] {
      var b := blocks[|blocks| - 1];
      EntriesAreOk(blocks[..|blocks| - 1]);
      NameIsTag(b.name);
      assert BlockOk(b);
    }
  }

  lemma {:induction false} NameIsTag(name: string)
    requires IsSolid(name)
    ensures EntryOk(Entry("Name", name))
  {
  }

  /** A printed listing, its values wrapped anywhere the device may wrap them, is read back port by port. */
  lemma {:induction false} SwitchportsRoundTrip(fields: seq<Field>, blocks: seq<PortBlock>, ends: seq<string>)
    requires forall i :: 0 <= i < |fields| ==> WrapOk(fields[i])
    requires forall i :: 0 <= i < |blocks| ==> BlockOk(blocks[i])
    requires PrintsEntries(Unwrapped(fields), EntriesOf(blocks)) && EndsOk(Wrapped(fields), ends)
    ensures SwitchportList(SplitLines(Printed(Wrapped(fields), ends))) == AllBlockFacts(blocks)
  {
    hide WrapOk, BlockOk, PrintsEntries, EntriesOf, EndsOk, Wrapped, Unwrapped, SplitLines, Printed, Flush, PortSteps;
    hide StoreAll;
    var s := PortState(map[], None, []);
    PrintedSplits(Wrapped(fields), ends);
    WrappingDoesNotMatter(s, fields);
    EntriesAreOk(blocks);
    EntriesAreRead(s, Unwrapped(fields), EntriesOf(blocks));
    BlocksAreStored(blocks);
  }

  // ---- The listing of a configuration ----

  /** What the device prints for a port: its mode, its allowed VLANs as any list that names them, its encapsulation. */
  predicate PrintsPort(b: PortBlock, p: Port) {
    var list := ValueOf(b.entries, "Trunking VLANs Enabled");
    && ValueOf(b.entries, "Administrative Mode") == p.mode
    && ValueOf(b.entries, "Administrative Trunking Encapsulation")
       == (if p.encapsulation == Negotiate then "negotiate" else "dot1q")
    && list != "" && Typable(list) && Expand(list) == p.allowed && (p.allowed == {} ==> Lower(list) == "none")
  }

  ghost predicate BlocksOf(c: Config, blocks: seq<PortBlock>) {
    && (forall i :: 0 <= i < |blocks| ==>
          && BlockOk(blocks[i]) && NormalizeInterfaceName(blocks[i].name) in c.ports
          && PrintsPort(blocks[i], c.ports[NormalizeInterfaceName(blocks[i].name)]))
    && (forall name :: name in c.ports ==>
          exists i :: 0 <= i < |blocks| && NormalizeInterfaceName(blocks[i].name) == name)
  }

  lemma {:induction false} PortIsReported(b: PortBlock, p: Port)
    requires BlockOk(b) && PrintsPort(b, p)
    ensures var f := BlockFacts(b);
            && f.name == b.name && f.mode == p.mode && ReportsAllowed(f.trunkAllowed, p.allowed)
            && f.trunkEncapsulation == Some(if p.encapsulation == Negotiate then "negotiate" else "dot1q")
  {
    hide Expand, BlockOk, ValueOf, Strip;
    var list := ValueOf(b.entries, "Trunking VLANs Enabled");
    if p.allowed == {} {
      StripOfNone(list);
    }
  }

  lemma {:induction false} StripOfNone(list: string)
    requires Lower(list) == "none"
    ensures Strip(list) == list
  {
    assert Lower(list)[0] == 'n' && Lower(list)[3] == 'e' && |list| == 4;
    LowerKeepsSpace(list[0]);
    LowerKeepsSpace(list[3]);
    StripOfSolid(list);
  }

  /** The switchports of a configuration, in any order, each with any other fields, wrapped in any way: what is parsed
      reports the configuration. */
  lemma {:induction false} SwitchportsAreReported(c: Config, fields: seq<Field>, blocks: seq<PortBlock>,
                                                  ends: seq<string>)
    requires forall i :: 0 <= i < |fields| ==> WrapOk(fields[i])
    requires BlocksOf(c, blocks)
    requires PrintsEntries(Unwrapped(fields), EntriesOf(blocks)) && EndsOk(Wrapped(fields), ends)
    ensures ReportsSwitchports(c, SwitchportList(SplitLines(Printed(Wrapped(fields), ends))))
  {
    hide WrapOk, BlockOk, PrintsEntries, EntriesOf, EndsOk, Wrapped, Unwrapped, SplitLines, Printed, SwitchportList;
    hide PrintsPort, BlockFacts, ReportsAllowed, NormalizeInterfaceName;
    SwitchportsRoundTrip(fields, blocks, ends);
    var ports := AllBlockFacts(blocks);
    forall i | 0 <= i < |ports|
      ensures ports[i].name == blocks[i].name
      ensures ports[i].mode == c.ports[NormalizeInterfaceName(blocks[i].name)].mode
      ensures var p := c.ports[NormalizeInterfaceName(blocks[i].name)];
              && ReportsAllowed(ports[i].trunkAllowed, p.allowed)
              && ports[i].trunkEncapsulation == Some(if p.encapsulation == Negotiate then "negotiate" else "dot1q")
    {
      PortIsReported(blocks[i], c.ports[NormalizeInterfaceName(blocks[i].name)]);
    }
    forall name | name in c.ports
      ensures exists i :: 0 <= i < |ports| && NormalizeInterfaceName(ports[i].name) == name
    {
      var i :| 0 <= i < |blocks| && NormalizeInterfaceName(blocks[i].name) == name;
      assert ports[i].name == blocks[i].name;
    }
  }
}
