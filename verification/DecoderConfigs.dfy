/** The descriptors of a decoder configuration as they are written: what the loop of
    internal/audio/m4a.go finds in them. */
module DecoderConfigs {
  import opened Common
  import opened Descriptors

  /** A descriptor to write, with the number of bytes of its length. */
  datatype Item = Item(tag: byte, payload: Bytes, n: nat)

  predicate ValidItem(x: Item) { 1 <= x.n <= 4 && |x.payload| < Capacity(x.n) }

  predicate ValidItems(items: seq<Item>) { forall x :: x in items ==> ValidItem(x) }

  function Written(x: Item): (b: Bytes)
    requires ValidItem(x)
    ensures |b| == 1 + x.n + |x.payload|
  {
    [x.tag] + EncodeLength(|x.payload|, x.n) + x.payload
  }

  function AllWritten(items: seq<Item>): Bytes
    requires ValidItems(items)
  {
    if items == [] then [] else Written(items[0]) + AllWritten(items[1..])
  }

  predicate Holds(data: Bytes, d: Descriptor, x: Item) {
    d.tag == x.tag && 0 <= d.start <= d.end <= |data| && data[d.start..d.end] == x.payload
  }

  predicate AllHold(data: Bytes, all: seq<Descriptor>, items: seq<Item>) {
    |all| == |items| && forall i :: 0 <= i < |items| ==> Holds(data, all[i], items[i])
  }

  // ---------------------------------------------------------------------------
  // Reading what was written
  // ---------------------------------------------------------------------------

  lemma ItemIsRead(data: Bytes, offset: nat, items: seq<Item>) returns (d: Descriptor)
    requires items != [] && ValidItems(items) && offset <= |data| && data[offset..] == AllWritten(items)
    ensures offset < |data| && ReadDescriptor(data, offset) == Some(d) && Holds(data, d, items[0])
    ensures offset < d.end <= |data| && data[d.end..] == AllWritten(items[1..])
  {
    var x := items[0];
    var w := Written(x);
    FirstAndRest(data, offset, w, AllWritten(items[1..]));
    SliceOfSlice(data, offset, offset + |w|, 1, 1 + x.n);
    SliceOfSlice(data, offset, offset + |w|, 1 + x.n, |w|);
    assert w[0] == x.tag && w[1..1 + x.n] == EncodeLength(|x.payload|, x.n) && w[1 + x.n..|w|] == x.payload;
    assert data[offset] == data[offset..offset + |w|][0];
    DescriptorReadsBack(data, offset, x.tag, x.payload, x.n);
    d := ReadDescriptor(data, offset).value;
  }

  lemma OneMoreHolds(data: Bytes, d: Descriptor, all: seq<Descriptor>, items: seq<Item>)
    requires items != [] && Holds(data, d, items[0]) && AllHold(data, all, items[1..])
    ensures AllHold(data, [d] + all, items)
  {}

  lemma {:induction false} ItemsAreRead(data: Bytes, offset: nat, items: seq<Item>)
    requires ValidItems(items) && offset <= |data| && data[offset..] == AllWritten(items)
    ensures AllFrom(data, offset).Some? && AllHold(data, AllFrom(data, offset).value, items)
    decreases |items|
  {
    if items != [] {
      var d := ItemIsRead(data, offset, items);
      ItemsAreRead(data, d.end, items[1..]);
      OneMoreHolds(data, d, AllFrom(data, d.end).value, items);
    }
  }

  lemma {:induction false} NoSpecific(all: seq<Descriptor>)
    requires forall i :: 0 <= i < |all| ==> all[i].tag != 5
    ensures Specific(all) == []
  {
    if all != [] {
      NoSpecific(all[1..]);
    }
  }

  lemma {:induction false} OneSpecific(all: seq<Descriptor>, k: nat)
    requires k < |all| && forall i :: 0 <= i < |all| ==> (all[i].tag == 5 <==> i == k)
    ensures Specific(all) == [all[k]]
  {
    if k == 0 {
      NoSpecific(all[1..]);
    } else {
      OneSpecific(all[1..], k - 1);
    }
  }

  /** A configuration that is written among any other descriptors, once and under its own tag, is found. */
  lemma WrittenConfigIsFound(payload: Bytes, items: seq<Item>, k: nat)
    requires |payload| >= 13 && ValidItems(items) && payload[13..] == AllWritten(items)
    requires k < |items| && forall i :: 0 <= i < |items| ==> (items[i].tag == 5 <==> i == k)
    ensures var all := AllFrom(payload, 13);
            && all.Some? && |Specific(all.value)| == 1
            && var d := Specific(all.value)[0]; Holds(payload, d, items[k])
  {
    ItemsAreRead(payload, 13, items);
    OneSpecific(AllFrom(payload, 13).value, k);
  }

  // ---------------------------------------------------------------------------
  // Nothing else is found
  // ---------------------------------------------------------------------------

  lemma ReadItemIsWritten(data: Bytes, offset: nat) returns (x: Item)
    requires ReadDescriptor(data, offset).Some?
    ensures var d := ReadDescriptor(data, offset).value;
            && ValidItem(x) && offset + |Written(x)| == d.end <= |data| && x.tag == d.tag
            && data[offset..d.end] == Written(x)
  {
    var n := ReadDescriptorIsWritten(data, offset);
    var d := ReadDescriptor(data, offset).value;
    x := Item(d.tag, data[d.start..d.end], n);
    assert data[offset..d.end] == [data[offset]] + data[offset + 1..d.start] + data[d.start..d.end];
  }

  lemma {:induction false} ReadItemsAreWritten(data: Bytes, offset: nat) returns (items: seq<Item>)
    requires offset <= |data| && AllFrom(data, offset).Some?
    ensures ValidItems(items) && AllWritten(items) == data[offset..]
    decreases |data| - offset
  {
    if offset == |data| {
      return [];
    }
    var x := ReadItemIsWritten(data, offset);
    var end := ReadDescriptor(data, offset).value.end;
    var rest := ReadItemsAreWritten(data, end);
    items := [x] + rest;
    assert items[1..] == rest;
    assert data[offset..] == data[offset..end] + data[end..];
  }

  /** The descriptors that follow the thirteen bytes are the writing of descriptors, of which exactly one is
      a configuration, whenever one is found, and its payload is what is found. */
  lemma FoundConfigIsWritten(payload: Bytes) returns (items: seq<Item>, k: nat)
    requires |payload| >= 13 && AllFrom(payload, 13).Some? && |Specific(AllFrom(payload, 13).value)| == 1
    ensures ValidItems(items) && payload[13..] == AllWritten(items)
    ensures k < |items| && forall i :: 0 <= i < |items| ==> (items[i].tag == 5 <==> i == k)
    ensures Holds(payload, Specific(AllFrom(payload, 13).value)[0], items[k])
  {
    items := ReadItemsAreWritten(payload, 13);
    ItemsAreRead(payload, 13, items);
    k := IndexOfSpecific(AllFrom(payload, 13).value);
  }

  lemma {:induction false} IndexOfSpecific(all: seq<Descriptor>) returns (k: nat)
    requires |Specific(all)| == 1
    ensures k < |all| && Specific(all) == [all[k]] && forall i :: 0 <= i < |all| ==> (all[i].tag == 5 <==> i == k)
  {
    if all[0].tag == 5 {
      NoneIsSpecific(all[1..]);
      return 0;
    }
    var j := IndexOfSpecific(all[1..]);
    k := j + 1;
  }

  lemma {:induction false} NoneIsSpecific(all: seq<Descriptor>)
    requires Specific(all) == []
    ensures forall i :: 0 <= i < |all| ==> all[i].tag != 5
  {
    if all != [] {
      NoneIsSpecific(all[1..]);
    }
  }
}
