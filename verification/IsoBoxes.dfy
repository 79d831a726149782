/** ISO base media boxes, section 4.2 of ISO/IEC 14496-12, as internal/audio/m4a.go walks them. */
module IsoBoxes {
  import opened Common
  import opened Endian

  datatype Box = Box(kind: Bytes, start: nat, payloadStart: nat, end: nat)

  /** A file: its size is an int64. */
  predicate IsFile(data: Bytes) { |data| <= MAX_INT64 }

  /** readISOBox at an offset below the boundary. */
  function ReadBox(data: Bytes, offset: nat, boundary: nat): (r: Option<Box>)
    requires offset < boundary <= |data|
    ensures r.Some? ==> r.value.start == offset && offset + 8 <= r.value.payloadStart <= r.value.end <= boundary
  {
    if boundary - offset < 8 then None
    else
      var declared := BigUint32(data[offset..offset + 4]);
      var kind := data[offset + 4..offset + 8];
      if declared == 1 && boundary - offset < 16 then None
      else
        var size := if declared == 0 then boundary - offset
                    else if declared == 1 then BigUint64(data[offset + 8..offset + 16]) else declared;
        var header := if declared == 1 then 16 else 8;
        if size < header || size > boundary - offset then None
        else Some(Box(kind, offset, offset + header, offset + size))
  }

  /** The boxes walkISOBoxes visits, or None if it fails. */
  function Walk(data: Bytes, start: nat, end: nat): Option<seq<Box>>
    requires start <= end <= |data|
    decreases end - start
  {
    if start == end then Some([])
    else match ReadBox(data, start, end)
      case None => None
      case Some(b) =>
        match Walk(data, b.end, end)
        case None => None
        case Some(rest) => Some([b] + rest)
  }

  /** The boxes cover the range from start to end, each one from where the last ended, and each
      with its header and its payload inside it. */
  predicate Tiles(boxes: seq<Box>, start: nat, end: nat)
    decreases |boxes|
  {
    if boxes == [] then start == end
    else
      boxes[0].start == start && start + 8 <= boxes[0].payloadStart <= boxes[0].end
      && Tiles(boxes[1..], boxes[0].end, end)
  }

  lemma {:induction false} WalkTiles(data: Bytes, start: nat, end: nat)
    requires start <= end <= |data| && Walk(data, start, end).Some?
    ensures Tiles(Walk(data, start, end).value, start, end)
    decreases end - start
  {
    if start < end {
      var b := ReadBox(data, start, end).value;
      WalkTiles(data, b.end, end);
      assert Walk(data, start, end).value[1..] == Walk(data, b.end, end).value;
    }
  }

  predicate Covered(boxes: seq<Box>, p: int) { exists i :: 0 <= i < |boxes| && boxes[i].start <= p < boxes[i].end }

  /** Every byte of a tiled range belongs to exactly one box, and there are at most as many boxes
      as headers fit. */
  lemma {:induction false} TilesCoverOnce(boxes: seq<Box>, start: nat, end: nat)
    requires Tiles(boxes, start, end)
    ensures start <= end && 8 * |boxes| <= end - start
    ensures forall i :: 0 <= i < |boxes| ==> start <= boxes[i].start && boxes[i].payloadStart <= boxes[i].end <= end
    ensures forall i, j :: 0 <= i < j < |boxes| ==> boxes[i].end <= boxes[j].start
    ensures forall p :: start <= p < end ==> Covered(boxes, p)
    decreases |boxes|
  {
    if boxes != [] {
      var rest := boxes[1..];
      TilesCoverOnce(rest, boxes[0].end, end);
      forall i | 0 <= i < |boxes|
        ensures start <= boxes[i].start && boxes[i].payloadStart <= boxes[i].end <= end
      {
        assert i == 0 || boxes[i] == rest[i - 1];
      }
      forall i, j | 0 <= i < j < |boxes|
        ensures boxes[i].end <= boxes[j].start
      {
        assert boxes[j] == rest[j - 1] && (i == 0 || boxes[i] == rest[i - 1]);
      }
      forall p | start <= p < end
        ensures Covered(boxes, p)
      {
        if p >= boxes[0].end {
          assert Covered(rest, p);
          var i :| 0 <= i < |rest| && rest[i].start <= p < rest[i].end;
          assert boxes[i + 1] == rest[i];
        }
      }
    }
  }

  function After(front: seq<Box>, rest: Option<seq<Box>>): Option<seq<Box>> {
    if rest.None? then None else Some(front + rest.value)
  }

  /** walkISOBoxes: the loop and its offsets. The visitor is left to the caller, who gets the boxes. */
  method WalkBoxes(data: Bytes, start: uint64, end: uint64) returns (r: Option<seq<Box>>)
    requires IsFile(data) && end <= |data|
    ensures start > end ==> r == None
    ensures start <= end ==> r == Walk(data, start, end)
  {
    if start > end {
      return None;
    }
    var boxes: seq<Box> := [];
    var offset: uint64 := start;
    ghost var all := Walk(data, start, end);
    assert all.Some? ==> [] + all.value == all.value;
    while offset < end
      invariant start <= offset <= end
      invariant Walk(data, start, end) == After(boxes, Walk(data, offset, end))
      decreases end - offset
    {
      var current := ReadBox(data, offset, end);
      if current.None? {
        return None;
      }
      ghost var rest := Walk(data, current.value.end, end);
      if rest.Some? {
        assert boxes + ([current.value] + rest.value) == boxes + [current.value] + rest.value;
      }
      boxes := boxes + [current.value];
      offset := current.value.end;
    }
    assert boxes + [] == boxes;
    return Some(boxes);
  }

  // ---------------------------------------------------------------------------
  // Nesting
  // ---------------------------------------------------------------------------

  /** inner is reached from outer by walking into payloads, depth levels down. */
  ghost predicate Within(data: Bytes, outer: Box, inner: Box, depth: nat)
    decreases depth
  {
    if depth == 0 then inner == outer
    else exists child :: Child(data, outer, child) && Within(data, child, inner, depth - 1)
  }

  ghost predicate Child(data: Bytes, outer: Box, child: Box) {
    && outer.payloadStart <= outer.end <= |data|
    && Walk(data, outer.payloadStart, outer.end).Some? && child in Walk(data, outer.payloadStart, outer.end).value
  }

  lemma ChildIsInside(data: Bytes, outer: Box, child: Box)
    requires Child(data, outer, child)
    ensures outer.payloadStart <= child.start && child.start + 8 <= child.payloadStart <= child.end <= outer.end
  {
    WalkTiles(data, outer.payloadStart, outer.end);
    TilesInside(Walk(data, outer.payloadStart, outer.end).value, outer.payloadStart, outer.end, child);
  }

  /** Every nested walk, however deep, stays inside its parent's payload. */
  lemma {:induction false} NestedBoxesStayInside(data: Bytes, outer: Box, inner: Box, depth: nat)
    requires Within(data, outer, inner, depth) && outer.start + 8 <= outer.payloadStart <= outer.end <= |data|
    ensures outer.start + 8 * depth <= inner.start && inner.start + 8 <= inner.payloadStart <= inner.end <= outer.end
    decreases depth
  {
    if depth > 0 {
      var child :| Child(data, outer, child) && Within(data, child, inner, depth - 1);
      ChildIsInside(data, outer, child);
      NestedBoxesStayInside(data, child, inner, depth - 1);
    }
  }

  lemma {:induction false} TilesInside(boxes: seq<Box>, start: nat, end: nat, b: Box)
    requires Tiles(boxes, start, end) && b in boxes
    ensures start <= b.start && b.start + 8 <= b.payloadStart <= b.end <= end
    decreases |boxes|
  {
    TilesCoverOnce(boxes, start, end);
    if b != boxes[0] {
      TilesInside(boxes[1..], boxes[0].end, end, b);
    }
  }

  // ---------------------------------------------------------------------------
  // Media payload
  // ---------------------------------------------------------------------------

  const MDAT: Bytes := [109, 100, 97, 116]

  function PayloadSize(b: Box): nat
    requires b.payloadStart <= b.end
  {
    b.end - b.payloadStart
  }

  function MediaBytes(boxes: seq<Box>): nat
    requires forall b :: b in boxes ==> b.payloadStart <= b.end
  {
    if boxes == [] then 0
    else
      MediaBytes(boxes[..|boxes| - 1])
      + (if boxes[|boxes| - 1].kind == MDAT then PayloadSize(boxes[|boxes| - 1]) else 0)
  }

  /** The media payloads of the first n boxes fit into the range those boxes cover. */
  lemma {:induction false} MediaFits(boxes: seq<Box>, start: nat, end: nat, n: nat)
    requires Tiles(boxes, start, end) && n <= |boxes|
    ensures forall b :: b in boxes ==> b.payloadStart <= b.end
    ensures MediaBytes(boxes[..n]) <= (if n == 0 then 0 else boxes[n - 1].end - start) <= end - start
    decreases n
  {
    TilesCoverOnce(boxes, start, end);
    if n > 0 {
      MediaFits(boxes, start, end, n - 1);
      assert boxes[..n][..n - 1] == boxes[..n - 1];
      if n > 1 {
        assert boxes[n - 2].end <= boxes[n - 1].start;
      }
      TilesInside(boxes, start, end, boxes[n - 1]);
    }
  }

  lemma MediaStep(boxes: seq<Box>, start: nat, end: nat, i: nat)
    requires Tiles(boxes, start, end) && i < |boxes| && forall b :: b in boxes ==> b.payloadStart <= b.end
    ensures MediaBytes(boxes[..i + 1]) == MediaBytes(boxes[..i])
            + (if boxes[i].kind == MDAT then PayloadSize(boxes[i]) else 0)
    ensures MediaBytes(boxes[..i + 1]) <= end - start && boxes[i].end <= end
    ensures boxes[..i + 1] == boxes[..i] + [boxes[i]]
  {
    MediaFits(boxes, start, end, i + 1);
    TilesInside(boxes, start, end, boxes[i]);
    assert boxes[..i + 1][..i] == boxes[..i];
  }

  /** The sum over the top-level mdat boxes, in 64-bit arithmetic. It fails exactly on an empty
      payload: the other half of the source's guard, an overflow of the sum, cannot happen. */
  method SumMedia(data: Bytes, boxes: seq<Box>) returns (r: Option<uint64>)
    requires IsFile(data) && Tiles(boxes, 0, |data|)
    requires forall b :: b in boxes ==> b.payloadStart <= b.end
    ensures r.None? <==> exists b :: b in boxes && b.kind == MDAT && PayloadSize(b) == 0
    ensures r.Some? ==> r.value == MediaBytes(boxes) <= |data|
  {
    var media: uint64 := 0;
    for i := 0 to |boxes|
      invariant media == MediaBytes(boxes[..i]) <= |data|
      invariant forall b :: b in boxes[..i] && b.kind == MDAT ==> PayloadSize(b) > 0
    {
      MediaStep(boxes, 0, |data|, i);
      if boxes[i].kind == MDAT {
        var size: uint64 := boxes[i].end - boxes[i].payloadStart;
        if size == 0 {
          return None;
        }
        if media > MAX_UINT64 - size {
          assert false;
        }
        media := media + size;
      }
    }
    assert boxes[..|boxes|] == boxes;
    return Some(media);
  }

  // ---------------------------------------------------------------------------
  // Round trip
  // ---------------------------------------------------------------------------

  /** How the size of a box is written: in 32 bits, in 64 bits after a size field of one, or as zero,
      for a box that runs to the end. */
  datatype Form = Short | Long | ToEnd

  datatype Item = Item(kind: Bytes, payload: Bytes, form: Form)

  predicate ValidItem(x: Item) {
    && |x.kind| == 4
    && (x.form.Short? ==> |x.payload| + 8 < 0x1_0000_0000)
    && (x.form.Long? ==> |x.payload| + 16 <= MAX_UINT64)
  }

  /** Only the last box may run to the end. */
  predicate ValidItems(items: seq<Item>) {
    && (forall x :: x in items ==> ValidItem(x))
    && (forall i :: 0 <= i < |items| - 1 ==> !items[i].form.ToEnd?)
  }

  /** A size in the given number of bytes, as a value: what matters is that it reads back. */
  function SizeField(value: nat, width: nat): (b: Bytes)
    requires value < Power256(width)
    ensures |b| == width && BigEndian(b) == value
  {
    PutBigEndianRoundTrip(value, width);
    PutBigEndian(value, width)
  }

  function EncodeItem(x: Item): (r: Bytes)
    requires ValidItem(x)
    ensures |r| == (if x.form.Long? then 16 else 8) + |x.payload|
  {
    Powers();
    match x.form
    case Short => SizeField(8 + |x.payload|, 4) + x.kind + x.payload
    case Long => SizeField(1, 4) + x.kind + SizeField(16 + |x.payload|, 8) + x.payload
    case ToEnd => SizeField(0, 4) + x.kind + x.payload
  }

  /** The boxes one after the other. */
  function Encode(items: seq<Item>): Bytes
    requires forall x :: x in items ==> ValidItem(x)
  {
    if items == [] then [] else EncodeItem(items[0]) + Encode(items[1..])
  }

  predicate Holds(data: Bytes, b: Box, x: Item) {
    b.payloadStart <= b.end <= |data| && b.kind == x.kind && data[b.payloadStart..b.end] == x.payload
  }

  /** data holds e at offset n. */
  predicate HasAt(data: Bytes, n: nat, e: Bytes) { n + |e| <= |data| && data[n..n + |e|] == e }

  lemma HasParts(data: Bytes, n: nat, a: Bytes, b: Bytes)
    requires HasAt(data, n, a + b)
    ensures HasAt(data, n, a) && HasAt(data, n + |a|, b)
  {
    assert (a + b)[..|a|] == a && (a + b)[|a|..] == b;
  }

  lemma EncodedItemIsRead(data: Bytes, n: nat, x: Item, boundary: nat)
    requires ValidItem(x) && HasAt(data, n, EncodeItem(x)) && n + |EncodeItem(x)| <= boundary <= |data|
    requires x.form.ToEnd? ==> n + |EncodeItem(x)| == boundary
    ensures var r := ReadBox(data, n, boundary);
            r.Some? && r.value.end == n + |EncodeItem(x)| && Holds(data, r.value, x)
  {
    Powers();
    if x.form.Long? {
      var size, extended := SizeField(1, 4), SizeField(16 + |x.payload|, 8);
      HasParts(data, n, size + x.kind + extended, x.payload);
      HasParts(data, n, size + x.kind, extended);
      HasParts(data, n, size, x.kind);
    } else {
      var size := if x.form.Short? then SizeField(8 + |x.payload|, 4) else SizeField(0, 4);
      HasParts(data, n, size + x.kind, x.payload);
      HasParts(data, n, size, x.kind);
    }
  }

  predicate AllHold(data: Bytes, boxes: seq<Box>, items: seq<Item>)
    decreases |boxes|
  {
    |boxes| == |items| && (boxes != [] ==> Holds(data, boxes[0], items[0]) && AllHold(data, boxes[1..], items[1..]))
  }

  lemma WalkStep(data: Bytes, start: nat, end: nat, b: Box, rest: seq<Box>)
    requires start < end <= |data| && ReadBox(data, start, end) == Some(b) && Walk(data, b.end, end) == Some(rest)
    ensures Walk(data, start, end) == Some([b] + rest)
  {}

  lemma AllHoldStep(data: Bytes, b: Box, boxes: seq<Box>, x: Item, items: seq<Item>)
    requires Holds(data, b, x) && AllHold(data, boxes, items)
    ensures AllHold(data, [b] + boxes, [x] + items)
  {
    assert ([b] + boxes)[1..] == boxes && ([x] + items)[1..] == items;
  }

  /** At n a box holding x is read, below the boundary. */
  predicate ReadsHere(data: Bytes, n: nat, x: Item, end: nat) {
    n < end <= |data| && ReadBox(data, n, end).Some? && Holds(data, ReadBox(data, n, end).value, x)
  }

  /** From n to end the items are read one after the other. */
  predicate Laid(data: Bytes, n: nat, items: seq<Item>, end: nat)
    decreases |items|
  {
    if items == [] then n == end <= |data|
    else ReadsHere(data, n, items[0], end) && Laid(data, ReadBox(data, n, end).value.end, items[1..], end)
  }

  lemma {:induction false} WalkReadsLaid(data: Bytes, n: nat, items: seq<Item>, end: nat)
    requires Laid(data, n, items, end)
    ensures n <= end <= |data| && Walk(data, n, end).Some? && AllHold(data, Walk(data, n, end).value, items)
    decreases |items|
  {
    if items != [] {
      var b := ReadBox(data, n, end).value;
      WalkReadsLaid(data, b.end, items[1..], end);
      var boxes := Walk(data, b.end, end).value;
      WalkStep(data, n, end, b, boxes);
      AllHoldStep(data, b, boxes, items[0], items[1..]);
      assert [items[0]] + items[1..] == items;
    }
  }

  /** The first written item is read where it stands, and the rest comes after it. */
  lemma FirstIsRead(data: Bytes, n: nat, x: Item, rest: Bytes, end: nat)
    requires ValidItem(x) && HasAt(data, n, EncodeItem(x) + rest) && end == n + |EncodeItem(x)| + |rest|
    requires x.form.ToEnd? ==> rest == []
    ensures ReadsHere(data, n, x, end) && ReadBox(data, n, end).value.end == n + |EncodeItem(x)|
    ensures HasAt(data, n + |EncodeItem(x)|, rest)
  {
    HasParts(data, n, EncodeItem(x), rest);
    EncodedItemIsRead(data, n, x, end);
  }

  lemma LaidInFront(data: Bytes, n: nat, items: seq<Item>, end: nat, next: nat)
    requires items != [] && ReadsHere(data, n, items[0], end) && ReadBox(data, n, end).value.end == next
    requires Laid(data, next, items[1..], end)
    ensures Laid(data, n, items, end)
  {}

  lemma EncodeSplits(items: seq<Item>)
    requires items != [] && forall x :: x in items ==> ValidItem(x)
    ensures Encode(items) == EncodeItem(items[0]) + Encode(items[1..])
    ensures |Encode(items)| == |EncodeItem(items[0])| + |Encode(items[1..])|
  {}

  /** The written items stand between n and end. */
  ghost predicate Written(data: Bytes, n: nat, items: seq<Item>, end: nat) {
    ValidItems(items) && HasAt(data, n, Encode(items)) && end == n + |Encode(items)|
  }

  /** An item in front of what is laid out from next on. */
  lemma FirstIsLaid(data: Bytes, n: nat, items: seq<Item>, rest: Bytes, end: nat, next: nat)
    requires items != [] && ValidItem(items[0]) && HasAt(data, n, EncodeItem(items[0]) + rest)
    requires next == n + |EncodeItem(items[0])| && end == next + |rest| && (items[0].form.ToEnd? ==> rest == [])
    ensures HasAt(data, next, rest)
    ensures Laid(data, next, items[1..], end) ==> Laid(data, n, items, end)
  {
    FirstIsRead(data, n, items[0], rest, end);
    if Laid(data, next, items[1..], end) {
      LaidInFront(data, n, items, end, next);
    }
  }

  lemma RestIsValid(items: seq<Item>)
    requires ValidItems(items) && items != []
    ensures ValidItem(items[0]) && ValidItems(items[1..]) && (items[0].form.ToEnd? ==> Encode(items[1..]) == [])
  {
    if items[0].form.ToEnd? {
      assert items[1..] == [];
    }
  }

  lemma {:induction false} EncodeIsLaid(data: Bytes, n: nat, items: seq<Item>, end: nat)
    requires Written(data, n, items, end)
    ensures Laid(data, n, items, end)
    decreases |items|
  {
    if items != [] {
      var next := n + |EncodeItem(items[0])|;
      EncodeSplits(items);
      RestIsValid(items);
      FirstIsLaid(data, n, items, Encode(items[1..]), end, next);
      EncodeIsLaid(data, next, items[1..], end);
    }
  }

  /** Walking what was written gives the boxes that were written, in order, wherever it stands. */
  lemma WalkInvertsEncode(data: Bytes, n: nat, items: seq<Item>, end: nat)
    requires Written(data, n, items, end)
    ensures Walk(data, n, end).Some? && AllHold(data, Walk(data, n, end).value, items)
  {
    EncodeIsLaid(data, n, items, end);
    WalkReadsLaid(data, n, items, end);
  }

  // ---------------------------------------------------------------------------
  // Nothing else is read
  // ---------------------------------------------------------------------------

  lemma HasWhole(data: Bytes, n: nat, a: Bytes, b: Bytes)
    requires HasAt(data, n, a) && HasAt(data, n + |a|, b)
    ensures HasAt(data, n, a + b)
  {
    assert data[n..n + |a + b|] == data[n..n + |a|] + data[n + |a|..n + |a| + |b|];
  }

  /** The size field is the writing of its value. */
  lemma SizeIsWritten(data: Bytes, n: nat, width: nat)
    requires n + width <= |data|
    ensures BigEndian(data[n..n + width]) < Power256(width)
    ensures HasAt(data, n, SizeField(BigEndian(data[n..n + width]), width))
  {
    BigEndianIsPut(data[n..n + width]);
  }

  lemma ShortOrToEndIsWritten(data: Bytes, n: nat, x: Item, size: nat)
    requires ValidItem(x) && !x.form.Long? && n + 8 + |x.payload| <= |data|
    requires size == (if x.form.ToEnd? then 0 else 8 + |x.payload|) && BigEndian(data[n..n + 4]) == size
    requires data[n + 4..n + 8] == x.kind && data[n + 8..n + 8 + |x.payload|] == x.payload
    ensures HasAt(data, n, EncodeItem(x))
  {
    Powers();
    SizeIsWritten(data, n, 4);
    HasWhole(data, n, SizeField(size, 4), x.kind);
    HasWhole(data, n, SizeField(size, 4) + x.kind, x.payload);
  }

  lemma LongIsWritten(data: Bytes, n: nat, x: Item)
    requires ValidItem(x) && x.form.Long? && n + 16 + |x.payload| <= |data|
    requires BigEndian(data[n..n + 4]) == 1 && BigEndian(data[n + 8..n + 16]) == 16 + |x.payload|
    requires data[n + 4..n + 8] == x.kind && data[n + 16..n + 16 + |x.payload|] == x.payload
    ensures HasAt(data, n, EncodeItem(x))
  {
    Powers();
    SizeIsWritten(data, n, 4);
    SizeIsWritten(data, n + 8, 8);
    var size, extended := SizeField(1, 4), SizeField(16 + |x.payload|, 8);
    HasWhole(data, n, size, x.kind);
    HasWhole(data, n, size + x.kind, extended);
    HasWhole(data, n, size + x.kind + extended, x.payload);
  }

  /** The item a box stands for. */
  function ItemOf(data: Bytes, b: Box): Item
    requires b.start + 8 <= b.payloadStart <= b.end <= |data|
  {
    var declared := BigUint32(data[b.start..b.start + 4]);
    Item(b.kind, data[b.payloadStart..b.end], if declared == 0 then ToEnd else if declared == 1 then Long else Short)
  }

  /** Every box that is read below a boundary is one that the encoding writes there, in one of the
      three forms, with the same kind and payload; in the third it ends at the boundary. */
  lemma ReadBoxIsWritten(data: Bytes, n: nat, boundary: nat)
    requires n < boundary <= |data| && ReadBox(data, n, boundary).Some?
    ensures var b := ReadBox(data, n, boundary).value;
            var x := ItemOf(data, b);
            && ValidItem(x) && HasAt(data, n, EncodeItem(x)) && Holds(data, b, x) && b.end == n + |EncodeItem(x)|
            && (x.form.ToEnd? ==> b.end == boundary)
  {
    var b := ReadBox(data, n, boundary).value;
    var x := ItemOf(data, b);
    if x.form.Long? {
      LongIsWritten(data, n, x);
    } else {
      ShortOrToEndIsWritten(data, n, x, BigUint32(data[n..n + 4]));
    }
  }

  lemma WrittenInFront(data: Bytes, n: nat, x: Item, items: seq<Item>, end: nat)
    requires ValidItem(x) && HasAt(data, n, EncodeItem(x)) && Written(data, n + |EncodeItem(x)|, items, end)
    requires x.form.ToEnd? ==> items == []
    ensures Written(data, n, [x] + items, end)
  {
    var all := [x] + items;
    assert all[1..] == items;
    assert forall i :: 0 < i < |all| - 1 ==> all[i] == items[i - 1];
    HasWhole(data, n, EncodeItem(x), Encode(items));
    EncodeSplits(all);
  }

  /** The box is where the item was written, in a form that may stand there. */
  ghost predicate WritesBox(data: Bytes, n: nat, b: Box, x: Item, end: nat) {
    && ValidItem(x) && HasAt(data, n, EncodeItem(x)) && Holds(data, b, x) && b.end == n + |EncodeItem(x)|
    && (x.form.ToEnd? ==> b.end == end)
  }

  lemma BoxInFront(data: Bytes, n: nat, b: Box, x: Item, rest: seq<Item>, end: nat)
    requires WritesBox(data, n, b, x, end) && Written(data, b.end, rest, end)
    ensures Written(data, n, [x] + rest, end)
  {
    if x.form.ToEnd? {
      NothingAfterEnd(data, end, rest);
    }
    assert Written(data, n + |EncodeItem(x)|, rest, end);
    WrittenInFront(data, n, x, rest, end);
  }

  lemma FirstBox(data: Bytes, n: nat, end: nat) returns (b: Box, x: Item)
    requires n < end <= |data| && Walk(data, n, end).Some?
    ensures n < b.end <= end && ReadBox(data, n, end) == Some(b) && WritesBox(data, n, b, x, end)
    ensures Walk(data, b.end, end).Some? && Walk(data, n, end).value == [b] + Walk(data, b.end, end).value
  {
    b := ReadBox(data, n, end).value;
    ReadBoxIsWritten(data, n, end);
    x := ItemOf(data, b);
  }

  /** So a range is walked successfully only if it is the writing of some boxes, which are the ones
      the walk gives. */
  lemma {:induction false} WalkedIsWritten(data: Bytes, n: nat, end: nat) returns (items: seq<Item>)
    requires n <= end <= |data| && Walk(data, n, end).Some?
    ensures Written(data, n, items, end) && AllHold(data, Walk(data, n, end).value, items)
    decreases end - n
  {
    if n == end {
      items := [];
    } else {
      var b, x := FirstBox(data, n, end);
      var rest := WalkedIsWritten(data, b.end, end);
      BoxInFront(data, n, b, x, rest, end);
      AllHoldStep(data, b, Walk(data, b.end, end).value, x, rest);
      items := [x] + rest;
    }
  }

  lemma NothingAfterEnd(data: Bytes, end: nat, items: seq<Item>)
    requires Written(data, end, items, end)
    ensures items == []
  {
    if items != [] {
      EncodeSplits(items);
    }
  }
}
