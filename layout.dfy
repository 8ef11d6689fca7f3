/**
 * Size and shape facts about layouts: the width of fields whose size does not
 * depend on the input, records made only of such fields, lists of those
 * records, and the recomputation of length prefixes before encoding.
 */
module Layout {
  import opened Wrappers
  import opened Bytes
  import opened Codec

  // ---------------------------------------------------------------------------
  // Static widths

  /** The byte width of a field kind, when it does not depend on the input. */
  function StaticWidth(k: Kind): Option<nat> {
    match k
    case Num(fmt) => Some(fmt.width)
    case Enum(fmt) => Some(fmt.width)
    case LenOf(fmt, _) => Some(fmt.width)
    case Fixed(w) => Some(w)
    case _ => None
  }

  /** Every field from position `i` on has a positive static width. */
  predicate StaticFrom(s: Schema, i: nat) {
    forall m :: i <= m < |s.fields| ==> StaticWidth(s.fields[m].kind).Some? && StaticWidth(s.fields[m].kind).value > 0
  }

  /** The bytes taken by the present slots from position `i` on. */
  function PresentWidth(s: Schema, slots: seq<Slot>, i: nat): nat
    requires i <= |slots| <= |s.fields|
    decreases |slots| - i
  {
    if i == |slots| then 0
    else
      var k := s.fields[i].kind;
      (if slots[i].Present? && StaticWidth(k).Some? then StaticWidth(k).value else 0) + PresentWidth(s, slots, i + 1)
  }

  /** A run of absent slots adds nothing to the present width. */
  lemma {:induction false} AbsentRun(s: Schema, slots: seq<Slot>, i: nat, j: nat)
    requires i <= j <= |slots| <= |s.fields|
    requires forall m :: i <= m < j ==> slots[m].Absent?
    ensures PresentWidth(s, slots, i) == PresentWidth(s, slots, j)
    decreases j - i
  {
    if i < j {
      AbsentRun(s, slots, i + 1, j);
    }
  }

  /** A run of present slots, each of static width `w`, adds `w` per slot. */
  lemma {:induction false} UniformRun(s: Schema, slots: seq<Slot>, i: nat, j: nat, w: nat)
    requires i <= j <= |slots| <= |s.fields|
    requires forall m :: i <= m < j ==> slots[m].Present? && StaticWidth(s.fields[m].kind) == Some(w)
    ensures PresentWidth(s, slots, i) == (j - i) * w + PresentWidth(s, slots, j)
    decreases j - i
  {
    if i < j {
      UniformRun(s, slots, i + 1, j, w);
      MulSucc(j - i - 1, w);
    }
  }

  /** A value that fits a static kind encodes to exactly the kind's width and decodes back. */
  lemma StaticValueRoundTrip(s: Schema, prior: seq<Slot>, v: Value, tail: seq<byte>)
    requires |prior| < |s.fields|
    requires StaticWidth(s.fields[|prior|].kind).Some?
    requires ValueFits(s.fields[|prior|].kind, s.fields, prior, v)
    ensures EncodeValue(s, prior, v).Ok?
    ensures |EncodeValue(s, prior, v).value| == StaticWidth(s.fields[|prior|].kind).value
    ensures DecodeValue(s, prior, EncodeValue(s, prior, v).value + tail) == Ok((v, tail))
  {
    var h := EncodeValue(s, prior, v).value;
    match s.fields[|prior|].kind
    case Num(fmt) =>
      IntBytesInverse(fmt, v.n);
      assert (h + tail)[..fmt.width] == h && (h + tail)[fmt.width..] == tail;
    case Enum(fmt) =>
      IntBytesInverse(fmt, v.n);
      assert (h + tail)[..fmt.width] == h && (h + tail)[fmt.width..] == tail;
    case LenOf(fmt, _) =>
      IntBytesInverse(fmt, v.n);
      assert (h + tail)[..fmt.width] == h && (h + tail)[fmt.width..] == tail;
    case Fixed(w) =>
      assert h == v.b + Zeros(0) == v.b;
      assert (h + tail)[..w] == h && (h + tail)[w..] == tail;
  }

  /** One slot of a static kind: encode then decode gives back the slot and the bytes after it. */
  lemma StaticSlotRoundTrip(s: Schema, prior: seq<Slot>, slot: Slot, tail: seq<byte>)
    requires |prior| < |s.fields|
    requires StaticWidth(s.fields[|prior|].kind).Some?
    requires Eval(s.fields[|prior|].cond, s.fields, prior) == Some(slot.Present?)
    requires slot.Present? ==> ValueFits(s.fields[|prior|].kind, s.fields, prior, slot.value)
    ensures EncodeSlot(s, prior, slot).Ok?
    ensures |EncodeSlot(s, prior, slot).value| == if slot.Present? then StaticWidth(s.fields[|prior|].kind).value else 0
    ensures DecodeSlot(s, prior, EncodeSlot(s, prior, slot).value + tail) == Ok((slot, tail))
  {
    if slot.Present? {
      StaticValueRoundTrip(s, prior, slot.value, tail);
    } else {
      assert EncodeSlot(s, prior, slot).value + tail == tail;
    }
  }

  /** A static kind decodes from any input at least as long as its width, consuming exactly that width. */
  lemma StaticDecode(s: Schema, prior: seq<Slot>, bs: seq<byte>)
    requires |prior| < |s.fields|
    requires StaticWidth(s.fields[|prior|].kind).Some? && |bs| >= StaticWidth(s.fields[|prior|].kind).value
    ensures DecodeValue(s, prior, bs).Ok?
    ensures DecodeValue(s, prior, bs).value.1 == bs[StaticWidth(s.fields[|prior|].kind).value..]
  {
  }

  /** Conforming slots of static kinds encode to exactly their present widths. */
  lemma {:induction false} EncodeStaticLength(s: Schema, slots: seq<Slot>, i: nat)
    requires Conforms(s, slots) && i <= |slots|
    requires forall m :: i <= m < |slots| ==> StaticWidth(s.fields[m].kind).Some?
    ensures EncodeFields(s, slots, i).Ok?
    ensures |EncodeFields(s, slots, i).value| == PresentWidth(s, slots, i)
    decreases |slots| - i
  {
    if i < |slots| {
      assert SlotFits(s, slots, i);
      if slots[i].Present? {
        StaticValueRoundTrip(s, slots[..i], slots[i].value, []);
      }
      EncodeStaticLength(s, slots, i + 1);
    }
  }

  lemma {:induction false} PresentWidthPositive(s: Schema, slots: seq<Slot>, i: nat)
    requires i < |slots| <= |s.fields| && StaticFrom(s, 0)
    requires slots[|slots| - 1].Present?
    ensures PresentWidth(s, slots, i) > 0
    decreases |slots| - i
  {
    if i < |slots| - 1 {
      PresentWidthPositive(s, slots, i + 1);
    }
  }

  /**
   * Encode then decode is the identity on complete conforming slots of static
   * kinds, provided the input does not run out before the last field: either
   * bytes follow the record or its last field is present.
   */
  lemma {:induction false} EncodeDecodeStaticFields(s: Schema, slots: seq<Slot>, payload: seq<byte>, i: nat)
    requires Conforms(s, slots) && |slots| == |s.fields| && StaticFrom(s, 0) && i <= |slots|
    requires payload != [] || (|slots| > 0 && slots[|slots| - 1].Present?)
    ensures EncodeFields(s, slots, i).Ok?
    ensures DecodeFields(s, slots[..i], EncodeFields(s, slots, i).value + payload) == Ok((slots, payload))
    decreases |slots| - i
  {
    EncodeStaticLength(s, slots, i);
    if i == |slots| {
      assert slots[..i] == slots;
      assert EncodeFields(s, slots, i).value + payload == payload;
    } else {
      var prior := slots[..i];
      assert SlotFits(s, slots, i);
      EncodeDecodeStaticFields(s, slots, payload, i + 1);
      var tail := EncodeFields(s, slots, i + 1).value;
      if !slots[i].Present? && payload == [] {
        PresentWidthPositive(s, slots, i + 1);
        EncodeStaticLength(s, slots, i + 1);
      }
      StaticFieldStep(s, prior, slots[i], tail + payload);
      var head := EncodeSlot(s, prior, slots[i]).value;
      EncodeFieldsStep(s, slots, i);
      AppendAssoc(head, tail, payload);
      TakeSnoc(slots, i);
      calc {
        DecodeFields(s, prior, EncodeFields(s, slots, i).value + payload);
        DecodeFields(s, prior, head + (tail + payload));
        DecodeFields(s, prior + [slots[i]], tail + payload);
        DecodeFields(s, slots[..i + 1], tail + payload);
      }
    }
  }

  lemma AppendAssoc(a: seq<byte>, b: seq<byte>, c: seq<byte>)
    ensures (a + b) + c == a + (b + c)
  {
  }

  lemma TakeSnoc(slots: seq<Slot>, i: nat)
    requires i < |slots|
    ensures slots[..i] + [slots[i]] == slots[..i + 1]
  {
  }

  /** Decoding the encoding of one static slot, followed by more input, moves on to the next field. */
  lemma StaticFieldStep(s: Schema, prior: seq<Slot>, slot: Slot, tail: seq<byte>)
    requires |prior| < |s.fields|
    requires StaticWidth(s.fields[|prior|].kind).Some? && StaticWidth(s.fields[|prior|].kind).value > 0
    requires Eval(s.fields[|prior|].cond, s.fields, prior) == Some(slot.Present?)
    requires slot.Present? ==> ValueFits(s.fields[|prior|].kind, s.fields, prior, slot.value)
    requires slot.Present? || tail != []
    ensures EncodeSlot(s, prior, slot).Ok?
    ensures DecodeFields(s, prior, EncodeSlot(s, prior, slot).value + tail) == DecodeFields(s, prior + [slot], tail)
  {
    StaticSlotRoundTrip(s, prior, slot, tail);
    DecodeFieldsStep(s, prior, EncodeSlot(s, prior, slot).value + tail);
  }

  lemma EncodeDecodeStatic(s: Schema, p: Packet)
    requires Conforms(s, p.slots) && |p.slots| == |s.fields| && StaticFrom(s, 0)
    requires p.payload != [] || (|p.slots| > 0 && p.slots[|p.slots| - 1].Present?)
    ensures Encode(s, p).Ok? && Decode(s, Encode(s, p).value) == Ok(p)
  {
    EncodeDecodeStaticFields(s, p.slots, p.payload, 0);
    assert p.slots[..0] == [];
  }

  // ---------------------------------------------------------------------------
  // Fixed records: every field unconditional and of positive static width

  /** The total width of `fields`, when all of them are unconditional and static. */
  function FixedWidth(fields: seq<Field>): Option<nat> {
    if |fields| == 0 then Some(0)
    else
      var w := StaticWidth(fields[0].kind);
      var rest := FixedWidth(fields[1..]);
      if fields[0].cond == Always && w.Some? && w.value > 0 && rest.Some? then Some(w.value + rest.value)
      else None
  }

  predicate FixedRecord(s: Schema) {
    |s.fields| > 0 && FixedWidth(s.fields).Some?
  }

  function RecordWidth(s: Schema): (w: nat)
    requires FixedRecord(s)
    ensures w > 0
  {
    FixedFieldAt(s.fields, 0);
    FixedWidth(s.fields).value
  }

  lemma {:induction false} FixedWidthAppend(a: seq<Field>, b: seq<Field>)
    ensures FixedWidth(a + b) ==
      if FixedWidth(a).Some? && FixedWidth(b).Some? then Some(FixedWidth(a).value + FixedWidth(b).value) else None
  {
    if |a| == 0 {
      assert a + b == b;
    } else {
      assert (a + b)[0] == a[0];
      assert (a + b)[1..] == a[1..] + b;
      FixedWidthAppend(a[1..], b);
    }
  }

  /** FixedWidth of `fields[i..]`, computed by position rather than by slicing. */
  function IndexedWidth(fields: seq<Field>, i: nat): Option<nat>
    decreases |fields| - i
  {
    if i >= |fields| then Some(0)
    else
      var w := StaticWidth(fields[i].kind);
      var rest := IndexedWidth(fields, i + 1);
      if fields[i].cond == Always && w.Some? && w.value > 0 && rest.Some? then Some(w.value + rest.value)
      else None
  }

  lemma {:induction false} FixedWidthIndexed(fields: seq<Field>, i: nat)
    requires i <= |fields|
    ensures FixedWidth(fields[i..]) == IndexedWidth(fields, i)
    decreases |fields| - i
  {
    if i < |fields| {
      var tail := fields[i..];
      assert tail[0] == fields[i];
      assert tail[1..] == fields[i + 1..];
      FixedWidthIndexed(fields, i + 1);
    } else {
      assert fields[i..] == [];
    }
  }

  lemma {:induction false} FixedFieldAt(fields: seq<Field>, m: nat)
    requires FixedWidth(fields).Some? && m < |fields|
    ensures fields[m].cond == Always
    ensures StaticWidth(fields[m].kind).Some? && 0 < StaticWidth(fields[m].kind).value <= FixedWidth(fields).value
  {
    if m > 0 {
      FixedFieldAt(fields[1..], m - 1);
    }
  }

  lemma FixedIsStatic(s: Schema)
    requires FixedRecord(s)
    ensures StaticFrom(s, 0)
  {
    forall m | 0 <= m < |s.fields| ensures StaticWidth(s.fields[m].kind).Some? && StaticWidth(s.fields[m].kind).value > 0 {
      FixedFieldAt(s.fields, m);
    }
  }

  /** In a fixed record every conforming slot is present. */
  lemma FixedAllPresent(s: Schema, slots: seq<Slot>, m: nat)
    requires FixedRecord(s) && Conforms(s, slots) && m < |slots|
    ensures slots[m].Present?
  {
    assert SlotFits(s, slots, m);
    FixedFieldAt(s.fields, m);
  }

  lemma {:induction false} FixedPresentWidth(s: Schema, slots: seq<Slot>, i: nat)
    requires FixedRecord(s) && Conforms(s, slots) && |slots| == |s.fields| && i <= |slots|
    ensures FixedWidth(s.fields[i..]).Some?
    ensures PresentWidth(s, slots, i) == FixedWidth(s.fields[i..]).value
    decreases |slots| - i
  {
    if i == |slots| {
    } else {
      FixedPresentWidth(s, slots, i + 1);
      FixedAllPresent(s, slots, i);
      FixedSuffix(s.fields, i);
      assert s.fields[i..][0] == s.fields[i];
      assert s.fields[i..][1..] == s.fields[i + 1..];
    }
  }

  lemma {:induction false} FixedSuffix(fields: seq<Field>, i: nat)
    requires FixedWidth(fields).Some? && i <= |fields|
    ensures FixedWidth(fields[i..]).Some?
  {
    if i > 0 {
      assert fields[i..] == fields[1..][i - 1..];
      FixedSuffix(fields[1..], i - 1);
    }
  }

  /** A complete record of a fixed layout encodes to exactly its width and decodes back. */
  lemma FixedRoundTrip(s: Schema, p: Packet)
    requires FixedRecord(s) && Conforms(s, p.slots) && |p.slots| == |s.fields|
    ensures Encode(s, p).Ok?
    ensures |Encode(s, p).value| == RecordWidth(s) + |p.payload|
    ensures Decode(s, Encode(s, p).value) == Ok(p)
  {
    FixedIsStatic(s);
    FixedAllPresent(s, p.slots, |p.slots| - 1);
    EncodeStaticLength(s, p.slots, 0);
    FixedPresentWidth(s, p.slots, 0);
    assert s.fields[0..] == s.fields;
    EncodeDecodeStatic(s, p);
  }

  /** Decoding a fixed record never fails on enough input and consumes exactly its width. */
  lemma {:induction false} FixedDecodeFields(s: Schema, acc: seq<Slot>, bs: seq<byte>)
    requires |acc| <= |s.fields|
    requires FixedWidth(s.fields[|acc|..]).Some? && |bs| >= FixedWidth(s.fields[|acc|..]).value
    ensures DecodeFields(s, acc, bs).Ok?
    ensures |DecodeFields(s, acc, bs).value.0| == |s.fields|
    ensures DecodeFields(s, acc, bs).value.1 == bs[FixedWidth(s.fields[|acc|..]).value..]
    decreases |s.fields| - |acc|
  {
    if |acc| == |s.fields| {
      assert s.fields[|acc|..] == [];
      assert bs[0..] == bs;
    } else {
      FixedTailStep(s.fields, |acc|);
      var w := StaticWidth(s.fields[|acc|].kind).value;
      var slot := FixedSlotDecode(s, acc, bs);
      var acc' := acc + [slot];
      assert |acc'| == |acc| + 1;
      FixedDecodeFields(s, acc', bs[w..]);
      var n := FixedWidth(s.fields[|acc| + 1..]).value;
      DropDrop(bs, w, n);
      var r := DecodeFields(s, acc', bs[w..]);
      assert r.Ok? && |r.value.0| == |s.fields| && r.value.1 == bs[w + n..];
      assert DecodeFields(s, acc, bs) == r;
    }
  }

  /** The width of a fixed tail is its first field's width plus the width of the rest. */
  lemma FixedTailStep(fields: seq<Field>, i: nat)
    requires i < |fields| && FixedWidth(fields[i..]).Some?
    ensures fields[i].cond == Always && StaticWidth(fields[i].kind).Some? && StaticWidth(fields[i].kind).value > 0
    ensures FixedWidth(fields[i + 1..]).Some?
    ensures FixedWidth(fields[i..]).value == StaticWidth(fields[i].kind).value + FixedWidth(fields[i + 1..]).value
  {
    var tail := fields[i..];
    assert tail[0] == fields[i];
    assert tail[1..] == fields[i + 1..];
  }

  /** An unconditional static field decodes to one slot and consumes exactly its width. */
  lemma FixedSlotDecode(s: Schema, acc: seq<Slot>, bs: seq<byte>) returns (slot: Slot)
    requires |acc| < |s.fields| && s.fields[|acc|].cond == Always
    requires StaticWidth(s.fields[|acc|].kind).Some? && 0 < StaticWidth(s.fields[|acc|].kind).value <= |bs|
    ensures DecodeFields(s, acc, bs) == DecodeFields(s, acc + [slot], bs[StaticWidth(s.fields[|acc|].kind).value..])
  {
    StaticDecode(s, acc, bs);
    slot := DecodeSlot(s, acc, bs).value.0;
    DecodeFieldsStep(s, acc, bs);
  }

  lemma DropDrop(bs: seq<byte>, m: nat, n: nat)
    requires m + n <= |bs|
    ensures bs[m..][n..] == bs[m + n..]
  {
  }

  /**
   * Input that is non-empty but shorter than a fixed record, by less than the
   * width of the record's last field, makes decoding fail: the last field is
   * reached with too few bytes.
   */
  lemma {:induction false} FixedShortFails(s: Schema, acc: seq<Slot>, bs: seq<byte>)
    requires |acc| < |s.fields| && FixedWidth(s.fields[|acc|..]).Some?
    requires StaticWidth(s.fields[|s.fields| - 1].kind).Some?
    requires FixedWidth(s.fields[|acc|..]).value - StaticWidth(s.fields[|s.fields| - 1].kind).value < |bs|
    requires |bs| < FixedWidth(s.fields[|acc|..]).value
    ensures DecodeFields(s, acc, bs).Err?
    decreases |s.fields| - |acc|
  {
    FixedTailStep(s.fields, |acc|);
    var w := StaticWidth(s.fields[|acc|].kind).value;
    if |acc| == |s.fields| - 1 {
      assert s.fields[|acc| + 1..] == [];
      StaticShort(s, acc, bs);
    } else {
      FixedLastWithin(s.fields, |acc| + 1);
      var slot := FixedSlotDecode(s, acc, bs);
      FixedShortFails(s, acc + [slot], bs[w..]);
    }
  }

  /** The last field of a fixed tail is no wider than the tail. */
  lemma FixedLastWithin(fields: seq<Field>, i: nat)
    requires i < |fields| && FixedWidth(fields[i..]).Some?
    ensures StaticWidth(fields[|fields| - 1].kind).Some?
    ensures StaticWidth(fields[|fields| - 1].kind).value <= FixedWidth(fields[i..]).value
  {
    FixedFieldAt(fields[i..], |fields| - 1 - i);
    assert fields[i..][|fields| - 1 - i] == fields[|fields| - 1];
  }

  /** An unconditional static field with too few (but some) bytes left fails to decode. */
  lemma StaticShort(s: Schema, acc: seq<Slot>, bs: seq<byte>)
    requires |acc| < |s.fields| && s.fields[|acc|].cond == Always
    requires StaticWidth(s.fields[|acc|].kind).Some? && 0 < |bs| < StaticWidth(s.fields[|acc|].kind).value
    ensures DecodeFields(s, acc, bs).Err?
  {
    var k := s.fields[|acc|].kind;
    assert DecodeScalar(k, s.fields, acc, bs).Err?;
    assert DecodeValue(s, acc, bs).Err?;
    assert DecodeSlot(s, acc, bs).Err?;
  }

  lemma FixedDecode(s: Schema, bs: seq<byte>)
    requires FixedRecord(s) && |bs| >= RecordWidth(s)
    ensures Decode(s, bs).Ok?
    ensures |Decode(s, bs).value.slots| == |s.fields|
    ensures Decode(s, bs).value.payload == bs[RecordWidth(s)..]
  {
    assert s.fields[0..] == s.fields;
    FixedDecodeFields(s, [], bs);
  }

  // ---------------------------------------------------------------------------
  // Fixed records cut to a slice

  /** A slice exactly as wide as the fixed record it holds decodes to the whole record, with nothing left over. */
  lemma FixedSliceDecode(s: Schema, acc: seq<Slot>, bs: seq<byte>)
    requires |acc| < |s.fields| && s.fields[|acc|].kind.Slice?
    requires FixedRecord(s.fields[|acc|].kind.schema)
    requires RecordWidth(s.fields[|acc|].kind.schema) == s.fields[|acc|].kind.size <= |bs|
    ensures DecodeValue(s, acc, bs).Ok?
    ensures DecodeValue(s, acc, bs).value.0.Record?
    ensures |DecodeValue(s, acc, bs).value.0.slots| == |s.fields[|acc|].kind.schema.fields|
    ensures DecodeValue(s, acc, bs).value.0.trailer == []
    ensures DecodeValue(s, acc, bs).value.1 == bs[s.fields[|acc|].kind.size..]
  {
    var sub := s.fields[|acc|].kind.schema;
    var size := s.fields[|acc|].kind.size;
    FixedDecode(sub, bs[..size]);
    assert bs[..size][size..] == [];
  }

  /**
   * A slice narrower than the fixed record it holds, by less than the width of
   * the record's last field, never decodes.
   */
  lemma NarrowSliceFails(s: Schema, acc: seq<Slot>, bs: seq<byte>)
    requires |acc| < |s.fields| && s.fields[|acc|].kind.Slice?
    requires FixedRecord(s.fields[|acc|].kind.schema)
    requires var sub := s.fields[|acc|].kind.schema;
      StaticWidth(sub.fields[|sub.fields| - 1].kind).Some? &&
      RecordWidth(sub) - StaticWidth(sub.fields[|sub.fields| - 1].kind).value < s.fields[|acc|].kind.size < RecordWidth(sub)
    ensures DecodeValue(s, acc, bs).Err?
  {
    var sub := s.fields[|acc|].kind.schema;
    var size := s.fields[|acc|].kind.size;
    if |bs| >= size {
      assert sub.fields[0..] == sub.fields;
      FixedShortFails(sub, [], bs[..size]);
    }
  }

  // ---------------------------------------------------------------------------
  // Lists of fixed records

  /** One complete fixed record followed by any bytes decodes back to itself and those bytes. */
  lemma FixedItemRoundTrip(sub: Schema, item: seq<Slot>, tail: seq<byte>)
    requires FixedRecord(sub) && Conforms(sub, item) && |item| == |sub.fields|
    ensures EncodeFields(sub, item, 0).Ok?
    ensures |EncodeFields(sub, item, 0).value| == RecordWidth(sub)
    ensures DecodeFields(sub, [], EncodeFields(sub, item, 0).value + tail) == Ok((item, tail))
  {
    FixedRoundTrip(sub, Packet(item, tail));
  }

  /** A list of complete fixed records decodes back from its encoding. */
  lemma {:induction false} FixedListRoundTrip(sub: Schema, items: seq<seq<Slot>>)
    requires FixedRecord(sub)
    requires forall k :: 0 <= k < |items| ==> Conforms(sub, items[k]) && |items[k]| == |sub.fields|
    ensures EncodeList(sub, items).Ok?
    ensures DecodeList(sub, EncodeList(sub, items).value) == Ok(items)
    decreases |items|
  {
    if |items| > 0 {
      var item := items[0];
      FixedListRoundTrip(sub, items[1..]);
      var tail := EncodeList(sub, items[1..]).value;
      FixedItemRoundTrip(sub, item, tail);
      var head := EncodeFields(sub, item, 0).value;
      EncodeListStep(sub, items);
      DecodeListStep(sub, head + tail, item, tail);
      ConsTail(items);
    } else {
      assert items == [];
    }
  }

  /** A list of k complete fixed records takes k times the record width. */
  lemma {:induction false} FixedListLength(sub: Schema, items: seq<seq<Slot>>)
    requires FixedRecord(sub)
    requires forall k :: 0 <= k < |items| ==> Conforms(sub, items[k]) && |items[k]| == |sub.fields|
    ensures EncodeList(sub, items).Ok?
    ensures |EncodeList(sub, items).value| == |items| * RecordWidth(sub)
    decreases |items|
  {
    if |items| > 0 {
      FixedListLength(sub, items[1..]);
      FixedItemRoundTrip(sub, items[0], []);
      EncodeListStep(sub, items);
      MulSucc(|items| - 1, RecordWidth(sub));
    } else {
      assert items == [];
    }
  }

  lemma ConsTail(items: seq<seq<Slot>>)
    requires |items| > 0
    ensures [items[0]] + items[1..] == items
  {
  }

  lemma MulSucc(n: nat, w: nat)
    ensures (n + 1) * w == w + n * w
  {
  }

  // ---------------------------------------------------------------------------
  // Conditions over earlier fields

  /** One more than the highest field position condition `c` reads (0 when it reads none). */
  function Reads(c: Cond): nat {
    match c
    case Always => 0
    case Eq(f, _) => f + 1
    case Ne(f, _) => f + 1
    case In(f, _) => f + 1
    case NotIn(f, _) => f + 1
    case Gt(f, _) => f + 1
    case And(a, b) => if Reads(a) < Reads(b) then Reads(b) else Reads(a)
    case Or(a, b) => if Reads(a) < Reads(b) then Reads(b) else Reads(a)
  }

  lemma LookupPrefix(fields: seq<Field>, slots: seq<Slot>, m: nat, f: nat)
    requires f < m <= |slots|
    ensures Lookup(fields, slots[..m], f) == Lookup(fields, slots, f)
  {
  }

  /** A condition sees the same values in any prefix that holds every field it reads. */
  lemma {:induction false} EvalPrefix(c: Cond, fields: seq<Field>, slots: seq<Slot>, m: nat)
    requires Reads(c) <= m <= |slots|
    ensures Eval(c, fields, slots[..m]) == Eval(c, fields, slots)
  {
    match c
    case Always =>
    case Eq(f, _) => LookupPrefix(fields, slots, m, f);
    case Ne(f, _) => LookupPrefix(fields, slots, m, f);
    case In(f, _) => LookupPrefix(fields, slots, m, f);
    case NotIn(f, _) => LookupPrefix(fields, slots, m, f);
    case Gt(f, _) => LookupPrefix(fields, slots, m, f);
    case And(a, b) => EvalPrefix(a, fields, slots, m); EvalPrefix(b, fields, slots, m);
    case Or(a, b) => EvalPrefix(a, fields, slots, m); EvalPrefix(b, fields, slots, m);
  }

  /**
   * In conforming slots, a field whose condition reads only earlier fields is
   * present exactly when its condition holds of the whole slot sequence.
   */
  lemma ConformsEval(s: Schema, slots: seq<Slot>, m: nat)
    requires Conforms(s, slots) && m < |slots| && Reads(s.fields[m].cond) <= m
    ensures Eval(s.fields[m].cond, s.fields, slots) == Some(slots[m].Present?)
  {
    assert SlotFits(s, slots, m);
    EvalPrefix(s.fields[m].cond, s.fields, slots, m);
  }

  /** Every prefix of conforming slots conforms. */
  lemma ConformsPrefix(s: Schema, slots: seq<Slot>, n: nat)
    requires Conforms(s, slots) && n <= |slots|
    ensures Conforms(s, slots[..n])
  {
    var p := slots[..n];
    forall i | 0 <= i < n ensures SlotFits(s, p, i) {
      assert SlotFits(s, slots, i);
      assert p[..i] == slots[..i];
    }
  }

  /** Encoding from position `i` splits at any later position `n` into the encoding of the prefix and the rest. */
  lemma {:induction false} EncodePrefix(s: Schema, slots: seq<Slot>, n: nat, i: nat)
    requires i <= n <= |slots| <= |s.fields|
    requires EncodeFields(s, slots, i).Ok?
    ensures EncodeFields(s, slots, n).Ok? && EncodeFields(s, slots[..n], i).Ok?
    ensures EncodeFields(s, slots, i).value == EncodeFields(s, slots[..n], i).value + EncodeFields(s, slots, n).value
    decreases n - i
  {
    var p := slots[..n];
    if i < n {
      assert p[..i] == slots[..i] && p[i] == slots[i];
      EncodePrefix(s, slots, n, i + 1);
      EncodeFieldsStep(s, slots, i);
      EncodeFieldsStep(s, p, i);
      AppendAssoc(EncodeSlot(s, slots[..i], slots[i]).value, EncodeFields(s, p, i + 1).value, EncodeFields(s, slots, n).value);
    } else {
      assert EncodeFields(s, p, i).value == [];
    }
  }

  // ---------------------------------------------------------------------------
  // Length prefixes

  /**
   * The slots with every present length-prefix field set to the byte length of
   * the string it governs, as a length field left unset is filled in on encode.
   */
  function FillLengths(s: Schema, slots: seq<Slot>): (r: seq<Slot>)
    requires |slots| <= |s.fields|
    ensures |r| == |slots|
    ensures forall i :: 0 <= i < |r| && !Governs(s, slots, i) ==> r[i] == slots[i]
    ensures forall i :: 0 <= i < |r| && Governs(s, slots, i) ==>
              r[i] == Present(Int(|slots[s.fields[i].kind.target].value.b|))
  {
    seq(|slots|, i requires 0 <= i < |slots| =>
      if Governs(s, slots, i) then Present(Int(|slots[s.fields[i].kind.target].value.b|)) else slots[i])
  }

  /** Slot `i` is a present length prefix whose governed string is present in `slots`. */
  predicate Governs(s: Schema, slots: seq<Slot>, i: nat)
    requires i < |slots| <= |s.fields|
  {
    s.fields[i].kind.LenOf? && slots[i].Present? &&
    var t := s.fields[i].kind.target;
    t < |slots| && slots[t].Present? && slots[t].value.Bytes?
  }
}
