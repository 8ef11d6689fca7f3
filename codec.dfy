/**
 * A declarative binary codec: a packet layout is data (an ordered list of
 * fields, each with a kind and a presence condition over earlier fields), and
 * one generic decoder and encoder interpret every layout.
 *
 * Conditions and length rules name the fields they read by POSITION in the
 * layout, so two fields that share a name are still two distinct slots.
 * Reading a field that is absent, or that lies after the current one, yields
 * the default declared for that field; reading a position outside the layout
 * is an error.
 *
 * Decoding stops as soon as the input is exhausted: the fields after that
 * point are not part of the decoded value (its slot sequence is a prefix of
 * the layout), and re-encoding emits nothing for them.
 */
module Codec {
  import opened Wrappers
  import opened Bytes

  // ---------------------------------------------------------------------------
  // Integer formats

  datatype ByteOrder = BigEndian | LittleEndian

  /** A fixed-width integer: `width` bytes, byte order, two's complement or not. */
  datatype IntFormat = IntFormat(width: nat, order: ByteOrder, signed: bool)

  const U8 := IntFormat(1, BigEndian, false)
  const U16 := IntFormat(2, BigEndian, false)
  const U32 := IntFormat(4, BigEndian, false)
  const S16 := IntFormat(2, BigEndian, true)
  const S32 := IntFormat(4, BigEndian, true)
  const U32LE := IntFormat(4, LittleEndian, false)

  /** The number of negative values a signed format of width `w` holds. */
  function Half(w: nat): nat { Pow256(w) / 2 }

  predicate InRange(fmt: IntFormat, n: int) {
    if fmt.signed then -(Half(fmt.width) as int) <= n < Pow256(fmt.width) - Half(fmt.width)
    else 0 <= n < Pow256(fmt.width)
  }

  /** The bytes `struct.pack` produces for `n` under `fmt`. */
  function IntBytes(fmt: IntFormat, n: int): (r: seq<byte>)
    requires InRange(fmt, n)
    ensures |r| == fmt.width
  {
    var u: nat := if n < 0 then n + Pow256(fmt.width) else n;
    if fmt.order == BigEndian then ToBE(u, fmt.width) else ToLE(u, fmt.width)
  }

  /** The number `struct.unpack` reads from `bs` under `fmt`. */
  function BytesInt(fmt: IntFormat, bs: seq<byte>): (n: int)
    requires |bs| == fmt.width
    ensures InRange(fmt, n)
  {
    var u := if fmt.order == BigEndian then FromBE(bs) else FromLE(bs);
    if fmt.signed && u >= Pow256(fmt.width) - Half(fmt.width) then u - Pow256(fmt.width) else u
  }

  lemma IntBytesInverse(fmt: IntFormat, n: int)
    requires InRange(fmt, n)
    ensures BytesInt(fmt, IntBytes(fmt, n)) == n
  {
  }

  lemma BytesIntInverse(fmt: IntFormat, bs: seq<byte>)
    requires |bs| == fmt.width
    ensures IntBytes(fmt, BytesInt(fmt, bs)) == bs
  {
    if fmt.order == BigEndian { ToBEFromBE(bs); } else { ToLEFromLE(bs); }
  }

  // ---------------------------------------------------------------------------
  // Layouts

  /** A presence condition: a Python predicate over fields decoded earlier. */
  datatype Cond =
    | Always
    | Eq(field: nat, v: int)
    | Ne(field: nat, v: int)
    | In(field: nat, vs: seq<int>)
    | NotIn(field: nat, vs: seq<int>)
    | Gt(field: nat, v: int)
    | And(left: Cond, right: Cond)
    | Or(left: Cond, right: Cond)

  /** How a variable-length string finds its length. */
  datatype LenRule =
    | LenField(field: nat)                   // the value of an earlier field
    | Complement(total: int, field: nat)     // total minus that value
    | LenFieldOr(field: nat, fallback: nat)  // that value, or `fallback` when it is 0

  datatype Kind =
    | Num(fmt: IntFormat)                            // plain integer field
    | Enum(fmt: IntFormat)                           // integer code; its display names do not affect the bytes
    | LenOf(fmt: IntFormat, target: nat)             // integer holding another field's byte length
    | Fixed(width: nat)                              // fixed-length byte string or address
    | Sized(rule: LenRule)                           // byte string whose length an earlier field gives
    | PaddedTo(rule: LenRule)                        // as Sized, but NUL-padded up to that length on encode
    | Rest                                           // byte string to the end of the input
    | Sub(schema: Schema)                            // embedded record
    | Slice(schema: Schema, size: nat)               // embedded record cut to `size` bytes
    | Repeat(schema: Schema)                         // records repeated to the end of the input

  /** A field of a layout; fields are identified by position, their names live in comments. */
  datatype Field = Field(kind: Kind, cond: Cond, default: int)

  datatype Schema = Schema(fields: seq<Field>)

  // ---------------------------------------------------------------------------
  // Values

  datatype Value =
    | Int(n: int)
    | Bytes(b: seq<byte>)
    | Record(slots: seq<Slot>, trailer: seq<byte>)  // trailer: slice bytes the record did not use
    | Records(items: seq<seq<Slot>>)

  datatype Slot = Absent | Present(value: Value)

  /** A decoded top-level packet: its fields and the bytes after them. */
  datatype Packet = Packet(slots: seq<Slot>, payload: seq<byte>)

  datatype Error =
    | TruncatedInput                 // fewer bytes than a field needs
    | UnknownField(at: nat)          // a condition or length rule reads outside the layout
    | NegativeLength(at: nat)        // a length rule gives a negative length
    | NoProgress                     // a repeated record consumed nothing
    | SchemaViolation(at: nat)       // a value missing, of the wrong shape, or too wide

  // ---------------------------------------------------------------------------
  // Reading earlier fields

  /** The integer a predicate sees for field `f`, given the slots decoded so far. */
  function Lookup(fields: seq<Field>, prior: seq<Slot>, f: nat): Option<int> {
    if f >= |fields| then None
    else if f < |prior| && prior[f].Present? then
      (if prior[f].value.Int? then Some(prior[f].value.n) else None)
    else Some(fields[f].default)
  }

  function Eval(c: Cond, fields: seq<Field>, prior: seq<Slot>): Option<bool> {
    match c
    case Always => Some(true)
    case Eq(f, v) => Test(Lookup(fields, prior, f), x => x == v)
    case Ne(f, v) => Test(Lookup(fields, prior, f), x => x != v)
    case In(f, vs) => Test(Lookup(fields, prior, f), x => x in vs)
    case NotIn(f, vs) => Test(Lookup(fields, prior, f), x => x !in vs)
    case Gt(f, v) => Test(Lookup(fields, prior, f), x => x > v)
    case And(a, b) =>
      // Python's `and`: the right operand is read only when the left holds
      (match Eval(a, fields, prior)
       case None => None
       case Some(false) => Some(false)
       case Some(true) => Eval(b, fields, prior))
    case Or(a, b) =>
      (match Eval(a, fields, prior)
       case None => None
       case Some(true) => Some(true)
       case Some(false) => Eval(b, fields, prior))
  }

  function Test(x: Option<int>, p: int -> bool): Option<bool> {
    match x
    case None => None
    case Some(n) => Some(p(n))
  }

  function Length(rule: LenRule, fields: seq<Field>, prior: seq<Slot>): Option<int> {
    match rule
    case LenField(f) => Lookup(fields, prior, f)
    case Complement(total, f) =>
      (match Lookup(fields, prior, f) case None => None case Some(n) => Some(total - n))
    case LenFieldOr(f, fallback) =>
      (match Lookup(fields, prior, f) case None => None case Some(n) => Some(if n == 0 then fallback else n))
  }

  // ---------------------------------------------------------------------------
  // Decoding

  function DecodeInt(fmt: IntFormat, bs: seq<byte>): (r: Result<(Value, seq<byte>), Error>)
    ensures r.Ok? ==> |r.value.1| <= |bs| && r.value.1 == bs[|bs| - |r.value.1|..]
    ensures r.Ok? <==> |bs| >= fmt.width
  {
    if |bs| < fmt.width then Err(TruncatedInput)
    else Ok((Int(BytesInt(fmt, bs[..fmt.width])), bs[fmt.width..]))
  }

  /**
   * Decodes the fields of `s` from position |acc| on, `acc` holding the slots
   * already decoded; returns all slots and the unread input.
   */
  function DecodeFields(s: Schema, acc: seq<Slot>, bs: seq<byte>): (r: Result<(seq<Slot>, seq<byte>), Error>)
    requires |acc| <= |s.fields|
    ensures r.Ok? ==> |acc| <= |r.value.0| <= |s.fields| && r.value.0[..|acc|] == acc
    ensures r.Ok? ==> |r.value.1| <= |bs| && r.value.1 == bs[|bs| - |r.value.1|..]
    ensures r.Ok? ==> |r.value.0| == |s.fields| || r.value.1 == []
    decreases s, |s.fields| - |acc|, 2
  {
    if |acc| == |s.fields| || |bs| == 0 then Ok((acc, bs))
    else
      var r1 :- DecodeSlot(s, acc, bs);
      DecodeFields(s, acc + [r1.0], r1.1)
  }

  /** Decodes field |acc| of `s`: absent when its condition is false, its value otherwise. */
  function DecodeSlot(s: Schema, acc: seq<Slot>, bs: seq<byte>): (r: Result<(Slot, seq<byte>), Error>)
    requires |acc| < |s.fields|
    ensures r.Ok? ==> |r.value.1| <= |bs| && r.value.1 == bs[|bs| - |r.value.1|..]
    ensures r.Ok? ==> SlotFits(s, acc + [r.value.0], |acc|)
    decreases s, |s.fields| - |acc|, 1
  {
    match Eval(s.fields[|acc|].cond, s.fields, acc)
    case None => Err(UnknownField(|acc|))
    case Some(false) =>
      assert (acc + [Absent])[..|acc|] == acc;
      Ok((Absent, bs))
    case Some(true) =>
      var r1 :- DecodeValue(s, acc, bs);
      assert (acc + [Present(r1.0)])[..|acc|] == acc;
      Ok((Present(r1.0), r1.1))
  }

  /** Decodes the value of field |acc| of `s`, which is present. */
  function DecodeValue(s: Schema, acc: seq<Slot>, bs: seq<byte>): (r: Result<(Value, seq<byte>), Error>)
    requires |acc| < |s.fields|
    ensures r.Ok? ==> |r.value.1| <= |bs| && r.value.1 == bs[|bs| - |r.value.1|..]
    ensures r.Ok? ==> ValueFits(s.fields[|acc|].kind, s.fields, acc, r.value.0)
    decreases s, |s.fields| - |acc|, 0
  {
    var k := s.fields[|acc|].kind;
    if !Nested(k) then DecodeScalar(k, s.fields, acc, bs)
    else
      match k
      case Sub(sub) =>
        var r1 :- DecodeFields(sub, [], bs);
        Ok((Record(r1.0, []), r1.1))
      case Slice(sub, size) =>
        if |bs| < size then Err(TruncatedInput)
        else
          var r1 :- DecodeFields(sub, [], bs[..size]);
          Ok((Record(r1.0, r1.1), bs[size..]))
      case Repeat(sub) =>
        var items :- DecodeList(sub, bs);
        Ok((Records(items), []))
  }

  /** The kinds that embed sub-records. */
  predicate Nested(k: Kind) {
    k.Sub? || k.Slice? || k.Repeat?
  }

  /** Decodes a value of a kind without sub-records; `acc` holds the slots before it. */
  function DecodeScalar(k: Kind, fields: seq<Field>, acc: seq<Slot>, bs: seq<byte>): (r: Result<(Value, seq<byte>), Error>)
    requires !Nested(k)
    ensures r.Ok? ==> |r.value.1| <= |bs| && r.value.1 == bs[|bs| - |r.value.1|..]
    ensures r.Ok? ==> ValueFits(k, fields, acc, r.value.0)
  {
    match k
    case Num(fmt) => DecodeInt(fmt, bs)
    case Enum(fmt) => DecodeInt(fmt, bs)
    case LenOf(fmt, _) => DecodeInt(fmt, bs)
    case Fixed(w) =>
      if |bs| < w then Err(TruncatedInput) else Ok((Bytes(bs[..w]), bs[w..]))
    case Sized(rule) => DecodeSized(rule, fields, acc, bs)
    case PaddedTo(rule) => DecodeSized(rule, fields, acc, bs)
    case Rest => Ok((Bytes(bs), []))
  }

  function DecodeSized(rule: LenRule, fields: seq<Field>, acc: seq<Slot>, bs: seq<byte>): (r: Result<(Value, seq<byte>), Error>)
    ensures r.Ok? ==> |r.value.1| <= |bs| && r.value.1 == bs[|bs| - |r.value.1|..]
    ensures r.Ok? ==> r.value.0.Bytes? && Length(rule, fields, acc) == Some(|r.value.0.b|)
  {
    match Length(rule, fields, acc)
    case None => Err(UnknownField(|acc|))
    case Some(n) =>
      if n < 0 then Err(NegativeLength(|acc|))
      else if |bs| < n then Err(TruncatedInput)
      else Ok((Bytes(bs[..n]), bs[n..]))
  }

  /** Decodes records of `sub` one after another until the input is used up. */
  function DecodeList(sub: Schema, bs: seq<byte>): Result<seq<seq<Slot>>, Error>
    decreases sub, |sub.fields| + 1, |bs|
  {
    if |bs| == 0 then Ok([])
    else
      var r1 :- DecodeFields(sub, [], bs);
      if |r1.1| >= |bs| then Err(NoProgress)
      else
        var items :- DecodeList(sub, r1.1);
        Ok([r1.0] + items)
  }

  function Decode(s: Schema, bs: seq<byte>): Result<Packet, Error> {
    var r1 :- DecodeFields(s, [], bs);
    Ok(Packet(r1.0, r1.1))
  }

  // ---------------------------------------------------------------------------
  // Encoding

  /**
   * Encodes the fields of `s` from position `i` on. A field whose condition is
   * false emits nothing, whatever its slot holds; a field whose condition is
   * true must be present. Fields after the end of `slots` emit nothing.
   */
  function EncodeFields(s: Schema, slots: seq<Slot>, i: nat): Result<seq<byte>, Error>
    requires i <= |s.fields|
    decreases s, |s.fields| - i, 2
  {
    if i == |s.fields| || i >= |slots| then Ok([])
    else
      var head :- EncodeSlot(s, slots[..i], slots[i]);
      var tail :- EncodeFields(s, slots, i + 1);
      Ok(head + tail)
  }

  /** Encodes `slot` as field |prior| of `s`, `prior` holding the slots before it. */
  function EncodeSlot(s: Schema, prior: seq<Slot>, slot: Slot): Result<seq<byte>, Error>
    requires |prior| < |s.fields|
    decreases s, |s.fields| - |prior|, 1
  {
    match Eval(s.fields[|prior|].cond, s.fields, prior)
    case None => Err(UnknownField(|prior|))
    case Some(false) => Ok([])
    case Some(true) =>
      if slot.Absent? then Err(SchemaViolation(|prior|)) else EncodeValue(s, prior, slot.value)
  }

  /** Encodes `v` as field |prior| of `s`, `prior` holding the slots before it. */
  function EncodeValue(s: Schema, prior: seq<Slot>, v: Value): Result<seq<byte>, Error>
    requires |prior| < |s.fields|
    decreases s, |s.fields| - |prior|, 0
  {
    var i := |prior|;
    var k := s.fields[i].kind;
    if !Nested(k) then EncodeScalar(k, s.fields, prior, v)
    else
      match k
      case Sub(sub) =>
        if !v.Record? then Err(SchemaViolation(i))
        else
          var body :- EncodeFields(sub, v.slots, 0);
          Ok(body + v.trailer)
      case Slice(sub, size) =>
        if !v.Record? then Err(SchemaViolation(i))
        else
          var body :- EncodeFields(sub, v.slots, 0);
          if |body + v.trailer| == size then Ok(body + v.trailer) else Err(SchemaViolation(i))
      case Repeat(sub) =>
        if v.Records? then EncodeList(sub, v.items) else Err(SchemaViolation(i))
  }

  /** Encodes `v` as a value of a kind without sub-records, at position |prior|. */
  function EncodeScalar(k: Kind, fields: seq<Field>, prior: seq<Slot>, v: Value): Result<seq<byte>, Error>
    requires !Nested(k)
  {
    var i := |prior|;
    match k
    case Num(fmt) => EncodeInt(fmt, i, v)
    case Enum(fmt) => EncodeInt(fmt, i, v)
    case LenOf(fmt, _) => EncodeInt(fmt, i, v)
    case Fixed(w) => if v.Bytes? then Ok(PackFixed(v.b, w)) else Err(SchemaViolation(i))
    case Sized(_) => if v.Bytes? then Ok(v.b) else Err(SchemaViolation(i))
    case PaddedTo(rule) =>
      (match Length(rule, fields, prior)
       case None => Err(UnknownField(i))
       case Some(n) =>
         if v.Bytes? && n >= 0 then Ok(PackFixed(v.b, n))
         else if v.Bytes? then Err(NegativeLength(i))
         else Err(SchemaViolation(i)))
    case Rest => if v.Bytes? then Ok(v.b) else Err(SchemaViolation(i))
  }

  /**
   * `struct.pack("%is" % w, b)`: `b` cut to `w` bytes, or NUL-padded up to
   * `w` bytes when it is shorter.
   */
  function PackFixed(b: seq<byte>, w: nat): (r: seq<byte>)
    ensures |r| == w
    ensures |b| <= w ==> r[..|b|] == b && r[|b|..] == Zeros(w - |b|)
    ensures |b| > w ==> r == b[..w]
  {
    if |b| <= w then
      var r := b + Zeros(w - |b|);
      assert r[..|b|] == b && r[|b|..] == Zeros(w - |b|);
      r
    else b[..w]
  }

  function EncodeInt(fmt: IntFormat, i: nat, v: Value): (r: Result<seq<byte>, Error>)
    ensures r.Ok? ==> |r.value| == fmt.width
  {
    if v.Int? && InRange(fmt, v.n) then Ok(IntBytes(fmt, v.n)) else Err(SchemaViolation(i))
  }

  function EncodeList(sub: Schema, items: seq<seq<Slot>>): Result<seq<byte>, Error>
    decreases sub, |sub.fields| + 1, |items|
  {
    if |items| == 0 then Ok([])
    else
      var head :- EncodeFields(sub, items[0], 0);
      var tail :- EncodeList(sub, items[1..]);
      Ok(head + tail)
  }

  function Encode(s: Schema, p: Packet): Result<seq<byte>, Error> {
    var body :- EncodeFields(s, p.slots, 0);
    Ok(body + p.payload)
  }

  // ---------------------------------------------------------------------------
  // Well-formed values

  /** `v` has the shape and size that a field of kind `k` decodes to. */
  predicate ValueFits(k: Kind, fields: seq<Field>, prior: seq<Slot>, v: Value) {
    match k
    case Num(fmt) => v.Int? && InRange(fmt, v.n)
    case Enum(fmt) => v.Int? && InRange(fmt, v.n)
    case LenOf(fmt, _) => v.Int? && InRange(fmt, v.n)
    case Fixed(w) => v.Bytes? && |v.b| == w
    case Sized(rule) => v.Bytes? && Length(rule, fields, prior) == Some(|v.b|)
    case PaddedTo(rule) => v.Bytes? && Length(rule, fields, prior) == Some(|v.b|)
    case Rest => v.Bytes?
    case Sub(_) => v.Record? && v.trailer == []
    case Slice(_, _) => v.Record?
    case Repeat(_) => v.Records?
  }

  /** Slot `i` is present exactly when its condition holds, and then its value fits its kind. */
  predicate SlotFits(s: Schema, slots: seq<Slot>, i: nat)
    requires i < |slots| <= |s.fields|
  {
    Eval(s.fields[i].cond, s.fields, slots[..i]) == Some(slots[i].Present?) &&
    (slots[i].Present? ==> ValueFits(s.fields[i].kind, s.fields, slots[..i], slots[i].value))
  }

  /** A (possibly truncated) slot sequence that the layout `s` accepts. */
  predicate Conforms(s: Schema, slots: seq<Slot>) {
    |slots| <= |s.fields| && forall i :: 0 <= i < |slots| ==> SlotFits(s, slots, i)
  }

  // ---------------------------------------------------------------------------
  // Properties of the decoder

  lemma SplitJoin(bs: seq<byte>, r1: seq<byte>, r2: seq<byte>)
    requires |r1| <= |bs| && r1 == bs[|bs| - |r1|..]
    requires |r2| <= |r1| && r2 == r1[|r1| - |r2|..]
    ensures r2 == bs[|bs| - |r2|..]
    ensures bs[..|bs| - |r1|] + r1[..|r1| - |r2|] == bs[..|bs| - |r2|]
  {
  }

  lemma PrefixSuffix(bs: seq<byte>, rest: seq<byte>)
    requires |rest| <= |bs| && rest == bs[|bs| - |rest|..]
    ensures bs[..|bs| - |rest|] + rest == bs
  {
  }

  lemma SnocPrefix(slots: seq<Slot>, acc: seq<Slot>, slot: Slot)
    requires |acc| < |slots| && slots[..|acc| + 1] == acc + [slot]
    ensures slots[..|acc|] == acc && slots[|acc|] == slot
  {
    assert slots[..|acc|] == slots[..|acc| + 1][..|acc|];
  }

  lemma DecodeFieldsStep(s: Schema, acc: seq<Slot>, bs: seq<byte>)
    requires |acc| < |s.fields| && bs != [] && DecodeSlot(s, acc, bs).Ok?
    ensures DecodeFields(s, acc, bs) ==
      DecodeFields(s, acc + [DecodeSlot(s, acc, bs).value.0], DecodeSlot(s, acc, bs).value.1)
  {
  }

  lemma EncodeFieldsStep(s: Schema, slots: seq<Slot>, i: nat)
    requires i < |slots| && i < |s.fields|
    requires EncodeSlot(s, slots[..i], slots[i]).Ok? && EncodeFields(s, slots, i + 1).Ok?
    ensures EncodeFields(s, slots, i) ==
      Ok(EncodeSlot(s, slots[..i], slots[i]).value + EncodeFields(s, slots, i + 1).value)
  {
  }

  /** Every slot the decoder produces conforms to the layout. */
  lemma {:induction false} DecodeFieldsConforms(s: Schema, acc: seq<Slot>, bs: seq<byte>, i: nat)
    requires |acc| <= |s.fields|
    requires DecodeFields(s, acc, bs).Ok?
    requires |acc| <= i < |DecodeFields(s, acc, bs).value.0|
    ensures SlotFits(s, DecodeFields(s, acc, bs).value.0, i)
    decreases |s.fields| - |acc|
  {
    var slots := DecodeFields(s, acc, bs).value.0;
    var (slot, rest) := DecodeSlot(s, acc, bs).value;
    var acc' := acc + [slot];
    assert slots[..|acc'|] == acc';
    if i == |acc| {
      assert slots[..i] == acc'[..i];
    } else {
      DecodeFieldsConforms(s, acc', rest, i);
    }
  }

  /** Every slot the decoder produces is the result of decoding that field from some suffix of the input. */
  lemma {:induction false} DecodedSlotWitness(s: Schema, acc: seq<Slot>, bs: seq<byte>, i: nat)
    returns (bs': seq<byte>, rest': seq<byte>)
    requires |acc| <= |s.fields|
    requires DecodeFields(s, acc, bs).Ok?
    requires |acc| <= i < |DecodeFields(s, acc, bs).value.0|
    ensures i < |s.fields|
    ensures DecodeSlot(s, DecodeFields(s, acc, bs).value.0[..i], bs') == Ok((DecodeFields(s, acc, bs).value.0[i], rest'))
    decreases |s.fields| - |acc|
  {
    var slots := DecodeFields(s, acc, bs).value.0;
    var (slot, rest) := DecodeSlot(s, acc, bs).value;
    var acc' := acc + [slot];
    assert slots[..|acc'|] == acc';
    if i == |acc| {
      assert slots[..i] == acc'[..i];
      bs', rest' := bs, rest;
    } else {
      bs', rest' := DecodedSlotWitness(s, acc', rest, i);
    }
  }

  lemma DecodeConforms(s: Schema, bs: seq<byte>)
    requires Decode(s, bs).Ok?
    ensures Conforms(s, Decode(s, bs).value.slots)
  {
    var slots := Decode(s, bs).value.slots;
    forall i | 0 <= i < |slots| ensures SlotFits(s, slots, i) {
      DecodeFieldsConforms(s, [], bs, i);
    }
  }

  /** Re-encoding decoded fields gives back exactly the bytes they were decoded from. */
  lemma {:induction false} DecodeEncodeFields(s: Schema, acc: seq<Slot>, bs: seq<byte>, slots: seq<Slot>, rest: seq<byte>)
    requires |acc| <= |s.fields|
    requires DecodeFields(s, acc, bs) == Ok((slots, rest))
    ensures EncodeFields(s, slots, |acc|) == Ok(bs[..|bs| - |rest|])
    decreases s, |s.fields| - |acc|, 2
  {
    if |acc| < |s.fields| && |bs| != 0 {
      var slot, rest1 := DecodeFieldsUnfold(s, acc, bs, slots, rest);
      DecodeEncodeSlot(s, acc, bs, slot, rest1);
      DecodeEncodeFields(s, acc + [slot], rest1, slots, rest);
      EncodeFieldsJoin(s, acc, slot, slots, bs, rest1, rest);
    } else {
      DecodeEncodeNoFields(s, acc, bs);
    }
  }

  /** One step of the decoder: the slot it decodes next and the input left after it. */
  lemma DecodeFieldsUnfold(s: Schema, acc: seq<Slot>, bs: seq<byte>, slots: seq<Slot>, rest: seq<byte>)
    returns (slot: Slot, rest1: seq<byte>)
    requires |acc| < |s.fields| && |bs| != 0
    requires DecodeFields(s, acc, bs) == Ok((slots, rest))
    ensures DecodeSlot(s, acc, bs) == Ok((slot, rest1))
    ensures |acc + [slot]| == |acc| + 1
    ensures DecodeFields(s, acc + [slot], rest1) == Ok((slots, rest))
    ensures |acc| < |slots| && slots[..|acc|] == acc && slots[|acc|] == slot
    ensures |rest1| <= |bs| && rest1 == bs[|bs| - |rest1|..]
  {
    slot := DecodeSlot(s, acc, bs).value.0;
    rest1 := DecodeSlot(s, acc, bs).value.1;
    DecodeFieldsStep(s, acc, bs);
    SnocPrefix(slots, acc, slot);
  }

  /** The encoding of field |acc| followed by the encoding of the fields after it. */
  lemma EncodeFieldsJoin(s: Schema, acc: seq<Slot>, slot: Slot, slots: seq<Slot>, bs: seq<byte>, rest1: seq<byte>, rest: seq<byte>)
    requires |acc| < |s.fields| && |acc| < |slots| && slots[..|acc|] == acc && slots[|acc|] == slot
    requires |rest1| <= |bs| && rest1 == bs[|bs| - |rest1|..]
    requires |rest| <= |rest1| && rest == rest1[|rest1| - |rest|..]
    requires EncodeSlot(s, acc, slot) == Ok(bs[..|bs| - |rest1|])
    requires EncodeFields(s, slots, |acc| + 1) == Ok(rest1[..|rest1| - |rest|])
    ensures EncodeFields(s, slots, |acc|) == Ok(bs[..|bs| - |rest|])
  {
    EncodeFieldsStep(s, slots, |acc|);
    SplitJoin(bs, rest1, rest);
  }

  /** When no field is left to decode, the decoder returns its input and nothing is re-encoded. */
  lemma DecodeEncodeNoFields(s: Schema, acc: seq<Slot>, bs: seq<byte>)
    requires |acc| <= |s.fields| && (|acc| == |s.fields| || |bs| == 0)
    ensures DecodeFields(s, acc, bs) == Ok((acc, bs))
    ensures EncodeFields(s, acc, |acc|) == Ok([])
    ensures bs[..|bs| - |bs|] == []
  {
  }

  lemma {:induction false} DecodeEncodeSlot(s: Schema, acc: seq<Slot>, bs: seq<byte>, slot: Slot, rest: seq<byte>)
    requires |acc| < |s.fields|
    requires DecodeSlot(s, acc, bs) == Ok((slot, rest))
    ensures EncodeSlot(s, acc, slot) == Ok(bs[..|bs| - |rest|])
    decreases s, |s.fields| - |acc|, 1
  {
    if Eval(s.fields[|acc|].cond, s.fields, acc) == Some(true) {
      DecodeEncodeValue(s, acc, bs, slot.value, rest);
    }
  }

  lemma {:induction false} DecodeEncodeValue(s: Schema, acc: seq<Slot>, bs: seq<byte>, v: Value, rest: seq<byte>)
    requires |acc| < |s.fields|
    requires DecodeValue(s, acc, bs) == Ok((v, rest))
    ensures EncodeValue(s, acc, v) == Ok(bs[..|bs| - |rest|])
    decreases s, |s.fields| - |acc|, 0
  {
    var k := s.fields[|acc|].kind;
    if !Nested(k) {
      ScalarRoundTrip(k, s.fields, acc, bs, v, rest);
    } else {
      match k
      case Sub(sub) =>
        DecodeEncodeFields(sub, [], bs, v.slots, rest);
        assert bs[..|bs| - |rest|] + [] == bs[..|bs| - |rest|];
      case Slice(sub, size) =>
        var bs' := bs[..size];
        var (slots, unused) := DecodeFields(sub, [], bs').value;
        DecodeEncodeFields(sub, [], bs', slots, unused);
        PrefixSuffix(bs', unused);
      case Repeat(sub) =>
        DecodeEncodeList(sub, bs, v.items);
        assert bs[..|bs|] == bs;
    }
  }

  /** The round trip for a value of a kind without sub-records. */
  lemma ScalarRoundTrip(k: Kind, fields: seq<Field>, acc: seq<Slot>, bs: seq<byte>, v: Value, rest: seq<byte>)
    requires !Nested(k) && DecodeScalar(k, fields, acc, bs) == Ok((v, rest))
    ensures EncodeScalar(k, fields, acc, v) == Ok(bs[..|bs| - |rest|])
  {
    match k
    case Num(fmt) => IntRoundTrip(fmt, |acc|, bs, v, rest);
    case Enum(fmt) => IntRoundTrip(fmt, |acc|, bs, v, rest);
    case LenOf(fmt, _) => IntRoundTrip(fmt, |acc|, bs, v, rest);
    case Fixed(w) => PadRoundTrip(bs, w, v, rest);
    case Sized(_) =>
    case PaddedTo(_) => PadRoundTrip(bs, |v.b|, v, rest);
    case Rest => assert bs[..|bs|] == bs;
  }

  lemma IntRoundTrip(fmt: IntFormat, i: nat, bs: seq<byte>, v: Value, rest: seq<byte>)
    requires DecodeInt(fmt, bs) == Ok((v, rest))
    ensures EncodeInt(fmt, i, v) == Ok(bs[..|bs| - |rest|])
  {
    BytesIntInverse(fmt, bs[..fmt.width]);
  }

  lemma PadRoundTrip(bs: seq<byte>, w: nat, v: Value, rest: seq<byte>)
    requires w <= |bs| && v == Bytes(bs[..w]) && rest == bs[w..]
    ensures PackFixed(v.b, w) == bs[..|bs| - |rest|]
  {
    assert v.b + Zeros(0) == v.b;
  }

  lemma {:induction false} DecodeEncodeList(sub: Schema, bs: seq<byte>, items: seq<seq<Slot>>)
    requires DecodeList(sub, bs) == Ok(items)
    ensures EncodeList(sub, items) == Ok(bs)
    decreases sub, |sub.fields| + 1, |bs|
  {
    if |bs| != 0 {
      var (item, rest) := DecodeFields(sub, [], bs).value;
      var items' := DecodeList(sub, rest).value;
      assert items == [item] + items';
      assert items[0] == item && items[1..] == items';
      DecodeEncodeFields(sub, [], bs, item, rest);
      DecodeEncodeList(sub, rest, items');
      EncodeListStep(sub, items);
      PrefixSuffix(bs, rest);
      calc {
        EncodeList(sub, items);
        Ok(EncodeFields(sub, item, 0).value + EncodeList(sub, items').value);
        Ok(bs[..|bs| - |rest|] + rest);
      }
    }
  }

  lemma DecodeListStep(sub: Schema, bs: seq<byte>, item: seq<Slot>, rest: seq<byte>)
    requires bs != [] && DecodeFields(sub, [], bs) == Ok((item, rest)) && |rest| < |bs|
    requires DecodeList(sub, rest).Ok?
    ensures DecodeList(sub, bs) == Ok([item] + DecodeList(sub, rest).value)
  {
  }

  lemma EncodeListStep(sub: Schema, items: seq<seq<Slot>>)
    requires |items| > 0
    requires EncodeFields(sub, items[0], 0).Ok?
    requires EncodeList(sub, items[1..]).Ok?
    ensures EncodeList(sub, items) == Ok(EncodeFields(sub, items[0], 0).value + EncodeList(sub, items[1..]).value)
  {
  }

  /** Encoding inverts decoding: every decoded packet re-encodes to its input. */
  lemma DecodeEncode(s: Schema, bs: seq<byte>)
    requires Decode(s, bs).Ok?
    ensures Encode(s, Decode(s, bs).value) == Ok(bs)
  {
    var (slots, rest) := DecodeFields(s, [], bs).value;
    DecodeEncodeFields(s, [], bs, slots, rest);
    PrefixSuffix(bs, rest);
  }

  /** The round trip in the other direction, for every packet the decoder can produce. */
  lemma EncodeDecode(s: Schema, bs: seq<byte>)
    requires Decode(s, bs).Ok?
    ensures Encode(s, Decode(s, bs).value).Ok?
    ensures Decode(s, Encode(s, Decode(s, bs).value).value) == Decode(s, bs)
  {
    DecodeEncode(s, bs);
  }

  /** Decoding loses nothing: two inputs that decode to the same packet are equal. */
  lemma DecodeInjective(s: Schema, bs1: seq<byte>, bs2: seq<byte>)
    requires Decode(s, bs1).Ok? && Decode(s, bs2).Ok?
    requires Decode(s, bs1) == Decode(s, bs2)
    ensures bs1 == bs2
  {
    DecodeEncode(s, bs1);
    DecodeEncode(s, bs2);
  }
}
