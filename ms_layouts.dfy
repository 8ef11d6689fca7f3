/**
 * The Message Server layouts with conditional fields: the administration
 * record, the logon and property records, and the top-level `SAPMS` packet.
 * Conditions and length rules name earlier fields by position; the comment
 * at each layout lists the positions its conditions read.
 */
module MsLayouts {
  import opened Wrappers
  import opened Bytes
  import opened Codec
  import opened Layout
  import opened MsRecords

  // ---------------------------------------------------------------------------
  // `SAPMSAdmRecord` (pysap/SAPMS.py:546-586)

  /** The record types whose statistics are ten integers rather than a 40-byte value. */
  const RzlIntegerTypes: seq<int> := [11, 15, 21, 31, 41, 51]

  /**
   * One administration record. Conditions read position 0 (`opcode`),
   * 2 (`executed`) and 8 (`rzl_strg_type`).
   */
  const AdmRecord: Schema := Schema([
    Field(Enum(U8), Always, 0),  // opcode (codes named in MsTables.MsAdmOpcodeValues)
    Field(Num(U8), Always, 0),  // serial_number
    Field(Num(U8), Always, 0),  // executed
    Field(Num(U8), Always, 0),  // errorno
    Field(Fixed(75), And(NotIn(0, [0x01, 0x15, 0x2e]), Eq(2, 0x01)), 0),  // record
    Field(Fixed(25), And(NotIn(0, [0x01, 0x15, 0x2e]), Eq(2, 0x01)), 0),  // record_pad
    Field(Fixed(100), And(NotIn(0, [0x01, 0x15, 0x2e]), Eq(2, 0x00)), 0),  // record
    Field(Fixed(100), In(0, [0x01, 0x2e]), 0),  // parameter
    Field(Enum(U8), In(0, [0x15]), 1),  // rzl_strg_type (codes named in MsTables.MsAdmRzlStrgTypeValues)
    Field(Num(U8), In(0, [0x15]), 0),  // rzl_strg_name_length
    Field(Num(U8), In(0, [0x15]), 0),  // rzl_strg_value_offset
    Field(Num(U8), In(0, [0x15]), 0),  // rzl_strg_value_length
    Field(Fixed(20), In(0, [0x15]), 0),  // rzl_strg_name
    Field(Num(U32), And(In(0, [0x15]), In(8, RzlIntegerTypes)), 0),  // rzl_strg_uptime
    Field(Num(U32), And(In(0, [0x15]), In(8, RzlIntegerTypes)), 0),  // rzl_strg_integer1
    Field(Num(U32), And(In(0, [0x15]), In(8, RzlIntegerTypes)), 0),  // rzl_strg_delay
    Field(Num(U32), And(In(0, [0x15]), In(8, RzlIntegerTypes)), 0),  // rzl_strg_integer3
    Field(Num(U32), And(In(0, [0x15]), In(8, RzlIntegerTypes)), 0),  // rzl_strg_users
    Field(Num(U32), And(In(0, [0x15]), In(8, RzlIntegerTypes)), 0),  // rzl_strg_quality
    Field(Num(U32), And(In(0, [0x15]), In(8, RzlIntegerTypes)), 0),  // rzl_strg_integer6
    Field(Num(U32), And(In(0, [0x15]), In(8, RzlIntegerTypes)), 0),  // rzl_strg_integer7
    Field(Num(U32), And(In(0, [0x15]), In(8, RzlIntegerTypes)), 0),  // rzl_strg_integer8
    Field(Num(U32), And(In(0, [0x15]), In(8, RzlIntegerTypes)), 0),  // rzl_strg_integer9
    Field(Fixed(40), And(In(0, [0x15]), NotIn(8, RzlIntegerTypes)), 0),  // rzl_strg_value
    Field(Fixed(36), In(0, [0x15]), 0)  // rzl_strg_padd2
  ])

  // ---------------------------------------------------------------------------
  // `SAPMSLogon` (pysap/SAPMS.py:737-758)

  /**
   * Logon data: four length-prefixed strings, then an IPv6 address and an end
   * marker that are present only when the signed `address6_length` at
   * position 11 is positive.
   */
  const Logon: Schema := Schema([
    Field(Enum(U16), Always, 0),  // type (codes named in MsTables.MsLogonTypeValues)
    Field(Num(U16), Always, 0),  // port
    Field(Fixed(4), Always, 0),  // address
    Field(LenOf(U16, 4), Always, 0),  // logonname_length
    Field(Sized(LenField(3)), Always, 0),  // logonname
    Field(LenOf(U16, 6), Always, 0),  // prot_length
    Field(Sized(LenField(5)), Always, 0),  // prot
    Field(LenOf(U16, 8), Always, 0),  // host_length
    Field(Sized(LenField(7)), Always, 0),  // host
    Field(LenOf(U16, 10), Always, 0),  // misc_length
    Field(Sized(LenField(9)), Always, 0),  // misc
    Field(LenOf(S16, 12), Always, 16),  // address6_length
    Field(Fixed(16), Gt(11, 0), 0),  // address6
    Field(Num(S32), Gt(11, 0), -1)  // end
  ])

  // ---------------------------------------------------------------------------
  // `SAPMSProperty` (pysap/SAPMS.py:761-799)

  /** A property record; every condition reads position 1 (`id`). */
  const Property: Schema := Schema([
    Field(Fixed(40), Always, 0),  // client
    Field(Enum(U32), Always, 0),  // id (codes named in MsTables.MsPropertyIdValues)
    Field(Enum(U16), In(1, [0x02]), 0),  // logon (codes named in MsTables.MsLogonTypeValues)
    Field(Fixed(12), In(1, [0x02]), 0),  // pad
    Field(Num(U16), In(1, [0x02]), 0),  // len
    Field(Sized(LenField(4)), In(1, [0x02]), 0),  // value
    Field(Num(U16), In(1, [0x02]), 0xffff),  // pad2
    Field(Fixed(4), In(1, [0x03]), 0),  // address
    Field(Fixed(16), In(1, [0x03]), 0),  // address6
    Field(LenOf(U32, 10), In(1, [0x04]), 0),  // param_len
    Field(Sized(LenField(9)), In(1, [0x04]), 0),  // param
    Field(Sized(Complement(100, 9)), In(1, [0x04]), 0),  // param_padding
    Field(Num(U16), In(1, [0x04]), 0),  // pad3
    Field(LenOf(U16, 14), In(1, [0x04]), 0),  // value_len
    Field(Sized(LenField(13)), In(1, [0x04]), 0),  // value
    Field(Num(U16), In(1, [0x05]), 0),  // service
    Field(Num(U8), In(1, [0x05]), 0),  // value
    Field(Fixed(10), In(1, [0x07]), 0),  // release
    Field(Num(U32), In(1, [0x07]), 0),  // patchno
    Field(Num(U32), In(1, [0x07]), 0),  // supplvl
    Field(Num(U32), In(1, [0x07]), 0)  // platform
  ])

  // ---------------------------------------------------------------------------
  // `SAPMS` (pysap/SAPMS.py:1082-1198)

  /** Opcodes after which no rest-of-packet `opcode_value` is read. */
  const OpcodesWithoutValue: seq<int> := [
    0x00, 0x01, 0x02, 0x03, 0x04, 0x05, 0x06, 0x07, 0x08, 0x09, 0x0a, 0x11, 0x1c, 0x22, 0x23, 0x24,
    0x25, 0x26, 0x27, 0x28, 0x29, 0x2a, 0x2b, 0x2c, 0x2d, 0x2f, 0x43, 0x44, 0x45, 0x46, 0x47, 0x4a]

  /** Opcodes after which no rest-of-packet `opcode_trailer` is read: the list above and 0x1e. */
  const OpcodesWithoutTrailer: seq<int> := [
    0x00, 0x01, 0x02, 0x03, 0x04, 0x05, 0x06, 0x07, 0x08, 0x09, 0x0a, 0x11, 0x1c, 0x1e, 0x22, 0x23,
    0x24, 0x25, 0x26, 0x27, 0x28, 0x29, 0x2a, 0x2b, 0x2c, 0x2d, 0x2f, 0x43, 0x44, 0x45, 0x46, 0x47, 0x4a]

  /** `opcode == 0` or (`opcode_version == 0` and `opcode_charset == 0`): the dispatcher information block follows. */
  const DpCond: Cond := Or(Eq(14, 0x00), And(Eq(16, 0x00), Eq(17, 0x00)))

  /** `iflag` in {0, 2, 5, 7} or `opcode == 0`: the administration layer follows. */
  const AdmCond: Cond := Or(In(10, [0x00, 0x02, 0x05, 0x07]), Eq(14, 0x00))

  /** `opcode` in {2, 3, 4, 5} and `opcode_version == v`: a list of version `v` client records follows. */
  function ClientsCond(v: int): Cond {
    And(In(14, [0x02, 0x03, 0x04, 0x05]), Eq(16, v))
  }

  const SapmsPart0: seq<Field> := [
    Field(Fixed(12), Always, 0),  // eyecatcher
    Field(Num(U8), Always, 0x04),  // version
    Field(Enum(U8), Always, 0x00),  // errorno (codes named in MsTables.MsErrornoValues)
    Field(Fixed(40), Always, 0),  // toname
    Field(Num(U8), Always, 0),  // msgtype
    Field(Num(U8), Always, 0x00),  // reserved
    Field(Enum(U8), Always, 0x00),  // domain (codes named in MsTables.MsDomainValues)
    Field(Num(U8), Always, 0x00),  // reserved
    Field(Fixed(8), Always, 0),  // key
    Field(Enum(U8), Always, 0x01)  // flag (codes named in MsTables.MsFlagValues)
  ]

  const SapmsPart1: seq<Field> := [
    Field(Enum(U8), Always, 0x01),  // iflag (codes named in MsTables.MsIflagValues)
    Field(Fixed(40), Always, 0),  // fromname
    Field(Num(U16), And(Eq(10, 0x08), Eq(9, 0x02)), 3200),  // diag_port
    Field(Num(U16), Or(Ne(10, 0x08), Ne(9, 0x02)), 0x0000),  // padd
    Field(Enum(U8), In(10, [0x00, 0x01, 0x02, 0x07]), 0x01),  // opcode (codes named in MsTables.MsOpcodeValues)
    Field(Enum(U8), In(10, [0x00, 0x01, 0x02, 0x07]), 0x00),  // opcode_error (codes named in MsTables.MsOpcodeErrorValues)
    Field(Num(U8), In(10, [0x00, 0x01, 0x02, 0x07]), 0x01),  // opcode_version
    Field(Num(U8), In(10, [0x00, 0x01, 0x02, 0x07]), 0x03),  // opcode_charset
    Field(Rest, And(In(10, [0x00, 0x01]), NotIn(14, OpcodesWithoutValue)), 0),  // opcode_value
    Field(Rest, And(In(10, [0x00, 0x01]), NotIn(14, OpcodesWithoutTrailer)), 0)  // opcode_trailer
  ]

  const SapmsPart2: seq<Field> := [
    Field(Num(U8), DpCond, 0x00),  // dp_version
    Field(Slice(DpInfo1, 507), And(DpCond, Eq(20, 0x0d)), 0),  // dp_info1
    Field(Slice(DpInfo2, 203), And(DpCond, Eq(20, 0x0b)), 0),  // dp_info2
    Field(Slice(DpInfo3, 179), And(DpCond, Eq(20, 0x0e)), 0),  // dp_info3
    Field(Fixed(12), AdmCond, 0),  // adm_eyecatcher
    Field(Num(U8), AdmCond, 0x01),  // adm_version
    Field(Enum(U8), AdmCond, 0x01),  // adm_type (codes named in MsTables.MsAdmTypeValues)
    Field(Fixed(11), AdmCond, 104),  // adm_recsize
    Field(Fixed(11), AdmCond, 1),  // adm_recno
    Field(Repeat(AdmRecord), AdmCond, 0)  // adm_records
  ]

  const SapmsPart3: seq<Field> := [
    Field(Repeat(Client1), ClientsCond(0x01), 0),  // clients
    Field(Repeat(Client2), ClientsCond(0x02), 0),  // clients
    Field(Repeat(Client3), ClientsCond(0x03), 0),  // clients
    Field(Repeat(Client4), ClientsCond(0x04), 0),  // clients
    Field(Fixed(4), Eq(14, 0x06), 0),  // change_ip_addressv4
    Field(Fixed(16), And(Eq(14, 0x06), Eq(16, 0x02)), 0),  // change_ip_addressv6
    Field(Fixed(40), In(14, [0x22, 0x23]), 0),  // text_name
    Field(LenOf(U32, 38), In(14, [0x22, 0x23]), 0),  // text_length
    Field(PaddedTo(LenFieldOr(37, 80)), In(14, [0x22, 0x23]), 0),  // text_value
    Field(Sub(Counter), In(14, [0x24, 0x25, 0x26, 0x27, 0x28, 0x29]), 0)  // counter
  ]

  const SapmsPart4: seq<Field> := [
    Field(Repeat(Counter), In(14, [0x2a]), 0),  // counters
    Field(Fixed(40), In(14, [0x07, 0x08]), 0),  // security_name
    Field(Fixed(256), In(14, [0x07, 0x08]), 0),  // security_key
    Field(Fixed(4), Eq(14, 0x09), 0),  // security2_addressv4
    Field(Num(U16), Eq(14, 0x09), 0),  // security2_port
    Field(Fixed(256), Eq(14, 0x09), 0),  // security2_key
    Field(Fixed(16), Eq(14, 0x09), 0),  // security2_addressv6
    Field(Fixed(99), Eq(14, 0x0a), 0),  // hwid
    Field(Sub(Stat3), And(Eq(14, 0x11), Eq(9, 0x03)), 0),  // stats
    Field(Num(U32), And(Eq(14, 0x1c), Eq(9, 0x03)), 0)  // codepage
  ]

  const SapmsPart5: seq<Field> := [
    Field(Num(U8), And(Eq(14, 0x1e), Eq(9, 0x02)), 0x02),  // dump_dest
    Field(Fixed(3), And(Eq(14, 0x1e), Eq(9, 0x02)), 0),  // dump_filler
    Field(Num(U16), And(Eq(14, 0x1e), Eq(9, 0x02)), 0x00),  // dump_index
    Field(Enum(U16), And(Eq(14, 0x1e), Eq(9, 0x02)), 0x01),  // dump_command (codes named in MsTables.MsDumpCommandValues)
    Field(Fixed(40), And(Eq(14, 0x1e), Eq(9, 0x02)), 0),  // dump_name
    Field(Enum(U8), Eq(14, 0x1f), 0),  // file_reload (codes named in MsTables.MsFileReloadValues)
    Field(Fixed(2), Eq(14, 0x1f), 0),  // file_padding
    Field(Sub(Logon), In(14, [0x2b, 0x2c, 0x2d]), 0),  // logon
    Field(Sub(Client3), In(14, [0x2e, 0x2f, 0x30, 0x4a]), 0),  // shutdown_client
    Field(LenOf(U16, 60), In(14, [0x2e, 0x2f, 0x30, 0x4a]), 0)  // shutdown_reason_length
  ]

  /**
   * The length of `ip_to_name` is read from `logonname_length`, which is not
   * a field of this packet: the rule reads position 69, past the last field.
   */
  const SapmsPart6: seq<Field> := [
    Field(Sized(LenField(59)), In(14, [0x2e, 0x2f, 0x30, 0x4a]), 0),  // shutdown_reason
    Field(Sub(Property), In(14, [0x43, 0x44, 0x45]), 0),  // property
    Field(Fixed(4), And(Eq(14, 0x46), Eq(16, 0x01)), 0),  // ip_to_name_address4
    Field(Fixed(16), And(Eq(14, 0x46), Eq(16, 0x02)), 0),  // ip_to_name_address6
    Field(Num(U16), Eq(14, 0x46), 0),  // ip_to_name_port
    Field(LenOf(U32, 66), Eq(14, 0x46), 0),  // ip_to_name_length
    Field(Sized(LenField(69)), Eq(14, 0x46), 0),  // ip_to_name
    Field(Num(U16), Eq(14, 0x47), 0),  // error_code
    Field(Fixed(46), Eq(14, 0x47), 0)  // acl
  ]

  /**
   * The Message Server packet. Positions the conditions read: 9 `flag`,
   * 10 `iflag`, 14 `opcode`, 16 `opcode_version`, 17 `opcode_charset`,
   * 20 `dp_version`.
   */
  const Sapms: Schema := Schema(SapmsPart0 + SapmsPart1 + SapmsPart2 + SapmsPart3 + SapmsPart4 + SapmsPart5 + SapmsPart6)

  // ---------------------------------------------------------------------------
  // Reading fields as the presence conditions do

  /**
   * The integer `pkt.<field>` gives for position `f`: the decoded value, or the
   * field's default when the field is absent (0 for a non-integer field).
   */
  function FieldValue(s: Schema, slots: seq<Slot>, f: nat): int {
    match Lookup(s.fields, slots, f)
    case Some(n) => n
    case None => 0
  }

  /** A single comparison, when it can be evaluated, compares `FieldValue`. */
  lemma LeafMeans(s: Schema, slots: seq<Slot>, f: nat, v: int, vs: seq<int>)
    ensures Eval(Eq(f, v), s.fields, slots).Some? ==> Eval(Eq(f, v), s.fields, slots) == Some(FieldValue(s, slots, f) == v)
    ensures Eval(Ne(f, v), s.fields, slots).Some? ==> Eval(Ne(f, v), s.fields, slots) == Some(FieldValue(s, slots, f) != v)
    ensures Eval(Gt(f, v), s.fields, slots).Some? ==> Eval(Gt(f, v), s.fields, slots) == Some(FieldValue(s, slots, f) > v)
    ensures Eval(In(f, vs), s.fields, slots).Some? ==> Eval(In(f, vs), s.fields, slots) == Some(FieldValue(s, slots, f) in vs)
    ensures Eval(NotIn(f, vs), s.fields, slots).Some? ==> Eval(NotIn(f, vs), s.fields, slots) == Some(FieldValue(s, slots, f) !in vs)
  {
  }

  // ---------------------------------------------------------------------------
  // The `SAPMS` header

  /** The widths of the header fields, `eyecatcher` through `padd`. */
  const HeaderWidths: seq<nat> := [12, 1, 1, 40, 1, 1, 1, 1, 8, 1, 1, 40, 2, 2]

  /** The conditions of the header fields, read off the layout. */
  lemma SapmsHeaderConds()
    ensures |Sapms.fields| == 69
    ensures forall m :: 0 <= m < 12 ==> Sapms.fields[m].cond == Always
    ensures Sapms.fields[12].cond == And(Eq(10, 0x08), Eq(9, 0x02))
    ensures Sapms.fields[13].cond == Or(Ne(10, 0x08), Ne(9, 0x02))
  {
  }

  /** The kinds of the header fields, read off the layout. */
  lemma SapmsHeaderKinds()
    ensures |Sapms.fields| == 69
    ensures forall m :: 0 <= m < 14 ==> StaticWidth(Sapms.fields[m].kind) == Some(HeaderWidths[m])
  {
  }

  /** The conditions of the opcode group, read off the layout. */
  lemma SapmsOpcodeConds()
    ensures |Sapms.fields| == 69
    ensures forall m :: 14 <= m < 18 ==> Sapms.fields[m].cond == In(10, [0x00, 0x01, 0x02, 0x07])
  {
  }

  /**
   * Exactly one of `diag_port` and `padd` is present: `diag_port` when
   * `iflag == 0x08` and `flag == 0x02`, `padd` otherwise.
   */
  lemma DiagPortOrPadd(slots: seq<Slot>)
    requires Conforms(Sapms, slots) && |slots| > 13
    ensures slots[12].Present? <==> FieldValue(Sapms, slots, 10) == 0x08 && FieldValue(Sapms, slots, 9) == 0x02
    ensures slots[13].Present? <==> !slots[12].Present?
  {
    SapmsHeaderConds();
    DiagPortOrPaddIn(Sapms, slots);
  }

  lemma DiagPortOrPaddIn(s: Schema, slots: seq<Slot>)
    requires Conforms(s, slots) && |slots| > 13
    requires s.fields[12].cond == And(Eq(10, 0x08), Eq(9, 0x02))
    requires s.fields[13].cond == Or(Ne(10, 0x08), Ne(9, 0x02))
    ensures slots[12].Present? <==> FieldValue(s, slots, 10) == 0x08 && FieldValue(s, slots, 9) == 0x02
    ensures slots[13].Present? <==> !slots[12].Present?
  {
    ConformsEval(s, slots, 12);
    ConformsEval(s, slots, 13);
  }

  /** The header slots of a conforming packet encode to exactly 110 bytes. */
  lemma HeaderWidth(slots: seq<Slot>)
    requires Conforms(Sapms, slots) && |slots| >= 14
    ensures EncodeFields(Sapms, slots[..14], 0).Ok?
    ensures |EncodeFields(Sapms, slots[..14], 0).value| == 110
  {
    SapmsHeaderConds();
    SapmsHeaderKinds();
    HeaderWidthIn(Sapms, slots);
  }

  lemma HeaderWidthIn(s: Schema, slots: seq<Slot>)
    requires Conforms(s, slots) && |slots| >= 14
    requires forall m :: 0 <= m < 12 ==> s.fields[m].cond == Always
    requires forall m :: 0 <= m < 14 ==> StaticWidth(s.fields[m].kind) == Some(HeaderWidths[m])
    requires s.fields[12].cond == And(Eq(10, 0x08), Eq(9, 0x02))
    requires s.fields[13].cond == Or(Ne(10, 0x08), Ne(9, 0x02))
    ensures EncodeFields(s, slots[..14], 0).Ok?
    ensures |EncodeFields(s, slots[..14], 0).value| == 110
  {
    var h := slots[..14];
    ConformsPrefix(s, slots, 14);
    EncodeStaticLength(s, h, 0);
    forall m | 0 <= m < 12 ensures h[m].Present? {
      assert SlotFits(s, slots, m);
    }
    DiagPortOrPaddIn(s, slots);
    assert h[12] == slots[12] && h[13] == slots[13];
    assert StaticWidth(s.fields[12].kind) == Some(2) && StaticWidth(s.fields[13].kind) == Some(2);
    assert PresentWidth(s, h, 14) == 0;
    assert PresentWidth(s, h, 13) == if h[13].Present? then 2 else 0;
    assert PresentWidth(s, h, 12) == 2;
    assert PresentWidth(s, h, 11) == 42;
    assert PresentWidth(s, h, 10) == 43;
    assert PresentWidth(s, h, 9) == 44;
    assert PresentWidth(s, h, 8) == 52;
    assert PresentWidth(s, h, 7) == 53;
    assert PresentWidth(s, h, 6) == 54;
    assert PresentWidth(s, h, 5) == 55;
    assert PresentWidth(s, h, 4) == 56;
    assert PresentWidth(s, h, 3) == 96;
    assert PresentWidth(s, h, 2) == 97;
    assert PresentWidth(s, h, 1) == 98;
  }

  /**
   * A decoded packet whose header is complete begins with exactly 110 bytes
   * of header: the header slots re-encode to the first 110 input bytes.
   */
  lemma DecodedHeader(bs: seq<byte>)
    requires Decode(Sapms, bs).Ok? && |Decode(Sapms, bs).value.slots| >= 14
    ensures |bs| >= 110
    ensures EncodeFields(Sapms, Decode(Sapms, bs).value.slots[..14], 0) == Ok(bs[..110])
  {
    var p := Decode(Sapms, bs).value;
    DecodeConforms(Sapms, bs);
    DecodeEncode(Sapms, bs);
    EncodePrefix(Sapms, p.slots, 14, 0);
    HeaderWidth(p.slots);
    var head := EncodeFields(Sapms, p.slots[..14], 0).value;
    assert bs == head + EncodeFields(Sapms, p.slots, 14).value + p.payload;
    assert bs[..110] == head;
  }

  // ---------------------------------------------------------------------------
  // The opcode group

  /**
   * `opcode`, `opcode_error`, `opcode_version` and `opcode_charset` are each
   * present exactly when `iflag` is one of 0x00, 0x01, 0x02, 0x07; hence they
   * are present together or absent together.
   */
  lemma OpcodeGroup(slots: seq<Slot>)
    requires Conforms(Sapms, slots) && |slots| > 10
    ensures forall m :: 14 <= m < 18 && m < |slots| ==>
              (slots[m].Present? <==> FieldValue(Sapms, slots, 10) in {0x00, 0x01, 0x02, 0x07})
    ensures forall m, m' :: 14 <= m < m' < 18 && m' < |slots| ==> slots[m].Present? == slots[m'].Present?
  {
    SapmsOpcodeConds();
    OpcodeGroupIn(Sapms, slots);
  }

  lemma OpcodeGroupIn(s: Schema, slots: seq<Slot>)
    requires Conforms(s, slots) && |slots| > 10
    requires forall m :: 14 <= m < 18 && m < |slots| ==> s.fields[m].cond == In(10, [0x00, 0x01, 0x02, 0x07])
    ensures forall m :: 14 <= m < 18 && m < |slots| ==>
              (slots[m].Present? <==> FieldValue(s, slots, 10) in {0x00, 0x01, 0x02, 0x07})
  {
    forall m | 14 <= m < 18 && m < |slots|
      ensures slots[m].Present? <==> FieldValue(s, slots, 10) in {0x00, 0x01, 0x02, 0x07}
    {
      ConformsEval(s, slots, m);
    }
  }

  // ---------------------------------------------------------------------------
  // Dispatcher information

  /** The `dp_version` code that selects each dispatcher information block, at positions 21 to 23. */
  function DpCode(m: nat): int {
    if m == 21 then 0x0d else if m == 22 then 0x0b else 0x0e
  }

  /** The dispatcher information fields, read off the layout. */
  lemma SapmsDpFields()
    ensures |Sapms.fields| == 69
    ensures Sapms.fields[20].cond == DpCond
    ensures forall m :: 21 <= m < 24 ==> Sapms.fields[m].cond == And(DpCond, Eq(20, DpCode(m)))
    ensures Sapms.fields[21].kind == Slice(DpInfo1, 507)
    ensures Sapms.fields[22].kind == Slice(DpInfo2, 203)
    ensures Sapms.fields[23].kind == Slice(DpInfo3, 179)
  {
  }

  /** `dp_version` is present exactly when `opcode == 0` or `opcode_version == opcode_charset == 0`. */
  lemma DpVersionPresence(slots: seq<Slot>)
    requires Conforms(Sapms, slots) && |slots| > 20
    ensures slots[20].Present? <==>
      FieldValue(Sapms, slots, 14) == 0 || (FieldValue(Sapms, slots, 16) == 0 && FieldValue(Sapms, slots, 17) == 0)
  {
    SapmsDpFields();
    DpVersionIn(Sapms, slots);
  }

  lemma DpVersionIn(s: Schema, slots: seq<Slot>)
    requires Conforms(s, slots) && |slots| > 20 && s.fields[20].cond == DpCond
    ensures slots[20].Present? <==>
      FieldValue(s, slots, 14) == 0 || (FieldValue(s, slots, 16) == 0 && FieldValue(s, slots, 17) == 0)
  {
    ConformsEval(s, slots, 20);
    var a := Eval(Eq(16, 0x00), s.fields, slots);
    var b := Eval(Eq(17, 0x00), s.fields, slots);
    assert a.Some? ==> a == Some(FieldValue(s, slots, 16) == 0);
    assert b.Some? ==> b == Some(FieldValue(s, slots, 17) == 0);
    var inner := Eval(And(Eq(16, 0x00), Eq(17, 0x00)), s.fields, slots);
    assert inner == (match a case None => None case Some(false) => Some(false) case Some(true) => b);
    assert inner.Some? ==> inner == Some(FieldValue(s, slots, 16) == 0 && FieldValue(s, slots, 17) == 0);
  }

  /**
   * The block at position 21, 22 or 23 is present exactly when `dp_version`
   * is present and equals 0x0d, 0x0b or 0x0e respectively; so at most one of
   * the three is present.
   */
  lemma DpInfoChoice(slots: seq<Slot>)
    requires Conforms(Sapms, slots)
    ensures forall m :: 21 <= m < 24 && m < |slots| ==>
              (slots[m].Present? <==> slots[20].Present? && FieldValue(Sapms, slots, 20) == DpCode(m))
    ensures forall m, m' :: 21 <= m < m' < 24 && m' < |slots| ==> !(slots[m].Present? && slots[m'].Present?)
  {
    SapmsDpFields();
    DpInfoChoiceIn(Sapms, slots);
  }

  lemma DpInfoChoiceIn(s: Schema, slots: seq<Slot>)
    requires Conforms(s, slots) && |s.fields| > 23
    requires s.fields[20].cond == DpCond
    requires forall m :: 21 <= m < 24 ==> s.fields[m].cond == And(DpCond, Eq(20, DpCode(m)))
    ensures forall m :: 21 <= m < 24 && m < |slots| ==>
              (slots[m].Present? <==> slots[20].Present? && FieldValue(s, slots, 20) == DpCode(m))
  {
    forall m | 21 <= m < 24 && m < |slots|
      ensures slots[m].Present? <==> slots[20].Present? && FieldValue(s, slots, 20) == DpCode(m)
    {
      ConformsEval(s, slots, 20);
      ConformsEval(s, slots, m);
    }
  }

  /** A `dp_info1` slice decodes to a complete `SAPDPInfo1` record, which fills all 507 bytes. */
  lemma DpInfo1Fills(acc: seq<Slot>, bs: seq<byte>)
    requires |acc| == 21 && |bs| >= 507
    ensures DecodeValue(Sapms, acc, bs).Ok?
    ensures DecodeValue(Sapms, acc, bs).value.0.Record?
    ensures |DecodeValue(Sapms, acc, bs).value.0.slots| == |DpInfo1.fields|
    ensures DecodeValue(Sapms, acc, bs).value.0.trailer == []
    ensures DecodeValue(Sapms, acc, bs).value.1 == bs[507..]
  {
    SapmsDpFields();
    DpInfo1Width();
    FixedSliceDecode(Sapms, acc, bs);
  }

  /** A `dp_info2` slice decodes to a complete `SAPDPInfo2` record, which fills all 203 bytes. */
  lemma DpInfo2Fills(acc: seq<Slot>, bs: seq<byte>)
    requires |acc| == 22 && |bs| >= 203
    ensures DecodeValue(Sapms, acc, bs).Ok?
    ensures DecodeValue(Sapms, acc, bs).value.0.Record?
    ensures |DecodeValue(Sapms, acc, bs).value.0.slots| == |DpInfo2.fields|
    ensures DecodeValue(Sapms, acc, bs).value.0.trailer == []
    ensures DecodeValue(Sapms, acc, bs).value.1 == bs[203..]
  {
    SapmsDpFields();
    DpInfo2Width();
    FixedSliceDecode(Sapms, acc, bs);
  }

  /**
   * The `dp_info3` slice is 179 bytes but `SAPDPInfo3` takes 180, its last
   * field 5: decoding that slice always runs out of input.
   */
  lemma DpInfo3SliceFails(acc: seq<Slot>, bs: seq<byte>)
    requires |acc| == 23
    ensures DecodeValue(Sapms, acc, bs).Err?
  {
    SapmsDpFields();
    DpInfo3Width();
    DpInfo3LastField();
    NarrowSliceFails(Sapms, acc, bs);
  }

  lemma DpInfo3LastField()
    ensures StaticWidth(DpInfo3.fields[|DpInfo3.fields| - 1].kind) == Some(5)
  {
  }

  /** So no decoded packet holds a `dp_info3` block. */
  lemma DpInfo3NeverDecoded(bs: seq<byte>)
    requires Decode(Sapms, bs).Ok? && |Decode(Sapms, bs).value.slots| > 23
    ensures Decode(Sapms, bs).value.slots[23].Absent?
  {
    var slots := Decode(Sapms, bs).value.slots;
    var bs', rest' := DecodedSlotWitness(Sapms, [], bs, 23);
    if slots[23].Present? {
      assert DecodeValue(Sapms, slots[..23], bs').Ok?;
      DpInfo3SliceFails(slots[..23], bs');
    }
  }

  // ---------------------------------------------------------------------------
  // Client lists

  /** The client record of version `v`, 1 to 4. */
  function ClientSchema(v: int): Schema
    requires 1 <= v <= 4
  {
    if v == 1 then Client1 else if v == 2 then Client2 else if v == 3 then Client3 else Client4
  }

  /** The width of a version `v` client record. */
  function ClientWidth(v: int): nat
    requires 1 <= v <= 4
  {
    if v == 1 then 67 else if v == 2 then 115 else if v == 3 then 150 else 160
  }

  /** The client list fields, read off the layout. */
  lemma SapmsClientFields()
    ensures |Sapms.fields| == 69
    ensures forall m :: 30 <= m < 34 ==> Sapms.fields[m].cond == ClientsCond(m - 29)
    ensures forall m :: 30 <= m < 34 ==> Sapms.fields[m].kind == Repeat(ClientSchema(m - 29))
  {
  }

  /**
   * The list at position 29 + v holds version `v` client records and is
   * present exactly when `opcode` is 2, 3, 4 or 5 and `opcode_version == v`;
   * so at most one of the four lists is present.
   */
  lemma ClientsSelection(slots: seq<Slot>)
    requires Conforms(Sapms, slots)
    ensures forall m :: 30 <= m < 34 ==> Sapms.fields[m].kind == Repeat(ClientSchema(m - 29))
    ensures forall m :: 30 <= m < 34 && m < |slots| ==>
              (slots[m].Present? <==>
                 FieldValue(Sapms, slots, 14) in {0x02, 0x03, 0x04, 0x05} && FieldValue(Sapms, slots, 16) == m - 29)
    ensures forall m, m' :: 30 <= m < m' < 34 && m' < |slots| ==> !(slots[m].Present? && slots[m'].Present?)
  {
    SapmsClientFields();
    ClientsIn(Sapms, slots);
  }

  lemma ClientsIn(s: Schema, slots: seq<Slot>)
    requires Conforms(s, slots) && |s.fields| > 33
    requires forall m :: 30 <= m < 34 ==> s.fields[m].cond == ClientsCond(m - 29)
    ensures forall m :: 30 <= m < 34 && m < |slots| ==>
              (slots[m].Present? <==>
                 FieldValue(s, slots, 14) in {0x02, 0x03, 0x04, 0x05} && FieldValue(s, slots, 16) == m - 29)
  {
    forall m | 30 <= m < 34 && m < |slots|
      ensures slots[m].Present? <==>
                FieldValue(s, slots, 14) in {0x02, 0x03, 0x04, 0x05} && FieldValue(s, slots, 16) == m - 29
    {
      ConformsEval(s, slots, m);
      LeafMeans(s, slots, 14, 0, [0x02, 0x03, 0x04, 0x05]);
      LeafMeans(s, slots, 16, m - 29, []);
      var a := Eval(In(14, [0x02, 0x03, 0x04, 0x05]), s.fields, slots);
      var b := Eval(Eq(16, m - 29), s.fields, slots);
      assert Eval(ClientsCond(m - 29), s.fields, slots) ==
        (match a case None => None case Some(false) => Some(false) case Some(true) => b);
    }
  }

  /** Every client record version is a fixed record of the width the source declares. */
  lemma ClientWidths(v: int)
    requires 1 <= v <= 4
    ensures FixedRecord(ClientSchema(v)) && RecordWidth(ClientSchema(v)) == ClientWidth(v)
  {
    Client1Width();
    Client2Width();
    Client3Width();
    Client4Width();
  }

  /**
   * A list of complete version `v` client records encodes to `v`'s width per
   * record and decodes back to the same list.
   */
  lemma ClientListRoundTrip(v: int, items: seq<seq<Slot>>)
    requires 1 <= v <= 4
    requires forall k :: 0 <= k < |items| ==>
               Conforms(ClientSchema(v), items[k]) && |items[k]| == |ClientSchema(v).fields|
    ensures EncodeList(ClientSchema(v), items).Ok?
    ensures |EncodeList(ClientSchema(v), items).value| == |items| * ClientWidth(v)
    ensures DecodeList(ClientSchema(v), EncodeList(ClientSchema(v), items).value) == Ok(items)
  {
    ClientWidths(v);
    FixedListLength(ClientSchema(v), items);
    FixedListRoundTrip(ClientSchema(v), items);
  }

  // ---------------------------------------------------------------------------
  // Administration records

  /** A record's body is selected by its opcode, or, for any other opcode, by `executed` being 0 or 1. */
  predicate AdmSelected(opcode: int, executed: int) {
    opcode in {0x01, 0x2e, 0x15} || executed in {0x00, 0x01}
  }

  /** The body conditions of the administration record, read off the layout. */
  lemma AdmConds()
    ensures |AdmRecord.fields| == 25
    ensures forall m :: 0 <= m < 4 ==> AdmRecord.fields[m].cond == Always
    ensures forall m :: 4 <= m < 6 ==> AdmRecord.fields[m].cond == And(NotIn(0, [0x01, 0x15, 0x2e]), Eq(2, 0x01))
    ensures AdmRecord.fields[6].cond == And(NotIn(0, [0x01, 0x15, 0x2e]), Eq(2, 0x00))
    ensures AdmRecord.fields[7].cond == In(0, [0x01, 0x2e])
    ensures forall m :: 8 <= m < 13 || m == 24 ==> AdmRecord.fields[m].cond == In(0, [0x15])
    ensures forall m :: 13 <= m < 23 ==> AdmRecord.fields[m].cond == And(In(0, [0x15]), In(8, RzlIntegerTypes))
    ensures AdmRecord.fields[23].cond == And(In(0, [0x15]), NotIn(8, RzlIntegerTypes))
  {
  }

  /**
   * Which fields of a complete administration record are present, in terms
   * of `opcode`, `executed` and `rzl_strg_type`: the 75+25-byte record, the
   * 100-byte record and the parameter exclude one another, and the ten
   * integers exclude the 40-byte value.
   */
  lemma AdmPresence(slots: seq<Slot>)
    requires Conforms(AdmRecord, slots) && |slots| == 25
    ensures var op := FieldValue(AdmRecord, slots, 0);
            var ex := FieldValue(AdmRecord, slots, 2);
            var rt := FieldValue(AdmRecord, slots, 8);
            (forall m :: 0 <= m < 4 ==> slots[m].Present?) &&
            (forall m :: 4 <= m < 6 ==> (slots[m].Present? <==> op !in {0x01, 0x15, 0x2e} && ex == 0x01)) &&
            (slots[6].Present? <==> op !in {0x01, 0x15, 0x2e} && ex == 0x00) &&
            (slots[7].Present? <==> op in {0x01, 0x2e}) &&
            (forall m :: 8 <= m < 13 || m == 24 ==> (slots[m].Present? <==> op == 0x15)) &&
            (forall m :: 13 <= m < 23 ==> (slots[m].Present? <==> op == 0x15 && rt in RzlIntegerTypes)) &&
            (slots[23].Present? <==> op == 0x15 && rt !in RzlIntegerTypes)
  {
    AdmConds();
    AdmHeadIn(AdmRecord, slots);
    AdmRecordIn(AdmRecord, slots);
    AdmRzlIn(AdmRecord, slots);
  }

  lemma AdmHeadIn(s: Schema, slots: seq<Slot>)
    requires Conforms(s, slots) && |slots| == |s.fields| == 25
    requires forall m :: 0 <= m < 4 ==> s.fields[m].cond == Always
    ensures forall m :: 0 <= m < 4 ==> slots[m].Present?
  {
    forall m | 0 <= m < 4 ensures slots[m].Present? {
      assert SlotFits(s, slots, m);
    }
  }

  lemma AdmRecordIn(s: Schema, slots: seq<Slot>)
    requires Conforms(s, slots) && |slots| == |s.fields| == 25
    requires forall m :: 4 <= m < 6 ==> s.fields[m].cond == And(NotIn(0, [0x01, 0x15, 0x2e]), Eq(2, 0x01))
    requires s.fields[6].cond == And(NotIn(0, [0x01, 0x15, 0x2e]), Eq(2, 0x00))
    requires s.fields[7].cond == In(0, [0x01, 0x2e])
    ensures var op := FieldValue(s, slots, 0);
            var ex := FieldValue(s, slots, 2);
            (forall m :: 4 <= m < 6 ==> (slots[m].Present? <==> op !in {0x01, 0x15, 0x2e} && ex == 0x01)) &&
            (slots[6].Present? <==> op !in {0x01, 0x15, 0x2e} && ex == 0x00) &&
            (slots[7].Present? <==> op in {0x01, 0x2e})
  {
    AdmGuardedIn(s, slots, 4, 0x01);
    AdmGuardedIn(s, slots, 5, 0x01);
    AdmGuardedIn(s, slots, 6, 0x00);
    LeafMeans(s, slots, 0, 0, [0x01, 0x2e]);
    ConformsEval(s, slots, 7);
  }

  /** A record body guarded by `opcode` not in {0x01, 0x15, 0x2e} and `executed == e`. */
  lemma AdmGuardedIn(s: Schema, slots: seq<Slot>, m: nat, e: int)
    requires Conforms(s, slots) && 2 < m < |slots|
    requires s.fields[m].cond == And(NotIn(0, [0x01, 0x15, 0x2e]), Eq(2, e))
    ensures slots[m].Present? <==> FieldValue(s, slots, 0) !in {0x01, 0x15, 0x2e} && FieldValue(s, slots, 2) == e
  {
    LeafMeans(s, slots, 0, 0, [0x01, 0x15, 0x2e]);
    LeafMeans(s, slots, 2, e, []);
    ConformsEval(s, slots, m);
    var a := Eval(NotIn(0, [0x01, 0x15, 0x2e]), s.fields, slots);
    assert Eval(s.fields[m].cond, s.fields, slots) ==
      (match a case None => None case Some(false) => Some(false) case Some(true) => Eval(Eq(2, e), s.fields, slots));
  }

  lemma AdmRzlIn(s: Schema, slots: seq<Slot>)
    requires Conforms(s, slots) && |slots| == |s.fields| == 25
    requires forall m :: 8 <= m < 13 || m == 24 ==> s.fields[m].cond == In(0, [0x15])
    requires forall m :: 13 <= m < 23 ==> s.fields[m].cond == And(In(0, [0x15]), In(8, RzlIntegerTypes))
    requires s.fields[23].cond == And(In(0, [0x15]), NotIn(8, RzlIntegerTypes))
    ensures var op := FieldValue(s, slots, 0);
            var rt := FieldValue(s, slots, 8);
            (forall m :: 8 <= m < 13 || m == 24 ==> (slots[m].Present? <==> op == 0x15)) &&
            (forall m :: 13 <= m < 23 ==> (slots[m].Present? <==> op == 0x15 && rt in RzlIntegerTypes)) &&
            (slots[23].Present? <==> op == 0x15 && rt !in RzlIntegerTypes)
  {
    LeafMeans(s, slots, 0, 0, [0x15]);
    forall m | 8 <= m < 13 || m == 24 ensures slots[m].Present? <==> FieldValue(s, slots, 0) == 0x15 {
      ConformsEval(s, slots, m);
    }
    forall m | 13 <= m < 23
      ensures slots[m].Present? <==> FieldValue(s, slots, 0) == 0x15 && FieldValue(s, slots, 8) in RzlIntegerTypes
    {
      AdmStatIn(s, slots, m, In(8, RzlIntegerTypes));
      LeafMeans(s, slots, 8, 0, RzlIntegerTypes);
    }
    AdmStatIn(s, slots, 23, NotIn(8, RzlIntegerTypes));
    LeafMeans(s, slots, 8, 0, RzlIntegerTypes);
  }

  /** A statistics field guarded by `opcode == 0x15` and a test `t` on `rzl_strg_type`. */
  lemma AdmStatIn(s: Schema, slots: seq<Slot>, m: nat, t: Cond)
    requires Conforms(s, slots) && 8 < m < |slots| && Reads(t) <= 9
    requires s.fields[m].cond == And(In(0, [0x15]), t)
    ensures slots[m].Present? <==> FieldValue(s, slots, 0) == 0x15 && Eval(t, s.fields, slots) == Some(true)
    ensures FieldValue(s, slots, 0) == 0x15 ==> Eval(t, s.fields, slots).Some?
  {
    LeafMeans(s, slots, 0, 0, [0x15]);
    ConformsEval(s, slots, m);
    var a := Eval(In(0, [0x15]), s.fields, slots);
    assert Eval(s.fields[m].cond, s.fields, slots) ==
      (match a case None => None case Some(false) => Some(false) case Some(true) => Eval(t, s.fields, slots));
  }

  /** The widths of the administration record fields, read off the layout. */
  lemma AdmKinds()
    ensures |AdmRecord.fields| == 25
    ensures forall m :: 0 <= m < 4 || 8 <= m < 12 ==> StaticWidth(AdmRecord.fields[m].kind) == Some(1)
    ensures AdmHeadWidths(AdmRecord)
    ensures forall m :: 13 <= m < 23 ==> StaticWidth(AdmRecord.fields[m].kind) == Some(4)
    ensures AdmTailWidths(AdmRecord)
  {
    AdmByteKinds();
    AdmStatKinds();
  }

  lemma AdmByteKinds()
    ensures |AdmRecord.fields| == 25
    ensures forall m :: 0 <= m < 4 || 8 <= m < 12 ==> StaticWidth(AdmRecord.fields[m].kind) == Some(1)
    ensures AdmHeadWidths(AdmRecord)
  {
  }

  lemma AdmStatKinds()
    ensures |AdmRecord.fields| == 25
    ensures forall m :: 13 <= m < 23 ==> StaticWidth(AdmRecord.fields[m].kind) == Some(4)
    ensures AdmTailWidths(AdmRecord)
  {
  }

  /** The widths of the record, record_pad, record and parameter fields. */
  predicate AdmHeadWidths(s: Schema)
    requires |s.fields| == 25
  {
    StaticWidth(s.fields[4].kind) == Some(75) && StaticWidth(s.fields[5].kind) == Some(25) &&
    StaticWidth(s.fields[6].kind) == Some(100) && StaticWidth(s.fields[7].kind) == Some(100)
  }

  /** The widths of `rzl_strg_name`, `rzl_strg_value` and `rzl_strg_padd2`. */
  predicate AdmTailWidths(s: Schema)
    requires |s.fields| == 25
  {
    StaticWidth(s.fields[12].kind) == Some(20) && StaticWidth(s.fields[23].kind) == Some(40) &&
    StaticWidth(s.fields[24].kind) == Some(36)
  }

  /**
   * A complete administration record encodes to 104 bytes, the `adm_recsize`
   * default, when its body is selected, and to its 4 leading bytes otherwise.
   */
  lemma AdmRecordWidth(slots: seq<Slot>)
    requires Conforms(AdmRecord, slots) && |slots| == 25
    ensures EncodeFields(AdmRecord, slots, 0).Ok?
    ensures |EncodeFields(AdmRecord, slots, 0).value| ==
      if AdmSelected(FieldValue(AdmRecord, slots, 0), FieldValue(AdmRecord, slots, 2)) then 104 else 4
  {
    AdmPresence(slots);
    AdmKinds();
    AdmWidthIn(AdmRecord, slots);
  }

  lemma AdmWidthIn(s: Schema, slots: seq<Slot>)
    requires Conforms(s, slots) && |slots| == |s.fields| == 25
    requires forall m :: 0 <= m < 4 || 8 <= m < 12 ==> StaticWidth(s.fields[m].kind) == Some(1)
    requires forall m :: 13 <= m < 23 ==> StaticWidth(s.fields[m].kind) == Some(4)
    requires AdmHeadWidths(s) && AdmTailWidths(s)
    requires var op := FieldValue(s, slots, 0);
            var ex := FieldValue(s, slots, 2);
            var rt := FieldValue(s, slots, 8);
            (forall m :: 0 <= m < 4 ==> slots[m].Present?) &&
            (forall m :: 4 <= m < 6 ==> (slots[m].Present? <==> op !in {0x01, 0x15, 0x2e} && ex == 0x01)) &&
            (slots[6].Present? <==> op !in {0x01, 0x15, 0x2e} && ex == 0x00) &&
            (slots[7].Present? <==> op in {0x01, 0x2e}) &&
            (forall m :: 8 <= m < 13 || m == 24 ==> (slots[m].Present? <==> op == 0x15)) &&
            (forall m :: 13 <= m < 23 ==> (slots[m].Present? <==> op == 0x15 && rt in RzlIntegerTypes)) &&
            (slots[23].Present? <==> op == 0x15 && rt !in RzlIntegerTypes)
    ensures EncodeFields(s, slots, 0).Ok?
    ensures |EncodeFields(s, slots, 0).value| ==
      if AdmSelected(FieldValue(s, slots, 0), FieldValue(s, slots, 2)) then 104 else 4
  {
    var op := FieldValue(s, slots, 0);
    var ex := FieldValue(s, slots, 2);
    var rt := FieldValue(s, slots, 8);
    EncodeStaticLength(s, slots, 0);
    UniformRun(s, slots, 0, 4, 1);
    if op == 0x15 {
      AdmWidthRzl(s, slots, rt in RzlIntegerTypes);
    } else {
      AdmWidthOther(s, slots, op in {0x01, 0x2e}, ex == 0x01, ex == 0x00);
    }
  }

  /** The 0x15 body: 24 bytes, ten integers or a 40-byte value, 36 bytes of padding. */
  lemma AdmWidthRzl(s: Schema, slots: seq<Slot>, ints: bool)
    requires |slots| == |s.fields| == 25
    requires forall m :: 8 <= m < 12 ==> StaticWidth(s.fields[m].kind) == Some(1)
    requires forall m :: 13 <= m < 23 ==> StaticWidth(s.fields[m].kind) == Some(4)
    requires AdmTailWidths(s)
    requires forall m :: 4 <= m < 8 ==> slots[m].Absent?
    requires forall m :: 8 <= m < 13 || m == 24 ==> slots[m].Present?
    requires forall m :: 13 <= m < 23 ==> (slots[m].Present? <==> ints)
    requires slots[23].Present? <==> !ints
    ensures PresentWidth(s, slots, 4) == 100
  {
    AbsentRun(s, slots, 4, 8);
    UniformRun(s, slots, 8, 12, 1);
    AdmStatsWidth(s, slots, ints);
    assert PresentWidth(s, slots, 12) == 96;
  }

  /** Ten integers or a 40-byte value, then 36 bytes of padding: 76 bytes either way. */
  lemma AdmStatsWidth(s: Schema, slots: seq<Slot>, ints: bool)
    requires |slots| == |s.fields| == 25
    requires forall m :: 13 <= m < 23 ==> StaticWidth(s.fields[m].kind) == Some(4)
    requires AdmTailWidths(s)
    requires forall m :: 13 <= m < 23 ==> (slots[m].Present? <==> ints)
    requires slots[23].Present? <==> !ints
    requires slots[24].Present?
    ensures PresentWidth(s, slots, 13) == 76
  {
    assert PresentWidth(s, slots, 25) == 0;
    assert PresentWidth(s, slots, 24) == 36;
    if ints {
      assert PresentWidth(s, slots, 23) == 36;
      UniformRun(s, slots, 13, 23, 4);
    } else {
      assert PresentWidth(s, slots, 23) == 76;
      AbsentRun(s, slots, 13, 23);
    }
  }

  /** Any other opcode: a 100-byte parameter, a 75+25-byte record, a 100-byte record, or nothing. */
  lemma AdmWidthOther(s: Schema, slots: seq<Slot>, param: bool, done: bool, failed: bool)
    requires |slots| == |s.fields| == 25
    requires AdmHeadWidths(s)
    requires !(done && failed)
    requires forall m :: 4 <= m < 6 ==> (slots[m].Present? <==> !param && done)
    requires slots[6].Present? <==> !param && failed
    requires slots[7].Present? <==> param
    requires forall m :: 8 <= m < 25 ==> slots[m].Absent?
    ensures PresentWidth(s, slots, 4) == if param || done || failed then 100 else 0
  {
    AbsentRun(s, slots, 8, 25);
    assert PresentWidth(s, slots, 7) == if param then 100 else 0;
    assert PresentWidth(s, slots, 6) == PresentWidth(s, slots, 7) + if slots[6].Present? then 100 else 0;
    assert PresentWidth(s, slots, 5) == PresentWidth(s, slots, 6) + if slots[5].Present? then 25 else 0;
  }

  /** A complete administration record, followed by bytes or ending in a present field, decodes back from its encoding. */
  lemma AdmRecordRoundTrip(p: Packet)
    requires Conforms(AdmRecord, p.slots) && |p.slots| == |AdmRecord.fields|
    requires p.payload != [] || p.slots[|p.slots| - 1].Present?
    ensures Encode(AdmRecord, p).Ok? && Decode(AdmRecord, Encode(AdmRecord, p).value) == Ok(p)
  {
    AdmKinds();
    EncodeDecodeStatic(AdmRecord, p);
  }

  // ---------------------------------------------------------------------------
  // Text, and the `ip_to_name` rule

  /** The text fields, read off the layout. */
  lemma SapmsTextFields()
    ensures |Sapms.fields| == 69
    ensures Sapms.fields[38].cond == In(14, [0x22, 0x23])
    ensures Sapms.fields[38].kind == PaddedTo(LenFieldOr(37, 80))
  {
  }

  /**
   * `text_value` is present exactly for opcodes 0x22 and 0x23, and then takes
   * `text_length` bytes, or 80 bytes when `text_length` is 0.
   */
  lemma TextValueLength(slots: seq<Slot>)
    requires Conforms(Sapms, slots) && |slots| > 38
    ensures slots[38].Present? <==> FieldValue(Sapms, slots, 14) in {0x22, 0x23}
    ensures slots[38].Present? ==>
      slots[38].value.Bytes? &&
      |slots[38].value.b| == (if FieldValue(Sapms, slots, 37) == 0 then 80 else FieldValue(Sapms, slots, 37))
  {
    SapmsTextFields();
    TextValueIn(Sapms, slots);
  }

  lemma TextValueIn(s: Schema, slots: seq<Slot>)
    requires Conforms(s, slots) && |slots| > 38
    requires s.fields[38].cond == In(14, [0x22, 0x23])
    requires s.fields[38].kind == PaddedTo(LenFieldOr(37, 80))
    ensures slots[38].Present? <==> FieldValue(s, slots, 14) in {0x22, 0x23}
    ensures slots[38].Present? ==>
      slots[38].value.Bytes? &&
      |slots[38].value.b| == (if FieldValue(s, slots, 37) == 0 then 80 else FieldValue(s, slots, 37))
  {
    ConformsEval(s, slots, 38);
    LeafMeans(s, slots, 14, 0, [0x22, 0x23]);
    assert SlotFits(s, slots, 38);
    LookupPrefix(s.fields, slots, 38, 37);
  }

  /** The `ip_to_name` fields, read off the layout. */
  lemma SapmsIpToNameFields()
    ensures |Sapms.fields| == 69
    ensures Sapms.fields[66].cond == Eq(14, 0x46)
    ensures Sapms.fields[66].kind == Sized(LenField(69))
  {
  }

  /**
   * The length rule of `ip_to_name` reads a field the packet does not have,
   * so no conforming slots hold it, and none that reach it have opcode 0x46.
   */
  lemma IpToNameUnreachable(slots: seq<Slot>)
    requires Conforms(Sapms, slots) && |slots| > 66
    ensures slots[66].Absent?
    ensures FieldValue(Sapms, slots, 14) != 0x46
  {
    SapmsIpToNameFields();
    IpToNameIn(Sapms, slots);
  }

  lemma IpToNameIn(s: Schema, slots: seq<Slot>)
    requires Conforms(s, slots) && |s.fields| == 69 && |slots| > 66
    requires s.fields[66].cond == Eq(14, 0x46)
    requires s.fields[66].kind == Sized(LenField(69))
    ensures slots[66].Absent?
    ensures FieldValue(s, slots, 14) != 0x46
  {
    assert SlotFits(s, slots, 66);
    ConformsEval(s, slots, 66);
    LeafMeans(s, slots, 14, 0x46, []);
  }

  /** Decoding a packet with opcode 0x46 therefore fails whenever input remains at `ip_to_name`. */
  lemma IpToNameDecode(bs: seq<byte>)
    requires Decode(Sapms, bs).Ok?
    ensures |Decode(Sapms, bs).value.slots| > 66 ==> FieldValue(Sapms, Decode(Sapms, bs).value.slots, 14) != 0x46
  {
    DecodeConforms(Sapms, bs);
    if |Decode(Sapms, bs).value.slots| > 66 {
      IpToNameUnreachable(Decode(Sapms, bs).value.slots);
    }
  }

  // ---------------------------------------------------------------------------
  // Logon records

  /**
   * In conforming logon slots each of the four strings is exactly as long as
   * the length field before it, and `address6` and `end` are present exactly
   * when `address6_length` is positive.
   */
  lemma LogonLengths(slots: seq<Slot>)
    requires Conforms(Logon, slots)
    ensures forall k :: k in {4, 6, 8, 10} && k < |slots| ==>
              slots[k].Present? && slots[k].value.Bytes? && |slots[k].value.b| == FieldValue(Logon, slots, k - 1)
    ensures forall k :: 12 <= k < 14 && k < |slots| ==> (slots[k].Present? <==> FieldValue(Logon, slots, 11) > 0)
  {
    forall k | k in {4, 6, 8, 10} && k < |slots|
      ensures slots[k].Present? && slots[k].value.Bytes? && |slots[k].value.b| == FieldValue(Logon, slots, k - 1)
    {
      assert SlotFits(Logon, slots, k);
      LookupPrefix(Logon.fields, slots, k, k - 1);
    }
    forall k | 12 <= k < 14 && k < |slots| ensures slots[k].Present? <==> FieldValue(Logon, slots, 11) > 0 {
      ConformsEval(Logon, slots, k);
      LeafMeans(Logon, slots, 11, 0, []);
    }
  }

  /**
   * Recomputing the length fields of conforming logon slots changes none of
   * the four string lengths, and sets `address6_length` to 16, the width of
   * `address6`, whenever the address is present.
   */
  lemma LogonFillLengths(slots: seq<Slot>)
    requires Conforms(Logon, slots)
    ensures forall k :: 0 <= k < |slots| && k < 11 ==> FillLengths(Logon, slots)[k] == slots[k]
    ensures |slots| > 12 && slots[12].Present? ==> FillLengths(Logon, slots)[11] == Present(Int(16))
  {
    forall k | 0 <= k < |slots| && k < 11 ensures FillLengths(Logon, slots)[k] == slots[k] {
      LogonKeepsLength(slots, k);
    }
    if |slots| > 12 && slots[12].Present? {
      LogonAddressLength(slots);
    }
  }

  lemma LogonKeepsLength(slots: seq<Slot>, k: nat)
    requires Conforms(Logon, slots) && k < |slots| && k < 11
    ensures FillLengths(Logon, slots)[k] == slots[k]
  {
    if Governs(Logon, slots, k) {
      assert k in {3, 5, 7, 9};
      LogonLengths(slots);
      assert SlotFits(Logon, slots, k);
    }
  }

  lemma LogonAddressLength(slots: seq<Slot>)
    requires Conforms(Logon, slots) && |slots| > 12 && slots[12].Present?
    ensures FillLengths(Logon, slots)[11] == Present(Int(16))
  {
    assert SlotFits(Logon, slots, 12);
    assert SlotFits(Logon, slots, 11);
    assert Governs(Logon, slots, 11);
  }

  /**
   * Logon slots ready to be built with their length fields left to be
   * computed: every slot before `address6` is there, the leading three fit
   * their fields, each string fits a 2-byte length, and `address6` and `end`
   * come together, or neither comes and the stored `address6_length` is not
   * positive. The stored lengths may be anything.
   */
  predicate LogonFillable(slots: seq<Slot>) {
    |slots| == |Logon.fields| &&
    (forall i :: 0 <= i < 3 ==> SlotFits(Logon, slots, i)) &&
    (forall k :: k in {3, 5, 7, 9, 11} ==> slots[k].Present?) &&
    (forall k :: k in {4, 6, 8, 10} ==>
       slots[k].Present? && slots[k].value.Bytes? && |slots[k].value.b| < 0x1_0000) &&
    (slots[12].Present? <==> slots[13].Present?) &&
    (slots[12].Present? ==>
       slots[12].value.Bytes? && |slots[12].value.b| == 16 && slots[13].value.Int? && InRange(S32, slots[13].value.n)) &&
    (slots[12].Absent? ==> slots[11].value.Int? && InRange(S16, slots[11].value.n) && slots[11].value.n <= 0)
  }

  /**
   * Building a logon record computes each length field from the string it
   * governs: whatever lengths were stored, the result is a consistent record,
   * each string followed by exactly its length and `address6_length` 16
   * when the address is there.
   */
  lemma LogonFillConforms(slots: seq<Slot>)
    requires LogonFillable(slots)
    ensures Conforms(Logon, FillLengths(Logon, slots))
    ensures forall k :: k in {3, 5, 7, 9} ==> FillLengths(Logon, slots)[k] == Present(Int(|slots[k + 1].value.b|))
    ensures slots[12].Present? ==> FillLengths(Logon, slots)[11] == Present(Int(16))
  {
    var r := FillLengths(Logon, slots);
    forall i | 0 <= i < |r| ensures SlotFits(Logon, r, i) {
      if i < 3 {
        LogonFilledHead(slots, i);
      } else if i < 11 {
        LogonFilledString(slots, i);
      } else {
        LogonFilledAddress(slots, i);
      }
    }
    forall k | k in {3, 5, 7, 9} ensures r[k] == Present(Int(|slots[k + 1].value.b|)) {
      assert Governs(Logon, slots, k);
    }
    if slots[12].Present? {
      assert Governs(Logon, slots, 11);
    }
  }

  lemma LogonFilledHead(slots: seq<Slot>, i: nat)
    requires LogonFillable(slots) && i < 3
    ensures SlotFits(Logon, FillLengths(Logon, slots), i)
  {
    var r := FillLengths(Logon, slots);
    assert SlotFits(Logon, slots, i);
    assert !Governs(Logon, slots, i);
  }

  lemma LogonFilledString(slots: seq<Slot>, i: nat)
    requires LogonFillable(slots) && 3 <= i < 11
    ensures SlotFits(Logon, FillLengths(Logon, slots), i)
  {
    if i % 2 == 1 {
      LogonFilledLength(slots, i);
    } else {
      LogonFilledText(slots, i);
    }
  }

  lemma LogonFilledLength(slots: seq<Slot>, i: nat)
    requires LogonFillable(slots) && i in {3, 5, 7, 9}
    ensures SlotFits(Logon, FillLengths(Logon, slots), i)
  {
    assert Pow256(2) == 0x1_0000;
    assert Governs(Logon, slots, i);
  }

  lemma LogonFilledText(slots: seq<Slot>, i: nat)
    requires LogonFillable(slots) && i in {4, 6, 8, 10}
    ensures SlotFits(Logon, FillLengths(Logon, slots), i)
  {
    assert i - 1 in {3, 5, 7, 9};
    FilledSizedFits(Logon, slots, i);
  }

  /** A string whose length field lies just before it fits once that field is recomputed. */
  lemma FilledSizedFits(s: Schema, slots: seq<Slot>, i: nat)
    requires 0 < i < |slots| <= |s.fields|
    requires s.fields[i].cond == Always && s.fields[i].kind == Sized(LenField(i - 1))
    requires s.fields[i - 1].kind.LenOf? && s.fields[i - 1].kind.target == i
    requires slots[i - 1].Present? && slots[i].Present? && slots[i].value.Bytes?
    ensures SlotFits(s, FillLengths(s, slots), i)
  {
    var r := FillLengths(s, slots);
    assert Governs(s, slots, i - 1) && !Governs(s, slots, i);
    assert r[..i][i - 1] == r[i - 1];
  }

  lemma LogonFilledAddress(slots: seq<Slot>, i: nat)
    requires LogonFillable(slots) && 11 <= i < 14
    ensures SlotFits(Logon, FillLengths(Logon, slots), i)
  {
    var r := FillLengths(Logon, slots);
    assert Pow256(2) == 0x1_0000;
    assert 11 in {3, 5, 7, 9, 11};
    if slots[12].Present? {
      assert Governs(Logon, slots, 11);
    } else {
      assert !Governs(Logon, slots, 11);
    }
    if i > 11 {
      assert !Governs(Logon, slots, i);
      assert r[..i][11] == r[11];
    }
  }

  // ---------------------------------------------------------------------------
  // Property records

  /** The `id` that selects the property field at position `m`, 2 to 20. */
  function PropertyId(m: nat): int {
    if m < 7 then 0x02 else if m < 9 then 0x03 else if m < 15 then 0x04 else if m < 17 then 0x05 else 0x07
  }

  /**
   * Each property field after `client` and `id` is present exactly when `id`
   * selects its variant, so the variants exclude one another.
   */
  lemma PropertyVariants(slots: seq<Slot>)
    requires Conforms(Property, slots)
    ensures forall m :: 2 <= m < |slots| ==> (slots[m].Present? <==> FieldValue(Property, slots, 1) == PropertyId(m))
  {
    forall m | 2 <= m < |slots| ensures slots[m].Present? <==> FieldValue(Property, slots, 1) == PropertyId(m) {
      assert Property.fields[m].cond == In(1, [PropertyId(m)]);
      ConformsEval(Property, slots, m);
      LeafMeans(Property, slots, 1, 0, [PropertyId(m)]);
    }
  }

  /**
   * With `id == 4`, `param` takes `param_len` bytes and `param_padding` the
   * rest of 100: together exactly 100 bytes.
   */
  lemma PropertyParam(slots: seq<Slot>)
    requires Conforms(Property, slots) && |slots| > 11 && FieldValue(Property, slots, 1) == 0x04
    ensures slots[10].Present? && slots[10].value.Bytes? && |slots[10].value.b| == FieldValue(Property, slots, 9)
    ensures slots[11].Present? && slots[11].value.Bytes? && |slots[11].value.b| == 100 - FieldValue(Property, slots, 9)
    ensures |slots[10].value.b| + |slots[11].value.b| == 100
  {
    PropertyVariants(slots);
    assert SlotFits(Property, slots, 10);
    assert SlotFits(Property, slots, 11);
    LookupPrefix(Property.fields, slots, 10, 9);
    LookupPrefix(Property.fields, slots, 11, 9);
  }

  /** With `id == 2`, `value` takes exactly `len` bytes. */
  lemma PropertyLogonValue(slots: seq<Slot>)
    requires Conforms(Property, slots) && |slots| > 5 && FieldValue(Property, slots, 1) == 0x02
    ensures slots[5].Present? && slots[5].value.Bytes? && |slots[5].value.b| == FieldValue(Property, slots, 4)
  {
    PropertyVariants(slots);
    assert SlotFits(Property, slots, 5);
    LookupPrefix(Property.fields, slots, 5, 4);
  }
}
