/**
 * The Message Server's fixed-layout sub-records: client records of versions
 * 1 to 4, statistics, counters and the three dispatcher information blocks.
 * Every field of these records is unconditional and of a static width, so
 * each record has a single width, proved here field by field.
 */
module MsRecords {
  import opened Wrappers
  import opened Codec
  import opened Layout

  // `SAPMSClient1` (pysap/SAPMS.py:598-603), the version 1 client record: 67 bytes.

  const Client1Part0: seq<Field> := [
    Field(Fixed(20), Always, 0),  // client
    Field(Fixed(20), Always, 0),  // host
    Field(Fixed(20), Always, 0),  // service
    Field(Num(U8), Always, 0),  // msgtype
    Field(Fixed(4), Always, 0),  // hostaddrv4
    Field(Num(U16), Always, 0)  // servno
  ]

  const Client1: Schema := Schema(Client1Part0)

  lemma Client1Part0Width()
    ensures FixedWidth(Client1Part0) == Some(67)
  {
    var f := Client1Part0;
    assert IndexedWidth(f, 5) == Some(2);
    assert IndexedWidth(f, 4) == Some(6);
    assert IndexedWidth(f, 3) == Some(7);
    assert IndexedWidth(f, 2) == Some(27);
    assert IndexedWidth(f, 1) == Some(47);
    assert IndexedWidth(f, 0) == Some(67);
    FixedWidthIndexed(f, 0);
    assert f[0..] == f;
  }

  /** Every `SAPMSClient1` field is unconditional and of static width; together they take 67 bytes. */
  lemma Client1Width()
    ensures FixedRecord(Client1) && RecordWidth(Client1) == 67
  {
    Client1Part0Width();
  }

  // `SAPMSClient2` (pysap/SAPMS.py:616-624), the version 2 client record: 115 bytes.

  const Client2Part0: seq<Field> := [
    Field(Fixed(40), Always, 0),  // client
    Field(Fixed(32), Always, 0),  // host
    Field(Fixed(20), Always, 0),  // service
    Field(Num(U8), Always, 0),  // msgtype
    Field(Fixed(4), Always, 0),  // hostaddrv4
    Field(Num(U16), Always, 0),  // servno
    Field(Enum(U8), Always, 0),  // status (codes named in MsTables.MsClientStatusValues)
    Field(Num(U8), Always, 0),  // nitrace
    Field(Fixed(14), Always, 0)  // padd
  ]

  const Client2: Schema := Schema(Client2Part0)

  lemma Client2Part0Width()
    ensures FixedWidth(Client2Part0) == Some(115)
  {
    var f := Client2Part0;
    assert IndexedWidth(f, 8) == Some(14);
    assert IndexedWidth(f, 7) == Some(15);
    assert IndexedWidth(f, 6) == Some(16);
    assert IndexedWidth(f, 5) == Some(18);
    assert IndexedWidth(f, 4) == Some(22);
    assert IndexedWidth(f, 3) == Some(23);
    assert IndexedWidth(f, 2) == Some(43);
    assert IndexedWidth(f, 1) == Some(75);
    assert IndexedWidth(f, 0) == Some(115);
    FixedWidthIndexed(f, 0);
    assert f[0..] == f;
  }

  /** Every `SAPMSClient2` field is unconditional and of static width; together they take 115 bytes. */
  lemma Client2Width()
    ensures FixedRecord(Client2) && RecordWidth(Client2) == 115
  {
    Client2Part0Width();
  }

  // `SAPMSClient3` (pysap/SAPMS.py:636-645), the version 3 client record: 150 bytes.

  const Client3Part0: seq<Field> := [
    Field(Fixed(40), Always, 0),  // client
    Field(Fixed(64), Always, 0),  // host
    Field(Fixed(20), Always, 0),  // service
    Field(Num(U8), Always, 0),  // msgtype
    Field(Fixed(16), Always, 0),  // hostaddrv6
    Field(Fixed(4), Always, 0),  // hostaddrv4
    Field(Num(U16), Always, 0),  // servno
    Field(Enum(U8), Always, 0),  // status (codes named in MsTables.MsClientStatusValues)
    Field(Num(U8), Always, 0),  // nitrace
    Field(Num(U8), Always, 0)  // padd
  ]

  const Client3: Schema := Schema(Client3Part0)

  lemma Client3Part0Width()
    ensures FixedWidth(Client3Part0) == Some(150)
  {
    var f := Client3Part0;
    assert IndexedWidth(f, 9) == Some(1);
    assert IndexedWidth(f, 8) == Some(2);
    assert IndexedWidth(f, 7) == Some(3);
    assert IndexedWidth(f, 6) == Some(5);
    assert IndexedWidth(f, 5) == Some(9);
    assert IndexedWidth(f, 4) == Some(25);
    assert IndexedWidth(f, 3) == Some(26);
    assert IndexedWidth(f, 2) == Some(46);
    assert IndexedWidth(f, 1) == Some(110);
    assert IndexedWidth(f, 0) == Some(150);
    FixedWidthIndexed(f, 0);
    assert f[0..] == f;
  }

  /** Every `SAPMSClient3` field is unconditional and of static width; together they take 150 bytes. */
  lemma Client3Width()
    ensures FixedRecord(Client3) && RecordWidth(Client3) == 150
  {
    Client3Part0Width();
  }

  // `SAPMSClient4` (pysap/SAPMS.py:657-667), the version 4 client record: 160 bytes.

  const Client4Part0: seq<Field> := [
    Field(Fixed(40), Always, 0),  // client
    Field(Fixed(64), Always, 0),  // host
    Field(Fixed(20), Always, 0),  // service
    Field(Num(U8), Always, 0),  // msgtype
    Field(Fixed(16), Always, 0),  // hostaddrv6
    Field(Fixed(4), Always, 0),  // hostaddrv4
    Field(Num(U16), Always, 0),  // servno
    Field(Enum(U8), Always, 0),  // status (codes named in MsTables.MsClientStatusValues)
    Field(Num(U8), Always, 0),  // nitrace
    Field(Num(U32), Always, 0)  // sys_service
  ]

  const Client4Part1: seq<Field> := [
    Field(Fixed(7), Always, 0)  // padd
  ]

  const Client4: Schema := Schema(Client4Part0 + Client4Part1)

  lemma Client4Part0Width()
    ensures FixedWidth(Client4Part0) == Some(153)
  {
    var f := Client4Part0;
    assert IndexedWidth(f, 9) == Some(4);
    assert IndexedWidth(f, 8) == Some(5);
    assert IndexedWidth(f, 7) == Some(6);
    assert IndexedWidth(f, 6) == Some(8);
    assert IndexedWidth(f, 5) == Some(12);
    assert IndexedWidth(f, 4) == Some(28);
    assert IndexedWidth(f, 3) == Some(29);
    assert IndexedWidth(f, 2) == Some(49);
    assert IndexedWidth(f, 1) == Some(113);
    assert IndexedWidth(f, 0) == Some(153);
    FixedWidthIndexed(f, 0);
    assert f[0..] == f;
  }

  lemma Client4Part1Width()
    ensures FixedWidth(Client4Part1) == Some(7)
  {
    var f := Client4Part1;
    assert IndexedWidth(f, 0) == Some(7);
    FixedWidthIndexed(f, 0);
    assert f[0..] == f;
  }

  /** Every `SAPMSClient4` field is unconditional and of static width; together they take 160 bytes. */
  lemma Client4Width()
    ensures FixedRecord(Client4) && RecordWidth(Client4) == 160
  {
    Client4Part0Width();
    Client4Part1Width();
    FixedWidthAppend(Client4Part0, Client4Part1);
  }

  // `SAPMSStat3` (pysap/SAPMS.py:680-720), the version 3 statistics record: 1280 bytes.

  const Stat3Part0: seq<Field> := [
    Field(Num(U8), Always, 0),  // active
    Field(Num(U8), Always, 0),  // version
    Field(Num(U16), Always, 0),  // unused1
    Field(Num(U32), Always, 0),  // no_requests
    Field(Fixed(12), Always, 0),  // no_requests_padd
    Field(Num(U32), Always, 0),  // no_error
    Field(Fixed(4), Always, 0),  // no_error_padd
    Field(Num(U32), Always, 0),  // no_login
    Field(Fixed(4), Always, 0),  // no_login_padd
    Field(Num(U32), Always, 0)  // no_logout
  ]

  const Stat3Part1: seq<Field> := [
    Field(Fixed(4), Always, 0),  // no_logout_padd
    Field(Num(U32), Always, 0),  // no_send_by_name
    Field(Fixed(4), Always, 0),  // no_send_by_name_padd
    Field(Num(U32), Always, 0),  // no_send_by_type
    Field(Fixed(4), Always, 0),  // no_send_by_type_padd
    Field(Num(U32), Always, 0),  // no_adm_messages
    Field(Fixed(4), Always, 0),  // no_adm_messages_padd
    Field(Num(U32), Always, 0),  // no_adms
    Field(Fixed(4), Always, 0),  // no_amds_padd
    Field(Fixed(648), Always, 0)  // no_adm_type
  ]

  const Stat3Part2: seq<Field> := [
    Field(Num(U32), Always, 0),  // no_mod_types
    Field(Fixed(4), Always, 0),  // no_mod_types_padd
    Field(Num(U32), Always, 0),  // no_opcodes_rcvd
    Field(Fixed(4), Always, 0),  // no_opcodes_rcvd_padd
    Field(Num(U32), Always, 0),  // no_opcodes_send
    Field(Fixed(4), Always, 0),  // no_opcodes_send_padd
    Field(Num(U32), Always, 0),  // no_opcodes
    Field(Fixed(408), Always, 0),  // no_opcode_type
    Field(Num(U32), Always, 0),  // no_keepalive_send
    Field(Fixed(4), Always, 0)  // no_keepalive_send_padd
  ]

  const Stat3Part3: seq<Field> := [
    Field(Num(U32), Always, 0),  // no_keepalive_rcvd
    Field(Fixed(4), Always, 0),  // no_keepalive_rcvd_padd
    Field(Num(U32), Always, 0),  // no_keepalive_disc
    Field(Fixed(4), Always, 0),  // no_keepalive_disc_padd
    Field(Num(U32), Always, 0),  // no_bytes_read
    Field(Fixed(12), Always, 0),  // no_bytes_read_padd
    Field(Num(U32), Always, 0),  // no_bytes_written
    Field(Fixed(12), Always, 0),  // no_bytes_written_padd
    Field(Num(U32), Always, 0),  // no_clients
    Field(Fixed(30), Always, 0)  // sta_time
  ]

  const Stat3Part4: seq<Field> := [
    Field(Fixed(30), Always, 0)  // act_time
  ]

  const Stat3: Schema := Schema(Stat3Part0 + Stat3Part1 + Stat3Part2 + Stat3Part3 + Stat3Part4)

  lemma Stat3Part0Width()
    ensures FixedWidth(Stat3Part0) == Some(40)
  {
    var f := Stat3Part0;
    assert IndexedWidth(f, 9) == Some(4);
    assert IndexedWidth(f, 8) == Some(8);
    assert IndexedWidth(f, 7) == Some(12);
    assert IndexedWidth(f, 6) == Some(16);
    assert IndexedWidth(f, 5) == Some(20);
    assert IndexedWidth(f, 4) == Some(32);
    assert IndexedWidth(f, 3) == Some(36);
    assert IndexedWidth(f, 2) == Some(38);
    assert IndexedWidth(f, 1) == Some(39);
    assert IndexedWidth(f, 0) == Some(40);
    FixedWidthIndexed(f, 0);
    assert f[0..] == f;
  }

  lemma Stat3Part1Width()
    ensures FixedWidth(Stat3Part1) == Some(684)
  {
    var f := Stat3Part1;
    assert IndexedWidth(f, 9) == Some(648);
    assert IndexedWidth(f, 8) == Some(652);
    assert IndexedWidth(f, 7) == Some(656);
    assert IndexedWidth(f, 6) == Some(660);
    assert IndexedWidth(f, 5) == Some(664);
    assert IndexedWidth(f, 4) == Some(668);
    assert IndexedWidth(f, 3) == Some(672);
    assert IndexedWidth(f, 2) == Some(676);
    assert IndexedWidth(f, 1) == Some(680);
    assert IndexedWidth(f, 0) == Some(684);
    FixedWidthIndexed(f, 0);
    assert f[0..] == f;
  }

  lemma Stat3Part2Width()
    ensures FixedWidth(Stat3Part2) == Some(444)
  {
    var f := Stat3Part2;
    assert IndexedWidth(f, 9) == Some(4);
    assert IndexedWidth(f, 8) == Some(8);
    assert IndexedWidth(f, 7) == Some(416);
    assert IndexedWidth(f, 6) == Some(420);
    assert IndexedWidth(f, 5) == Some(424);
    assert IndexedWidth(f, 4) == Some(428);
    assert IndexedWidth(f, 3) == Some(432);
    assert IndexedWidth(f, 2) == Some(436);
    assert IndexedWidth(f, 1) == Some(440);
    assert IndexedWidth(f, 0) == Some(444);
    FixedWidthIndexed(f, 0);
    assert f[0..] == f;
  }

  lemma Stat3Part3Width()
    ensures FixedWidth(Stat3Part3) == Some(82)
  {
    var f := Stat3Part3;
    assert IndexedWidth(f, 9) == Some(30);
    assert IndexedWidth(f, 8) == Some(34);
    assert IndexedWidth(f, 7) == Some(46);
    assert IndexedWidth(f, 6) == Some(50);
    assert IndexedWidth(f, 5) == Some(62);
    assert IndexedWidth(f, 4) == Some(66);
    assert IndexedWidth(f, 3) == Some(70);
    assert IndexedWidth(f, 2) == Some(74);
    assert IndexedWidth(f, 1) == Some(78);
    assert IndexedWidth(f, 0) == Some(82);
    FixedWidthIndexed(f, 0);
    assert f[0..] == f;
  }

  lemma Stat3Part4Width()
    ensures FixedWidth(Stat3Part4) == Some(30)
  {
    var f := Stat3Part4;
    assert IndexedWidth(f, 0) == Some(30);
    FixedWidthIndexed(f, 0);
    assert f[0..] == f;
  }

  /** Every `SAPMSStat3` field is unconditional and of static width; together they take 1280 bytes. */
  lemma Stat3Width()
    ensures FixedRecord(Stat3) && RecordWidth(Stat3) == 1280
  {
    Stat3Part0Width();
    Stat3Part1Width();
    Stat3Part2Width();
    Stat3Part3Width();
    Stat3Part4Width();
    FixedWidthAppend(Stat3Part0, Stat3Part1);
    FixedWidthAppend(Stat3Part0 + Stat3Part1, Stat3Part2);
    FixedWidthAppend(Stat3Part0 + Stat3Part1 + Stat3Part2, Stat3Part3);
    FixedWidthAppend(Stat3Part0 + Stat3Part1 + Stat3Part2 + Stat3Part3, Stat3Part4);
  }

  // `SAPMSCounter` (pysap/SAPMS.py:731-733), the counter record: 48 bytes.

  const CounterPart0: seq<Field> := [
    Field(Fixed(40), Always, 0),  // uuid
    Field(Num(U32), Always, 0),  // count
    Field(Num(U32), Always, 0)  // no
  ]

  const Counter: Schema := Schema(CounterPart0)

  lemma CounterPart0Width()
    ensures FixedWidth(CounterPart0) == Some(48)
  {
    var f := CounterPart0;
    assert IndexedWidth(f, 2) == Some(4);
    assert IndexedWidth(f, 1) == Some(8);
    assert IndexedWidth(f, 0) == Some(48);
    FixedWidthIndexed(f, 0);
    assert f[0..] == f;
  }

  /** Every `SAPMSCounter` field is unconditional and of static width; together they take 48 bytes. */
  lemma CounterWidth()
    ensures FixedRecord(Counter) && RecordWidth(Counter) == 48
  {
    CounterPart0Width();
  }

  // `SAPDPInfo1` (pysap/SAPMS.py:874-949), the dispatcher information for dp_version 0x0d: 507 bytes.

  const DpInfo1Part0: seq<Field> := [
    Field(Enum(U8), Always, 1),  // dp_req_prio (codes named in MsTables.DpPrioValues)
    Field(Num(U32), Always, 0),  // dp_user_trace
    Field(Num(U32), Always, 0),  // dp_req_len
    Field(Num(U16), Always, 0),  // dp_padd3
    Field(Num(U8), Always, 0),  // dp_padd4
    Field(Enum(U8), Always, 2),  // dp_type_from (codes named in MsTables.DpTypeValues)
    Field(Fixed(40), Always, 0),  // dp_fromname
    Field(Num(U16), Always, 0),  // dp_padd41
    Field(Num(U8), Always, 0),  // dp_padd42
    Field(Enum(U8), Always, 6)  // dp_agent_type_from (codes named in MsTables.DpAgentTypeValues)
  ]

  const DpInfo1Part1: seq<Field> := [
    Field(Num(U16), Always, 0),  // dp_padd43
    Field(Num(U8), Always, 0),  // dp_padd44
    Field(Enum(U8), Always, 1),  // dp_worker_type_from (codes named in MsTables.DpWorkerTypeValues)
    Field(Num(U32), Always, 0),  // dp_worker_from_num
    Field(Num(U16), Always, 0),  // dp_padd6
    Field(Num(U16), Always, 0),  // dp_padd7
    Field(Num(U8), Always, 255),  // dp_addr_from_t
    Field(Num(U16), Always, 0),  // dp_padd8
    Field(Num(U16), Always, 65535),  // dp_addr_from_u
    Field(Num(U8), Always, 255)  // dp_addr_from_m
  ]

  const DpInfo1Part2: seq<Field> := [
    Field(Num(U8), Always, 1),  // dp_padd9
    Field(Num(U32), Always, 0),  // dp_respid_from
    Field(Num(U16), Always, 0),  // dp_padd10
    Field(Num(U8), Always, 0),  // dp_padd11
    Field(Enum(U8), Always, 2),  // dp_type_to (codes named in MsTables.DpTypeValues)
    Field(Fixed(40), Always, 0),  // dp_toname
    Field(Num(U16), Always, 0),  // dp_padd51
    Field(Num(U8), Always, 0),  // dp_padd52
    Field(Enum(U8), Always, 6),  // dp_agent_type_to (codes named in MsTables.DpAgentTypeValues)
    Field(Num(U16), Always, 0)  // dp_padd54
  ]

  const DpInfo1Part3: seq<Field> := [
    Field(Num(U8), Always, 0),  // dp_padd55
    Field(Enum(U8), Always, 1),  // dp_worker_type_to (codes named in MsTables.DpWorkerTypeValues)
    Field(Num(U32), Always, 0),  // dp_worker_to_num
    Field(Num(U16), Always, 0),  // dp_padd01
    Field(Num(U16), Always, 0),  // dp_padd02
    Field(Num(U8), Always, 255),  // dp_addr_to_t
    Field(Num(U16), Always, 1),  // dp_padd03
    Field(Num(U16), Always, 65535),  // dp_addr_to_u
    Field(Num(U8), Always, 0),  // dp_addr_to_m
    Field(Num(U8), Always, 0)  // dp_padd21
  ]

  const DpInfo1Part4: seq<Field> := [
    Field(Num(U32), Always, 0),  // dp_respid_to
    Field(Num(U8), Always, 0),  // dp_padd22
    Field(Num(U16), Always, 0),  // dp_padd23
    Field(Enum(U8), Always, 40),  // dp_req_handler (codes named in MsTables.DpReqHandlerValues)
    Field(Num(U32), Always, 0),  // dp_req_rc
    Field(Fixed(224), Always, 0),  // dp_blob_padding
    Field(Num(U32LE), Always, 6),  // dp_blob_56
    Field(Num(U32LE), Always, 1),  // dp_blob_57
    Field(Num(U32LE), Always, 0),  // dp_blob_worker_from_num
    Field(Num(U8), Always, 0)  // dp_blob_worker_type_from
  ]

  const DpInfo1Part5: seq<Field> := [
    Field(Fixed(3), Always, 0),  // dp_blob_62
    Field(Num(U32LE), Always, 0),  // dp_blob_addr_from_t
    Field(Num(U32LE), Always, 0),  // dp_blob_addr_from_u
    Field(Num(U8), Always, 0),  // dp_blob_worker_type_to
    Field(Fixed(3), Always, 0),  // dp_blob_63
    Field(Num(U32LE), Always, 0),  // dp_blob_respid_from
    Field(Fixed(3), Always, 0),  // dp_blob_64
    Field(Fixed(80), Always, 0),  // dp_blob_dst
    Field(Num(U8), Always, 0),  // dp_blob_xx
    Field(Fixed(8), Always, 0)  // dp_blob_yy
  ]

  const DpInfo1: Schema := Schema(DpInfo1Part0 + DpInfo1Part1 + DpInfo1Part2 + DpInfo1Part3 + DpInfo1Part4 + DpInfo1Part5)

  lemma DpInfo1Part0Width()
    ensures FixedWidth(DpInfo1Part0) == Some(57)
  {
    var f := DpInfo1Part0;
    assert IndexedWidth(f, 9) == Some(1);
    assert IndexedWidth(f, 8) == Some(2);
    assert IndexedWidth(f, 7) == Some(4);
    assert IndexedWidth(f, 6) == Some(44);
    assert IndexedWidth(f, 5) == Some(45);
    assert IndexedWidth(f, 4) == Some(46);
    assert IndexedWidth(f, 3) == Some(48);
    assert IndexedWidth(f, 2) == Some(52);
    assert IndexedWidth(f, 1) == Some(56);
    assert IndexedWidth(f, 0) == Some(57);
    FixedWidthIndexed(f, 0);
    assert f[0..] == f;
  }

  lemma DpInfo1Part1Width()
    ensures FixedWidth(DpInfo1Part1) == Some(18)
  {
    var f := DpInfo1Part1;
    assert IndexedWidth(f, 9) == Some(1);
    assert IndexedWidth(f, 8) == Some(3);
    assert IndexedWidth(f, 7) == Some(5);
    assert IndexedWidth(f, 6) == Some(6);
    assert IndexedWidth(f, 5) == Some(8);
    assert IndexedWidth(f, 4) == Some(10);
    assert IndexedWidth(f, 3) == Some(14);
    assert IndexedWidth(f, 2) == Some(15);
    assert IndexedWidth(f, 1) == Some(16);
    assert IndexedWidth(f, 0) == Some(18);
    FixedWidthIndexed(f, 0);
    assert f[0..] == f;
  }

  lemma DpInfo1Part2Width()
    ensures FixedWidth(DpInfo1Part2) == Some(55)
  {
    var f := DpInfo1Part2;
    assert IndexedWidth(f, 9) == Some(2);
    assert IndexedWidth(f, 8) == Some(3);
    assert IndexedWidth(f, 7) == Some(4);
    assert IndexedWidth(f, 6) == Some(6);
    assert IndexedWidth(f, 5) == Some(46);
    assert IndexedWidth(f, 4) == Some(47);
    assert IndexedWidth(f, 3) == Some(48);
    assert IndexedWidth(f, 2) == Some(50);
    assert IndexedWidth(f, 1) == Some(54);
    assert IndexedWidth(f, 0) == Some(55);
    FixedWidthIndexed(f, 0);
    assert f[0..] == f;
  }

  lemma DpInfo1Part3Width()
    ensures FixedWidth(DpInfo1Part3) == Some(17)
  {
    var f := DpInfo1Part3;
    assert IndexedWidth(f, 9) == Some(1);
    assert IndexedWidth(f, 8) == Some(2);
    assert IndexedWidth(f, 7) == Some(4);
    assert IndexedWidth(f, 6) == Some(6);
    assert IndexedWidth(f, 5) == Some(7);
    assert IndexedWidth(f, 4) == Some(9);
    assert IndexedWidth(f, 3) == Some(11);
    assert IndexedWidth(f, 2) == Some(15);
    assert IndexedWidth(f, 1) == Some(16);
    assert IndexedWidth(f, 0) == Some(17);
    FixedWidthIndexed(f, 0);
    assert f[0..] == f;
  }

  lemma DpInfo1Part4Width()
    ensures FixedWidth(DpInfo1Part4) == Some(249)
  {
    var f := DpInfo1Part4;
    assert IndexedWidth(f, 9) == Some(1);
    assert IndexedWidth(f, 8) == Some(5);
    assert IndexedWidth(f, 7) == Some(9);
    assert IndexedWidth(f, 6) == Some(13);
    assert IndexedWidth(f, 5) == Some(237);
    assert IndexedWidth(f, 4) == Some(241);
    assert IndexedWidth(f, 3) == Some(242);
    assert IndexedWidth(f, 2) == Some(244);
    assert IndexedWidth(f, 1) == Some(245);
    assert IndexedWidth(f, 0) == Some(249);
    FixedWidthIndexed(f, 0);
    assert f[0..] == f;
  }

  lemma DpInfo1Part5Width()
    ensures FixedWidth(DpInfo1Part5) == Some(111)
  {
    var f := DpInfo1Part5;
    assert IndexedWidth(f, 9) == Some(8);
    assert IndexedWidth(f, 8) == Some(9);
    assert IndexedWidth(f, 7) == Some(89);
    assert IndexedWidth(f, 6) == Some(92);
    assert IndexedWidth(f, 5) == Some(96);
    assert IndexedWidth(f, 4) == Some(99);
    assert IndexedWidth(f, 3) == Some(100);
    assert IndexedWidth(f, 2) == Some(104);
    assert IndexedWidth(f, 1) == Some(108);
    assert IndexedWidth(f, 0) == Some(111);
    FixedWidthIndexed(f, 0);
    assert f[0..] == f;
  }

  /** Every `SAPDPInfo1` field is unconditional and of static width; together they take 507 bytes. */
  lemma DpInfo1Width()
    ensures FixedRecord(DpInfo1) && RecordWidth(DpInfo1) == 507
  {
    DpInfo1Part0Width();
    DpInfo1Part1Width();
    DpInfo1Part2Width();
    DpInfo1Part3Width();
    DpInfo1Part4Width();
    DpInfo1Part5Width();
    FixedWidthAppend(DpInfo1Part0, DpInfo1Part1);
    FixedWidthAppend(DpInfo1Part0 + DpInfo1Part1, DpInfo1Part2);
    FixedWidthAppend(DpInfo1Part0 + DpInfo1Part1 + DpInfo1Part2, DpInfo1Part3);
    FixedWidthAppend(DpInfo1Part0 + DpInfo1Part1 + DpInfo1Part2 + DpInfo1Part3, DpInfo1Part4);
    FixedWidthAppend(DpInfo1Part0 + DpInfo1Part1 + DpInfo1Part2 + DpInfo1Part3 + DpInfo1Part4, DpInfo1Part5);
  }

  // `SAPDPInfo2` (pysap/SAPMS.py:961-996), the dispatcher information for dp_version 0x0b: 203 bytes.

  const DpInfo2Part0: seq<Field> := [
    Field(Enum(U8), Always, 1),  // dp_req_prio (codes named in MsTables.DpPrioValues)
    Field(Num(U8), Always, 2),  // dp_blob_00
    Field(Num(U8), Always, 128),  // dp_blob_01
    Field(Num(U8), Always, 33),  // dp_blob_02
    Field(Num(U16), Always, 0),  // dp_blob_03
    Field(Num(U16), Always, 65535),  // dp_blob_04
    Field(Fixed(5), Always, 0),  // dp_blob_05
    Field(Num(U8), Always, 0),  // dp_addr_from_t
    Field(Fixed(2), Always, 0),  // dp_blob_06
    Field(Fixed(4), Always, 0)  // dp_blob_07
  ]

  const DpInfo2Part1: seq<Field> := [
    Field(Fixed(4), Always, 0),  // dp_blob_08
    Field(Fixed(2), Always, 0),  // dp_blob_09
    Field(Fixed(2), Always, 0),  // dp_blob_10
    Field(Num(U8), Always, 0),  // dp_addr_from_m
    Field(Num(U8), Always, 0),  // dp_addr_from_u
    Field(Fixed(2), Always, 0),  // dp_blob_11
    Field(Fixed(4), Always, 0),  // dp_blob_12
    Field(Fixed(86), Always, 0),  // dp_blob_13
    Field(Fixed(5), Always, 0),  // dp_blob_14
    Field(Fixed(40), Always, 0)  // dp_name_to
  ]

  const DpInfo2Part2: seq<Field> := [
    Field(Num(U8), Always, 0),  // dp_blob_15
    Field(Num(U8), Always, 0),  // dp_addr_to_t
    Field(Num(U16), Always, 0),  // dp_addr_to_u
    Field(Num(U8), Always, 0),  // dp_addr_to_m
    Field(Num(U8), Always, 0),  // dp_blob_16
    Field(Num(U16), Always, 0),  // dp_respid_to
    Field(Fixed(4), Always, 0),  // dp_blob_17
    Field(Fixed(4), Always, 0),  // dp_blob_18
    Field(Num(U32LE), Always, 1),  // dp_blob_19
    Field(Fixed(12), Always, 0)  // dp_blob_20
  ]

  const DpInfo2Part3: seq<Field> := [
    Field(Num(U32LE), Always, 0)  // dp_blob_21
  ]

  const DpInfo2: Schema := Schema(DpInfo2Part0 + DpInfo2Part1 + DpInfo2Part2 + DpInfo2Part3)

  lemma DpInfo2Part0Width()
    ensures FixedWidth(DpInfo2Part0) == Some(20)
  {
    var f := DpInfo2Part0;
    assert IndexedWidth(f, 9) == Some(4);
    assert IndexedWidth(f, 8) == Some(6);
    assert IndexedWidth(f, 7) == Some(7);
    assert IndexedWidth(f, 6) == Some(12);
    assert IndexedWidth(f, 5) == Some(14);
    assert IndexedWidth(f, 4) == Some(16);
    assert IndexedWidth(f, 3) == Some(17);
    assert IndexedWidth(f, 2) == Some(18);
    assert IndexedWidth(f, 1) == Some(19);
    assert IndexedWidth(f, 0) == Some(20);
    FixedWidthIndexed(f, 0);
    assert f[0..] == f;
  }

  lemma DpInfo2Part1Width()
    ensures FixedWidth(DpInfo2Part1) == Some(147)
  {
    var f := DpInfo2Part1;
    assert IndexedWidth(f, 9) == Some(40);
    assert IndexedWidth(f, 8) == Some(45);
    assert IndexedWidth(f, 7) == Some(131);
    assert IndexedWidth(f, 6) == Some(135);
    assert IndexedWidth(f, 5) == Some(137);
    assert IndexedWidth(f, 4) == Some(138);
    assert IndexedWidth(f, 3) == Some(139);
    assert IndexedWidth(f, 2) == Some(141);
    assert IndexedWidth(f, 1) == Some(143);
    assert IndexedWidth(f, 0) == Some(147);
    FixedWidthIndexed(f, 0);
    assert f[0..] == f;
  }

  lemma DpInfo2Part2Width()
    ensures FixedWidth(DpInfo2Part2) == Some(32)
  {
    var f := DpInfo2Part2;
    assert IndexedWidth(f, 9) == Some(12);
    assert IndexedWidth(f, 8) == Some(16);
    assert IndexedWidth(f, 7) == Some(20);
    assert IndexedWidth(f, 6) == Some(24);
    assert IndexedWidth(f, 5) == Some(26);
    assert IndexedWidth(f, 4) == Some(27);
    assert IndexedWidth(f, 3) == Some(28);
    assert IndexedWidth(f, 2) == Some(30);
    assert IndexedWidth(f, 1) == Some(31);
    assert IndexedWidth(f, 0) == Some(32);
    FixedWidthIndexed(f, 0);
    assert f[0..] == f;
  }

  lemma DpInfo2Part3Width()
    ensures FixedWidth(DpInfo2Part3) == Some(4)
  {
    var f := DpInfo2Part3;
    assert IndexedWidth(f, 0) == Some(4);
    FixedWidthIndexed(f, 0);
    assert f[0..] == f;
  }

  /** Every `SAPDPInfo2` field is unconditional and of static width; together they take 203 bytes. */
  lemma DpInfo2Width()
    ensures FixedRecord(DpInfo2) && RecordWidth(DpInfo2) == 203
  {
    DpInfo2Part0Width();
    DpInfo2Part1Width();
    DpInfo2Part2Width();
    DpInfo2Part3Width();
    FixedWidthAppend(DpInfo2Part0, DpInfo2Part1);
    FixedWidthAppend(DpInfo2Part0 + DpInfo2Part1, DpInfo2Part2);
    FixedWidthAppend(DpInfo2Part0 + DpInfo2Part1 + DpInfo2Part2, DpInfo2Part3);
  }

  // `SAPDPInfo3` (pysap/SAPMS.py:1008-1078), the dispatcher information for dp_version 0x0e: 180 bytes.

  const DpInfo3Part0: seq<Field> := [
    Field(Num(U32), Always, 185),  // dp_padd1
    Field(Enum(U8), Always, 1),  // dp_req_prio (codes named in MsTables.DpPrioValues)
    Field(Num(U16), Always, 0),  // dp_padd2
    Field(Num(U8), Always, 0),  // dp_padd3
    Field(Num(U8), Always, 0),  // dp_padd4
    Field(Num(U32), Always, 0),  // dp_req_len
    Field(Num(U16), Always, 0),  // dp_padd5
    Field(Num(U8), Always, 0),  // dp_padd6
    Field(Enum(U8), Always, 2),  // dp_type_from (codes named in MsTables.DpTypeValues)
    Field(Fixed(40), Always, 0)  // dp_fromname
  ]

  const DpInfo3Part1: seq<Field> := [
    Field(Num(U16), Always, 0),  // dp_padd7
    Field(Num(U8), Always, 0),  // dp_padd8
    Field(Enum(U8), Always, 6),  // dp_agent_type_from (codes named in MsTables.DpAgentTypeValues)
    Field(Num(U16), Always, 0),  // dp_padd9
    Field(Num(U8), Always, 0),  // dp_padd10
    Field(Num(U8), Always, 255),  // dp_padd12
    Field(Num(U16), Always, 0),  // dp_padd13
    Field(Enum(U8), Always, 1),  // dp_worker_type_from (codes named in MsTables.DpWorkerTypeValues)
    Field(Num(U8), Always, 0),  // dp_worker_from_num
    Field(Num(U8), Always, 0)  // dp_padd133
  ]

  const DpInfo3Part2: seq<Field> := [
    Field(Num(U16), Always, 0),  // dp_padd111
    Field(Num(U8), Always, 0),  // dp_padd11
    Field(Num(U8), Always, 0),  // dp_addr_from_t
    Field(Num(U16), Always, 0),  // dp_padd14
    Field(Num(U16), Always, 0),  // dp_addr_from_u
    Field(Num(U8), Always, 0),  // dp_addr_from_m
    Field(Num(U8), Always, 1),  // dp_padd15
    Field(Num(U32), Always, 0),  // dp_respid_from
    Field(Num(U16), Always, 0),  // dp_padd16
    Field(Num(U8), Always, 0)  // dp_padd17
  ]

  const DpInfo3Part3: seq<Field> := [
    Field(Enum(U8), Always, 2),  // dp_type_to (codes named in MsTables.DpTypeValues)
    Field(Fixed(40), Always, 0),  // dp_toname
    Field(Num(U16), Always, 0),  // dp_padd18
    Field(Num(U8), Always, 0),  // dp_padd19
    Field(Enum(U8), Always, 6),  // dp_agent_type_to (codes named in MsTables.DpAgentTypeValues)
    Field(Num(U16), Always, 0),  // dp_padd20
    Field(Num(U8), Always, 0),  // dp_padd21
    Field(Enum(U8), Always, 1),  // dp_worker_type_to (codes named in MsTables.DpWorkerTypeValues)
    Field(Num(U16), Always, 0),  // dp_padd22
    Field(Num(U8), Always, 0)  // dp_worker_to_num
  ]

  const DpInfo3Part4: seq<Field> := [
    Field(Num(U8), Always, 0),  // dp_padd222
    Field(Num(U32), Always, 0),  // dp_padd23
    Field(Num(U8), Always, 0),  // dp_addr_to_t
    Field(Num(U16), Always, 0),  // dp_padd24
    Field(Num(U16), Always, 0),  // dp_addr_to_u
    Field(Num(U8), Always, 0),  // dp_addr_from_m
    Field(Num(U8), Always, 1),  // dp_padd25
    Field(Num(U32), Always, 0),  // dp_respid_to
    Field(Num(U16), Always, 0),  // dp_padd26
    Field(Num(U8), Always, 0)  // dp_padd27
  ]

  const DpInfo3Part5: seq<Field> := [
    Field(Enum(U8), Always, 40),  // dp_req_handler (codes named in MsTables.DpReqHandlerValues)
    Field(Fixed(4), Always, 0),  // dp_padd28
    Field(Num(U32), Always, 0),  // dp_padd29
    Field(Num(U32), Always, 0),  // dp_padd30
    Field(Num(U32), Always, 0),  // dp_padd31
    Field(Fixed(5), Always, 0)  // dp_padd32
  ]

  const DpInfo3: Schema := Schema(DpInfo3Part0 + DpInfo3Part1 + DpInfo3Part2 + DpInfo3Part3 + DpInfo3Part4 + DpInfo3Part5)

  lemma DpInfo3Part0Width()
    ensures FixedWidth(DpInfo3Part0) == Some(57)
  {
    var f := DpInfo3Part0;
    assert IndexedWidth(f, 9) == Some(40);
    assert IndexedWidth(f, 8) == Some(41);
    assert IndexedWidth(f, 7) == Some(42);
    assert IndexedWidth(f, 6) == Some(44);
    assert IndexedWidth(f, 5) == Some(48);
    assert IndexedWidth(f, 4) == Some(49);
    assert IndexedWidth(f, 3) == Some(50);
    assert IndexedWidth(f, 2) == Some(52);
    assert IndexedWidth(f, 1) == Some(53);
    assert IndexedWidth(f, 0) == Some(57);
    FixedWidthIndexed(f, 0);
    assert f[0..] == f;
  }

  lemma DpInfo3Part1Width()
    ensures FixedWidth(DpInfo3Part1) == Some(13)
  {
    var f := DpInfo3Part1;
    assert IndexedWidth(f, 9) == Some(1);
    assert IndexedWidth(f, 8) == Some(2);
    assert IndexedWidth(f, 7) == Some(3);
    assert IndexedWidth(f, 6) == Some(5);
    assert IndexedWidth(f, 5) == Some(6);
    assert IndexedWidth(f, 4) == Some(7);
    assert IndexedWidth(f, 3) == Some(9);
    assert IndexedWidth(f, 2) == Some(10);
    assert IndexedWidth(f, 1) == Some(11);
    assert IndexedWidth(f, 0) == Some(13);
    FixedWidthIndexed(f, 0);
    assert f[0..] == f;
  }

  lemma DpInfo3Part2Width()
    ensures FixedWidth(DpInfo3Part2) == Some(17)
  {
    var f := DpInfo3Part2;
    assert IndexedWidth(f, 9) == Some(1);
    assert IndexedWidth(f, 8) == Some(3);
    assert IndexedWidth(f, 7) == Some(7);
    assert IndexedWidth(f, 6) == Some(8);
    assert IndexedWidth(f, 5) == Some(9);
    assert IndexedWidth(f, 4) == Some(11);
    assert IndexedWidth(f, 3) == Some(13);
    assert IndexedWidth(f, 2) == Some(14);
    assert IndexedWidth(f, 1) == Some(15);
    assert IndexedWidth(f, 0) == Some(17);
    FixedWidthIndexed(f, 0);
    assert f[0..] == f;
  }

  lemma DpInfo3Part3Width()
    ensures FixedWidth(DpInfo3Part3) == Some(52)
  {
    var f := DpInfo3Part3;
    assert IndexedWidth(f, 9) == Some(1);
    assert IndexedWidth(f, 8) == Some(3);
    assert IndexedWidth(f, 7) == Some(4);
    assert IndexedWidth(f, 6) == Some(5);
    assert IndexedWidth(f, 5) == Some(7);
    assert IndexedWidth(f, 4) == Some(8);
    assert IndexedWidth(f, 3) == Some(9);
    assert IndexedWidth(f, 2) == Some(11);
    assert IndexedWidth(f, 1) == Some(51);
    assert IndexedWidth(f, 0) == Some(52);
    FixedWidthIndexed(f, 0);
    assert f[0..] == f;
  }

  lemma DpInfo3Part4Width()
    ensures FixedWidth(DpInfo3Part4) == Some(19)
  {
    var f := DpInfo3Part4;
    assert IndexedWidth(f, 9) == Some(1);
    assert IndexedWidth(f, 8) == Some(3);
    assert IndexedWidth(f, 7) == Some(7);
    assert IndexedWidth(f, 6) == Some(8);
    assert IndexedWidth(f, 5) == Some(9);
    assert IndexedWidth(f, 4) == Some(11);
    assert IndexedWidth(f, 3) == Some(13);
    assert IndexedWidth(f, 2) == Some(14);
    assert IndexedWidth(f, 1) == Some(18);
    assert IndexedWidth(f, 0) == Some(19);
    FixedWidthIndexed(f, 0);
    assert f[0..] == f;
  }

  lemma DpInfo3Part5Width()
    ensures FixedWidth(DpInfo3Part5) == Some(22)
  {
    var f := DpInfo3Part5;
    assert IndexedWidth(f, 5) == Some(5);
    assert IndexedWidth(f, 4) == Some(9);
    assert IndexedWidth(f, 3) == Some(13);
    assert IndexedWidth(f, 2) == Some(17);
    assert IndexedWidth(f, 1) == Some(21);
    assert IndexedWidth(f, 0) == Some(22);
    FixedWidthIndexed(f, 0);
    assert f[0..] == f;
  }

  /** Every `SAPDPInfo3` field is unconditional and of static width; together they take 180 bytes. */
  lemma DpInfo3Width()
    ensures FixedRecord(DpInfo3) && RecordWidth(DpInfo3) == 180
  {
    DpInfo3Part0Width();
    DpInfo3Part1Width();
    DpInfo3Part2Width();
    DpInfo3Part3Width();
    DpInfo3Part4Width();
    DpInfo3Part5Width();
    FixedWidthAppend(DpInfo3Part0, DpInfo3Part1);
    FixedWidthAppend(DpInfo3Part0 + DpInfo3Part1, DpInfo3Part2);
    FixedWidthAppend(DpInfo3Part0 + DpInfo3Part1 + DpInfo3Part2, DpInfo3Part3);
    FixedWidthAppend(DpInfo3Part0 + DpInfo3Part1 + DpInfo3Part2 + DpInfo3Part3, DpInfo3Part4);
    FixedWidthAppend(DpInfo3Part0 + DpInfo3Part1 + DpInfo3Part2 + DpInfo3Part3 + DpInfo3Part4, DpInfo3Part5);
  }

}
