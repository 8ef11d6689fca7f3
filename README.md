# pysap Message Server layout and NI framing, in Dafny

This project models two parts of pysap, the Python library for SAP network protocols.

The first part is the SAP Message Server wire format described in `pysap/SAPMS.py`:
- the `SAPMS` packet;
- its administration records (`SAPMSAdmRecord`);
- its client records (`SAPMSClient1` to `SAPMSClient4`);
- its logon, property, counter and statistics records;
- the three dispatcher information blocks (`SAPDPInfo1` to `SAPDPInfo3`);
- the code tables and the inverse domain table `ms_domain_values_inv`.

The second part is the NI transport frame, a 4-byte big-endian length followed by the payload. It is modelled through the byte equations that `tests/test_sapni.py` asserts about framing, the echo handler, keep-alive probes, the NI server and the NI proxy.

The Message Server format is a declarative list of fields, each with a presence condition over fields read earlier. The model follows that form:
- `Codec` is a generic decoder and encoder over byte sequences. A `Schema` is a sequence of `Field`s. Each field has a kind (integer, enumerated code, length prefix, fixed-width string, length-governed string, sub-record, fixed slice, repeated list, rest of buffer), a presence `Cond` and a default value.
- Decoding stops when the input is exhausted, so a decoded packet holds a prefix of the layout's slots.
- A condition reads earlier fields by position. An absent field reads as its default.
- Fixed-width fields are strict: too few bytes is a `TruncatedInput` error.
- `Layout` proves width and round-trip facts about layouts whose fields all have static widths.
- `MsRecords` holds the fixed-layout sub-records and their widths.
- `MsLayouts` holds the conditional layouts (`SAPMSAdmRecord`, `SAPMSLogon`, `SAPMSProperty`, `SAPMS`) and the presence, exclusion and length facts about them.
- `MsTables` holds the code tables as ordered entry lists, with Python dict semantics (the later of two equal keys wins), and the inverse domain table.
- `NiFrame` holds framing, unframing, `recv` with and without keep-alive, the echo handler, the server and the proxy, as pure functions on byte sequences.

Integer fields use explicit widths and byte orders. A format string without a prefix (`"I"`, `"H"`) is big-endian, as scapy makes it. `Field(..., '<L')` is little-endian. Signed fields (`!h`, `SignedIntField`) use two's complement. The IPv4 and IPv6 address fields are raw 4- and 16-byte strings.

## Model

| member | source | states |
|---|---|---|
| Codec.DecodeConforms | pysap/SAPMS.py:1082-1198 | every slot of a decoded packet satisfies its layout: a present field's condition held on the fields before it, an absent field's did not, and each value has its kind's width and length |
| Codec.DecodeEncode | pysap/SAPMS.py:1082-1198 | re-encoding any decoded packet gives back exactly the input bytes |
| Codec.EncodeDecode | pysap/SAPMS.py:1082-1198 | decoding the re-encoding of a decoded packet gives back the same packet |
| Codec.DecodeInjective | pysap/SAPMS.py:1082-1198 | two inputs that decode to the same packet are equal |
| Codec.PackFixed | pysap/SAPMS.py:1139 | a fixed-width string always takes exactly its width: a longer value is cut to that width, a shorter one is followed by NUL bytes |
| Layout.EncodeDecodeStatic | pysap/SAPMS.py:546-586 | a complete packet over a layout of static-width fields decodes back from its encoding |
| Layout.FixedListRoundTrip | pysap/SAPMS.py:1129-1132 | a list of complete fixed-width records decodes back from its encoding |
| MsLayouts.DiagPortOrPadd | pysap/SAPMS.py:1101-1102 | `diag_port` is present iff `iflag == 0x08` and `flag == 0x02`, and `padd` is present iff `diag_port` is not |
| MsLayouts.HeaderWidth | pysap/SAPMS.py:1089-1102 | the 14 header slots of a conforming packet encode to exactly 110 bytes |
| MsLayouts.DecodedHeader | pysap/SAPMS.py:1089-1102 | a decoded packet with a complete header has at least 110 input bytes, and its header slots re-encode to exactly the first 110 |
| MsLayouts.OpcodeGroup | pysap/SAPMS.py:1105-1108 | `opcode`, `opcode_error`, `opcode_version` and `opcode_charset` are each present iff `iflag` is in {0x00, 0x01, 0x02, 0x07}, so they are present or absent together |
| MsLayouts.DpVersionPresence | pysap/SAPMS.py:1113 | `dp_version` is present iff `opcode == 0`, or `opcode_version == 0` and `opcode_charset == 0` |
| MsLayouts.DpInfoChoice | pysap/SAPMS.py:1114-1118 | `dp_info1`, `dp_info2` and `dp_info3` are each present iff `dp_version` is present and equals 0x0d, 0x0b or 0x0e; at most one of them is present |
| MsLayouts.DpInfo1Fills | pysap/SAPMS.py:1114 | the 507-byte `dp_info1` slice decodes to a complete `SAPDPInfo1` with no bytes left over, and decoding resumes right after the slice |
| MsLayouts.DpInfo2Fills | pysap/SAPMS.py:1116 | the 203-byte `dp_info2` slice decodes to a complete `SAPDPInfo2` with no bytes left over, and decoding resumes right after the slice |
| MsLayouts.DpInfo3SliceFails | pysap/SAPMS.py:1118 | decoding the 179-byte `dp_info3` slice always fails, because `SAPDPInfo3` takes 180 bytes and its last field is 5 bytes wide |
| MsLayouts.DpInfo3NeverDecoded | pysap/SAPMS.py:1118 | no packet that decodes holds a `dp_info3` block |
| MsLayouts.ClientsSelection | pysap/SAPMS.py:1129-1132 | the `clients` list at position 29 + v holds version-v client records and is present iff `opcode` is in {2, 3, 4, 5} and `opcode_version == v`; at most one of the four lists is present |
| MsLayouts.ClientWidths | pysap/SAPMS.py:589-668 | the client records of versions 1 to 4 are unconditional, static-width records of 67, 115, 150 and 160 bytes |
| MsLayouts.ClientListRoundTrip | pysap/SAPMS.py:1129-1132 | a list of n complete version-v client records encodes to n times v's width and decodes back to the same list |
| MsLayouts.AdmPresence | pysap/SAPMS.py:555-585 | which fields of an administration record are present, in terms of `opcode`, `executed` and `rzl_strg_type`: the 75+25-byte record, the 100-byte record and the parameter exclude one another, and the ten statistics integers exclude the 40-byte value |
| MsLayouts.AdmRecordWidth | pysap/SAPMS.py:555-585 | a complete administration record encodes to exactly 104 bytes, the `adm_recsize` default at 1124, when its opcode or `executed` selects a body, and to its 4 leading bytes otherwise |
| MsLayouts.AdmRecordRoundTrip | pysap/SAPMS.py:546-586 | a complete administration record that is followed by bytes or ends in a present field decodes back from its encoding |
| MsLayouts.TextValueLength | pysap/SAPMS.py:1139-1141 | `text_value` is present iff `opcode` is 0x22 or 0x23, and then it is `text_length` bytes long, or 80 bytes when `text_length` is 0 |
| MsLayouts.IpToNameUnreachable | pysap/SAPMS.py:1192-1193 | no conforming packet holds `ip_to_name`, and none that reaches it has opcode 0x46, because its length rule reads `logonname_length`, which `SAPMS` does not have |
| MsLayouts.IpToNameDecode | pysap/SAPMS.py:1193 | a decoded packet that reaches the `ip_to_name` position never has opcode 0x46 |
| MsLayouts.LogonLengths | pysap/SAPMS.py:747-757 | in conforming logon slots, `logonname`, `prot`, `host` and `misc` are each exactly as long as the length field before them, and `address6` and `end` are present iff `address6_length > 0` |
| MsLayouts.LogonFillLengths | pysap/SAPMS.py:746-755 | recomputing the length prefixes of slots that are already consistent changes none of the first eleven slots, and sets `address6_length` to 16 whenever `address6` is present |
| MsLayouts.LogonFillConforms | pysap/SAPMS.py:746-757 | building logon slots with arbitrary stored lengths, whose strings fit a 2-byte length and whose `address6` and `end` come together, yields a consistent record: each `*_length` is the byte length of the string after it, `address6_length` is 16 when the address is there, and every field's condition and width hold |
| MsLayouts.PropertyVariants | pysap/SAPMS.py:768-798 | each property field after `client` and `id` is present iff `id` selects its variant (2, 3, 4, 5 or 7), so the variants exclude one another |
| MsLayouts.PropertyParam | pysap/SAPMS.py:783-785 | with `id == 4`, `param` is `param_len` bytes and `param_padding` is `100 - param_len` bytes, 100 bytes together |
| MsLayouts.PropertyLogonValue | pysap/SAPMS.py:774-775 | with `id == 2`, `value` is exactly `len` bytes long |
| MsRecords.Client1Width | pysap/SAPMS.py:598-603 | `SAPMSClient1` is an unconditional static-width record of 67 bytes |
| MsRecords.Client2Width | pysap/SAPMS.py:616-624 | `SAPMSClient2` is an unconditional static-width record of 115 bytes |
| MsRecords.Client3Width | pysap/SAPMS.py:636-645 | `SAPMSClient3` is an unconditional static-width record of 150 bytes |
| MsRecords.Client4Width | pysap/SAPMS.py:657-667 | `SAPMSClient4` is an unconditional static-width record of 160 bytes |
| MsRecords.Stat3Width | pysap/SAPMS.py:680-720 | `SAPMSStat3` is an unconditional static-width record of 1280 bytes |
| MsRecords.CounterWidth | pysap/SAPMS.py:731-733 | `SAPMSCounter` is an unconditional static-width record of 48 bytes |
| MsRecords.DpInfo1Width | pysap/SAPMS.py:874-949 | the fields of `SAPDPInfo1` total exactly 507 bytes |
| MsRecords.DpInfo2Width | pysap/SAPMS.py:961-996 | the fields of `SAPDPInfo2` total exactly 203 bytes |
| MsRecords.DpInfo3Width | pysap/SAPMS.py:1008-1078 | the fields of `SAPDPInfo3` total 180 bytes |
| MsTables.InverseOfTable | pysap/SAPMS.py:44 | for a table whose codes and names are both distinct, the inverted table maps every name back to its code, and the two have the same size |
| MsTables.DomainInverse | pysap/SAPMS.py:35-44 | `ms_domain_values_inv` is {ABAP: 0, J2EE: 1, JSTARTUP: 2}, maps each domain name back to its code, and has as many entries as `ms_domain_values` |
| NiFrame.Frame | tests/test_sapni.py:58-70 | a payload can be framed iff its length fits 4 bytes; the frame is 4 + len(p) bytes long, its first 4 bytes read big-endian are len(p), and the payload follows unchanged |
| NiFrame.Unframe | tests/test_sapni.py:73-85 | unframing succeeds iff there are 4 length bytes and at least that many payload bytes after them; an empty stream is a closed connection |
| NiFrame.UnframeFrame | tests/test_sapni.py:80-85 | unframing a frame followed by any bytes gives back the payload and those bytes |
| NiFrame.FrameUnframe | tests/test_sapni.py:80-85 | what unframing reads is a frame: the stream is the frame of the payload followed by the rest |
| NiFrame.EchoFrame | tests/test_sapni.py:92-98 | the echo handler's reply to a frame is that same frame, whatever follows it |
| NiFrame.EchoReplyFrames | tests/test_sapni.py:92-98 | every echo reply is one whole frame whose payload is a prefix of the bytes after the request's length, no longer than that length |
| NiFrame.PingFrameIsFrame | tests/test_sapni.py:106 | the keep-alive literal `\x00\x00\x00\x08NI_PING\x00` is the frame of the 8-byte payload `NI_PING\x00` |
| NiFrame.Recv | tests/test_sapni.py:178-228 | with keep-alive on, `recv` never returns a probe; with it off, it returns the next frame as unframed, probe or not |
| NiFrame.KeepAliveOff | tests/test_sapni.py:178-201 | with keep-alive off, the caller receives the echoed payload and then the probe as an ordinary frame |
| NiFrame.KeepAliveOn | tests/test_sapni.py:204-228 | with keep-alive on, the caller receives the echoed payload, and the next `recv` answers the probe and then fails on the closed stream |
| NiFrame.ProbeInvisible | tests/test_sapni.py:204-228 | with keep-alive on, a probe between two frames is skipped: the caller sees the two payloads in order, and one probe is answered |
| NiFrame.ClosedPeer | tests/test_sapni.py:233-245 | a peer that closes without sending makes `recv` fail with a closed connection; the echo handler, reading no length bytes, fails to unpack one |
| NiFrame.ServerEchoLayout | tests/test_sapni.py:262-290 | the NI server's answer to a frame has outer length len(p) + 4, inner length len(p), and then p |
| NiFrame.ProxyExchangeOf | tests/test_sapni.py:316-336 | through the proxy, the answer is the client hook's image of the server's re-framing of the server hook's image of p, framed |
| NiFrame.IdentityProxy | tests/test_sapni.py:316-336 | through the proxy without hooks, the answer equals the server's own: outer length len(p) + 4, inner length len(p), then p |
| NiFrame.AppendingProxy | tests/test_sapni.py:338-378 | with hooks appending c towards the server and s towards the client, the answer has outer length len(p + c + s) + 4, the stale inner length len(p + c), then p + c + s |
| NiFrame.ClientServerProxy | tests/test_sapni.py:338-378 | with the test's "Client" and "Server" suffixes, the inner length is len(p) + 6 and the outer one len(p + "Client" + "Server") + 4 |

## Left out

- The scapy engine itself (`Packet`, `Field`, `ConditionalField`, the `fields_desc` machinery). It is replaced by the `Codec` interpretation of field kinds. Dissection of payload layers, `guess_payload_class` and display are not modelled.
- Field names and enum display names. Fields are positional slots, so duplicated names (`reserved`, `record`, `clients`, `value`, `dp_addr_from_m`) cause no clash. Enumerated fields are plain integers of their width, and the tables in `MsTables` give their names.
- `pysap/utils/fields.py` is not part of this model. `IntToStrField`, `StrNullFixedLenField` and `StrNullFixedLenPaddedField` are fixed-width byte strings of their declared length. Null termination is not modelled; on encode they are cut or NUL-padded to their width, as `StrFixedLenField` does.
- MsLayouts.ClientListRoundTrip: `Packet` and `PacketNoPadded` sub-records are read alike, each taking only its own fields. In scapy a plain `Packet` (`SAPMSClient3`, `SAPMSProperty`) that sits in a list or sub-record takes the rest of the buffer as its raw payload. So scapy reads a version-3 `clients` list (pysap/SAPMS.py:1131) as one record followed by raw bytes, and never dissects `shutdown_reason_length` and `shutdown_reason` after a `shutdown_client`. The model reads n records and goes on to those fields.
- Codec.DecodeList: a record that fails to decode fails the whole packet. scapy's `PacketListField` catches the failure and keeps the remaining bytes as one raw item. For example, an administration record with opcode 0x15 and `rzl_strg_type` 11 that has only 2 bytes left for `rzl_strg_uptime` makes the model's `SAPMS` decode fail with `TruncatedInput`.
- Strictness on short input. scapy's string fields take whatever bytes remain, but the model fails with `TruncatedInput`. For the same reason `dp_info3`, whose 179-byte slice is one byte short of `SAPDPInfo3`, never decodes in the model (`MsLayouts.DpInfo3SliceFails`).
- `param_padding` when `param_len` exceeds 100. scapy slices with a negative length, but the model reports `NegativeLength`.
- Encoding a partly decoded packet emits only the decoded slots. scapy would also build defaults for the fields that were never read.
- IpToNameUnreachable: the length rule of `ip_to_name` reads `logonname_length`, which is not a `SAPMS` field, so Python raises when the rule runs. The model fails with `UnknownField` and proves what follows from that, not the evidently intended rule reading `ip_to_name_length`.
- `FieldLenField` on encode writes its stored value. The recomputation from the governed string's length, which scapy does when the value is `None`, is the separate function `Layout.FillLengths`.
- `opcode_value` and `opcode_trailer` are modelled only as "the remaining bytes".
- `SAPMSJ2EECluster`, `SAPMSJ2EEHeader` and `SAPMSJ2EEService` (pysap/SAPMS.py:802-863) are not modelled. No field of `SAPMS` uses them.
- Textual forms of IPv4 and IPv6 addresses. Addresses stay raw 4- and 16-byte values.
- `bind_layers` is reduced to the constant `NiFrame.MsPorts` = {3600, 3900}.
- Sockets, `ThreadingTCPServer`, threads, proxy multiplexing, and server start and stop. These are I/O and concurrency. `pysap/SAPNI.py` is not part of this model, so NI framing is modelled only through the byte equations the tests assert. The PONG reply bytes to a probe are not modelled: `NiFrame.Recv` only counts the probes it answers.
- The echo handler's second `recv(length)` may return fewer bytes than asked. It is modelled as "up to `length` bytes of what was sent".
- The proxy is modelled for one request and one answer. It is not modelled as a loop over a connection.
- `NiFrame.Frame` rejects payloads of 2^32 bytes or more, where `pack("!I", ...)` raises.
