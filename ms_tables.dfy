/**
 * The Message Server code tables: each maps a numeric code to its display
 * name. A table is written as the ordered list of its entries, as the dict
 * literal in the source lists them; when a key repeats, the later entry wins,
 * as it does in a Python dict.
 */
module MsTables {

  /** The map a dict literal with these entries builds. */
  function TableOf(entries: seq<(int, string)>): map<int, string>
    decreases |entries|
  {
    if |entries| == 0 then map[]
    else
      var last := entries[|entries| - 1];
      TableOf(entries[..|entries| - 1])[last.0 := last.1]
  }

  /**
   * Names to codes, later entries winning: for entries with distinct keys,
   * the map `{v: k for k, v in table.items()}` builds from `TableOf(entries)`.
   */
  function InvertEntries(entries: seq<(int, string)>): map<string, int>
    decreases |entries|
  {
    if |entries| == 0 then map[]
    else
      var last := entries[|entries| - 1];
      InvertEntries(entries[..|entries| - 1])[last.1 := last.0]
  }

  predicate DistinctKeys(entries: seq<(int, string)>) {
    forall i, j :: 0 <= i < j < |entries| ==> entries[i].0 != entries[j].0
  }

  predicate DistinctNames(entries: seq<(int, string)>) {
    forall i, j :: 0 <= i < j < |entries| ==> entries[i].1 != entries[j].1
  }

  /** The keys of the table are exactly the keys of its entries. */
  lemma {:induction false} TableKeys(entries: seq<(int, string)>)
    ensures TableOf(entries).Keys == set i | 0 <= i < |entries| :: entries[i].0
    decreases |entries|
  {
    if |entries| > 0 {
      var init := entries[..|entries| - 1];
      TableKeys(init);
      assert forall i :: 0 <= i < |init| ==> init[i] == entries[i];
      var s := set i | 0 <= i < |entries| :: entries[i].0;
      var s' := set i | 0 <= i < |init| :: init[i].0;
      assert s == s' + {entries[|entries| - 1].0} by {
        forall k | k in s ensures k in s' + {entries[|entries| - 1].0} {
          var i :| 0 <= i < |entries| && entries[i].0 == k;
          if i < |init| { assert init[i].0 == k; }
        }
      }
    }
  }

  /** With distinct keys every entry is found in the table. */
  lemma {:induction false} TableLookup(entries: seq<(int, string)>, i: nat)
    requires DistinctKeys(entries) && i < |entries|
    ensures entries[i].0 in TableOf(entries) && TableOf(entries)[entries[i].0] == entries[i].1
    decreases |entries|
  {
    if i < |entries| - 1 {
      var init := entries[..|entries| - 1];
      assert init[i] == entries[i];
      TableLookup(init, i);
    }
  }

  /** With distinct names every entry is found, reversed, in the inverted table. */
  lemma {:induction false} InvertLookup(entries: seq<(int, string)>, i: nat)
    requires DistinctNames(entries) && i < |entries|
    ensures entries[i].1 in InvertEntries(entries) && InvertEntries(entries)[entries[i].1] == entries[i].0
    decreases |entries|
  {
    if i < |entries| - 1 {
      var init := entries[..|entries| - 1];
      assert init[i] == entries[i];
      InvertLookup(init, i);
    }
  }

  lemma {:induction false} TableSize(entries: seq<(int, string)>)
    requires DistinctKeys(entries)
    ensures |TableOf(entries)| == |entries|
    decreases |entries|
  {
    if |entries| > 0 {
      var init := entries[..|entries| - 1];
      TableSize(init);
      TableKeys(init);
    }
  }

  /** The names of the inverted table are exactly the names of the entries. */
  lemma {:induction false} InvertKeys(entries: seq<(int, string)>)
    ensures InvertEntries(entries).Keys == set i | 0 <= i < |entries| :: entries[i].1
    decreases |entries|
  {
    if |entries| > 0 {
      var init := entries[..|entries| - 1];
      InvertKeys(init);
      assert forall i :: 0 <= i < |init| ==> init[i] == entries[i];
      var s := set i | 0 <= i < |entries| :: entries[i].1;
      var s' := set i | 0 <= i < |init| :: init[i].1;
      assert s == s' + {entries[|entries| - 1].1} by {
        forall v | v in s ensures v in s' + {entries[|entries| - 1].1} {
          var i :| 0 <= i < |entries| && entries[i].1 == v;
          if i < |init| { assert init[i].1 == v; }
        }
      }
    }
  }

  lemma {:induction false} InvertSize(entries: seq<(int, string)>)
    requires DistinctNames(entries)
    ensures |InvertEntries(entries)| == |entries|
    decreases |entries|
  {
    if |entries| > 0 {
      var init := entries[..|entries| - 1];
      InvertSize(init);
      InvertKeys(init);
    }
  }

  /**
   * For a table whose codes and names are both distinct, the inverted table
   * maps every name back to its code, and the two tables have the same size.
   */
  lemma InverseOfTable(entries: seq<(int, string)>)
    requires DistinctKeys(entries) && DistinctNames(entries)
    ensures forall k :: k in TableOf(entries) ==>
      TableOf(entries)[k] in InvertEntries(entries) && InvertEntries(entries)[TableOf(entries)[k]] == k
    ensures |InvertEntries(entries)| == |TableOf(entries)|
  {
    TableKeys(entries);
    forall k | k in TableOf(entries)
      ensures TableOf(entries)[k] in InvertEntries(entries) && InvertEntries(entries)[TableOf(entries)[k]] == k
    {
      var i :| 0 <= i < |entries| && entries[i].0 == k;
      TableLookup(entries, i);
      InvertLookup(entries, i);
    }
    TableSize(entries);
    InvertSize(entries);
  }

  /** `ms_domain_values` (pysap/SAPMS.py:35-39). */
  const MsDomainValuesEntries: seq<(int, string)> := [
    (0, "ABAP"),
    (1, "J2EE"),
    (2, "JSTARTUP")
  ]
  const MsDomainValues: map<int, string> := TableOf(MsDomainValuesEntries)

  /** `ms_flag_values` (pysap/SAPMS.py:48-55). */
  const MsFlagValuesEntries: seq<(int, string)> := [
    (0, "MS_UNKNOWN"),
    (1, "MS_ONE_WAY"),
    (2, "MS_REQUEST"),
    (3, "MS_REPLY"),
    (4, "MS_ADMIN")
  ]
  const MsFlagValues: map<int, string> := TableOf(MsFlagValuesEntries)

  /** `ms_iflag_values` (pysap/SAPMS.py:60-79). */
  const MsIflagValuesEntries: seq<(int, string)> := [
    (0, "MS_UNKNOWN"),
    (1, "MS_SEND_NAME"),
    (2, "MS_SEND_TYPE"),
    (3, "MS_LOGIN"),
    (4, "MS_LOGOUT"),
    (5, "MS_ADM_OPCODES"),
    (6, "MS_MOD_MSGTYPES"),
    (7, "MS_SEND_TYPE_ONCE"),
    (8, "MS_LOGIN_2"),
    (9, "MS_MOD_STATE"),
    (10, "MS_J2EE_LOGIN"),
    (12, "MS_J2EE_SEND_TO_CLUSTERID"),
    (13, "MS_J2EE_SEND_BROADCAST"),
    (14, "MS_SEND_TYPE_ACK"),
    (15, "MS_J2EE_LOGIN_2"),
    (16, "MS_SEND_SERVICE"),
    (17, "MS_J2EE_LOGIN_3"),
    (18, "MS_J2EE_LOGIN_4")
  ]
  const MsIflagValues: map<int, string> := TableOf(MsIflagValuesEntries)

  /** `ms_errorno_values` (pysap/SAPMS.py:84-122). */
  const MsErrornoValuesEntries: seq<(int, string)> := [
    (0, "MSERECONNECTION"),
    (1, "MSENISELWRITE"),
    (2, "MSENISELREAD"),
    (3, "MSENIQUEUE"),
    (4, "MSENILAYER"),
    (71, "MSETESTSOFTSHUTDOWN"),
    (72, "MSENOTINIT"),
    (73, "MSEALREADYINIT"),
    (74, "MSEINVHDL"),
    (75, "MSEWRONGSERVER"),
    (76, "MSEMOREDATA"),
    (77, "MSESNDTYPEFAILED"),
    (78, "MSEDUPKEY"),
    (79, "MSESOFTSHUTDOWN"),
    (81, "MSENOMEM"),
    (82, "MSEHEADERINCOMPLETE"),
    (83, "MSETYPESNOTALLOWED"),
    (84, "MSEACCESSDENIED"),
    (85, "MSEWRITEINCOMPLETE"),
    (86, "MSEREADINCOMPLETE"),
    (87, "MSEADMIN"),
    (88, "MSESOCKTOOLARGE"),
    (89, "MSENOSLOTFREE"),
    (90, "MSESHUTDOWN"),
    (91, "MSEREPLYTOOLARGE"),
    (92, "MSEWRONGVERSION"),
    (93, "MSEMSGDESTROYED"),
    (94, "MSENOTUNIQUE"),
    (95, "MSEPARTNERUNKNOWN"),
    (96, "MSEPARTNERDIED"),
    (97, "MSEWRONGTYPE"),
    (98, "MSEWRONGNAME"),
    (99, "MSEWAKEUP"),
    (100, "MSENOTFOUND"),
    (101, "MSEINVAL"),
    (102, "MSENOMSG"),
    (103, "MSEINTERN")
  ]
  const MsErrornoValues: map<int, string> := TableOf(MsErrornoValuesEntries)

  /** `ms_adm_type_values` (pysap/SAPMS.py:127-130). */
  const MsAdmTypeValuesEntries: seq<(int, string)> := [
    (1, "ADM_REQUEST"),
    (2, "ADM_REPLY")
  ]
  const MsAdmTypeValues: map<int, string> := TableOf(MsAdmTypeValuesEntries)

  /** `ms_adm_opcode_values` (pysap/SAPMS.py:135-203). */
  const MsAdmOpcodeValuesEntries: seq<(int, string)> := [
    (0, "AD_GENERAL"),
    (1, "AD_PROFILE"),
    (2, "AD_WPSTAT"),
    (3, "AD_QUEUE"),
    (4, "AD_STARTSTOP"),
    (5, "AD_WPCONF"),
    (6, "AD_USRLST"),
    (7, "AD_WPKILL"),
    (8, "AD_TIMEINFO"),
    (9, "AD_TM_RECONNECT"),
    (10, "AD_ALRT_GET_STATE"),
    (11, "AD_ALRT_OPERATION"),
    (12, "AD_ALRT_SET_PARAM"),
    (13, "AD_DB_RECONNECT"),
    (14, "AD_ECHO"),
    (15, "AD_MSGSERVER"),
    (16, "AD_WPCONF2"),
    (17, "AD_GENERAL2"),
    (18, "AD_SET_LIST_PARAM"),
    (19, "AD_DUMP_STATUS"),
    (20, "AD_RZL"),
    (21, "AD_RZL_STRG"),
    (22, "AD_COUNT_WPS"),
    (23, "AD_QUEUE2"),
    (25, "AD_EM"),
    (26, "AD_ES"),
    (27, "AD_SHUTDOWN_STATE"),
    (28, "AD_SHUTDOWN_INFO"),
    (29, "AD_SHUTDOWN_ERROR"),
    (31, "AD_DISPLACE"),
    (32, "AD_GET_TIMETAB"),
    (33, "AD_SET_TIMETAB"),
    (40, "AD_MSBUF"),
    (41, "AD_ARFC_NOREQ"),
    (42, "AD_ENQID_INFO"),
    (43, "AD_DEL_USER"),
    (44, "AD_SPO_ADM"),
    (45, "AD_NTAB_SYNC"),
    (46, "AD_SHARED_PARAMETER"),
    (47, "AD_RESET_TRACE"),
    (48, "AD_RESET_USR02"),
    (49, "AD_WALL_CREATE"),
    (50, "AD_WALL_DELETE"),
    (51, "AD_WALL_MODIFY"),
    (52, "AD_SERVER_STATE"),
    (60, "AD_SELFIDENT"),
    (61, "AD_DP_TRACE_CHANGE"),
    (62, "AD_DP_DUMP_NIHDL"),
    (63, "AD_DP_CALL_DELAYED"),
    (64, "AD_GW_ADM"),
    (65, "AD_DP_WAKEUP_MODE"),
    (66, "AD_VMC_SYS_EVENT"),
    (67, "AD_SHARED_PARAM_ALL_WPS"),
    (68, "AD_SECSESSION_UPDATE"),
    (69, "AD_SECSESSION_TERMINATE"),
    (70, "AD_ASRF_REQUEST"),
    (71, "AD_GET_NILIST"),
    (72, "AD_LOAD_INFO"),
    (73, "AD_TEST"),
    (74, "AD_HANDLE_ACL"),
    (75, "AD_PROFILE2"),
    (76, "AD_RSCP_ASYNC"),
    (77, "AD_BATCH_INFO"),
    (78, "AD_SOFT_CANCEL"),
    (85, "AD_SYNC_LOAD_FMT"),
    (86, "AD_GET_NILIST_PORT"),
    (90, "AD_UNKNOWN")
  ]
  const MsAdmOpcodeValues: map<int, string> := TableOf(MsAdmOpcodeValuesEntries)

  /** `ms_adm_rzl_strg_type_values` (pysap/SAPMS.py:208-230). */
  const MsAdmRzlStrgTypeValuesEntries: seq<(int, string)> := [
    (10, "STRG_TYPE_READALL"),
    (11, "STRG_TYPE_READALL_I"),
    (12, "STRG_TYPE_READALL_C"),
    (13, "STRG_TYPE_READALL_LC"),
    (15, "STRG_TYPE_READALL_OFFSET_I"),
    (16, "STRG_TYPE_READALL_OFFSET_C"),
    (17, "STRG_TYPE_READALL_OFFSET_LC"),
    (20, "STRG_TYPE_READALL_OFFSET"),
    (21, "STRG_TYPE_READ_I"),
    (22, "STRG_TYPE_READ_C"),
    (23, "STRG_TYPE_READ_LC"),
    (31, "STRG_TYPE_WRITE_I"),
    (32, "STRG_TYPE_WRITE_C"),
    (33, "STRG_TYPE_WRITE_LC"),
    (41, "STRG_TYPE_DEL_I"),
    (42, "STRG_TYPE_DEL_C"),
    (43, "STRG_TYPE_DEL_LC"),
    (51, "STRG_TYPE_CREATE_I"),
    (52, "STRG_TYPE_CREATE_C"),
    (53, "STRG_TYPE_CREATE_LC"),
    (90, "STRG_TYPE_DUMP")
  ]
  const MsAdmRzlStrgTypeValues: map<int, string> := TableOf(MsAdmRzlStrgTypeValuesEntries)

  /** `ms_opcode_values` (pysap/SAPMS.py:235-312). */
  const MsOpcodeValuesEntries: seq<(int, string)> := [
    (0, "MS_DP_ADM"),
    (1, "MS_SERVER_CHG"),
    (2, "MS_SERVER_ADD"),
    (3, "MS_SERVER_SUB"),
    (4, "MS_SERVER_MOD"),
    (5, "MS_SERVER_LST"),
    (6, "MS_CHANGE_IP"),
    (7, "MS_SET_SECURITY_KEY"),
    (8, "MS_GET_SECURITY_KEY"),
    (9, "MS_GET_SECURITY_KEY2"),
    (10, "MS_GET_HWID"),
    (11, "MS_INCRE_TRACE"),
    (12, "MS_DECRE_TRACE"),
    (13, "MS_RESET_TRACE"),
    (14, "MS_ACT_STATISTIC"),
    (15, "MS_DEACT_STATISTIC"),
    (16, "MS_RESET_STATISTIC"),
    (17, "MS_GET_STATISTIC"),
    (18, "MS_DUMP_NIBUFFER"),
    (19, "MS_RESET_NIBUFFER"),
    (20, "MS_OPEN_REQ_LST"),
    (21, "MS_SERVER_INFO"),
    (22, "MS_SERVER_LIST"),
    (23, "MS_SERVER_ENTRY"),
    (24, "MS_DOMAIN_INFO"),
    (25, "MS_DOMAIN_LIST"),
    (26, "MS_DOMAIN_ENTRY"),
    (27, "MS_MAP_URL_TO_ADDR"),
    (28, "MS_GET_CODEPAGE"),
    (29, "MS_SOFT_SHUTDOWN"),
    (30, "MS_DUMP_INFO"),
    (31, "MS_FILE_RELOAD"),
    (32, "MS_RESET_DOMAIN_CONN"),
    (33, "MS_NOOP"),
    (34, "MS_SET_TXT"),
    (35, "MS_GET_TXT"),
    (36, "MS_COUNTER_CREATE"),
    (37, "MS_COUNTER_DELETE"),
    (38, "MS_COUNTER_INCREMENT"),
    (39, "MS_COUNTER_DECREMENT"),
    (40, "MS_COUNTER_REGISTER"),
    (41, "MS_COUNTER_GET"),
    (42, "MS_COUNTER_LST"),
    (43, "MS_SET_LOGON"),
    (44, "MS_GET_LOGON"),
    (45, "MS_DEL_LOGON"),
    (46, "MS_SERVER_DISC"),
    (47, "MS_SERVER_SHUTDOWN"),
    (48, "MS_SERVER_SOFT_SHUTDOWN"),
    (49, "MS_J2EE_CLUSTERNODE_CHG"),
    (50, "MS_J2EE_CLUSTERNODE_ADD"),
    (51, "MS_J2EE_CLUSTERNODE_SUB"),
    (52, "MS_J2EE_CLUSTERNODE_MOD"),
    (53, "MS_J2EE_CLUSTERNODE_LST"),
    (54, "MS_J2EE_SERVICE_REG"),
    (55, "MS_J2EE_SERVICE_UNREG"),
    (56, "MS_J2EE_SERVICE_LST"),
    (57, "MS_J2EE_SERVICE_ADD"),
    (58, "MS_J2EE_SERVICE_SUB"),
    (59, "MS_J2EE_SERVICE_MOD"),
    (60, "MS_J2EE_MOD_STATE"),
    (61, "MS_J2EE_SERVICE_GET"),
    (62, "MS_J2EE_SERVICE_REG2"),
    (63, "MS_NITRACE_SETGET"),
    (64, "MS_SERVER_LONG_LIST"),
    (65, "MS_J2EE_DEBUG_ENABLE"),
    (66, "MS_J2EE_DEBUG_DISABLE"),
    (67, "MS_SET_PROPERTY"),
    (68, "MS_GET_PROPERTY"),
    (69, "MS_DEL_PROPERTY"),
    (70, "MS_IP_PORT_TO_NAME"),
    (71, "MS_CHECK_ACL"),
    (72, "MS_LICENSE_SRV"),
    (74, "MS_SERVER_TEST_SOFT_SHUTDOWN"),
    (75, "MS_J2EE_RECONNECT_P1"),
    (76, "MS_J2EE_RECONNECT_P2")
  ]
  const MsOpcodeValues: map<int, string> := TableOf(MsOpcodeValuesEntries)

  /** `ms_opcode_error_values` (pysap/SAPMS.py:317-350). */
  const MsOpcodeErrorValuesEntries: seq<(int, string)> := [
    (0, "MSOP_OK"),
    (1, "MSOP_UNKNOWN_OPCODE"),
    (2, "MSOP_NOMEM"),
    (3, "MSOP_SECURITY_KEY_NOTSET"),
    (4, "MSOP_UNKNOWN_CLIENT"),
    (5, "MSOP_ACCESS_DENIED"),
    (6, "MSOP_REQUEST_REQUIRED"),
    (7, "MSOP_NAME_REQUIRED"),
    (8, "MSOP_GET_HWID_FAILED"),
    (9, "MSOP_SEND_FAILED"),
    (10, "MSOP_UNKNOWN_DOMAIN"),
    (11, "MSOP_UNKNOWN_SERVER"),
    (12, "MSOP_NO_DOMAIN_SERVER"),
    (13, "MSOP_INVALID_URL"),
    (14, "MSOP_UNKNOWN_DUMP_REQ"),
    (15, "MSOP_FILENOTFOUND"),
    (16, "MSOP_UNKNOWN_RELOAD_REQ"),
    (17, "MSOP_FILENOTDEFINED"),
    (18, "MSOP_CONVERT_FAILED"),
    (19, "MSOP_NOTSET"),
    (20, "MSOP_COUNTER_EXCEEDED"),
    (21, "MSOP_COUNTER_NOTFOUND"),
    (22, "MSOP_COUNTER_DELETED"),
    (23, "MSOP_COUNTER_EXISTS"),
    (24, "MSOP_EINVAL"),
    (25, "MSOP_NO_J2EE_CLUSTERNODE"),
    (26, "MSOP_UNKNOWN_PROPERTY"),
    (27, "MSOP_UNKNOWN_VERSION"),
    (28, "MSOP_ICTERROR"),
    (29, "MSOP_KERNEL_INCOMPATIBLE"),
    (30, "MSOP_NIACLCREATE_FAILED"),
    (31, "MSOP_NIACLSYNTAX_ERROR")
  ]
  const MsOpcodeErrorValues: map<int, string> := TableOf(MsOpcodeErrorValuesEntries)

  /** `ms_property_id_values` (pysap/SAPMS.py:355-363). */
  const MsPropertyIdValuesEntries: seq<(int, string)> := [
    (1, "MS_PROPERTY_TEXT"),
    (2, "MS_PROPERTY_VHOST"),
    (3, "MS_PROPERTY_IPADR"),
    (4, "MS_PROPERTY_PARAM"),
    (5, "MS_PROPERTY_SERVICE"),
    (6, "MS_PROPERTY_DELALT"),
    (7, "Release information")
  ]
  const MsPropertyIdValues: map<int, string> := TableOf(MsPropertyIdValuesEntries)

  /** `ms_dump_command_values` (pysap/SAPMS.py:368-396). */
  const MsDumpCommandValuesEntries: seq<(int, string)> := [
    (1, "MS_DUMP_MSADM"),
    (2, "MS_DUMP_CON"),
    (3, "MS_DUMP_PARAMS"),
    (4, "MS_DUMP_ALL_CLIENTS"),
    (5, "MS_DUMP_ALL_SERVER"),
    (6, "MS_DUMP_ALL_DOMAIN"),
    (7, "MS_DUMP_DOMAIN_CONN"),
    (8, "MS_DUMP_RELEASE"),
    (9, "MS_DUMP_SIZEOF"),
    (10, "MS_DUMP_FIADM"),
    (11, "MS_DUMP_FICON"),
    (12, "MS_DUMP_COUNTER"),
    (13, "MS_DUMP_STATISTIC"),
    (14, "MS_DUMP_NIBUF"),
    (15, "MS_DUMP_URLMAP"),
    (16, "MS_DUMP_URLPREFIX"),
    (17, "MS_DUMP_URLHANDLER"),
    (18, "MS_DUMP_NOSERVER"),
    (19, "MS_DUMP_ACLINFO"),
    (20, "MS_DUMP_PERMISSION_TABLE"),
    (21, "MS_DUMP_J2EE_CLUSTER_STAT"),
    (22, "MS_DUMP_ACL_FILE_EXT"),
    (23, "MS_DUMP_ACL_FILE_INT"),
    (24, "MS_DUMP_ACL_FILE_ADMIN"),
    (25, "MS_DUMP_ACL_FILE_EXTBND"),
    (26, "MS_DUMP_ACL_FILE_HTTP"),
    (27, "MS_DUMP_ACL_FILE_HTTPS")
  ]
  const MsDumpCommandValues: map<int, string> := TableOf(MsDumpCommandValuesEntries)

  /** `ms_file_reload_values` (pysap/SAPMS.py:401-416). */
  const MsFileReloadValuesEntries: seq<(int, string)> := [
    (1, "MS_RELOAD_CLIENT_TAB"),
    (2, "MS_RELOAD_SERVER_TAB"),
    (3, "MS_RELOAD_DOMAIN_TAB"),
    (4, "MS_RELOAD_URLMAP"),
    (5, "MS_RELOAD_URLPREFIX"),
    (6, "MS_RELOAD_ACL_INFO"),
    (7, "MS_RELOAD_PERMISSION_TABLE"),
    (8, "MS_RELOAD_STOC"),
    (9, "MS_RELOAD_ACL_FILE_EXT"),
    (10, "MS_RELOAD_ACL_FILE_INT"),
    (11, "MS_RELOAD_ACL_FILE_ADMIN"),
    (12, "MS_RELOAD_ACL_FILE_EXTBND"),
    (13, "MS_RELOAD_ACL_FILE_HTTP"),
    (14, "MS_RELOAD_ACL_FILE_HTTPS")
  ]
  const MsFileReloadValues: map<int, string> := TableOf(MsFileReloadValuesEntries)

  /** `ms_logon_type_values` (pysap/SAPMS.py:421-460). */
  const MsLogonTypeValuesEntries: seq<(int, string)> := [
    (0, "MS_LOGON_DIAG_LB"),
    (1, "MS_LOGON_DIAG_LBS"),
    (2, "MS_LOGON_DIAG"),
    (3, "MS_LOGON_DIAGS"),
    (4, "MS_LOGON_RFC"),
    (5, "MS_LOGON_RFCS"),
    (6, "MS_LOGON_HTTP"),
    (7, "MS_LOGON_HTTPS"),
    (8, "MS_LOGON_FTP"),
    (9, "MS_LOGON_SMTP"),
    (10, "MS_LOGON_NNTP"),
    (11, "MS_LOGON_DIAG_E"),
    (12, "MS_LOGON_DIAGS_E"),
    (13, "MS_LOGON_RFC_E"),
    (14, "MS_LOGON_RFCS_E"),
    (15, "MS_LOGON_HTTP_E"),
    (16, "MS_LOGON_HTTPS_E"),
    (17, "MS_LOGON_FTP_E"),
    (18, "MS_LOGON_SMTP_E"),
    (19, "MS_LOGON_NNTP_E"),
    (20, "MS_LOGON_J2EE"),
    (21, "MS_LOGON_J2EES"),
    (22, "MS_LOGON_J2EE_E"),
    (23, "MS_LOGON_J2EES_E"),
    (24, "MS_LOGON_P4"),
    (25, "MS_LOGON_P4S"),
    (26, "MS_LOGON_IIOP"),
    (27, "MS_LOGON_IIOPS"),
    (28, "MS_LOGON_SDM"),
    (29, "MS_LOGON_TELNET"),
    (30, "MS_LOGON_DEBUG"),
    (31, "MS_LOGON_DPROXY"),
    (32, "MS_LOGON_P4HTTP"),
    (33, "MS_LOGON_HTTPRI"),
    (34, "MS_LOGON_HTTPSRI"),
    (35, "MS_LOGON_J2EERI"),
    (36, "MS_LOGON_J2EESRI"),
    (37, "MS_LOGON_TRXNS")
  ]
  const MsLogonTypeValues: map<int, string> := TableOf(MsLogonTypeValuesEntries)

  /** `ms_client_status_values` (pysap/SAPMS.py:464-472). */
  const MsClientStatusValuesEntries: seq<(int, string)> := [
    (0, "MS_STATE_UNKNOWN"),
    (1, "ACTIVE"),
    (2, "INACTIVE"),
    (3, "MS_STATE_SHUTDOWN"),
    (4, "MS_STATE_STOP"),
    (5, "MS_STATE_STARTING"),
    (6, "MS_STATE_INIT")
  ]
  const MsClientStatusValues: map<int, string> := TableOf(MsClientStatusValuesEntries)

  /** `dp_prio_values` (pysap/SAPMS.py:476-480). */
  const DpPrioValuesEntries: seq<(int, string)> := [
    (0, "LOW"),
    (1, "MEDIUM"),
    (2, "HIGH")
  ]
  const DpPrioValues: map<int, string> := TableOf(DpPrioValuesEntries)

  /** `dp_type_values` (pysap/SAPMS.py:484-490). */
  const DpTypeValuesEntries: seq<(int, string)> := [
    (0, "INVALID"),
    (1, "LOCAL"),
    (2, "BY_NAME"),
    (3, "BY_TYPE"),
    (4, "MSG_SRV")
  ]
  const DpTypeValues: map<int, string> := TableOf(DpTypeValuesEntries)

  /** `dp_agent_type_values` (pysap/SAPMS.py:494-506). */
  const DpAgentTypeValuesEntries: seq<(int, string)> := [
    (0, "INVALID"),
    (1, "DISP"),
    (2, "GATEWAY"),
    (3, "ICMAN"),
    (4, "TERMINAL"),
    (5, "MSG"),
    (6, "WORKER"),
    (7, "EXT-EVT"),
    (8, "STARTSRV"),
    (9, "DPMON"),
    (10, "ICMON")
  ]
  const DpAgentTypeValues: map<int, string> := TableOf(DpAgentTypeValuesEntries)

  /** `dp_worker_type_values` (pysap/SAPMS.py:510-518). */
  const DpWorkerTypeValuesEntries: seq<(int, string)> := [
    (0, "NOWP"),
    (1, "DIA"),
    (2, "UPD"),
    (3, "ENQ"),
    (4, "BTC"),
    (5, "SPO"),
    (6, "UP2")
  ]
  const DpWorkerTypeValues: map<int, string> := TableOf(DpWorkerTypeValuesEntries)

  /** `dp_req_handler_values` (pysap/SAPMS.py:522-542). */
  const DpReqHandlerValuesEntries: seq<(int, string)> := [
    (2, "REQ_HANDLER_GUI"),
    (8, "REQ_HANDLER_UPDATE"),
    (10, "REQ_HANDLER_UPDATE2"),
    (12, "REQ_HANDLER_UPDATE_ADMIN"),
    (13, "REQ_HANDLER_UPDATE_ADMIN_RESP"),
    (38, "REQ_HANDLER_RPC"),
    (40, "REQ_HANDLER_ADM"),
    (41, "REQ_HANDLER_ADM_RESP"),
    (42, "REQ_HANDLER_MSG_SERVER"),
    (43, "REQ_HANDLER_MSG_SERVER_RESP"),
    (44, "REQ_HANDLER_BTC"),
    (80, "REQ_HANDLER_SHUTDOWN"),
    (84, "REQ_HANDLER_PROCESS"),
    (86, "REQ_HANDLER_REGISTER_PROCESS"),
    (111, "REQ_HANDLER_AUTOJAVA_RESP"),
    (112, "REQ_HANDLER_VMC_RUNTIME"),
    (124, "REQ_HANDLER_SERVER_STARTUP"),
    (130, "REQ_HANDLER_SUSPEND_SERVER"),
    (132, "REQ_HANDLER_RESUME_SERVER")
  ]
  const DpReqHandlerValues: map<int, string> := TableOf(DpReqHandlerValuesEntries)

  /** `ms_domain_values_inv` (pysap/SAPMS.py:44): domain names to domain codes. */
  const MsDomainValuesInv: map<string, int> := InvertEntries(MsDomainValuesEntries)

  /** The domain inverse maps each domain name back to its code and has one entry per domain. */
  lemma DomainInverse()
    ensures MsDomainValuesInv == map["ABAP" := 0, "J2EE" := 1, "JSTARTUP" := 2]
    ensures forall k :: k in MsDomainValues ==>
      MsDomainValues[k] in MsDomainValuesInv && MsDomainValuesInv[MsDomainValues[k]] == k
    ensures |MsDomainValuesInv| == |MsDomainValues| == 3
  {
    var e := MsDomainValuesEntries;
    assert e[..0] == [] && e[..1] == [(0, "ABAP")] && e[..2] == [(0, "ABAP"), (1, "J2EE")];
    assert e[..1][..0] == e[..0] && e[..2][..1] == e[..1] && e[..|e| - 1] == e[..2];
    assert TableOf(e[..1]) == map[0 := "ABAP"];
    assert TableOf(e[..2]) == map[0 := "ABAP", 1 := "J2EE"];
    assert TableOf(e) == map[0 := "ABAP", 1 := "J2EE", 2 := "JSTARTUP"];
    assert InvertEntries(e[..1]) == map["ABAP" := 0];
    assert InvertEntries(e[..2]) == map["ABAP" := 0, "J2EE" := 1];
    assert InvertEntries(e) == map["ABAP" := 0, "J2EE" := 1, "JSTARTUP" := 2];
    InverseOfTable(e);
  }
}
