/**
 The entries of appinfo/routes.php. Each row starts with the line of the file it
 stands on and ends with its name. The rows are listed by verb, by number of
 segments and then by the words of the path, a few at a time; `Table` puts them
 back in the order of the file.
 */
module RouteTable {
  import opened FileOrder
  import opened RoutePatterns
  import opened RouteResolution
  import opened RouteWords
  import opened RouteNames
  import opened RouteRows

  const PATH_A: seq<Row> := [
    Row(548, GET, L(HEALTH, End), Id(C_HEALTH, M_INDEX)),
    Row(547, GET, L(METRICS, End), Id(C_METRICS, M_INDEX)),
    Row(540, GET, L(SETTINGS, End), Id(C_SETTINGS, M_INDEX)),
    Row(21, GET, L(DASHBOARD, L(SUMMARY, End)), Id(C_DASHBOARD, M_SUMMARY)),
    Row(544, GET, L(PREFERENCES, P("key", End)), Id(C_PREFERENCES, M_GET_PREFERENCE)),
    Row(42, GET, L(SETTINGS, L(POLICY, End)), Id(C_SETTINGS, M_GET_POLICY)),
    Row(40, GET, L(SETTINGS, L(USER, End)), Id(C_SETTINGS, M_GET_USER_SETTINGS))
  ]

  const PATH_B: seq<Row> := [
    Row(50, GET, L(V1, L(ADMIN, End)), Id(C_ADMIN_INDEX, M_INDEX)),
    Row(354, GET, L(V1, L(APPLICATIONS, End)), Id(C_APPLICATION, M_INDEX)),
    Row(499, GET, L(V1, L(AUDIT, End)), Id(C_AUDIT, M_INDEX)),
    Row(346, GET, L(V1, L(DASHBOARD_SETTINGS, End)), Id(C_DASHBOARD_SETTINGS, M_INDEX)),
    Row(444, GET, L(V1, L(EXPIRY_POLICIES, End)), Id(C_ROTATION, M_POLICIES)),
    Row(119, GET, L(V1, L(FOLDERS, End)), Id(C_FOLDER, M_INDEX)),
    Row(323, GET, L(V1, L(PASSKEYS, End)), Id(C_PASSKEY, M_INDEX))
  ]

  const PATH_C: seq<Row> := [
    Row(447, GET, L(V1, L(ROTATION_FLAGS, End)), Id(C_ROTATION, M_FLAGS)),
    Row(333, GET, L(V1, L(SENDS, End)), Id(C_EPHEMERAL_SEND, M_INDEX)),
    Row(129, GET, L(V1, L(SECRETS, End)), Id(C_SECRET, M_INDEX)),
    Row(113, GET, L(V1, L(SECRET_TYPES, End)), Id(C_SECRET_TYPE, M_INDEX)),
    Row(213, GET, L(V1, L(SECRET_REQUESTS, End)), Id(C_SECRET_REQUEST, M_INDEX)),
    Row(73, GET, L(V1, L(SUITES, End)), Id(C_ENCRYPTION_SUITE, M_INDEX)),
    Row(150, GET, L(V1, L(TAGS, End)), Id(C_SECRET_ORGANISATION, M_TAG_INDEX)),
    Row(468, GET, L(V1, L(TEAM_FOLDERS, End)), Id(C_TEAM_FOLDER, M_INDEX))
  ]

  const PATH_D: seq<Row> := [
    Row(29, GET, L(SETTINGS, L(ADMIN, L(APPLICATIONS, End))), Id(C_ADMIN_AREA_SETTINGS, M_GET_APPLICATION_SETTINGS)),
    Row(31, GET, L(SETTINGS, L(ADMIN, L(AUDIT, End))), Id(C_ADMIN_AREA_SETTINGS, M_GET_AUDIT_SETTINGS)),
    Row(37, GET, L(SETTINGS, L(ADMIN, L(BACKUPS, End))), Id(C_BACKUP_ADMIN, M_INDEX)),
    Row(25, GET, L(SETTINGS, L(ADMIN, L(GENERAL, End))), Id(C_ADMIN_AREA_SETTINGS, M_GET_GENERAL_SETTINGS)),
    Row(27, GET, L(SETTINGS, L(ADMIN, L(POLICIES, End))), Id(C_ADMIN_AREA_SETTINGS, M_GET_POLICY_SETTINGS)),
    Row(34, GET, L(SETTINGS, L(ADMIN, L(TWO_FACTOR_GAPS, End))), Id(C_SETTINGS, M_TWO_FACTOR_GAPS)),
    Row(55, GET, L(V1, L(ADMIN, L(APPLICATIONS, End))), Id(C_ADMIN_APPLICATION, M_INDEX))
  ]

  const PATH_E: seq<Row> := [
    Row(63, GET, L(V1, L(ADMIN, L(AUDIT, End))), Id(C_ADMIN_AUDIT, M_EVENTS)),
    Row(493, GET, L(V1, L(ADMIN, L(MEMBERS, End))), Id(C_MEMBER_OVERVIEW, M_INDEX)),
    Row(51, GET, L(V1, L(ADMIN, L(POLICIES, End))),
      Postfixed(C_ADMIN_AREA_SETTINGS, M_GET_POLICY_SETTINGS, "AdminApi")),
    Row(53, GET, L(V1, L(ADMIN, L(SUITES, End))), Id(C_ADMIN_PEOPLE, M_SUITES)),
    Row(410, GET, L(V1, L(APP, L(CERTIFICATE, End))), Id(C_APPLICATION_CERTIFICATE, M_SHOW)),
    Row(426, GET, L(V1, L(APP, L(LEASES, End))), Id(C_MACHINE_LEASE, M_INDEX)),
    Row(411, GET, L(V1, L(APP, L(SECRETS, End))), Id(C_APPLICATION_SECRETS, M_INDEX)),
    Row(423, GET, L(V1, L(APP, L(SECRET_REQUESTS, End))), Id(C_APPLICATION_SECRET_REQUESTS, M_INDEX))
  ]

  // A literal and its placeholder sibling: of the two only one is in `Listing(wild)`.

  const APPLICATION_LITERALS: seq<Row> := [
    Row(353, GET, L(V1, L(APPLICATIONS, L(PENDING, End))), Id(C_APPLICATION, M_PENDING))
  ]

  const APPLICATION_BY_ID: seq<Row> := [
    Row(367, GET, L(V1, L(APPLICATIONS, P("id", End))), Id(C_APPLICATION, M_SHOW))
  ]

  const PATH_F: seq<Row> := [
    Row(498, GET, L(V1, L(AUDIT, L(ME, End))), Id(C_AUDIT, M_MINE)),
    Row(271, GET, L(V1, L(CA, L(HEALTH, End))), Id(C_CA_CERTIFICATE, M_HEALTH)),
    Row(85, GET, L(V1, L(CA, L(STATUS, End))), Id(C_CA_CERTIFICATE, M_GET_STATUS)),
    Row(267, GET, L(V1, L(CERTIFICATES, L(INVENTORY, End))), Id(C_CERTIFICATE, M_INVENTORY)),
    Row(253, GET, L(V1, L(COMPLIANCE, L(METRICS, End))), Id(C_COMPLIANCE_REPORT, M_METRICS)),
    Row(251, GET, L(V1, L(COMPLIANCE, L(REPORTS, End))), Id(C_COMPLIANCE_REPORT, M_INDEX)),
    Row(347, GET, L(V1, L(DASHBOARD_SETTINGS, P("key", End))), Id(C_DASHBOARD_SETTINGS, M_SHOW)),
    Row(209, GET, L(V1, L(DELEGATIONS, L(CAPABILITIES, End))), Id(C_DELEGATION, M_CAPABILITIES))
  ]

  const DEVICE_APPROVAL_LITERALS: seq<Row> := [
    Row(307, GET, L(V1, L(DEVICE_APPROVALS, L(PENDING, End))), Id(C_DEVICE_APPROVAL, M_PENDING)),
    Row(306, GET, L(V1, L(DEVICE_APPROVALS, L(STATUS, End))), Id(C_DEVICE_APPROVAL, M_STATUS))
  ]

  const DEVICE_APPROVAL_BY_ID: seq<Row> := [
    Row(309, GET, L(V1, L(DEVICE_APPROVALS, P("id", End))), Id(C_DEVICE_APPROVAL, M_SHOW))
  ]

  const PATH_G: seq<Row> := [
    Row(162, GET, L(V1, L(EMERGENCY_ACCESS, L(CONTACTS, End))), Id(C_EMERGENCY_ACCESS, M_INDEX)),
    Row(164, GET, L(V1, L(EMERGENCY_ACCESS, L(GRANTEE_CERTIFICATE, End))),
      Id(C_EMERGENCY_ACCESS, M_GRANTEE_CERTIFICATE)),
    Row(163, GET, L(V1, L(EMERGENCY_ACCESS, L(INCOMING, End))), Id(C_EMERGENCY_ACCESS, M_INCOMING)),
    Row(529, GET, L(V1, L(EXTENSION, L(MATCH, End))), Id(C_EXTENSION, M_MATCH)),
    Row(531, GET, L(V1, L(EXTENSION, L(POLICY, End))), Id(C_EXTENSION, M_POLICY)),
    Row(396, GET, L(V1, L(FEDERATION, L(INCOMING, End))), Id(C_FEDERATED_INBOUND, M_INDEX)),
    Row(381, GET, L(V1, L(FEDERATION, L(PARTNERS, End))), Id(C_FEDERATION_PARTNER, M_INDEX)),
    Row(387, GET, L(V1, L(FEDERATION, L(STATUS, End))), Id(C_FEDERATION, M_STATUS))
  ]

  const PATH_H: seq<Row> := [
    Row(511, GET, L(V1, L(GDPR, L(METADATA, End))), Id(C_GDPR, M_METADATA)),
    Row(278, GET, L(V1, L(HONEY, L(ALERTS, End))), Id(C_HONEY, M_ALERTS)),
    Row(91, GET, L(V1, L(MIGRATIONS, L(STATUS, End))), Id(C_MIGRATION, M_GET_STATUS)),
    Row(284, GET, L(V1, L(OFFLINE, L(MANIFEST, End))), Id(C_OFFLINE, M_MANIFEST)),
    Row(324, GET, L(V1, L(PASSKEYS, L(CHALLENGE, End))), Id(C_PASSKEY, M_CHALLENGE)),
    Row(326, GET, L(V1, L(PASSKEYS, L(LOGIN_OPTIONS, End))), Id(C_PASSKEY, M_LOGIN_OPTIONS)),
    Row(286, GET, L(V1, L(RECOVERY, L(ADMIN, End))), Id(C_RECOVERY_ADMIN, M_SHOW)),
    Row(298, GET, L(V1, L(RECOVERY, L(ENROLMENT, End))), Id(C_RECOVERY_USER, M_ENROLMENT)),
    Row(290, GET, L(V1, L(RECOVERY, L(OFFICER, End))), Id(C_RECOVERY_OFFICER, M_OVERVIEW))
  ]

  const SECRET_LITERALS: seq<Row> := [
    Row(128, GET, L(V1, L(SECRETS, L(RECENT, End))), Id(C_AUDIT, M_RECENT))
  ]

  const SECRET_BY_ID: seq<Row> := [
    Row(137, GET, L(V1, L(SECRETS, P("id", End))), Id(C_SECRET, M_SHOW))
  ]

  const PATH_I: seq<Row> := [
    Row(177, GET, L(V1, L(SHARES, L(RECIPIENT_CERTIFICATE, End))), Id(C_SHARE, M_RECIPIENT_CERTIFICATE)),
    Row(258, GET, L(V1, L(SIEM, L(SINKS, End))), Id(C_SIEM_SINK, M_INDEX)),
    Row(74, GET, L(V1, L(SUITES, P("id", End))), Id(C_ENCRYPTION_SUITE, M_SHOW)),
    Row(472, GET, L(V1, L(TEAM_FOLDERS, L(CONTRIBUTABLE, End))), Id(C_TEAM_FOLDER_CONTRIBUTION, M_CONTRIBUTABLE)),
    Row(473, GET, L(V1, L(TEAM_FOLDERS, L(OWNERSHIP_FINDINGS, End))),
      Id(C_TEAM_FOLDER_CONTRIBUTION, M_OWNERSHIP_FINDINGS)),
    Row(475, GET, L(V1, L(TEAM_FOLDERS, L(PENDING_CONFIRMATIONS, End))), Id(C_TEAM_FOLDER, M_PENDING_CONFIRMATIONS)),
    Row(438, GET, L(V1, L(VERSIONS, P("id", End))), Id(C_SECRET_VERSION, M_SHOW)),
    Row(61, GET, L(V1, L(ADMIN, L(APPLICATIONS, P("id", End)))), Id(C_ADMIN_APPLICATION, M_SHOW))
  ]

  const PATH_J: seq<Row> := [
    Row(64, GET, L(V1, L(ADMIN, L(COMPLIANCE, L(REPORTS, End)))), Id(C_ADMIN_AUDIT, M_REPORTS)),
    Row(67, GET, L(V1, L(ADMIN, L(SIEM, L(SINKS, End)))), Id(C_ADMIN_AUDIT, M_SINKS)),
    Row(399, GET, L(V1, L(APP, L(WELL_KNOWN, L(DORIATH, End)))), Id(C_DISCOVERY, M_LEGACY_DOCUMENT)),
    Row(377, GET, L(V1, L(APP, L(WELL_KNOWN, L(KEEPIQ, End)))), Id(C_DISCOVERY, M_DOCUMENT)),
    Row(415, GET, L(V1, L(APP, L(SECRETS, P("id", End)))), Id(C_APPLICATION_SECRETS, M_SHOW)),
    Row(358, GET, L(V1, L(APPLICATIONS, P("id", L(CERTIFICATE, End)))), Id(C_APPLICATION, M_CERTIFICATE)),
    Row(429, GET, L(V1, L(APPLICATIONS, P("id", L(LEASES, End)))), Id(C_LEASE_ADMIN, M_INDEX)),
    Row(430, GET, L(V1, L(APPLICATIONS, P("id", L(LEASE_POLICY, End)))), Id(C_LEASE_ADMIN, M_GET_POLICY))
  ]

  const PATH_K: seq<Row> := [
    Row(364, GET, L(V1, L(APPLICATIONS, P("id", L(SECRET_REQUESTS, End)))), Id(C_APPLICATION_REQUEST_ADMIN, M_INDEX)),
    Row(457, GET, L(V1, L(ATTACHMENTS, P("id", L(BLOB, End)))), Id(C_ATTACHMENT, M_DOWNLOAD)),
    Row(497, GET, L(V1, L(AUDIT, L(SECRET, P("id", End)))), Id(C_AUDIT, M_SECRET)),
    Row(252, GET, L(V1, L(COMPLIANCE, L(REPORTS, P("id", End)))), Id(C_COMPLIANCE_REPORT, M_SHOW)),
    Row(121, GET, L(V1, L(FOLDERS, P("id", L(CHILDREN, End)))), Id(C_FOLDER, M_CHILDREN)),
    Row(100, GET, L(V1, L(MIGRATIONS, P("id", L(WORK, End)))), Id(C_MIGRATION, M_GET_WORK)),
    Row(158, GET, L(V1, L(PUBLIC, L(LINK_SHARES, P("token", End)))), Id(C_LINK_SHARE_ACCESS, M_SHOW)),
    Row(335, GET, L(V1, L(PUBLIC, L(SENDS, P("token", End)))), Id(C_EPHEMERAL_SEND_ACCESS, M_PEEK))
  ]

  const PATH_L: seq<Row> := [
    Row(342, GET, L(V1, L(PUBLIC, L(SECRET_REQUESTS, P("token", End)))), Id(C_SECRET_REQUEST_FILL, M_SHOW)),
    Row(289, GET, L(V1, L(RECOVERY, L(ADMIN, L(ENROLLED, End)))), Id(C_RECOVERY_ADMIN, M_ENROLLED)),
    Row(292, GET, L(V1, L(RECOVERY, L(OFFICER, L(COPY, End)))), Id(C_RECOVERY_OFFICER, M_OWN_COPY)),
    Row(301, GET, L(V1, L(RECOVERY, L(REQUESTS, L(MINE, End)))), Id(C_RECOVERY_USER, M_MY_REQUEST)),
    Row(456, GET, L(V1, L(SECRETS, P("secretId", L(ATTACHMENTS, End)))), Id(C_ATTACHMENT, M_INDEX)),
    Row(200, GET, L(V1, L(SECRETS, P("secretId", L(DELEGATIONS, End)))), Id(C_DELEGATION, M_INDEX)),
    Row(442, GET, L(V1, L(SECRETS, P("id", L(EXPIRY, End)))), Id(C_ROTATION, M_GET_EXPIRY)),
    Row(391, GET, L(V1, L(SECRETS, P("secretId", L(FEDERATED_SHARES, End)))), Id(C_FEDERATED_SHARE, M_INDEX))
  ]

  const PATH_M: seq<Row> := [
    Row(188, GET, L(V1, L(SECRETS, P("secretId", L(GROUP_SHARES, End)))), Id(C_GROUP_SHARE, M_INDEX)),
    Row(277, GET, L(V1, L(SECRETS, P("id", L(HONEY, End)))), Id(C_HONEY, M_STATUS)),
    Row(153, GET, L(V1, L(SECRETS, P("secretId", L(LINK_SHARES, End)))), Id(C_LINK_SHARE, M_INDEX)),
    Row(214, GET, L(V1, L(SECRETS, P("secretId", L(REQUESTS, End)))), Id(C_SECRET_REQUEST, M_LIST_BY_SECRET)),
    Row(172, GET, L(V1, L(SECRETS, P("secretId", L(SHARES, End)))), Id(C_SHARE, M_INDEX)),
    Row(437, GET, L(V1, L(SECRETS, P("secretId", L(VERSIONS, End)))), Id(C_SECRET_VERSION, M_INDEX)),
    Row(481, GET, L(V1, L(SECRETS, P("id", L(WRITE_CONTEXT, End)))), Id(C_SHARE, M_WRITE_CONTEXT)),
    Row(82, GET, L(V1, L(SUITES, P("id", L(PROOF_CHALLENGE, End)))), Id(C_ENCRYPTION_SUITE, M_PROOF_CHALLENGE))
  ]

  const PATH_N: seq<Row> := [
    Row(486, GET, L(V1, L(TEAM_FOLDERS, P("id", L(CONTRIBUTION_CONTEXT, End)))),
      Id(C_TEAM_FOLDER_CONTRIBUTION, M_CONTRIBUTION_CONTEXT)),
    Row(476, GET, L(V1, L(TEAM_FOLDERS, P("id", L(MEMBERS, End)))), Id(C_TEAM_FOLDER_MEMBER, M_MEMBERS)),
    Row(482, GET, L(V1, L(TEAM_FOLDERS, P("id", L(RECONCILE, End)))), Id(C_TEAM_FOLDER, M_RECONCILE)),
    Row(59, GET, L(V1, L(ADMIN, L(APPLICATIONS, P("id", L(LEASE_POLICY, End))))),
      Id(C_ADMIN_APPLICATION, M_GET_LEASE_POLICY)),
    Row(66, GET, L(V1, L(ADMIN, L(COMPLIANCE, L(REPORTS, P("id", End))))), Id(C_ADMIN_AUDIT, M_SHOW_REPORT)),
    DeepRow(413, GET, L(V1, L(APP, L(SECRETS, L(BY_NAME, P("name", End))))), Id(C_APPLICATION_SECRETS, M_BY_NAME)),
    Row(523, GET, L(V1, L(CXP, L(RELAY, P("pairingId", P("slot", End))))), Id(C_CXP_RELAY, M_GET)),
    Row(169, GET, L(V1, L(EMERGENCY_ACCESS, L(CONTACTS, P("id", L(ENVELOPE, End))))),
      Id(C_EMERGENCY_ACCESS, M_ENVELOPE)),
    Row(296, GET, L(V1, L(RECOVERY, L(REQUESTS, P("id", L(HANDOFF, End))))), Id(C_RECOVERY_OFFICER, M_HANDOFF))
  ]

  const PATH_O: seq<Row> := [
    Row(541, POST, L(SETTINGS, End), Id(C_SETTINGS, M_CREATE)),
    Row(355, POST, L(V1, L(APPLICATIONS, End)), Id(C_APPLICATION, M_CREATE)),
    Row(308, POST, L(V1, L(DEVICE_APPROVALS, End)), Id(C_DEVICE_APPROVAL, M_CREATE)),
    Row(445, POST, L(V1, L(EXPIRY_POLICIES, End)), Id(C_ROTATION, M_UPSERT_POLICY)),
    Row(120, POST, L(V1, L(FOLDERS, End)), Id(C_FOLDER, M_CREATE)),
    Row(110, POST, L(V1, L(GENERATE_KEY, End)), Id(C_KEY_GENERATOR, M_GENERATE)),
    Row(325, POST, L(V1, L(PASSKEYS, End)), Id(C_PASSKEY, M_CREATE)),
    Row(448, POST, L(V1, L(ROTATION_FLAGS, End)), Id(C_ROTATION, M_FLAG_BATCH)),
    Row(332, POST, L(V1, L(SENDS, End)), Id(C_EPHEMERAL_SEND, M_CREATE))
  ]

  const PATH_P: seq<Row> := [
    Row(130, POST, L(V1, L(SECRETS, End)), Id(C_SECRET, M_CREATE)),
    Row(114, POST, L(V1, L(SECRET_TYPES, End)), Id(C_SECRET_TYPE, M_CREATE)),
    Row(215, POST, L(V1, L(SECRET_REQUESTS, End)), Id(C_SECRET_REQUEST, M_CREATE)),
    Row(195, POST, L(V1, L(SHARE_REQUESTS, End)), Id(C_SHARE_REQUEST, M_CREATE)),
    Row(75, POST, L(V1, L(SUITES, End)), Id(C_ENCRYPTION_SUITE, M_CREATE)),
    Row(469, POST, L(V1, L(TEAM_FOLDERS, End)), Id(C_TEAM_FOLDER, M_CREATE)),
    Row(402, POST, L(V1, L(TOKEN, End)), Id(C_APPLICATION_TOKEN, M_EXCHANGE)),
    Row(56, POST, L(V1, L(ADMIN, L(APPLICATIONS, End))), Id(C_ADMIN_APPLICATION, M_CREATE)),
    Row(54, POST, L(V1, L(ADMIN, L(OFFBOARDING, End))), Id(C_ADMIN_PEOPLE, M_OFFBOARD))
  ]

  const PATH_Q: seq<Row> := [
    Row(412, POST, L(V1, L(APP, L(SECRETS, End))), Id(C_APPLICATION_SECRETS, M_CREATE)),
    Row(424, POST, L(V1, L(APP, L(SECRET_REQUESTS, End))), Id(C_APPLICATION_SECRET_REQUESTS, M_CREATE)),
    Row(505, POST, L(V1, L(BREACH_CHECK, L(RANGE, End))), Id(C_BREACH_PROXY, M_RANGE)),
    Row(86, POST, L(V1, L(CA, L(BOOTSTRAP_RETRY, End))), Id(C_CA_CERTIFICATE, M_RETRY_BOOTSTRAP)),
    Row(88, POST, L(V1, L(CA, L(RENEW_ROOT, End))), Id(C_CA_CERTIFICATE, M_RENEW_ROOT)),
    Row(87, POST, L(V1, L(CA, L(RENEW_INTERMEDIATE, End))), Id(C_CA_CERTIFICATE, M_RENEW_INTERMEDIATE)),
    Row(250, POST, L(V1, L(COMPLIANCE, L(REPORTS, End))), Id(C_COMPLIANCE_REPORT, M_GENERATE)),
    Row(522, POST, L(V1, L(CXP, L(RELAY, End))), Id(C_CXP_RELAY, M_PUT)),
    Row(165, POST, L(V1, L(EMERGENCY_ACCESS, L(CONTACTS, End))), Id(C_EMERGENCY_ACCESS, M_CREATE))
  ]

  const PATH_R: seq<Row> := [
    Row(517, POST, L(V1, L(EXPORT, L(EVENTS, End))), Id(C_EXPORT, M_EVENTS)),
    Row(527, POST, L(V1, L(EXTENSION, L(PAIR, End))), Id(C_EXTENSION, M_PAIR)),
    Row(528, POST, L(V1, L(EXTENSION, L(UNPAIR, End))), Id(C_EXTENSION, M_UNPAIR)),
    Row(383, POST, L(V1, L(FEDERATION, L(PARTNERS, End))), Id(C_FEDERATION_PARTNER, M_CREATE)),
    Row(386, POST, L(V1, L(FEDERATION, L(RECIPIENT_CERTIFICATE, End))), Id(C_FEDERATION, M_RECIPIENT_CERTIFICATE)),
    Row(302, POST, L(V1, L(RECOVERY, L(REQUESTS, End))), Id(C_RECOVERY_USER, M_CREATE_REQUEST)),
    Row(136, POST, L(V1, L(SECRETS, L(IMPORT_BATCH, End))), Id(C_IMPORT, M_BATCH_CREATE)),
    Row(176, POST, L(V1, L(SHARES, L(REGISTER_BATCH, End))), Id(C_SHARE, M_REGISTER_BATCH)),
    Row(178, POST, L(V1, L(SHARES, L(RECIPIENT_STATUS, End))), Id(C_RECIPIENT_STATUS, M_STATUS))
  ]

  const PATH_S: seq<Row> := [
    Row(181, POST, L(V1, L(SHARES, L(RECIPIENT_CERTIFICATES, End))), Id(C_SHARE, M_RECIPIENT_CERTIFICATES)),
    Row(196, POST, L(V1, L(SHARE_REQUESTS, L(APPROVE, End))), Id(C_SHARE_REQUEST, M_APPROVE)),
    Row(197, POST, L(V1, L(SHARE_REQUESTS, L(DENY, End))), Id(C_SHARE_REQUEST, M_DENY)),
    Row(259, POST, L(V1, L(SIEM, L(SINKS, End))), Id(C_SIEM_SINK, M_CREATE)),
    Row(81, POST, L(V1, L(SUITES, L(COMPROMISE_RECOVERY, End))), Id(C_ENCRYPTION_SUITE, M_COMPROMISE_RECOVERY)),
    Row(76, POST, L(V1, L(SUITES, L(REENROL, End))), Id(C_ENCRYPTION_SUITE, M_REENROL)),
    Row(470, POST, L(V1, L(TEAM_FOLDERS, L(OFFBOARD, End))), Id(C_TEAM_FOLDER, M_OFFBOARD)),
    Row(39, POST, L(SETTINGS, L(ADMIN, L(BACKUPS, L(RUN, End)))), Id(C_BACKUP_ADMIN, M_RUN)),
    Row(65, POST, L(V1, L(ADMIN, L(COMPLIANCE, L(REPORTS, End)))), Id(C_ADMIN_AUDIT, M_GENERATE_REPORT))
  ]

  const PATH_T: seq<Row> := [
    Row(68, POST, L(V1, L(ADMIN, L(SIEM, L(SINKS, End)))), Id(C_ADMIN_AUDIT, M_CREATE_SINK)),
    Row(356, POST, L(V1, L(APPLICATIONS, P("id", L(APPROVE, End)))), Id(C_APPLICATION, M_APPROVE)),
    Row(357, POST, L(V1, L(APPLICATIONS, P("id", L(REJECT, End)))), Id(C_APPLICATION, M_REJECT)),
    Row(458, POST, L(V1, L(ATTACHMENTS, P("id", L(GRANTS, End)))), Id(C_ATTACHMENT, M_ADD_GRANT)),
    Row(269, POST, L(V1, L(CERTIFICATES, P("secretId", L(RENEWAL_CHECKLIST, End)))),
      Id(C_CERTIFICATE, M_RENEWAL_CHECKLIST)),
    Row(310, POST, L(V1, L(DEVICE_APPROVALS, P("id", L(APPROVE, End)))), Id(C_DEVICE_APPROVAL, M_APPROVE)),
    Row(311, POST, L(V1, L(DEVICE_APPROVALS, P("id", L(DENY, End)))), Id(C_DEVICE_APPROVAL, M_DENY)),
    Row(533, POST, L(V1, L(EXTENSION, L(USED, P("id", End)))), Id(C_SECRET_ORGANISATION, M_USED)),
    Row(382, POST, L(V1, L(FEDERATION, L(PARTNERS, L(PREVIEW, End)))), Id(C_FEDERATION_PARTNER, M_PREVIEW))
  ]

  const PATH_U: seq<Row> := [
    Row(395, POST, L(V1, L(FEDERATED_SHARES, P("id", L(SUSPEND, End)))), Id(C_FEDERATED_SHARE, M_SUSPEND)),
    Row(191, POST, L(V1, L(GROUP_SHARES, P("id", L(APPROVE_NEW_MEMBER, End)))),
      Id(C_GROUP_SHARE, M_APPROVE_NEW_MEMBER)),
    Row(192, POST, L(V1, L(GROUP_SHARES, P("id", L(DENY_NEW_MEMBER, End)))), Id(C_GROUP_SHARE, M_DENY_NEW_MEMBER)),
    Row(93, POST, L(V1, L(MIGRATIONS, P("id", L(ABORT, End)))), Id(C_MIGRATION, M_ABORT)),
    Row(92, POST, L(V1, L(MIGRATIONS, P("id", L(COMPLETE, End)))), Id(C_MIGRATION, M_COMPLETE)),
    Row(327, POST, L(V1, L(PASSKEYS, P("id", L(USED, End)))), Id(C_PASSKEY, M_USED)),
    Row(291, POST, L(V1, L(RECOVERY, L(OFFICER, L(KEYS, End)))), Id(C_RECOVERY_OFFICER, M_CREATE_KEY)),
    Row(450, POST, L(V1, L(ROTATION_FLAGS, P("id", L(DISMISS, End)))), Id(C_ROTATION, M_DISMISS_FLAG)),
    Row(449, POST, L(V1, L(ROTATION_FLAGS, P("id", L(ROTATED, End)))), Id(C_ROTATION, M_MARK_ROTATED))
  ]

  const PATH_V: seq<Row> := [
    Row(143, POST, L(V1, L(SECRETS, P("id", L(ARCHIVE, End)))), Id(C_SECRET_TRASH, M_ARCHIVE)),
    Row(455, POST, L(V1, L(SECRETS, P("secretId", L(ATTACHMENTS, End)))), Id(C_ATTACHMENT, M_CREATE)),
    Row(201, POST, L(V1, L(SECRETS, P("secretId", L(DELEGATIONS, End)))), Id(C_DELEGATION, M_CREATE)),
    Row(392, POST, L(V1, L(SECRETS, P("secretId", L(FEDERATED_SHARES, End)))), Id(C_FEDERATED_SHARE, M_CREATE)),
    Row(189, POST, L(V1, L(SECRETS, P("secretId", L(GROUP_SHARES, End)))), Id(C_GROUP_SHARE, M_CREATE)),
    Row(275, POST, L(V1, L(SECRETS, P("id", L(HONEY, End)))), Id(C_HONEY, M_FLAG)),
    Row(154, POST, L(V1, L(SECRETS, P("secretId", L(LINK_SHARES, End)))), Id(C_LINK_SHARE, M_CREATE)),
    Row(141, POST, L(V1, L(SECRETS, P("id", L(RESTORE, End)))), Id(C_SECRET_TRASH, M_RESTORE)),
    Row(173, POST, L(V1, L(SECRETS, P("secretId", L(SHARES, End)))), Id(C_SHARE, M_CREATE))
  ]

  const PATH_W: seq<Row> := [
    Row(144, POST, L(V1, L(SECRETS, P("id", L(UNARCHIVE, End)))), Id(C_SECRET_TRASH, M_UNARCHIVE)),
    Row(149, POST, L(V1, L(SECRETS, P("id", L(USED, End)))), Id(C_USE_ONLY, M_USED)),
    Row(216, POST, L(V1, L(SECRET_REQUESTS, P("id", L(APPROVE, End)))), Id(C_SECRET_REQUEST, M_APPROVE)),
    Row(217, POST, L(V1, L(SECRET_REQUESTS, P("id", L(DECLINE, End)))), Id(C_SECRET_REQUEST, M_DECLINE)),
    Row(79, POST, L(V1, L(SUITES, P("id", L(FORCE_REVOKE, End)))), Id(C_ENCRYPTION_SUITE, M_FORCE_REVOKE)),
    Row(78, POST, L(V1, L(SUITES, P("id", L(REVOKE, End)))), Id(C_ENCRYPTION_SUITE, M_REVOKE)),
    Row(80, POST, L(V1, L(SUITES, P("id", L(REINSTATE, End)))), Id(C_ENCRYPTION_SUITE, M_REINSTATE)),
    Row(487, POST, L(V1, L(TEAM_FOLDERS, P("id", L(APPROVE_JOIN, End)))), Id(C_TEAM_FOLDER_MEMBER, M_APPROVE_JOIN)),
    Row(477, POST, L(V1, L(TEAM_FOLDERS, P("id", L(MEMBERS, End)))), Id(C_TEAM_FOLDER_MEMBER, M_ADD_MEMBER))
  ]

  const PATH_X: seq<Row> := [
    Row(485, POST, L(V1, L(TEAM_FOLDERS, P("id", L(SECRETS, End)))), Id(C_TEAM_FOLDER_CONTRIBUTION, M_CONTRIBUTE)),
    Row(483, POST, L(V1, L(TEAM_FOLDERS, P("id", L(SHARES, End)))), Id(C_TEAM_FOLDER, M_REGISTER_SHARES)),
    Row(439, POST, L(V1, L(VERSIONS, P("id", L(RESTORE, End)))), Id(C_SECRET_VERSION, M_RESTORE)),
    Row(57, POST, L(V1, L(ADMIN, L(APPLICATIONS, P("id", L(APPROVE, End))))), Id(C_ADMIN_APPLICATION, M_APPROVE)),
    Row(58, POST, L(V1, L(ADMIN, L(APPLICATIONS, P("id", L(REJECT, End))))), Id(C_ADMIN_APPLICATION, M_REJECT)),
    Row(427, POST, L(V1, L(APP, L(LEASES, P("id", L(REVOKE, End))))), Id(C_MACHINE_LEASE, M_REVOKE)),
    Row(270, POST, L(V1, L(CERTIFICATES, L(SUITES, P("suiteId", L(REISSUE, End))))),
      Id(C_CERTIFICATE, M_REISSUE_SUITE)),
    Row(254, POST, L(V1, L(COMPLIANCE, L(REPORTS, P("id", L(EXPORTED, End))))), Id(C_COMPLIANCE_REPORT, M_EXPORTED)),
    Row(168, POST, L(V1, L(EMERGENCY_ACCESS, L(CONTACTS, P("id", L(DECLINE, End))))),
      Id(C_EMERGENCY_ACCESS, M_DECLINE))
  ]

  const PATH_Y: seq<Row> := [
    Row(167, POST, L(V1, L(EMERGENCY_ACCESS, L(CONTACTS, P("id", L(REQUEST, End))))),
      Id(C_EMERGENCY_ACCESS, M_REQUEST)),
    Row(397, POST, L(V1, L(FEDERATION, L(INCOMING, P("id", L(ACCEPT, End))))), Id(C_FEDERATED_INBOUND, M_ACCEPT)),
    Row(398, POST, L(V1, L(FEDERATION, L(INCOMING, P("id", L(DECLINE, End))))), Id(C_FEDERATED_INBOUND, M_DECLINE)),
    Row(279, POST, L(V1, L(HONEY, L(ALERTS, P("id", L(ACKNOWLEDGE, End))))), Id(C_HONEY, M_ACKNOWLEDGE)),
    Row(280, POST, L(V1, L(HONEY, L(ALERTS, P("id", L(SNOOZE, End))))), Id(C_HONEY, M_SNOOZE)),
    Row(103, POST, L(V1, L(MIGRATIONS, P("id", L(ATTACHMENT_GRANTS, P("grantId", End))))),
      Id(C_MIGRATION, M_RE_ENCRYPT_ATTACHMENT_GRANT)),
    Row(107, POST, L(V1, L(MIGRATIONS, P("id", L(EMERGENCY_CONTACTS, P("contactId", End))))),
      Id(C_MIGRATION, M_RE_ENVELOPE_EMERGENCY_CONTACT)),
    Row(101, POST, L(V1, L(MIGRATIONS, P("id", L(SECRETS, P("secretId", End))))),
      Id(C_MIGRATION, M_RE_ENCRYPT_SECRET)),
    Row(102, POST, L(V1, L(MIGRATIONS, P("id", L(VERSIONS, P("versionId", End))))),
      Id(C_MIGRATION, M_RE_ENCRYPT_VERSION))
  ]

  const PATH_Z: seq<Row> := [
    Row(159, POST, L(V1, L(PUBLIC, L(LINK_SHARES, P("token", L(CONFIRM, End))))), Id(C_LINK_SHARE_ACCESS, M_CONFIRM)),
    Row(336, POST, L(V1, L(PUBLIC, L(SENDS, P("token", L(ACCESS, End))))), Id(C_EPHEMERAL_SEND_ACCESS, M_ACCESS)),
    Row(337, POST, L(V1, L(PUBLIC, L(SENDS, P("token", L(CONFIRM, End))))), Id(C_EPHEMERAL_SEND_ACCESS, M_CONFIRM)),
    Row(338, POST, L(V1, L(PUBLIC, L(SENDS, P("token", L(FAILURE, End))))), Id(C_EPHEMERAL_SEND_ACCESS, M_FAILURE)),
    Row(343, POST, L(V1, L(PUBLIC, L(SECRET_REQUESTS, P("token", L(FILL, End))))), Id(C_SECRET_REQUEST_FILL, M_FILL)),
    Row(294, POST, L(V1, L(RECOVERY, L(REQUESTS, P("id", L(APPROVE, End))))), Id(C_RECOVERY_OFFICER, M_APPROVE)),
    Row(303, POST, L(V1, L(RECOVERY, L(REQUESTS, P("id", L(COMPLETE, End))))), Id(C_RECOVERY_USER, M_COMPLETE)),
    Row(295, POST, L(V1, L(RECOVERY, L(REQUESTS, P("id", L(DECLINE, End))))), Id(C_RECOVERY_OFFICER, M_DECLINE)),
    Row(297, POST, L(V1, L(RECOVERY, L(REQUESTS, P("id", L(SEALED, End))))), Id(C_RECOVERY_OFFICER, M_POST_SEALED))
  ]

  const PATH_AA: seq<Row> := [
    Row(205, POST, L(V1, L(SECRETS, P("secretId", L(DELEGATIONS, L(HANDOVER, End))))), Id(C_DELEGATION, M_HANDOVER)),
    Row(210, POST, L(V1, L(SECRETS, P("secretId", L(DELEGATIONS, L(RECLAIM, End))))), Id(C_DELEGATION, M_RECLAIM)),
    Row(174, POST, L(V1, L(SECRETS, P("secretId", L(SHARES, L(BATCH, End))))), Id(C_SHARE, M_CREATE_BATCH)),
    Row(262, POST, L(V1, L(SIEM, L(SINKS, P("id", L(TEST, End))))), Id(C_SIEM_SINK, M_TEST)),
    Row(288, POST, L(V1, L(RECOVERY, L(ADMIN, L(KEYS, P("id", L(RETIRE, End)))))),
      Id(C_RECOVERY_ADMIN, M_RETIRE_KEY)),
    Row(542, PUT, L(SETTINGS, End), Id(C_SETTINGS, M_UPDATE)),
    Row(545, PUT, L(PREFERENCES, P("key", End)), Id(C_PREFERENCES, M_SET_PREFERENCE)),
    Row(43, PUT, L(SETTINGS, L(USER, End)), Id(C_SETTINGS, M_UPDATE_USER_SETTINGS)),
    Row(348, PUT, L(V1, L(DASHBOARD_SETTINGS, End)), Id(C_DASHBOARD_SETTINGS, M_UPDATE))
  ]

  const PATH_AB: seq<Row> := [
    Row(30, PUT, L(SETTINGS, L(ADMIN, L(APPLICATIONS, End))),
      Id(C_ADMIN_AREA_SETTINGS, M_UPDATE_APPLICATION_SETTINGS)),
    Row(32, PUT, L(SETTINGS, L(ADMIN, L(AUDIT, End))), Id(C_ADMIN_AREA_SETTINGS, M_UPDATE_AUDIT_SETTINGS)),
    Row(38, PUT, L(SETTINGS, L(ADMIN, L(BACKUPS, End))), Id(C_BACKUP_ADMIN, M_UPDATE)),
    Row(26, PUT, L(SETTINGS, L(ADMIN, L(GENERAL, End))), Id(C_ADMIN_AREA_SETTINGS, M_UPDATE_GENERAL_SETTINGS)),
    Row(28, PUT, L(SETTINGS, L(ADMIN, L(POLICIES, End))), Id(C_ADMIN_AREA_SETTINGS, M_UPDATE_POLICY_SETTINGS)),
    Row(52, PUT, L(V1, L(ADMIN, L(POLICIES, End))),
      Postfixed(C_ADMIN_AREA_SETTINGS, M_UPDATE_POLICY_SETTINGS, "AdminApi")),
    Row(393, PUT, L(V1, L(FEDERATED_SHARES, P("id", End))), Id(C_FEDERATED_SHARE, M_UPDATE)),
    Row(122, PUT, L(V1, L(FOLDERS, P("id", End))), Id(C_FOLDER, M_UPDATE)),
    Row(287, PUT, L(V1, L(RECOVERY, L(ADMIN, End))), Id(C_RECOVERY_ADMIN, M_UPDATE))
  ]

  const PATH_AC: seq<Row> := [
    Row(299, PUT, L(V1, L(RECOVERY, L(ENROLMENT, End))), Id(C_RECOVERY_USER, M_ENROL)),
    Row(138, PUT, L(V1, L(SECRETS, P("id", End))), Id(C_SECRET_UPDATE, M_UPDATE)),
    Row(115, PUT, L(V1, L(SECRET_TYPES, P("id", End))), Id(C_SECRET_TYPE, M_UPDATE)),
    Row(416, PUT, L(V1, L(APP, L(SECRETS, P("id", End)))), Id(C_APPLICATION_SECRETS, M_UPDATE)),
    Row(431, PUT, L(V1, L(APPLICATIONS, P("id", L(LEASE_POLICY, End)))), Id(C_LEASE_ADMIN, M_SET_POLICY)),
    Row(268, PUT, L(V1, L(CERTIFICATES, P("secretId", L(METADATA, End)))), Id(C_CERTIFICATE, M_SUBMIT_METADATA)),
    Row(384, PUT, L(V1, L(FEDERATION, L(PARTNERS, P("id", End)))), Id(C_FEDERATION_PARTNER, M_UPDATE)),
    Row(443, PUT, L(V1, L(SECRETS, P("id", L(EXPIRY, End)))), Id(C_ROTATION, M_SET_EXPIRY)),
    Row(146, PUT, L(V1, L(SECRETS, P("id", L(FAVOURITE, End)))), Id(C_SECRET_ORGANISATION, M_FAVOURITE))
  ]

  const PATH_AD: seq<Row> := [
    Row(182, PUT, L(V1, L(SECRETS, P("secretId", L(SYNC, End)))), Id(C_SHARE, M_SYNC)),
    Row(147, PUT, L(V1, L(SECRETS, P("id", L(TAGS, End)))), Id(C_SECRET_ORGANISATION, M_TAGS)),
    Row(260, PUT, L(V1, L(SIEM, L(SINKS, P("id", End)))), Id(C_SIEM_SINK, M_UPDATE)),
    Row(77, PUT, L(V1, L(SUITES, P("id", L(PRIVATE_KEY, End)))), Id(C_ENCRYPTION_SUITE, M_UPDATE_PRIVATE_KEY)),
    Row(60, PUT, L(V1, L(ADMIN, L(APPLICATIONS, P("id", L(LEASE_POLICY, End))))),
      Id(C_ADMIN_APPLICATION, M_SET_LEASE_POLICY)),
    Row(69, PUT, L(V1, L(ADMIN, L(SIEM, L(SINKS, P("id", End))))), Id(C_ADMIN_AUDIT, M_UPDATE_SINK)),
    Row(293, PUT, L(V1, L(RECOVERY, L(OFFICER, L(KEYS, P("keyId", L(COPY, End)))))),
      Id(C_RECOVERY_OFFICER, M_REPLACE_OWN_COPY)),
    Row(349, DELETE, L(V1, L(DASHBOARD_SETTINGS, End)), Id(C_DASHBOARD_SETTINGS, M_DESTROY)),
    Row(368, DELETE, L(V1, L(APPLICATIONS, P("id", End))), Id(C_APPLICATION, M_DESTROY))
  ]

  const PATH_AE: seq<Row> := [
    Row(459, DELETE, L(V1, L(ATTACHMENTS, P("id", End))), Id(C_ATTACHMENT, M_DESTROY)),
    Row(446, DELETE, L(V1, L(EXPIRY_POLICIES, P("id", End))), Id(C_ROTATION, M_DESTROY_POLICY)),
    Row(394, DELETE, L(V1, L(FEDERATED_SHARES, P("id", End))), Id(C_FEDERATED_SHARE, M_DESTROY)),
    Row(123, DELETE, L(V1, L(FOLDERS, P("id", End))), Id(C_FOLDER, M_DESTROY)),
    Row(512, DELETE, L(V1, L(GDPR, L(ACCOUNT_DATA, End))), Id(C_GDPR, M_DELETE_ACCOUNT_DATA)),
    Row(190, DELETE, L(V1, L(GROUP_SHARES, P("id", End))), Id(C_GROUP_SHARE, M_DESTROY)),
    Row(432, DELETE, L(V1, L(LEASES, P("leaseId", End))), Id(C_LEASE_ADMIN, M_REVOKE)),
    Row(155, DELETE, L(V1, L(LINK_SHARES, P("id", End))), Id(C_LINK_SHARE, M_DESTROY)),
    Row(328, DELETE, L(V1, L(PASSKEYS, P("id", End))), Id(C_PASSKEY, M_DESTROY))
  ]

  const PATH_AF: seq<Row> := [
    Row(300, DELETE, L(V1, L(RECOVERY, L(ENROLMENT, End))), Id(C_RECOVERY_USER, M_WITHDRAW)),
    Row(334, DELETE, L(V1, L(SENDS, P("id", End))), Id(C_EPHEMERAL_SEND, M_DESTROY)),
    Row(140, DELETE, L(V1, L(SECRETS, P("id", End))), Id(C_SECRET_TRASH, M_TRASH)),
    Row(116, DELETE, L(V1, L(SECRET_TYPES, P("id", End))), Id(C_SECRET_TYPE, M_DESTROY)),
    Row(218, DELETE, L(V1, L(SECRET_REQUESTS, P("id", End))), Id(C_SECRET_REQUEST, M_DESTROY)),
    Row(183, DELETE, L(V1, L(SHARES, P("id", End))), Id(C_SHARE, M_DESTROY)),
    Row(488, DELETE, L(V1, L(TEAM_FOLDERS, P("id", End))), Id(C_TEAM_FOLDER, M_DESTROY)),
    Row(62, DELETE, L(V1, L(ADMIN, L(APPLICATIONS, P("id", End)))), Id(C_ADMIN_APPLICATION, M_DESTROY)),
    Row(166, DELETE, L(V1, L(EMERGENCY_ACCESS, L(CONTACTS, P("id", End)))), Id(C_EMERGENCY_ACCESS, M_DESTROY))
  ]

  const PATH_AG: seq<Row> := [
    Row(385, DELETE, L(V1, L(FEDERATION, L(PARTNERS, P("id", End)))), Id(C_FEDERATION_PARTNER, M_DESTROY)),
    Row(276, DELETE, L(V1, L(SECRETS, P("id", L(HONEY, End)))), Id(C_HONEY, M_UNFLAG)),
    Row(142, DELETE, L(V1, L(SECRETS, P("id", L(PURGE, End)))), Id(C_SECRET_TRASH, M_PURGE)),
    Row(261, DELETE, L(V1, L(SIEM, L(SINKS, P("id", End)))), Id(C_SIEM_SINK, M_DESTROY)),
    Row(70, DELETE, L(V1, L(ADMIN, L(SIEM, L(SINKS, P("id", End))))), Id(C_ADMIN_AUDIT, M_DESTROY_SINK)),
    Row(365, DELETE, L(V1, L(APPLICATIONS, P("id", L(SECRET_REQUESTS, P("requestId", End))))),
      Id(C_APPLICATION_REQUEST_ADMIN, M_DESTROY)),
    Row(478, DELETE, L(V1, L(TEAM_FOLDERS, P("id", L(MEMBERS, P("memberId", End))))),
      Id(C_TEAM_FOLDER_MEMBER, M_REMOVE_MEMBER)),
    Row(185, PATCH, L(V1, L(SHARES, P("id", End))), Id(C_SHARE, M_UPDATE)),
    Row(480, PATCH, L(V1, L(TEAM_FOLDERS, P("id", L(MEMBERS, P("memberId", End))))),
      Id(C_TEAM_FOLDER_MEMBER, M_SET_MEMBER_GRADE))
  ]

  function GetsOne(): seq<Row> {
    PATH_A + PATH_B + PATH_C + PATH_D + PATH_E
  }

  function GetsTwo(): seq<Row> {
    PATH_F
  }

  function GetsThree(): seq<Row> {
    PATH_G + PATH_H
  }

  function GetsFour(): seq<Row> {
    PATH_I + PATH_J + PATH_K + PATH_L + PATH_M + PATH_N
  }

  function OthersOne(): seq<Row> {
    PATH_O + PATH_P + PATH_Q + PATH_R + PATH_S + PATH_T
  }

  function OthersTwo(): seq<Row> {
    PATH_U + PATH_V + PATH_W + PATH_X + PATH_Y + PATH_Z
  }

  function OthersThree(): seq<Row> {
    PATH_AA + PATH_AB + PATH_AC + PATH_AD + PATH_AE + PATH_AF + PATH_AG
  }

  /** The GET rows, with one side of each pair of siblings. */
  function Gets(wild: bool): seq<Row> {
    GetsOne() + (if wild then APPLICATION_BY_ID else APPLICATION_LITERALS)
    + GetsTwo() + (if wild then DEVICE_APPROVAL_BY_ID else DEVICE_APPROVAL_LITERALS)
    + GetsThree() + (if wild then SECRET_BY_ID else SECRET_LITERALS)
    + GetsFour()
  }

  function Others(): seq<Row> {
    OthersOne() + OthersTwo() + OthersThree()
  }

  /** Every row under /api/ but for the other side of each pair of siblings. */
  function Listing(wild: bool): seq<Row> {
    Gets(wild) + Others()
  }

  function Wildcards(): seq<Row> {
    APPLICATION_BY_ID + DEVICE_APPROVAL_BY_ID + SECRET_BY_ID
  }

  // ---- The entries outside /api/ ----

  const SHELL_PAGE: Route := Route(223, Id(C_PUBLIC_SHELL, M_PAGE), GET, Template([Lit("public")], NoTail))
  const SHELL_CATCH_ALL: Route :=
    Route(245, Id(C_PUBLIC_SHELL, M_PAGE_CATCH_ALL), GET, Template([Lit("public")], Rest("path")))
  const SERVICE_WORKER: Route :=
    Route(315, Id(C_SERVICE_WORKER, M_SCRIPT), GET, Template([Lit("serviceworker.js")], NoTail))
  const WEB_MANIFEST: Route :=
    Route(319, Id(C_WEB_MANIFEST, M_MANIFEST), GET, Template([Lit("manifest.webmanifest")], NoTail))
  const HOME_PAGE: Route := Route(539, Id(C_DASHBOARD, M_PAGE), GET, Template([Lit("")], NoTail))
  const PAGES: seq<Route> := [SHELL_PAGE, SHELL_CATCH_ALL, SERVICE_WORKER, WEB_MANIFEST, HOME_PAGE]

  /** The single-page-application fallback. */
  const CATCH_ALL: Route := Route(553, Id(C_DASHBOARD, M_CATCH_ALL), GET, Template([], RestExcept("path", "api")))

  // ---- The table ----

  /** Every row under /api/. */
  function Rows(): seq<Row> {
    Listing(false) + Wildcards()
  }

  /** Every entry but the fallback, not yet in order. */
  function Entries(): seq<Route> {
    PAGES + Routes(Rows())
  }

  function Shell(): seq<Route> {
    ByLine(Only(Entries(), true))
  }

  function Extra(): seq<Route> {
    ByLine(Only(Entries(), false))
  }

  /** The merged table: the shell block, the domain routes, the fallback. */
  function Table(): seq<Route> {
    Shell() + Extra() + [CATCH_ALL]
  }
}
