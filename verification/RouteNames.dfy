/**
 The names of the routes, which are a controller and a method. Each part carries
 a number computed from its text, as the words of the paths do.
 */
module RouteNames {
  datatype Numbered = Numbered(code: nat, text: string)

  const CODES := 0x800_0000

  /** Tells names apart by their first two characters, the last one, and their length. */
  function NameCode(s: string): nat {
    if |s| < 2 then |s| else ((s[0] as int * 128 + s[1] as int) * 128 + s[|s| - 1] as int) * 64 + |s|
  }

  predicate IsPart(s: string) {
    s != "" && forall k | 0 <= k < |s| :: s[k] != '#'
  }

  /** The number belongs to the text; phrased so that the solver looks at it only where it is used. */
  ghost predicate Correct(n: Numbered) {
    n.code < CODES && forall s | s == n.text :: NameCode(s) == n.code && IsPart(s)
  }

  type Part = n: Numbered | Correct(n) witness Numbered(1, "0")

  /** What a route is registered under; a postfix keeps some apart. */
  datatype Id =
    | Id(controller: Part, action: Part)
    | Postfixed(controller: Part, action: Part, postfix: string)

  function PostfixOf(id: Id): string {
    if id.Postfixed? then id.postfix else ""
  }

  /** Whole words first: the text before the `#`, then the text after it. */
  function IdCode(id: Id): nat {
    id.controller.code * CODES +
    match id
    case Id(_, action) => action.code
    case Postfixed(_, action, postfix) => NameCode(action.text + postfix)
  }

  function NameOf(id: Id): string {
    id.controller.text + "#" + id.action.text
  }

  /** Entries with different numbers are registered under different keys. */
  lemma IdsApart(a: Id, b: Id)
    requires IdCode(a) != IdCode(b)
    ensures NameOf(a) + PostfixOf(a) != NameOf(b) + PostfixOf(b)
  {
    var p, q := a.controller.text, b.controller.text;
    var s, t := a.action.text + PostfixOf(a), b.action.text + PostfixOf(b);
    assert NameOf(a) + PostfixOf(a) == p + "#" + s;
    assert NameOf(b) + PostfixOf(b) == q + "#" + t;
    assert NameCode(p) == a.controller.code && NameCode(q) == b.controller.code;
    assert IdCode(a) == a.controller.code * CODES + NameCode(s) by { JoinedCode(a); }
    assert IdCode(b) == b.controller.code * CODES + NameCode(t) by { JoinedCode(b); }
    SplitAtHash(p, s, q, t);
  }

  lemma JoinedCode(id: Id)
    ensures IdCode(id) == id.controller.code * CODES + NameCode(id.action.text + PostfixOf(id))
  {
    assert NameCode(id.action.text) == id.action.code;
    assert id.action.text + "" == id.action.text;
  }

  lemma SplitAtHash(p: string, s: string, q: string, t: string)
    requires IsPart(p) && IsPart(q)
    ensures p + "#" + s == q + "#" + t ==> p == q && s == t
  {
    var a, b := p + "#" + s, q + "#" + t;
    if a == b {
      assert a[|p|] == '#' && b[|q|] == '#';
      assert forall k | 0 <= k < |p| :: a[k] == p[k];
      assert forall k | 0 <= k < |q| :: b[k] == q[k];
      assert |p| == |q|;
      assert p == a[..|p|] && q == b[..|q|];
      assert s == a[|p| + 1..] && t == b[|q| + 1..];
    }
  }

  const C_ADMIN_APPLICATION: Part := Numbered(102538128, "adminApplication")
  const C_ADMIN_AREA_SETTINGS: Part := Numbered(102538449, "adminAreaSettings")
  const C_ADMIN_AUDIT: Part := Numbered(102538506, "adminAudit")
  const C_ADMIN_INDEX: Part := Numbered(102538762, "adminIndex")
  const C_ADMIN_PEOPLE: Part := Numbered(102537547, "adminPeople")
  const C_APPLICATION: Part := Numbered(102636427, "application")
  const C_APPLICATION_CERTIFICATE: Part := Numbered(102635862, "applicationCertificate")
  const C_APPLICATION_REQUEST_ADMIN: Part := Numbered(102636439, "applicationRequestAdmin")
  const C_APPLICATION_SECRET_REQUESTS: Part := Numbered(102636761, "applicationSecretRequests")
  const C_APPLICATION_SECRETS: Part := Numbered(102636754, "applicationSecrets")
  const C_APPLICATION_TOKEN: Part := Numbered(102636432, "applicationToken")
  const C_ATTACHMENT: Part := Numbered(102669578, "attachment")
  const C_AUDIT: Part := Numbered(102677765, "audit")
  const C_BACKUP_ADMIN: Part := Numbered(103562123, "backupAdmin")
  const C_BREACH_PROXY: Part := Numbered(103702091, "breachProxy")
  const C_CA_CERTIFICATE: Part := Numbered(104347981, "cACertificate")
  const C_CERTIFICATE: Part := Numbered(104642891, "certificate")
  const C_COMPLIANCE_REPORT: Part := Numbered(104725776, "complianceReport")
  const C_CXP_RELAY: Part := Numbered(104799816, "cxpRelay")
  const C_DASHBOARD: Part := Numbered(105658633, "dashboard")
  const C_DASHBOARD_SETTINGS: Part := Numbered(105659601, "dashboardSettings")
  const C_DELEGATION: Part := Numbered(105692042, "delegation")
  const C_DEVICE_APPROVAL: Part := Numbered(105691918, "deviceApproval")
  const C_DISCOVERY: Part := Numbered(105725513, "discovery")
  const C_EMERGENCY_ACCESS: Part := Numbered(106806479, "emergencyAccess")
  const C_ENCRYPTION_SUITE: Part := Numbered(106813775, "encryptionSuite")
  const C_EPHEMERAL_SEND: Part := Numbered(106830093, "ephemeralSend")
  const C_EPHEMERAL_SEND_ACCESS: Part := Numbered(106831059, "ephemeralSendAccess")
  const C_EXPORT: Part := Numbered(106896646, "export")
  const C_EXTENSION: Part := Numbered(106896265, "extension")
  const C_FEDERATED_INBOUND: Part := Numbered(107788560, "federatedInbound")
  const C_FEDERATED_SHARE: Part := Numbered(107788622, "federatedShare")
  const C_FEDERATION: Part := Numbered(107789194, "federation")
  const C_FEDERATION_PARTNER: Part := Numbered(107789457, "federationPartner")
  const C_FOLDER: Part := Numbered(107871366, "folder")
  const C_GDPR: Part := Numbered(108829828, "gdpr")
  const C_GROUP_SHARE: Part := Numbered(108943690, "groupShare")
  const C_HEALTH: Part := Numbered(109885958, "health")
  const C_HONEY: Part := Numbered(109968965, "honey")
  const C_IMPORT: Part := Numbered(111000838, "import")
  const C_KEY_GENERATOR: Part := Numbered(113032332, "keyGenerator")
  const C_LEASE_ADMIN: Part := Numbered(114080650, "leaseAdmin")
  const C_LINK_SHARE: Part := Numbered(114112841, "linkShare")
  const C_LINK_SHARE_ACCESS: Part := Numbered(114113743, "linkShareAccess")
  const C_MACHINE_LEASE: Part := Numbered(115095884, "machineLease")
  const C_MEMBER_OVERVIEW: Part := Numbered(115129806, "memberOverview")
  const C_METRICS: Part := Numbered(115129543, "metrics")
  const C_MIGRATION: Part := Numbered(115161993, "migration")
  const C_OFFLINE: Part := Numbered(117233991, "offline")
  const C_PASSKEY: Part := Numbered(118242887, "passkey")
  const C_PREFERENCES: Part := Numbered(118381771, "preferences")
  const C_PUBLIC_SHELL: Part := Numbered(118405899, "publicShell")
  const C_RECIPIENT_STATUS: Part := Numbered(120372431, "recipientStatus")
  const C_RECOVERY_ADMIN: Part := Numbered(120372109, "recoveryAdmin")
  const C_RECOVERY_OFFICER: Part := Numbered(120372367, "recoveryOfficer")
  const C_RECOVERY_USER: Part := Numbered(120372364, "recoveryUser")
  const C_ROTATION: Part := Numbered(120454024, "rotation")
  const C_SECRET: Part := Numbered(121421062, "secret")
  const C_SECRET_ORGANISATION: Part := Numbered(121420690, "secretOrganisation")
  const C_SECRET_REQUEST: Part := Numbered(121421069, "secretRequest")
  const C_SECRET_REQUEST_FILL: Part := Numbered(121420561, "secretRequestFill")
  const C_SECRET_TRASH: Part := Numbered(121420299, "secretTrash")
  const C_SECRET_TYPE: Part := Numbered(121420106, "secretType")
  const C_SECRET_UPDATE: Part := Numbered(121420108, "secretUpdate")
  const C_SECRET_VERSION: Part := Numbered(121420685, "secretVersion")
  const C_SERVICE_WORKER: Part := Numbered(121420941, "serviceWorker")
  const C_SETTINGS: Part := Numbered(121421000, "settings")
  const C_SHARE: Part := Numbered(121444677, "share")
  const C_SHARE_REQUEST: Part := Numbered(121445644, "shareRequest")
  const C_SIEM_SINK: Part := Numbered(121453256, "siemSink")
  const C_TEAM_FOLDER: Part := Numbered(122469514, "teamFolder")
  const C_TEAM_FOLDER_CONTRIBUTION: Part := Numbered(122469270, "teamFolderContribution")
  const C_TEAM_FOLDER_MEMBER: Part := Numbered(122469520, "teamFolderMember")
  const C_USE_ONLY: Part := Numbered(123633223, "useOnly")
  const C_WEB_MANIFEST: Part := Numbered(125615371, "webManifest")

  const M_ABORT: Part := Numbered(102522117, "abort")
  const M_ACCEPT: Part := Numbered(102530310, "accept")
  const M_ACCESS: Part := Numbered(102530246, "access")
  const M_ACKNOWLEDGE: Part := Numbered(102529355, "acknowledge")
  const M_ADD_GRANT: Part := Numbered(102538504, "addGrant")
  const M_ADD_MEMBER: Part := Numbered(102538377, "addMember")
  const M_ALERTS: Part := Numbered(102603974, "alerts")
  const M_APPROVE: Part := Numbered(102635847, "approve")
  const M_APPROVE_JOIN: Part := Numbered(102636427, "approveJoin")
  const M_APPROVE_NEW_MEMBER: Part := Numbered(102636688, "approveNewMember")
  const M_ARCHIVE: Part := Numbered(102652231, "archive")
  const M_BATCH_CREATE: Part := Numbered(103561547, "batchCreate")
  const M_BY_NAME: Part := Numbered(103758150, "byName")
  const M_CAPABILITIES: Part := Numbered(104611020, "capabilities")
  const M_CATCH_ALL: Part := Numbered(104610568, "catchAll")
  const M_CERTIFICATE: Part := Numbered(104642891, "certificate")
  const M_CHALLENGE: Part := Numbered(104667465, "challenge")
  const M_CHILDREN: Part := Numbered(104668040, "children")
  const M_COMPLETE: Part := Numbered(104724808, "complete")
  const M_COMPROMISE_RECOVERY: Part := Numbered(104726098, "compromiseRecovery")
  const M_CONFIRM: Part := Numbered(104725319, "confirm")
  const M_CONTRIBUTABLE: Part := Numbered(104724813, "contributable")
  const M_CONTRIBUTE: Part := Numbered(104724810, "contribute")
  const M_CONTRIBUTION_CONTEXT: Part := Numbered(104725779, "contributionContext")
  const M_CREATE: Part := Numbered(104749382, "create")
  const M_CREATE_BATCH: Part := Numbered(104749579, "createBatch")
  const M_CREATE_KEY: Part := Numbered(104750665, "createKey")
  const M_CREATE_REQUEST: Part := Numbered(104750349, "createRequest")
  const M_CREATE_SINK: Part := Numbered(104749770, "createSink")
  const M_DECLINE: Part := Numbered(105691463, "decline")
  const M_DELETE_ACCOUNT_DATA: Part := Numbered(105691217, "deleteAccountData")
  const M_DENY: Part := Numbered(105692740, "deny")
  const M_DENY_NEW_MEMBER: Part := Numbered(105692301, "denyNewMember")
  const M_DESTROY: Part := Numbered(105692743, "destroy")
  const M_DESTROY_POLICY: Part := Numbered(105692749, "destroyPolicy")
  const M_DESTROY_SINK: Part := Numbered(105691851, "destroySink")
  const M_DISMISS_FLAG: Part := Numbered(105724363, "dismissFlag")
  const M_DOCUMENT: Part := Numbered(105774344, "document")
  const M_DOWNLOAD: Part := Numbered(105773320, "download")
  const M_ENROL: Part := Numbered(106814213, "enrol")
  const M_ENROLLED: Part := Numbered(106813704, "enrolled")
  const M_ENROLMENT: Part := Numbered(106814729, "enrolment")
  const M_ENVELOPE: Part := Numbered(106813768, "envelope")
  const M_EVENTS: Part := Numbered(106880198, "events")
  const M_EXCHANGE: Part := Numbered(106895688, "exchange")
  const M_EXPORTED: Part := Numbered(106895624, "exported")
  const M_FAILURE: Part := Numbered(107755847, "failure")
  const M_FAVOURITE: Part := Numbered(107755849, "favourite")
  const M_FILL: Part := Numbered(107821828, "fill")
  const M_FLAG: Part := Numbered(107846084, "flag")
  const M_FLAG_BATCH: Part := Numbered(107846153, "flagBatch")
  const M_FLAGS: Part := Numbered(107846853, "flags")
  const M_FORCE_REVOKE: Part := Numbered(107870539, "forceRevoke")
  const M_GENERATE: Part := Numbered(108837192, "generate")
  const M_GENERATE_REPORT: Part := Numbered(108838158, "generateReport")
  const M_GET: Part := Numbered(108838147, "get")
  const M_GET_APPLICATION_SETTINGS: Part := Numbered(108838102, "getApplicationSettings")
  const M_GET_AUDIT_SETTINGS: Part := Numbered(108838096, "getAuditSettings")
  const M_GET_EXPIRY: Part := Numbered(108838473, "getExpiry")
  const M_GET_GENERAL_SETTINGS: Part := Numbered(108838098, "getGeneralSettings")
  const M_GET_LEASE_POLICY: Part := Numbered(108838478, "getLeasePolicy")
  const M_GET_POLICY: Part := Numbered(108838473, "getPolicy")
  const M_GET_POLICY_SETTINGS: Part := Numbered(108838097, "getPolicySettings")
  const M_GET_PREFERENCE: Part := Numbered(108837197, "getPreference")
  const M_GET_STATUS: Part := Numbered(108838089, "getStatus")
  const M_GET_USER_SETTINGS: Part := Numbered(108838095, "getUserSettings")
  const M_GET_WORK: Part := Numbered(108837575, "getWork")
  const M_GRANTEE_CERTIFICATE: Part := Numbered(108943698, "granteeCertificate")
  const M_HANDOFF: Part := Numbered(109853063, "handoff")
  const M_HANDOVER: Part := Numbered(109853832, "handover")
  const M_HEALTH: Part := Numbered(109885958, "health")
  const M_INCOMING: Part := Numbered(111008200, "incoming")
  const M_INDEX: Part := Numbered(111009285, "index")
  const M_INVENTORY: Part := Numbered(111009353, "inventory")
  const M_LEGACY_DOCUMENT: Part := Numbered(114081038, "legacyDocument")
  const M_LIST_BY_SECRET: Part := Numbered(114113804, "listBySecret")
  const M_LOGIN_OPTIONS: Part := Numbered(114162892, "loginOptions")
  const M_MANIFEST: Part := Numbered(115096840, "manifest")
  const M_MARK_ROTATED: Part := Numbered(115095819, "markRotated")
  const M_MATCH: Part := Numbered(115096069, "match")
  const M_MEMBERS: Part := Numbered(115129543, "members")
  const M_METADATA: Part := Numbered(115128392, "metadata")
  const M_METRICS: Part := Numbered(115129543, "metrics")
  const M_MINE: Part := Numbered(115161412, "mine")
  const M_MY_REQUEST: Part := Numbered(115293449, "myRequest")
  const M_OFFBOARD: Part := Numbered(117233928, "offboard")
  const M_OVERVIEW: Part := Numbered(117366216, "overview")
  const M_OWN_COPY: Part := Numbered(117374535, "ownCopy")
  const M_OWNERSHIP_FINDINGS: Part := Numbered(117374161, "ownershipFindings")
  const M_PAGE: Part := Numbered(118241604, "page")
  const M_PAGE_CATCH_ALL: Part := Numbered(118242060, "pageCatchAll")
  const M_PAIR: Part := Numbered(118242436, "pair")
  const M_PEEK: Part := Numbered(118274756, "peek")
  const M_PENDING: Part := Numbered(118274503, "pending")
  const M_PENDING_CONFIRMATIONS: Part := Numbered(118275284, "pendingConfirmations")
  const M_POLICIES: Part := Numbered(118357192, "policies")
  const M_POLICY: Part := Numbered(118357574, "policy")
  const M_POST_SEALED: Part := Numbered(118356234, "postSealed")
  const M_PREVIEW: Part := Numbered(118382023, "preview")
  const M_PROOF_CHALLENGE: Part := Numbered(118380878, "proofChallenge")
  const M_PURGE: Part := Numbered(118405445, "purge")
  const M_PUT: Part := Numbered(118406403, "put")
  const M_RANGE: Part := Numbered(120338757, "range")
  const M_RE_ENCRYPT_ATTACHMENT_GRANT: Part := Numbered(120372504, "reEncryptAttachmentGrant")
  const M_RE_ENCRYPT_SECRET: Part := Numbered(120372495, "reEncryptSecret")
  const M_RE_ENCRYPT_VERSION: Part := Numbered(120372112, "reEncryptVersion")
  const M_RE_ENVELOPE_EMERGENCY_CONTACT: Part := Numbered(120372506, "reEnvelopeEmergencyContact")
  const M_RECENT: Part := Numbered(120372486, "recent")
  const M_RECIPIENT_CERTIFICATE: Part := Numbered(120371540, "recipientCertificate")
  const M_RECIPIENT_CERTIFICATES: Part := Numbered(120372437, "recipientCertificates")
  const M_RECLAIM: Part := Numbered(120372039, "reclaim")
  const M_RECONCILE: Part := Numbered(120371529, "reconcile")
  const M_REENROL: Part := Numbered(120371975, "reenrol")
  const M_REGISTER_BATCH: Part := Numbered(120371725, "registerBatch")
  const M_REGISTER_SHARES: Part := Numbered(120372430, "registerShares")
  const M_REINSTATE: Part := Numbered(120371529, "reinstate")
  const M_REISSUE_SUITE: Part := Numbered(120371532, "reissueSuite")
  const M_REJECT: Part := Numbered(120372486, "reject")
  const M_REMOVE_MEMBER: Part := Numbered(120372364, "removeMember")
  const M_RENEW_INTERMEDIATE: Part := Numbered(120371537, "renewIntermediate")
  const M_RENEW_ROOT: Part := Numbered(120372489, "renewRoot")
  const M_RENEWAL_CHECKLIST: Part := Numbered(120372496, "renewalChecklist")
  const M_REPLACE_OWN_COPY: Part := Numbered(120372814, "replaceOwnCopy")
  const M_REPORTS: Part := Numbered(120372423, "reports")
  const M_REQUEST: Part := Numbered(120372487, "request")
  const M_RESTORE: Part := Numbered(120371527, "restore")
  const M_RETIRE_KEY: Part := Numbered(120372809, "retireKey")
  const M_RETRY_BOOTSTRAP: Part := Numbered(120372238, "retryBootstrap")
  const M_REVOKE: Part := Numbered(120371526, "revoke")
  const M_RUN: Part := Numbered(120503171, "run")
  const M_SCRIPT: Part := Numbered(121404678, "script")
  const M_SECRET: Part := Numbered(121421062, "secret")
  const M_SET_EXPIRY: Part := Numbered(121421385, "setExpiry")
  const M_SET_LEASE_POLICY: Part := Numbered(121421390, "setLeasePolicy")
  const M_SET_MEMBER_GRADE: Part := Numbered(121420110, "setMemberGrade")
  const M_SET_POLICY: Part := Numbered(121421385, "setPolicy")
  const M_SET_PREFERENCE: Part := Numbered(121420109, "setPreference")
  const M_SHOW: Part := Numbered(121445828, "show")
  const M_SHOW_REPORT: Part := Numbered(121445642, "showReport")
  const M_SINKS: Part := Numbered(121453765, "sinks")
  const M_SNOOZE: Part := Numbered(121493830, "snooze")
  const M_STATUS: Part := Numbered(121543878, "status")
  const M_SUBMIT_METADATA: Part := Numbered(121550926, "submitMetadata")
  const M_SUITES: Part := Numbered(121552070, "suites")
  const M_SUMMARY: Part := Numbered(121552455, "summary")
  const M_SUSPEND: Part := Numbered(121551111, "suspend")
  const M_SYNC: Part := Numbered(121583812, "sync")
  const M_TAG_INDEX: Part := Numbered(122437128, "tagIndex")
  const M_TAGS: Part := Numbered(122436804, "tags")
  const M_TEST: Part := Numbered(122469636, "test")
  const M_TRASH: Part := Numbered(122575365, "trash")
  const M_TWO_FACTOR_GAPS: Part := Numbered(122617037, "twoFactorGaps")
  const M_UNARCHIVE: Part := Numbered(123590985, "unarchive")
  const M_UNFLAG: Part := Numbered(123591110, "unflag")
  const M_UNPAIR: Part := Numbered(123591814, "unpair")
  const M_UPDATE: Part := Numbered(123607366, "update")
  const M_UPDATE_APPLICATION_SETTINGS: Part := Numbered(123608281, "updateApplicationSettings")
  const M_UPDATE_AUDIT_SETTINGS: Part := Numbered(123608275, "updateAuditSettings")
  const M_UPDATE_GENERAL_SETTINGS: Part := Numbered(123608277, "updateGeneralSettings")
  const M_UPDATE_POLICY_SETTINGS: Part := Numbered(123608276, "updatePolicySettings")
  const M_UPDATE_PRIVATE_KEY: Part := Numbered(123608656, "updatePrivateKey")
  const M_UPDATE_SINK: Part := Numbered(123607754, "updateSink")
  const M_UPDATE_USER_SETTINGS: Part := Numbered(123608274, "updateUserSettings")
  const M_UPSERT_POLICY: Part := Numbered(123608652, "upsertPolicy")
  const M_USED: Part := Numbered(123631876, "used")
  const M_WITHDRAW: Part := Numbered(125648328, "withdraw")
  const M_WRITE_CONTEXT: Part := Numbered(125721868, "writeContext")
}
