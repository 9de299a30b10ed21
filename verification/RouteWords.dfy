/**
 The literal path segments of the route table. Each carries a number computed
 from its text, so that two segments can be told apart by comparing numbers.
 */
module RouteWords {
  datatype Coded = Coded(code: nat, text: string)

  /** Orders words by their first two characters and their length. */
  function Code(s: string): nat {
    if |s| < 2 then |s| else (s[0] as int * 128 + s[1] as int) * 64 + |s|
  }

  predicate IsSegment(s: string) {
    s != "" && forall k | 0 <= k < |s| :: s[k] != '/' && s[k] != '\n'
  }

  /** The number belongs to the text; phrased so that the solver looks at it only where it is used. */
  ghost predicate Proper(w: Coded) {
    forall s | s == w.text :: Code(s) == w.code && IsSegment(s)
  }

  type Word = w: Coded | Proper(w) witness Coded(1, "0")

  const WELL_KNOWN: Word := Coded(384459, ".well-known")
  const ABORT: Word := Coded(800901, "abort")
  const ACCEPT: Word := Coded(800966, "accept")
  const ACCESS: Word := Coded(800966, "access")
  const ACKNOWLEDGE: Word := Coded(800971, "acknowledge")
  const ACCOUNT_DATA: Word := Coded(800972, "account-data")
  const ADMIN: Word := Coded(801029, "admin")
  const ALERTS: Word := Coded(801542, "alerts")
  const APP: Word := Coded(801795, "app")
  const APPROVE: Word := Coded(801799, "approve")
  const APPLICATIONS: Word := Coded(801804, "applications")
  const APPROVE_JOIN: Word := Coded(801804, "approve-join")
  const APPROVE_NEW_MEMBER: Word := Coded(801810, "approve-new-member")
  const ARCHIVE: Word := Coded(801927, "archive")
  const ATTACHMENTS: Word := Coded(802059, "attachments")
  const ATTACHMENT_GRANTS: Word := Coded(802065, "attachment-grants")
  const AUDIT: Word := Coded(802117, "audit")
  const BATCH: Word := Coded(809029, "batch")
  const BACKUPS: Word := Coded(809031, "backups")
  const BLOB: Word := Coded(809732, "blob")
  const BOOTSTRAP_RETRY: Word := Coded(809935, "bootstrap-retry")
  const BREACH_CHECK: Word := Coded(810124, "breach-check")
  const BY_NAME: Word := Coded(810567, "by-name")
  const CA: Word := Coded(817218, "ca")
  const CAPABILITIES: Word := Coded(817228, "capabilities")
  const CERTIFICATE: Word := Coded(817483, "certificate")
  const CERTIFICATES: Word := Coded(817484, "certificates")
  const CHILDREN: Word := Coded(817672, "children")
  const CHALLENGE: Word := Coded(817673, "challenge")
  const COPY: Word := Coded(818116, "copy")
  const CONFIRM: Word := Coded(818119, "confirm")
  const COMPLETE: Word := Coded(818120, "complete")
  const CONTACTS: Word := Coded(818120, "contacts")
  const COMPLIANCE: Word := Coded(818122, "compliance")
  const CONTRIBUTABLE: Word := Coded(818125, "contributable")
  const COMPROMISE_RECOVERY: Word := Coded(818131, "compromise-recovery")
  const CONTRIBUTION_CONTEXT: Word := Coded(818132, "contribution-context")
  const CXP: Word := Coded(818691, "cxp")
  const DASHBOARD: Word := Coded(825417, "dashboard")
  const DASHBOARD_SETTINGS: Word := Coded(825426, "dashboard-settings")
  const DENY: Word := Coded(825668, "deny")
  const DECLINE: Word := Coded(825671, "decline")
  const DELEGATIONS: Word := Coded(825675, "delegations")
  const DENY_NEW_MEMBER: Word := Coded(825679, "deny-new-member")
  const DEVICE_APPROVALS: Word := Coded(825680, "device-approvals")
  const DISMISS: Word := Coded(825927, "dismiss")
  const DORIATH: Word := Coded(826311, "doriath")
  const EMERGENCY_ACCESS: Word := Coded(834384, "emergency-access")
  const EMERGENCY_CONTACTS: Word := Coded(834386, "emergency-contacts")
  const ENROLLED: Word := Coded(834440, "enrolled")
  const ENVELOPE: Word := Coded(834440, "envelope")
  const ENROLMENT: Word := Coded(834441, "enrolment")
  const EVENTS: Word := Coded(834950, "events")
  const EXPIRY: Word := Coded(835078, "expiry")
  const EXPORT: Word := Coded(835078, "export")
  const EXPORTED: Word := Coded(835080, "exported")
  const EXTENSION: Word := Coded(835081, "extension")
  const EXPIRY_POLICIES: Word := Coded(835087, "expiry-policies")
  const FAILURE: Word := Coded(841799, "failure")
  const FAVOURITE: Word := Coded(841801, "favourite")
  const FEDERATION: Word := Coded(842058, "federation")
  const FEDERATED_SHARES: Word := Coded(842064, "federated-shares")
  const FILL: Word := Coded(842308, "fill")
  const FOLDERS: Word := Coded(842695, "folders")
  const FORCE_REVOKE: Word := Coded(842700, "force-revoke")
  const GDPR: Word := Coded(850180, "gdpr")
  const GENERAL: Word := Coded(850247, "general")
  const GENERATE_KEY: Word := Coded(850252, "generate-key")
  const GRANTS: Word := Coded(851078, "grants")
  const GROUP_SHARES: Word := Coded(851084, "group-shares")
  const GRANTEE_CERTIFICATE: Word := Coded(851091, "grantee-certificate")
  const HANDOFF: Word := Coded(858183, "handoff")
  const HANDOVER: Word := Coded(858184, "handover")
  const HEALTH: Word := Coded(858438, "health")
  const HONEY: Word := Coded(859077, "honey")
  const IMPORT_BATCH: Word := Coded(867148, "import-batch")
  const INCOMING: Word := Coded(867208, "incoming")
  const INVENTORY: Word := Coded(867209, "inventory")
  const KEYS: Word := Coded(883012, "keys")
  const KEEPIQ: Word := Coded(883014, "keepiq")
  const LEASES: Word := Coded(891206, "leases")
  const LEASE_POLICY: Word := Coded(891212, "lease-policy")
  const LINK_SHARES: Word := Coded(891467, "link-shares")
  const LOGIN_OPTIONS: Word := Coded(891853, "login-options")
  const MATCH: Word := Coded(899141, "match")
  const MANIFEST: Word := Coded(899144, "manifest")
  const ME: Word := Coded(899394, "me")
  const MEMBERS: Word := Coded(899399, "members")
  const METRICS: Word := Coded(899399, "metrics")
  const METADATA: Word := Coded(899400, "metadata")
  const MINE: Word := Coded(899652, "mine")
  const MIGRATIONS: Word := Coded(899658, "migrations")
  const OFFICER: Word := Coded(915847, "officer")
  const OFFLINE: Word := Coded(915847, "offline")
  const OFFBOARD: Word := Coded(915848, "offboard")
  const OFFBOARDING: Word := Coded(915851, "offboarding")
  const OWNERSHIP_FINDINGS: Word := Coded(916946, "ownership-findings")
  const PAIR: Word := Coded(923716, "pair")
  const PARTNERS: Word := Coded(923720, "partners")
  const PASSKEYS: Word := Coded(923720, "passkeys")
  const PENDING: Word := Coded(923975, "pending")
  const PENDING_CONFIRMATIONS: Word := Coded(923989, "pending-confirmations")
  const POLICY: Word := Coded(924614, "policy")
  const POLICIES: Word := Coded(924616, "policies")
  const PREVIEW: Word := Coded(924807, "preview")
  const PREFERENCES: Word := Coded(924811, "preferences")
  const PRIVATE_KEY: Word := Coded(924811, "private-key")
  const PROOF_CHALLENGE: Word := Coded(924815, "proof-challenge")
  const PURGE: Word := Coded(924997, "purge")
  const PUBLIC: Word := Coded(924998, "public")
  const RANGE: Word := Coded(940101, "range")
  const RELAY: Word := Coded(940357, "relay")
  const RECENT: Word := Coded(940358, "recent")
  const REJECT: Word := Coded(940358, "reject")
  const RETIRE: Word := Coded(940358, "retire")
  const REVOKE: Word := Coded(940358, "revoke")
  const RECLAIM: Word := Coded(940359, "reclaim")
  const REENROL: Word := Coded(940359, "reenrol")
  const REISSUE: Word := Coded(940359, "reissue")
  const REPORTS: Word := Coded(940359, "reports")
  const REQUEST: Word := Coded(940359, "request")
  const RESTORE: Word := Coded(940359, "restore")
  const RECOVERY: Word := Coded(940360, "recovery")
  const REQUESTS: Word := Coded(940360, "requests")
  const RECONCILE: Word := Coded(940361, "reconcile")
  const REINSTATE: Word := Coded(940361, "reinstate")
  const RENEW_ROOT: Word := Coded(940362, "renew-root")
  const REGISTER_BATCH: Word := Coded(940366, "register-batch")
  const RECIPIENT_STATUS: Word := Coded(940368, "recipient-status")
  const RENEWAL_CHECKLIST: Word := Coded(940369, "renewal-checklist")
  const RENEW_INTERMEDIATE: Word := Coded(940370, "renew-intermediate")
  const RECIPIENT_CERTIFICATE: Word := Coded(940373, "recipient-certificate")
  const RECIPIENT_CERTIFICATES: Word := Coded(940374, "recipient-certificates")
  const ROTATED: Word := Coded(940999, "rotated")
  const ROTATION_FLAGS: Word := Coded(941006, "rotation-flags")
  const RUN: Word := Coded(941379, "run")
  const SENDS: Word := Coded(948549, "sends")
  const SEALED: Word := Coded(948550, "sealed")
  const SECRET: Word := Coded(948550, "secret")
  const SECRETS: Word := Coded(948551, "secrets")
  const SETTINGS: Word := Coded(948552, "settings")
  const SECRET_TYPES: Word := Coded(948556, "secret-types")
  const SECRET_REQUESTS: Word := Coded(948559, "secret-requests")
  const SHARES: Word := Coded(948742, "shares")
  const SHARE_REQUESTS: Word := Coded(948750, "share-requests")
  const SIEM: Word := Coded(948804, "siem")
  const SINKS: Word := Coded(948805, "sinks")
  const SNOOZE: Word := Coded(949126, "snooze")
  const STATUS: Word := Coded(949510, "status")
  const SUITES: Word := Coded(949574, "suites")
  const SUMMARY: Word := Coded(949575, "summary")
  const SUSPEND: Word := Coded(949575, "suspend")
  const SYNC: Word := Coded(949828, "sync")
  const TAGS: Word := Coded(956484, "tags")
  const TEST: Word := Coded(956740, "test")
  const TEAM_FOLDERS: Word := Coded(956748, "team-folders")
  const TOKEN: Word := Coded(957381, "token")
  const TWO_FACTOR_GAPS: Word := Coded(957903, "two-factor-gaps")
  const UNPAIR: Word := Coded(965510, "unpair")
  const UNARCHIVE: Word := Coded(965513, "unarchive")
  const USED: Word := Coded(965828, "used")
  const USER: Word := Coded(965828, "user")
  const V1: Word := Coded(969794, "v1")
  const VERSIONS: Word := Coded(973128, "versions")
  const WORK: Word := Coded(981956, "work")
  const WRITE_CONTEXT: Word := Coded(982157, "write-context")
}
