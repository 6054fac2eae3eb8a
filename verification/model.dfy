/** The persisted records of the controller and the values it exchanges with the
    outside: PowerDNS keys, registrar state, DNS evidence and configuration. */
module Model {

  datatype Option<+T> = None | Some(value: T)

  /** Seconds. Zero is the unset time, as time.Time's zero value is in the source. */
  type Time = int

  const UNSET: Time := 0
  const DAY: Time := 86400

  /** A resource-record TTL is an unsigned 32-bit number of seconds. */
  const TTL_LIMIT: int := 0x1_0000_0000
  type Ttl = t: int | 0 <= t < TTL_LIMIT

  datatype Kind = ZSK | KSK | Split | Enroll

  datatype Phase =
    | Idle
    | Prepublish
    | WaitPublish
    | ActivateNew
    | WaitNewSignature
    | DeactivateOld
    | ParentRemove
    | WaitParentRemove
    | WaitRetire
    | DeleteOld
    | EnrollDiscovered
    | EnrollWaitPublish
    | EnrollParentAdd
    | EnrollWaitParent
    | Blocked

  /** PowerDNS reports one of three key types for a key. */
  datatype KeyType = KskType | ZskType | CskType

  /** Public DNSKEY material; flags 257 mark a key-signing key, 256 a zone-signing key. */
  datatype KeyData = KeyData(flags: nat, protocol: nat, algorithm: nat, publicKey: string)

  const SEP_FLAGS := 257
  const ZONE_FLAGS := 256

  /** `data` is the parsed DNSKEY text, None when the text does not parse. Algorithm
      labels are in their canonical (trimmed, upper-case) spelling. */
  datatype Key = Key(
    id: int, keyType: KeyType, active: bool, published: bool,
    data: Option<KeyData>, algorithm: string)

  datatype Zone = Zone(id: string, name: string, dnssec: bool)

  datatype JobStatus = NoStatus | Pending | Succeeded | Failed

  datatype ParentMode = NoMode | Existing | Initial

  datatype Disposition = NoDisposition | Candidate | Enrolled | Ineligible | Baseline

  /** A client transaction id is a hash; the model keeps what is hashed. */
  datatype Ctid =
    | NoCtid
    | ReplaceCtid(zone: string, kind: Kind, startedAt: Time)
    | EnrollCtid(armedAt: Time, zone: string, keyset: Fingerprint)

  /** The public-keyset fingerprint is a hash; the model keeps what is hashed. */
  datatype Fingerprint =
    | NoFingerprint
    | Keyset(kskId: int, ksk: KeyData, zskId: int, zsk: KeyData)

  /** The registrar transaction of a workflow. `payload` is the hashed DNSKEY. */
  datatype Registration = Registration(
    ctid: Ctid, stid: string, jobId: int, jobStatus: JobStatus,
    attemptedAt: Time, payload: Option<KeyData>)

  const NO_REGISTRATION := Registration(NoCtid, "", 0, NoStatus, UNSET, None)

  /** Restart-safe state of one zone and one kind. */
  datatype Workflow = Workflow(
    zone: string, zoneId: string, kind: Kind, phase: Phase,
    oldKey: int, newKey: int, newZsk: int,
    newKeyTriedAt: Time, newZskTriedAt: Time,
    startedAt: Time, nextAt: Time, completedAt: Time,
    attempts: nat, manual: bool, idem: string,
    dnskeyTtl: int, zoneTtl: int, dsTtl: int, evidenceAt: Time,
    reg: Registration, parentMode: ParentMode, signerAt: Time,
    discoveredAt: Time, keyset: Fingerprint, disposition: Disposition)
  {
    /** A blocked workflow counts as active. */
    predicate Active() { phase != Idle }

    function Id(): WorkflowId { WorkflowId(zone, kind) }
  }

  /** The map key of a workflow: the source joins zone and kind with a bar, which
      loses nothing (see Text.WorkflowKeyInjective). */
  datatype WorkflowId = WorkflowId(zone: string, kind: Kind)

  /** What a lookup of an absent record amounts to: Go's zero value, with the zone and
      kind its first writer sets. */
  function Fresh(id: WorkflowId): Workflow {
    Workflow(id.zone, "", id.kind, Idle, 0, 0, 0, UNSET, UNSET, UNSET, UNSET, UNSET,
             0, false, "", 0, 0, 0, UNSET, NO_REGISTRATION, NoMode, UNSET,
             UNSET, NoFingerprint, NoDisposition)
  }

  /** Event ids are hashes; the model keeps what is hashed. */
  datatype EventId =
    | CompletedEvent(zone: string, kind: Kind, at: Time)
    | BlockedEvent(zone: string, kind: Kind, keyset: Fingerprint)

  datatype Notification = Notification(
    id: EventId, zone: string, kind: Kind, completedAt: Time,
    oldKey: int, newKey: int, newZsk: int, stid: string,
    attempts: nat, nextAttemptAt: Time, failed: bool, deliveredAt: Time)

  /** The complete atomically persisted state. */
  datatype State = State(
    armedAt: Time,
    workflows: map<WorkflowId, Workflow>,
    idempotency: map<string, string>,
    notifications: map<EventId, Notification>)

  const EMPTY_STATE := State(UNSET, map[], map[], map[])

  function Lookup(s: State, id: WorkflowId): Workflow {
    if id in s.workflows then s.workflows[id] else Fresh(id)
  }

  /** Configuration the state machines read; `selected` and `enrollScope` are the zones
      inside the two configured scopes and `algorithms` the label table of the DNS library. */
  datatype Config = Config(
    margin: Time, minDnskeyWait: Time, minParentWait: Time,
    zskInterval: Time, kskInterval: Time, algorithm: string,
    algorithms: map<string, int>, selected: set<string>,
    enrollEnabled: bool, enrollScope: set<string>, discoveryGrace: Time,
    maxPending: int, maxNewPerDay: int, allowed: set<string>,
    notify: bool, retention: Time)

  /** The floors configuration validation enforces. */
  predicate ValidConfig(c: Config) {
    && c.margin >= 60
    && c.minDnskeyWait >= 3600
    && c.minParentWait >= 2 * DAY
    && c.zskInterval >= DAY
    && c.kskInterval >= 30 * DAY
    && c.discoveryGrace >= DAY
    && 1 <= c.maxPending <= 100
    && 1 <= c.maxNewPerDay <= 100
    && c.retention >= DAY
  }

  /** What the registrar holds. Material is named by the id of the key that owns it. */
  datatype Remote = Remote(enabled: bool, material: seq<int>)

  /** An exact DNSKEY RRset seen on every queried path, with its greatest TTL. */
  datatype Seen = Seen(ids: set<int>, ttl: Ttl)

  datatype JobReply = JobUnavailable | JobUnreadable | JobReport(status: JobStatus)

  /** Everything the observer, PowerDNS and the registrar answer during one
      reconciliation of one zone; None and absence stand for an error. Key ids stand
      for the keys a check succeeds for. */
  datatype Evidence = Evidence(
    keys: seq<Key>,
    dnskey: Option<Seen>, authDnskey: Option<Seen>,
    dnskeySigned: set<int>, authDnskeySigned: set<int>,
    zoneSigned: set<int>, authZoneSigned: set<int>,
    dsExact: set<int>, authDs: map<int, Ttl>,
    noDs: bool, delegation: bool,
    remote: Option<Remote>, job: JobReply,
    zoneTtls: Option<seq<Ttl>>)

  function One(b: bool): nat { if b then 1 else 0 }

  function Max(a: int, b: int): int { if a > b then a else b }

  function Min(a: int, b: int): int { if a < b then a else b }

  /** Retry delay: two to the number of attempts, at most two to the eighth, in minutes. */
  function Backoff(attempts: nat): Time { 60 * Power2(Min(attempts, 8)) }

  function Power2(n: nat): nat { if n == 0 then 1 else 2 * Power2(n - 1) }

  lemma BackoffBounds(attempts: nat)
    requires attempts >= 1
    ensures 2 * 60 <= Backoff(attempts) <= 256 * 60
  {
    assert Power2(3) == 8;
    assert Power2(6) == 64;
  }
}
