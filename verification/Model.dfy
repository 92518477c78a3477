/** The rows the services work on. Instants are microseconds. */
module Model {
  import opened Prelude

  type Time = int

  const SECOND: int := 1_000_000
  const MINUTE: int := 60 * SECOND
  const HOUR: int := 60 * MINUTE

  // ---- alerts ----

  datatype AlertStatus = Firing | Resolved

  datatype AlertEvent = AlertEvent(
    cluster: nat,
    fingerprint: string,
    startsAt: Time,
    status: AlertStatus,
    endsAt: Option<Time>,
    alertname: string,
    severity: Option<string>,
    namespace: Option<string>,
    labels: map<string, string>,
    annotations: map<string, string>,
    team: Option<nat>,
    firstReceivedAt: Time,
    lastReceivedAt: Time,
    receiveCount: nat,
    suppressedBy: Option<nat>,
    acknowledgedAt: Option<Time>,
    isTest: bool)

  // ---- routing configuration ----

  datatype DigestMode = Off | Auto | Always

  datatype Channel = Channel(
    team: nat,
    deleted: bool,
    enabled: bool,
    allowCrossTeam: bool,
    digestMode: DigestMode,
    rateLimit: Option<nat>,
    digestWindowMinutes: nat)

  predicate LiveChannel(channels: map<nat, Channel>, c: nat) {
    c in channels && !channels[c].deleted
  }

  datatype Matcher = Matcher(kind: string, target: string, key: Option<string>, pattern: string, position: int)

  datatype RuleAction = Notify | Suppress

  /** Empty lists stand for the source's NULL filters: it treats both alike. */
  datatype RoutingRule = RoutingRule(
    team: nat,
    action: RuleAction,
    enabled: bool,
    notifyOnFiring: bool,
    notifyOnResolved: bool,
    includeShared: bool,
    clusters: seq<nat>,
    severities: seq<string>,
    namespacesInclude: seq<string>,
    namespacesExclude: seq<string>,
    matchers: seq<Matcher>,
    channels: seq<nat>,
    escalationEnabled: bool,
    escalationAfter: Option<int>,
    escalationChannels: seq<nat>,
    renotifyInterval: Option<int>)

  // ---- notification queue ----

  /** What a row announces. `Renotify` carries the id of the timer that produced it. */
  datatype Trigger = OnFiring | OnResolved | OnEscalation | OnRenotify(action: nat) | OnDigest | OnReport

  /** A frozen notification, serialized when it was routed. */
  type Note = string

  datatype Payload = Single(note: Note) | Batch(notes: seq<Note>, count: nat, windowStartedAt: Time)

  datatype RowStatus = Pending | InProgress | Delivered | Dead | Digested

  datatype OutboxRow = OutboxRow(
    event: Option<nat>,
    rule: Option<nat>,
    channel: nat,
    trigger: Trigger,
    payload: Payload,
    status: RowStatus,
    attempts: nat,
    isDigest: bool,
    digestedInto: Option<nat>,
    nextAttemptAt: Time,
    lockedBy: Option<nat>,
    lockedAt: Option<Time>,
    createdAt: Time,
    deliveredAt: Option<Time>)

  datatype ActionKind = Escalation | Renotify | DigestFlush | UnknownKind

  datatype ActionStatus = Waiting | Claimed | Done | Cancelled

  datatype ScheduledAction = ScheduledAction(
    kind: ActionKind,
    event: Option<nat>,
    rule: Option<nat>,
    channel: Option<nat>,
    dueAt: Time,
    status: ActionStatus,
    processedAt: Option<Time>)

  /** The tables the notification engine reads and writes. Ids come from a counter and are never reused. */
  datatype DB = DB(
    outbox: map<nat, OutboxRow>,
    actions: map<nat, ScheduledAction>,
    events: map<nat, AlertEvent>,
    channels: map<nat, Channel>,
    rules: map<nat, RoutingRule>,
    nextRow: nat,
    nextAction: nat)
}
