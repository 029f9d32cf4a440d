/** The broker's lock-protected state and its critical sections, as values.

    Every method of the broker that takes its mutex for writing is one `Event`, and `Apply` is what
    the critical section does to the state. Wall-clock readings, random tokens, persistence faults
    and control-plane answers are carried by the event.

    A binding-state object is allocated by the snapshot that first lists its ID, so its pointer
    identity is the pair of that ID and the number of that snapshot (`Ref`). */
module BrokerCore {
  import opened Options

  /** An identifier or token. The broker only ever compares these for equality. */
  type Name(==, !new)

  /** A nullable RFC 3339 timestamp: a nil pointer, an empty string, unparsable text or an instant. */
  datatype Stamp = Missing | Blank | Malformed | At(time: int)

  datatype Status =
    Active | Connecting | PendingDevice | ProbingLocalBrowser | Paused | Expired | Revoked | UnknownStatus

  datatype Health = Healthy | RenewalGrace | LeaseExpired | UnknownHealth

  const SECOND: int := 1_000_000_000
  const PERMIT_LIFETIME: int := 20 * SECOND
  const REPLAY_WINDOW: int := 600 * SECOND
  const MAX_REPLAY_ENTRIES: nat := 4096
  const MAX_PAYLOAD_BYTES: int := 16 * 1024 * 1024
  const MAX_UINT64: nat := 0xFFFF_FFFF_FFFF_FFFF

  datatype Config = Config(maxParallel: int, renewGrace: int)

  /** The limits that creating a broker enforces. */
  predicate ValidConfig(cfg: Config) {
    1 <= cfg.maxParallel <= 4 && 0 < cfg.renewGrace
  }

  datatype Metadata = Metadata(
    bindingID: Name,
    toolSession: Name,
    generation: nat,
    status: Status,
    health: Health,
    leaseUntil: Stamp,
    graceUntil: Stamp,
    absoluteTTL: Stamp,
    maxParallel: int,
    allowlistRevision: nat,
    learningDigest: Option<Name>)

  /** One binding as the control plane lists it. `generation` of `body` is the canonical field and
      `legacyGeneration` its older alias; `contractValid` stands for the identity, key, platform,
      protocol and capability checks that look at no broker state. */
  datatype Offer = Offer(body: Metadata, legacyGeneration: nat, contractValid: bool)

  datatype Ref = Ref(id: Name, serial: nat)

  datatype BindingState = BindingState(serial: nat, metadata: Metadata, terminal: bool, terminalGeneration: nat)

  datatype Permit = Permit(bindingID: Name, generation: nat, requestID: Name, sequence: nat, expiresAt: int)

  datatype ActiveRequest = ActiveRequest(
    bindingID: Name, generation: nat, requestID: Name, sequence: nat, expiresAt: int,
    submitted: bool, sent: bool)

  /** `epochs` keeps the relay epoch of every binding-state object ever made, detached ones included;
      `disk` is the content of the sequence file. */
  datatype Core = Core(
    bindings: map<Name, BindingState>,
    epochs: map<Ref, nat>,
    snapshots: nat,
    sessions: map<Name, Name>,
    nonces: map<Name, Name>,
    peerUIDs: map<Name, nat>,
    permits: map<nat, Permit>,
    active: map<nat, ActiveRequest>,
    consumed: map<nat, int>,
    sequence: nat,
    disk: nat,
    closed: bool)

  datatype Error =
    ErrUnavailable | ErrLeaseRenewalRequired | ErrLeaseExpired | ErrRevoked | ErrReplay
    | ErrConcurrency | ErrProtocol | ErrPersist | ErrRandom

  datatype Reply<+T> = Ok(value: T) | Err(error: Error)

  function Fresh(sequence: nat): Core {
    Core(map[], map[], 0, map[], map[], map[], map[], map[], map[], sequence, sequence, false)
  }

  // ---------------------------------------------------------------- lookups

  predicate Attached(s: Core, r: Ref) {
    r.id in s.bindings && s.bindings[r.id].serial == r.serial
  }

  /** A binding present in this generation and able to authorise requests. */
  predicate Authority(bindings: map<Name, BindingState>, id: Name, generation: nat) {
    && id in bindings
    && bindings[id].metadata.generation == generation
    && bindings[id].metadata.status == Active
    && bindings[id].metadata.health == Healthy
  }

  /** The requests of one binding that hold a slot. */
  function OfBinding(active: map<nat, ActiveRequest>, id: Name): set<nat> {
    set q | q in active && active[q].bindingID == id
  }

  /** The bindings attached to one tool session. */
  function OfSession(bindings: map<Name, BindingState>, tool: Name): set<Name> {
    set id | id in bindings && bindings[id].metadata.toolSession == tool
  }

  // ---------------------------------------------------------------- clearing and pruning

  function PermitsWithout(permits: map<nat, Permit>, ids: set<Name>): map<nat, Permit> {
    map q | q in permits && permits[q].bindingID !in ids :: permits[q]
  }

  function RequestsWithout(active: map<nat, ActiveRequest>, ids: set<Name>): map<nat, ActiveRequest> {
    map q | q in active && active[q].bindingID !in ids :: active[q]
  }

  function Bumped(epochs: map<Ref, nat>, bindings: map<Name, BindingState>, bumps: map<Name, nat>): map<Ref, nat> {
    map r | r in epochs ::
      epochs[r] + (if r.id in bumps && r.id in bindings && bindings[r.id].serial == r.serial then bumps[r.id] else 0)
  }

  /** Drops the permits and active requests of the bindings named by `bumps` and advances the relay
      epoch of each by the given number of clearings. */
  function ClearMaterials(s: Core, bumps: map<Name, nat>): Core {
    s.(permits := PermitsWithout(s.permits, bumps.Keys),
       active := RequestsWithout(s.active, bumps.Keys),
       epochs := Bumped(s.epochs, s.bindings, bumps))
  }

  function Once(ids: set<Name>): map<Name, nat> {
    map id | id in ids :: 1
  }

  function LivePermits(permits: map<nat, Permit>, now: int): map<nat, Permit> {
    map q | q in permits && now < permits[q].expiresAt :: permits[q]
  }

  function LiveRequests(active: map<nat, ActiveRequest>, permits: map<nat, Permit>, now: int): map<nat, ActiveRequest> {
    map q | q in active && !(q in permits && permits[q].expiresAt <= now && !active[q].submitted) :: active[q]
  }

  function PruneExpired(s: Core, now: int): Core {
    s.(permits := LivePermits(s.permits, now), active := LiveRequests(s.active, s.permits, now))
  }

  ghost predicate Submap<K, V>(small: map<K, V>, large: map<K, V>) {
    forall k | k in small :: k in large && small[k] == large[k]
  }

  function InWindow(consumed: map<nat, int>, now: int): set<nat> {
    set q | q in consumed && now < consumed[q] + REPLAY_WINDOW
  }

  /** What pruning the replay cache may leave: only entries inside the window, as many of them as the
      cap admits, and none older than an entry that was dropped to respect the cap. */
  ghost predicate PrunedFrom(before: map<nat, int>, after: map<nat, int>, now: int) {
    && Submap(after, before)
    && after.Keys <= InWindow(before, now)
    && |after| == (if |InWindow(before, now)| <= MAX_REPLAY_ENTRIES
                   then |InWindow(before, now)| else MAX_REPLAY_ENTRIES)
    && (forall q, k | q in InWindow(before, now) && q !in after && k in after :: before[q] <= before[k])
  }

  // ---------------------------------------------------------------- snapshots

  /** The canonical generation of an offer, or none when its two spellings disagree. */
  function NormalGeneration(o: Offer): Option<nat> {
    if o.body.generation != 0 && o.legacyGeneration != 0 && o.body.generation != o.legacyGeneration then None
    else Some(if o.body.generation != 0 then o.body.generation else o.legacyGeneration)
  }

  function ValidOffer(o: Offer): Option<Metadata> {
    match NormalGeneration(o)
    case None => None
    case Some(generation) =>
      var m := o.body.(generation := generation);
      if !o.contractValid || generation == 0
         || m.status == Revoked || m.status == UnknownStatus || m.health == UnknownHealth
         || m.maxParallel < 1 || m.maxParallel > 4 || m.allowlistRevision == 0
         || m.absoluteTTL == Malformed
      then None
      else Some(m)
  }

  /** The listed bindings by ID; none when an offer is invalid or an ID is listed twice. */
  function Listed(offers: seq<Offer>): Option<map<Name, Metadata>> {
    if offers == [] then Some(map[])
    else
      match (Listed(offers[..|offers| - 1]), ValidOffer(offers[|offers| - 1]))
      case (Some(listed), Some(m)) => if m.bindingID in listed then None else Some(listed[m.bindingID := m])
      case _ => None
  }

  predicate Stale(was: BindingState, offered: Metadata) {
    offered.generation < was.metadata.generation || (was.terminal && offered.generation <= was.terminalGeneration)
  }

  /** How often a snapshot clears the materials of a binding that stays listed. */
  function Drift(was: BindingState, offered: Metadata): nat {
    if Stale(was, offered) then 0
    else
      (if offered.generation != was.metadata.generation then 1 else 0)
      + (if || was.metadata.toolSession != offered.toolSession
            || was.metadata.allowlistRevision != offered.allowlistRevision
            || was.metadata.learningDigest != offered.learningDigest
            || was.metadata.status != offered.status
            || was.metadata.health != offered.health then 1 else 0)
  }

  function Merge(was: BindingState, offered: Metadata): BindingState {
    if Stale(was, offered) then was
    else if offered.generation != was.metadata.generation then BindingState(was.serial, offered, false, 0)
    else was.(metadata := offered)
  }

  function Bumps(s: Core, next: map<Name, Metadata>): map<Name, nat> {
    map id | id in s.bindings && (id !in next || Drift(s.bindings[id], next[id]) > 0) ::
      if id in next then Drift(s.bindings[id], next[id]) else 1
  }

  function NewRefs(s: Core, next: map<Name, Metadata>): set<Ref> {
    set id | id in next && id !in s.bindings :: Ref(id, s.snapshots)
  }

  function NewEpochs(s: Core, next: map<Name, Metadata>): map<Ref, nat> {
    map r | r in NewRefs(s, next) :: 0
  }

  function Installed(s: Core, next: map<Name, Metadata>): map<Name, BindingState> {
    map id | id in next ::
      if id in s.bindings then Merge(s.bindings[id], next[id]) else BindingState(s.snapshots, next[id], false, 0)
  }

  function Install(s: Core, next: map<Name, Metadata>): Core {
    var cleared := ClearMaterials(s, Bumps(s, next));
    cleared.(bindings := Installed(s, next),
             epochs := cleared.epochs + NewEpochs(s, next),
             snapshots := s.snapshots + 1)
  }

  // ---------------------------------------------------------------- permits

  datatype IssueEnv = IssueEnv(now: int, requestID: Name, persistFails: bool, randomFails: bool)

  /** The earliest of `limit` and an optional authority bound; none when the bound does not parse. */
  function Earliest(limit: int, bound: Stamp): Option<int> {
    match bound
    case At(t) => Some(if t < limit then t else limit)
    case Malformed => None
    case _ => Some(limit)
  }

  function PermitExpiry(m: Metadata, now: int): Option<int> {
    match Earliest(now + PERMIT_LIFETIME, m.leaseUntil)
    case None => None
    case Some(limit) => Earliest(limit, m.absoluteTTL)
  }

  function Min(a: int, b: int): int { if a < b then a else b }

  lemma SingletonUnique(ids: set<Name>, a: Name, b: Name)
    requires |ids| == 1 && a in ids && b in ids
    ensures a == b
  {
    assert |ids - {a}| == 0;
  }

  function Sole(ids: set<Name>): (id: Name)
    requires |ids| == 1
    ensures ids == {id}
  {
    assert forall a, b | a in ids && b in ids :: a == b by {
      forall a, b | a in ids && b in ids ensures a == b { SingletonUnique(ids, a, b); }
    }
    var id :| id in ids;
    id
  }

  /** Admission up to the point where a sequence number is drawn. */
  function Admit(cfg: Config, s: Core, nonce: Name, tool: Name): Reply<Metadata> {
    var ids := OfSession(s.bindings, tool);
    if nonce !in s.nonces || s.nonces[nonce] != tool || |ids| != 1 then Err(ErrUnavailable)
    else
      var m := s.bindings[Sole(ids)].metadata;
      if m.status != Active || m.health != Healthy then Err(ErrLeaseRenewalRequired)
      else if m.generation == 0 then Err(ErrProtocol)
      else if |OfBinding(s.active, m.bindingID)| >= Min(cfg.maxParallel, m.maxParallel) then Err(ErrConcurrency)
      else Ok(m)
  }

  function NextSequence(s: Core, persistFails: bool): Reply<nat> {
    if s.sequence >= MAX_UINT64 then Err(ErrProtocol)
    else if persistFails then Err(ErrPersist)
    else Ok(s.sequence + 1)
  }

  function Grant(s: Core, m: Metadata, env: IssueEnv): (Core, Reply<Permit>) {
    match NextSequence(s, env.persistFails)
    case Err(e) => (s, Err(e))
    case Ok(q) =>
      var drawn := s.(sequence := q, disk := q);
      if env.randomFails then (drawn, Err(ErrRandom))
      else
        match PermitExpiry(m, env.now)
        case None => (drawn, Err(ErrProtocol))
        case Some(expiresAt) =>
          if expiresAt <= env.now then (drawn, Err(ErrLeaseExpired))
          else
            var p := Permit(m.bindingID, m.generation, env.requestID, q, expiresAt);
            var a := ActiveRequest(m.bindingID, m.generation, env.requestID, q, expiresAt, false, false);
            (drawn.(permits := drawn.permits[q := p], active := drawn.active[q := a]), Ok(p))
  }

  function Issue(cfg: Config, s: Core, nonce: Name, tool: Name, env: IssueEnv): (Core, Reply<Permit>) {
    var pruned := PruneExpired(s, env.now);
    match Admit(cfg, pruned, nonce, tool)
    case Err(e) => (pruned, Err(e))
    case Ok(m) => Grant(pruned, m, env)
  }

  datatype Submission = Submission(bindingID: Name, generation: nat, requestID: Name, sequence: nat, payloadBytes: int,
      now: int)

  function Drop(s: Core, q: nat): Core {
    s.(permits := s.permits - {q}, active := s.active - {q})
  }

  /** Consuming a permit; `s` is the state whose replay cache has just been pruned. */
  function Consume(s: Core, c: Submission): (Core, Reply<Permit>) {
    var q := c.sequence;
    if q !in s.permits then (s, Err(if q in s.consumed then ErrReplay else ErrRevoked))
    else
      var p := s.permits[q];
      if p.bindingID != c.bindingID || p.generation != c.generation || p.requestID != c.requestID || p.sequence != q
      then (s, Err(ErrProtocol))
      else if c.payloadBytes < 0 || c.payloadBytes > MAX_PAYLOAD_BYTES then (s, Err(ErrProtocol))
      else if p.expiresAt <= c.now then (Drop(s, q), Err(ErrLeaseExpired))
      else
        var taken := s.(permits := s.permits - {q}, consumed := s.consumed[q := c.now]);
        (if q in s.active then taken.(active := s.active[q := s.active[q].(submitted := true)]) else taken, Ok(p))
  }

  // ---------------------------------------------------------------- sending order

  /** No lower registered request of the binding is still unsent. */
  predicate TurnFree(s: Core, id: Name, q: nat) {
    forall other | other in s.active && s.active[other].bindingID == id && other < q :: s.active[other].sent
  }

  datatype Turn = Passed | Blocked | TurnRefused

  /** One pass of the waiting loop, after pruning; `tracked` says the request was registered at an
      earlier pass. */
  function TakeTurn(s: Core, id: Name, q: nat, tracked: bool): Turn {
    if !tracked && q !in s.active then Passed
    else if q !in s.active || s.active[q].bindingID != id || !s.active[q].submitted then TurnRefused
    else if TurnFree(s, id, q) then Passed
    else Blocked
  }

  function MarkSent(s: Core, id: Name, q: nat): Core {
    if q in s.active && s.active[q].bindingID == id && s.active[q].submitted
    then s.(active := s.active[q := s.active[q].(sent := true)])
    else s
  }

  // ---------------------------------------------------------------- lease lifecycle

  datatype Renewal = Renewal(leaseUntil: Stamp, graceUntil: Stamp, absoluteTTL: Stamp)

  /** Committing a validated renewal answer for the generation that asked for it. */
  function Renew(s: Core, r: Ref, generation: nat, answer: Renewal): Core {
    if Attached(s, r) && s.bindings[r.id].metadata.generation == generation
       && s.bindings[r.id].metadata.status == Active && !s.bindings[r.id].terminal
    then s.(bindings := s.bindings[r.id := Renewed(s.bindings[r.id], answer)])
    else s
  }

  function Renewed(b: BindingState, answer: Renewal): BindingState {
    b.(metadata := b.metadata.(
         leaseUntil := answer.leaseUntil, health := Healthy,
         graceUntil := answer.graceUntil, absoluteTTL := answer.absoluteTTL))
  }

  function Terminate(b: BindingState, status: Status): BindingState {
    BindingState(b.serial, b.metadata.(status := status, health := LeaseExpired, graceUntil := Missing),
                 true, b.metadata.generation)
  }

  function Replace(s: Core, id: Name, b: BindingState, clearings: nat): Core {
    ClearMaterials(s, map[id := clearings]).(bindings := s.bindings[id := b])
  }

  predicate CanFail(b: BindingState) {
    b.metadata.status == Active && !b.terminal && b.metadata.health != LeaseExpired
  }

  /** A grace deadline that has passed, or that cannot be read. */
  predicate GraceOver(b: BindingState, now: int) {
    b.metadata.health == RenewalGrace && b.metadata.graceUntil != Missing
    && (b.metadata.graceUntil.At? ==> b.metadata.graceUntil.time <= now)
  }

  function EnterGrace(cfg: Config, b: BindingState, now: int): BindingState {
    b.(metadata := b.metadata.(
         health := RenewalGrace,
         graceUntil := if b.metadata.graceUntil == Missing || b.metadata.graceUntil == Blank
                       then At(now + cfg.renewGrace) else b.metadata.graceUntil))
  }

  /** A failed renewal: the expiry path clears the materials twice, the grace path once. */
  function FailRenewal(cfg: Config, s: Core, r: Ref, now: int): Core {
    if !Attached(s, r) || !CanFail(s.bindings[r.id]) then s
    else if GraceOver(s.bindings[r.id], now) then Replace(s, r.id, Terminate(s.bindings[r.id], Expired), 2)
    else Replace(s, r.id, EnterGrace(cfg, s.bindings[r.id], now), 1)
  }

  function Expire(s: Core, r: Ref): Core {
    if Attached(s, r) && s.bindings[r.id].metadata.status == Active
    then Replace(s, r.id, Terminate(s.bindings[r.id], Expired), 1)
    else s
  }

  function Revoke(s: Core, id: Name, generation: nat): Core {
    if id in s.bindings && (generation == 0 || s.bindings[id].metadata.generation == generation)
    then Replace(s, id, Terminate(s.bindings[id], Revoked), 1)
    else s
  }

  // ---------------------------------------------------------------- tool sessions

  /** Registration with the random token drawn for it. */
  function Register(s: Core, tool: Name, nonce: Name): Core {
    if s.closed || tool in s.sessions || nonce in s.nonces then s
    else s.(sessions := s.sessions[tool := nonce], nonces := s.nonces[nonce := tool])
  }

  function Authorize(s: Core, tool: Name, nonce: Name, uid: nat): Core {
    if tool in s.sessions && s.sessions[tool] == nonce && nonce in s.nonces && s.nonces[nonce] == tool
       && (tool in s.peerUIDs ==> s.peerUIDs[tool] == uid)
    then s.(peerUIDs := s.peerUIDs[tool := uid])
    else s
  }

  /** Without an `expected` capability, whatever the session holds is removed. */
  function Unregister(s: Core, tool: Name, expected: Option<Name>): Core {
    if tool !in s.sessions || (expected.Some? && s.sessions[tool] != expected.value) then s
    else
      ClearMaterials(s, Once(OfSession(s.bindings, tool))).(
        sessions := s.sessions - {tool}, nonces := s.nonces - {s.sessions[tool]}, peerUIDs := s.peerUIDs - {tool})
  }

  // ---------------------------------------------------------------- events

  /** `CloseSignal` closes the broker's stop channel and `CloseClear` is the second critical section of
      closing; the first one is `Reload`. `Crash` loses the process, possibly after the sequence file
      was renamed into place, and starts a new broker from that file. */
  datatype Event =
    | DoRegister(tool: Name, nonce: Name)
    | DoAuthorize(tool: Name, nonce: Name, uid: nat)
    | DoUnregister(tool: Name, expected: Option<Name>)
    | Snapshot(offers: seq<Offer>)
    | DoIssue(nonce: Name, tool: Name, env: IssueEnv)
    | DoConsume(submission: Submission)
    | Release(sequence: nat)
    | Prune(now: int)
    | DoMarkSent(id: Name, sequence: nat)
    | DoRenew(ref: Ref, generation: nat, answer: Renewal)
    | DoFail(ref: Ref, now: int)
    | DoExpire(ref: Ref)
    | DoRevoke(id: Name, generation: nat)
    | Reload
    | ReloadTool(tool: Name)
    | CloseSignal
    | CloseClear
    | Crash(renamed: bool)

  function Apply(cfg: Config, s: Core, e: Event): Core {
    match e
    case DoRegister(tool, nonce) => Register(s, tool, nonce)
    case DoAuthorize(tool, nonce, uid) => Authorize(s, tool, nonce, uid)
    case DoUnregister(tool, expected) => Unregister(s, tool, expected)
    case Snapshot(offers) => (match Listed(offers) case None => s case Some(next) => Install(s, next))
    case DoIssue(nonce, tool, env) => Issue(cfg, s, nonce, tool, env).0
    case DoConsume(c) => Consume(s, c).0
    case Release(q) => Drop(s, q)
    case Prune(now) => PruneExpired(s, now)
    case DoMarkSent(id, q) => MarkSent(s, id, q)
    case DoRenew(r, generation, answer) => Renew(s, r, generation, answer)
    case DoFail(r, now) => FailRenewal(cfg, s, r, now)
    case DoExpire(r) => Expire(s, r)
    case DoRevoke(id, generation) => Revoke(s, id, generation)
    case Reload => ClearMaterials(s, Once(s.bindings.Keys))
    case ReloadTool(tool) => ClearMaterials(s, Once(OfSession(s.bindings, tool)))
    case CloseSignal => s.(closed := true)
    case CloseClear => if s.closed then s.(sessions := map[], nonces := map[], peerUIDs := map[]) else s
    case Crash(renamed) => Fresh(if renamed && s.disk < MAX_UINT64 then s.disk + 1 else s.disk)
  }

  /** One step: the critical section, and any amount of replay-cache pruning within it. */
  ghost predicate Next(cfg: Config, s: Core, e: Event, s': Core) {
    && Submap(s'.consumed, Apply(cfg, s, e).consumed)
    && s' == Apply(cfg, s, e).(consumed := s'.consumed)
  }

  // ---------------------------------------------------------------- waking the waiters

  /** Pruning at this time drops a request. */
  predicate PruneNotifies(s: Core, now: int) {
    exists q :: q in s.permits && s.permits[q].expiresAt <= now && q in s.active && !s.active[q].submitted
  }

  /** The critical section closes the broker's `changed` channel, which wakes every waiting thread. */
  predicate Notifies(cfg: Config, s: Core, e: Event) {
    match e
    case DoIssue(nonce, tool, env) => PruneNotifies(s, env.now) || Issue(cfg, s, nonce, tool, env).1.Ok?
    case DoConsume(c) =>
      (Consume(s, c).1.Ok? && c.sequence in s.active) || Consume(s, c).1 == Err(ErrLeaseExpired)
    case Release(q) => q in s.active
    case Prune(now) => PruneNotifies(s, now)
    case DoMarkSent(id, q) => q in s.active && s.active[q].bindingID == id && s.active[q].submitted
    case Snapshot(offers) => Listed(offers).Some? && Bumps(s, Listed(offers).value) != map[]
    case DoFail(r, now) => Attached(s, r) && CanFail(s.bindings[r.id])
    case DoExpire(r) => Attached(s, r) && s.bindings[r.id].metadata.status == Active
    case DoRevoke(id, generation) =>
      id in s.bindings && (generation == 0 || s.bindings[id].metadata.generation == generation)
    case DoUnregister(tool, expected) =>
      tool in s.sessions && (expected.Some? ==> s.sessions[tool] == expected.value) && OfSession(s.bindings, tool) != {}
    case Reload => s.bindings != map[]
    case ReloadTool(tool) => OfSession(s.bindings, tool) != {}
    case _ => false
  }
}
