/** Properties of whole runs of the broker: any interleaving of its critical sections, with crashes
    and restarts anywhere. */
module BrokerRuns {
  import opened BrokerCore
  import opened BrokerInvariant
  import opened Options

  /** A run from a freshly started broker. `states[i]` is the state before `events[i]`. */
  ghost predicate Run(cfg: Config, states: seq<Core>, events: seq<Event>) {
    && ValidConfig(cfg)
    && |states| == |events| + 1
    && states[0].sequence <= MAX_UINT64 && states[0] == Fresh(states[0].sequence)
    && (forall i | 0 <= i < |events| :: Next(cfg, states[i], events[i], states[i + 1]))
  }

  /** The broker invariant holds at every state of every run. */
  lemma {:induction false} RunInv(cfg: Config, states: seq<Core>, events: seq<Event>, i: nat)
    requires Run(cfg, states, events) && i < |states|
    ensures Inv(cfg, states[i])
  {
    hide Inv, Next;
    if i == 0 {
      FreshInv(cfg, states[0].sequence);
    } else {
      RunInv(cfg, states, events, i - 1);
      NextKeeps(cfg, states[i - 1], events[i - 1], states[i]);
    }
  }

  // ---------------------------------------------------------------- single steps

  /** The step draws no number and adds or changes no request and no permit. */
  ghost predicate OnlyDrops(s: Core, s': Core) {
    s'.sequence == s.sequence && s'.disk == s.disk && Submap(s'.permits, s.permits) && Submap(s'.active, s.active)
  }

  lemma ClearOnlyDrops(s: Core, bumps: map<Name, nat>)
    ensures OnlyDrops(s, ClearMaterials(s, bumps))
  {
  }

  lemma PruneOnlyDrops(s: Core, now: int)
    ensures OnlyDrops(s, PruneExpired(s, now))
  {
  }

  lemma LeaseOnlyDrops(cfg: Config, s: Core, e: Event)
    requires AboutLease(e)
    ensures OnlyDrops(s, Apply(cfg, s, e))
  {
    hide ClearMaterials, OnlyDrops;
    SameOnlyDrops(s, Apply(cfg, s, e));
    match e
    case DoRenew(r, generation, answer) =>
    case DoFail(r, now) => ReplaceOnlyDrops(s, r.id, 1); ReplaceOnlyDrops(s, r.id, 2);
    case DoExpire(r) => ReplaceOnlyDrops(s, r.id, 1);
    case DoRevoke(id, generation) => ReplaceOnlyDrops(s, id, 1);
  }

  lemma SameOnlyDrops(s: Core, s': Core)
    ensures s'.sequence == s.sequence && s'.disk == s.disk && s'.permits == s.permits && s'.active == s.active ==>
      OnlyDrops(s, s')
  {
  }

  lemma ReplaceOnlyDrops(s: Core, id: Name, clearings: nat)
    ensures forall b :: OnlyDrops(s, Replace(s, id, b, clearings))
  {
    ClearOnlyDrops(s, map[id := clearings]);
    hide ClearMaterials;
  }

  lemma SessionOnlyDrops(cfg: Config, s: Core, e: Event)
    requires AboutSession(e)
    ensures OnlyDrops(s, Apply(cfg, s, e))
  {
    hide ClearMaterials, Submap, OfSession;
    SameOnlyDrops(s, Apply(cfg, s, e));
    match e
    case DoUnregister(tool, expected) => ClearOnlyDrops(s, Once(OfSession(s.bindings, tool)));
    case Reload => ClearOnlyDrops(s, Once(s.bindings.Keys));
    case ReloadTool(tool) => ClearOnlyDrops(s, Once(OfSession(s.bindings, tool)));
    case _ =>
  }

  predicate Works(e: Event) { e.DoIssue? || e.DoConsume? || e.DoMarkSent? || e.Crash? }

  lemma OthersOnlyDrop(cfg: Config, s: Core, e: Event)
    requires !Works(e)
    ensures OnlyDrops(s, Apply(cfg, s, e))
  {
    if AboutLease(e) {
      LeaseOnlyDrops(cfg, s, e);
    } else if AboutSession(e) {
      SessionOnlyDrops(cfg, s, e);
    } else {
      hide ClearMaterials, Listed, Bumps, Installed, NewEpochs, PruneExpired;
      match e
      case Snapshot(offers) => if Listed(offers).Some? { ClearOnlyDrops(s, Bumps(s, Listed(offers).value)); }
      case Release(q) =>
      case Prune(now) => PruneOnlyDrops(s, now);
    }
  }

  lemma IssueStep(cfg: Config, s: Core, nonce: Name, tool: Name, env: IssueEnv)
    ensures var (s', reply) := Issue(cfg, s, nonce, tool, env);
            && s.sequence <= s'.sequence
            && (forall q | q in s'.permits && !(q in s.permits && s'.permits[q] == s.permits[q]) ::
                  reply == Ok(s'.permits[q]) && q == s'.permits[q].sequence)
            && (forall q | q in s'.active && !(q in s.active && s'.active[q] == s.active[q]) :: q == s.sequence + 1)
            && (reply.Ok? ==> s'.sequence == s.sequence + 1 == reply.value.sequence)
  {
    hide Admit, PruneExpired;
    PruneOnlyDrops(s, env.now);
  }

  function Handed(cfg: Config, s: Core, e: Event): Option<Permit> {
    if Issues(cfg, s, e) then Some(IssuedPermit(cfg, s, e)) else None
  }

  /** The same binding, and no flag taken back. */
  predicate Furthers(a: ActiveRequest, a': ActiveRequest) {
    a'.bindingID == a.bindingID && (a.submitted ==> a'.submitted) && (a.sent ==> a'.sent)
  }

  /** What one step may do to the counter, the permits and the requests. The counter never goes back
      and passes the number of a permit handed out; a permit in the registry was there before or was
      just handed out; a request was there before under the same binding or has the next number; a
      submission and a send mark are never taken back. */
  ghost predicate Tame(s: Core, s': Core, handed: Option<Permit>) {
    && s.sequence <= s'.sequence
    && (handed.Some? ==> handed.value.sequence == s'.sequence == s.sequence + 1)
    && (forall q | q in s'.permits ::
          || (q in s.permits && s'.permits[q] == s.permits[q])
          || (handed == Some(s'.permits[q]) && q == s'.permits[q].sequence))
    && (forall q | q in s'.active ::
          || q == s.sequence + 1
          || (q in s.active && Furthers(s.active[q], s'.active[q])))
  }

  lemma IssueTame(cfg: Config, s: Core, nonce: Name, tool: Name, env: IssueEnv)
    ensures Tame(s, Issue(cfg, s, nonce, tool, env).0, Handed(cfg, s, DoIssue(nonce, tool, env)))
  {
    hide Issue;
    IssueStep(cfg, s, nonce, tool, env);
  }

  /** Fewer permits, and at most one request moved forward. */
  lemma ProgressTame(s: Core, s': Core, q: nat)
    requires s'.sequence == s.sequence && Submap(s'.permits, s.permits)
    requires || Submap(s'.active, s.active)
             || (q in s.active && q in s'.active && s'.active == s.active[q := s'.active[q]]
                 && Furthers(s.active[q], s'.active[q]))
    ensures Tame(s, s', None)
  {
  }

  lemma SubmapMinus<V>(m: map<nat, V>, q: nat)
    ensures Submap(m - {q}, m) && Submap(m, m)
  {
  }

  lemma ConsumeTame(s: Core, c: Submission)
    ensures Tame(s, Consume(s, c).0, None)
  {
    hide Tame, Submap;
    var (s', reply) := Consume(s, c);
    var q := c.sequence;
    SubmapMinus(s.permits, q);
    SubmapMinus(s.active, q);
    if reply.Ok? && q in s.active {
      assert s'.active[q] == s.active[q].(submitted := true);
    }
    ProgressTame(s, s', q);
  }

  lemma MarkTame(s: Core, id: Name, q: nat)
    ensures Tame(s, MarkSent(s, id, q), None)
  {
    hide Tame;
    ProgressTame(s, MarkSent(s, id, q), q);
  }

  lemma WorkTame(cfg: Config, s: Core, e: Event)
    requires s.disk == s.sequence && Works(e)
    ensures Tame(s, Apply(cfg, s, e), Handed(cfg, s, e))
  {
    hide Tame, Issue, Consume, MarkSent, Register, Authorize, Unregister, Install, Drop, PruneExpired, Renew,
      FailRenewal, Expire, Revoke, ClearMaterials, Listed, OfSession;
    match e
    case DoIssue(nonce, tool, env) => IssueTame(cfg, s, nonce, tool, env);
    case DoConsume(c) => ConsumeTame(s, c);
    case DoMarkSent(id, q) => MarkTame(s, id, q);
    case Crash(renamed) => CrashTame(s, Apply(cfg, s, e));
  }

  lemma CrashTame(s: Core, s': Core)
    requires s'.permits == map[] && s'.active == map[] && s.sequence <= s'.sequence
    ensures Tame(s, s', None)
  {
  }

  /** Every step is tame. */
  lemma StepTame(cfg: Config, s: Core, e: Event, s': Core)
    requires Inv(cfg, s) && Next(cfg, s, e, s')
    ensures Tame(s, s', Handed(cfg, s, e))
  {
    hide BindingsOk, PermitsOk, RequestsOk, ParallelOk, ReplayOk, SessionsOk, RegisteredOk, Apply, Issue;
    if Works(e) {
      WorkTame(cfg, s, e);
    } else {
      OthersOnlyDrop(cfg, s, e);
    }
  }

  // ---------------------------------------------------------------- at-most-once permits

  predicate Issues(cfg: Config, s: Core, e: Event) {
    e.DoIssue? && Issue(cfg, s, e.nonce, e.tool, e.env).1.Ok?
  }

  function IssuedPermit(cfg: Config, s: Core, e: Event): Permit
    requires Issues(cfg, s, e)
  {
    Issue(cfg, s, e.nonce, e.tool, e.env).1.value
  }

  predicate Accepts(s: Core, e: Event) {
    e.DoConsume? && Consume(s, e.submission).1.Ok?
  }

  lemma {:induction false} SequenceMonotone(cfg: Config, states: seq<Core>, events: seq<Event>, i: nat, j: nat)
    requires Run(cfg, states, events) && i <= j < |states|
    ensures states[i].sequence <= states[j].sequence
    decreases j - i
  {
    hide Inv, Next;
    if i < j {
      SequenceMonotone(cfg, states, events, i, j - 1);
      RunInv(cfg, states, events, j - 1);
      StepTame(cfg, states[j - 1], events[j - 1], states[j]);
    }
  }

  /** Numbers handed out are strictly increasing over the whole run, through persistence failures,
      crashes and restarts. */
  lemma IssuedIncreasing(cfg: Config, states: seq<Core>, events: seq<Event>, i: nat, j: nat)
    requires Run(cfg, states, events) && i < j < |events|
    requires Issues(cfg, states[i], events[i]) && Issues(cfg, states[j], events[j])
    ensures IssuedPermit(cfg, states[i], events[i]).sequence < IssuedPermit(cfg, states[j], events[j]).sequence
  {
    hide Inv, Next, Issue;
    RunInv(cfg, states, events, i);
    RunInv(cfg, states, events, j);
    StepTame(cfg, states[i], events[i], states[i + 1]);
    StepTame(cfg, states[j], events[j], states[j + 1]);
    SequenceMonotone(cfg, states, events, i + 1, j);
  }

  /** A number already drawn that no permit carries. No step gives it a permit again. */
  predicate Spent(s: Core, q: nat) { q <= s.sequence && q !in s.permits }

  lemma {:induction false} SpentForever(cfg: Config, states: seq<Core>, events: seq<Event>, i: nat, j: nat, q: nat)
    requires Run(cfg, states, events) && i <= j < |states| && Spent(states[i], q)
    ensures Spent(states[j], q)
    decreases j - i
  {
    hide Inv, Next, Issue;
    if i < j {
      SpentForever(cfg, states, events, i, j - 1, q);
      RunInv(cfg, states, events, j - 1);
      StepTame(cfg, states[j - 1], events[j - 1], states[j]);
    }
  }

  lemma ConsumeSpends(cfg: Config, s: Core, c: Submission)
    requires Inv(cfg, s) && Consume(s, c).1.Ok?
    ensures c.sequence in s.permits && Spent(Consume(s, c).0, c.sequence)
  {
    ConsumedUnderAuthority(cfg, s, c);
    SentInRange(cfg, s, c.sequence);
    hide Inv;
  }

  lemma AcceptedIsSpent(cfg: Config, s: Core, e: Event, s': Core)
    requires Inv(cfg, s) && Next(cfg, s, e, s') && Accepts(s, e)
    ensures e.submission.sequence in s.permits && Spent(s', e.submission.sequence)
  {
    hide Inv, Consume;
    ConsumeSpends(cfg, s, e.submission);
  }

  /** No sequence number is accepted twice, whatever the replay cache has forgotten in between. */
  lemma AcceptedOnce(cfg: Config, states: seq<Core>, events: seq<Event>, i: nat, j: nat)
    requires Run(cfg, states, events) && i < j < |events|
    requires Accepts(states[i], events[i]) && Accepts(states[j], events[j])
    ensures events[i].submission.sequence != events[j].submission.sequence
  {
    hide Inv, Next, Consume;
    RunInv(cfg, states, events, i);
    RunInv(cfg, states, events, j);
    AcceptedIsSpent(cfg, states[i], events[i], states[i + 1]);
    AcceptedIsSpent(cfg, states[j], events[j], states[j + 1]);
    SpentForever(cfg, states, events, i + 1, j, events[i].submission.sequence);
  }

  /** Every permit in the registry goes back to one issue, and has stayed in the registry since. */
  lemma {:induction false} PermitOrigin(cfg: Config, states: seq<Core>, events: seq<Event>, j: nat, q: nat)
    returns (i: nat)
    requires Run(cfg, states, events) && j < |states| && q in states[j].permits
    ensures i < j && Issues(cfg, states[i], events[i])
      && IssuedPermit(cfg, states[i], events[i]) == states[j].permits[q]
    ensures forall k | i < k <= j :: q in states[k].permits && states[k].permits[q] == states[j].permits[q]
  {
    hide Inv, Next, Issue;
    i := 0;
    if j > 0 {
      RunInv(cfg, states, events, j - 1);
      StepTame(cfg, states[j - 1], events[j - 1], states[j]);
      if q in states[j - 1].permits && states[j - 1].permits[q] == states[j].permits[q] {
        i := PermitOrigin(cfg, states, events, j - 1, q);
      } else {
        i := j - 1;
      }
    }
  }

  /** No permit outlives its authority: an accepted submission names a permit this run issued, and at
      every moment from the issue to the acceptance the binding was present, healthy, not terminal and
      in the permit's own generation. */
  lemma AuthorityNeverLapsed(cfg: Config, states: seq<Core>, events: seq<Event>, j: nat) returns (i: nat)
    requires Run(cfg, states, events) && j < |events| && Accepts(states[j], events[j])
    ensures var c := events[j].submission;
            && i < j && Issues(cfg, states[i], events[i])
            && var p := IssuedPermit(cfg, states[i], events[i]);
            && p == Permit(c.bindingID, c.generation, c.requestID, c.sequence, p.expiresAt) && c.now < p.expiresAt
            && (forall k | i < k <= j ::
                  Authority(states[k].bindings, p.bindingID, p.generation) && !states[k].bindings[p.bindingID].terminal)
  {
    var c := events[j].submission;
    RunInv(cfg, states, events, j);
    ConsumedUnderAuthority(cfg, states[j], c);
    i := PermitOrigin(cfg, states, events, j, c.sequence);
    var p := states[j].permits[c.sequence];
    forall k | i < k <= j
      ensures Authority(states[k].bindings, p.bindingID, p.generation) && !states[k].bindings[p.bindingID].terminal
    {
      RunInv(cfg, states, events, k);
      HeldUnderAuthority(cfg, states[k], c.sequence);
    }
  }

  lemma HeldUnderAuthority(cfg: Config, s: Core, q: nat)
    requires Inv(cfg, s) && q in s.permits
    ensures Authority(s.bindings, s.permits[q].bindingID, s.permits[q].generation)
    ensures !s.bindings[s.permits[q].bindingID].terminal
  {
    assert RequestOk(q, s.active[q], s.bindings, s.sequence);
    assert BindingOk(s.active[q].bindingID, s.bindings[s.active[q].bindingID], s.epochs, s.snapshots);
  }

  // ---------------------------------------------------------------- ordered sending

  /** Some pass of the waiting loop lets the request through: its first one or a later one. */
  predicate MayPass(s: Core, id: Name, q: nat) {
    TakeTurn(s, id, q, false) == Passed || TakeTurn(s, id, q, true) == Passed
  }

  /** A pass of the waiting loop lets request `q` of the binding through at step `b`. */
  ghost predicate PassedAt(states: seq<Core>, events: seq<Event>, b: nat, id: Name, q: nat) {
    b < |events| && b + 1 < |states| && events[b].Prune? && q <= states[b].sequence
    && MayPass(states[b + 1], id, q)
  }

  /** Step `i` sets the send mark of request `q` of the binding. */
  ghost predicate SentAt(states: seq<Core>, events: seq<Event>, i: nat, id: Name, q: nat) {
    && i < |events| && i + 1 < |states| && events[i] == DoMarkSent(id, q)
    && q in states[i].active && states[i].active[q].bindingID == id && !states[i].active[q].sent
    && q in states[i + 1].active && states[i + 1].active[q].sent
  }

  /** Nothing below `q` is waiting, and nothing below `q` can still be registered. */
  ghost predicate Cleared(s: Core, id: Name, q: nat) {
    q <= s.sequence && TurnFree(s, id, q)
  }

  lemma ClearedStep(cfg: Config, s: Core, e: Event, s': Core, id: Name, q: nat)
    requires Inv(cfg, s) && Next(cfg, s, e, s') && Cleared(s, id, q)
    ensures Cleared(s', id, q)
  {
    hide Inv, Next;
    StepTame(cfg, s, e, s');
  }

  /** "Passed the turn, so every lower registered request is sent" is stable under every step. */
  lemma {:induction false} ClearedForever(cfg: Config, states: seq<Core>, events: seq<Event>, i: nat, j: nat, id: Name,
      q: nat)
    requires Run(cfg, states, events) && i <= j < |states| && Cleared(states[i], id, q)
    ensures Cleared(states[j], id, q)
    decreases j - i
  {
    hide Inv, Next, Cleared;
    if i < j {
      ClearedForever(cfg, states, events, i, j - 1, id, q);
      RunInv(cfg, states, events, j - 1);
      ClearedStep(cfg, states[j - 1], events[j - 1], states[j], id, q);
    }
  }

  predicate Gone(s: Core, q: nat) { q <= s.sequence && q !in s.active }

  /** A request that left the registry never comes back. */
  lemma {:induction false} GoneForever(cfg: Config, states: seq<Core>, events: seq<Event>, i: nat, j: nat, q: nat)
    requires Run(cfg, states, events) && i <= j < |states| && Gone(states[i], q)
    ensures Gone(states[j], q)
    decreases j - i
  {
    hide Inv, Next;
    if i < j {
      GoneForever(cfg, states, events, i, j - 1, q);
      RunInv(cfg, states, events, j - 1);
      StepTame(cfg, states[j - 1], events[j - 1], states[j]);
    }
  }

  lemma {:induction false} SentForever(cfg: Config, states: seq<Core>, events: seq<Event>, i: nat, j: nat, q: nat)
    requires Run(cfg, states, events) && i <= j < |states| && q <= states[i].sequence
    requires q in states[i].active ==> states[i].active[q].sent
    ensures q in states[j].active ==> states[j].active[q].sent
    decreases j - i
  {
    hide Inv, Next;
    if i < j {
      SentForever(cfg, states, events, i, j - 1, q);
      SequenceMonotone(cfg, states, events, i, j - 1);
      RunInv(cfg, states, events, j - 1);
      StepTame(cfg, states[j - 1], events[j - 1], states[j]);
    }
  }

  /** After request `q` passes its turn, no lower request of the binding is ever marked sent. */
  lemma NoLaterLowerSend(cfg: Config, states: seq<Core>, events: seq<Event>, b: nat, i: nat, j: nat, id: Name, q: nat,
      lower: nat)
    requires Run(cfg, states, events) && PassedAt(states, events, b, id, q) && b < i
    requires SentAt(states, events, i, id, q) && SentAt(states, events, j, id, lower) && lower < q
    ensures j < b + 1
  {
    hide Next, Inv;
    SequenceMonotone(cfg, states, events, b, b + 1);
    if q !in states[b + 1].active {
      GoneForever(cfg, states, events, b + 1, i, q);
    }
    if b + 1 <= j {
      ClearedForever(cfg, states, events, b + 1, j, id, q);
    }
  }

  /** Only the marking critical section sets a send mark. */
  lemma SentOnlyByMark(cfg: Config, s: Core, e: Event, s': Core, q: nat)
    requires Inv(cfg, s) && Next(cfg, s, e, s') && !e.DoMarkSent? && q in s'.active && s'.active[q].sent
    ensures q in s.active && s.active[q].sent
  {
    hide Inv;
    if !Works(e) {
      DroppedMarks(cfg, s, e, q);
      hide Apply;
    } else {
      hide Issue, Consume;
      match e
      case DoIssue(nonce, tool, env) => IssueMarks(cfg, s, nonce, tool, env, q);
      case DoConsume(c) => ConsumeMarks(s, c, q);
      case Crash(_) =>
    }
  }

  lemma DroppedMarks(cfg: Config, s: Core, e: Event, q: nat)
    requires !Works(e) && q in Apply(cfg, s, e).active
    ensures q in s.active && Apply(cfg, s, e).active[q] == s.active[q]
  {
    hide Apply;
    OthersOnlyDrop(cfg, s, e);
  }

  lemma ConsumeMarks(s: Core, c: Submission, q: nat)
    requires q in Consume(s, c).0.active
    ensures q in s.active && Consume(s, c).0.active[q].sent == s.active[q].sent
  {
    var k := c.sequence;
    if Consume(s, c).1.Ok? && k in s.active {
      assert Consume(s, c).0.active == s.active[k := s.active[k].(submitted := true)];
    } else {
      assert Consume(s, c).0.active in {s.active, s.active - {k}};
    }
    hide Consume;
  }

  lemma IssueMarks(cfg: Config, s: Core, nonce: Name, tool: Name, env: IssueEnv, q: nat)
    requires q in Issue(cfg, s, nonce, tool, env).0.active && Issue(cfg, s, nonce, tool, env).0.active[q].sent
    ensures q in s.active && s.active[q].sent
  {
    hide Admit, PruneExpired;
    PruneOnlyDrops(s, env.now);
  }

  /** No wakeup is lost: a critical section that does not close the `changed` channel leaves every request
      as it was, so it frees nobody's turn. */
  lemma QuietKeepsRequests(cfg: Config, s: Core, e: Event, s': Core)
    requires Next(cfg, s, e, s') && !e.Crash? && !Notifies(cfg, s, e)
    ensures s'.active == s.active
  {
    if Clears(e) {
      QuietClear(cfg, s, e);
      hide Apply, Notifies;
    } else {
      hide Issue, Consume, PruneNotifies, PruneExpired, ClearMaterials, Install, Listed, Replace, Unregister,
        FailRenewal, Expire, Revoke;
      match e
      case DoIssue(nonce, tool, env) => QuietIssue(cfg, s, nonce, tool, env);
      case DoConsume(c) => QuietConsume(s, c);
      case Prune(now) => QuietPrune(s, now);
      case Release(q) => assert s.active - {q} == s.active;
      case _ =>
    }
  }

  /** The critical sections that clear a binding's materials. */
  predicate Clears(e: Event) {
    e.Snapshot? || e.DoFail? || e.DoExpire? || e.DoRevoke? || e.DoUnregister? || e.Reload? || e.ReloadTool?
  }

  lemma QuietClear(cfg: Config, s: Core, e: Event)
    requires Clears(e) && !Notifies(cfg, s, e)
    ensures Apply(cfg, s, e).active == s.active
  {
    hide Issue, Consume, Listed, Bumps, OfSession, CanFail, GraceOver, PruneExpired, Installed, NewEpochs, Replace,
         ClearMaterials, Drop, MarkSent;
    ClearNobody(s);
    match e
    case Reload => assert Once(s.bindings.Keys) == map[];
    case ReloadTool(tool) => assert Once(OfSession(s.bindings, tool)) == map[];
    case DoUnregister(tool, expected) =>
      if OfSession(s.bindings, tool) == {} { assert Once(OfSession(s.bindings, tool)) == map[]; }
    case _ =>
  }

  lemma ClearNobody(s: Core)
    ensures ClearMaterials(s, map[]).active == s.active
  {
  }

  lemma QuietPrune(s: Core, now: int)
    requires !PruneNotifies(s, now)
    ensures PruneExpired(s, now).active == s.active
  {
  }

  lemma QuietConsume(s: Core, c: Submission)
    requires !(Consume(s, c).1.Ok? && c.sequence in s.active) && Consume(s, c).1 != Err(ErrLeaseExpired)
    ensures Consume(s, c).0.active == s.active
  {
  }

  lemma QuietIssue(cfg: Config, s: Core, nonce: Name, tool: Name, env: IssueEnv)
    requires !PruneNotifies(s, env.now) && !Issue(cfg, s, nonce, tool, env).1.Ok?
    ensures Issue(cfg, s, nonce, tool, env).0.active == s.active
  {
    hide PruneNotifies, PruneExpired, Admit;
    QuietPrune(s, env.now);
  }

  lemma SentInRange(cfg: Config, s: Core, q: nat)
    requires Inv(cfg, s) && q in s.active
    ensures q <= s.sequence && (s.active[q].sent ==> s.active[q].submitted)
  {
    assert RequestOk(q, s.active[q], s.bindings, s.sequence);
  }

  /** The waiting loop blocks a submitted request exactly when a lower one of its binding is registered
      and unsent; so the least unsent request goes through, whatever else is registered. */
  lemma BlockedExactly(s: Core, id: Name, q: nat, tracked: bool)
    requires q in s.active && s.active[q].bindingID == id && s.active[q].submitted
    ensures TakeTurn(s, id, q, tracked) == Blocked <==>
            exists other :: other in s.active && s.active[other].bindingID == id && other < q && !s.active[other].sent
    ensures TakeTurn(s, id, q, tracked) != Blocked ==> TakeTurn(s, id, q, tracked) == Passed
  {
  }

  function Unsent(active: map<nat, ActiveRequest>, id: Name): set<nat> {
    set q | q in active && active[q].bindingID == id && !active[q].sent
  }

  lemma {:induction false} LeastOf(numbers: set<nat>) returns (least: nat)
    requires numbers != {}
    ensures least in numbers && forall n | n in numbers :: least <= n
  {
    least :| least in numbers;
    if numbers != {least} {
      var others := numbers - {least};
      var rest := LeastOf(others);
      assert forall n | n in numbers :: n == least || n in others;
      if rest < least { least := rest; }
    }
  }

  /** Sending never deadlocks: while a binding has unsent requests there is one that only its own
      submission can delay. */
  lemma SomeoneCanSend(s: Core, id: Name) returns (q: nat)
    requires Unsent(s.active, id) != {}
    ensures q in Unsent(s.active, id)
    ensures s.active[q].submitted ==> forall tracked: bool :: TakeTurn(s, id, q, tracked) == Passed
  {
    q := LeastOf(Unsent(s.active, id));
    forall other | other in s.active && s.active[other].bindingID == id && other < q ensures s.active[other].sent {
      assert other !in Unsent(s.active, id);
    }
  }
}
