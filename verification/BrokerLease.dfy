/** The lease and grace lifecycle of a binding over whole runs. */
module BrokerLease {
  import opened BrokerCore
  import opened BrokerInvariant
  import opened BrokerRuns
  import opened Options

  // ---------------------------------------------------------------- how a step changes a binding

  predicate TouchesBindings(e: Event) { AboutLease(e) || e.Snapshot? || e.Crash? }

  lemma IssueKeepsBindings(cfg: Config, s: Core, nonce: Name, tool: Name, env: IssueEnv)
    ensures var s' := Issue(cfg, s, nonce, tool, env).0; s'.bindings == s.bindings && s'.snapshots == s.snapshots
  {
    hide Admit, LivePermits, LiveRequests, NextSequence, PermitExpiry;
  }

  lemma OthersKeepBindings(cfg: Config, s: Core, e: Event)
    requires !TouchesBindings(e)
    ensures Apply(cfg, s, e).bindings == s.bindings && Apply(cfg, s, e).snapshots == s.snapshots
  {
    hide Issue, Consume, PermitsWithout, RequestsWithout, Bumped, LivePermits, LiveRequests, OfSession, Once, Install,
         Replace, Renew, FailRenewal, Expire, Revoke, Listed;
    if e.DoIssue? {
      IssueKeepsBindings(cfg, s, e.nonce, e.tool, e.env);
    } else if e.DoConsume? {
      ConsumeKeepsBindings(s, e.submission);
    }
  }

  lemma ConsumeKeepsBindings(s: Core, c: Submission)
    ensures Consume(s, c).0.bindings == s.bindings && Consume(s, c).0.snapshots == s.snapshots
  {
  }

  /** The same object in the same generation, terminal if it was. */
  predicate SameObject(b: BindingState, b': BindingState) {
    && b'.serial == b.serial && b'.metadata.generation == b.metadata.generation
    && (b.terminal && b.terminalGeneration == b.metadata.generation ==>
          b'.terminal && b'.terminalGeneration == b'.metadata.generation)
  }

  predicate BindingKept(s: Core, s': Core, id: Name) {
    id in s.bindings ==> id in s'.bindings && s'.snapshots == s.snapshots && SameObject(s.bindings[id], s'.bindings[id])
  }

  lemma NothingChanged(s: Core, id: Name)
    ensures BindingKept(s, s, id)
  {
  }

  lemma ReplacedBinding(s: Core, k: Name, b: BindingState, clearings: nat, id: Name)
    requires k in s.bindings && SameObject(s.bindings[k], b)
    ensures BindingKept(s, Replace(s, k, b, clearings), id)
  {
    hide Replace;
    ReplaceFrame(s, k, b, clearings);
  }

  lemma TerminateSame(cfg: Config, b: BindingState, now: int)
    ensures SameObject(b, Terminate(b, Expired)) && SameObject(b, Terminate(b, Revoked))
    ensures SameObject(b, EnterGrace(cfg, b, now))
  {
  }

  lemma RenewedBinding(s: Core, r: Ref, generation: nat, answer: Renewal, id: Name)
    ensures BindingKept(s, Renew(s, r, generation, answer), id)
  {
    NothingChanged(s, id);
    if Attached(s, r) {
      assert SameObject(s.bindings[r.id], Renewed(s.bindings[r.id], answer));
    }
    hide SameObject, Renewed;
  }

  lemma FailedBinding(cfg: Config, s: Core, r: Ref, now: int, id: Name)
    ensures BindingKept(s, FailRenewal(cfg, s, r, now), id)
  {
    hide BindingKept, Replace, GraceOver, Terminate, EnterGrace, SameObject, CanFail;
    NothingChanged(s, id);
    if Attached(s, r) {
      TerminateSame(cfg, s.bindings[r.id], now);
      ReplacedBinding(s, r.id, Terminate(s.bindings[r.id], Expired), 2, id);
      ReplacedBinding(s, r.id, EnterGrace(cfg, s.bindings[r.id], now), 1, id);
    }
  }

  lemma EndedBinding(cfg: Config, s: Core, r: Ref, k: Name, generation: nat, id: Name)
    ensures BindingKept(s, Expire(s, r), id) && BindingKept(s, Revoke(s, k, generation), id)
  {
    hide BindingKept, Replace, Terminate, SameObject;
    NothingChanged(s, id);
    if Attached(s, r) {
      TerminateSame(cfg, s.bindings[r.id], 0);
      ReplacedBinding(s, r.id, Terminate(s.bindings[r.id], Expired), 1, id);
    }
    if k in s.bindings {
      TerminateSame(cfg, s.bindings[k], 0);
      ReplacedBinding(s, k, Terminate(s.bindings[k], Revoked), 1, id);
    }
  }

  /** A lease step changes at most the binding it names, and never its generation or its object. */
  lemma LeaseBinding(cfg: Config, s: Core, e: Event, id: Name)
    requires AboutLease(e)
    ensures BindingKept(s, Apply(cfg, s, e), id)
  {
    hide BindingKept, Renew, FailRenewal, Expire, Revoke, Issue, Consume, Install, Listed, Drop, PruneExpired, MarkSent,
         Register, Authorize, Unregister, ClearMaterials;
    match e
    case DoRenew(r, generation, answer) => RenewedBinding(s, r, generation, answer, id);
    case DoFail(r, now) => FailedBinding(cfg, s, r, now, id);
    case DoExpire(r) => EndedBinding(cfg, s, r, r.id, 0, id);
    case DoRevoke(k, generation) => EndedBinding(cfg, s, Ref(k, 0), k, generation, id);
  }

  lemma ReplaceFrame(s: Core, id: Name, b: BindingState, clearings: nat)
    ensures Replace(s, id, b, clearings).bindings == s.bindings[id := b]
    ensures Replace(s, id, b, clearings).snapshots == s.snapshots
  {
  }

  lemma ClearFrame(s: Core, bumps: map<Name, nat>)
    ensures ClearMaterials(s, bumps).bindings == s.bindings && ClearMaterials(s, bumps).snapshots == s.snapshots
  {
  }

  lemma SnapshotBinding(cfg: Config, s: Core, offers: seq<Offer>, id: Name)
    requires id in s.bindings && id in Apply(cfg, s, Snapshot(offers)).bindings
    ensures || Apply(cfg, s, Snapshot(offers)).bindings[id] == s.bindings[id]
            || (Listed(offers).Some? && id in Listed(offers).value
                && Apply(cfg, s, Snapshot(offers)).bindings[id] == Merge(s.bindings[id], Listed(offers).value[id]))
  {
    hide ClearMaterials, Bumps, NewEpochs, Merge;
  }

  // ---------------------------------------------------------------- terminal generations

  /** Generation `g` of the binding is over: what is listed now is newer, or terminal. */
  predicate Retired(s: Core, id: Name, g: nat) {
    && id in s.bindings
    && g <= s.bindings[id].metadata.generation
    && (s.bindings[id].metadata.generation == g ==> s.bindings[id].terminal && s.bindings[id].terminalGeneration == g)
  }

  lemma RetiredStep(cfg: Config, s: Core, e: Event, s': Core, id: Name, g: nat)
    requires Next(cfg, s, e, s') && Retired(s, id, g) && id in s'.bindings
    ensures Retired(s', id, g)
  {
    hide Apply;
    if AboutLease(e) {
      LeaseBinding(cfg, s, e, id);
    } else if e.Snapshot? {
      SnapshotBinding(cfg, s, e.offers, id);
    } else if e.Crash? {
      CrashEmpties(cfg, s, e);
    } else {
      OthersKeepBindings(cfg, s, e);
    }
  }

  lemma CrashEmpties(cfg: Config, s: Core, e: Event)
    requires e.Crash?
    ensures Apply(cfg, s, e).bindings == map[]
  {
  }

  /** No snapshot of the same or an older generation, and nothing else, revives a terminal generation
      while its ID stays listed. */
  lemma {:induction false} RetiredWhileListed(cfg: Config, states: seq<Core>, events: seq<Event>, i: nat, j: nat,
      id: Name, g: nat)
    requires Run(cfg, states, events) && i <= j < |states| && Retired(states[i], id, g)
    requires forall k | i <= k <= j :: id in states[k].bindings
    ensures Retired(states[j], id, g)
    decreases j - i
  {
    hide Next;
    if i < j {
      RetiredWhileListed(cfg, states, events, i, j - 1, id, g);
      RetiredStep(cfg, states[j - 1], events[j - 1], states[j], id, g);
    }
  }

  /** So while the ID stays listed, a retired generation is granted no further permit. */
  lemma NoPermitAfterRetirement(cfg: Config, states: seq<Core>, events: seq<Event>, i: nat, j: nat, id: Name, g: nat)
    requires Run(cfg, states, events) && i <= j < |events| && Retired(states[i], id, g)
    requires forall k | i <= k <= j :: id in states[k].bindings
    requires Issues(cfg, states[j], events[j]) && IssuedPermit(cfg, states[j], events[j]).bindingID == id
    ensures g < IssuedPermit(cfg, states[j], events[j]).generation
  {
    hide Next, Inv, Issue;
    RetiredWhileListed(cfg, states, events, i, j, id, g);
    RunInv(cfg, states, events, j);
    IssuedUnderAuthority(cfg, states[j], events[j].nonce, events[j].tool, events[j].env);
  }

  /** Revoking retires the current generation, whichever of the two spellings names it. */
  lemma RevokeRetires(cfg: Config, s: Core, id: Name, generation: nat)
    requires id in s.bindings && (generation == 0 || generation == s.bindings[id].metadata.generation)
    ensures Retired(Apply(cfg, s, DoRevoke(id, generation)), id, s.bindings[id].metadata.generation)
  {
    ClearFrame(s, map[id := 1]);
    hide ClearMaterials;
  }

  /** How long the mark lasts, exactly: a step keeps it if and only if the ID stays listed. */
  lemma MarkKeptExactly(cfg: Config, s: Core, e: Event, s': Core, id: Name, g: nat)
    requires Next(cfg, s, e, s') && Retired(s, id, g)
    ensures Retired(s', id, g) <==> id in s'.bindings
  {
    if id in s'.bindings {
      RetiredStep(cfg, s, e, s', id, g);
    }
    hide Apply;
  }

  lemma ReplaceKeys(s: Core, id: Name, b: BindingState, clearings: nat)
    requires id in s.bindings
    ensures Replace(s, id, b, clearings).bindings.Keys == s.bindings.Keys
  {
    hide Replace;
    ReplaceFrame(s, id, b, clearings);
    UpdateKeys(s.bindings, id, b);
  }

  lemma FailKeys(cfg: Config, s: Core, r: Ref, now: int)
    ensures FailRenewal(cfg, s, r, now).bindings.Keys == s.bindings.Keys
  {
    hide Replace, Terminate, EnterGrace, CanFail, GraceOver;
    if Attached(s, r) {
      ReplaceKeys(s, r.id, Terminate(s.bindings[r.id], Expired), 2);
      ReplaceKeys(s, r.id, EnterGrace(cfg, s.bindings[r.id], now), 1);
    }
  }

  lemma EndKeys(s: Core, r: Ref, k: Name, generation: nat)
    ensures Expire(s, r).bindings.Keys == s.bindings.Keys && Revoke(s, k, generation).bindings.Keys == s.bindings.Keys
  {
    hide Replace, Terminate;
    if Attached(s, r) { ReplaceKeys(s, r.id, Terminate(s.bindings[r.id], Expired), 1); }
    if k in s.bindings { ReplaceKeys(s, k, Terminate(s.bindings[k], Revoked), 1); }
  }

  lemma RenewKeys(s: Core, r: Ref, generation: nat, answer: Renewal)
    ensures Renew(s, r, generation, answer).bindings.Keys == s.bindings.Keys
  {
    hide Renewed;
    if Attached(s, r) { UpdateKeys(s.bindings, r.id, Renewed(s.bindings[r.id], answer)); }
  }

  lemma UpdateKeys(m: map<Name, BindingState>, id: Name, b: BindingState)
    requires id in m
    ensures m[id := b].Keys == m.Keys
  {
  }

  /** Lease steps list and drop no ID. */
  lemma LeaseKeys(cfg: Config, s: Core, e: Event)
    requires AboutLease(e)
    ensures Apply(cfg, s, e).bindings.Keys == s.bindings.Keys
  {
    hide Renew, FailRenewal, Expire, Revoke, Issue, Consume, Install, Listed, Drop, PruneExpired, MarkSent,
      Register, Authorize, Unregister, ClearMaterials;
    match e
    case DoRenew(r, generation, answer) => RenewKeys(s, r, generation, answer);
    case DoFail(r, now) => FailKeys(cfg, s, r, now);
    case DoExpire(r) => EndKeys(s, r, r.id, 0);
    case DoRevoke(k, generation) => EndKeys(s, Ref(k, 0), k, generation);
  }

  /** An ID that was not listed is listed without a mark. */
  lemma NewlyListed(cfg: Config, s: Core, e: Event, s': Core, id: Name)
    requires Next(cfg, s, e, s') && id !in s.bindings && id in s'.bindings
    ensures !s'.bindings[id].terminal
    ensures e.Snapshot? && Listed(e.offers).Some? && id in Listed(e.offers).value
    ensures s'.bindings[id].metadata == Listed(e.offers).value[id]
  {
    if AboutLease(e) {
      LeaseKeys(cfg, s, e);
      hide Apply;
    } else if e.Snapshot? {
      hide ClearMaterials, Bumps, NewEpochs, Merge, Listed, Issue, Consume;
    } else if !e.Crash? {
      OthersKeepBindings(cfg, s, e);
      hide Apply;
    }
  }

  /** What is left of the mark when a dropped ID comes back, exactly: generation `g` counts as retired if and
      only if the ID comes back in a newer one. */
  lemma RelistedExactly(cfg: Config, s: Core, e: Event, s': Core, id: Name, g: nat)
    requires Next(cfg, s, e, s') && id !in s.bindings && id in s'.bindings
    ensures Retired(s', id, g) <==> g < s'.bindings[id].metadata.generation
  {
    NewlyListed(cfg, s, e, s', id);
    hide Apply;
  }

  lemma SnapshotLists(cfg: Config, s: Core, offers: seq<Offer>, id: Name)
    requires Listed(offers).Some?
    ensures id in Apply(cfg, s, Snapshot(offers)).bindings <==> id in Listed(offers).value
    ensures Next(cfg, s, Snapshot(offers), Apply(cfg, s, Snapshot(offers)))
  {
    hide ClearMaterials, Bumps, NewEpochs, Merge, Listed, Issue, Consume;
    ClearReplayFrame(s);
  }

  lemma ClearReplayFrame(s: Core)
    ensures forall bumps :: ClearMaterials(s, bumps).consumed == s.consumed
  {
  }

  /** The mark lives in the listed object only. A retired ID that some list drops, whatever else it lists,
      comes back without the mark in the very generation that had been retired, and with its authority if
      it is listed as live. */
  lemma DroppedMarkIsForgotten(cfg: Config, s: Core, id: Name, g: nat, dropping: seq<Offer>, offers: seq<Offer>)
    requires Retired(s, id, g) && Listed(dropping).Some? && id !in Listed(dropping).value
    requires Listed(offers).Some? && id in Listed(offers).value && Listed(offers).value[id].generation == g
    ensures var again := Apply(cfg, Apply(cfg, s, Snapshot(dropping)), Snapshot(offers));
            && id in again.bindings && again.bindings[id].metadata == Listed(offers).value[id]
            && !again.bindings[id].terminal && !Retired(again, id, g)
            && (again.bindings[id].metadata.status == Active && again.bindings[id].metadata.health == Healthy ==>
                  Authority(again.bindings, id, g))
  {
    hide Apply, Next, Listed;
    var dropped := Apply(cfg, s, Snapshot(dropping));
    SnapshotLists(cfg, s, dropping, id);
    SnapshotLists(cfg, dropped, offers, id);
    NewlyListed(cfg, dropped, Snapshot(offers), Apply(cfg, dropped, Snapshot(offers)), id);
  }

  // ---------------------------------------------------------------- grace

  /** Generation `g` of the object is in renewal grace under this deadline. */
  predicate InGrace(s: Core, r: Ref, g: nat, d: Stamp) {
    && Attached(s, r) && !s.bindings[r.id].terminal
    && var m := s.bindings[r.id].metadata;
       m.generation == g && m.status == Active && m.health == RenewalGrace && m.graceUntil == d
  }

  predicate Dead(s: Core, r: Ref, g: nat) {
    && Attached(s, r) && s.bindings[r.id].terminal
    && s.bindings[r.id].metadata.generation == g && s.bindings[r.id].terminalGeneration == g
  }

  /** Neither a renewal answer nor a snapshot reaches the object, and the process goes on. A snapshot
      that is refused, or whose entry for the binding is stale, does not reach it. */
  predicate Undisturbed(s: Core, e: Event, r: Ref) {
    && !e.Crash?
    && (e.DoRenew? ==> e.ref != r)
    && (e.Snapshot? && Listed(e.offers).Some? ==>
          r.id in Listed(e.offers).value
            && (r.id in s.bindings ==> Stale(s.bindings[r.id], Listed(e.offers).value[r.id])))
  }

  /** A failure at this time is not before the deadline; one that cannot be read is behind every failure. */
  predicate Reached(d: Stamp, now: int) { d.At? ==> d.time <= now }

  /** The steps that end a grace period: a failure at or after the deadline, an expiry, a revocation. */
  predicate EndsGrace(e: Event, r: Ref, g: nat, d: Stamp) {
    || (e.DoFail? && e.ref == r && Reached(d, e.now))
    || (e.DoExpire? && e.ref == r)
    || (e.DoRevoke? && e.id == r.id && (e.generation == 0 || e.generation == g))
  }

  /** The deadline under which a failure enters grace: one that is set already is kept, readable or not. */
  function Deadline(cfg: Config, b: BindingState, now: int): (d: Stamp)
    ensures d.At? || d == Malformed
  {
    if b.metadata.graceUntil in {Missing, Blank} then At(now + cfg.renewGrace) else b.metadata.graceUntil
  }

  lemma FirstFailure(cfg: Config, s: Core, r: Ref, now: int)
    requires Attached(s, r) && CanFail(s.bindings[r.id]) && !GraceOver(s.bindings[r.id], now)
    ensures InGrace(Apply(cfg, s, DoFail(r, now)), r, s.bindings[r.id].metadata.generation,
      Deadline(cfg, s.bindings[r.id], now))
  {
    ClearFrame(s, map[r.id := 1]);
    hide ClearMaterials;
  }

  lemma LateFailure(cfg: Config, s: Core, r: Ref, now: int)
    requires Attached(s, r) && CanFail(s.bindings[r.id]) && GraceOver(s.bindings[r.id], now)
    ensures Dead(Apply(cfg, s, DoFail(r, now)), r, s.bindings[r.id].metadata.generation)
  {
    ClearFrame(s, map[r.id := 2]);
    hide ClearMaterials;
  }

  /** What a failure does, exactly. It ends the generation if and only if grace is over; and a failure that
      does not fixes the deadline at its own time plus the grace period if and only if none was set, or
      that very one. Both tests look at the state before the failure. */
  lemma FailsExactly(cfg: Config, s: Core, r: Ref, now: int)
    requires Attached(s, r) && CanFail(s.bindings[r.id])
    ensures var b, s' := s.bindings[r.id], Apply(cfg, s, DoFail(r, now));
            && Attached(s', r)
            && (Dead(s', r, b.metadata.generation) <==> GraceOver(b, now))
            && (!GraceOver(b, now) ==>
                  (InGrace(s', r, b.metadata.generation, At(now + cfg.renewGrace)) <==>
                   b.metadata.graceUntil in {Missing, Blank, At(now + cfg.renewGrace)}))
  {
    hide Apply, GraceOver, CanFail;
    if GraceOver(s.bindings[r.id], now) {
      LateFailure(cfg, s, r, now);
    } else {
      FirstFailure(cfg, s, r, now);
    }
  }

  /** A renewal answer that leaves a deadline behind makes the next failure keep that older deadline. */
  lemma LeftoverDeadlineIsKept(cfg: Config, s: Core, r: Ref, now: int)
    requires Attached(s, r) && CanFail(s.bindings[r.id]) && !GraceOver(s.bindings[r.id], now)
    requires s.bindings[r.id].metadata.graceUntil !in {Missing, Blank}
    ensures var m := s.bindings[r.id].metadata; InGrace(Apply(cfg, s, DoFail(r, now)), r, m.generation, m.graceUntil)
  {
    hide Apply, GraceOver, CanFail;
    FirstFailure(cfg, s, r, now);
  }

  /** A renewal answer can leave a deadline behind that cannot be read. The next failure then enters grace
      with it, and the one after that ends the generation at once, whatever the clock says. */
  lemma UnreadableDeadlineEnds(cfg: Config, s: Core, r: Ref, now: int, later: int)
    requires Attached(s, r) && CanFail(s.bindings[r.id]) && s.bindings[r.id].metadata.health == Healthy
    requires s.bindings[r.id].metadata.graceUntil == Malformed
    ensures var g, once := s.bindings[r.id].metadata.generation, Apply(cfg, s, DoFail(r, now));
            InGrace(once, r, g, Malformed) && Dead(Apply(cfg, once, DoFail(r, later)), r, g)
  {
    FirstFailure(cfg, s, r, now);
    var once := Apply(cfg, s, DoFail(r, now));
    hide Apply;
    LateFailure(cfg, once, r, later);
  }

  lemma GraceLeaseStep(cfg: Config, s: Core, e: Event, r: Ref, g: nat, d: Stamp)
    requires AboutLease(e) && Undisturbed(s, e, r) && InGrace(s, r, g, d) && (d.At? || d == Malformed)
    ensures if EndsGrace(e, r, g, d) then Dead(Apply(cfg, s, e), r, g) else InGrace(Apply(cfg, s, e), r, g, d)
  {
    hide Replace, Issue, Consume, Install, Listed, Drop, PruneExpired, MarkSent, Register, Authorize, Unregister,
      ClearMaterials;
    match e
    case DoRenew(k, generation, answer) =>
    case DoFail(k, now) =>
      if Attached(s, k) {
        ReplaceFrame(s, k.id, Terminate(s.bindings[k.id], Expired), 2);
        ReplaceFrame(s, k.id, EnterGrace(cfg, s.bindings[k.id], now), 1);
      }
    case DoExpire(k) => if Attached(s, k) { ReplaceFrame(s, k.id, Terminate(s.bindings[k.id], Expired), 1); }
    case DoRevoke(k, generation) => if k in s.bindings { ReplaceFrame(s, k, Terminate(s.bindings[k], Revoked), 1); }
  }

  lemma UndisturbedSnapshot(cfg: Config, s: Core, offers: seq<Offer>, r: Ref)
    requires Attached(s, r) && Undisturbed(s, Snapshot(offers), r)
    ensures r.id in Apply(cfg, s, Snapshot(offers)).bindings
    ensures Apply(cfg, s, Snapshot(offers)).bindings[r.id] == s.bindings[r.id]
  {
    hide ClearMaterials, Bumps, NewEpochs;
  }

  lemma GraceStep(cfg: Config, s: Core, e: Event, s': Core, r: Ref, g: nat, d: Stamp)
    requires Next(cfg, s, e, s') && Undisturbed(s, e, r) && (d.At? || d == Malformed)
    ensures InGrace(s, r, g, d) ==> if EndsGrace(e, r, g, d) then Dead(s', r, g) else InGrace(s', r, g, d)
    ensures Dead(s, r, g) ==> Dead(s', r, g)
  {
    hide Apply;
    if InGrace(s, r, g, d) || Dead(s, r, g) {
      if AboutLease(e) {
        LeaseBinding(cfg, s, e, r.id);
        if InGrace(s, r, g, d) { GraceLeaseStep(cfg, s, e, r, g, d); }
      } else if e.Snapshot? {
        UndisturbedSnapshot(cfg, s, e.offers, r);
      } else {
        OthersKeepBindings(cfg, s, e);
      }
    }
  }

  ghost predicate EndedBetween(events: seq<Event>, i: nat, j: nat, r: Ref, g: nat, d: Stamp) {
    exists k :: i < k < j <= |events| && EndsGrace(events[k], r, g, d)
  }

  /** From a first failure, as long as no renewal answer or snapshot reaches the binding: the deadline it
      enters grace under never moves; the generation is terminal from the first failure at or after the
      deadline (or an expiry or revocation) on, and not before. With none set before, the deadline is the
      first failure's time plus the grace period. */
  lemma {:induction false} GraceRun(cfg: Config, states: seq<Core>, events: seq<Event>, i: nat, j: nat, r: Ref, t: int)
    requires Run(cfg, states, events) && i < j <= |events| && events[i] == DoFail(r, t)
    requires Attached(states[i], r) && CanFail(states[i].bindings[r.id]) && !GraceOver(states[i].bindings[r.id], t)
    requires forall k | i < k < j :: Undisturbed(states[k], events[k], r)
    ensures var g, d := states[i].bindings[r.id].metadata.generation, Deadline(cfg, states[i].bindings[r.id], t);
            if EndedBetween(events, i, j, r, g, d) then Dead(states[j], r, g) else InGrace(states[j], r, g, d)
    decreases j - i
  {
    hide Next, Apply;
    var g, d := states[i].bindings[r.id].metadata.generation, Deadline(cfg, states[i].bindings[r.id], t);
    if j == i + 1 {
      FirstFailure(cfg, states[i], r, t);
      AppliedBindings(cfg, states[i], events[i], states[j], r);
    } else {
      GraceRun(cfg, states, events, i, j - 1, r, t);
      hide Deadline;
      GraceStep(cfg, states[j - 1], events[j - 1], states[j], r, g, d);
      if EndedBetween(events, i, j - 1, r, g, d) {
        var k :| i < k < j - 1 <= |events| && EndsGrace(events[k], r, g, d);
        assert i < k < j <= |events|;
      }
    }
  }

  lemma AppliedBindings(cfg: Config, s: Core, e: Event, s': Core, r: Ref)
    requires Next(cfg, s, e, s')
    ensures s'.bindings == Apply(cfg, s, e).bindings
  {
    hide Apply;
  }

  /** No permit is issued for a binding in grace or past it. */
  lemma NoPermitInGrace(cfg: Config, states: seq<Core>, events: seq<Event>, j: nat, r: Ref, g: nat, d: Stamp)
    requires Run(cfg, states, events) && j < |events|
    requires InGrace(states[j], r, g, d) || Dead(states[j], r, g)
    ensures Issues(cfg, states[j], events[j]) ==> IssuedPermit(cfg, states[j], events[j]).bindingID != r.id
  {
    hide Next, Inv, Issue;
    if Issues(cfg, states[j], events[j]) {
      RunInv(cfg, states, events, j);
      IssuedUnderAuthority(cfg, states[j], events[j].nonce, events[j].tool, events[j].env);
    }
  }
}
