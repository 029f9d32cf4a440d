/** What every critical section of the broker keeps. Each clause of the invariant names only the
    fields it is about, so a step that leaves those fields alone keeps the clause outright. */
module BrokerInvariant {
  import opened BrokerCore
  import opened Options

  predicate BindingOk(id: Name, b: BindingState, epochs: map<Ref, nat>, snapshots: nat) {
    && b.metadata.bindingID == id
    && b.metadata.generation > 0
    && b.serial < snapshots
    && Ref(id, b.serial) in epochs
    && (b.terminal ==> b.metadata.status in {Expired, Revoked} && b.terminalGeneration == b.metadata.generation)
  }

  ghost predicate BindingsOk(bindings: map<Name, BindingState>, epochs: map<Ref, nat>, snapshots: nat) {
    && (forall id | id in bindings :: BindingOk(id, bindings[id], epochs, snapshots))
    && (forall r | r in epochs :: r.serial < snapshots)
  }

  /** The permits are exactly the unsubmitted active requests, under the same identity. */
  ghost predicate PermitsOk(permits: map<nat, Permit>, active: map<nat, ActiveRequest>) {
    && (forall q | q in permits :: q in active && !active[q].submitted && permits[q] == PermitOf(active[q]))
    && (forall q | q in active :: active[q].submitted || q in permits)
  }

  function PermitOf(a: ActiveRequest): Permit {
    Permit(a.bindingID, a.generation, a.requestID, a.sequence, a.expiresAt)
  }

  /** The request still has its authority, and its number was drawn by this counter. */
  predicate RequestOk(q: nat, a: ActiveRequest, bindings: map<Name, BindingState>, sequence: nat) {
    && a.sequence == q && 0 < q <= sequence
    && (a.sent ==> a.submitted)
    && Authority(bindings, a.bindingID, a.generation)
  }

  ghost predicate RequestsOk(active: map<nat, ActiveRequest>, bindings: map<Name, BindingState>, sequence: nat) {
    forall q | q in active :: RequestOk(q, active[q], bindings, sequence)
  }

  ghost predicate ParallelOk(cfg: Config, active: map<nat, ActiveRequest>) {
    forall id :: |OfBinding(active, id)| <= cfg.maxParallel
  }

  ghost predicate ReplayOk(consumed: map<nat, int>, permits: map<nat, Permit>, sequence: nat) {
    forall q | q in consumed :: q <= sequence && q !in permits
  }

  /** The capability maps are inverse to each other and only registered sessions have a peer. */
  ghost predicate SessionsOk(sessions: map<Name, Name>, nonces: map<Name, Name>, peerUIDs: map<Name, nat>) {
    && (forall t | t in sessions :: sessions[t] in nonces && nonces[sessions[t]] == t)
    && (forall n | n in nonces :: nonces[n] in sessions && sessions[nonces[n]] == n)
    && peerUIDs.Keys <= sessions.Keys
  }

  /** The request belongs to a registered tool session. */
  predicate Registered(a: ActiveRequest, bindings: map<Name, BindingState>, sessions: map<Name, Name>) {
    a.bindingID in bindings && bindings[a.bindingID].metadata.toolSession in sessions
  }

  ghost predicate RegisteredOk(
    active: map<nat, ActiveRequest>, bindings: map<Name, BindingState>, sessions: map<Name, Name>)
  {
    forall q | q in active :: Registered(active[q], bindings, sessions)
  }

  ghost predicate Inv(cfg: Config, s: Core) {
    && BindingsOk(s.bindings, s.epochs, s.snapshots)
    && PermitsOk(s.permits, s.active)
    && RequestsOk(s.active, s.bindings, s.sequence)
    && ParallelOk(cfg, s.active)
    && ReplayOk(s.consumed, s.permits, s.sequence)
    && s.disk == s.sequence <= MAX_UINT64
    && SessionsOk(s.sessions, s.nonces, s.peerUIDs)
    && (!s.closed ==> RegisteredOk(s.active, s.bindings, s.sessions))
  }

  // ---------------------------------------------------------------- clauses about the requests

  lemma {:induction false} SubsetSize<T>(a: set<T>, b: set<T>)
    requires a <= b
    ensures |a| <= |b|
  {
    if a != {} {
      var x :| x in a;
      SubsetSize(a - {x}, b - {x});
    }
  }

  /** Removing requests, or changing anything but their owners, keeps the slot bound. */
  lemma KeepParallel(cfg: Config, active: map<nat, ActiveRequest>, active': map<nat, ActiveRequest>)
    requires ParallelOk(cfg, active)
    requires forall q | q in active' :: q in active && active'[q].bindingID == active[q].bindingID
    ensures ParallelOk(cfg, active')
  {
    forall id ensures |OfBinding(active', id)| <= cfg.maxParallel {
      SubsetSize(OfBinding(active', id), OfBinding(active, id));
    }
  }

  lemma OneMoreSlot(cfg: Config, active: map<nat, ActiveRequest>, q: nat, a: ActiveRequest)
    requires ParallelOk(cfg, active) && q !in active && |OfBinding(active, a.bindingID)| < cfg.maxParallel
    ensures ParallelOk(cfg, active[q := a])
  {
    var active' := active[q := a];
    forall id ensures |OfBinding(active', id)| <= cfg.maxParallel {
      if id == a.bindingID {
        assert OfBinding(active', id) == OfBinding(active, id) + {q};
      } else {
        assert OfBinding(active', id) == OfBinding(active, id);
      }
    }
  }

  /** Requests that survive a step under bindings that still authorise them. */
  lemma KeepRequests(active: map<nat, ActiveRequest>, active': map<nat, ActiveRequest>,
                     bindings: map<Name, BindingState>, bindings': map<Name, BindingState>, sequence: nat)
    requires RequestsOk(active, bindings, sequence) && Submap(active', active)
    requires forall q | q in active' :: Authority(bindings', active'[q].bindingID, active'[q].generation)
    ensures RequestsOk(active', bindings', sequence)
  {
    forall q | q in active' ensures RequestOk(q, active'[q], bindings', sequence) {
      assert RequestOk(q, active[q], bindings, sequence);
    }
  }

  /** Dropping requests together with their permits keeps the invariant. */
  lemma ShrinkKeeps(cfg: Config, s: Core, s': Core)
    requires Inv(cfg, s)
    requires s' == s.(active := s'.active, permits := s'.permits, consumed := s'.consumed)
    requires Submap(s'.active, s.active) && Submap(s'.consumed, s.consumed) && Submap(s'.permits, s.permits)
    requires PermitsOk(s'.permits, s'.active)
    ensures Inv(cfg, s')
  {
    KeepParallel(cfg, s.active, s'.active);
    assert ReplayOk(s'.consumed, s'.permits, s'.sequence);
    assert RequestsOk(s'.active, s'.bindings, s'.sequence) by {
      forall q | q in s'.active ensures RequestOk(q, s'.active[q], s'.bindings, s'.sequence) {
        assert RequestOk(q, s.active[q], s.bindings, s.sequence);
      }
    }
    assert !s.closed ==> RegisteredOk(s'.active, s'.bindings, s'.sessions);
    hide BindingsOk, PermitsOk, RequestsOk, ParallelOk, ReplayOk, SessionsOk, RegisteredOk;
  }

  // ---------------------------------------------------------------- clearing and pruning

  lemma BumpedBindings(bindings: map<Name, BindingState>, epochs: map<Ref, nat>, snapshots: nat, bumps: map<Name, nat>)
    requires BindingsOk(bindings, epochs, snapshots)
    ensures BindingsOk(bindings, Bumped(epochs, bindings, bumps), snapshots)
  {
    forall id | id in bindings ensures BindingOk(id, bindings[id], Bumped(epochs, bindings, bumps), snapshots) {
      assert BindingOk(id, bindings[id], epochs, snapshots);
    }
  }

  lemma EpochsKeep(cfg: Config, s: Core, bumps: map<Name, nat>)
    requires Inv(cfg, s)
    ensures Inv(cfg, s.(epochs := Bumped(s.epochs, s.bindings, bumps)))
  {
    BumpedBindings(s.bindings, s.epochs, s.snapshots, bumps);
    hide BindingsOk, PermitsOk, RequestsOk, ParallelOk, ReplayOk, SessionsOk, RegisteredOk, Bumped;
  }

  lemma ClearedPermits(permits: map<nat, Permit>, active: map<nat, ActiveRequest>, ids: set<Name>)
    requires PermitsOk(permits, active)
    ensures PermitsOk(PermitsWithout(permits, ids), RequestsWithout(active, ids))
  {
  }

  lemma ClearKeeps(cfg: Config, s: Core, bumps: map<Name, nat>)
    requires Inv(cfg, s)
    ensures Inv(cfg, ClearMaterials(s, bumps))
  {
    var s1 := s.(epochs := Bumped(s.epochs, s.bindings, bumps));
    EpochsKeep(cfg, s, bumps);
    ClearedPermits(s.permits, s.active, bumps.Keys);
    hide Inv, PermitsOk, Bumped;
    ShrinkKeeps(cfg, s1, ClearMaterials(s, bumps));
  }

  lemma LivePermitsOk(permits: map<nat, Permit>, active: map<nat, ActiveRequest>, now: int)
    requires PermitsOk(permits, active)
    ensures PermitsOk(LivePermits(permits, now), LiveRequests(active, permits, now))
  {
  }

  lemma PruneKeeps(cfg: Config, s: Core, now: int)
    requires Inv(cfg, s)
    ensures Inv(cfg, PruneExpired(s, now))
  {
    LivePermitsOk(s.permits, s.active, now);
    hide Inv, PermitsOk;
    ShrinkKeeps(cfg, s, PruneExpired(s, now));
  }

  // ---------------------------------------------------------------- replacing bindings

  /** New bindings authorise the request as the old ones did, for the same tool session. */
  predicate StillServed(a: ActiveRequest, bindings: map<Name, BindingState>, bindings': map<Name, BindingState>) {
    && Authority(bindings', a.bindingID, a.generation)
    && a.bindingID in bindings
    && bindings'[a.bindingID].metadata.toolSession == bindings[a.bindingID].metadata.toolSession
  }

  /** Installing new bindings is harmless when the surviving requests keep their authority and session. */
  lemma RebindKeeps(cfg: Config, s: Core, s': Core)
    requires Inv(cfg, s)
    requires s' == s.(bindings := s'.bindings, epochs := s'.epochs, snapshots := s'.snapshots)
    requires BindingsOk(s'.bindings, s'.epochs, s'.snapshots)
    requires forall q | q in s.active :: StillServed(s.active[q], s.bindings, s'.bindings)
    ensures Inv(cfg, s')
  {
    KeepRequests(s.active, s'.active, s.bindings, s'.bindings, s.sequence);
    assert !s.closed ==> RegisteredOk(s'.active, s'.bindings, s'.sessions);
    hide BindingsOk, PermitsOk, RequestsOk, ParallelOk, ReplayOk, SessionsOk, RegisteredOk;
  }

  /** What clearing leaves belongs to other bindings, and those still authorise it. */
  lemma ClearedAway(cfg: Config, s: Core, bumps: map<Name, nat>)
    requires Inv(cfg, s)
    ensures forall q | q in ClearMaterials(s, bumps).active ::
      && ClearMaterials(s, bumps).active[q].bindingID !in bumps
      && StillServed(ClearMaterials(s, bumps).active[q], s.bindings, s.bindings)
    ensures ClearMaterials(s, bumps).bindings == s.bindings && ClearMaterials(s, bumps).snapshots == s.snapshots
    ensures ClearMaterials(s, bumps).epochs.Keys == s.epochs.Keys
  {
    var cleared := ClearMaterials(s, bumps);
    forall q | q in cleared.active ensures StillServed(cleared.active[q], s.bindings, s.bindings) {
      assert RequestOk(q, s.active[q], s.bindings, s.sequence);
    }
  }

  lemma OneBinding(bindings: map<Name, BindingState>, epochs: map<Ref, nat>, snapshots: nat, id: Name, b: BindingState)
    requires BindingsOk(bindings, epochs, snapshots) && BindingOk(id, b, epochs, snapshots)
    ensures BindingsOk(bindings[id := b], epochs, snapshots)
  {
  }

  /** Once the materials of a binding are gone its state may be replaced. */
  lemma ReplaceKeeps(cfg: Config, s: Core, id: Name, b: BindingState, clearings: nat)
    requires Inv(cfg, s) && BindingOk(id, b, s.epochs, s.snapshots)
    ensures Inv(cfg, Replace(s, id, b, clearings))
  {
    hide BindingsOk, PermitsOk, RequestsOk, ParallelOk, ReplayOk, SessionsOk, RegisteredOk;
    hide ClearMaterials, Authority;
    var bumps := map[id := clearings];
    var cleared := ClearMaterials(s, bumps);
    ClearKeeps(cfg, s, bumps);
    ClearedAway(cfg, s, bumps);
    OneBinding(cleared.bindings, cleared.epochs, cleared.snapshots, id, b);
    forall q | q in cleared.active ensures StillServed(cleared.active[q], s.bindings, s.bindings[id := b]) {
      OtherAuthority(s.bindings, id, b, cleared.active[q].bindingID, cleared.active[q].generation);
    }
    RebindKeeps(cfg, cleared, Replace(s, id, b, clearings));
  }

  lemma OtherAuthority(bindings: map<Name, BindingState>, id: Name, b: BindingState, other: Name, generation: nat)
    requires Authority(bindings, other, generation) && other != id
    ensures Authority(bindings[id := b], other, generation)
    ensures other in bindings && bindings[id := b][other] == bindings[other]
  {
  }

  // ---------------------------------------------------------------- snapshots

  lemma {:induction false} ListedOk(offers: seq<Offer>)
    ensures Listed(offers).Some? ==> forall id | id in Listed(offers).value ::
      Listed(offers).value[id].bindingID == id && Listed(offers).value[id].generation > 0
  {
    if offers != [] {
      ListedOk(offers[..|offers| - 1]);
    }
  }

  ghost predicate GoodList(next: map<Name, Metadata>) {
    forall id | id in next :: next[id].bindingID == id && next[id].generation > 0
  }

  /** A binding whose materials a snapshot did not clear still carries the same authority. */
  lemma MergeKeepsAuthority(s: Core, next: map<Name, Metadata>, id: Name, generation: nat)
    requires Authority(s.bindings, id, generation) && id !in Bumps(s, next)
    ensures Authority(Installed(s, next), id, generation)
    ensures Installed(s, next)[id].metadata.toolSession == s.bindings[id].metadata.toolSession
  {
  }

  lemma InstalledBindings(s: Core, next: map<Name, Metadata>, epochs: map<Ref, nat>)
    requires BindingsOk(s.bindings, epochs, s.snapshots) && GoodList(next)
    ensures BindingsOk(Installed(s, next), epochs + NewEpochs(s, next), s.snapshots + 1)
  {
    forall id | id in next
      ensures BindingOk(id, Installed(s, next)[id], epochs + NewEpochs(s, next), s.snapshots + 1)
    {
      if id in s.bindings {
        assert BindingOk(id, s.bindings[id], epochs, s.snapshots);
      } else {
        assert Ref(id, s.snapshots) in NewRefs(s, next);
      }
    }
  }

  lemma InstallKeeps(cfg: Config, s: Core, next: map<Name, Metadata>)
    requires Inv(cfg, s) && GoodList(next)
    ensures Inv(cfg, Install(s, next))
  {
    hide BindingsOk, PermitsOk, RequestsOk, ParallelOk, ReplayOk, SessionsOk, RegisteredOk;
    hide Bumps, Installed, NewEpochs, ClearMaterials, GoodList, Authority;
    var bumps := Bumps(s, next);
    var cleared := ClearMaterials(s, bumps);
    ClearKeeps(cfg, s, bumps);
    ClearedAway(cfg, s, bumps);
    InstalledBindings(s, next, cleared.epochs);
    forall q | q in cleared.active ensures StillServed(cleared.active[q], s.bindings, Installed(s, next)) {
      MergeKeepsAuthority(s, next, cleared.active[q].bindingID, cleared.active[q].generation);
    }
    RebindKeeps(cfg, cleared, Install(s, next));
  }

  lemma SnapshotKeeps(cfg: Config, s: Core, offers: seq<Offer>)
    requires Inv(cfg, s)
    ensures Inv(cfg, Apply(cfg, s, Snapshot(offers)))
  {
    ListedOk(offers);
    hide Inv;
    if Listed(offers).Some? {
      InstallKeeps(cfg, s, Listed(offers).value);
    }
  }

  // ---------------------------------------------------------------- issuing

  /** What admission establishes about the binding it returns. */
  lemma AdmitMeans(cfg: Config, s: Core, nonce: Name, tool: Name)
    requires Inv(cfg, s) && Admit(cfg, s, nonce, tool).Ok?
    ensures var m := Admit(cfg, s, nonce, tool).value;
            && m.bindingID in s.bindings && s.bindings[m.bindingID].metadata == m
            && m.status == Active && m.health == Healthy
            && |OfBinding(s.active, m.bindingID)| < cfg.maxParallel
            && m.toolSession == tool && tool in s.sessions && s.sessions[tool] == nonce
  {
    var id := Sole(OfSession(s.bindings, tool));
    assert id in OfSession(s.bindings, tool);
    assert BindingOk(id, s.bindings[id], s.epochs, s.snapshots);
  }

  /** Drawing a sequence number moves the counter and the file together. */
  lemma DrawnKeeps(cfg: Config, s: Core)
    requires Inv(cfg, s) && s.sequence < MAX_UINT64
    ensures Inv(cfg, s.(sequence := s.sequence + 1, disk := s.sequence + 1))
  {
    var q := s.sequence + 1;
    assert RequestsOk(s.active, s.bindings, q) by {
      forall k | k in s.active ensures RequestOk(k, s.active[k], s.bindings, q) {
        assert RequestOk(k, s.active[k], s.bindings, s.sequence);
      }
    }
    assert ReplayOk(s.consumed, s.permits, q);
    hide BindingsOk, PermitsOk, RequestsOk, ParallelOk, ReplayOk, SessionsOk, RegisteredOk;
  }

  lemma AddedKeeps(cfg: Config, s: Core, a: ActiveRequest)
    requires Inv(cfg, s) && a.sequence !in s.active && a.sequence !in s.consumed
    requires RequestOk(a.sequence, a, s.bindings, s.sequence) && !a.submitted && Registered(a, s.bindings, s.sessions)
    requires |OfBinding(s.active, a.bindingID)| < cfg.maxParallel
    ensures Inv(cfg, s.(permits := s.permits[a.sequence := PermitOf(a)], active := s.active[a.sequence := a]))
  {
    var q := a.sequence;
    OneMoreSlot(cfg, s.active, q, a);
    assert PermitsOk(s.permits[q := PermitOf(a)], s.active[q := a]);
    assert RequestsOk(s.active[q := a], s.bindings, s.sequence);
    assert ReplayOk(s.consumed, s.permits[q := PermitOf(a)], s.sequence);
    assert !s.closed ==> RegisteredOk(s.active[q := a], s.bindings, s.sessions);
    hide BindingsOk, PermitsOk, RequestsOk, ParallelOk, ReplayOk, SessionsOk, RegisteredOk;
  }

  /** A number above the counter is in no registry. */
  lemma NumberUnused(cfg: Config, s: Core, q: nat)
    requires Inv(cfg, s) && s.sequence < q
    ensures q !in s.active && q !in s.consumed && q !in s.permits
  {
  }

  lemma GrantKeeps(cfg: Config, s: Core, m: Metadata, env: IssueEnv)
    requires Inv(cfg, s)
    requires m.bindingID in s.bindings && s.bindings[m.bindingID].metadata == m
    requires m.status == Active && m.health == Healthy && m.toolSession in s.sessions
    requires |OfBinding(s.active, m.bindingID)| < cfg.maxParallel
    ensures Inv(cfg, Grant(s, m, env).0)
  {
    if s.sequence < MAX_UINT64 {
      DrawnKeeps(cfg, s);
      NumberUnused(cfg, s, s.sequence + 1);
      hide Inv;
      if Grant(s, m, env).1.Ok? {
        var drawn := s.(sequence := s.sequence + 1, disk := s.sequence + 1);
        AddedKeeps(cfg, drawn, Grant(s, m, env).0.active[s.sequence + 1]);
      }
    }
  }

  lemma IssueKeeps(cfg: Config, s: Core, nonce: Name, tool: Name, env: IssueEnv)
    requires Inv(cfg, s)
    ensures Inv(cfg, Issue(cfg, s, nonce, tool, env).0)
  {
    hide Inv, Grant, Admit, PruneExpired;
    var pruned := PruneExpired(s, env.now);
    PruneKeeps(cfg, s, env.now);
    if Admit(cfg, pruned, nonce, tool).Ok? {
      AdmitMeans(cfg, pruned, nonce, tool);
      GrantKeeps(cfg, pruned, Admit(cfg, pruned, nonce, tool).value, env);
    }
  }

  // ---------------------------------------------------------------- consuming, sending, releasing

  lemma DropKeeps(cfg: Config, s: Core, q: nat)
    requires Inv(cfg, s)
    ensures Inv(cfg, Drop(s, q))
  {
    assert PermitsOk(s.permits - {q}, s.active - {q});
    hide Inv, PermitsOk;
    ShrinkKeeps(cfg, s, Drop(s, q));
  }

  /** Moving one request forward, its permit gone, keeps the invariant. */
  lemma ProgressKeeps(cfg: Config, s: Core, q: nat, sent: bool, consumed: map<nat, int>)
    requires Inv(cfg, s) && q in s.active
    requires forall k | k in consumed :: k in s.consumed || k == q
    ensures Inv(cfg, s.(permits := s.permits - {q}, consumed := consumed,
                        active := s.active[q := s.active[q].(submitted := true, sent := sent)]))
  {
    assert RequestOk(q, s.active[q], s.bindings, s.sequence);
    var active' := s.active[q := s.active[q].(submitted := true, sent := sent)];
    KeepParallel(cfg, s.active, active');
    assert PermitsOk(s.permits - {q}, active');
    assert RequestsOk(active', s.bindings, s.sequence);
    assert ReplayOk(consumed, s.permits - {q}, s.sequence);
    assert !s.closed ==> RegisteredOk(active', s.bindings, s.sessions);
    hide BindingsOk, PermitsOk, RequestsOk, ParallelOk, ReplayOk, SessionsOk, RegisteredOk;
  }

  lemma ConsumeKeeps(cfg: Config, s: Core, c: Submission)
    requires Inv(cfg, s)
    ensures Inv(cfg, Consume(s, c).0)
  {
    var q := c.sequence;
    DropKeeps(cfg, s, q);
    if Consume(s, c).1.Ok? {
      assert q in s.active && !s.active[q].submitted;
      assert RequestOk(q, s.active[q], s.bindings, s.sequence);
      hide Inv;
      ProgressKeeps(cfg, s, q, false, s.consumed[q := c.now]);
    }
  }

  lemma MarkSentKeeps(cfg: Config, s: Core, id: Name, q: nat)
    requires Inv(cfg, s)
    ensures Inv(cfg, MarkSent(s, id, q))
  {
    if q in s.active && s.active[q].bindingID == id && s.active[q].submitted {
      assert s.permits - {q} == s.permits;
      hide Inv;
      ProgressKeeps(cfg, s, q, true, s.consumed);
    }
  }

  // ---------------------------------------------------------------- leases

  lemma RenewKeeps(cfg: Config, s: Core, r: Ref, generation: nat, answer: Renewal)
    requires Inv(cfg, s)
    ensures Inv(cfg, Renew(s, r, generation, answer))
  {
    var s' := Renew(s, r, generation, answer);
    if s' != s {
      assert BindingOk(r.id, s.bindings[r.id], s.epochs, s.snapshots);
      OneBinding(s.bindings, s.epochs, s.snapshots, r.id, s'.bindings[r.id]);
      assert forall q | q in s.active :: RequestOk(q, s.active[q], s.bindings, s.sequence);
      hide Inv, BindingsOk;
      RebindKeeps(cfg, s, s');
    }
  }

  lemma FailKeeps(cfg: Config, s: Core, r: Ref, now: int)
    requires Inv(cfg, s)
    ensures Inv(cfg, FailRenewal(cfg, s, r, now))
  {
    if Attached(s, r) && CanFail(s.bindings[r.id]) {
      var b := s.bindings[r.id];
      assert BindingOk(r.id, b, s.epochs, s.snapshots);
      hide Inv, Replace;
      if GraceOver(b, now) {
        ReplaceKeeps(cfg, s, r.id, Terminate(b, Expired), 2);
      } else {
        ReplaceKeeps(cfg, s, r.id, EnterGrace(cfg, b, now), 1);
      }
    }
  }

  lemma EndKeeps(cfg: Config, s: Core, id: Name, status: Status)
    requires Inv(cfg, s) && id in s.bindings && status in {Expired, Revoked}
    ensures Inv(cfg, Replace(s, id, Terminate(s.bindings[id], status), 1))
  {
    assert BindingOk(id, s.bindings[id], s.epochs, s.snapshots);
    hide Inv, Replace;
    ReplaceKeeps(cfg, s, id, Terminate(s.bindings[id], status), 1);
  }

  // ---------------------------------------------------------------- tool sessions

  /** Steps that touch only the capability maps. */
  lemma CapabilityStepKeeps(cfg: Config, s: Core, s': Core)
    requires Inv(cfg, s) && SessionsOk(s'.sessions, s'.nonces, s'.peerUIDs)
    requires s' == s.(sessions := s'.sessions, nonces := s'.nonces, peerUIDs := s'.peerUIDs, closed := s'.closed)
    requires !s'.closed ==> RegisteredOk(s'.active, s'.bindings, s'.sessions)
    ensures Inv(cfg, s')
  {
    hide BindingsOk, PermitsOk, RequestsOk, ParallelOk, ReplayOk, SessionsOk, RegisteredOk;
  }

  lemma OneMoreSession(sessions: map<Name, Name>, nonces: map<Name, Name>, peerUIDs: map<Name, nat>, tool: Name,
      nonce: Name)
    requires SessionsOk(sessions, nonces, peerUIDs) && tool !in sessions && nonce !in nonces
    ensures SessionsOk(sessions[tool := nonce], nonces[nonce := tool], peerUIDs)
  {
  }

  lemma MoreSessions(active: map<nat, ActiveRequest>, bindings: map<Name, BindingState>,
                     sessions: map<Name, Name>, sessions': map<Name, Name>)
    requires RegisteredOk(active, bindings, sessions) && sessions.Keys <= sessions'.Keys
    ensures RegisteredOk(active, bindings, sessions')
  {
  }

  lemma RegisterKeeps(cfg: Config, s: Core, tool: Name, nonce: Name)
    requires Inv(cfg, s)
    ensures Inv(cfg, Register(s, tool, nonce))
  {
    hide BindingsOk, PermitsOk, RequestsOk, ParallelOk, ReplayOk, SessionsOk, RegisteredOk;
    if !s.closed && tool !in s.sessions && nonce !in s.nonces {
      OneMoreSession(s.sessions, s.nonces, s.peerUIDs, tool, nonce);
      MoreSessions(s.active, s.bindings, s.sessions, Register(s, tool, nonce).sessions);
    }
    CapabilityStepKeeps(cfg, s, Register(s, tool, nonce));
  }

  lemma AuthorizeSessions(s: Core, tool: Name, nonce: Name, uid: nat)
    requires SessionsOk(s.sessions, s.nonces, s.peerUIDs)
    ensures var s' := Authorize(s, tool, nonce, uid); SessionsOk(s'.sessions, s'.nonces, s'.peerUIDs)
  {
  }

  lemma AuthorizeKeeps(cfg: Config, s: Core, tool: Name, nonce: Name, uid: nat)
    requires Inv(cfg, s)
    ensures Inv(cfg, Authorize(s, tool, nonce, uid))
  {
    hide BindingsOk, PermitsOk, RequestsOk, ParallelOk, ReplayOk, SessionsOk, RegisteredOk;
    AuthorizeSessions(s, tool, nonce, uid);
    CapabilityStepKeeps(cfg, s, Authorize(s, tool, nonce, uid));
  }

  lemma FewerSessions(s: Core, tool: Name)
    requires SessionsOk(s.sessions, s.nonces, s.peerUIDs) && tool in s.sessions
    ensures SessionsOk(s.sessions - {tool}, s.nonces - {s.sessions[tool]}, s.peerUIDs - {tool})
  {
  }

  /** Clearing the bindings of a tool session leaves only requests of other sessions. */
  lemma OthersRegistered(s: Core, tool: Name)
    requires RegisteredOk(s.active, s.bindings, s.sessions)
    ensures RegisteredOk(RequestsWithout(s.active, OfSession(s.bindings, tool)), s.bindings, s.sessions - {tool})
  {
    var active' := RequestsWithout(s.active, OfSession(s.bindings, tool));
    forall q | q in active' ensures Registered(active'[q], s.bindings, s.sessions - {tool}) {
      assert Registered(s.active[q], s.bindings, s.sessions);
    }
  }

  lemma UnregisterKeeps(cfg: Config, s: Core, tool: Name, expected: Option<Name>)
    requires Inv(cfg, s)
    ensures Inv(cfg, Unregister(s, tool, expected))
  {
    hide BindingsOk, PermitsOk, RequestsOk, ParallelOk, ReplayOk, SessionsOk, RegisteredOk;
    hide RequestsWithout, PermitsWithout, Bumped, OfSession;
    if tool in s.sessions && (expected.Some? ==> s.sessions[tool] == expected.value) {
      var bumps := Once(OfSession(s.bindings, tool));
      assert bumps.Keys == OfSession(s.bindings, tool);
      ClearKeeps(cfg, s, bumps);
      FewerSessions(s, tool);
      if !s.closed {
        OthersRegistered(s, tool);
      }
      CapabilityStepKeeps(cfg, ClearMaterials(s, bumps), Unregister(s, tool, expected));
    }
  }

  lemma CloseKeeps(cfg: Config, s: Core)
    requires Inv(cfg, s)
    ensures Inv(cfg, Apply(cfg, s, CloseSignal))
    ensures Inv(cfg, Apply(cfg, s, CloseClear))
  {
    var s1 := Apply(cfg, s, CloseSignal);
    var s2 := Apply(cfg, s, CloseClear);
    assert SessionsOk(s1.sessions, s1.nonces, s1.peerUIDs) && SessionsOk(s2.sessions, s2.nonces, s2.peerUIDs);
    assert !s2.closed ==> RegisteredOk(s2.active, s2.bindings, s2.sessions);
    hide Inv, SessionsOk, RegisteredOk;
    CapabilityStepKeeps(cfg, s, s1);
    CapabilityStepKeeps(cfg, s, s2);
  }

  lemma FreshInv(cfg: Config, sequence: nat)
    requires ValidConfig(cfg) && sequence <= MAX_UINT64
    ensures Inv(cfg, Fresh(sequence))
  {
    forall id ensures |OfBinding(Fresh(sequence).active, id)| <= cfg.maxParallel {
      assert OfBinding(Fresh(sequence).active, id) == {};
    }
  }

  // ---------------------------------------------------------------- every step

  predicate AboutLease(e: Event) { e.DoRenew? || e.DoFail? || e.DoExpire? || e.DoRevoke? }

  lemma LeaseEventsKeep(cfg: Config, s: Core, e: Event)
    requires Inv(cfg, s) && AboutLease(e)
    ensures Inv(cfg, Apply(cfg, s, e))
  {
    hide Inv, Replace, FailRenewal, Renew;
    match e
    case DoRenew(r, generation, answer) => RenewKeeps(cfg, s, r, generation, answer);
    case DoFail(r, now) => FailKeeps(cfg, s, r, now);
    case DoExpire(r) => if Attached(s, r) { EndKeeps(cfg, s, r.id, Expired); }
    case DoRevoke(id, generation) => if id in s.bindings { EndKeeps(cfg, s, id, Revoked); }
  }

  predicate AboutSession(e: Event) {
    e.DoRegister? || e.DoAuthorize? || e.DoUnregister? || e.Reload? || e.ReloadTool? || e.CloseSignal? || e.CloseClear?
  }

  lemma SessionEventsKeep(cfg: Config, s: Core, e: Event)
    requires Inv(cfg, s) && AboutSession(e)
    ensures Inv(cfg, Apply(cfg, s, e))
  {
    hide Inv, Register, Authorize, Unregister, ClearMaterials;
    match e
    case DoRegister(tool, nonce) => RegisterKeeps(cfg, s, tool, nonce);
    case DoAuthorize(tool, nonce, uid) => AuthorizeKeeps(cfg, s, tool, nonce, uid);
    case DoUnregister(tool, expected) => UnregisterKeeps(cfg, s, tool, expected);
    case Reload => ClearKeeps(cfg, s, Once(s.bindings.Keys));
    case ReloadTool(tool) => ClearKeeps(cfg, s, Once(OfSession(s.bindings, tool)));
    case CloseSignal => CloseKeeps(cfg, s);
    case CloseClear => CloseKeeps(cfg, s);
  }

  lemma CrashKeeps(cfg: Config, s: Core, renamed: bool)
    requires ValidConfig(cfg) && Inv(cfg, s)
    ensures Inv(cfg, Apply(cfg, s, Crash(renamed)))
  {
    assert s.disk <= MAX_UINT64;
    hide Inv, Fresh;
    FreshInv(cfg, if renamed && s.disk < MAX_UINT64 then s.disk + 1 else s.disk);
  }

  lemma RequestEventsKeep(cfg: Config, s: Core, e: Event)
    requires Inv(cfg, s) && (e.DoIssue? || e.DoConsume? || e.Release? || e.Prune? || e.DoMarkSent?)
    ensures Inv(cfg, Apply(cfg, s, e))
  {
    hide Inv, Issue, Consume, Drop, PruneExpired, MarkSent, Install, Register, Authorize, Unregister, ClearMaterials,
      Renew, FailRenewal, Expire, Revoke, Fresh;
    match e
    case DoIssue(nonce, tool, env) => IssueKeeps(cfg, s, nonce, tool, env);
    case DoConsume(c) => ConsumeKeeps(cfg, s, c);
    case Release(q) => DropKeeps(cfg, s, q);
    case Prune(now) => PruneKeeps(cfg, s, now);
    case DoMarkSent(id, q) => MarkSentKeeps(cfg, s, id, q);
  }

  /** Every critical section, and a crash with restart, keeps the invariant. */
  lemma ApplyKeeps(cfg: Config, s: Core, e: Event)
    requires ValidConfig(cfg) && Inv(cfg, s)
    ensures Inv(cfg, Apply(cfg, s, e))
  {
    hide Inv, Apply;
    if AboutLease(e) {
      LeaseEventsKeep(cfg, s, e);
    } else if AboutSession(e) {
      SessionEventsKeep(cfg, s, e);
    } else {
      match e
      case Snapshot(offers) => SnapshotKeeps(cfg, s, offers);
      case Crash(renamed) => CrashKeeps(cfg, s, renamed);
      case _ => RequestEventsKeep(cfg, s, e);
    }
  }

  lemma NextKeeps(cfg: Config, s: Core, e: Event, s': Core)
    requires ValidConfig(cfg) && Inv(cfg, s) && Next(cfg, s, e, s')
    ensures Inv(cfg, s')
  {
    ApplyKeeps(cfg, s, e);
    hide Apply;
    assert PermitsOk(s'.permits, s'.active);
    hide Inv, PermitsOk;
    ShrinkKeeps(cfg, Apply(cfg, s, e), s');
  }

  // ---------------------------------------------------------------- what the invariant gives

  /** An accepted permit is spent under live authority: at that instant the binding is present, active
      and healthy in the permit's own generation, and the permit is spent before it expires. */
  lemma ConsumedUnderAuthority(cfg: Config, s: Core, c: Submission)
    requires Inv(cfg, s) && Consume(s, c).1.Ok?
    ensures var p := Consume(s, c).1.value;
            && p == Permit(c.bindingID, c.generation, c.requestID, c.sequence, p.expiresAt) && c.now < p.expiresAt
            && Authority(s.bindings, p.bindingID, p.generation) && !s.bindings[p.bindingID].terminal
            && c.sequence in s.active && !s.active[c.sequence].submitted
  {
    assert RequestOk(c.sequence, s.active[c.sequence], s.bindings, s.sequence);
    assert BindingOk(c.bindingID, s.bindings[c.bindingID], s.epochs, s.snapshots);
  }

  /** A permit is granted only to a registered session, for a live binding with a free slot, and never
      outlives twenty seconds, the lease or the absolute lifetime recorded when it is granted. */
  lemma IssuedUnderAuthority(cfg: Config, s: Core, nonce: Name, tool: Name, env: IssueEnv)
    requires Inv(cfg, s) && Issue(cfg, s, nonce, tool, env).1.Ok?
    ensures var p := Issue(cfg, s, nonce, tool, env).1.value;
            && tool in s.sessions && s.sessions[tool] == nonce
            && Authority(s.bindings, p.bindingID, p.generation) && !s.bindings[p.bindingID].terminal
            && var m := s.bindings[p.bindingID].metadata;
            && m.toolSession == tool
            && env.now < p.expiresAt <= env.now + PERMIT_LIFETIME
            && (m.leaseUntil.At? ==> p.expiresAt <= m.leaseUntil.time)
            && (m.absoluteTTL.At? ==> p.expiresAt <= m.absoluteTTL.time)
            && p.sequence == s.sequence + 1
  {
    var pruned := PruneExpired(s, env.now);
    PruneKeeps(cfg, s, env.now);
    AdmitMeans(cfg, pruned, nonce, tool);
    var id := Issue(cfg, s, nonce, tool, env).1.value.bindingID;
    assert BindingOk(id, s.bindings[id], s.epochs, s.snapshots);
  }

  /** A submission is accepted exactly when it names a registered request that was not submitted yet, with
      the request's own identities, a payload in bounds and time left. The replay cache decides nothing:
      whatever it has forgotten, a spent or dropped number has no such request. */
  lemma AcceptsExactly(cfg: Config, s: Core, c: Submission)
    requires Inv(cfg, s)
    ensures Consume(s, c).1.Ok? <==>
            && c.sequence in s.active && !s.active[c.sequence].submitted
            && s.active[c.sequence].bindingID == c.bindingID && s.active[c.sequence].generation == c.generation
            && s.active[c.sequence].requestID == c.requestID
            && 0 <= c.payloadBytes <= MAX_PAYLOAD_BYTES && c.now < s.active[c.sequence].expiresAt
  {
    if c.sequence in s.active {
      assert RequestOk(c.sequence, s.active[c.sequence], s.bindings, s.sequence);
    }
  }

  /** Every recorded bound is readable and lies ahead. */
  predicate TimeLeft(m: Metadata, now: int) {
    && m.leaseUntil != Malformed && (m.leaseUntil.At? ==> now < m.leaseUntil.time)
    && m.absoluteTTL != Malformed && (m.absoluteTTL.At? ==> now < m.absoluteTTL.time)
  }

  /** The session's only binding is live and has a slot that no unexpired request takes. */
  ghost predicate MayIssue(cfg: Config, s: Core, tool: Name, id: Name, now: int) {
    && OfSession(s.bindings, tool) == {id} && id in s.bindings
    && s.bindings[id].metadata.status == Active && s.bindings[id].metadata.health == Healthy
    && |OfBinding(LiveRequests(s.active, s.permits, now), id)| < cfg.maxParallel
    && |OfBinding(LiveRequests(s.active, s.permits, now), id)| < s.bindings[id].metadata.maxParallel
    && TimeLeft(s.bindings[id].metadata, now)
  }

  lemma ExpiryExactly(m: Metadata, now: int)
    ensures PermitExpiry(m, now).Some? && now < PermitExpiry(m, now).value <==> TimeLeft(m, now)
  {
  }

  /** A permit is granted exactly when the capability is the session's, the session has one binding, which
      is live with a free slot and time left, and neither the counter nor the environment stands in the
      way. */
  lemma IssuesExactly(cfg: Config, s: Core, nonce: Name, tool: Name, env: IssueEnv)
    requires Inv(cfg, s)
    ensures Issue(cfg, s, nonce, tool, env).1.Ok? <==>
            && tool in s.sessions && s.sessions[tool] == nonce
            && s.sequence < MAX_UINT64 && !env.persistFails && !env.randomFails
            && exists id :: MayIssue(cfg, s, tool, id, env.now)
  {
    hide PermitExpiry, TimeLeft, OfSession, OfBinding, LiveRequests, LivePermits;
    var ids := OfSession(s.bindings, tool);
    if |ids| == 1 && Sole(ids) in s.bindings {
      var id := Sole(ids);
      assert BindingOk(id, s.bindings[id], s.epochs, s.snapshots);
      ExpiryExactly(s.bindings[id].metadata, env.now);
      if Issue(cfg, s, nonce, tool, env).1.Ok? {
        assert MayIssue(cfg, s, tool, id, env.now);
      }
      if exists id' :: MayIssue(cfg, s, tool, id', env.now) {
        var id' :| MayIssue(cfg, s, tool, id', env.now);
        assert id' in ids;
      }
    } else {
      SoleIsAttached(s.bindings, tool);
      forall id ensures !MayIssue(cfg, s, tool, id, env.now) { }
    }
  }

  lemma SoleIsAttached(bindings: map<Name, BindingState>, tool: Name)
    ensures |OfSession(bindings, tool)| == 1 ==> Sole(OfSession(bindings, tool)) in bindings
  {
    if |OfSession(bindings, tool)| == 1 {
      assert Sole(OfSession(bindings, tool)) in OfSession(bindings, tool);
    }
  }
}
