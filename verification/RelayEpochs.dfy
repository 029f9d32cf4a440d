/** The relay epoch of a binding-state object as the guard of its authority: what every critical section of
    the broker does to the epochs, and which relays it hands over for closing. */
module RelayEpochs {
  import opened BrokerCore
  import opened BrokerInvariant
  import opened BrokerLease
  import opened BrokerRuns
  import opened BrokerSnapshot

  function RefsOf(s: Core, ids: set<Name>): set<Ref> {
    set id | id in ids && id in s.bindings :: Ref(id, s.bindings[id].serial)
  }

  /** The objects whose relay a critical section hands over for closing once the mutex is released. */
  function ClosesAfter(s: Core, e: Event): set<Ref> {
    match e
    case DoUnregister(tool, expected) =>
      if tool !in s.sessions || (expected.Some? && s.sessions[tool] != expected.value) then {}
      else RefsOf(s, OfSession(s.bindings, tool))
    case Snapshot(offers) =>
      (match Listed(offers) case None => {} case Some(next) => RefsOf(s, Bumps(s, next).Keys))
    case DoFail(r, now) =>
      if Attached(s, r) && CanFail(s.bindings[r.id]) && GraceOver(s.bindings[r.id], now) then {r} else {}
    case DoExpire(r) => if Attached(s, r) && s.bindings[r.id].metadata.status == Active then {r} else {}
    case DoRevoke(id, generation) =>
      if id in s.bindings && (generation == 0 || s.bindings[id].metadata.generation == generation) then RefsOf(s, {id})
        else {}
    case Reload => RefsOf(s, s.bindings.Keys)
    case ReloadTool(tool) => RefsOf(s, OfSession(s.bindings, tool))
    case _ => {}
  }

  /** The object still authorises forwarding of this generation. */
  predicate Authorises(s: Core, r: Ref, generation: nat) {
    Attached(s, r) && Authority(s.bindings, r.id, generation)
  }

  // ---------------------------------------------------------------- the epoch guards the authority

  /** A step that takes an object's authority away advances its epoch; no step moves an epoch back. */
  ghost predicate EpochsGuard(s: Core, s': Core, r: Ref, g: nat) {
    r in s.epochs ==>
      && r in s'.epochs && s.epochs[r] <= s'.epochs[r]
      && (Authorises(s, r, g) && s'.epochs[r] == s.epochs[r] ==> Authorises(s', r, g))
  }

  lemma ClearGuards(s: Core, bumps: map<Name, nat>, r: Ref)
    requires r in s.epochs
    ensures var epochs' := ClearMaterials(s, bumps).epochs;
            && r in epochs' && s.epochs[r] <= epochs'[r]
            && (Attached(s, r) && r.id in bumps && bumps[r.id] > 0 ==> s.epochs[r] < epochs'[r])
  {
  }

  lemma ReplaceGuards(s: Core, id: Name, b: BindingState, clearings: nat, r: Ref, g: nat)
    requires clearings > 0
    ensures EpochsGuard(s, Replace(s, id, b, clearings), r, g)
  {
    hide ClearMaterials;
    ClearFrame(s, map[id := clearings]);
    if r in s.epochs {
      ClearGuards(s, map[id := clearings], r);
    }
  }

  lemma RenewGuards(s: Core, k: Ref, generation: nat, answer: Renewal, r: Ref, g: nat)
    ensures EpochsGuard(s, Renew(s, k, generation, answer), r, g)
  {
    var s' := Renew(s, k, generation, answer);
    assert s'.epochs == s.epochs;
    hide EpochsGuard;
    if Authorises(s, r, g) {
      assert Authorises(s', r, g);
    }
    SameEpochsGuard(s, s', r, g);
  }

  lemma SameEpochsGuard(s: Core, s': Core, r: Ref, g: nat)
    requires s'.epochs == s.epochs && (Authorises(s, r, g) ==> Authorises(s', r, g))
    ensures EpochsGuard(s, s', r, g)
  {
  }

  lemma SameGuards(s: Core, r: Ref, g: nat)
    ensures EpochsGuard(s, s, r, g)
  {
  }

  lemma LeaseGuards(cfg: Config, s: Core, e: Event, r: Ref, g: nat)
    requires AboutLease(e)
    ensures EpochsGuard(s, Apply(cfg, s, e), r, g)
  {
    hide Replace, GraceOver, EnterGrace, Terminate, EpochsGuard, Renew;
    SameGuards(s, r, g);
    match e
    case DoRenew(k, generation, answer) => RenewGuards(s, k, generation, answer, r, g);
    case DoFail(k, now) =>
      if Attached(s, k) {
        ReplaceGuards(s, k.id, Terminate(s.bindings[k.id], Expired), 2, r, g);
        ReplaceGuards(s, k.id, EnterGrace(cfg, s.bindings[k.id], now), 1, r, g);
      }
    case DoExpire(k) => if Attached(s, k) { ReplaceGuards(s, k.id, Terminate(s.bindings[k.id], Expired), 1, r, g); }
    case DoRevoke(id, generation) =>
      if id in s.bindings { ReplaceGuards(s, id, Terminate(s.bindings[id], Revoked), 1, r, g); }
  }

  lemma InstallGuards(cfg: Config, s: Core, next: map<Name, Metadata>, r: Ref, g: nat)
    requires forall k | k in s.epochs :: k.serial < s.snapshots
    ensures EpochsGuard(s, Install(s, next), r, g)
  {
    hide ClearMaterials, Installed, Bumps, Authority;
    if r in s.epochs {
      ClearGuards(s, Bumps(s, next), r);
      BumpsPositive(s, next);
      NewRefsAreNew(s, next, r);
      if Authorises(s, r, g) && r.id !in Bumps(s, next) {
        MergeKeepsAuthority(s, next, r.id, g);
        MergeKeepsObject(s, next, r.id);
      }
    }
  }

  lemma BumpsPositive(s: Core, next: map<Name, Metadata>)
    ensures forall id | id in Bumps(s, next) :: Bumps(s, next)[id] > 0
    ensures forall id | id in s.bindings && id !in Bumps(s, next) :: id in next
  {
  }

  lemma NewRefsAreNew(s: Core, next: map<Name, Metadata>, r: Ref)
    requires r.serial < s.snapshots
    ensures r !in NewEpochs(s, next)
  {
  }

  lemma MergeKeepsObject(s: Core, next: map<Name, Metadata>, id: Name)
    ensures id in s.bindings && id in next ==>
      id in Installed(s, next) && Installed(s, next)[id].serial == s.bindings[id].serial
    ensures id !in s.bindings && id in next ==> id in Installed(s, next) && Installed(s, next)[id].serial == s.snapshots
    ensures id in Installed(s, next) <==> id in next
  {
  }

  predicate TouchesEpochs(e: Event) { TouchesBindings(e) || AboutSession(e) }

  lemma IssueFrame(cfg: Config, s: Core, nonce: Name, tool: Name, env: IssueEnv)
    ensures Issue(cfg, s, nonce, tool, env).0.epochs == s.epochs
  {
    hide Admit, LivePermits, LiveRequests, NextSequence, PermitExpiry;
  }

  lemma OthersKeepEpochs(cfg: Config, s: Core, e: Event)
    requires !TouchesEpochs(e)
    ensures Apply(cfg, s, e).epochs == s.epochs
  {
    hide Issue, Install, Listed, ClearMaterials, Replace, LivePermits, LiveRequests, Renewed;
    match e
    case DoIssue(nonce, tool, env) => IssueFrame(cfg, s, nonce, tool, env);
    case _ =>
  }

  lemma SessionGuards(cfg: Config, s: Core, e: Event, r: Ref)
    requires AboutSession(e) && r in s.epochs
    ensures r in Apply(cfg, s, e).epochs && s.epochs[r] <= Apply(cfg, s, e).epochs[r]
  {
    hide ClearMaterials, OfSession, Once, Issue, Consume, Install, Listed, Drop, PruneExpired, MarkSent, Renew,
      FailRenewal, Expire, Revoke;
    match e
    case DoUnregister(tool, expected) => ClearGuards(s, Once(OfSession(s.bindings, tool)), r);
    case Reload => ClearGuards(s, Once(s.bindings.Keys), r);
    case ReloadTool(tool) => ClearGuards(s, Once(OfSession(s.bindings, tool)), r);
    case _ =>
  }

  /** Every critical section guards the authority of every object by its epoch. */
  lemma StepGuards(cfg: Config, s: Core, e: Event, s': Core, r: Ref, g: nat)
    requires Inv(cfg, s) && Next(cfg, s, e, s') && !e.Crash?
    ensures EpochsGuard(s, s', r, g)
  {
    hide Apply, Inv;
    if AboutLease(e) {
      LeaseGuards(cfg, s, e, r, g);
    } else if e.Snapshot? {
      SnapshotGuards(cfg, s, e.offers, r, g);
    } else {
      OthersKeepBindings(cfg, s, e);
      if AboutSession(e) {
        if r in s.epochs { SessionGuards(cfg, s, e, r); }
      } else {
        OthersKeepEpochs(cfg, s, e);
      }
    }
  }

  lemma SnapshotGuards(cfg: Config, s: Core, offers: seq<Offer>, r: Ref, g: nat)
    requires Inv(cfg, s)
    ensures EpochsGuard(s, Apply(cfg, s, Snapshot(offers)), r, g)
  {
    assert forall k | k in s.epochs :: k.serial < s.snapshots;
    hide Inv, Install, EpochsGuard, Issue, Consume, Drop, PruneExpired, MarkSent, ClearMaterials;
    SameGuards(s, r, g);
    if Listed(offers).Some? {
      InstallGuards(cfg, s, Listed(offers).value, r, g);
    }
  }

  lemma AttachedHasEpoch(cfg: Config, s: Core, r: Ref)
    requires Inv(cfg, s) && Attached(s, r)
    ensures r in s.epochs
  {
    assert BindingOk(r.id, s.bindings[r.id], s.epochs, s.snapshots);
  }

  // ---------------------------------------------------------------- ended generations

  /** The object is out of the registry, or generation `g` of it is terminal. */
  predicate Over(s: Core, r: Ref, g: nat) {
    r in s.epochs && (Attached(s, r) ==> Dead(s, r, g))
  }

  /** A snapshot has installed a newer generation in the object. */
  predicate Superseded(s: Core, r: Ref, g: nat) {
    Attached(s, r) && g < s.bindings[r.id].metadata.generation
  }

  lemma OverStep(cfg: Config, s: Core, e: Event, s': Core, r: Ref, g: nat)
    requires Inv(cfg, s) && Next(cfg, s, e, s') && !e.Crash? && Over(s, r, g) && !Superseded(s', r, g)
    ensures Over(s', r, g)
  {
    hide BindingOk, PermitsOk, RequestsOk, ParallelOk, ReplayOk, SessionsOk, RegisteredOk, Apply;
    StepGuards(cfg, s, e, s', r, g);
    assert r.serial < s.snapshots;
    if r.id in s.bindings && r.id in s'.bindings {
      if Attached(s, r) {
        RetiredStep(cfg, s, e, s', r.id, g);
      }
      if AboutLease(e) {
        LeaseBinding(cfg, s, e, r.id);
      } else if e.Snapshot? {
        SnapshotBinding(cfg, s, e.offers, r.id);
      } else {
        OthersKeepBindings(cfg, s, e);
      }
    } else if r.id in s'.bindings {
      NewObject(cfg, s, e, s', r.id);
    }
  }

  /** An ID that was not listed gets a new object. */
  lemma NewObject(cfg: Config, s: Core, e: Event, s': Core, id: Name)
    requires Next(cfg, s, e, s') && id !in s.bindings && id in s'.bindings
    ensures s'.bindings[id].serial == s.snapshots
  {
    hide ClearMaterials, Issue, Installed;
    if TouchesBindings(e) {
      match e
      case Snapshot(offers) => MergeKeepsObject(s, Listed(offers).value, id);
      case _ => ClearFrames(s);
    } else {
      hide Apply;
      OthersKeepBindings(cfg, s, e);
    }
  }

  lemma ClearFrames(s: Core)
    ensures forall bumps :: ClearMaterials(s, bumps).bindings == s.bindings
  {
  }

  lemma DeadHasNoAuthority(cfg: Config, s: Core, r: Ref, g: nat, generation: nat)
    requires Inv(cfg, s) && Over(s, r, g)
    ensures !Authorises(s, r, generation)
  {
    if Attached(s, r) {
      assert BindingOk(r.id, s.bindings[r.id], s.epochs, s.snapshots);
    }
  }

  // ---------------------------------------------------------------- what is handed over for closing

  /** A failed renewal that enters or stays in grace. */
  predicate StaysInGrace(s: Core, e: Event, r: Ref) {
    e.DoFail? && e.ref == r && Attached(s, r) && !GraceOver(s.bindings[r.id], e.now)
  }

  lemma LeaseHandsOver(s: Core, e: Event, r: Ref)
    requires AboutLease(e)
    ensures r in ClosesAfter(s, e) <==> Attached(s, r) && ClearsBinding(s, e, r.id) && !StaysInGrace(s, e, r)
  {
    hide GraceOver, Listed;
  }

  lemma SessionHandsOver(s: Core, e: Event, r: Ref)
    requires AboutSession(e)
    ensures r in ClosesAfter(s, e) <==> Attached(s, r) && ClearsBinding(s, e, r.id)
  {
    hide GraceOver, Listed;
  }

  lemma SnapshotHandsOver(cfg: Config, s: Core, offers: seq<Offer>, r: Ref)
    requires Inv(cfg, s)
    ensures r in ClosesAfter(s, Snapshot(offers)) <==> Attached(s, r) && ClearsBinding(s, Snapshot(offers), r.id)
  {
    hide Inv, Listed, Bumps, Outdated, Agrees;
    if Listed(offers).Some? && r.id in s.bindings {
      BumpsMeans(cfg, s, Listed(offers).value, r.id);
    }
  }

  lemma OthersHandOver(s: Core, e: Event, r: Ref)
    requires !AboutLease(e) && !AboutSession(e) && !e.Snapshot?
    ensures r !in ClosesAfter(s, e)
  {
  }

  /** An object that is not attached keeps its epoch. */
  lemma DetachedKeepsEpoch(cfg: Config, s: Core, e: Event, s': Core, r: Ref)
    requires Inv(cfg, s) && Next(cfg, s, e, s') && !e.Crash? && r in s.epochs && !Attached(s, r)
    ensures r in s'.epochs && s'.epochs[r] == s.epochs[r]
  {
    assert r.serial < s.snapshots;
    hide Inv, Apply;
    if AboutLease(e) {
      DetachedLease(cfg, s, e, r);
    } else if AboutSession(e) || e.Snapshot? {
      DetachedMany(cfg, s, e, r);
    } else {
      OthersKeepEpochs(cfg, s, e);
    }
  }

  lemma DetachedMany(cfg: Config, s: Core, e: Event, r: Ref)
    requires (AboutSession(e) || e.Snapshot?) && r in s.epochs && !Attached(s, r) && r.serial < s.snapshots
    ensures r in Apply(cfg, s, e).epochs && Apply(cfg, s, e).epochs[r] == s.epochs[r]
  {
    hide Issue, Consume, Once, OfSession, Replace, Listed, Bumps, Installed;
  }

  lemma DetachedReplace(s: Core, id: Name, b: BindingState, clearings: nat, r: Ref)
    requires r in s.epochs && !Attached(s, r)
    ensures r in Replace(s, id, b, clearings).epochs && Replace(s, id, b, clearings).epochs[r] == s.epochs[r]
  {
  }

  lemma DetachedLease(cfg: Config, s: Core, e: Event, r: Ref)
    requires AboutLease(e) && r in s.epochs && !Attached(s, r)
    ensures r in Apply(cfg, s, e).epochs && Apply(cfg, s, e).epochs[r] == s.epochs[r]
  {
    hide Replace, Terminate, EnterGrace, GraceOver, CanFail, Renewed, Issue, Consume, Install, Listed, Attached;
    if Apply(cfg, s, e).epochs != s.epochs {
      DetachedChange(cfg, s, e, r);
    }
  }

  lemma DetachedChange(cfg: Config, s: Core, e: Event, r: Ref)
    requires AboutLease(e) && r in s.epochs && !Attached(s, r) && Apply(cfg, s, e).epochs != s.epochs
    ensures r in Apply(cfg, s, e).epochs && Apply(cfg, s, e).epochs[r] == s.epochs[r]
  {
    hide Replace, Terminate, EnterGrace, GraceOver, CanFail, Renewed, Issue, Consume, Install, Listed;
    match e
    case DoFail(k, now) =>
      DetachedReplace(s, k.id, Terminate(s.bindings[k.id], Expired), 2, r);
      DetachedReplace(s, k.id, EnterGrace(cfg, s.bindings[k.id], now), 1, r);
    case DoExpire(k) => DetachedReplace(s, k.id, Terminate(s.bindings[k.id], Expired), 1, r);
    case DoRevoke(id, _) => DetachedReplace(s, id, Terminate(s.bindings[id], Revoked), 1, r);
    case _ =>
  }

  /** Which relays a critical section hands over for closing, exactly: those of the objects whose epoch it
      moves on, but for a failed renewal that stays in grace. */
  lemma HandsOverExactly(cfg: Config, s: Core, e: Event, s': Core, r: Ref)
    requires Inv(cfg, s) && Next(cfg, s, e, s') && !e.Crash? && r in s.epochs
    ensures r in s'.epochs
    ensures r in ClosesAfter(s, e) <==> s.epochs[r] < s'.epochs[r] && !StaysInGrace(s, e, r)
    ensures s.epochs[r] < s'.epochs[r] <==> Attached(s, r) && ClearsBinding(s, e, r.id)
  {
    hide Apply, Next, Inv, ClosesAfter, ClearsBinding;
    if !Attached(s, r) {
      DetachedKeepsEpoch(cfg, s, e, s', r);
    } else if AboutLease(e) || AboutSession(e) || e.Snapshot? {
      ClearsExactly(cfg, s, e, s', r.id);
    } else {
      OthersEpochs(cfg, s, e, s', r);
    }
    if AboutLease(e) {
      LeaseHandsOver(s, e, r);
    } else if AboutSession(e) {
      SessionHandsOver(s, e, r);
    } else if e.Snapshot? {
      SnapshotHandsOver(cfg, s, e.offers, r);
    } else {
      OthersHandOver(s, e, r);
    }
  }

  lemma OthersEpochs(cfg: Config, s: Core, e: Event, s': Core, r: Ref)
    requires Next(cfg, s, e, s') && !AboutLease(e) && !AboutSession(e) && !e.Snapshot? && !e.Crash?
    ensures s'.epochs == s.epochs && !ClearsBinding(s, e, r.id)
  {
    OthersKeepEpochs(cfg, s, e);
    hide Apply;
  }

  // ---------------------------------------------------------------- ending a generation

  /** The critical sections that end a generation: an effective revocation or expiry, and a renewal
      failure after the grace deadline. */
  predicate EndsGeneration(s: Core, e: Event, r: Ref) {
    Attached(s, r) && var b := s.bindings[r.id];
    match e
    case DoRevoke(id, generation) => id == r.id && (generation == 0 || generation == b.metadata.generation)
    case DoExpire(k) => k == r && b.metadata.status == Active
    case DoFail(k, now) => k == r && CanFail(b) && GraceOver(b, now)
    case _ => false
  }

  /** Ending a generation hands its relay over for closing. */
  lemma EndedIsHandedOver(s: Core, e: Event, r: Ref)
    requires EndsGeneration(s, e, r)
    ensures r in ClosesAfter(s, e)
  {
    if e.DoRevoke? { assert r in RefsOf(s, {r.id}); }
    hide GraceOver, CanFail, RefsOf;
  }

  lemma EndedIsOver(cfg: Config, s: Core, e: Event, s': Core, r: Ref)
    requires Inv(cfg, s) && Next(cfg, s, e, s') && EndsGeneration(s, e, r)
    ensures Over(s', r, s.bindings[r.id].metadata.generation)
  {
    AttachedHasEpoch(cfg, s, r);
    StepGuards(cfg, s, e, s', r, 0);
    hide Inv, ClearMaterials;
    ClearFrames(s);
  }
}
