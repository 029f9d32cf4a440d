/** The broker object. Each method is the critical section of the broker method it is named after and is
    proved to take exactly the step that `BrokerCore` gives for it, so the invariant and everything
    proved about runs holds of the object. Clock readings, random tokens and faults are parameters. */
module BrokerObject {
  import opened BrokerCore
  import opened BrokerInvariant
  import opened BrokerReplies
  import opened BrokerSnapshot
  import opened Options

  // ---------------------------------------------------------------- composing clearings

  function AddBump(bumps: map<Name, nat>, id: Name): map<Name, nat> {
    bumps[id := (if id in bumps then bumps[id] else 0) + 1]
  }

  lemma ClearOneMore(s: Core, bumps: map<Name, nat>, id: Name)
    ensures ClearMaterials(ClearMaterials(s, bumps), map[id := 1]) == ClearMaterials(s, AddBump(bumps, id))
  {
    hide PermitsWithout, RequestsWithout, Bumped, AddBump;
    ClearMorePermits(s, bumps.Keys, id);
    ClearMoreEpochs(s, bumps, id);
    AddBumpKeys(bumps, id);
    assert map[id := 1].Keys == {id};
  }

  lemma AddBumpKeys(bumps: map<Name, nat>, id: Name)
    ensures AddBump(bumps, id).Keys == bumps.Keys + {id}
  {
  }

  /** Moving the epoch of the attached object on is the clearing's effect on the epochs. */
  lemma BumpOne(epochs: map<Ref, nat>, bindings: map<Name, BindingState>, id: Name)
    requires id in bindings ==> Ref(id, bindings[id].serial) in epochs
    ensures Bumped(epochs, bindings, map[id := 1]) ==
            if id in bindings
            then epochs[Ref(id, bindings[id].serial) := epochs[Ref(id, bindings[id].serial)] + 1]
            else epochs
  {
  }

  lemma ClearMorePermits(s: Core, ids: set<Name>, id: Name)
    ensures PermitsWithout(PermitsWithout(s.permits, ids), {id}) == PermitsWithout(s.permits, ids + {id})
    ensures RequestsWithout(RequestsWithout(s.active, ids), {id}) == RequestsWithout(s.active, ids + {id})
  {
  }

  lemma ClearMoreEpochs(s: Core, bumps: map<Name, nat>, id: Name)
    ensures Bumped(Bumped(s.epochs, s.bindings, bumps), s.bindings, map[id := 1])
         == Bumped(s.epochs, s.bindings, AddBump(bumps, id))
  {
  }

  lemma ClearNothing(s: Core)
    ensures ClearMaterials(s, map[]) == s
  {
    assert PermitsWithout(s.permits, {}) == s.permits;
    assert RequestsWithout(s.active, {}) == s.active;
    assert Bumped(s.epochs, s.bindings, map[]) == s.epochs;
  }

  lemma PrunedShrinks(before: map<nat, int>, after: map<nat, int>, now: int)
    requires PrunedFrom(before, after, now)
    ensures Submap(after, before)
  {
  }

  lemma SubmapTrans<V>(a: map<nat, V>, b: map<nat, V>, c: map<nat, V>)
    requires Submap(a, b) && Submap(b, c)
    ensures Submap(a, c)
  {
  }

  /** The permits and requests left by a pruning pass that still has `rest` ahead of it. */
  function LiveOutside(permits: map<nat, Permit>, rest: set<nat>, now: int): map<nat, Permit> {
    map q | q in permits && (q in rest || now < permits[q].expiresAt) :: permits[q]
  }

  function StillOutside(active: map<nat, ActiveRequest>, permits: map<nat, Permit>, rest: set<nat>, now: int)
    : map<nat, ActiveRequest>
  {
    map q | q in active && !(q in permits && q !in rest && permits[q].expiresAt <= now
      && !active[q].submitted) :: active[q]
  }

  lemma PruneBegins(permits: map<nat, Permit>, active: map<nat, ActiveRequest>, now: int)
    ensures LiveOutside(permits, permits.Keys, now) == permits
    ensures StillOutside(active, permits, permits.Keys, now) == active
  {
  }

  lemma PruneAdvances(permits: map<nat, Permit>, active: map<nat, ActiveRequest>, rest: set<nat>, q: nat, now: int)
    requires q in rest && rest <= permits.Keys
    ensures var p, a := LiveOutside(permits, rest, now), StillOutside(active, permits, rest, now);
            && q in p && p[q] == permits[q] && (q in a ==> q in active && a[q] == active[q])
            && LiveOutside(permits, rest - {q}, now) == (if permits[q].expiresAt <= now then p - {q} else p)
            && StillOutside(active, permits, rest - {q}, now) ==
               (if permits[q].expiresAt <= now && q in a && !a[q].submitted then a - {q} else a)
  {
  }

  lemma PruneEnds(permits: map<nat, Permit>, active: map<nat, ActiveRequest>, now: int)
    ensures LiveOutside(permits, {}, now) == LivePermits(permits, now)
    ensures StillOutside(active, permits, {}, now) == LiveRequests(active, permits, now)
  {
  }

  class Broker {
    const cfg: Config
    var bindings: map<Name, BindingState>
    var epochs: map<Ref, nat>
    var snapshots: nat
    var sessions: map<Name, Name>
    var nonces: map<Name, Name>
    var peerUIDs: map<Name, nat>
    var permits: map<nat, Permit>
    var active: map<nat, ActiveRequest>
    var consumed: map<nat, int>
    var sequence: nat
    var disk: nat
    var closed: bool

    function State(): (s: Core)
      reads this
    {
      Core(bindings, epochs, snapshots, sessions, nonces, peerUIDs, permits, active, consumed, sequence, disk, closed)
    }

    ghost predicate Valid()
      reads this
    {
      ValidConfig(cfg) && Inv(cfg, State())
    }

    /** A broker starts from the number in its sequence file. */
    constructor (config: Config, stored: nat)
      requires ValidConfig(config) && stored <= MAX_UINT64
      ensures Valid() && cfg == config && State() == Fresh(stored)
    {
      cfg := config;
      bindings, epochs, snapshots := map[], map[], 0;
      sessions, nonces, peerUIDs := map[], map[], map[];
      permits, active, consumed := map[], map[], map[];
      sequence, disk, closed := stored, stored, false;
      new;
      FreshInv(config, stored);
    }

    // -------------------------------------------------------------- loops inside the mutex

    /** Drops what is outside the replay window, then the oldest entries above the cap. */
    method PruneConsumed(now: int)
      modifies `consumed
      ensures PrunedFrom(old(consumed), consumed, now)
    {
      ghost var before := consumed;
      ghost var window := InWindow(before, now);
      var rest := consumed.Keys;
      while rest != {}
        invariant rest <= before.Keys
        invariant forall q :: q in consumed <==> q in before && (q in rest || q in window)
        invariant forall q | q in consumed :: consumed[q] == before[q]
        decreases |rest|
      {
        var q :| q in rest;
        if consumed[q] + REPLAY_WINDOW <= now {
          consumed := consumed - {q};
        }
        rest := rest - {q};
      }
      assert consumed.Keys == window;
      assert |consumed| == |window|;
      while |consumed| > MAX_REPLAY_ENTRIES
        invariant consumed.Keys <= window
        invariant forall q | q in consumed :: consumed[q] == before[q]
        invariant |consumed| == |window| || (|window| > MAX_REPLAY_ENTRIES && |consumed| >= MAX_REPLAY_ENTRIES)
        invariant forall q, k | q in window && q !in consumed && k in consumed :: before[q] <= before[k]
        decreases |consumed|
      {
        var oldest := OldestOf(consumed);
        assert |consumed.Keys - {oldest}| == |consumed.Keys| - 1;
        assert (consumed - {oldest}).Keys == consumed.Keys - {oldest};
        consumed := consumed - {oldest};
      }
    }

    /** One sweep of the replay cache for its oldest entry. */
    static method OldestOf(entries: map<nat, int>) returns (oldest: nat)
      requires |entries| > 0
      ensures oldest in entries && forall q | q in entries :: entries[oldest] <= entries[q]
    {
      assert entries.Keys != {};
      oldest :| oldest in entries;
      var rest := entries.Keys - {oldest};
      while rest != {}
        invariant oldest in entries && rest <= entries.Keys
        invariant forall q | q in entries && q !in rest :: entries[oldest] <= entries[q]
        decreases |rest|
      {
        var q :| q in rest;
        if entries[q] < entries[oldest] { oldest := q; }
        rest := rest - {q};
      }
    }

    method PruneExpiredPermits(now: int)
      modifies `permits, `active
      ensures State() == PruneExpired(old(State()), now)
    {
      hide LiveOutside, StillOutside;
      ghost var p0, a0 := permits, active;
      var rest := permits.Keys;
      PruneBegins(p0, a0, now);
      while rest != {}
        invariant rest <= p0.Keys
        invariant permits == LiveOutside(p0, rest, now) && active == StillOutside(a0, p0, rest, now)
        decreases |rest|
      {
        var q :| q in rest;
        PruneAdvances(p0, a0, rest, q, now);
        if permits[q].expiresAt <= now {
          permits := permits - {q};
          if q in active && !active[q].submitted {
            active := active - {q};
          }
        }
        rest := rest - {q};
      }
      PruneEnds(p0, a0, now);
    }

    /** Drops the permits and requests of one binding and moves its relay epoch on. */
    method ClearBindingMaterials(id: Name, now: int)
      requires id in bindings ==> Ref(id, bindings[id].serial) in epochs
      modifies `permits, `active, `epochs, `consumed
      ensures Submap(consumed, old(consumed)) && PrunedFrom(old(consumed), consumed, now)
      ensures State() == ClearMaterials(old(State()), map[id := 1]).(consumed := consumed)
    {
      hide PermitsWithout, RequestsWithout, Bumped, PrunedFrom, Submap;
      BumpOne(epochs, bindings, id);
      assert map[id := 1].Keys == {id};
      DropPermits(id);
      DropRequests(id);
      PruneConsumed(now);
      PrunedShrinks(old(consumed), consumed, now);
      if id in bindings {
        var r := Ref(id, bindings[id].serial);
        epochs := epochs[r := epochs[r] + 1];
      }
    }

    method DropPermits(id: Name)
      modifies `permits
      ensures permits == PermitsWithout(old(permits), {id})
    {
      ghost var p0 := permits;
      var rest := permits.Keys;
      while rest != {}
        invariant rest <= p0.Keys
        invariant forall q :: q in permits <==> q in p0 && (q in rest || p0[q].bindingID != id)
        invariant forall q | q in permits :: permits[q] == p0[q]
        decreases |rest|
      {
        var q :| q in rest;
        if permits[q].bindingID == id { permits := permits - {q}; }
        rest := rest - {q};
      }
    }

    method DropRequests(id: Name)
      modifies `active
      ensures active == RequestsWithout(old(active), {id})
    {
      ghost var a0 := active;
      var rest := active.Keys;
      while rest != {}
        invariant rest <= a0.Keys
        invariant forall q :: q in active <==> q in a0 && (q in rest || a0[q].bindingID != id)
        invariant forall q | q in active :: active[q] == a0[q]
        decreases |rest|
      {
        var q :| q in rest;
        if active[q].bindingID == id { active := active - {q}; }
        rest := rest - {q};
      }
    }

    method ActiveRequestCount(id: Name) returns (count: nat)
      ensures count == |OfBinding(active, id)|
    {
      count := 0;
      ghost var counted: set<nat> := {};
      var rest := active.Keys;
      while rest != {}
        invariant rest <= active.Keys
        invariant counted == OfBinding(active, id) - rest && count == |counted|
        decreases |rest|
      {
        var q :| q in rest;
        if active[q].bindingID == id {
          count := count + 1;
          counted := counted + {q};
        }
        rest := rest - {q};
      }
      assert counted == OfBinding(active, id);
    }

    /** The one binding of a tool session; none when there is no binding or more than one. */
    method BindingForSession(tool: Name) returns (found: Option<Name>)
      ensures found.Some? <==> |OfSession(bindings, tool)| == 1
      ensures found.Some? ==> OfSession(bindings, tool) == {found.value}
    {
      found := None;
      var rest := bindings.Keys;
      while rest != {}
        invariant rest <= bindings.Keys
        invariant OfSession(bindings, tool) - rest == if found.None? then {} else {found.value}
        invariant found.Some? ==> found.value in OfSession(bindings, tool)
        decreases |rest|
      {
        var id :| id in rest;
        rest := rest - {id};
        if bindings[id].metadata.toolSession == tool {
          if found.Some? {
            TwoAreNotOne(OfSession(bindings, tool), id, found.value);
            return None;
          }
          found := Some(id);
        }
      }
      assert OfSession(bindings, tool) - {} == OfSession(bindings, tool);
    }

    /** Clears every binding of a set that is attached. */
    method ClearAll(ids: set<Name>, now: int)
      requires Valid() && ids <= bindings.Keys
      modifies `permits, `active, `epochs, `consumed
      ensures Submap(consumed, old(consumed))
      ensures State() == ClearMaterials(old(State()), Once(ids)).(consumed := consumed)
    {
      hide Inv, ClearMaterials, Once, AddBump, Submap, PrunedFrom;
      ghost var s := State();
      ghost var done: set<Name> := {};
      var rest := ids;
      ClearNothing(s);
      OnceGrows({}, {});
      EpochsOfInv(cfg, s);
      SubmapRefl(consumed);
      while rest != {}
        invariant rest <= ids && done == ids - rest
        invariant Submap(consumed, s.consumed)
        invariant State() == ClearMaterials(s, Once(done)).(consumed := consumed)
        decreases |rest|
      {
        var id :| id in rest;
        ClearedEpochs(s, Once(done));
        ClearAgain(s, Once(done), id, now);
        OnceGrows(done, {id});
        rest, done := rest - {id}, done + {id};
      }
      assert done == ids;
    }

    // -------------------------------------------------------------- permits

    method IssuePermit(nonce: Name, tool: Name, env: IssueEnv) returns (reply: Reply<Permit>)
      requires Valid()
      modifies `permits, `active, `sequence, `disk
      ensures Valid()
      ensures (State(), reply) == Issue(cfg, old(State()), nonce, tool, env)
    {
      hide Inv, LivePermits, LiveRequests, Grant;
      IssueKeeps(cfg, State(), nonce, tool, env);
      PruneExpiredPermits(env.now);
      ghost var pruned := State();
      if nonce !in nonces || nonces[nonce] != tool { return Err(ErrUnavailable); }
      var found := BindingForSession(tool);
      if found.None? { return Err(ErrUnavailable); }
      var m := bindings[found.value].metadata;
      if m.status != Active || m.health != Healthy { return Err(ErrLeaseRenewalRequired); }
      if m.generation == 0 { return Err(ErrProtocol); }
      var count := ActiveRequestCount(m.bindingID);
      if count >= Min(cfg.maxParallel, m.maxParallel) { return Err(ErrConcurrency); }
      assert Admit(cfg, pruned, nonce, tool) == Ok(m);
      reply := GrantPermit(m, env);
    }

    /** Draws a number, persists it and registers the request. */
    method GrantPermit(m: Metadata, env: IssueEnv) returns (reply: Reply<Permit>)
      modifies `permits, `active, `sequence, `disk
      ensures (State(), reply) == Grant(old(State()), m, env)
    {
      if sequence >= MAX_UINT64 { return Err(ErrProtocol); }
      sequence := sequence + 1;
      if env.persistFails {
        sequence := sequence - 1;
        return Err(ErrPersist);
      }
      disk := sequence;
      if env.randomFails { return Err(ErrRandom); }
      var limit := Earliest(env.now + PERMIT_LIFETIME, m.leaseUntil);
      if limit.None? { return Err(ErrProtocol); }
      limit := Earliest(limit.value, m.absoluteTTL);
      if limit.None? { return Err(ErrProtocol); }
      if limit.value <= env.now { return Err(ErrLeaseExpired); }
      var p := Permit(m.bindingID, m.generation, env.requestID, sequence, limit.value);
      permits := permits[sequence := p];
      active := active[sequence := ActiveRequest(m.bindingID, m.generation, env.requestID, sequence, limit.value,
        false, false)];
      reply := Ok(p);
    }

    /** A number already spent is a replay as long as the window and the cap keep it. */
    method ConsumePermit(c: Submission) returns (reply: Reply<Permit>, ghost kept: map<nat, int>)
      requires Valid()
      modifies `permits, `active, `consumed
      ensures Valid() && PrunedFrom(old(consumed), kept, c.now)
      ensures (State(), reply) == Consume(old(State()).(consumed := kept), c)
      ensures c.sequence in old(consumed) && c.now < old(consumed)[c.sequence] + REPLAY_WINDOW ==>
        |InWindow(old(consumed), c.now)| <= MAX_REPLAY_ENTRIES ==> reply == Err(ErrReplay)
      ensures reply.Ok? ==> c.sequence in consumed && consumed[c.sequence] == c.now
    {
      hide Inv, PrunedFrom, Submap, Consume;
      PruneConsumed(c.now);
      kept := consumed;
      PrunedShrinks(old(consumed), consumed, c.now);
      ReplayShrinks(cfg, old(State()), State());
      ConsumeKeeps(cfg, State(), c);
      SubmissionExactly(cfg, State(), c);
      reply := TakePermit(c);
      if c.sequence in old(consumed) && c.now < old(consumed)[c.sequence] + REPLAY_WINDOW
         && |InWindow(old(consumed), c.now)| <= MAX_REPLAY_ENTRIES {
        SpentReplays(cfg, old(State()), kept, c);
      }
    }

    /** The checks and the hand-over, once the replay cache is pruned. */
    method TakePermit(c: Submission) returns (reply: Reply<Permit>)
      modifies `permits, `active, `consumed
      ensures (State(), reply) == Consume(old(State()), c)
    {
      var q := c.sequence;
      if q !in permits {
        return Err(if q in consumed then ErrReplay else ErrRevoked);
      }
      var p := permits[q];
      if p.bindingID != c.bindingID || p.generation != c.generation || p.requestID != c.requestID || p.sequence != q {
        return Err(ErrProtocol);
      }
      if c.payloadBytes < 0 || c.payloadBytes > MAX_PAYLOAD_BYTES {
        return Err(ErrProtocol);
      }
      if p.expiresAt <= c.now {
        permits, active := permits - {q}, active - {q};
        return Err(ErrLeaseExpired);
      }
      permits, consumed := permits - {q}, consumed[q := c.now];
      if q in active { active := active[q := active[q].(submitted := true)]; }
      reply := Ok(p);
    }

    method ReleaseRequest(q: nat)
      requires Valid()
      modifies `permits, `active
      ensures Valid() && State() == Drop(old(State()), q)
    {
      hide Inv;
      DropKeeps(cfg, State(), q);
      permits := permits - {q};
      active := active - {q};
    }

    // -------------------------------------------------------------- sending

    /** One pass of the waiting loop. */
    method TryTurn(id: Name, q: nat, tracked: bool, now: int) returns (turn: Turn)
      requires Valid()
      modifies `permits, `active
      ensures Valid() && State() == PruneExpired(old(State()), now)
      ensures turn == TakeTurn(State(), id, q, tracked)
    {
      hide Inv, LivePermits, LiveRequests;
      PruneKeeps(cfg, State(), now);
      PruneExpiredPermits(now);
      if !tracked && q !in active { return Passed; }
      if q !in active || active[q].bindingID != id || !active[q].submitted { return TurnRefused; }
      var blocked := false;
      var rest := active.Keys;
      while rest != {} && !blocked
        invariant rest <= active.Keys
        invariant blocked ==> !TurnFree(State(), id, q)
        invariant !blocked ==> forall other | other in active && other !in rest && active[other].bindingID == id
          && other < q :: active[other].sent
        decreases |rest|, !blocked
      {
        var other :| other in rest;
        if active[other].bindingID == id && other < q && !active[other].sent { blocked := true; }
        rest := rest - {other};
      }
      turn := if blocked then Blocked else Passed;
    }

    method MarkRequestSent(id: Name, q: nat)
      requires Valid()
      modifies `active
      ensures Valid() && State() == MarkSent(old(State()), id, q)
    {
      hide Inv;
      MarkSentKeeps(cfg, State(), id, q);
      if q in active && active[q].bindingID == id && active[q].submitted {
        active := active[q := active[q].(sent := true)];
      }
    }

    // -------------------------------------------------------------- leases

    /** Replaces one binding's state after clearing its materials the given number of times. */
    method ClearAndReplace(id: Name, b: BindingState, twice: bool, now: int)
      requires Valid() && id in bindings && BindingOk(id, b, epochs, snapshots)
      modifies `bindings, `permits, `active, `epochs, `consumed
      ensures Valid()
      ensures Submap(consumed, old(consumed))
      ensures State() == Replace(old(State()), id, b, if twice then 2 else 1).(consumed := consumed)
      ensures Replace(old(State()), id, b, if twice then 2 else 1).consumed == old(consumed)
    {
      hide Inv, ClearMaterials, AddBump, Submap, PrunedFrom, BindingOk;
      ghost var s := State();
      ReplaceKeeps(cfg, s, id, b, if twice then 2 else 1);
      EpochsOfInv(cfg, s);
      ClearNothing(s);
      SubmapRefl(consumed);
      ClearAgain(s, map[], id, now);
      AddBumpTwice(id);
      if twice {
        ClearAgain(s, map[id := 1], id, now);
      }
      ClearedEpochs(s, map[id := 1]);
      ClearedEpochs(s, map[id := 2]);
      bindings := bindings[id := b];
      ClearReplay(s, map[id := 1]);
      ClearReplay(s, map[id := 2]);
      ReplayShrinks(cfg, Replace(s, id, b, if twice then 2 else 1), State());
    }

    method RevokeBinding(id: Name, generation: nat, now: int)
      requires Valid()
      modifies `bindings, `permits, `active, `epochs, `consumed
      ensures Valid() && Next(cfg, old(State()), DoRevoke(id, generation), State())
    {
      if id in bindings && (generation == 0 || bindings[id].metadata.generation == generation) {
        hide Inv, Replace, Submap;
        BindingOfInv(cfg, State(), id);
        ClearAndReplace(id, Terminate(bindings[id], Revoked), false, now);
      }
    }

    method ExpireBinding(r: Ref, now: int)
      requires Valid()
      modifies `bindings, `permits, `active, `epochs, `consumed
      ensures Valid() && Next(cfg, old(State()), DoExpire(r), State())
    {
      if r.id in bindings && bindings[r.id].serial == r.serial && bindings[r.id].metadata.status == Active {
        hide Inv, Replace, Submap;
        BindingOfInv(cfg, State(), r.id);
        ClearAndReplace(r.id, Terminate(bindings[r.id], Expired), false, now);
      }
    }

    method MarkRenewalFailure(r: Ref, now: int)
      requires Valid()
      modifies `bindings, `permits, `active, `epochs, `consumed
      ensures Valid() && Next(cfg, old(State()), DoFail(r, now), State())
    {
      hide Inv, Replace, Submap;
      SubmapRefl(consumed);
      if r.id !in bindings || bindings[r.id].serial != r.serial { return; }
      var b := bindings[r.id];
      BindingOfInv(cfg, State(), r.id);
      if b.metadata.status != Active || b.terminal || b.metadata.health == LeaseExpired { return; }
      var over := b.metadata.health == RenewalGrace && b.metadata.graceUntil != Missing
                  && (!b.metadata.graceUntil.At? || b.metadata.graceUntil.time <= now);
      if over {
        ClearAndReplace(r.id, Terminate(b, Expired), true, now);
      } else {
        var grace := b.metadata.graceUntil;
        if grace == Missing || grace == Blank { grace := At(now + cfg.renewGrace); }
        ClearAndReplace(r.id, b.(metadata := b.metadata.(health := RenewalGrace, graceUntil := grace)), false, now);
      }
    }

    /** Committing a renewal answer that passed validation: the binding gets the answer's three times and is
        healthy, and nothing else changes. */
    method CommitRenewal(r: Ref, generation: nat, answer: Renewal) returns (committed: bool)
      requires Valid()
      modifies `bindings
      ensures Valid() && State() == Renew(old(State()), r, generation, answer)
      ensures committed <==> old(Attached(State(), r) && bindings[r.id].metadata.generation == generation
                                 && bindings[r.id].metadata.status == Active && !bindings[r.id].terminal)
      ensures bindings.Keys == old(bindings).Keys
      ensures committed ==> Prolongs(old(bindings)[r.id], answer, bindings[r.id])
      ensures forall id | id in bindings && !(committed && id == r.id) :: bindings[id] == old(bindings)[id]
    {
      hide Inv;
      RenewKeeps(cfg, State(), r, generation, answer);
      committed := r.id in bindings && bindings[r.id].serial == r.serial
                   && bindings[r.id].metadata.generation == generation
                   && bindings[r.id].metadata.status == Active && !bindings[r.id].terminal;
      if committed {
        var b := bindings[r.id];
        bindings := bindings[r.id := b.(metadata := b.metadata.(
          leaseUntil := answer.leaseUntil, health := Healthy, graceUntil := answer.graceUntil,
            absoluteTTL := answer.absoluteTTL))];
      }
    }

    // -------------------------------------------------------------- snapshots

    /** Replaces the binding snapshot. A list is accepted exactly when every entry is valid and none is listed
        twice, and then it is adopted; a refused list leaves everything as it was. */
    method SetBindings(offers: seq<Offer>, now: int) returns (accepted: bool)
      requires Valid()
      modifies `bindings, `permits, `active, `epochs, `consumed, `snapshots
      ensures Valid() && Next(cfg, old(State()), Snapshot(offers), State())
      ensures accepted <==> Acceptable(offers)
      ensures accepted ==> exists next :: ListedFrom(offers, next) && old(HasEpochs(State()))
                                          && Adopts(old(State()), next, State())
      ensures !accepted ==> State() == old(State())
    {
      hide Inv, Listed, Installed, Bumps, ClearMaterials, Submap, NewEpochs, NewRefs, Adopts, HasEpochs, Acceptable,
        ListedFrom;
      ListedExactly(offers);
      SnapshotKeeps(cfg, State(), offers);
      SubmapRefl(consumed);
      var listed := ReadOffers(offers);
      accepted := listed.Some?;
      if accepted {
        InstallListed(listed.value, now);
        ClearReplay(old(State()), Bumps(old(State()), listed.value));
        ReplayShrinks(cfg, Install(old(State()), listed.value), State());
        AppliedAdopts(cfg, old(State()), listed.value, State());
      }
    }

    /** The critical section of a snapshot that was read without error. */
    method InstallListed(next: map<Name, Metadata>, now: int)
      requires Valid()
      modifies `bindings, `permits, `active, `epochs, `consumed, `snapshots
      ensures Submap(consumed, old(consumed))
      ensures State() == Install(old(State()), next).(consumed := consumed)
    {
      hide Inv, Installed, Bumps, ClearMaterials, Submap, NewEpochs, NewRefs, BecomesListed;
      var merged := MergeListed(next, now);
      ClearedEpochs(old(State()), Bumps(old(State()), next));
      var added := map r | r in NewRefs(State(), next) :: 0;
      SameNewEpochs(old(State()), State(), next);
      epochs := epochs + added;
      bindings := merged;
      snapshots := snapshots + 1;
    }

    static method ReadOffers(offers: seq<Offer>) returns (listed: Option<map<Name, Metadata>>)
      ensures listed == Listed(offers)
    {
      var next: map<Name, Metadata> := map[];
      var i := 0;
      assert offers[..0] == [];
      while i < |offers|
        invariant 0 <= i <= |offers|
        invariant Listed(offers[..i]) == Some(next)
      {
        var m := ValidOffer(offers[i]);
        assert offers[..i + 1][..i] == offers[..i];
        if m.None? || m.value.bindingID in next {
          RefusedPrefix(offers, i + 1);
          return None;
        }
        next := next[m.value.bindingID := m.value];
        i := i + 1;
      }
      assert offers[..|offers|] == offers;
      listed := Some(next);
    }

    /** The pass over the attached bindings: what each becomes, clearing as it goes. */
    method MergeListed(next: map<Name, Metadata>, now: int) returns (merged: map<Name, BindingState>)
      requires Valid()
      modifies `permits, `active, `epochs, `consumed
      ensures merged == old(Installed(State(), next))
      ensures merged.Keys == next.Keys
      ensures forall id | id in next :: BecomesListed(old(State()), id, next[id], merged[id])
      ensures Submap(consumed, old(consumed))
      ensures State() == ClearMaterials(old(State()), old(Bumps(State(), next))).(consumed := consumed)
    {
      hide Inv, ClearMaterials, AddBump, Submap, BumpsOf, Merge, Installed, Bumps, MergedSoFar, BecomesListed;
      ghost var s := State();
      merged := map id | id in next :: BindingState(snapshots, next[id], false, 0);
      var rest := bindings.Keys;
      ClearNothing(s);
      EpochsOfInv(cfg, s);
      SubmapRefl(consumed);
      NoBumps(s, next);
      ghost var done: set<Name> := {};
      while rest != {}
        invariant rest <= s.bindings.Keys && done == s.bindings.Keys - rest
        invariant merged == MergedSoFar(s, next, done)
        invariant Submap(consumed, s.consumed)
        invariant State() == ClearMaterials(s, BumpsOf(s, next, done)).(consumed := consumed)
        decreases |rest|
      {
        var id :| id in rest;
        ClearedEpochs(s, BumpsOf(s, next, done));
        MergeOne(s, next, id, done, now);
        MergeGrows(s, next, id, done);
        if id in next { merged := merged[id := Merge(bindings[id], next[id])]; }
        rest, done := rest - {id}, done + {id};
      }
      assert done == s.bindings.Keys;
      AllBumps(s, next);
      InstalledKeys(s, next);
      forall id | id in next ensures BecomesListed(s, id, next[id], merged[id]) { InstalledMeans(cfg, s, next, id); }
    }

    /** Clears one attached binding as often as its entry calls for. */
    method MergeOne(ghost s: Core, next: map<Name, Metadata>, id: Name, ghost done: set<Name>, now: int)
      requires id !in done && id in s.bindings && Ref(id, s.bindings[id].serial) in s.epochs
      requires State() == ClearMaterials(s, BumpsOf(s, next, done)).(consumed := consumed)
        && Submap(consumed, s.consumed)
      modifies `permits, `active, `epochs, `consumed
      ensures State() == ClearMaterials(s, BumpsOf(s, next, done + {id})).(consumed := consumed)
        && Submap(consumed, s.consumed)
    {
      hide ClearMaterials, AddBump, Submap, BumpsOf;
      ghost var bumps := BumpsOf(s, next, done);
      ClearedEpochs(s, bumps);
      var b := bindings[id];
      BumpsGrow(s, next, done, id);
      if id !in next {
        ClearAgain(s, bumps, id, now);
      } else if !Stale(b, next[id]) {
        if next[id].generation != b.metadata.generation {
          ClearAgain(s, bumps, id, now);
          bumps := AddBump(bumps, id);
        }
        if b.metadata.toolSession != next[id].toolSession || b.metadata.allowlistRevision != next[id].allowlistRevision
           || b.metadata.learningDigest != next[id].learningDigest || b.metadata.status != next[id].status
           || b.metadata.health != next[id].health {
          ClearAgain(s, bumps, id, now);
        }
      }
    }

    method ClearAgain(ghost s: Core, ghost bumps: map<Name, nat>, id: Name, now: int)
      requires id in s.bindings && Ref(id, s.bindings[id].serial) in s.epochs
      requires State() == ClearMaterials(s, bumps).(consumed := consumed) && Submap(consumed, s.consumed)
      modifies `permits, `active, `epochs, `consumed
      ensures State() == ClearMaterials(s, AddBump(bumps, id)).(consumed := consumed) && Submap(consumed, s.consumed)
    {
      hide ClearMaterials, AddBump, PrunedFrom, Submap;
      ClearedEpochs(s, bumps);
      ghost var here := consumed;
      ClearBindingMaterials(id, now);
      SubmapTrans(consumed, here, s.consumed);
      ClearIgnoresReplay(ClearMaterials(s, bumps), map[id := 1], here);
      ClearOneMore(s, bumps, id);
    }

    // -------------------------------------------------------------- tool sessions

    /** `tokens` are the random tokens drawn; the loop takes the first unused one. */
    method RegisterToolSession(tool: Name, tokens: seq<Name>) returns (reply: Reply<(Name, bool)>)
      requires Valid()
      modifies `sessions, `nonces
      ensures Valid()
      ensures reply == Err(ErrUnavailable) || reply == Err(ErrRandom) ==> State() == old(State())
      ensures reply.Ok? ==> tool in sessions && sessions[tool] == reply.value.0 && nonces[reply.value.0] == tool
      ensures reply.Ok? ==> State() == Register(old(State()), tool, reply.value.0)
      ensures reply.Ok? && reply.value.1 <==>
        tool !in old(sessions) && !closed && exists i :: 0 <= i < |tokens| && tokens[i] !in old(nonces)
      ensures old(closed) <==> reply == Err(ErrUnavailable)
      ensures reply.Err? ==> reply.error in {ErrUnavailable, ErrRandom}
    {
      ghost var s := State();
      if closed { return Err(ErrUnavailable); }
      if tool in sessions {
        return Ok((sessions[tool], false));
      }
      var i := 0;
      while i < |tokens|
        invariant 0 <= i <= |tokens| && State() == s
        invariant forall k | 0 <= k < i :: tokens[k] in nonces
      {
        if tokens[i] !in nonces {
          RegisterKeeps(cfg, s, tool, tokens[i]);
          hide Inv;
          sessions, nonces := sessions[tool := tokens[i]], nonces[tokens[i] := tool];
          return Ok((tokens[i], true));
        }
        i := i + 1;
      }
      reply := Err(ErrRandom);
    }

    /** Checks an existing grant and gives none. */
    method VerifyToolSessionPeer(tool: Name, nonce: Name, uid: nat) returns (ok: bool)
      requires Valid()
      ensures ok <==>
        && !closed && uid != 0 && tool in sessions && sessions[tool] == nonce && tool in peerUIDs
          && peerUIDs[tool] == uid
    {
      assert SessionsOk(sessions, nonces, peerUIDs);
      hide Inv;
      if uid == 0 { return false; }
      if closed { return false; }
      if tool !in sessions || sessions[tool] != nonce || nonce !in nonces || nonces[nonce] != tool { return false; }
      ok := tool in peerUIDs && peerUIDs[tool] == uid;
    }

    /** Grants a session's peer; `prepared` says that the socket could be opened to it. A session that has a
        peer already is only checked, so its peer never changes. */
    method AuthorizeToolSessionPeer(tool: Name, nonce: Name, uid: nat, prepared: bool) returns (ok: bool)
      requires Valid()
      modifies `peerUIDs
      ensures Valid()
      ensures ok <==>
        && tool in sessions && sessions[tool] == nonce
        && (if tool in old(peerUIDs) then !closed && uid != 0 && old(peerUIDs)[tool] == uid else prepared)
      ensures peerUIDs == if ok then old(peerUIDs)[tool := uid] else old(peerUIDs)
      ensures ok ==> State() == Authorize(old(State()), tool, nonce, uid)
    {
      AuthorizeKeeps(cfg, State(), tool, nonce, uid);
      assert SessionsOk(sessions, nonces, peerUIDs);
      hide Inv;
      if tool !in sessions || sessions[tool] != nonce { return false; }
      if tool in peerUIDs {
        ok := VerifyToolSessionPeer(tool, nonce, uid);
        assert ok ==> peerUIDs == peerUIDs[tool := uid];
        return;
      }
      if !prepared { return false; }
      peerUIDs := peerUIDs[tool := uid];
      ok := true;
    }

    method UnregisterToolSession(tool: Name, expected: Option<Name>, now: int) returns (removed: bool)
      requires Valid()
      modifies `sessions, `nonces, `peerUIDs, `permits, `active, `epochs, `consumed
      ensures Valid() && Next(cfg, old(State()), DoUnregister(tool, expected), State())
      ensures removed <==> tool in old(sessions) && (expected.Some? ==> old(sessions)[tool] == expected.value)
    {
      hide Inv, ClearMaterials, Submap, OfSession;
      SubmapRefl(consumed);
      ghost var s := State();
      UnregisterKeeps(cfg, s, tool, expected);
      removed := tool in sessions && (expected.Some? ==> sessions[tool] == expected.value);
      if removed {
        SessionBindings(bindings, tool);
        ClearAll(OfSession(bindings, tool), now);
        nonces := nonces - {sessions[tool]};
        sessions, peerUIDs := sessions - {tool}, peerUIDs - {tool};
        ClearReplay(s, Once(OfSession(s.bindings, tool)));
        ReplayShrinks(cfg, Unregister(s, tool, expected), State());
      }
    }

    method ReloadAll(now: int)
      requires Valid()
      modifies `permits, `active, `epochs, `consumed
      ensures Valid() && Next(cfg, old(State()), Reload, State())
    {
      hide Inv, ClearMaterials, Submap;
      ghost var s := State();
      ClearKeeps(cfg, s, Once(bindings.Keys));
      ClearAll(bindings.Keys, now);
      ClearReplay(s, Once(s.bindings.Keys));
      ReplayShrinks(cfg, ClearMaterials(s, Once(s.bindings.Keys)), State());
    }

    /** Closing: the stop signal, a reload, and a second critical section for the capabilities. When
        nothing interleaves, no authorisation material is left. */
    method Close(now: int)
      requires Valid()
      modifies `closed, `permits, `active, `epochs, `consumed, `sessions, `nonces, `peerUIDs
      ensures Valid() && closed
      ensures permits == map[] && active == map[] && sessions == map[] && nonces == map[] && peerUIDs == map[]
    {
      hide Inv, Next;
      CloseStepsKeep(cfg, State());
      closed := true;
      ReloadAll(now);
      ReloadedIsEmpty(cfg, old(State()), State());
      CloseStepsKeep(cfg, State());
      sessions, nonces, peerUIDs := map[], map[], map[];
    }

    method ReloadToolSession(tool: Name, now: int)
      requires Valid()
      modifies `permits, `active, `epochs, `consumed
      ensures Valid() && Next(cfg, old(State()), ReloadTool(tool), State())
    {
      hide Inv, ClearMaterials, Submap, OfSession;
      ghost var s := State();
      SessionBindings(bindings, tool);
      ClearKeeps(cfg, s, Once(OfSession(bindings, tool)));
      ClearAll(OfSession(bindings, tool), now);
      ClearReplay(s, Once(OfSession(s.bindings, tool)));
      ReplayShrinks(cfg, ClearMaterials(s, Once(OfSession(s.bindings, tool))), State());
    }
  }

  lemma CloseStepsKeep(cfg: Config, s: Core)
    requires Inv(cfg, s)
    ensures Inv(cfg, s.(closed := true))
    ensures s.closed ==> Inv(cfg, s.(sessions := map[], nonces := map[], peerUIDs := map[]))
  {
    hide Inv;
    CloseKeeps(cfg, s);
  }

  /** Every request and permit belongs to an attached binding, so clearing them all leaves none. */
  lemma ReloadedIsEmpty(cfg: Config, s: Core, s': Core)
    requires Inv(cfg, s) && Next(cfg, s.(closed := true), Reload, s')
    ensures s'.active == map[] && s'.permits == map[] && s'.closed
  {
    assert s'.active == map[] by {
      forall q | q in s.active ensures s.active[q].bindingID in s.bindings {
        assert RequestOk(q, s.active[q], s.bindings, s.sequence);
      }
    }
    assert s'.permits == map[] by {
      forall q | q in s.permits ensures s.permits[q].bindingID in s.bindings {
        assert RequestOk(q, s.active[q], s.bindings, s.sequence);
      }
    }
  }

  lemma TwoAreNotOne(ids: set<Name>, a: Name, b: Name)
    requires a in ids && b in ids && a != b
    ensures |ids| != 1
  {
    assert |ids - {a}| == |ids| - 1;
  }

  lemma SubmapRefl<V>(m: map<nat, V>)
    ensures Submap(m, m)
  {
  }

  lemma OnceGrows(done: set<Name>, ids: set<Name>)
    ensures Once({}) == map[]
    ensures forall id | id in ids && id !in done :: AddBump(Once(done), id) == Once(done + {id})
  {
  }

  lemma EpochsOfInv(cfg: Config, s: Core)
    requires Inv(cfg, s)
    ensures forall id | id in s.bindings :: Ref(id, s.bindings[id].serial) in s.epochs
  {
    forall id | id in s.bindings ensures Ref(id, s.bindings[id].serial) in s.epochs {
      assert BindingOk(id, s.bindings[id], s.epochs, s.snapshots);
    }
  }

  lemma BindingOfInv(cfg: Config, s: Core, id: Name)
    requires Inv(cfg, s) && id in s.bindings
    ensures BindingOk(id, s.bindings[id], s.epochs, s.snapshots)
  {
  }

  lemma ClearedEpochs(s: Core, bumps: map<Name, nat>)
    ensures ClearMaterials(s, bumps).epochs.Keys == s.epochs.Keys
    ensures ClearMaterials(s, bumps).bindings == s.bindings
    ensures ClearMaterials(s, bumps).snapshots == s.snapshots
  {
  }

  function BumpsOf(s: Core, next: map<Name, Metadata>, ids: set<Name>): map<Name, nat> {
    map id | id in ids && id in s.bindings && (id !in next || Drift(s.bindings[id], next[id]) > 0) ::
      if id in next then Drift(s.bindings[id], next[id]) else 1
  }

  function MergedSoFar(s: Core, next: map<Name, Metadata>, done: set<Name>): map<Name, BindingState> {
    map id | id in next ::
      if id in s.bindings && id in done then Merge(s.bindings[id], next[id])
        else BindingState(s.snapshots, next[id], false, 0)
  }

  lemma MergeGrows(s: Core, next: map<Name, Metadata>, id: Name, done: set<Name>)
    requires id in s.bindings
    ensures MergedSoFar(s, next, done + {id}) ==
            if id in next then MergedSoFar(s, next, done)[id := Merge(s.bindings[id], next[id])]
              else MergedSoFar(s, next, done)
  {
  }

  lemma NoBumps(s: Core, next: map<Name, Metadata>)
    ensures BumpsOf(s, next, {}) == map[]
    ensures MergedSoFar(s, next, {}) == map id | id in next :: BindingState(s.snapshots, next[id], false, 0)
  {
  }

  lemma InstalledKeys(s: Core, next: map<Name, Metadata>)
    ensures Installed(s, next).Keys == next.Keys
  {
  }

  lemma AllBumps(s: Core, next: map<Name, Metadata>)
    ensures BumpsOf(s, next, s.bindings.Keys) == Bumps(s, next)
    ensures MergedSoFar(s, next, s.bindings.Keys) == Installed(s, next)
  {
  }

  /** The bumps of one more binding: none, one or two clearings. */
  lemma BumpsGrow(s: Core, next: map<Name, Metadata>, done: set<Name>, id: Name)
    requires id in s.bindings && id !in done
    ensures var times := if id in next then Drift(s.bindings[id], next[id]) else 1;
            && times <= 2
            && BumpsOf(s, next, done + {id}) ==
               if times == 0 then BumpsOf(s, next, done)
               else if times == 1 then AddBump(BumpsOf(s, next, done), id)
               else AddBump(AddBump(BumpsOf(s, next, done), id), id)
  {
  }

  lemma SameNewEpochs(s: Core, s': Core, next: map<Name, Metadata>)
    requires s'.bindings == s.bindings && s'.snapshots == s.snapshots
    ensures (map r | r in NewRefs(s', next) :: 0) == NewEpochs(s, next)
  {
  }

  lemma AddBumpTwice(id: Name)
    ensures AddBump(map[], id) == map[id := 1] && AddBump(map[id := 1], id) == map[id := 2]
  {
  }

  lemma ClearReplay(s: Core, bumps: map<Name, nat>)
    ensures ClearMaterials(s, bumps).consumed == s.consumed
  {
  }

  lemma SessionBindings(bindings: map<Name, BindingState>, tool: Name)
    ensures OfSession(bindings, tool) <= bindings.Keys
  {
  }

  lemma ClearIgnoresReplay(s: Core, bumps: map<Name, nat>, consumed: map<nat, int>)
    ensures ClearMaterials(s.(consumed := consumed), bumps) == ClearMaterials(s, bumps).(consumed := consumed)
  {
  }

  lemma ReplayShrinks(cfg: Config, s: Core, s': Core)
    requires Inv(cfg, s) && Submap(s'.consumed, s.consumed) && s' == s.(consumed := s'.consumed)
    ensures Inv(cfg, s')
  {
    hide Inv;
    assert PermitsOk(s'.permits, s'.active) by { PermitsOfInv(cfg, s); }
    hide PermitsOk;
    ShrinkKeeps(cfg, s, s');
  }

  lemma PermitsOfInv(cfg: Config, s: Core)
    requires Inv(cfg, s)
    ensures PermitsOk(s.permits, s.active)
  {
  }

  /** A list with a refused prefix is refused. */
  lemma {:induction false} RefusedPrefix(offers: seq<Offer>, i: nat)
    requires i <= |offers| && Listed(offers[..i]).None?
    ensures Listed(offers).None?
    decreases |offers| - i
  {
    if i == |offers| {
      assert offers[..i] == offers;
    } else {
      assert offers[..i + 1][..i] == offers[..i];
      RefusedPrefix(offers, i + 1);
    }
  }
}
