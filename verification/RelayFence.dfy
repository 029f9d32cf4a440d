/** The revocation fence: forwards opening a relay against revocation and expiry. */
module RelayFence {
  import opened BrokerCore
  import opened BrokerInvariant
  import opened BrokerLease
  import opened BrokerSnapshot
  import opened Options
  import opened RelayEpochs
  import opened RelayWorld
  import X = RelayExchange

  // ---------------------------------------------------------------- invariant of the interleaving

  /** The thread has looked at the epoch. */
  predicate HasEpoch(f: Forward) { f.Captured? || f.Turned? || IsValidated(f) }

  predicate IsValidated(f: Forward) { f.Validated? || f.Opening? || f.Rechecked? }

  /** A thread's object has an epoch; the captured epoch is not ahead of it; and a validated thread
      whose epoch is still current still has its authority. */
  ghost predicate ForwardOk(s: Core, f: Forward) {
    && (!f.Finished? ==> f.ref in s.epochs)
    && (HasEpoch(f) ==> f.epoch <= s.epochs[f.ref])
    && (IsValidated(f) ==> f.epoch == s.epochs[f.ref] ==> Authorises(s, f.ref, f.generation))
  }

  ghost predicate ForwardsOk(s: Core, forwards: map<nat, Forward>) {
    forall q | q in forwards :: ForwardOk(s, forwards[q])
  }

  /** At most one thread holds a relay mutex. */
  ghost predicate Exclusive(forwards: map<nat, Forward>) {
    forall t, u, r | t in forwards && u in forwards && Holds(forwards[t], r) && Holds(forwards[u], r) :: t == u
  }

  ghost predicate WorldInv(cfg: Config, w: World) {
    Inv(cfg, w.core) && ForwardsOk(w.core, w.forwards) && Exclusive(w.forwards)
  }

  lemma ForwardOkStep(cfg: Config, s: Core, e: Event, s': Core, f: Forward)
    requires Inv(cfg, s) && Next(cfg, s, e, s') && !e.Crash? && ForwardOk(s, f)
    ensures ForwardOk(s', f)
  {
    hide Inv, Next;
    if !f.Finished? {
      StepGuards(cfg, s, e, s', f.ref, if HasEpoch(f) then f.generation else 0);
    }
  }

  lemma ForwardsOkStep(cfg: Config, s: Core, e: Event, s': Core, forwards: map<nat, Forward>)
    requires Inv(cfg, s) && Next(cfg, s, e, s') && !e.Crash? && ForwardsOk(s, forwards)
    ensures ForwardsOk(s', forwards)
  {
    hide Inv, Next, ForwardOk;
    forall q | q in forwards ensures ForwardOk(s', forwards[q]) {
      ForwardOkStep(cfg, s, e, s', forwards[q]);
    }
  }

  /** Looking at the turn and marking keep what a thread knows of its object. */
  lemma LockedThreadOk(cfg: Config, w: World, a: Step, w': World)
    requires (a.Turn? || a.Mark?) && LockedNext(cfg, w, a, w') && ForwardsOk(w'.core, w.forwards)
    ensures a.thread in w'.forwards && ForwardOk(w'.core, w'.forwards[a.thread])
  {
    hide CoreStep, TakeTurn, Authorises;
    assert ForwardOk(w'.core, w.forwards[a.thread]);
  }

  lemma OpenThreadOk(cfg: Config, w: World, a: Step, w': World)
    requires Opens(a) && OpenNext(w, a, w') && WorldInv(cfg, w)
    ensures a.thread in w'.forwards && ForwardOk(w.core, w'.forwards[a.thread])
  {
    if a.Find? {
      FindThreadOk(cfg, w, a, w');
    } else {
      assert a.thread in w.forwards && ForwardOk(w.core, w.forwards[a.thread]);
      FoundThreadOk(w, a, w');
    }
  }

  lemma FindThreadOk(cfg: Config, w: World, a: Step, w': World)
    requires a.Find? && OpenNext(w, a, w') && Inv(cfg, w.core)
    ensures a.thread in w'.forwards && ForwardOk(w.core, w'.forwards[a.thread])
  {
    AttachedHasEpoch(cfg, w.core, Ref(w.accepted[a.thread], w.core.bindings[w.accepted[a.thread]].serial));
  }

  lemma FoundThreadOk(w: World, a: Step, w': World)
    requires Opens(a) && !a.Find? && OpenNext(w, a, w') && a.thread in w.forwards
    requires ForwardOk(w.core, w.forwards[a.thread])
    ensures a.thread in w'.forwards && ForwardOk(w.core, w'.forwards[a.thread])
  {
    hide LockFree, LiveRelay, Authorises, Authority, Attached;
  }

  lemma TalkThreadOk(w: World, a: Step, w': World)
    requires Talks(a) && TalkNext(w, a, w') && ForwardsOk(w.core, w.forwards)
    ensures a.thread in w'.forwards && ForwardOk(w.core, w'.forwards[a.thread])
  {
    hide X.Enabled, X.Do, X.Closed;
    assert ForwardOk(w.core, w.forwards[a.thread]);
  }

  lemma OneMoreOk(s: Core, forwards: map<nat, Forward>, thread: Option<nat>, forwards': map<nat, Forward>)
    requires ForwardsOk(s, forwards) && OneMoves(forwards, thread, forwards')
    requires thread.Some? ==> ForwardOk(s, forwards'[thread.value])
    ensures ForwardsOk(s, forwards')
  {
    hide ForwardOk;
  }

  /** A thread that does not hold a mutex afterwards, or found it free, leaves at most one holder. */
  lemma OneMoreExclusive(forwards: map<nat, Forward>, thread: Option<nat>, forwards': map<nat, Forward>)
    requires Exclusive(forwards) && OneMoves(forwards, thread, forwards')
    requires thread.Some? ==> forall r | Holds(forwards'[thread.value], r) ::
      || (thread.value in forwards && Holds(forwards[thread.value], r))
      || (forall t | t in forwards :: !Holds(forwards[t], r))
    ensures Exclusive(forwards')
  {
  }

  lemma OpenExclusive(w: World, a: Step, w': World)
    requires Opens(a) && OpenNext(w, a, w') && Exclusive(w.forwards)
    ensures Exclusive(w'.forwards)
  {
    OpenShape(w, a, w');
    OneMoreExclusive(w.forwards, ThreadOf(a), w'.forwards);
    hide Exclusive, OneMoves, Authority, Attached, Authorises, LiveRelay;
  }

  lemma LockedStepKeeps(cfg: Config, w: World, a: Step, w': World)
    requires ValidConfig(cfg) && Locks(a) && WorldInv(cfg, w) && LockedNext(cfg, w, a, w')
    ensures WorldInv(cfg, w')
  {
    hide Inv, Next, ForwardsOk, Exclusive, LockedNext, OneMoves, Notifies, Holds;
    LockedShape(cfg, w, a, w');
    var e := EventOf(w, a).value;
    NextKeeps(cfg, w.core, e, w'.core);
    ForwardsOkStep(cfg, w.core, e, w'.core, w.forwards);
    if a.Locked? {
      OneMoreOk(w'.core, w.forwards, None, w'.forwards);
    } else {
      LockedThreadOk(cfg, w, a, w');
      LockedMovesOn(cfg, w, a, w');
      OneMoreOk(w'.core, w.forwards, Some(a.thread), w'.forwards);
      NobodyHolds(w'.forwards[a.thread]);
    }
    OneMoreExclusive(w.forwards, ThreadOf(a), w'.forwards);
  }

  lemma NobodyHolds(f: Forward)
    requires !f.Opening? && !f.Rechecked?
    ensures forall r :: !Holds(f, r)
  {
  }

  lemma WorldStepKeeps(cfg: Config, w: World, a: Step, w': World)
    requires ValidConfig(cfg) && WorldInv(cfg, w) && WorldNext(cfg, w, a, w')
    ensures WorldInv(cfg, w')
  {
    hide Inv, ForwardsOk, Exclusive, LockedNext, OpenNext, TalkNext, CloseNext, OneMoves, Holds, ForwardOk;
    if Locks(a) {
      LockedStepKeeps(cfg, w, a, w');
    } else if Opens(a) {
      OpenShape(w, a, w');
      OpenThreadOk(cfg, w, a, w');
      OneMoreOk(w.core, w.forwards, Some(a.thread), w'.forwards);
      OpenExclusive(w, a, w');
    } else if Talks(a) {
      TalkShape(w, a, w');
      TalkThreadOk(w, a, w');
      TalkMovesOn(w, a, w');
      NobodyHolds(w'.forwards[a.thread]);
      OneMoreOk(w.core, w.forwards, Some(a.thread), w'.forwards);
      OneMoreExclusive(w.forwards, Some(a.thread), w'.forwards);
    } else {
      CloseShape(w, a, w');
    }
  }

  lemma {:induction false} WorldRunInv(cfg: Config, worlds: seq<World>, steps: seq<Step>, i: nat)
    requires WorldRun(cfg, worlds, steps) && i < |worlds|
    ensures WorldInv(cfg, worlds[i])
  {
    hide Inv, WorldNext;
    if i == 0 {
      FreshInv(cfg, worlds[0].core.sequence);
    } else {
      WorldRunInv(cfg, worlds, steps, i - 1);
      hide WorldInv;
      WorldStepKeeps(cfg, worlds[i - 1], steps[i - 1], worlds[i]);
    }
  }

  // ---------------------------------------------------------------- obtaining a relay

  lemma LookGuards(cfg: Config, w: World, a: Step, w': World)
    requires WorldNext(cfg, w, a, w') && (a.Reuse? || a.Lock? || a.Recheck?)
    ensures a.thread in w.forwards && IsValidated(w.forwards[a.thread]) && var f := w.forwards[a.thread];
            && f.ref in w.core.epochs && w.core.epochs[f.ref] == f.epoch && (a.Recheck? || LockFree(w, f.ref))
            && (!a.Reuse? ==> !w.core.closed) && (a.Lock? ==> !LiveRelay(w, f.ref))
            && (a.Reuse? ==> LiveRelay(w, f.ref) && w'.forwards[a.thread] == Ready(f.ref, w.relays[f.ref]))
  {
    hide LockedNext, TalkNext, CloseNext, LockFree, Authority, Attached, Authorises;
  }

  /** How a thread comes to have an epoch: it had it, or captures it now. */
  predicate EpochFrom(w: World, a: Step, q: nat, f': Forward)
    requires HasEpoch(f')
  {
    && q in w.forwards && var f := w.forwards[q];
    || (HasEpoch(f) && (f.ref, f.generation, f.epoch) == (f'.ref, f'.generation, f'.epoch))
    || (a == Capture(q) && f == Seen(f'.ref, f'.generation) && f'.ref in w.core.epochs
        && w.core.epochs[f'.ref] == f'.epoch)
  }

  lemma LockedEpoch(cfg: Config, w: World, a: Step, w': World)
    requires (a.Turn? || a.Mark?) && LockedNext(cfg, w, a, w')
    ensures a.thread in w'.forwards && (HasEpoch(w'.forwards[a.thread]) ==>
      EpochFrom(w, a, a.thread, w'.forwards[a.thread]))
  {
    hide CoreStep, TakeTurn;
  }

  lemma OpenEpoch(w: World, a: Step, w': World)
    requires Opens(a) && OpenNext(w, a, w')
    ensures a.thread in w'.forwards && (HasEpoch(w'.forwards[a.thread]) ==>
      EpochFrom(w, a, a.thread, w'.forwards[a.thread]))
  {
    hide LockFree, LiveRelay, Authority, Attached, Authorises;
  }

  lemma TalkEpoch(w: World, a: Step, w': World)
    requires Talks(a) && TalkNext(w, a, w')
    ensures a.thread in w'.forwards && !HasEpoch(w'.forwards[a.thread])
  {
    hide X.Enabled, X.Do, X.Closed;
  }

  lemma HasEpochStep(cfg: Config, w: World, a: Step, w': World, q: nat)
    requires WorldNext(cfg, w, a, w') && q in w'.forwards && HasEpoch(w'.forwards[q])
    ensures EpochFrom(w, a, q, w'.forwards[q])
  {
    hide CoreStep, LockedNext, OpenNext, TalkNext, CloseNext, HasEpoch;
    StepShape(cfg, w, a, w');
    if ThreadOf(a) == Some(q) {
      if Locks(a) { LockedEpoch(cfg, w, a, w'); }
      else if Opens(a) { OpenEpoch(w, a, w'); }
      else { TalkEpoch(w, a, w'); }
    }
  }

  lemma {:induction false} CapturedBefore(cfg: Config, worlds: seq<World>, steps: seq<Step>, i: nat, q: nat)
    returns (c: nat)
    requires WorldRun(cfg, worlds, steps) && i < |worlds| && q in worlds[i].forwards && HasEpoch(worlds[i].forwards[q])
    ensures c < i && steps[c] == Capture(q) && var f := worlds[i].forwards[q];
            f.ref in worlds[c].core.epochs && worlds[c].core.epochs[f.ref] == f.epoch
  {
    hide WorldNext;
    assert i > 0;
    HasEpochStep(cfg, worlds[i - 1], steps[i - 1], worlds[i], q);
    if HasEpoch(worlds[i - 1].forwards[q]) {
      c := CapturedBefore(cfg, worlds, steps, i - 1, q);
    } else {
      c := i - 1;
    }
  }

  lemma {:induction false} EpochsGrow(cfg: Config, worlds: seq<World>, steps: seq<Step>, i: nat, j: nat, r: Ref)
    requires WorldRun(cfg, worlds, steps) && i <= j < |worlds| && r in worlds[i].core.epochs
    ensures r in worlds[j].core.epochs && worlds[i].core.epochs[r] <= worlds[j].core.epochs[r]
    decreases j - i
  {
    hide WorldNext, Inv;
    if i < j {
      EpochsGrow(cfg, worlds, steps, i, j - 1, r);
      WorldRunInv(cfg, worlds, steps, j - 1);
      hide ForwardsOk, Exclusive, Next, Notifies;
      var w, a, w' := worlds[j - 1], steps[j - 1], worlds[j];
      StepShape(cfg, w, a, w');
      if EventOf(w, a).Some? { StepGuards(cfg, w.core, EventOf(w, a).value, w'.core, r, 0); }
    }
  }

  /** Whenever a thread takes over a live relay, takes the relay mutex to open one, or looks again before it
      installs one, its generation still has its authority, and nothing has cleared the object's materials since
      the thread captured the epoch; a relay is opened only on a broker that is not closed, and taken over or
      opened only while no thread holds the relay mutex. */
  lemma ObtainsUnderAuthority(cfg: Config, worlds: seq<World>, steps: seq<Step>, i: nat, q: nat) returns (c: nat)
    requires WorldRun(cfg, worlds, steps) && i < |steps| && steps[i] in {Reuse(q), Lock(q), Recheck(q)}
    ensures q in worlds[i].forwards && IsValidated(worlds[i].forwards[q]) && var f := worlds[i].forwards[q];
            && Authorises(worlds[i].core, f.ref, f.generation) && c < i && steps[c] == Capture(q)
            && (forall k | c <= k <= i :: f.ref in worlds[k].core.epochs && worlds[k].core.epochs[f.ref] == f.epoch)
            && (steps[i] == Reuse(q) ==>
                  LiveRelay(worlds[i], f.ref) && worlds[i + 1].forwards[q] == Ready(f.ref, worlds[i].relays[f.ref]))
            && (steps[i] != Reuse(q) ==> !worlds[i].core.closed)
            && (steps[i] != Recheck(q) ==> LockFree(worlds[i], f.ref))
  {
    LookGuards(cfg, worlds[i], steps[i], worlds[i + 1]);
    hide WorldNext;
    var f := worlds[i].forwards[q];
    WorldRunInv(cfg, worlds, steps, i);
    assert ForwardOk(worlds[i].core, f);
    hide Inv, ForwardsOk, Exclusive, Authorises, LiveRelay, LockFree;
    c := CapturedBefore(cfg, worlds, steps, i, q);
    forall k | c <= k <= i ensures f.ref in worlds[k].core.epochs && worlds[k].core.epochs[f.ref] == f.epoch {
      EpochsGrow(cfg, worlds, steps, c, k, f.ref);
      EpochsGrow(cfg, worlds, steps, k, i, f.ref);
    }
  }

  // ---------------------------------------------------------------- the fence

  /** No relay, and no thread past its second look at the epoch. */
  ghost predicate Sealed(w: World, r: Ref) {
    r !in w.relays && forall t | t in w.forwards :: !(w.forwards[t].Rechecked? && w.forwards[t].ref == r)
  }

  /** Once sealed, an ended object gets no relay: a thread would need a current epoch to pass its second
      look, a current epoch means live authority, and an ended object has none. */
  lemma SealedStep(cfg: Config, w: World, a: Step, w': World, r: Ref, g: nat)
    requires WorldInv(cfg, w) && WorldNext(cfg, w, a, w') && Over(w.core, r, g) && Sealed(w, r)
    ensures Sealed(w', r)
  {
    hide LockedNext, TalkNext, CoreStep, CloseNext, OpenNext;
    if Opens(a) {
      SealedOpen(cfg, w, a, w', r, g);
    } else {
      hide Inv;
      SealedOtherwise(cfg, w, a, w', r);
    }
  }

  lemma SealedOpen(cfg: Config, w: World, a: Step, w': World, r: Ref, g: nat)
    requires WorldInv(cfg, w) && Opens(a) && OpenNext(w, a, w') && Over(w.core, r, g) && Sealed(w, r)
    ensures Sealed(w', r)
  {
    if a.Recheck? && w.forwards[a.thread].ref == r {
      assert ForwardOk(w.core, w.forwards[a.thread]);
      DeadHasNoAuthority(cfg, w.core, r, g, w.forwards[a.thread].generation);
    }
    hide Inv, LockFree, LiveRelay, Exclusive;
  }

  lemma SealedOtherwise(cfg: Config, w: World, a: Step, w': World, r: Ref)
    requires !Opens(a) && WorldNext(cfg, w, a, w') && Sealed(w, r)
    ensures Sealed(w', r)
  {
    hide LockedNext, TalkNext, CoreStep;
    if Locks(a) {
      LockedShape(cfg, w, a, w');
      if !a.Locked? { LockedMovesOn(cfg, w, a, w'); }
    } else if Talks(a) {
      TalkShape(w, a, w');
      TalkMovesOn(w, a, w');
    } else {
      hide X.Enabled, X.Do, LockFree;
    }
  }

  lemma WorldOverStep(cfg: Config, w: World, a: Step, w': World, r: Ref, g: nat)
    requires WorldInv(cfg, w) && WorldNext(cfg, w, a, w') && Over(w.core, r, g) && !Superseded(w'.core, r, g)
    ensures Over(w'.core, r, g)
  {
    hide Inv, Next, Over, WorldNext, Notifies;
    StepShape(cfg, w, a, w');
    if EventOf(w, a).Some? {
      OverStep(cfg, w.core, EventOf(w, a).value, w'.core, r, g);
    }
  }

  lemma {:induction false} OverUntilSuperseded(cfg: Config, worlds: seq<World>, steps: seq<Step>, i: nat, j: nat,
      r: Ref, g: nat)
    requires WorldRun(cfg, worlds, steps) && i <= j < |worlds| && Over(worlds[i].core, r, g)
    requires forall k | i < k <= j :: !Superseded(worlds[k].core, r, g)
    ensures Over(worlds[j].core, r, g)
    decreases j - i
  {
    hide WorldNext, WorldInv, Over;
    if i < j {
      OverUntilSuperseded(cfg, worlds, steps, i, j - 1, r, g);
      WorldRunInv(cfg, worlds, steps, j - 1);
      WorldOverStep(cfg, worlds[j - 1], steps[j - 1], worlds[j], r, g);
    }
  }

  lemma {:induction false} SealedUntilSuperseded(
    cfg: Config, worlds: seq<World>, steps: seq<Step>, i: nat, j: nat, r: Ref, g: nat)
    requires WorldRun(cfg, worlds, steps) && i <= j < |worlds| && Over(worlds[i].core, r, g) && Sealed(worlds[i], r)
    requires forall k | i < k <= j :: !Superseded(worlds[k].core, r, g)
    ensures Sealed(worlds[j], r)
    decreases j - i
  {
    hide WorldNext, WorldInv, Over, Sealed;
    if i < j {
      SealedUntilSuperseded(cfg, worlds, steps, i, j - 1, r, g);
      OverUntilSuperseded(cfg, worlds, steps, i, j - 1, r, g);
      WorldRunInv(cfg, worlds, steps, j - 1);
      SealedStep(cfg, worlds[j - 1], steps[j - 1], worlds[j], r, g);
    }
  }

  lemma CloseSeals(cfg: Config, w: World, a: Step, w': World, r: Ref)
    requires WorldNext(cfg, w, a, w') && a.CloseRelay? && w.closers[a.token] == Owes(r)
    ensures Sealed(w', r)
  {
    hide LockedNext, OpenNext, TalkNext;
  }

  /** If generation `g` of an object has ended at step `i`, and a call has since detached its relay (at
      step `c`), the object has no relay at any later moment `j` until a newer generation is installed. */
  lemma Fence(cfg: Config, worlds: seq<World>, steps: seq<Step>, i: nat, c: nat, j: nat, r: Ref, g: nat)
    requires WorldRun(cfg, worlds, steps) && i <= c < j < |worlds| && Over(worlds[i].core, r, g)
    requires steps[c].CloseRelay? && steps[c].token in worlds[c].closers && worlds[c].closers[steps[c].token] == Owes(r)
    requires forall k | i < k <= j :: !Superseded(worlds[k].core, r, g)
    ensures r !in worlds[j].relays
  {
    hide WorldNext, WorldInv, Over;
    OverUntilSuperseded(cfg, worlds, steps, i, c + 1, r, g);
    CloseSeals(cfg, worlds[c], steps[c], worlds[c + 1], r);
    SealedUntilSuperseded(cfg, worlds, steps, c + 1, j, r, g);
  }

  /** The step revokes, expires or, after the grace deadline, fails generation `g` of the object. */
  ghost predicate Ends(w: World, a: Step, r: Ref, g: nat) {
    a.Locked? && EndsGeneration(w.core, a.event, r) && w.core.bindings[r.id].metadata.generation == g
  }

  /** Step `c` detaches the relay of the object. */
  ghost predicate DetachesAt(worlds: seq<World>, steps: seq<Step>, c: nat, r: Ref) {
    && c < |steps| && c < |worlds| && steps[c].CloseRelay?
    && steps[c].token in worlds[c].closers && worlds[c].closers[steps[c].token] == Owes(r)
  }

  /** The revocation fence. Step `i` ends generation `g` of the object and step `c` detaches its relay. From
      then on, whatever forwards were doing meanwhile, the object has no relay until a snapshot installs a
      newer generation. */
  lemma RevocationFence(cfg: Config, worlds: seq<World>, steps: seq<Step>, i: nat, c: nat, j: nat, r: Ref, g: nat)
    requires WorldRun(cfg, worlds, steps) && i < c < j < |worlds| && Ends(worlds[i], steps[i], r, g)
    requires DetachesAt(worlds, steps, c, r) && forall k | i < k <= j :: !Superseded(worlds[k].core, r, g)
    ensures r !in worlds[j].relays
  {
    hide Inv, Next, Over, EndsGeneration, WorldNext, Notifies;
    WorldRunInv(cfg, worlds, steps, i);
    StepShape(cfg, worlds[i], steps[i], worlds[i + 1]);
    EndedIsOver(cfg, worlds[i].core, steps[i].event, worlds[i + 1].core, r);
    Fence(cfg, worlds, steps, i + 1, c, j, r, g);
  }

  /** A call that ends a generation owes the detach of its relay from that moment on. */
  lemma EndOwes(cfg: Config, w: World, a: Step, w': World, r: Ref, g: nat) returns (token: nat)
    requires WorldNext(cfg, w, a, w') && Ends(w, a, r, g)
    ensures token in a.tokens && a.tokens[token] == r && token in w'.closers && w'.closers[token] == Owes(r)
  {
    EndedIsHandedOver(w.core, a.event, r);
    hide ClosesAfter, EndsGeneration, CoreStep, AcceptedAfter, OpenNext, TalkNext, CloseNext;
    assert r in a.tokens.Values;
    token :| token in a.tokens && a.tokens[token] == r;
  }

  lemma OwedStep(cfg: Config, w: World, a: Step, w': World, token: nat, r: Ref)
    requires WorldNext(cfg, w, a, w') && token in w.closers && w.closers[token] == Owes(r) && a != CloseRelay(token)
    ensures token in w'.closers && w'.closers[token] == Owes(r)
  {
    hide LockedNext, OpenNext, TalkNext, X.Do, X.Enabled, X.CloseTold, LockFree, CoreStep;
    if Locks(a) { LockedOwed(cfg, w, a, w', token); }
    else if Opens(a) { OpenShape(w, a, w'); }
    else if Talks(a) { TalkShape(w, a, w'); }
  }

  lemma LockedOwed(cfg: Config, w: World, a: Step, w': World, token: nat)
    requires Locks(a) && LockedNext(cfg, w, a, w') && token in w.closers
    ensures token in w'.closers && w'.closers[token] == w.closers[token]
  {
    hide CoreStep, ClosesAfter, AfterLook, AfterMark, AcceptedAfter;
  }

  lemma {:induction false} StaysOwed(
    cfg: Config, worlds: seq<World>, steps: seq<Step>, i: nat, j: nat, token: nat, r: Ref)
    requires WorldRun(cfg, worlds, steps) && i <= j < |worlds|
    requires token in worlds[i].closers && worlds[i].closers[token] == Owes(r)
    requires forall k | i <= k < j :: steps[k] != CloseRelay(token)
    ensures token in worlds[j].closers && worlds[j].closers[token] == Owes(r)
    decreases j - i
  {
    hide WorldNext;
    if i < j {
      StaysOwed(cfg, worlds, steps, i, j - 1, token, r);
      OwedStep(cfg, worlds[j - 1], steps[j - 1], worlds[j], token, r);
    }
  }

  /** A call that ends a generation owes the detach until it is done, and once it is, at its first
      `CloseRelay` step, the object has no relay until a newer generation. */
  lemma RevocationDetaches(cfg: Config, worlds: seq<World>, steps: seq<Step>, i: nat, j: nat, r: Ref, g: nat)
    returns (token: nat)
    requires WorldRun(cfg, worlds, steps) && i < j < |worlds| && Ends(worlds[i], steps[i], r, g)
    requires forall k | i < k <= j :: !Superseded(worlds[k].core, r, g)
    ensures token in steps[i].tokens && steps[i].tokens[token] == r
    ensures if exists c :: i < c < j && steps[c] == CloseRelay(token)
            then r !in worlds[j].relays
            else token in worlds[j].closers && worlds[j].closers[token] == Owes(r)
  {
    hide WorldNext, EndsGeneration;
    token := EndOwes(cfg, worlds[i], steps[i], worlds[i + 1], r, g);
    if exists c :: i < c < j && steps[c] == CloseRelay(token) {
      var c := FirstDetach(steps, i + 1, j, token);
      StaysOwed(cfg, worlds, steps, i + 1, c, token, r);
      RevocationFence(cfg, worlds, steps, i, c, j, r, g);
    } else {
      StaysOwed(cfg, worlds, steps, i + 1, j, token, r);
    }
  }

  lemma {:induction false} FirstDetach(steps: seq<Step>, i: nat, j: nat, token: nat) returns (c: nat)
    requires i <= j <= |steps| && exists k :: i <= k < j && steps[k] == CloseRelay(token)
    ensures i <= c < j && steps[c] == CloseRelay(token) && forall k | i <= k < c :: steps[k] != CloseRelay(token)
    decreases j - i
  {
    if steps[i] == CloseRelay(token) {
      c := i;
    } else {
      c := FirstDetach(steps, i + 1, j, token);
    }
  }

  /** Expiring an attached active binding: it owes a detach, and once that is done there is no relay until a
      newer generation. */
  lemma ExpiryFence(cfg: Config, worlds: seq<World>, steps: seq<Step>, i: nat, j: nat, r: Ref) returns (token: nat)
    requires WorldRun(cfg, worlds, steps) && i < j < |worlds| && steps[i].Locked? && steps[i].event == DoExpire(r)
    requires Attached(worlds[i].core, r) && worlds[i].core.bindings[r.id].metadata.status == Active
    requires forall k | i < k <= j :: !Superseded(worlds[k].core, r, worlds[i].core.bindings[r.id].metadata.generation)
    ensures token in steps[i].tokens && steps[i].tokens[token] == r
    ensures (exists c :: i < c < j && steps[c] == CloseRelay(token)) ==> r !in worlds[j].relays
  {
    hide WorldNext;
    token := RevocationDetaches(cfg, worlds, steps, i, j, r, worlds[i].core.bindings[r.id].metadata.generation);
  }

  /** Revoking an attached binding, by its generation or by none, likewise. */
  lemma RevokeFence(cfg: Config, worlds: seq<World>, steps: seq<Step>, i: nat, j: nat, r: Ref, generation: nat)
    returns (token: nat)
    requires WorldRun(cfg, worlds, steps) && i < j < |worlds|
    requires steps[i].Locked? && steps[i].event == DoRevoke(r.id, generation) && Attached(worlds[i].core, r)
    requires generation == 0 || generation == worlds[i].core.bindings[r.id].metadata.generation
    requires forall k | i < k <= j :: !Superseded(worlds[k].core, r, worlds[i].core.bindings[r.id].metadata.generation)
    ensures token in steps[i].tokens && steps[i].tokens[token] == r
    ensures (exists c :: i < c < j && steps[c] == CloseRelay(token)) ==> r !in worlds[j].relays
  {
    hide WorldNext;
    token := RevocationDetaches(cfg, worlds, steps, i, j, r, worlds[i].core.bindings[r.id].metadata.generation);
  }

  /** Which detaches a critical section comes to owe, exactly: those of the objects whose epoch it moves on,
      but for a failed renewal that stays in grace. */
  lemma OwesExactly(cfg: Config, w: World, e: Event, tokens: map<nat, Ref>, w': World, r: Ref)
    requires Inv(cfg, w.core) && WorldNext(cfg, w, Locked(e, tokens), w') && r in w.core.epochs
    ensures r in w'.core.epochs
    ensures (exists k :: k in tokens && tokens[k] == r) <==>
            w.core.epochs[r] < w'.core.epochs[r] && !StaysInGrace(w.core, e, r)
    ensures forall k | k in tokens :: k in w'.closers && w'.closers[k] == Owes(tokens[k])
  {
    OwedTokens(cfg, w, e, tokens, w');
    hide WorldNext, ClosesAfter, Inv, Next, StaysInGrace, ClearsBinding;
    HandsOverExactly(cfg, w.core, e, w'.core, r);
    if k :| k in tokens && tokens[k] == r {
      assert r in tokens.Values;
    }
    if r in tokens.Values {
      var k :| k in tokens && tokens[k] == r;
    }
  }

  lemma OwedTokens(cfg: Config, w: World, e: Event, tokens: map<nat, Ref>, w': World)
    requires WorldNext(cfg, w, Locked(e, tokens), w')
    ensures Next(cfg, w.core, e, w'.core) && !e.Crash? && tokens.Values == ClosesAfter(w.core, e)
    ensures forall k | k in tokens :: k in w'.closers && w'.closers[k] == Owes(tokens[k])
  {
    hide Next, Notifies, ClosesAfter, AcceptedAfter, OpenNext, TalkNext, CloseNext;
  }

  // ---------------------------------------------------------------- between the mark and the detach

  /** The thread is past its second look at the epoch of the object. */
  predicate PastLook(w: World, q: nat, r: Ref) {
    q in w.forwards && w.forwards[q].Rechecked? && w.forwards[q].ref == r
  }

  /** No thread gets past its second look at an ended object. */
  lemma PastLookStep(cfg: Config, w: World, a: Step, w': World, r: Ref, g: nat, q: nat)
    requires WorldInv(cfg, w) && WorldNext(cfg, w, a, w') && Over(w.core, r, g)
    ensures PastLook(w', q, r) ==> PastLook(w, q, r)
  {
    hide LockedNext, TalkNext, CoreStep, CloseNext, OpenNext, Inv, ForwardsOk, Exclusive, Over;
    StepShape(cfg, w, a, w');
    if ThreadOf(a) == Some(q) {
      if Opens(a) {
        NoSecondLook(cfg, w, a, w', r, g);
      } else if Locks(a) {
        LockedMovesOn(cfg, w, a, w');
      } else {
        TalkMovesOn(w, a, w');
      }
    }
  }

  lemma NoSecondLook(cfg: Config, w: World, a: Step, w': World, r: Ref, g: nat)
    requires WorldInv(cfg, w) && Opens(a) && OpenNext(w, a, w') && Over(w.core, r, g)
    ensures !PastLook(w', a.thread, r)
  {
    if a.Recheck? && w.forwards[a.thread].ref == r {
      assert ForwardOk(w.core, w.forwards[a.thread]);
      DeadHasNoAuthority(cfg, w.core, r, g, w.forwards[a.thread].generation);
    }
    hide Inv, LockFree, LiveRelay, Exclusive, Over, Authorises;
  }

  lemma {:induction false} PastLookSince(
    cfg: Config, worlds: seq<World>, steps: seq<Step>, i: nat, j: nat, r: Ref, g: nat, q: nat)
    requires WorldRun(cfg, worlds, steps) && i <= j < |worlds| && Over(worlds[i].core, r, g)
    requires forall k | i < k <= j :: !Superseded(worlds[k].core, r, g)
    requires PastLook(worlds[j], q, r)
    ensures PastLook(worlds[i], q, r)
    decreases j - i
  {
    hide WorldNext, WorldInv, Over, PastLook;
    if i < j {
      OverUntilSuperseded(cfg, worlds, steps, i, j - 1, r, g);
      WorldRunInv(cfg, worlds, steps, j - 1);
      PastLookStep(cfg, worlds[j - 1], steps[j - 1], worlds[j], r, g, q);
      PastLookSince(cfg, worlds, steps, i, j - 1, r, g, q);
    }
  }

  /** Step `j` installs a relay at the object. */
  ghost predicate InstallsAt(worlds: seq<World>, steps: seq<Step>, j: nat, r: Ref) {
    && j < |steps| && j < |worlds| && steps[j].InstallRelay? && PastLook(worlds[j], steps[j].thread, r)
  }

  /** An install after the mark, before a newer generation, is by the one thread that was past its second look
      when the call marked the generation. */
  lemma InstallAfterMark(cfg: Config, worlds: seq<World>, steps: seq<Step>, i: nat, j: nat, r: Ref, g: nat)
    requires WorldRun(cfg, worlds, steps) && i < j < |steps| && Ends(worlds[i], steps[i], r, g)
    requires InstallsAt(worlds, steps, j, r) && forall k | i < k <= j :: !Superseded(worlds[k].core, r, g)
    ensures PastLook(worlds[i], steps[j].thread, r)
    ensures forall t | PastLook(worlds[i], t, r) :: t == steps[j].thread
  {
    hide Inv, Next, Over, EndsGeneration, WorldNext, Notifies, ForwardsOk;
    WorldRunInv(cfg, worlds, steps, i);
    StepShape(cfg, worlds[i], steps[i], worlds[i + 1]);
    EndedIsOver(cfg, worlds[i].core, steps[i].event, worlds[i + 1].core, r);
    PastLookSince(cfg, worlds, steps, i + 1, j, r, g, steps[j].thread);
    forall t | PastLook(worlds[i], t, r) ensures t == steps[j].thread {
      assert Holds(worlds[i].forwards[t], r) && Holds(worlds[i].forwards[steps[j].thread], r);
    }
  }

  /** A number that is in no set is always to be had. */
  lemma {:induction false} Unused(numbers: set<nat>) returns (c: nat)
    ensures forall k | k in numbers :: k < c
  {
    if numbers == {} {
      c := 0;
    } else {
      var k :| k in numbers;
      var others := numbers - {k};
      c := Unused(others);
      assert forall n | n in numbers :: n == k || n in others;
      if c <= k { c := k + 1; }
    }
  }

  /** A thread past its second look can install its relay next. */
  lemma InstallIsAStep(cfg: Config, w: World, q: nat, r: Ref) returns (c: nat, w': World)
    requires PastLook(w, q, r)
    ensures WorldNext(cfg, w, InstallRelay(q, c), w') && r in w'.relays
  {
    c := Unused(w.sessions.Keys);
    w' := Moved(w, q, Ready(r, c)).(relays := w.relays[r := c], sessions := w.sessions[c := X.START]);
  }

  /** The run goes on from step `i` to an install at the object at step `j`, with no newer generation before
      it. */
  ghost predicate GoesOnToInstall(cfg: Config, worlds: seq<World>, steps: seq<Step>, i: nat, r: Ref, g: nat,
                                  worlds': seq<World>, steps': seq<Step>, j: nat)
    requires i < |steps| && |worlds| == |steps| + 1
  {
    && WorldRun(cfg, worlds', steps') && worlds[..i + 2] <= worlds' && steps[..i + 1] <= steps'
    && i < j && InstallsAt(worlds', steps', j, r)
    && forall k | i < k <= j :: k < |worlds'| && !Superseded(worlds'[k].core, r, g)
  }

  /** When an install can follow the mark, exactly: some continuation of the run installs a relay at the
      object before a newer generation if and only if a thread is past its second look at the mark. So no
      install follows the mark when there is no such thread. */
  lemma InstallFollowsMarkExactly(cfg: Config, worlds: seq<World>, steps: seq<Step>, i: nat, r: Ref, g: nat)
    requires WorldRun(cfg, worlds, steps) && i < |steps| && Ends(worlds[i], steps[i], r, g)
    ensures (exists worlds': seq<World>, steps': seq<Step>, j: nat ::
               GoesOnToInstall(cfg, worlds, steps, i, r, g, worlds', steps', j)) <==>
            exists q: nat :: PastLook(worlds[i], q, r)
  {
    hide WorldNext, Ends, Superseded;
    if worlds': seq<World>, steps': seq<Step>, j: nat :|
      GoesOnToInstall(cfg, worlds, steps, i, r, g, worlds', steps', j) {
      SamePrefix(worlds, steps, i, worlds', steps');
      InstallAfterMark(cfg, worlds', steps', i, j, r, g);
      assert PastLook(worlds[i], steps'[j].thread, r);
    }
    if q: nat :| PastLook(worlds[i], q, r) {
      var worlds', steps' := InstallContinues(cfg, worlds, steps, i, r, g, q);
      assert GoesOnToInstall(cfg, worlds, steps, i, r, g, worlds', steps', i + 1);
    }
  }

  lemma SamePrefix(worlds: seq<World>, steps: seq<Step>, i: nat, worlds': seq<World>, steps': seq<Step>)
    requires i < |steps| && |worlds| == |steps| + 1 && worlds[..i + 2] <= worlds' && steps[..i + 1] <= steps'
    ensures i < |steps'| && i < |worlds'| && worlds'[i] == worlds[i] && steps'[i] == steps[i]
  {
    assert worlds[..i + 2][i] == worlds[i] && steps[..i + 1][i] == steps[i];
  }

  /** The run up to the mark, and the install that can come next. */
  lemma InstallContinues(cfg: Config, worlds: seq<World>, steps: seq<Step>, i: nat, r: Ref, g: nat, q: nat)
    returns (worlds': seq<World>, steps': seq<Step>)
    requires WorldRun(cfg, worlds, steps) && i < |steps| && Ends(worlds[i], steps[i], r, g)
    requires PastLook(worlds[i], q, r)
    ensures GoesOnToInstall(cfg, worlds, steps, i, r, g, worlds', steps', i + 1)
  {
    hide WorldNext, Inv, EndsGeneration, Notifies, Next, ForwardsOk, Exclusive;
    WorldRunInv(cfg, worlds, steps, i);
    StepShape(cfg, worlds[i], steps[i], worlds[i + 1]);
    assert PastLook(worlds[i + 1], q, r);
    var c, last := InstallIsAStep(cfg, worlds[i + 1], q, r);
    worlds', steps' := worlds[..i + 2] + [last], steps[..i + 1] + [InstallRelay(q, c)];
    EndedIsOver(cfg, worlds[i].core, steps[i].event, worlds[i + 1].core, r);
    assert !Superseded(worlds[i + 1].core, r, g);
  }

  /** Entering grace clears the materials and advances the epoch, but hands no relay over for closing. */
  lemma GraceKeepsRelay(cfg: Config, w: World, r: Ref, now: int, tokens: map<nat, Ref>, w': World)
    requires WorldNext(cfg, w, Locked(DoFail(r, now), tokens), w')
    requires Attached(w.core, r) && CanFail(w.core.bindings[r.id]) && !GraceOver(w.core.bindings[r.id], now)
    requires r in w.core.epochs
    ensures w'.relays == w.relays && w'.closers == w.closers && w'.core.epochs[r] == w.core.epochs[r] + 1
    ensures forall q | q in w'.core.active :: w'.core.active[q].bindingID != r.id
  {
    hide Apply, ClosesAfter, CanFail, GraceOver, Notifies, OpenNext, TalkNext, CloseNext;
    EnteringGrace(cfg, w.core, r, now);
    KeysHaveValues(tokens);
  }

  /** When a failed renewal hands the relay over for closing, exactly: if and only if it ends the generation. */
  lemma FailureClosesExactly(cfg: Config, w: World, r: Ref, now: int, tokens: map<nat, Ref>, w': World)
    requires WorldNext(cfg, w, Locked(DoFail(r, now), tokens), w')
    ensures (exists k :: k in tokens && tokens[k] == r) <==>
            Attached(w.core, r) && CanFail(w.core.bindings[r.id]) && GraceOver(w.core.bindings[r.id], now)
    ensures forall k | k in tokens :: tokens[k] == r && k in w'.closers && w'.closers[k] == Owes(r)
    ensures w'.relays == w.relays
  {
    hide Next, CanFail, GraceOver, Notifies, OpenNext, TalkNext, CloseNext, AcceptedAfter;
    forall k | k in tokens ensures tokens[k] == r {
      assert tokens[k] in tokens.Values;
    }
    if Attached(w.core, r) && CanFail(w.core.bindings[r.id]) && GraceOver(w.core.bindings[r.id], now) {
      assert r in tokens.Values;
    }
  }

  lemma EnteringGrace(cfg: Config, s: Core, r: Ref, now: int)
    requires Attached(s, r) && CanFail(s.bindings[r.id]) && !GraceOver(s.bindings[r.id], now) && r in s.epochs
    ensures var s' := Apply(cfg, s, DoFail(r, now));
            && r in s'.epochs && s'.epochs[r] == s.epochs[r] + 1
            && (forall q | q in s'.active :: s'.active[q].bindingID != r.id)
    ensures ClosesAfter(s, DoFail(r, now)) == {}
  {
    hide CanFail, GraceOver, EnterGrace, PermitsWithout;
  }

  lemma KeysHaveValues(m: map<nat, Ref>)
    ensures m != map[] ==> m.Values != {}
  {
    if m != map[] {
      var k :| k in m;
      assert m[k] in m.Values;
    }
  }
}
