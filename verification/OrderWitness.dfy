/** A run in which two frames of one binding go out in the wrong order on one session: a renewal failure drops
    the first request from the registry and keeps its relay, and the thread that already has its session
    writes it after a request that was issued later. */
module OrderWitness {
  import opened BrokerCore
  import opened BrokerLease
  import opened BrokerRuns
  import opened Options
  import opened RelayEpochs
  import opened RelayWorld
  import opened SendOrder
  import opened Witnesses
  import X = RelayExchange

  const LATER: int := 100 * SECOND

  // ---------------------------------------------------------------- the broker

  function GraceCore(cfg: Config, n: Names): Core {
    AcceptedCore(n).(
      bindings := map[n.binding := BindingState(0, Meta(n).(health := RenewalGrace, graceUntil := At(cfg.renewGrace)),
                                                false, 0)],
      active := map[], epochs := map[Object(n) := 1])
  }

  function RenewedMeta(n: Names): Metadata {
    Meta(n).(leaseUntil := Stamp.At(LATER), absoluteTTL := Stamp.At(LATER))
  }

  function RenewedCore(n: Names): Core {
    AcceptedCore(n).(
      bindings := map[n.binding := BindingState(0, RenewedMeta(n), false, 0)], active := map[],
      epochs := map[Object(n) := 1])
  }

  function SecondRequest(n: Names, submitted: bool): ActiveRequest {
    ActiveRequest(n.binding, 1, n.request, 2, PERMIT_LIFETIME, submitted, false)
  }

  function SecondIssuedCore(n: Names): Core {
    RenewedCore(n).(
      permits := map[2 := Permit(n.binding, 1, n.request, 2, PERMIT_LIFETIME)],
      active := map[2 := SecondRequest(n, false)], sequence := 2, disk := 2)
  }

  function SecondAcceptedCore(n: Names): Core {
    SecondIssuedCore(n).(
      permits := map[], active := map[2 := SecondRequest(n, true)], consumed := map[1 := 0, 2 := 0])
  }

  function FailEvent(n: Names): Event { DoFail(Object(n), 0) }

  function RenewEvent(n: Names): Event {
    DoRenew(Object(n), 1, Renewal(Stamp.At(LATER), Missing, Stamp.At(LATER)))
  }

  function SecondConsumeEvent(n: Names): Event { DoConsume(Submission(n.binding, 1, n.request, 2, 0, 0)) }

  lemma ClearsFirst(n: Names)
    ensures ClearMaterials(AcceptedCore(n), map[n.binding := 1])
         == AcceptedCore(n).(active := map[], epochs := map[Object(n) := 1])
  {
    var s := AcceptedCore(n);
    assert PermitsWithout(s.permits, {n.binding}) == map[];
    assert RequestsWithout(s.active, {n.binding}) == map[];
    assert Bumped(s.epochs, s.bindings, map[n.binding := 1]) == map[Object(n) := 1];
  }

  lemma EntersGrace(cfg: Config, n: Names)
    ensures var b := AcceptedCore(n).bindings[n.binding];
            && CanFail(b) && !GraceOver(b, 0)
            && EnterGrace(cfg, b, 0)
               == BindingState(0, Meta(n).(health := RenewalGrace, graceUntil := Stamp.At(cfg.renewGrace)), false, 0)
    ensures Attached(AcceptedCore(n), Object(n))
  {
  }

  lemma FailApplies(cfg: Config, n: Names)
    ensures Apply(cfg, AcceptedCore(n), FailEvent(n)) == GraceCore(cfg, n)
    ensures ClosesAfter(AcceptedCore(n), FailEvent(n)) == {}
  {
    ClearsFirst(n);
    EntersGrace(cfg, n);
    hide ClearMaterials, EnterGrace, CanFail, GraceOver, Meta, Issue, Consume, Install;
  }

  lemma RenewApplies(cfg: Config, n: Names)
    ensures Apply(cfg, GraceCore(cfg, n), RenewEvent(n)) == RenewedCore(n)
    ensures ClosesAfter(GraceCore(cfg, n), RenewEvent(n)) == {}
  {
    var s := GraceCore(cfg, n);
    assert Renewed(s.bindings[n.binding], RenewEvent(n).answer) == BindingState(0, RenewedMeta(n), false, 0);
  }

  lemma SecondAdmitted(cfg: Config, n: Names)
    requires ValidConfig(cfg)
    ensures PruneExpired(RenewedCore(n), 0) == RenewedCore(n)
    ensures Admit(cfg, RenewedCore(n), n.nonce, n.tool) == Ok(RenewedMeta(n))
  {
    var s := RenewedCore(n);
    assert OfSession(s.bindings, n.tool) == {n.binding};
    assert OfBinding(s.active, n.binding) == {};
  }

  lemma SecondGranted(n: Names)
    ensures Grant(RenewedCore(n), RenewedMeta(n), IssueEnv(0, n.request, false, false)).0 == SecondIssuedCore(n)
  {
  }

  lemma SecondIssueApplies(cfg: Config, n: Names)
    requires ValidConfig(cfg)
    ensures Apply(cfg, RenewedCore(n), IssueEvent(n)) == SecondIssuedCore(n)
    ensures ClosesAfter(RenewedCore(n), IssueEvent(n)) == {}
  {
    SecondAdmitted(cfg, n);
    SecondGranted(n);
    hide RenewedCore, SecondIssuedCore, Admit, Grant, PruneExpired, RenewedMeta;
  }

  lemma SecondConsumeApplies(cfg: Config, n: Names)
    ensures Apply(cfg, SecondIssuedCore(n), SecondConsumeEvent(n)) == SecondAcceptedCore(n)
    ensures Accepts(SecondIssuedCore(n), SecondConsumeEvent(n))
    ensures ClosesAfter(SecondIssuedCore(n), SecondConsumeEvent(n)) == {}
  {
    var s := SecondIssuedCore(n);
    assert s.permits - {2} == map[];
    assert s.active[2 := SecondRequest(n, true)] == map[2 := SecondRequest(n, true)];
  }

  lemma SecondPruneApplies(cfg: Config, n: Names)
    ensures Apply(cfg, SecondAcceptedCore(n), Prune(0)) == SecondAcceptedCore(n)
    ensures TakeTurn(SecondAcceptedCore(n), n.binding, 2, false) == Passed
    ensures !Notifies(cfg, SecondAcceptedCore(n), Prune(0))
  {
    var s := SecondAcceptedCore(n);
    assert LivePermits(s.permits, 0) == map[];
    assert LiveRequests(s.active, s.permits, 0) == s.active;
  }

  // ---------------------------------------------------------------- the world

  function Key1(n: Names): X.Key { X.Key(n.binding, 1, n.request, 1) }
  function Key2(n: Names): X.Key { X.Key(n.binding, 1, n.request, 2) }

  /** The session while the first request registers, once it is registered, and the same for the second. */
  function Entering1(n: Names): X.Session { X.START.(registering := Some((Key1(n), 0)), owner := [Key1(n)]) }
  function Entered1(n: Names): X.Session { X.START.(pending := map[Key1(n) := 0], owner := [Key1(n)]) }
  function Entering2(n: Names): X.Session {
    Entered1(n).(registering := Some((Key2(n), 1)), owner := [Key1(n), Key2(n)])
  }
  function Entered2(n: Names): X.Session {
    X.START.(pending := map[Key1(n) := 0, Key2(n) := 1], owner := [Key1(n), Key2(n)])
  }

  /** The first thread at `f`, with its relay installed. */
  function First(n: Names, m: nat, f: Forward, s: X.Session): World {
    Beginning(0).(core := AcceptedCore(n), changes := m, accepted := map[1 := n.binding], forwards := map[1 := f],
                  relays := map[Object(n) := 0], sessions := map[0 := s])
  }

  /** The first thread has its session; the second is at `f`. */
  function Second(n: Names, m: nat, f: Forward, s: X.Session): World {
    First(n, m, f, s).(core := SecondAcceptedCore(n), accepted := map[1 := n.binding, 2 := n.binding],
                       forwards := map[1 := Entered(Object(n), 0, 0), 2 := f])
  }

  /** What the steps of the second thread look at. */
  lemma SecondIs(n: Names, m: nat, f: Forward, s: X.Session)
    ensures var w := Second(n, m, f, s);
            && w.core.bindings == map[n.binding := BindingState(0, RenewedMeta(n), false, 0)]
            && w.core.epochs == map[Object(n) := 1] && w.core.active == map[2 := SecondRequest(n, true)]
            && w.accepted == map[1 := n.binding, 2 := n.binding]
            && w.forwards == map[1 := Entered(Object(n), 0, 0), 2 := f]
            && w.relays == map[Object(n) := 0] && w.sessions == map[0 := s]
  {
  }

  lemma SecondMoves(n: Names, m: nat, f: Forward, s: X.Session, f': Forward, s': X.Session)
    ensures Second(n, m, f', s') == Moved(Second(n, m, f, s), 2, f').(sessions := map[0 := s'])
    ensures Second(n, m, f', s) == Moved(Second(n, m, f, s), 2, f')
  {
    hide SecondAcceptedCore;
  }

  lemma TalkIsAStep(cfg: Config, w: World, a: Step, w': World)
    requires Talks(a) && TalkNext(w, a, w')
    ensures WorldNext(cfg, w, a, w')
  {
    hide TalkNext;
  }

  lemma InstallStep(n: Names, m: nat)
    ensures OpenNext(Witnesses.At(n, m, Rechecked(Object(n), 1, 0)), InstallRelay(1, 0),
      First(n, m, Ready(Object(n), 0), X.START))
  {
  }

  lemma FirstEnters(n: Names, m: nat)
    ensures TalkNext(First(n, m, Ready(Object(n), 0), X.START), Enter(1, Key1(n)),
      First(n, m, Entering(Object(n), 0, 0), Entering1(n)))
    ensures TalkNext(First(n, m, Entering(Object(n), 0, 0), Entering1(n)), Leave(1),
      First(n, m, Entered(Object(n), 0, 0), Entered1(n)))
  {
    assert X.Do(X.START, X.BeginRegister(Key1(n))) == Entering1(n);
    assert X.Do(Entering1(n), X.EndRegister) == Entered1(n);
  }

  lemma SecondFinds(n: Names, m: nat)
    ensures OpenNext(Second(n, m, Found(Object(n)), Entered1(n)).(forwards := map[1 := Entered(Object(n), 0, 0)]),
      Find(2), Second(n, m, Found(Object(n)), Entered1(n)))
  {
  }

  lemma SecondSees(n: Names, m: nat)
    ensures OpenNext(Second(n, m, Found(Object(n)), Entered1(n)), See(2),
      Second(n, m, Seen(Object(n), 1), Entered1(n)))
  {
    SecondIs(n, m, Found(Object(n)), Entered1(n));
    SecondMoves(n, m, Found(Object(n)), Entered1(n), Seen(Object(n), 1), Entered1(n));
    hide Second, Moved;
  }

  lemma SecondCaptures(n: Names, m: nat)
    ensures OpenNext(Second(n, m, Seen(Object(n), 1), Entered1(n)), Capture(2),
      Second(n, m, Captured(Object(n), 1, 1, None), Entered1(n)))
  {
    SecondIs(n, m, Seen(Object(n), 1), Entered1(n));
    SecondMoves(n, m, Seen(Object(n), 1), Entered1(n), Captured(Object(n), 1, 1, None), Entered1(n));
    hide Second, Moved;
  }

  lemma SecondTurns(cfg: Config, n: Names, m: nat)
    ensures LockedNext(cfg, Second(n, m, Captured(Object(n), 1, 1, None), Entered1(n)), Turn(2, 0),
      Second(n, m, Turned(Object(n), 1, 1), Entered1(n)))
  {
    SecondPruneApplies(cfg, n);
    hide Apply, TakeTurn, Notifies;
  }

  lemma SecondValidates(n: Names, m: nat)
    ensures OpenNext(Second(n, m, Turned(Object(n), 1, 1), Entered1(n)), Validate(2),
      Second(n, m, Validated(Object(n), 1, 1), Entered1(n)))
  {
    var f, s := Turned(Object(n), 1, 1), Entered1(n);
    SecondIs(n, m, f, s);
    assert Authorises(Second(n, m, f, s).core, Object(n), 1);
    SecondMoves(n, m, f, s, Validated(Object(n), 1, 1), s);
    hide Second, Moved, Authorises, Entered1;
  }

  lemma SecondReuses(n: Names, m: nat)
    ensures OpenNext(Second(n, m, Validated(Object(n), 1, 1), Entered1(n)), Reuse(2),
      Second(n, m, Ready(Object(n), 0), Entered1(n)))
  {
    var f, s := Validated(Object(n), 1, 1), Entered1(n);
    SecondIs(n, m, f, s);
    assert LockFree(Second(n, m, f, s), Object(n)) && LiveRelay(Second(n, m, f, s), Object(n));
    SecondMoves(n, m, f, s, Ready(Object(n), 0), s);
    hide Second, Moved, LockFree, LiveRelay, Entered1;
  }

  /** The session's two steps while the second request registers. */
  lemma RegistersSecond(n: Names)
    ensures X.Enabled(Entered1(n), X.BeginRegister(Key2(n))) && X.Enabled(Entering2(n), X.EndRegister)
    ensures X.Do(Entered1(n), X.BeginRegister(Key2(n))) == Entering2(n)
    ensures X.Do(Entering2(n), X.EndRegister) == Entered2(n) && |Entered1(n).owner| == 1
  {
    assert Key1(n) != Key2(n);
  }

  lemma SecondEnters(n: Names, m: nat)
    ensures TalkNext(Second(n, m, Ready(Object(n), 0), Entered1(n)), Enter(2, Key2(n)),
      Second(n, m, Entering(Object(n), 0, 1), Entering2(n)))
  {
    RegistersSecond(n);
    var f, s := Ready(Object(n), 0), Entered1(n);
    SecondIs(n, m, f, s);
    hide X.Do, X.Enabled, Entered1, Entering2;
    assert Exchanges(Second(n, m, f, s), 0, X.BeginRegister(Key2(n)), map[0 := Entering2(n)]);
    SecondMoves(n, m, f, s, Entering(Object(n), 0, 1), Entering2(n));
    SecondIs(n, m, Entering(Object(n), 0, 1), Entering2(n));
    hide Second, Moved, Exchanges;
  }

  lemma SecondLeaves(n: Names, m: nat)
    ensures TalkNext(Second(n, m, Entering(Object(n), 0, 1), Entering2(n)), Leave(2),
      Second(n, m, Entered(Object(n), 0, 1), Entered2(n)))
  {
    RegistersSecond(n);
    var f, s := Entering(Object(n), 0, 1), Entering2(n);
    SecondIs(n, m, f, s);
    assert s.registering.value.1 == 1;
    hide X.Do, X.Enabled, Entered2, Entering2;
    assert Exchanges(Second(n, m, f, s), 0, X.EndRegister, map[0 := Entered2(n)]);
    SecondMoves(n, m, f, s, Entered(Object(n), 0, 1), Entered2(n));
    SecondIs(n, m, Entered(Object(n), 0, 1), Entered2(n));
    hide Second, Moved, Exchanges;
  }

  lemma SecondWrites(n: Names, m: nat)
    ensures TalkNext(Second(n, m, Entered(Object(n), 0, 1), Entered2(n)), Write(2),
      Second(n, m, Written(Object(n), 0, 1), Entered2(n)))
  {
    hide Second, Moved, Entered2, Exchanges, X.Closed, X.Do, X.Enabled;
    StillOpen(n);
    SecondIs(n, m, Entered(Object(n), 0, 1), Entered2(n));
    SecondMoves(n, m, Entered(Object(n), 0, 1), Entered2(n), Written(Object(n), 0, 1), Entered2(n));
  }

  lemma StillOpen(n: Names)
    ensures !X.Closed(Entered2(n))
  {
  }

  lemma FirstWrites(n: Names, m: nat)
    ensures TalkNext(Second(n, m, Written(Object(n), 0, 1), Entered2(n)), Write(1),
      Moved(Second(n, m, Written(Object(n), 0, 1), Entered2(n)), 1, Written(Object(n), 0, 0)))
  {
    hide Second, Moved, Entered2, Exchanges, X.Closed, X.Do, X.Enabled;
    StillOpen(n);
    SecondIs(n, m, Written(Object(n), 0, 1), Entered2(n));
  }

  // ---------------------------------------------------------------- the run

  lemma OneMoreTalk(cfg: Config, worlds: seq<World>, steps: seq<Step>, w: World, a: Step, next: World)
    returns (worlds': seq<World>, steps': seq<Step>, w': World)
    requires EndsIn(cfg, worlds, steps, w) && Talks(a) && TalkNext(w, a, next)
    ensures EndsIn(cfg, worlds', steps', w') && w' == next
    ensures worlds' == worlds + [next] && steps' == steps + [a]
  {
    hide WorldNext, TalkNext, EndsIn;
    TalkIsAStep(cfg, w, a, next);
    Extend(cfg, worlds, steps, w, a, next);
    worlds', steps', w' := worlds + [next], steps + [a], next;
  }

  /** The first request registers with its session. */
  lemma FirstRegistered(cfg: Config, n: Names) returns (worlds: seq<World>, steps: seq<Step>, w: World)
    requires ValidConfig(cfg)
    ensures EndsIn(cfg, worlds, steps, w) && w == First(n, w.changes, Entered(Object(n), 0, 0), Entered1(n))
  {
    worlds, steps, w := Opened(cfg, n);
    var m, r := w.changes, Object(n);
    InstallStep(n, m);
    FirstEnters(n, m);
    assert First(n, m, Entered(r, 0, 0), Entered1(n)).changes == m;
    hide WorldNext, OpenNext, TalkNext, EndsIn, First, Witnesses.At;
    worlds, steps, w := OneMoreStep(cfg, worlds, steps, w, InstallRelay(1, 0), First(n, m, Ready(r, 0), X.START));
    worlds, steps, w :=
      OneMoreTalk(cfg, worlds, steps, w, Enter(1, Key1(n)), First(n, m, Entering(r, 0, 0), Entering1(n)));
    worlds, steps, w := OneMoreTalk(cfg, worlds, steps, w, Leave(1), First(n, m, Entered(r, 0, 0), Entered1(n)));
  }

  /** Grace drops the first request, a renewal restores the binding, and a second request is accepted. */
  lemma SecondAccepted(cfg: Config, n: Names) returns (worlds: seq<World>, steps: seq<Step>, w: World)
    requires ValidConfig(cfg)
    ensures EndsIn(cfg, worlds, steps, w)
    ensures w == Second(n, w.changes, Found(Object(n)), Entered1(n)).(forwards := map[1 := Entered(Object(n), 0, 0)])
  {
    hide Apply, ClosesAfter, Accepts, WorldNext, AcceptedCore, GraceCore, RenewedCore, SecondIssuedCore,
      SecondAcceptedCore, EndsIn;
    var w0;
    worlds, steps, w0 := FirstRegistered(cfg, n);
    FailApplies(cfg, n);
    NotAccepting(w0, FailEvent(n));
    var w1 := ExtendLocked(cfg, worlds, steps, w0, FailEvent(n));
    worlds, steps := worlds + [w1], steps + [Locked(FailEvent(n), map[])];
    RenewApplies(cfg, n);
    NotAccepting(w1, RenewEvent(n));
    var w2 := ExtendLocked(cfg, worlds, steps, w1, RenewEvent(n));
    worlds, steps := worlds + [w2], steps + [Locked(RenewEvent(n), map[])];
    SecondIssueApplies(cfg, n);
    NotAccepting(w2, IssueEvent(n));
    var w3 := ExtendLocked(cfg, worlds, steps, w2, IssueEvent(n));
    worlds, steps := worlds + [w3], steps + [Locked(IssueEvent(n), map[])];
    SecondConsumeApplies(cfg, n);
    w := ExtendLocked(cfg, worlds, steps, w3, SecondConsumeEvent(n));
    worlds, steps := worlds + [w], steps + [Locked(SecondConsumeEvent(n), map[])];
    assert AcceptedAfter(w3, SecondConsumeEvent(n)) == map[1 := n.binding, 2 := n.binding];
  }

  /** The second thread takes its turn and registers with the same session. */
  lemma SecondRegistered(cfg: Config, n: Names) returns (worlds: seq<World>, steps: seq<Step>, w: World)
    requires ValidConfig(cfg)
    ensures EndsIn(cfg, worlds, steps, w) && w == Second(n, w.changes, Entered(Object(n), 0, 1), Entered2(n))
  {
    worlds, steps, w := SecondAccepted(cfg, n);
    var m, r, s := w.changes, Object(n), Entered1(n);
    assert Second(n, m, Entered(r, 0, 1), Entered2(n)).changes == m;
    SecondFinds(n, m);
    SecondSees(n, m);
    SecondCaptures(n, m);
    SecondTurns(cfg, n, m);
    SecondValidates(n, m);
    SecondReuses(n, m);
    SecondEnters(n, m);
    SecondLeaves(n, m);
    hide WorldNext, OpenNext, LockedNext, TalkNext, EndsIn, Second;
    worlds, steps, w := OneMoreStep(cfg, worlds, steps, w, Find(2), Second(n, m, Found(r), s));
    worlds, steps, w := OneMoreStep(cfg, worlds, steps, w, See(2), Second(n, m, Seen(r, 1), s));
    worlds, steps, w := OneMoreStep(cfg, worlds, steps, w, Capture(2), Second(n, m, Captured(r, 1, 1, None), s));
    var turned := Second(n, m, Turned(r, 1, 1), s);
    TurnIsAStep(cfg, w, Turn(2, 0), turned);
    Extend(cfg, worlds, steps, w, Turn(2, 0), turned);
    worlds, steps := worlds + [turned], steps + [Turn(2, 0)];
    worlds, steps, w := OneMoreStep(cfg, worlds, steps, turned, Validate(2), Second(n, m, Validated(r, 1, 1), s));
    worlds, steps, w := OneMoreStep(cfg, worlds, steps, w, Reuse(2), Second(n, m, Ready(r, 0), s));
    worlds, steps, w :=
      OneMoreTalk(cfg, worlds, steps, w, Enter(2, Key2(n)), Second(n, m, Entering(r, 0, 1), Entering2(n)));
    worlds, steps, w := OneMoreTalk(cfg, worlds, steps, w, Leave(2), Second(n, m, Entered(r, 0, 1), Entered2(n)));
  }

  /** There is a run from the start of the broker in which frame 2 of a binding is written before frame 1, on
      the same open session. */
  lemma FramesCanOvertake(cfg: Config, n: Names) returns (worlds: seq<World>, steps: seq<Step>, i: nat)
    requires ValidConfig(cfg)
    ensures WorldRun(cfg, worlds, steps) && |steps| == i + 2
    ensures FrameAt(worlds, steps, i, n.binding, 2) && FrameAt(worlds, steps, i + 1, n.binding, 1)
    ensures worlds[i].forwards[2].connection == worlds[i + 1].forwards[1].connection
    ensures 2 in worlds[i].core.active && 1 !in worlds[i + 1].core.active
  {
    hide Second;
    var w, between, last;
    worlds, steps, w := SecondRegistered(cfg, n);
    i := |steps|;
    var m, r := w.changes, Object(n);
    SecondWrites(n, m);
    FirstWrites(n, m);
    SecondIs(n, m, Entered(r, 0, 1), Entered2(n));
    SecondIs(n, m, Written(r, 0, 1), Entered2(n));
    RunIs(cfg, worlds, steps, w);
    between := Second(n, m, Written(r, 0, 1), Entered2(n));
    last := Moved(between, 1, Written(r, 0, 0));
    hide WorldNext, TalkNext, EndsIn, WorldRun;
    worlds, steps, w := OneMoreTalk(cfg, worlds, steps, w, Write(2), between);
    worlds, steps, w := OneMoreTalk(cfg, worlds, steps, w, Write(1), last);
    RunIs(cfg, worlds, steps, w);
  }
}
