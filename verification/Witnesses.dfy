/** Runs that show where two properties begin: a relay installed after a revocation's mark and before its
    detach, and a permit issued between the two critical sections of closing. */
module Witnesses {
  import opened BrokerCore
  import opened BrokerLease
  import opened BrokerRuns
  import opened Options
  import opened RelayEpochs
  import opened RelayFence
  import opened RelayWorld
  import X = RelayExchange

  /** The identifiers of the run. */
  datatype Names = Names(binding: Name, tool: Name, nonce: Name, request: Name)

  function Meta(n: Names): Metadata {
    Metadata(n.binding, n.tool, 1, Active, Healthy, Missing, Missing, Missing, 1, 1, None)
  }

  function Bindings(n: Names): map<Name, BindingState> {
    map[n.binding := BindingState(0, Meta(n), false, 0)]
  }

  function Object(n: Names): Ref { Ref(n.binding, 0) }

  /** The broker once the binding is listed. */
  function ListedCore(n: Names): Core {
    Fresh(0).(bindings := Bindings(n), epochs := map[Object(n) := 0], snapshots := 1)
  }

  function RegisteredCore(n: Names): Core {
    ListedCore(n).(sessions := map[n.tool := n.nonce], nonces := map[n.nonce := n.tool])
  }

  function Request(n: Names, submitted: bool): ActiveRequest {
    ActiveRequest(n.binding, 1, n.request, 1, PERMIT_LIFETIME, submitted, false)
  }

  function IssuedCore(n: Names): Core {
    RegisteredCore(n).(
      permits := map[1 := Permit(n.binding, 1, n.request, 1, PERMIT_LIFETIME)], active := map[1 := Request(n, false)],
      sequence := 1, disk := 1)
  }

  function AcceptedCore(n: Names): Core {
    IssuedCore(n).(permits := map[], active := map[1 := Request(n, true)], consumed := map[1 := 0])
  }

  function ListEvent(n: Names): Event { Snapshot([Offer(Meta(n), 0, true)]) }

  function IssueEvent(n: Names): Event { DoIssue(n.nonce, n.tool, IssueEnv(0, n.request, false, false)) }

  function ConsumeEvent(n: Names): Event { DoConsume(Submission(n.binding, 1, n.request, 1, 0, 0)) }

  lemma ListsOne(n: Names)
    ensures Listed([Offer(Meta(n), 0, true)]) == Some(map[n.binding := Meta(n)])
  {
    var offers := [Offer(Meta(n), 0, true)];
    assert offers[..0] == [] && Listed([]) == Some(map[]);
    assert ValidOffer(offers[0]) == Some(Meta(n));
  }

  lemma InstallsOne(n: Names)
    ensures Install(Fresh(0), map[n.binding := Meta(n)]) == ListedCore(n)
    ensures Bumps(Fresh(0), map[n.binding := Meta(n)]) == map[]
  {
    var next := map[n.binding := Meta(n)];
    assert NewRefs(Fresh(0), next) == {Object(n)} by {
      assert n.binding in next;
    }
    assert Installed(Fresh(0), next) == Bindings(n);
  }

  lemma ListApplies(cfg: Config, n: Names)
    ensures Apply(cfg, Fresh(0), ListEvent(n)) == ListedCore(n)
    ensures ClosesAfter(Fresh(0), ListEvent(n)) == {}
  {
    hide Listed, Install, Bumps, ListedCore;
    ListsOne(n);
    InstallsOne(n);
  }

  lemma RegisterApplies(cfg: Config, n: Names)
    ensures Apply(cfg, ListedCore(n), DoRegister(n.tool, n.nonce)) == RegisteredCore(n)
    ensures ClosesAfter(ListedCore(n), DoRegister(n.tool, n.nonce)) == {}
  {
  }

  lemma IssueApplies(cfg: Config, n: Names)
    requires ValidConfig(cfg)
    ensures Apply(cfg, RegisteredCore(n), IssueEvent(n)) == IssuedCore(n)
    ensures ClosesAfter(RegisteredCore(n), IssueEvent(n)) == {}
  {
    var s := RegisteredCore(n);
    assert PruneExpired(s, 0) == s;
    assert OfSession(s.bindings, n.tool) == {n.binding};
    assert OfBinding(s.active, n.binding) == {};
    assert Admit(cfg, s, n.nonce, n.tool) == Ok(Meta(n));
  }

  lemma ConsumeApplies(cfg: Config, n: Names)
    ensures Apply(cfg, IssuedCore(n), ConsumeEvent(n)) == AcceptedCore(n) && Accepts(IssuedCore(n), ConsumeEvent(n))
    ensures ClosesAfter(IssuedCore(n), ConsumeEvent(n)) == {}
  {
    var s := IssuedCore(n);
    assert s.permits - {1} == map[];
    assert s.active[1 := Request(n, true)] == map[1 := Request(n, true)];
  }

  /** The accepted request takes its turn. */
  lemma PruneApplies(cfg: Config, n: Names)
    ensures Apply(cfg, AcceptedCore(n), Prune(0)) == AcceptedCore(n)
    ensures TakeTurn(AcceptedCore(n), n.binding, 1, false) == Passed
  {
    var s := AcceptedCore(n);
    assert LivePermits(s.permits, 0) == map[];
    assert LiveRequests(s.active, s.permits, 0) == s.active;
  }

  lemma RevokeApplies(cfg: Config, n: Names)
    ensures var s := Apply(cfg, AcceptedCore(n), DoRevoke(n.binding, 0)); Dead(s, Object(n), 1)
    ensures ClosesAfter(AcceptedCore(n), DoRevoke(n.binding, 0)) == {Object(n)}
    ensures EndsGeneration(AcceptedCore(n), DoRevoke(n.binding, 0), Object(n))
  {
    assert RefsOf(AcceptedCore(n), {n.binding}) == {Object(n)};
  }

  // ---------------------------------------------------------------- building a run

  ghost predicate EndsIn(cfg: Config, worlds: seq<World>, steps: seq<Step>, w: World) {
    WorldRun(cfg, worlds, steps) && worlds[|steps|] == w
  }

  lemma Extend(cfg: Config, worlds: seq<World>, steps: seq<Step>, w: World, a: Step, w': World)
    requires EndsIn(cfg, worlds, steps, w) && WorldNext(cfg, w, a, w')
    ensures EndsIn(cfg, worlds + [w'], steps + [a], w')
  {
    hide WorldNext;
  }

  /** A critical section that hands over no relay and accepts nothing. */
  lemma ExtendLocked(cfg: Config, worlds: seq<World>, steps: seq<Step>, w: World, e: Event) returns (w': World)
    requires EndsIn(cfg, worlds, steps, w) && !e.Crash? && !e.DoMarkSent? && ClosesAfter(w.core, e) == {}
    ensures EndsIn(cfg, worlds + [w'], steps + [Locked(e, map[])], w')
    ensures w' == w.(core := Apply(cfg, w.core, e), changes := w'.changes, accepted := AcceptedAfter(w, e))
  {
    hide Apply, ClosesAfter, Notifies, WorldRun, AcceptedAfter;
    var tokens: map<nat, Ref> := map[];
    w' := w.(core := Apply(cfg, w.core, e), changes := w.changes + if Notifies(cfg, w.core, e) then 1 else 0,
             accepted := AcceptedAfter(w, e));
    assert tokens.Values == {};
    assert w.closers + Owing(tokens) == w.closers;
    assert LockedNext(cfg, w, Locked(e, tokens), w');
    Extend(cfg, worlds, steps, w, Locked(e, tokens), w');
  }

  /** The run up to the accepted request. */
  lemma Accepted(cfg: Config, n: Names) returns (worlds: seq<World>, steps: seq<Step>, w: World)
    requires ValidConfig(cfg)
    ensures EndsIn(cfg, worlds, steps, w)
    ensures w == Beginning(0).(core := AcceptedCore(n), changes := w.changes, accepted := map[1 := n.binding])
  {
    hide Apply, ClosesAfter, Accepts, WorldNext, ListedCore, RegisteredCore, IssuedCore, AcceptedCore, Fresh;
    worlds, steps, w := [Beginning(0)], [], Beginning(0);
    assert Fresh(0).sequence == 0 by { FreshSequence(); }
    ListApplies(cfg, n);
    NotAccepting(w, ListEvent(n));
    var w1 := ExtendLocked(cfg, worlds, steps, w, ListEvent(n));
    worlds, steps := worlds + [w1], steps + [Locked(ListEvent(n), map[])];
    RegisterApplies(cfg, n);
    NotAccepting(w1, DoRegister(n.tool, n.nonce));
    var w2 := ExtendLocked(cfg, worlds, steps, w1, DoRegister(n.tool, n.nonce));
    worlds, steps := worlds + [w2], steps + [Locked(DoRegister(n.tool, n.nonce), map[])];
    IssueApplies(cfg, n);
    NotAccepting(w2, IssueEvent(n));
    var w3 := ExtendLocked(cfg, worlds, steps, w2, IssueEvent(n));
    worlds, steps := worlds + [w3], steps + [Locked(IssueEvent(n), map[])];
    ConsumeApplies(cfg, n);
    w := ExtendLocked(cfg, worlds, steps, w3, ConsumeEvent(n));
    worlds, steps := worlds + [w], steps + [Locked(ConsumeEvent(n), map[])];
  }

  lemma FreshSequence()
    ensures Fresh(0).sequence == 0
  {
  }

  lemma NotAccepting(w: World, e: Event)
    requires !e.DoConsume?
    ensures AcceptedAfter(w, e) == w.accepted
  {
  }

  /** The world whose only thread is at `f`. */
  function At(n: Names, changes: nat, f: Forward): World {
    Beginning(0).(core := AcceptedCore(n), changes := changes, accepted := map[1 := n.binding], forwards := map[1 := f])
  }

  lemma FirstSteps(n: Names, m: nat)
    ensures var r := Object(n);
            && OpenNext(At(n, m, Found(r)).(forwards := map[]), Find(1), At(n, m, Found(r)))
            && OpenNext(At(n, m, Found(r)), See(1), At(n, m, Seen(r, 1)))
            && OpenNext(At(n, m, Seen(r, 1)), Capture(1), At(n, m, Captured(r, 1, 0, None)))
  {
  }

  lemma LastSteps(n: Names, m: nat)
    ensures var r := Object(n);
            && OpenNext(At(n, m, Turned(r, 1, 0)), Validate(1), At(n, m, Validated(r, 1, 0)))
            && OpenNext(At(n, m, Validated(r, 1, 0)), Lock(1), At(n, m, Opening(r, 1, 0)))
            && OpenNext(At(n, m, Opening(r, 1, 0)), Recheck(1), At(n, m, Rechecked(r, 1, 0)))
  {
    ValidateStep(n, m);
    LockStep(n, m);
    RecheckStep(n, m);
    hide OpenNext, At;
  }

  lemma ValidateStep(n: Names, m: nat)
    ensures OpenNext(At(n, m, Turned(Object(n), 1, 0)), Validate(1), At(n, m, Validated(Object(n), 1, 0)))
  {
  }

  lemma LockStep(n: Names, m: nat)
    ensures OpenNext(At(n, m, Validated(Object(n), 1, 0)), Lock(1), At(n, m, Opening(Object(n), 1, 0)))
  {
  }

  lemma RecheckStep(n: Names, m: nat)
    ensures OpenNext(At(n, m, Opening(Object(n), 1, 0)), Recheck(1), At(n, m, Rechecked(Object(n), 1, 0)))
  {
  }

  lemma TurnStep(cfg: Config, n: Names, changes: nat)
    ensures LockedNext(cfg, At(n, changes, Captured(Object(n), 1, 0, None)), Turn(1, 0),
      At(n, changes, Turned(Object(n), 1, 0)))
  {
    PruneApplies(cfg, n);
    hide Apply, TakeTurn;
  }

  lemma OpenIsAStep(cfg: Config, w: World, a: Step, w': World)
    requires Opens(a) && OpenNext(w, a, w')
    ensures WorldNext(cfg, w, a, w')
  {
    hide OpenNext;
  }

  lemma TurnIsAStep(cfg: Config, w: World, a: Step, w': World)
    requires a.Turn? && LockedNext(cfg, w, a, w')
    ensures WorldNext(cfg, w, a, w')
  {
    hide LockedNext;
  }

  /** From the accepted request to the second look at the epoch. */
  lemma Opened(cfg: Config, n: Names) returns (worlds: seq<World>, steps: seq<Step>, w: World)
    requires ValidConfig(cfg)
    ensures EndsIn(cfg, worlds, steps, w) && w == At(n, w.changes, Rechecked(Object(n), 1, 0))
  {
    worlds, steps, w := Accepted(cfg, n);
    var m, r := w.changes, Object(n);
    assert w == At(n, m, Found(r)).(forwards := map[]);
    assert At(n, m, Rechecked(r, 1, 0)).changes == m;
    hide WorldNext, LockedNext, OpenNext, At, EndsIn;
    FirstSteps(n, m);
    TurnStep(cfg, n, m);
    LastSteps(n, m);
    worlds, steps, w := OneMoreStep(cfg, worlds, steps, w, Find(1), At(n, m, Found(r)));
    worlds, steps, w := OneMoreStep(cfg, worlds, steps, w, See(1), At(n, m, Seen(r, 1)));
    worlds, steps, w := OneMoreStep(cfg, worlds, steps, w, Capture(1), At(n, m, Captured(r, 1, 0, None)));
    var turned := At(n, m, Turned(r, 1, 0));
    TurnIsAStep(cfg, w, Turn(1, 0), turned);
    Extend(cfg, worlds, steps, w, Turn(1, 0), turned);
    worlds, steps := worlds + [turned], steps + [Turn(1, 0)];
    worlds, steps, w := OneMoreStep(cfg, worlds, steps, turned, Validate(1), At(n, m, Validated(r, 1, 0)));
    worlds, steps, w := OneMoreStep(cfg, worlds, steps, w, Lock(1), At(n, m, Opening(r, 1, 0)));
    worlds, steps, w := OneMoreStep(cfg, worlds, steps, w, Recheck(1), At(n, m, Rechecked(r, 1, 0)));
  }

  /** The run with one more step of an opening thread. */
  lemma OneMoreStep(cfg: Config, worlds: seq<World>, steps: seq<Step>, w: World, a: Step, next: World)
    returns (worlds': seq<World>, steps': seq<Step>, w': World)
    requires EndsIn(cfg, worlds, steps, w) && Opens(a) && OpenNext(w, a, next)
    ensures EndsIn(cfg, worlds', steps', w') && w' == next
  {
    hide WorldNext, OpenNext, EndsIn;
    OpenIsAStep(cfg, w, a, next);
    Extend(cfg, worlds, steps, w, a, next);
    worlds', steps', w' := worlds + [next], steps + [a], next;
  }

  /** The fence starts with the detach, not when the call marks the generation: there is a run from the
      start of the broker in which a thread past its second look installs its relay after the mark, and
      only the pending detach removes it. */
  lemma InstallCanFollowTheMark(cfg: Config, n: Names) returns (worlds: seq<World>, steps: seq<Step>, i: nat)
    requires ValidConfig(cfg)
    ensures WorldRun(cfg, worlds, steps) && |steps| == i + 2 && Ends(worlds[i], steps[i], Object(n), 1)
    ensures Dead(worlds[i + 2].core, Object(n), 1) && Object(n) in worlds[i + 2].relays
    ensures 0 in worlds[i + 2].closers && worlds[i + 2].closers[0] == Owes(Object(n))
  {
    hide WorldNext, EndsIn, Ends, Dead, At;
    var w;
    worlds, steps, w := Opened(cfg, n);
    i := |steps|;
    var a, marked, installed := MarkAndInstall(cfg, n, w);
    Extend(cfg, worlds, steps, w, a, marked);
    Extend(cfg, worlds + [marked], steps + [a], marked, InstallRelay(1, 0), installed);
    RunIs(cfg, worlds, steps, w);
    worlds, steps := worlds + [marked] + [installed], steps + [a] + [InstallRelay(1, 0)];
    RunIs(cfg, worlds, steps, installed);
  }

  lemma RunIs(cfg: Config, worlds: seq<World>, steps: seq<Step>, w: World)
    requires EndsIn(cfg, worlds, steps, w)
    ensures WorldRun(cfg, worlds, steps) && |worlds| == |steps| + 1 && worlds[|steps|] == w
  {
  }

  /** The mark, and the installation that follows it. */
  lemma MarkAndInstall(cfg: Config, n: Names, w: World) returns (a: Step, marked: World, installed: World)
    requires w == At(n, w.changes, Rechecked(Object(n), 1, 0))
    ensures WorldNext(cfg, w, a, marked) && WorldNext(cfg, marked, InstallRelay(1, 0), installed)
    ensures Ends(w, a, Object(n), 1) && Dead(installed.core, Object(n), 1) && Object(n) in installed.relays
    ensures 0 in installed.closers && installed.closers[0] == Owes(Object(n))
  {
    hide LockedNext, TalkNext, CloseNext, Apply, Notifies, ClosesAfter, EndsGeneration, Dead;
    var e := DoRevoke(n.binding, 0);
    var r := Object(n);
    var tokens: map<nat, Ref> := map[0 := r];
    RevokeApplies(cfg, n);
    assert tokens.Values == {r} by { assert tokens[0] == r; }
    a := Locked(e, tokens);
    marked := w.(core := Apply(cfg, w.core, e), changes := w.changes + if Notifies(cfg, w.core, e) then 1 else 0,
                 closers := Owing(tokens));
    MarkIsAStep(cfg, n, w, tokens, marked);
    installed := Moved(marked, 1, Ready(r, 0)).(relays := map[r := 0], sessions := map[0 := X.START]);
  }

  lemma MarkIsAStep(cfg: Config, n: Names, w: World, tokens: map<nat, Ref>, marked: World)
    requires w == At(n, w.changes, Rechecked(Object(n), 1, 0)) && tokens == map[0 := Object(n)]
    requires ClosesAfter(w.core, DoRevoke(n.binding, 0)) == tokens.Values
    requires var e := DoRevoke(n.binding, 0);
             marked == w.(core := Apply(cfg, w.core, e), changes := w.changes + if Notifies(cfg, w.core, e) then 1
               else 0,
                          closers := Owing(tokens))
    ensures WorldNext(cfg, w, Locked(DoRevoke(n.binding, 0), tokens), marked)
  {
    hide Apply, ClosesAfter, Notifies, OpenNext, TalkNext, CloseNext, AcceptedCore;
    assert w.closers + Owing(tokens) == Owing(tokens);
    NotAccepting(w, DoRevoke(n.binding, 0));
  }

  // ---------------------------------------------------------------- closing

  /** The registered broker after the stop signal and the reload. */
  function ReloadedCore(n: Names): Core {
    RegisteredCore(n).(closed := true, epochs := map[Object(n) := 1])
  }

  function LeftCore(n: Names): Core {
    ReloadedCore(n).(
      permits := map[1 := Permit(n.binding, 1, n.request, 1, PERMIT_LIFETIME)], active := map[1 := Request(n, false)],
      sequence := 1, disk := 1)
  }

  lemma ReloadApplies(cfg: Config, n: Names)
    ensures Apply(cfg, RegisteredCore(n).(closed := true), Reload) == ReloadedCore(n)
  {
    var s := RegisteredCore(n).(closed := true);
    assert Bumped(s.epochs, s.bindings, Once(s.bindings.Keys)) == map[Object(n) := 1];
  }

  lemma IssueBetween(cfg: Config, n: Names)
    requires ValidConfig(cfg)
    ensures Apply(cfg, ReloadedCore(n), IssueEvent(n)) == LeftCore(n)
  {
    var s := ReloadedCore(n);
    assert PruneExpired(s, 0) == s;
    assert OfSession(s.bindings, n.tool) == {n.binding};
    assert OfBinding(s.active, n.binding) == {};
    assert Admit(cfg, s, n.nonce, n.tool) == Ok(Meta(n));
  }

  /** A permit issued between the two critical sections of closing is left behind. */
  lemma PermitCanSurviveClose(cfg: Config, n: Names) returns (states: seq<Core>, events: seq<Event>)
    requires ValidConfig(cfg)
    ensures Run(cfg, states, events)
    ensures |events| == 6 && events[2..4] == [CloseSignal, Reload] && events[5] == CloseClear && states[5].closed
    ensures 1 in states[6].permits && states[6].sessions == map[]
  {
    hide Apply, Next, ListedCore, RegisteredCore, ReloadedCore, LeftCore, IssueEvent, ListEvent;
    var left := LeftCore(n);
    states := [Fresh(0), ListedCore(n), RegisteredCore(n), RegisteredCore(n).(closed := true), ReloadedCore(n), left,
               left.(sessions := map[], nonces := map[], peerUIDs := map[])];
    events := [ListEvent(n), DoRegister(n.tool, n.nonce), CloseSignal, Reload, IssueEvent(n), CloseClear];
    ListApplies(cfg, n);
    RegisterApplies(cfg, n);
    SignalApplies(cfg, RegisteredCore(n));
    ReloadApplies(cfg, n);
    IssueBetween(cfg, n);
    LeftIsClosed(n);
    ClearApplies(cfg, left);
    forall i | 0 <= i < |events| ensures Next(cfg, states[i], events[i], states[i + 1]) {
      AppliedIsNext(cfg, states[i], events[i]);
    }
  }

  lemma SignalApplies(cfg: Config, s: Core)
    ensures Apply(cfg, s, CloseSignal) == s.(closed := true)
  {
  }

  lemma ClearApplies(cfg: Config, s: Core)
    requires s.closed
    ensures Apply(cfg, s, CloseClear) == s.(sessions := map[], nonces := map[], peerUIDs := map[])
  {
  }

  lemma LeftIsClosed(n: Names)
    ensures LeftCore(n).closed && 1 in LeftCore(n).permits
  {
  }

  lemma AppliedIsNext(cfg: Config, s: Core, e: Event)
    ensures Next(cfg, s, e, Apply(cfg, s, e))
  {
    hide Apply;
  }
}
