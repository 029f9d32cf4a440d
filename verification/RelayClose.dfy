/** What a call that closes a relay leaves behind: the fence of `RelayFence` joined with the accounting of
    `RelayExchange`. */
module RelayClose {
  import opened BrokerCore
  import opened BrokerInvariant
  import opened Options
  import opened RelayEpochs
  import opened RelayFence
  import opened RelayWorld
  import X = RelayExchange

  // ---------------------------------------------------------------- sessions in the world

  /** Every session is in order, and every relay and every closer has one. */
  ghost predicate SessionsOk(w: World) {
    && (forall c | c in w.sessions :: X.Valid(w.sessions[c]))
    && (forall r | r in w.relays :: w.relays[r] in w.sessions)
    && (forall k | k in w.closers && w.closers[k].Closing? :: w.closers[k].connection in w.sessions)
  }

  /** One session stays as it is, takes one step of its own, or is opened. */
  ghost predicate OneExchanges(sessions: map<nat, X.Session>, c: nat, x: X.Step, sessions': map<nat, X.Session>) {
    || sessions' == sessions
    || (c !in sessions && sessions' == sessions[c := X.START])
    || (c in sessions && X.Enabled(sessions[c], x) && sessions' == sessions[c := X.Do(sessions[c], x)])
  }

  /** The session a step works on and what it does there; any pair when it works on none. */
  function SessionOf(w: World, a: Step): (nat, X.Step) {
    match a
    case InstallRelay(q, c) => (c, X.Flag)
    case Enter(q, key) => (if q in w.forwards && w.forwards[q].Ready? then w.forwards[q].connection else 0,
      X.BeginRegister(key))
    case Leave(q) => (if q in w.forwards && w.forwards[q].Entering? then w.forwards[q].connection else 0, X.EndRegister)
    case GiveUp(q, key) =>
      if q in w.forwards && w.forwards[q].Awaiting?
      then (w.forwards[q].connection, X.Abandon(key, w.forwards[q].channel)) else (0, X.Flag)
    case Flag(token) => (CloserOf(w, token), X.Flag)
    case Sweep(token) => (CloserOf(w, token), X.Sweep)
    case Dispatch(c, channel) => (c, X.Send(channel))
    case Deliver(c, key, frame, valid) => (c, X.Deliver(key, frame, valid))
    case _ => (0, X.Flag)
  }

  function CloserOf(w: World, token: nat): nat {
    if token in w.closers && w.closers[token].Closing? then w.closers[token].connection else 0
  }

  lemma OpenSessions(w: World, a: Step, w': World)
    requires Opens(a) && OpenNext(w, a, w')
    ensures OneExchanges(w.sessions, SessionOf(w, a).0, SessionOf(w, a).1, w'.sessions)
    ensures forall r | r in w'.relays :: (r in w.relays && w'.relays[r] == w.relays[r]) || w'.relays[r] in w'.sessions
    ensures w'.closers == w.closers
  {
    hide LockFree, LiveRelay, Authority, Attached, Authorises, X.Enabled, X.Do;
  }

  lemma TalkSessions(w: World, a: Step, w': World)
    requires Talks(a) && TalkNext(w, a, w')
    ensures OneExchanges(w.sessions, SessionOf(w, a).0, SessionOf(w, a).1, w'.sessions)
    ensures w'.relays == w.relays && w'.closers == w.closers
  {
    hide X.Enabled, X.Do, X.Closed;
  }

  lemma CloseSessions(w: World, a: Step, w': World)
    requires !Locks(a) && !Opens(a) && !Talks(a) && CloseNext(w, a, w') && SessionsOk(w)
    ensures OneExchanges(w.sessions, SessionOf(w, a).0, SessionOf(w, a).1, w'.sessions)
    ensures forall r | r in w'.relays :: r in w.relays && w'.relays[r] == w.relays[r]
    ensures forall k | k in w'.closers && w'.closers[k].Closing? :: w'.closers[k].connection in w.sessions
  {
    hide X.Enabled, X.Do, X.Valid, LockFree, X.CloseTold;
  }

  lemma LockedSessions(cfg: Config, w: World, a: Step, w': World)
    requires Locks(a) && LockedNext(cfg, w, a, w')
    ensures w'.sessions == w.sessions && w'.relays == w.relays
    ensures forall k | k in w'.closers && w'.closers[k].Closing? :: k in w.closers && w'.closers[k] == w.closers[k]
  {
    hide CoreStep, ClosesAfter, AfterLook, AfterMark, AcceptedAfter;
  }

  /** What a step does to the sessions. */
  lemma SessionsMove(cfg: Config, w: World, a: Step, w': World)
    requires WorldNext(cfg, w, a, w') && SessionsOk(w)
    ensures OneExchanges(w.sessions, SessionOf(w, a).0, SessionOf(w, a).1, w'.sessions)
  {
    hide LockedNext, OpenNext, TalkNext, CloseNext, SessionsOk, SessionOf;
    if Locks(a) { LockedSessions(cfg, w, a, w'); }
    else if Opens(a) { OpenSessions(w, a, w'); }
    else if Talks(a) { TalkSessions(w, a, w'); }
    else { CloseSessions(w, a, w'); }
  }

  lemma ExchangeKeeps(sessions: map<nat, X.Session>, c: nat, x: X.Step, sessions': map<nat, X.Session>)
    requires OneExchanges(sessions, c, x, sessions') && forall k | k in sessions :: X.Valid(sessions[k])
    ensures forall k | k in sessions' :: X.Valid(sessions'[k])
    ensures sessions.Keys <= sessions'.Keys
  {
    FreshSession();
    hide X.Valid, X.Enabled, X.Do;
    if c in sessions && X.Enabled(sessions[c], x) {
      X.StepKeeps(sessions[c], x);
    }
  }

  lemma FreshSession()
    ensures X.Valid(X.START)
  {
  }

  lemma SessionsStep(cfg: Config, w: World, a: Step, w': World)
    requires WorldNext(cfg, w, a, w') && SessionsOk(w)
    ensures SessionsOk(w')
  {
    hide LockedNext, OpenNext, TalkNext, CloseNext, SessionOf, OneExchanges, X.Valid;
    SessionsMove(cfg, w, a, w');
    ExchangeKeeps(w.sessions, SessionOf(w, a).0, SessionOf(w, a).1, w'.sessions);
    if Locks(a) { LockedSessions(cfg, w, a, w'); }
    else if Opens(a) { OpenSessions(w, a, w'); }
    else if Talks(a) { TalkSessions(w, a, w'); }
    else { CloseSessions(w, a, w'); }
  }

  lemma {:induction false} SessionsRun(cfg: Config, worlds: seq<World>, steps: seq<Step>, i: nat)
    requires WorldRun(cfg, worlds, steps) && i < |worlds|
    ensures SessionsOk(worlds[i])
  {
    hide WorldNext, X.Valid;
    if i > 0 {
      SessionsRun(cfg, worlds, steps, i - 1);
      hide SessionsOk;
      SessionsStep(cfg, worlds[i - 1], steps[i - 1], worlds[i]);
    }
  }

  // ---------------------------------------------------------------- closed sessions

  /** A session that is closed, with the results of its close out. */
  predicate Done(sessions: map<nat, X.Session>, c: nat, registered: nat) {
    && c in sessions && sessions[c].phase == X.Swept && X.CloseTold(sessions[c]) && |sessions[c].owner| == registered
  }

  lemma DoneStep(sessions: map<nat, X.Session>, k: nat, x: X.Step, sessions': map<nat, X.Session>, c: nat,
      registered: nat)
    requires OneExchanges(sessions, k, x, sessions') && Done(sessions, c, registered) && X.Valid(sessions[c])
    ensures Done(sessions', c, registered)
  {
    hide X.Valid, X.Do, X.Enabled, X.CloseTold;
    if k == c && X.Enabled(sessions[c], x) {
      X.SweptStep(sessions[c], x);
      X.ToldStays(sessions[c], x);
    }
  }

  lemma {:induction false} DoneForever(
    cfg: Config, worlds: seq<World>, steps: seq<Step>, i: nat, j: nat, c: nat, registered: nat)
    requires WorldRun(cfg, worlds, steps) && i <= j < |worlds| && Done(worlds[i].sessions, c, registered)
    ensures Done(worlds[j].sessions, c, registered)
    decreases j - i
  {
    hide WorldNext, Done, OneExchanges, X.Valid;
    if i < j {
      DoneForever(cfg, worlds, steps, i, j - 1, c, registered);
      SessionsRun(cfg, worlds, steps, j - 1);
      var w, a := worlds[j - 1], steps[j - 1];
      SessionsMove(cfg, w, a, worlds[j]);
      assert c in w.sessions by { DoneExists(w.sessions, c, registered); }
      DoneStep(w.sessions, SessionOf(w, a).0, SessionOf(w, a).1, worlds[j].sessions, c, registered);
    }
  }

  lemma DoneExists(sessions: map<nat, X.Session>, c: nat, registered: nat)
    requires Done(sessions, c, registered)
    ensures c in sessions
  {
  }

  lemma ReturnDone(cfg: Config, w: World, token: nat, w': World, c: nat)
    requires WorldNext(cfg, w, Return(token), w') && token in w.closers && w.closers[token] == Closing(c)
    ensures c in w.sessions && w'.sessions == w.sessions && Done(w'.sessions, c, |w.sessions[c].owner|)
  {
    hide LockedNext, OpenNext, TalkNext, X.CloseTold;
  }

  lemma CloserStep(cfg: Config, w: World, a: Step, w': World, token: nat, c: nat)
    requires WorldNext(cfg, w, a, w') && token in w.closers && w.closers[token] == Closing(c) && a != Return(token)
    ensures token in w'.closers && w'.closers[token] == Closing(c)
  {
    hide LockedNext, OpenNext, TalkNext, X.Do, X.Enabled, X.CloseTold, LockFree, CoreStep;
    if Locks(a) { LockedClosers(cfg, w, a, w', token); }
    else if Opens(a) { OpenShape(w, a, w'); }
    else if Talks(a) { TalkShape(w, a, w'); }
  }

  lemma LockedClosers(cfg: Config, w: World, a: Step, w': World, token: nat)
    requires Locks(a) && LockedNext(cfg, w, a, w') && token in w.closers
    ensures token in w'.closers && w'.closers[token] == w.closers[token]
  {
    hide CoreStep, ClosesAfter, AfterLook, AfterMark, AcceptedAfter;
  }

  lemma {:induction false} CloserStays(cfg: Config, worlds: seq<World>, steps: seq<Step>, i: nat, j: nat, token: nat,
      c: nat)
    requires WorldRun(cfg, worlds, steps) && i <= j < |worlds|
    requires token in worlds[i].closers && worlds[i].closers[token] == Closing(c)
    requires forall k | i <= k < j :: steps[k] != Return(token)
    ensures token in worlds[j].closers && worlds[j].closers[token] == Closing(c)
    decreases j - i
  {
    hide WorldNext;
    if i < j {
      CloserStays(cfg, worlds, steps, i, j - 1, token, c);
      CloserStep(cfg, worlds[j - 1], steps[j - 1], worlds[j], token, c);
    }
  }

  lemma Detaches(cfg: Config, w: World, token: nat, w': World, r: Ref, c: nat)
    requires WorldNext(cfg, w, CloseRelay(token), w') && token in w.closers && w.closers[token] == Owes(r)
    requires r in w.relays && w.relays[r] == c
    ensures token in w'.closers && w'.closers[token] == Closing(c)
  {
    hide LockedNext, OpenNext, TalkNext, LockFree;
  }

  /** How a channel of a closed session stands: its one result is out, a response is on its way, or its
      waiter had given up. */
  predicate Settled(s: X.Session, channel: nat) {
    channel in s.sent || (channel in s.inflight && s.inflight[channel].Response?) || channel in s.left
  }

  /** A call that closes a session returns at step `d`: from then on nothing is pending on the session and
      nothing is ever registered with it, and every exchange it ever had is settled. */
  lemma ReturnSettles(cfg: Config, worlds: seq<World>, steps: seq<Step>, d: nat, j: nat, token: nat, c: nat)
    requires WorldRun(cfg, worlds, steps) && d < j < |worlds| && steps[d] == Return(token)
    requires token in worlds[d].closers && worlds[d].closers[token] == Closing(c)
    ensures c in worlds[d].sessions && c in worlds[j].sessions && var s := worlds[j].sessions[c];
            && s.phase == X.Swept && s.pending == map[] && s.registering.None?
            && |s.owner| == |worlds[d].sessions[c].owner|
            && forall channel: nat | channel < |s.owner| :: Settled(s, channel)
  {
    hide WorldNext, X.CloseTold;
    ReturnDone(cfg, worlds[d], token, worlds[d + 1], c);
    DoneForever(cfg, worlds, steps, d + 1, j, c, |worlds[d].sessions[c].owner|);
    SessionsRun(cfg, worlds, steps, j);
    var s := worlds[j].sessions[c];
    assert X.Valid(s);
    forall channel: nat | channel < |s.owner| ensures Settled(s, channel) {
      X.ClosedAccounts(s, channel);
    }
  }

  /** The whole of a revocation. Step `i` ends generation `g` of the object, step `c` detaches its relay
      session `k`, and at step `d` the call returns. From then on, whatever forwards were doing meanwhile,
      the object has no relay until a newer generation is installed, nothing is pending on the detached
      session or ever registered with it, and every exchange that was on it is settled. */
  lemma RevocationSettles(cfg: Config, worlds: seq<World>, steps: seq<Step>, i: nat, c: nat, d: nat, j: nat,
                          r: Ref, g: nat, token: nat, k: nat)
    requires WorldRun(cfg, worlds, steps) && i < c < d < j < |worlds| && Ends(worlds[i], steps[i], r, g)
    requires steps[c] == CloseRelay(token) && token in worlds[c].closers && worlds[c].closers[token] == Owes(r)
    requires r in worlds[c].relays && worlds[c].relays[r] == k
    requires steps[d] == Return(token) && forall n | c < n < d :: steps[n] != Return(token)
    requires forall n | i < n <= j :: !Superseded(worlds[n].core, r, g)
    ensures r !in worlds[j].relays
    ensures k in worlds[d].sessions && k in worlds[j].sessions && var s := worlds[j].sessions[k];
            && s.phase == X.Swept && s.pending == map[] && s.registering.None?
            && |s.owner| == |worlds[d].sessions[k].owner|
            && forall channel: nat | channel < |s.owner| :: Settled(s, channel)
  {
    hide WorldNext, Ends, Superseded, Settled;
    RevocationFence(cfg, worlds, steps, i, c, j, r, g);
    Detaches(cfg, worlds[c], token, worlds[c + 1], r, k);
    CloserStays(cfg, worlds, steps, c + 1, d, token, k);
    ReturnSettles(cfg, worlds, steps, d, j, token, k);
  }

  /** The result of an exchange is its result for good, in every run. */
  lemma {:induction false} ResultForGood(
    cfg: Config, worlds: seq<World>, steps: seq<Step>, i: nat, j: nat, c: nat, channel: nat)
    requires WorldRun(cfg, worlds, steps) && i <= j < |worlds|
    requires c in worlds[i].sessions && channel in worlds[i].sessions[c].sent
    ensures c in worlds[j].sessions && channel in worlds[j].sessions[c].sent
    ensures worlds[j].sessions[c].sent[channel] == worlds[i].sessions[c].sent[channel]
    decreases j - i
  {
    hide WorldNext, X.Valid, X.Do, X.Enabled;
    if i < j {
      ResultForGood(cfg, worlds, steps, i, j - 1, c, channel);
      SessionsRun(cfg, worlds, steps, j - 1);
      var w, a := worlds[j - 1], steps[j - 1];
      SessionsMove(cfg, w, a, worlds[j]);
      var (k, x) := SessionOf(w, a);
      if k == c && X.Enabled(w.sessions[c], x) {
        X.ResultStays(w.sessions[c], x, channel);
      }
    }
  }

  /** After a closing call has returned, no frame is written to its session. */
  lemma NoWriteAfterReturn(
    cfg: Config, worlds: seq<World>, steps: seq<Step>, d: nat, j: nat, token: nat, c: nat, q: nat)
    requires WorldRun(cfg, worlds, steps) && d < j < |steps| && steps[d] == Return(token) && steps[j] == Write(q)
    requires token in worlds[d].closers && worlds[d].closers[token] == Closing(c)
    ensures q in worlds[j].forwards && worlds[j].forwards[q].Entered? && worlds[j].forwards[q].connection != c
  {
    hide WorldNext, Settled;
    ReturnSettles(cfg, worlds, steps, d, j, token, c);
    WriteGuard(cfg, worlds[j], q, worlds[j + 1]);
  }

  lemma WriteGuard(cfg: Config, w: World, q: nat, w': World)
    requires WorldNext(cfg, w, Write(q), w')
    ensures q in w.forwards && w.forwards[q].Entered? && w.forwards[q].connection in w.sessions
    ensures !X.Closed(w.sessions[w.forwards[q].connection])
  {
    hide LockedNext, OpenNext, CloseNext;
  }

  // ---------------------------------------------------------------- open sessions

  predicate Open(sessions: map<nat, X.Session>, c: nat) { c in sessions && !X.Closed(sessions[c]) }

  /** The session is an object's relay. */
  ghost predicate IsRelay(relays: map<Ref, nat>, c: nat) { exists r :: r in relays && relays[r] == c }

  /** Some call still has to close the session. */
  ghost predicate HasCloser(closers: map<nat, Closer>, c: nat) { exists k :: k in closers && closers[k] == Closing(c) }

  ghost predicate AllHeld(w: World) {
    forall c | Open(w.sessions, c) :: IsRelay(w.relays, c) || HasCloser(w.closers, c)
  }

  /** A thread that holds an object's relay mutex to open a relay found none that is open. */
  ghost predicate OpenersFree(w: World) {
    forall q, r | q in w.forwards && Holds(w.forwards[q], r) :: !LiveRelay(w, r)
  }

  lemma OpenBefore(w: World, c: nat, x: X.Step, sessions': map<nat, X.Session>, k: nat)
    requires OneExchanges(w.sessions, c, x, sessions') && Open(sessions', k)
    ensures Open(w.sessions, k) || (k == c && c !in w.sessions)
  {
    hide X.Do, X.Enabled;
    if k == c && c in w.sessions && X.Enabled(w.sessions[c], x) {
      hide X.Closed;
      X.StepGrows(w.sessions[c], x);
    }
  }

  lemma ClosersGrow(w: World, w': World, c: nat)
    requires forall k | k in w.closers :: k in w'.closers && w'.closers[k] == w.closers[k]
    ensures HasCloser(w.closers, c) ==> HasCloser(w'.closers, c)
  {
    if HasCloser(w.closers, c) {
      var k :| k in w.closers && w.closers[k] == Closing(c);
      assert w'.closers[k] == Closing(c);
    }
  }

  /** A relay that is replaced is closed. */
  lemma OpenHolds(w: World, a: Step, w': World, c: nat)
    requires Opens(a) && OpenNext(w, a, w') && OpenersFree(w) && Open(w.sessions, c) && IsRelay(w.relays, c)
    ensures IsRelay(w'.relays, c)
  {
    var r :| r in w.relays && w.relays[r] == c;
    if a.InstallRelay? {
      assert Holds(w.forwards[a.thread], w.forwards[a.thread].ref);
      assert !LiveRelay(w, w.forwards[a.thread].ref);
      assert LiveRelay(w, r);
    }
    assert r in w'.relays && w'.relays[r] == c;
  }

  lemma InstallHolds(w: World, a: Step, w': World, c: nat)
    requires Opens(a) && OpenNext(w, a, w') && c !in w.sessions && c in w'.sessions
    ensures IsRelay(w'.relays, c)
  {
    hide LockFree, LiveRelay, Authority, Attached, Authorises;
    var r := w.forwards[a.thread].ref;
    assert r in w'.relays && w'.relays[r] == c;
  }

  lemma CloseHolds(w: World, a: Step, w': World, c: nat)
    requires !Locks(a) && !Opens(a) && !Talks(a) && CloseNext(w, a, w') && Open(w'.sessions, c)
    requires IsRelay(w.relays, c) || HasCloser(w.closers, c)
    ensures IsRelay(w'.relays, c) || HasCloser(w'.closers, c)
  {
    hide X.Do, X.Enabled, LockFree, X.CloseTold;
    if HasCloser(w.closers, c) {
      var k :| k in w.closers && w.closers[k] == Closing(c);
      assert a != Return(k);
      assert k in w'.closers && w'.closers[k] == Closing(c);
    } else {
      var r :| r in w.relays && w.relays[r] == c;
      if r !in w'.relays {
        assert a.token in w'.closers && w'.closers[a.token] == Closing(c);
      }
    }
  }

  lemma HeldStep(cfg: Config, w: World, a: Step, w': World)
    requires WorldNext(cfg, w, a, w') && SessionsOk(w) && AllHeld(w) && OpenersFree(w)
    ensures AllHeld(w')
  {
    SessionsMove(cfg, w, a, w');
    hide LockedNext, OpenNext, TalkNext, CloseNext, SessionsOk, OpenersFree, SessionOf, IsRelay, HasCloser, Open;
    forall c | Open(w'.sessions, c) ensures IsRelay(w'.relays, c) || HasCloser(w'.closers, c) {
      OpenBefore(w, SessionOf(w, a).0, SessionOf(w, a).1, w'.sessions, c);
      if Locks(a) {
        LockedSessions(cfg, w, a, w');
        forall k | k in w.closers ensures k in w'.closers && w'.closers[k] == w.closers[k] {
          LockedClosers(cfg, w, a, w', k);
        }
        ClosersGrow(w, w', c);
      } else if Opens(a) {
        OpenSessions(w, a, w');
        if Open(w.sessions, c) {
          if IsRelay(w.relays, c) { OpenHolds(w, a, w', c); }
        } else {
          assert c in w'.sessions by { OpenExists(w'.sessions, c); }
          InstallHolds(w, a, w', c);
        }
      } else if Talks(a) {
        TalkSessions(w, a, w');
        assert Open(w.sessions, c) by { TalkOpens(w, a, w', c); }
      } else {
        assert Open(w.sessions, c) by { CloseOpens(w, a, w', c); }
        CloseHolds(w, a, w', c);
      }
    }
  }

  lemma OpenExists(sessions: map<nat, X.Session>, c: nat)
    requires Open(sessions, c)
    ensures c in sessions
  {
  }

  lemma TalkOpens(w: World, a: Step, w': World, c: nat)
    requires Talks(a) && TalkNext(w, a, w') && Open(w'.sessions, c)
    requires Open(w.sessions, c) || c !in w.sessions
    ensures Open(w.sessions, c)
  {
    hide X.Do, X.Enabled, X.Closed;
  }

  lemma CloseOpens(w: World, a: Step, w': World, c: nat)
    requires !Locks(a) && !Opens(a) && !Talks(a) && CloseNext(w, a, w') && Open(w'.sessions, c)
    requires Open(w.sessions, c) || c !in w.sessions
    ensures Open(w.sessions, c)
  {
    hide X.Do, X.Enabled, X.Closed, X.CloseTold, LockFree;
  }

  /** A relay that is not open does not come back but by an install. */
  lemma LiveBefore(w: World, a: Step, w': World, r: Ref)
    requires OneExchanges(w.sessions, SessionOf(w, a).0, SessionOf(w, a).1, w'.sessions)
    requires r in w'.relays ==> r in w.relays && w'.relays[r] == w.relays[r] && w.relays[r] in w.sessions
    ensures LiveRelay(w', r) ==> LiveRelay(w, r)
  {
    hide SessionOf;
    if LiveRelay(w', r) {
      OpenBefore(w, SessionOf(w, a).0, SessionOf(w, a).1, w'.sessions, w'.relays[r]);
    }
  }

  lemma InstallersFree(w: World, a: Step, w': World)
    requires a.InstallRelay? && OpenNext(w, a, w') && OpenersFree(w) && Exclusive(w.forwards) && SessionsOk(w)
    ensures OpenersFree(w')
  {
    hide LockFree, X.Valid;
    var own := w.forwards[a.thread].ref;
    assert Holds(w.forwards[a.thread], own);
    forall q, r | q in w'.forwards && Holds(w'.forwards[q], r) ensures !LiveRelay(w', r) {
      assert q != a.thread && q in w.forwards && w.forwards[q] == w'.forwards[q];
      assert Holds(w.forwards[q], r) && r != own;
      assert !LiveRelay(w, r);
      if r in w'.relays {
        assert w'.relays[r] == w.relays[r] && w.relays[r] in w.sessions;
      }
    }
  }

  lemma OpenersOpen(w: World, a: Step, w': World)
    requires Opens(a) && !a.InstallRelay? && OpenNext(w, a, w') && OpenersFree(w)
    ensures OpenersFree(w')
  {
    hide LockFree, Authorises, Authority, Attached;
    assert w'.relays == w.relays && w'.sessions == w.sessions;
    forall q, r | q in w'.forwards && Holds(w'.forwards[q], r) ensures !LiveRelay(w', r) {
      if !(a.Lock? && q == a.thread) {
        assert q in w.forwards && Holds(w.forwards[q], r);
      }
      assert !LiveRelay(w, r);
    }
  }

  lemma OpenersOtherwise(cfg: Config, w: World, a: Step, w': World)
    requires !Opens(a) && WorldNext(cfg, w, a, w') && OpenersFree(w) && SessionsOk(w)
    ensures OpenersFree(w')
  {
    SessionsMove(cfg, w, a, w');
    RelaysShrink(cfg, w, a, w');
    HoldersStay(cfg, w, a, w');
    hide WorldNext, SessionOf, OneExchanges, X.Valid;
    forall q, r | q in w'.forwards && Holds(w'.forwards[q], r) ensures !LiveRelay(w', r) {
      assert q in w.forwards && Holds(w.forwards[q], r);
      assert !LiveRelay(w, r);
      LiveBefore(w, a, w', r);
    }
  }

  lemma RelaysShrink(cfg: Config, w: World, a: Step, w': World)
    requires !Opens(a) && WorldNext(cfg, w, a, w') && SessionsOk(w)
    ensures forall r | r in w'.relays :: r in w.relays && w'.relays[r] == w.relays[r]
  {
    hide LockedNext, OpenNext, TalkNext, CloseNext, SessionsOk, SessionOf;
    if Locks(a) { LockedSessions(cfg, w, a, w'); }
    else if Talks(a) { TalkSessions(w, a, w'); }
    else { CloseSessions(w, a, w'); }
  }

  lemma HoldersStay(cfg: Config, w: World, a: Step, w': World)
    requires !Opens(a) && WorldNext(cfg, w, a, w')
    ensures forall q, r | q in w'.forwards && Holds(w'.forwards[q], r) :: q in w.forwards && Holds(w.forwards[q], r)
  {
    hide LockedNext, OpenNext, TalkNext, CloseNext, CoreStep;
    StepShape(cfg, w, a, w');
    if a.Turn? || a.Mark? {
      LockedMovesOn(cfg, w, a, w');
    } else if Talks(a) {
      TalkMovesOn(w, a, w');
    }
  }

  lemma OpenersStep(cfg: Config, w: World, a: Step, w': World)
    requires WorldNext(cfg, w, a, w') && SessionsOk(w) && OpenersFree(w) && Exclusive(w.forwards)
    ensures OpenersFree(w')
  {
    hide LockedNext, OpenNext, TalkNext, CloseNext, SessionsOk, OpenersFree, Exclusive;
    if !Opens(a) {
      OpenersOtherwise(cfg, w, a, w');
    } else if a.InstallRelay? {
      InstallersFree(w, a, w');
    } else {
      OpenersOpen(w, a, w');
    }
  }

  /** In every run each open session is an object's relay, or some call still has to close it. So once a
      revocation that found no relay has returned, a session of the object that is still open is in the
      hands of another closing call. */
  lemma {:induction false} OpenSessionsAreHeld(cfg: Config, worlds: seq<World>, steps: seq<Step>, i: nat)
    requires WorldRun(cfg, worlds, steps) && i < |worlds|
    ensures AllHeld(worlds[i]) && OpenersFree(worlds[i])
  {
    hide WorldNext;
    if i > 0 {
      OpenSessionsAreHeld(cfg, worlds, steps, i - 1);
      SessionsRun(cfg, worlds, steps, i - 1);
      WorldRunInv(cfg, worlds, steps, i - 1);
      hide AllHeld, OpenersFree, SessionsOk, Inv, ForwardsOk, Exclusive;
      HeldStep(cfg, worlds[i - 1], steps[i - 1], worlds[i]);
      OpenersStep(cfg, worlds[i - 1], steps[i - 1], worlds[i]);
    }
  }

  // ---------------------------------------------------------------- detached sessions

  /** The session exists and is not this object's relay. */
  predicate Apart(w: World, r: Ref, c: nat) { c in w.sessions && !(r in w.relays && w.relays[r] == c) }

  /** A failing relay is detached, under the relay mutex, only from the object that still has it, and handed to
      its closer. */
  lemma FailDetaches(cfg: Config, w: World, r: Ref, c: nat, token: nat, w': World)
    requires WorldNext(cfg, w, FailRelay(r, c, token), w')
    ensures LockFree(w, r) && Apart(w', r, c) && token in w'.closers && w'.closers[token] == Closing(c)
    ensures forall k :: k in w'.relays <==> k in w.relays && !(k == r && w.relays[k] == c)
    ensures forall k | k in w'.relays :: w'.relays[k] == w.relays[k]
  {
    hide LockedNext, OpenNext, TalkNext, LockFree;
  }

  lemma OpenApart(w: World, a: Step, w': World, r: Ref, c: nat)
    requires Opens(a) && OpenNext(w, a, w') && Apart(w, r, c)
    ensures Apart(w', r, c)
  {
    hide LockFree, LiveRelay, Authority, Attached, Authorises;
  }

  lemma ApartStep(cfg: Config, w: World, a: Step, w': World, r: Ref, c: nat)
    requires WorldNext(cfg, w, a, w') && SessionsOk(w) && Apart(w, r, c)
    ensures Apart(w', r, c)
  {
    hide LockedNext, OpenNext, TalkNext, CloseNext, SessionsOk;
    if Opens(a) {
      OpenApart(w, a, w', r, c);
    } else {
      SessionStays(cfg, w, a, w', c);
      RelaysShrink(cfg, w, a, w');
    }
  }

  /** A session that was detached from an object, by a revoking call or because it failed, is never that object's
      relay again. */
  lemma {:induction false} DetachedForGood(
    cfg: Config, worlds: seq<World>, steps: seq<Step>, i: nat, j: nat, r: Ref, c: nat)
    requires WorldRun(cfg, worlds, steps) && i <= j < |worlds| && Apart(worlds[i], r, c)
    ensures Apart(worlds[j], r, c)
    decreases j - i
  {
    hide WorldNext, Apart, SessionsOk;
    if i < j {
      DetachedForGood(cfg, worlds, steps, i, j - 1, r, c);
      SessionsRun(cfg, worlds, steps, j - 1);
      ApartStep(cfg, worlds[j - 1], steps[j - 1], worlds[j], r, c);
    }
  }

  // ---------------------------------------------------------------- threads and their channels

  predicate HasChannel(f: Forward) { f.Entering? || f.Entered? || f.Written? || f.Awaiting? }

  /** The thread's channel was made for a request of its own number and binding. */
  predicate OwnsChannel(sessions: map<nat, X.Session>, q: nat, f: Forward) {
    HasChannel(f) ==>
      && f.connection in sessions && f.channel < |sessions[f.connection].owner|
      && var key := sessions[f.connection].owner[f.channel];
         key.sequence == q && key.bindingID == f.ref.id
  }

  ghost predicate ChannelsOwned(w: World) {
    forall q | q in w.forwards :: OwnsChannel(w.sessions, q, w.forwards[q])
  }

  lemma OwnershipStays(
    sessions: map<nat, X.Session>, c: nat, x: X.Step, sessions': map<nat, X.Session>, q: nat, f: Forward)
    requires OneExchanges(sessions, c, x, sessions') && OwnsChannel(sessions, q, f)
    ensures OwnsChannel(sessions', q, f)
  {
    if HasChannel(f) && f.connection == c && c in sessions && X.Enabled(sessions[c], x) {
      X.StepGrows(sessions[c], x);
    }
    hide X.Do, X.Enabled, X.Closed;
  }

  lemma TalkOwns(w: World, a: Step, w': World)
    requires Talks(a) && TalkNext(w, a, w') && ChannelsOwned(w)
    ensures a.thread in w'.forwards && OwnsChannel(w'.sessions, a.thread, w'.forwards[a.thread])
  {
    assert a.thread in w.forwards && OwnsChannel(w.sessions, a.thread, w.forwards[a.thread]);
  }

  lemma OpenHasNone(w: World, a: Step, w': World)
    requires Opens(a) && OpenNext(w, a, w')
    ensures a.thread in w'.forwards && !HasChannel(w'.forwards[a.thread])
  {
    hide LockFree, LiveRelay, Authority, Attached, Authorises;
  }

  lemma LockedOwns(cfg: Config, w: World, a: Step, w': World)
    requires (a.Turn? || a.Mark?) && LockedNext(cfg, w, a, w') && ChannelsOwned(w)
    ensures a.thread in w'.forwards && OwnsChannel(w.sessions, a.thread, w'.forwards[a.thread])
  {
    hide CoreStep, TakeTurn;
    assert OwnsChannel(w.sessions, a.thread, w.forwards[a.thread]);
  }

  lemma MoverOwns(cfg: Config, w: World, a: Step, w': World)
    requires WorldNext(cfg, w, a, w') && ThreadOf(a).Some? && ChannelsOwned(w)
    ensures a.thread in w'.forwards && OwnsChannel(w'.sessions, a.thread, w'.forwards[a.thread])
  {
    hide LockedNext, OpenNext, TalkNext, CloseNext, OwnsChannel, HasChannel;
    if Locks(a) {
      LockedSessions(cfg, w, a, w');
      LockedOwns(cfg, w, a, w');
    } else if Opens(a) {
      OpenHasNone(w, a, w');
      NoChannelOwned(w'.sessions, a.thread, w'.forwards[a.thread]);
    } else {
      TalkOwns(w, a, w');
    }
  }

  lemma NoChannelOwned(sessions: map<nat, X.Session>, q: nat, f: Forward)
    requires !HasChannel(f)
    ensures OwnsChannel(sessions, q, f)
  {
  }

  lemma ChannelsStep(cfg: Config, w: World, a: Step, w': World)
    requires WorldNext(cfg, w, a, w') && SessionsOk(w) && ChannelsOwned(w)
    ensures ChannelsOwned(w')
  {
    SessionsMove(cfg, w, a, w');
    hide WorldNext, SessionsOk, SessionOf, OwnsChannel, OneExchanges, CoreStep;
    StepShape(cfg, w, a, w');
    if ThreadOf(a).Some? { MoverOwns(cfg, w, a, w'); }
    forall q | q in w'.forwards ensures OwnsChannel(w'.sessions, q, w'.forwards[q]) {
      if ThreadOf(a) != Some(q) {
        OwnershipStays(w.sessions, SessionOf(w, a).0, SessionOf(w, a).1, w'.sessions, q, w.forwards[q]);
      }
    }
  }

  lemma {:induction false} ChannelsRun(cfg: Config, worlds: seq<World>, steps: seq<Step>, i: nat)
    requires WorldRun(cfg, worlds, steps) && i < |worlds|
    ensures ChannelsOwned(worlds[i])
  {
    hide WorldNext, OwnsChannel;
    if i > 0 {
      ChannelsRun(cfg, worlds, steps, i - 1);
      SessionsRun(cfg, worlds, steps, i - 1);
      hide ChannelsOwned, SessionsOk;
      ChannelsStep(cfg, worlds[i - 1], steps[i - 1], worlds[i]);
    }
  }

  /** What a thread receives answers its own request, by number and binding, or reports the close. */
  lemma ReceivesItsOwn(cfg: Config, worlds: seq<World>, steps: seq<Step>, i: nat, q: nat)
    requires WorldRun(cfg, worlds, steps) && i < |steps| && steps[i] == Receive(q)
    ensures q in worlds[i].forwards && worlds[i].forwards[q].Awaiting? && var f := worlds[i].forwards[q];
            && f.connection in worlds[i].sessions && f.channel in worlds[i].sessions[f.connection].sent
            && var result := worlds[i].sessions[f.connection].sent[f.channel];
            && (result == X.Failed || (result.key.sequence == q && result.key.bindingID == f.ref.id))
  {
    ReceiveGuard(cfg, worlds[i], q, worlds[i + 1]);
    hide WorldNext;
    ChannelsRun(cfg, worlds, steps, i);
    SessionsRun(cfg, worlds, steps, i);
    var f := worlds[i].forwards[q];
    assert OwnsChannel(worlds[i].sessions, q, f);
    assert X.Valid(worlds[i].sessions[f.connection]);
    hide X.Apart, X.Accounted, X.PendingOk;
  }

  lemma ReceiveGuard(cfg: Config, w: World, q: nat, w': World)
    requires WorldNext(cfg, w, Receive(q), w')
    ensures q in w.forwards && w.forwards[q].Awaiting? && w.forwards[q].connection in w.sessions
    ensures w.forwards[q].channel in w.sessions[w.forwards[q].connection].sent
  {
    hide LockedNext, OpenNext, CloseNext;
  }

  /** A thread that registers ends up pending under its own number on its own channel, and one that gives up
      leaves nothing pending on it. */
  lemma PendsOnItsOwn(cfg: Config, worlds: seq<World>, steps: seq<Step>, i: nat, q: nat)
    requires WorldRun(cfg, worlds, steps) && i < |steps|
    requires steps[i] == Leave(q) || (steps[i].GiveUp? && steps[i].thread == q)
    ensures q in worlds[i].forwards && HasChannel(worlds[i].forwards[q]) && var f := worlds[i].forwards[q];
            && f.connection in worlds[i + 1].sessions && var pending := worlds[i + 1].sessions[f.connection].pending;
            && (steps[i] == Leave(q) ==>
                  exists key :: key in pending && pending[key] == f.channel && key.sequence == q)
            && (steps[i].GiveUp? ==> forall key | key in pending :: pending[key] != f.channel)
  {
    ChannelGuard(cfg, worlds[i], steps[i], worlds[i + 1]);
    hide WorldNext;
    ChannelsRun(cfg, worlds, steps, i);
    SessionsRun(cfg, worlds, steps, i);
    var f := worlds[i].forwards[q];
    assert OwnsChannel(worlds[i].sessions, q, f);
    var s := worlds[i].sessions[f.connection];
    assert X.Valid(s);
    hide SessionsOk, ChannelsOwned;
    if steps[i] == Leave(q) {
      LeavePends(s);
    } else {
      GivenUp(s, steps[i].key, f.channel);
    }
  }

  lemma LeavePends(s: X.Session)
    requires X.Valid(s) && X.Enabled(s, X.EndRegister)
    ensures var (key, channel) := s.registering.value; var pending := X.Do(s, X.EndRegister).pending;
            key in pending && pending[key] == channel && channel < |s.owner| && s.owner[channel] == key
  {
  }

  lemma GivenUp(s: X.Session, key: X.Key, channel: nat)
    requires X.Valid(s) && X.Enabled(s, X.Abandon(key, channel)) && s.owner[channel] == key
    ensures forall k | k in X.Do(s, X.Abandon(key, channel)).pending ::
      X.Do(s, X.Abandon(key, channel)).pending[k] != channel
  {
  }

  lemma ChannelGuard(cfg: Config, w: World, a: Step, w': World)
    requires WorldNext(cfg, w, a, w') && (a.Leave? || a.GiveUp?)
    ensures a.thread in w.forwards && HasChannel(w.forwards[a.thread]) && var f := w.forwards[a.thread];
            && f.connection in w.sessions && f.connection in w'.sessions && var s := w.sessions[f.connection];
            && (a.Leave? ==>
                  && X.Enabled(s, X.EndRegister) && w'.sessions[f.connection] == X.Do(s, X.EndRegister)
                  && s.registering.value.1 == f.channel)
            && (a.GiveUp? ==>
                  && X.Enabled(s, X.Abandon(a.key, f.channel)) && s.owner[f.channel] == a.key
                  && w'.sessions[f.connection] == X.Do(s, X.Abandon(a.key, f.channel)))
  {
    hide LockedNext, OpenNext, CloseNext, X.Do;
  }

  // ---------------------------------------------------------------- where a received result comes from

  /** The step decides a result of the session: a valid response delivered while its request is pending on the
      channel, or the sweep of a call that closes the session. */
  predicate Decided(w: World, a: Step, c: nat, channel: nat, result: X.Outcome) {
    c in w.sessions && var pending := w.sessions[c].pending;
    match a
    case Deliver(k, key, frame, valid) =>
      k == c && valid && key in pending && pending[key] == channel && result == X.Response(key, frame)
    case Sweep(token) =>
      && token in w.closers && w.closers[token] == Closing(c) && result == X.Failed
      && exists key :: key in pending && pending[key] == channel
    case _ => false
  }

  lemma DecidedMeans(w: World, a: Step, c: nat, channel: nat, result: X.Outcome)
    requires c in w.sessions
    ensures Decided(w, a, c, channel, result) ==>
      SessionOf(w, a).0 == c && X.Decides(w.sessions[c], SessionOf(w, a).1, channel) == Some(result)
  {
  }

  lemma MeansDecided(cfg: Config, w: World, a: Step, w': World, c: nat, channel: nat, result: X.Outcome)
    requires WorldNext(cfg, w, a, w') && c in w.sessions && SessionOf(w, a).0 == c
    requires X.Decides(w.sessions[c], SessionOf(w, a).1, channel) == Some(result)
    ensures Decided(w, a, c, channel, result)
  {
    hide LockedNext, OpenNext, TalkNext, X.Do, X.Enabled, X.CloseTold, LockFree;
  }

  /** What one step does to the result of a channel. */
  lemma ResultStep(cfg: Config, w: World, a: Step, w': World, c: nat, channel: nat)
    requires WorldNext(cfg, w, a, w') && SessionsOk(w) && c in w'.sessions
    ensures c in w.sessions && X.ResultOf(w.sessions[c], channel).Some? ==>
      X.ResultOf(w'.sessions[c], channel) == X.ResultOf(w.sessions[c], channel)
    ensures X.ResultOf(w'.sessions[c], channel).Some? && (c in w.sessions ==> X.ResultOf(w.sessions[c], channel).None?)
      ==> Decided(w, a, c, channel, X.ResultOf(w'.sessions[c], channel).value)
  {
    SessionsMove(cfg, w, a, w');
    var (k, x) := SessionOf(w, a);
    hide WorldNext, X.Do, X.Enabled, X.Valid, X.Decides, Decided, SessionOf;
    if c in w.sessions && k == c && X.Enabled(w.sessions[c], x) {
      X.DecidedExactly(w.sessions[c], x, channel);
      hide X.ResultOf;
      if X.Decides(w.sessions[c], x, channel).Some? {
        MeansDecided(cfg, w, a, w', c, channel, X.Decides(w.sessions[c], x, channel).value);
      }
    }
  }

  lemma SessionStays(cfg: Config, w: World, a: Step, w': World, c: nat)
    requires WorldNext(cfg, w, a, w') && SessionsOk(w) && c in w.sessions
    ensures c in w'.sessions
  {
    hide WorldNext, SessionsOk, SessionOf, X.Do, X.Enabled;
    SessionsMove(cfg, w, a, w');
  }

  lemma {:induction false} DecidedForGood(
    cfg: Config, worlds: seq<World>, steps: seq<Step>, i: nat, j: nat, c: nat, channel: nat)
    requires WorldRun(cfg, worlds, steps) && i <= j < |worlds|
    requires c in worlds[i].sessions && X.ResultOf(worlds[i].sessions[c], channel).Some?
    ensures c in worlds[j].sessions
    ensures X.ResultOf(worlds[j].sessions[c], channel) == X.ResultOf(worlds[i].sessions[c], channel)
    decreases j - i
  {
    hide WorldNext, X.ResultOf, Decided, SessionsOk;
    if i < j {
      DecidedForGood(cfg, worlds, steps, i, j - 1, c, channel);
      SessionsRun(cfg, worlds, steps, j - 1);
      SessionStays(cfg, worlds[j - 1], steps[j - 1], worlds[j], c);
      ResultStep(cfg, worlds[j - 1], steps[j - 1], worlds[j], c, channel);
    }
  }

  lemma {:induction false} DecidedBefore(
    cfg: Config, worlds: seq<World>, steps: seq<Step>, j: nat, c: nat, channel: nat) returns (i: nat)
    requires WorldRun(cfg, worlds, steps) && j < |worlds|
    requires c in worlds[j].sessions && X.ResultOf(worlds[j].sessions[c], channel).Some?
    ensures i < j && Decided(worlds[i], steps[i], c, channel, X.ResultOf(worlds[j].sessions[c], channel).value)
  {
    hide WorldNext, X.ResultOf, Decided, SessionsOk;
    assert j > 0;
    SessionsRun(cfg, worlds, steps, j - 1);
    ResultStep(cfg, worlds[j - 1], steps[j - 1], worlds[j], c, channel);
    if c in worlds[j - 1].sessions && X.ResultOf(worlds[j - 1].sessions[c], channel).Some? {
      i := DecidedBefore(cfg, worlds, steps, j - 1, c, channel);
    } else {
      i := j - 1;
    }
  }

  /** A step that decides gives the channel the result it decides, and there was none before. */
  lemma DecidingStep(cfg: Config, w: World, a: Step, w': World, c: nat, channel: nat, result: X.Outcome)
    requires WorldNext(cfg, w, a, w') && SessionsOk(w) && Decided(w, a, c, channel, result)
    ensures c in w.sessions && X.ResultOf(w.sessions[c], channel).None?
    ensures c in w'.sessions && X.ResultOf(w'.sessions[c], channel) == Some(result)
  {
    DecidedMeans(w, a, c, channel, result);
    DecidingMoves(cfg, w, a, w', c, channel, result);
    hide WorldNext, Decided, SessionOf, X.Do, X.Enabled, X.Valid, X.Decides, X.ResultOf;
    X.DecidedExactly(w.sessions[c], SessionOf(w, a).1, channel);
  }

  lemma DecidingMoves(cfg: Config, w: World, a: Step, w': World, c: nat, channel: nat, result: X.Outcome)
    requires WorldNext(cfg, w, a, w') && Decided(w, a, c, channel, result)
    ensures X.Enabled(w.sessions[c], SessionOf(w, a).1)
    ensures c in w'.sessions && w'.sessions[c] == X.Do(w.sessions[c], SessionOf(w, a).1)
  {
    hide LockedNext, OpenNext, TalkNext, X.Do, X.Enabled, X.CloseTold, LockFree;
  }

  /** Some result of the channel is decided at this step. */
  ghost predicate DecidesAt(worlds: seq<World>, steps: seq<Step>, i: nat, c: nat, channel: nat)
    requires |worlds| == |steps| + 1 && i < |steps|
  {
    exists result :: Decided(worlds[i], steps[i], c, channel, result)
  }

  lemma DecidedOnce(cfg: Config, worlds: seq<World>, steps: seq<Step>, i: nat, n: nat, c: nat, channel: nat)
    requires WorldRun(cfg, worlds, steps) && i < n < |steps| && DecidesAt(worlds, steps, i, c, channel)
    ensures !DecidesAt(worlds, steps, n, c, channel)
  {
    hide WorldNext, Decided, X.ResultOf, SessionsOk;
    var result :| Decided(worlds[i], steps[i], c, channel, result);
    SessionsRun(cfg, worlds, steps, i);
    DecidingStep(cfg, worlds[i], steps[i], worlds[i + 1], c, channel, result);
    DecidedForGood(cfg, worlds, steps, i + 1, n, c, channel);
    forall other | Decided(worlds[n], steps[n], c, channel, other) ensures false {
      SessionsRun(cfg, worlds, steps, n);
      DecidingStep(cfg, worlds[n], steps[n], worlds[n + 1], c, channel, other);
    }
  }

  /** What a thread receives was decided at exactly one step of the run: the delivery of that very frame, valid
      and taken while the thread's own request was pending on its channel, or the sweep of a call that closed
      its session. */
  lemma ReceivedOrigin(cfg: Config, worlds: seq<World>, steps: seq<Step>, j: nat, q: nat) returns (i: nat)
    requires WorldRun(cfg, worlds, steps) && j < |steps| && steps[j] == Receive(q)
    ensures i < j && q in worlds[j].forwards && worlds[j].forwards[q].Awaiting? && var f := worlds[j].forwards[q];
            && f.connection in worlds[j].sessions && f.channel in worlds[j].sessions[f.connection].sent
            && Decided(worlds[i], steps[i], f.connection, f.channel, worlds[j].sessions[f.connection].sent[f.channel])
            && (steps[i].Deliver? ==> steps[i].key.sequence == q && steps[i].key.bindingID == f.ref.id)
            && forall n: nat | n < |steps| && n != i :: !DecidesAt(worlds, steps, n, f.connection, f.channel)
  {
    ReceivesItsOwn(cfg, worlds, steps, j, q);
    hide WorldNext;
    var f := worlds[j].forwards[q];
    i := DecidedBefore(cfg, worlds, steps, j, f.connection, f.channel);
    hide X.ResultOf;
    assert DecidesAt(worlds, steps, i, f.connection, f.channel);
    hide DecidesAt;
    forall n: nat | n < |steps| && n != i ensures !DecidesAt(worlds, steps, n, f.connection, f.channel) {
      if n < i && DecidesAt(worlds, steps, n, f.connection, f.channel) {
        DecidedOnce(cfg, worlds, steps, n, i, f.connection, f.channel);
      } else if i < n {
        DecidedOnce(cfg, worlds, steps, i, n, f.connection, f.channel);
      }
    }
  }
}
