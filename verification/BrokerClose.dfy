/** Closing the broker: its two critical sections, whatever interleaves with them, and exactly which permits
    are left behind. */
module BrokerClose {
  import opened BrokerCore
  import opened BrokerInvariant
  import opened BrokerRuns
  import opened BrokerSnapshot
  import opened Options

  /** Closed, with the capabilities gone. */
  predicate ShutDown(s: Core) { s.closed && s.sessions == map[] && s.nonces == map[] }

  predicate SameSessions(s: Core, s': Core) {
    s'.sessions == s.sessions && s'.nonces == s.nonces && s'.closed == s.closed
  }

  lemma ReplaceKeepsSessions(s: Core, id: Name, clearings: nat)
    ensures forall b :: SameSessions(s, Replace(s, id, b, clearings))
  {
    hide PermitsWithout, RequestsWithout, Bumped;
  }

  lemma LeaseKeepsSessions(cfg: Config, s: Core, e: Event)
    requires AboutLease(e)
    ensures SameSessions(s, Apply(cfg, s, e))
  {
    hide Replace, Renewed, Terminate, EnterGrace, GraceOver, CanFail, Install, Issue, Consume;
    match e
    case DoRenew(r, generation, answer) =>
    case DoFail(r, now) => ReplaceKeepsSessions(s, r.id, 1); ReplaceKeepsSessions(s, r.id, 2);
    case DoExpire(r) => ReplaceKeepsSessions(s, r.id, 1);
    case DoRevoke(id, generation) => ReplaceKeepsSessions(s, id, 1);
  }

  lemma ConsumeKeepsSessions(s: Core, c: Submission)
    ensures SameSessions(s, Consume(s, c).0)
  {
    var s', reply := Consume(s, c).0, Consume(s, c).1;
    if reply.Ok? {
      assert s' == s.(permits := s'.permits, active := s'.active, consumed := s'.consumed);
    } else {
      assert s' == s || s' == Drop(s, c.sequence);
    }
    hide Consume;
  }

  lemma WorkKeepsSessions(cfg: Config, s: Core, e: Event)
    requires !AboutLease(e) && !AboutSession(e) && !e.Crash?
    ensures SameSessions(s, Apply(cfg, s, e))
  {
    hide Issue, Consume, PermitsWithout, RequestsWithout, Bumped, LivePermits, LiveRequests, Installed, NewEpochs,
      Bumps, Listed;
    match e
    case DoIssue(nonce, tool, env) => IssueKeepsSessions(cfg, s, nonce, tool, env);
    case DoConsume(c) => ConsumeKeepsSessions(s, c);
    case _ =>
  }

  lemma SessionShutDown(cfg: Config, s: Core, e: Event)
    requires AboutSession(e)
    ensures s.closed ==> Apply(cfg, s, e).closed
    ensures ShutDown(s) ==> ShutDown(Apply(cfg, s, e))
    ensures s.closed && e.CloseClear? ==> ShutDown(Apply(cfg, s, e))
  {
    hide PermitsWithout, RequestsWithout, Bumped, OfSession, Once, Issue, Consume, Install, Replace;
  }

  lemma ShutDownStep(cfg: Config, s: Core, e: Event, s': Core)
    requires Next(cfg, s, e, s') && !e.Crash?
    ensures s.closed ==> s'.closed
    ensures ShutDown(s) ==> ShutDown(s') && !Issues(cfg, s, e)
    ensures s.closed && e.CloseClear? ==> ShutDown(s')
  {
    hide Apply, Issue;
    if AboutLease(e) {
      LeaseKeepsSessions(cfg, s, e);
    } else if AboutSession(e) {
      SessionShutDown(cfg, s, e);
    } else {
      WorkKeepsSessions(cfg, s, e);
      if e.DoIssue? { IssueKeepsSessions(cfg, s, e.nonce, e.tool, e.env); }
    }
  }

  lemma IssueKeepsSessions(cfg: Config, s: Core, nonce: Name, tool: Name, env: IssueEnv)
    ensures var (s', reply) := Issue(cfg, s, nonce, tool, env);
            && s'.sessions == s.sessions && s'.nonces == s.nonces && s'.closed == s.closed
            && (nonce !in s.nonces ==> reply.Err?)
  {
    hide LivePermits, LiveRequests, NextSequence, PermitExpiry, OfSession, OfBinding;
  }

  /** Whatever interleaves with the two critical sections of closing: after the second one no permit is
      ever issued again and no session comes back, as long as the process lives. */
  lemma {:induction false} NothingIssuedAfterClose(cfg: Config, states: seq<Core>, events: seq<Event>, c: nat, j: nat)
    requires Run(cfg, states, events) && c < j < |states| && states[c].closed && events[c] == CloseClear
    requires forall k | c < k < j :: !events[k].Crash?
    ensures ShutDown(states[j])
    ensures j < |events| && !events[j].Crash? ==> !Issues(cfg, states[j], events[j])
    decreases j - c
  {
    hide Next, Issue;
    if j == c + 1 {
      ShutDownStep(cfg, states[c], events[c], states[j]);
    } else {
      NothingIssuedAfterClose(cfg, states, events, c, j - 1);
      ShutDownStep(cfg, states[j - 1], events[j - 1], states[j]);
    }
    if j < |events| && !events[j].Crash? {
      ShutDownStep(cfg, states[j], events[j], states[j + 1]);
    }
  }

  lemma ReloadEmpties(cfg: Config, s: Core, s': Core)
    requires Inv(cfg, s) && Next(cfg, s, Reload, s')
    ensures s'.permits == map[]
  {
    forall q | q in s.permits ensures s.permits[q].bindingID in s.bindings {
      HeldUnderAuthority(cfg, s, q);
    }
  }

  /** What closing can leave: a permit that is there after both critical sections was issued between them.
      So closing leaves none if nothing is issued between the two. */
  lemma PermitsLeftByClose(cfg: Config, states: seq<Core>, events: seq<Event>, b: nat, c: nat, j: nat, q: nat)
    returns (i: nat)
    requires Run(cfg, states, events) && b < c < j < |states|
    requires events[b] == Reload && states[c].closed && events[c] == CloseClear
    requires forall k | c < k < j :: !events[k].Crash?
    requires q in states[j].permits
    ensures b < i < c && Issues(cfg, states[i], events[i])
    ensures IssuedPermit(cfg, states[i], events[i]) == states[j].permits[q]
  {
    hide Next, Inv, Issue;
    i := PermitOrigin(cfg, states, events, j, q);
    if i < b {
      RunInv(cfg, states, events, b);
      ReloadEmpties(cfg, states[b], states[b + 1]);
    } else if i > c {
      NothingIssuedAfterClose(cfg, states, events, c, i);
    }
  }

  // ---------------------------------------------------------------- exactly what is left

  /** The step takes this permit out of the registry, whichever way: it is spent or found expired, its
      request is released, or its binding's materials are cleared. */
  predicate Takes(s: Core, e: Event, q: nat) {
    q in s.permits && var p := s.permits[q];
    match e
    case DoIssue(_, _, env) => p.expiresAt <= env.now
    case Prune(now) => p.expiresAt <= now
    case Release(k) => k == q
    case DoConsume(c) => Names(p, c)
    case Crash(_) => true
    case _ => ClearsBinding(s, e, p.bindingID)
  }

  /** A registered permit: its own number, drawn before, under a live binding. */
  lemma HeldPermit(cfg: Config, s: Core, q: nat)
    requires Inv(cfg, s) && q in s.permits
    ensures s.permits[q].sequence == q <= s.sequence
    ensures Authority(s.bindings, s.permits[q].bindingID, s.permits[q].generation)
  {
    HeldUnderAuthority(cfg, s, q);
    assert RequestOk(q, s.active[q], s.bindings, s.sequence);
  }

  /** A clearing section takes exactly the permits of the bindings it clears. */
  lemma ClearTakes(cfg: Config, s: Core, e: Event, s': Core, q: nat)
    requires Inv(cfg, s) && Next(cfg, s, e, s') && (AboutLease(e) || AboutSession(e) || e.Snapshot?)
    requires q in s.permits && s.permits[q].bindingID in s.bindings
    ensures q in s'.permits <==> !Takes(s, e, q)
  {
    hide Inv, Apply, ClearsBinding, Names;
    ClearsExactly(cfg, s, e, s', s.permits[q].bindingID);
    OthersOnlyDrop(cfg, s, e);
  }

  lemma GrantTakes(s: Core, m: Metadata, env: IssueEnv, q: nat)
    requires q <= s.sequence
    ensures q in Grant(s, m, env).0.permits <==> q in s.permits
  {
    hide PermitExpiry;
  }

  lemma IssueTakes(cfg: Config, s: Core, nonce: Name, tool: Name, env: IssueEnv, q: nat)
    requires q in s.permits && q <= s.sequence
    ensures q in Issue(cfg, s, nonce, tool, env).0.permits <==> env.now < s.permits[q].expiresAt
  {
    hide Admit, LiveRequests, Grant;
    var pruned := PruneExpired(s, env.now);
    if Admit(cfg, pruned, nonce, tool).Ok? {
      GrantTakes(pruned, Admit(cfg, pruned, nonce, tool).value, env, q);
    }
  }

  /** The submission names the permit under its own identity, with a payload in bounds. */
  predicate Names(p: Permit, c: Submission) {
    && c.bindingID == p.bindingID && c.generation == p.generation && c.requestID == p.requestID
    && c.sequence == p.sequence && 0 <= c.payloadBytes <= MAX_PAYLOAD_BYTES
  }

  lemma ConsumeTakes(s: Core, c: Submission, q: nat)
    requires q in s.permits && s.permits[q].sequence == q
    ensures q in Consume(s, c).0.permits <==> !Names(s.permits[q], c)
  {
    if c.sequence == q {
      if Names(s.permits[q], c) {
        assert Consume(s, c).0.permits == s.permits - {q};
      } else {
        assert Consume(s, c).0 == s;
      }
    } else {
      assert Consume(s, c).0.permits in {s.permits, s.permits - {c.sequence}};
    }
    hide Consume;
  }

  lemma RequestTakes(cfg: Config, s: Core, e: Event, q: nat)
    requires !AboutLease(e) && !AboutSession(e) && !e.Snapshot?
    requires q in s.permits && s.permits[q].sequence == q <= s.sequence
    ensures q in Apply(cfg, s, e).permits <==> !Takes(s, e, q)
  {
    hide Issue, Consume, LiveRequests, Names, Install, Listed;
    match e
    case DoIssue(nonce, tool, env) => IssueTakes(cfg, s, nonce, tool, env, q);
    case DoConsume(c) => ConsumeTakes(s, c, q);
    case _ =>
  }

  /** A permit is still there after a step if and only if the step does not take it. */
  lemma TakesExactly(cfg: Config, s: Core, e: Event, s': Core, q: nat)
    requires Inv(cfg, s) && Next(cfg, s, e, s') && q in s.permits
    ensures q in s'.permits <==> !Takes(s, e, q)
  {
    HeldPermit(cfg, s, q);
    hide Inv, Apply, Takes, ClearsBinding;
    if AboutLease(e) || AboutSession(e) || e.Snapshot? {
      ClearTakes(cfg, s, e, s', q);
    } else {
      RequestTakes(cfg, s, e, q);
    }
  }

  /** Step `i` issues the permit with this number. */
  ghost predicate IssuedAt(cfg: Config, states: seq<Core>, events: seq<Event>, i: nat, q: nat)
    requires |states| == |events| + 1
  {
    i < |events| && Issues(cfg, states[i], events[i]) && IssuedPermit(cfg, states[i], events[i]).sequence == q
  }

  /** No step from `i` on and before `j` takes the permit. */
  ghost predicate Untaken(states: seq<Core>, events: seq<Event>, i: nat, j: nat, q: nat)
    requires |states| == |events| + 1 && j <= |events|
  {
    forall k | i <= k < j :: !Takes(states[k], events[k], q)
  }

  lemma IssueRegisters(cfg: Config, s: Core, e: Event, s': Core)
    requires Next(cfg, s, e, s') && Issues(cfg, s, e)
    ensures IssuedPermit(cfg, s, e).sequence in s'.permits
  {
    hide Admit, PruneExpired, PermitExpiry;
  }

  /** A permit that no step takes stays. */
  lemma {:induction false} UntakenStays(cfg: Config, states: seq<Core>, events: seq<Event>, i: nat, j: nat, q: nat)
    requires Run(cfg, states, events) && i <= j < |states| && q in states[i].permits && Untaken(states, events, i, j, q)
    ensures q in states[j].permits
    decreases j - i
  {
    hide Next, Inv, Takes;
    if i < j {
      UntakenStays(cfg, states, events, i, j - 1, q);
      RunInv(cfg, states, events, j - 1);
      TakesExactly(cfg, states[j - 1], events[j - 1], states[j], q);
    }
  }

  /** A permit is registered if and only if it was issued and no step since has taken it. */
  lemma HeldExactly(cfg: Config, states: seq<Core>, events: seq<Event>, j: nat, q: nat)
    requires Run(cfg, states, events) && j < |states|
    ensures q in states[j].permits <==>
      exists i :: 0 <= i < j && IssuedAt(cfg, states, events, i, q) && Untaken(states, events, i + 1, j, q)
  {
    hide Next, Inv, Takes, Issue;
    if q in states[j].permits {
      var i := HeldSince(cfg, states, events, j, q);
    }
    if i :| 0 <= i < j && IssuedAt(cfg, states, events, i, q) && Untaken(states, events, i + 1, j, q) {
      IssueRegisters(cfg, states[i], events[i], states[i + 1]);
      UntakenStays(cfg, states, events, i + 1, j, q);
    }
  }

  /** Where a registered permit comes from. */
  lemma HeldSince(cfg: Config, states: seq<Core>, events: seq<Event>, j: nat, q: nat) returns (i: nat)
    requires Run(cfg, states, events) && j < |states| && q in states[j].permits
    ensures i < j && IssuedAt(cfg, states, events, i, q) && Untaken(states, events, i + 1, j, q)
  {
    hide Next, Inv, Takes, Issue;
    i := PermitOrigin(cfg, states, events, j, q);
    RunInv(cfg, states, events, j);
    HeldPermit(cfg, states[j], q);
    forall k | i < k < j ensures !Takes(states[k], events[k], q) {
      RunInv(cfg, states, events, k);
      TakesExactly(cfg, states[k], events[k], states[k + 1], q);
    }
  }

  /** What closing leaves, exactly. A permit is there after both critical sections if and only if it was
      issued between them and no step since has taken it. */
  lemma LeftByCloseExactly(cfg: Config, states: seq<Core>, events: seq<Event>, b: nat, c: nat, j: nat, q: nat)
    requires Run(cfg, states, events) && b < c < j < |states|
    requires events[b] == Reload && states[c].closed && events[c] == CloseClear
    requires forall k | c < k < j :: !events[k].Crash?
    ensures q in states[j].permits <==>
      exists i :: b < i < c && IssuedAt(cfg, states, events, i, q) && Untaken(states, events, i + 1, j, q)
  {
    hide Next, Inv, Takes, Issue;
    HeldExactly(cfg, states, events, j, q);
    if q in states[j].permits {
      var i := HeldSince(cfg, states, events, j, q);
      var i' := PermitsLeftByClose(cfg, states, events, b, c, j, q);
      RunInv(cfg, states, events, j);
      HeldPermit(cfg, states[j], q);
      if i < i' {
        IssuedIncreasing(cfg, states, events, i, i');
      } else if i' < i {
        IssuedIncreasing(cfg, states, events, i', i);
      }
    }
  }
}
