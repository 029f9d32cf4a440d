/** What the broker answers and when: the permit it hands out, the reason it refuses one, and what a submission
    and a look at the turn are told. */
module BrokerReplies {
  import opened BrokerCore
  import opened BrokerInvariant
  import opened BrokerRuns
  import opened Options

  // ---------------------------------------------------------------- pruning

  /** Pruning drops the requests that were not submitted in time, with their permits, and no others. */
  lemma PruneExactly(cfg: Config, s: Core, now: int, q: nat)
    requires Inv(cfg, s)
    ensures var s' := PruneExpired(s, now);
            && (q in s'.active <==> q in s.active && (s.active[q].submitted || now < s.active[q].expiresAt))
            && (q in s'.permits <==> q in s'.active && !s'.active[q].submitted)
            && (q in s'.active ==> s'.active[q] == s.active[q])
  {
    hide RequestsOk, BindingsOk, SessionsOk, RegisteredOk, ParallelOk, ReplayOk;
  }

  // ---------------------------------------------------------------- the permit handed out

  /** The earliest of the permit lifetime and the recorded bounds. */
  predicate Earlier(t: int, m: Metadata, now: int) {
    && t <= now + PERMIT_LIFETIME
    && (m.leaseUntil.At? ==> t <= m.leaseUntil.time)
    && (m.absoluteTTL.At? ==> t <= m.absoluteTTL.time)
    && (t == now + PERMIT_LIFETIME || m.leaseUntil == At(t) || m.absoluteTTL == At(t))
  }

  lemma ExpiryIsEarliest(m: Metadata, now: int)
    ensures PermitExpiry(m, now).None? <==> m.leaseUntil == Malformed || m.absoluteTTL == Malformed
    ensures PermitExpiry(m, now).Some? ==> Earlier(PermitExpiry(m, now).value, m, now)
  {
  }

  /** The request registered for a permit. */
  function RequestFor(p: Permit): ActiveRequest {
    ActiveRequest(p.bindingID, p.generation, p.requestID, p.sequence, p.expiresAt, false, false)
  }

  lemma GrantedExactly(s: Core, m: Metadata, env: IssueEnv)
    requires Grant(s, m, env).1.Ok?
    ensures var p, s' := Grant(s, m, env).1.value, Grant(s, m, env).0;
            && p == Permit(m.bindingID, m.generation, env.requestID, s.sequence + 1, p.expiresAt)
            && Earlier(p.expiresAt, m, env.now) && s'.sequence == s'.disk == p.sequence
            && s' == s.(sequence := s'.sequence, disk := s'.disk, permits := s.permits[p.sequence := p],
                        active := s.active[p.sequence := RequestFor(p)])
  {
    ExpiryIsEarliest(m, env.now);
    hide PermitExpiry, Earlier;
  }

  /** A permit is for the session's one binding in its present generation, carries the next number, which is
      on disk, and expires at the earliest bound; it and its request are all that is added. */
  lemma IssuedExactly(cfg: Config, s: Core, nonce: Name, tool: Name, env: IssueEnv)
    requires Inv(cfg, s) && Issue(cfg, s, nonce, tool, env).1.Ok?
    ensures var p, s' := Issue(cfg, s, nonce, tool, env).1.value, Issue(cfg, s, nonce, tool, env).0;
            && OfSession(s.bindings, tool) == {p.bindingID} && p.bindingID in s.bindings
            && var m := s.bindings[p.bindingID].metadata;
            && p == Permit(m.bindingID, m.generation, env.requestID, s.sequence + 1, p.expiresAt)
            && Earlier(p.expiresAt, m, env.now) && s'.sequence == s'.disk == p.sequence
            && var pruned := PruneExpired(s, env.now);
            && s' == s.(sequence := s'.sequence, disk := s'.disk, permits := pruned.permits[p.sequence := p],
                        active := pruned.active[p.sequence := RequestFor(p)])
  {
    SoleIsAttached(s.bindings, tool);
    var ids := OfSession(s.bindings, tool);
    if |ids| == 1 {
      var id := Sole(ids);
      assert BindingOk(id, s.bindings[id], s.epochs, s.snapshots);
      hide Grant, Earlier, LivePermits, LiveRequests, OfSession, Inv;
      GrantedExactly(PruneExpired(s, env.now), s.bindings[id].metadata, env);
    }
  }

  // ---------------------------------------------------------------- why a permit is refused

  /** The session's capability with one attached binding. */
  ghost predicate Reachable(s: Core, nonce: Name, tool: Name, id: Name) {
    tool in s.sessions && s.sessions[tool] == nonce && OfSession(s.bindings, tool) == {id} && id in s.bindings
  }

  ghost predicate Full(cfg: Config, s: Core, id: Name, now: int)
    requires id in s.bindings
  {
    var held := |OfBinding(PruneExpired(s, now).active, id)|;
    held >= cfg.maxParallel || held >= s.bindings[id].metadata.maxParallel
  }

  /** What stands in the way of a permit, in the order in which it is looked at. */
  ghost predicate Refuses(cfg: Config, s: Core, nonce: Name, tool: Name, env: IssueEnv, error: Error) {
    if !exists id :: Reachable(s, nonce, tool, id) then error == ErrUnavailable
    else
      var id :| Reachable(s, nonce, tool, id);
      var m := s.bindings[id].metadata;
      if !Authority(s.bindings, id, m.generation) then error == ErrLeaseRenewalRequired
      else if Full(cfg, s, id, env.now) then error == ErrConcurrency
      else if s.sequence == MAX_UINT64 then error == ErrProtocol
      else if env.persistFails then error == ErrPersist
      else if env.randomFails then error == ErrRandom
      else if m.leaseUntil == Malformed || m.absoluteTTL == Malformed then error == ErrProtocol
      else !TimeLeft(m, env.now) && error == ErrLeaseExpired
  }

  lemma OneReachable(s: Core, nonce: Name, tool: Name, a: Name, b: Name)
    requires Reachable(s, nonce, tool, a) && Reachable(s, nonce, tool, b)
    ensures a == b
  {
    assert a in OfSession(s.bindings, tool) && b in OfSession(s.bindings, tool);
  }

  lemma AdmitRefuses(cfg: Config, s: Core, nonce: Name, tool: Name, env: IssueEnv)
    requires Inv(cfg, s) && Admit(cfg, PruneExpired(s, env.now), nonce, tool).Err?
    ensures Refuses(cfg, s, nonce, tool, env, Admit(cfg, PruneExpired(s, env.now), nonce, tool).error)
  {
    SoleIsAttached(s.bindings, tool);
    var ids := OfSession(s.bindings, tool);
    if exists id :: Reachable(s, nonce, tool, id) {
      var id :| Reachable(s, nonce, tool, id);
      assert BindingOk(id, s.bindings[id], s.epochs, s.snapshots);
      assert Sole(ids) == id by { assert Sole(ids) in ids; }
      forall other | Reachable(s, nonce, tool, other) ensures other == id { OneReachable(s, nonce, tool, other, id); }
      hide Inv, LivePermits, LiveRequests, OfSession, OfBinding, TimeLeft;
    } else {
      if |ids| == 1 { assert !Reachable(s, nonce, tool, Sole(ids)); }
      hide LivePermits, LiveRequests, OfSession, OfBinding;
    }
  }

  lemma GrantRefuses(cfg: Config, s: Core, m: Metadata, env: IssueEnv)
    requires Inv(cfg, s) && Grant(s, m, env).1.Err?
    ensures var error := Grant(s, m, env).1.error;
            if s.sequence == MAX_UINT64 then error == ErrProtocol
            else if env.persistFails then error == ErrPersist
            else if env.randomFails then error == ErrRandom
            else if m.leaseUntil == Malformed || m.absoluteTTL == Malformed then error == ErrProtocol
            else !TimeLeft(m, env.now) && error == ErrLeaseExpired
    ensures var s' := Grant(s, m, env).0;
            && s' == s.(sequence := s'.sequence, disk := s'.disk)
            && s'.sequence == s'.disk == s.sequence + if Grant(s, m, env).1.error == ErrPersist
                 || s.sequence == MAX_UINT64 then 0 else 1
  {
    assert s.disk == s.sequence <= MAX_UINT64;
    hide Inv;
    ExpiryIsEarliest(m, env.now);
    ExpiryExactly(m, env.now);
    hide PermitExpiry, Earlier, TimeLeft;
  }

  /** Every refusal has the reason that comes first, and registers nothing. */
  lemma IssueRefuses(cfg: Config, s: Core, nonce: Name, tool: Name, env: IssueEnv)
    requires Inv(cfg, s) && Issue(cfg, s, nonce, tool, env).1.Err?
    ensures Refuses(cfg, s, nonce, tool, env, Issue(cfg, s, nonce, tool, env).1.error)
    ensures var s', pruned := Issue(cfg, s, nonce, tool, env).0, PruneExpired(s, env.now);
            s' == pruned.(sequence := s'.sequence, disk := s'.disk) && s'.sequence == s'.disk <= s.sequence + 1
  {
    var pruned := PruneExpired(s, env.now);
    PruneKeeps(cfg, s, env.now);
    if Admit(cfg, pruned, nonce, tool).Err? {
      AdmitRefuses(cfg, s, nonce, tool, env);
      hide Admit, Refuses, Inv, PruneExpired;
    } else {
      AdmittedRefuses(cfg, s, nonce, tool, env);
      hide Refuses, Inv, PruneExpired, Grant;
      GrantRefuses(cfg, pruned, Admit(cfg, pruned, nonce, tool).value, env);
    }
  }

  lemma AdmittedRefuses(cfg: Config, s: Core, nonce: Name, tool: Name, env: IssueEnv)
    requires Inv(cfg, s) && Issue(cfg, s, nonce, tool, env).1.Err?
    requires Admit(cfg, PruneExpired(s, env.now), nonce, tool).Ok?
    ensures Refuses(cfg, s, nonce, tool, env, Issue(cfg, s, nonce, tool, env).1.error)
  {
    SoleIsAttached(s.bindings, tool);
    var ids := OfSession(s.bindings, tool);
    PruneKeeps(cfg, s, env.now);
    var id := Sole(ids);
    assert BindingOk(id, s.bindings[id], s.epochs, s.snapshots);
    assert Reachable(s, nonce, tool, id);
    forall other | Reachable(s, nonce, tool, other) ensures other == id { OneReachable(s, nonce, tool, other, id); }
    hide Grant, Inv, LivePermits, LiveRequests, OfSession, OfBinding, TimeLeft, Reachable;
    GrantRefuses(cfg, PruneExpired(s, env.now), s.bindings[id].metadata, env);
  }

  // ---------------------------------------------------------------- what a submission is told

  /** The submission names the request of this permit. */
  predicate Matches(p: Permit, c: Submission) {
    p.bindingID == c.bindingID && p.generation == c.generation && p.requestID == c.requestID
  }

  /** What a submission is told and what becomes of its number: a number without a permit is a replay if the
      cache still has it; a mismatch or an oversized payload leaves the permit; an expired permit is dropped
      with its request; an accepted one is spent at the time of the submission. */
  lemma SubmissionExactly(cfg: Config, s: Core, c: Submission)
    requires Inv(cfg, s)
    ensures var (s', reply) := Consume(s, c);
            var q := c.sequence;
            if q !in s.permits then reply == Err(if q in s.consumed then ErrReplay else ErrRevoked) && s' == s
            else if !Matches(s.permits[q], c) || !(0 <= c.payloadBytes <= MAX_PAYLOAD_BYTES)
              then reply == Err(ErrProtocol) && s' == s
            else if s.permits[q].expiresAt <= c.now
              then reply == Err(ErrLeaseExpired) && s' == s.(permits := s.permits - {q}, active := s.active - {q})
            else
              && reply == Ok(s.permits[q]) && q in s.active
              && s' == s.(permits := s.permits - {q}, consumed := s.consumed[q := c.now],
                          active := s.active[q := s.active[q].(submitted := true)])
  {
    if c.sequence in s.permits {
      assert RequestOk(c.sequence, s.active[c.sequence], s.bindings, s.sequence);
    }
  }

  // ---------------------------------------------------------------- replays

  /** Pruning keeps an entry inside the window when the cap does not force it out. */
  lemma KeptInWindow(before: map<nat, int>, after: map<nat, int>, now: int, q: nat)
    requires PrunedFrom(before, after, now) && q in before && now < before[q] + REPLAY_WINDOW
    requires |InWindow(before, now)| <= MAX_REPLAY_ENTRIES
    ensures q in after && after[q] == before[q]
  {
    var window := InWindow(before, now);
    assert q in window && |after.Keys| == |after|;
    if q !in after {
      SubsetSize(after.Keys, window - {q});
    }
  }

  /** What pruning the replay cache leaves, number by number: only entries younger than ten minutes, as they
      were, and no more than 4096 of them; a younger entry goes only when that many younger ones stay. */
  lemma PrunedExactly(before: map<nat, int>, after: map<nat, int>, now: int, q: nat)
    requires PrunedFrom(before, after, now)
    ensures q in after ==> q in before && after[q] == before[q] && now - before[q] < 600 * SECOND
    ensures |after| <= 4096
    ensures q in before && q !in after && now - before[q] < 600 * SECOND ==>
      |after| == 4096 && forall k | k in after :: before[q] <= after[k]
  {
    if q in before && q !in after && now - before[q] < 600 * SECOND && |InWindow(before, now)| <= MAX_REPLAY_ENTRIES {
      KeptInWindow(before, after, now, q);
    }
  }

  /** A spent number answers ErrReplay as long as the window and the cap keep it. */
  lemma SpentReplays(cfg: Config, s: Core, kept: map<nat, int>, c: Submission)
    requires Inv(cfg, s) && PrunedFrom(s.consumed, kept, c.now) && c.sequence in s.consumed
    requires c.now < s.consumed[c.sequence] + REPLAY_WINDOW && |InWindow(s.consumed, c.now)| <= MAX_REPLAY_ENTRIES
    ensures Consume(s.(consumed := kept), c) == (s.(consumed := kept), Err(ErrReplay))
  {
    KeptInWindow(s.consumed, kept, c.now, c.sequence);
    hide PrunedFrom;
  }

  /** Step `i` accepts the submission of this number. */
  ghost predicate AcceptedAt(states: seq<Core>, events: seq<Event>, i: nat, q: nat)
    requires |states| == |events| + 1
  {
    i < |events| && Accepts(states[i], events[i]) && events[i].submission.sequence == q
  }

  lemma LeaseKeepsCache(cfg: Config, s: Core, e: Event)
    requires AboutLease(e)
    ensures Apply(cfg, s, e).consumed == s.consumed
  {
    forall id, b, clearings ensures Replace(s, id, b, clearings).consumed == s.consumed {
      ReplaceKeepsCache(s, id, b, clearings);
    }
    hide Replace, Terminate, EnterGrace, Renewed, CanFail, GraceOver, Attached, Listed, Issue, Consume, Install;
  }

  lemma ReplaceKeepsCache(s: Core, id: Name, b: BindingState, clearings: nat)
    ensures Replace(s, id, b, clearings).consumed == s.consumed
  {
    hide PermitsWithout, RequestsWithout, Bumped;
  }

  lemma SessionKeepsCache(cfg: Config, s: Core, e: Event)
    requires AboutSession(e) || e.Snapshot?
    ensures Apply(cfg, s, e).consumed == s.consumed
  {
    hide PermitsWithout, RequestsWithout, Bumped, Listed, Bumps, Installed, NewEpochs, Issue, Consume, OfSession, Once;
  }

  lemma RequestKeepsCache(cfg: Config, s: Core, e: Event)
    requires e.DoIssue? || e.Release? || e.Prune? || e.DoMarkSent?
    ensures Apply(cfg, s, e).consumed == s.consumed
  {
    hide LivePermits, LiveRequests, Admit, PermitExpiry, Consume, Install, Listed;
  }

  lemma OnlyConsumeAccepts(s: Core, e: Event)
    ensures Accepts(s, e) ==> e.DoConsume?
  {
  }

  lemma SpendingCache(cfg: Config, s: Core, e: Event, q: nat)
    requires (e.DoConsume? || e.Crash?) && q in Apply(cfg, s, e).consumed
    ensures if Accepts(s, e) && e.submission.sequence == q then Apply(cfg, s, e).consumed[q] == e.submission.now
            else q in s.consumed && Apply(cfg, s, e).consumed[q] == s.consumed[q]
  {
    if e.DoConsume? { ConsumeCache(s, e.submission, q); }
    hide Consume, Issue, Install, Listed;
  }

  lemma ConsumeCache(s: Core, c: Submission, q: nat)
    requires q in Consume(s, c).0.consumed
    ensures if Consume(s, c).1.Ok? && c.sequence == q then Consume(s, c).0.consumed[q] == c.now
            else q in s.consumed && Consume(s, c).0.consumed[q] == s.consumed[q]
  {
  }

  /** The cache only gains the number that is accepted, with the time of its submission. */
  lemma CacheStep(cfg: Config, s: Core, e: Event, s': Core, q: nat)
    requires Next(cfg, s, e, s') && q in s'.consumed
    ensures if Accepts(s, e) && e.DoConsume? && e.submission.sequence == q then s'.consumed[q] == e.submission.now
            else q in s.consumed && s'.consumed[q] == s.consumed[q]
  {
    hide Apply, Accepts;
    OnlyConsumeAccepts(s, e);
    if e.DoConsume? || e.Crash? {
      SpendingCache(cfg, s, e, q);
    } else {
      if AboutLease(e) { LeaseKeepsCache(cfg, s, e); }
      else if AboutSession(e) || e.Snapshot? { SessionKeepsCache(cfg, s, e); }
      else { RequestKeepsCache(cfg, s, e); }
    }
  }

  /** In every run, a number the replay cache holds was accepted, at the time the cache has for it; so
      ErrReplay is only ever said of a spent number. */
  lemma {:induction false} ReplayOrigin(cfg: Config, states: seq<Core>, events: seq<Event>, j: nat, q: nat)
    returns (i: nat)
    requires Run(cfg, states, events) && j < |states| && q in states[j].consumed
    ensures i < j && AcceptedAt(states, events, i, q) && states[j].consumed[q] == events[i].submission.now
  {
    hide Next, Consume;
    assert j > 0;
    CacheStep(cfg, states[j - 1], events[j - 1], states[j], q);
    if Accepts(states[j - 1], events[j - 1]) && events[j - 1].submission.sequence == q {
      i := j - 1;
    } else {
      i := ReplayOrigin(cfg, states, events, j - 1, q);
    }
  }

  // ---------------------------------------------------------------- peers of a session

  /** A peer is recorded exactly for the session's own capability, and never a second one. */
  lemma AuthorizesExactly(cfg: Config, s: Core, tool: Name, nonce: Name, uid: nat)
    requires Inv(cfg, s)
    ensures Authorize(s, tool, nonce, uid) ==
      if tool in s.sessions && s.sessions[tool] == nonce && tool !in s.peerUIDs
      then s.(peerUIDs := s.peerUIDs[tool := uid]) else s
  {
    hide BindingsOk, PermitsOk, RequestsOk, ParallelOk, ReplayOk, RegisteredOk;
  }

  // ---------------------------------------------------------------- what a look at the turn says

  /** A lower registered request of the binding is unsent. */
  ghost predicate InTheWay(s: Core, id: Name, q: nat, other: nat) {
    other in s.active && s.active[other].bindingID == id && other < q && !s.active[other].sent
  }

  /** What a look at the turn says, for every request. One that was registered at an earlier look and is gone
      is refused; one that was never registered is let through. */
  lemma TurnExactly(s: Core, id: Name, q: nat, tracked: bool)
    ensures var own := q in s.active && s.active[q].bindingID == id && s.active[q].submitted;
            var blocked := exists other :: InTheWay(s, id, q, other);
            match TakeTurn(s, id, q, tracked)
            case TurnRefused => if q in s.active then !own else tracked
            case Blocked => own && blocked
            case Passed => if q in s.active then own && !blocked else !tracked
  {
    if TakeTurn(s, id, q, tracked) == Blocked {
      var other :| other in s.active && s.active[other].bindingID == id && other < q && !s.active[other].sent;
      assert InTheWay(s, id, q, other);
    }
  }

  /** Marking sets the mark of a submitted request of the binding, and changes nothing else. */
  lemma MarkExactly(s: Core, id: Name, q: nat)
    ensures var s' := MarkSent(s, id, q);
            if q in s.active && s.active[q].bindingID == id && s.active[q].submitted
            then q in s'.active && s'.active[q].sent && s' == s.(active := s.active[q := s.active[q].(sent := true)])
            else s' == s
  {
  }
}
