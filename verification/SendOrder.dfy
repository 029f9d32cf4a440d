/** The order in which forwarding threads send: they take their turn under the broker mutex, and write to the
    relay and mark the request sent outside and after it. */
module SendOrder {
  import opened BrokerCore
  import opened BrokerInvariant
  import opened BrokerRuns
  import opened Options
  import opened RelayFence
  import opened RelayWorld
  import X = RelayExchange

  // ---------------------------------------------------------------- invariant

  /** An accepted number is spent, and while it is registered it is a submitted request of its binding. */
  ghost predicate AcceptedOk(s: Core, accepted: map<nat, Name>) {
    forall q | q in accepted ::
      Spent(s, q) && (q in s.active ==> s.active[q].bindingID == accepted[q] && s.active[q].submitted)
  }

  predicate PastTurn(f: Forward) { 3 <= Rank(f) < 12 }

  /** While the request is registered, every lower registered request of the binding is sent. */
  predicate Ahead(s: Core, id: Name, q: nat) { q in s.active ==> TurnFree(s, id, q) }

  /** A sleeping thread sleeps on a channel that was opened no later than now; if it is still open, the
      thread is still blocked. */
  predicate SleepsRightly(s: Core, changes: nat, q: nat, f: Forward) {
    f.Captured? && f.waiting.Some? ==>
      f.waiting.value <= changes && (f.waiting.value == changes ==> TakeTurn(s, f.ref.id, q, true) == Blocked)
  }

  /** A thread forwards an accepted request at an object of its binding; past its turn it stays ahead. */
  predicate ThreadOk(s: Core, changes: nat, accepted: map<nat, Name>, q: nat, f: Forward) {
    && q in accepted && (!f.Finished? ==> f.ref.id == accepted[q])
    && (PastTurn(f) ==> Ahead(s, f.ref.id, q))
    && SleepsRightly(s, changes, q, f)
  }

  ghost predicate ThreadsOk(s: Core, changes: nat, accepted: map<nat, Name>, forwards: map<nat, Forward>) {
    forall q | q in forwards :: ThreadOk(s, changes, accepted, q, forwards[q])
  }

  predicate HasMarked(forwards: map<nat, Forward>, q: nat) { q in forwards && Rank(forwards[q]) >= 11 }

  /** Only requests whose thread has passed its mark are marked sent. */
  ghost predicate MarksOk(s: Core, forwards: map<nat, Forward>) {
    forall q | q in s.active && s.active[q].sent :: HasMarked(forwards, q)
  }

  ghost predicate OrderInv(w: World) {
    && AcceptedOk(w.core, w.accepted)
    && ThreadsOk(w.core, w.changes, w.accepted, w.forwards)
    && MarksOk(w.core, w.forwards)
  }

  // ---------------------------------------------------------------- critical sections

  lemma AcceptedRemains(cfg: Config, s: Core, e: Event, s': Core, accepted: map<nat, Name>)
    requires Inv(cfg, s) && Next(cfg, s, e, s') && AcceptedOk(s, accepted)
    ensures AcceptedOk(s', accepted)
  {
    hide Inv, Next, Handed;
    StepTame(cfg, s, e, s');
  }

  /** The request a submission is accepted for, just after. */
  lemma AcceptedNow(cfg: Config, s: Core, e: Event, s': Core)
    requires Inv(cfg, s) && Next(cfg, s, e, s') && Accepts(s, e)
    ensures var c := e.submission;
            && c.sequence in s.permits && Spent(s', c.sequence)
            && (c.sequence in s'.active ==>
                s'.active[c.sequence].bindingID == c.bindingID && s'.active[c.sequence].submitted)
  {
    AcceptedIsSpent(cfg, s, e, s');
    ConsumedUnderAuthority(cfg, s, e.submission);
    assert s.permits[e.submission.sequence] == PermitOf(s.active[e.submission.sequence]);
    hide Inv;
  }

  lemma AcceptedGrows(cfg: Config, w: World, e: Event, s': Core)
    requires Inv(cfg, w.core) && Next(cfg, w.core, e, s') && AcceptedOk(w.core, w.accepted)
    ensures AcceptedOk(s', AcceptedAfter(w, e))
    ensures forall q | q in w.accepted :: q in AcceptedAfter(w, e) && AcceptedAfter(w, e)[q] == w.accepted[q]
  {
    hide Inv, Next, Consume, Spent;
    AcceptedRemains(cfg, w.core, e, s', w.accepted);
    if Accepts(w.core, e) {
      AcceptedNow(cfg, w.core, e, s');
      assert e.submission.sequence !in w.accepted by { SpentIsNotHeld(w.core, e.submission.sequence); }
    }
  }

  lemma SpentIsNotHeld(s: Core, q: nat)
    ensures Spent(s, q) ==> q !in s.permits
  {
  }

  lemma AheadRemains(cfg: Config, s: Core, e: Event, s': Core, id: Name, q: nat)
    requires Inv(cfg, s) && Next(cfg, s, e, s') && q <= s.sequence && Ahead(s, id, q)
    ensures Ahead(s', id, q)
  {
    hide Inv, Next, Handed;
    if q in s.active {
      ClearedStep(cfg, s, e, s', id, q);
    } else {
      StepTame(cfg, s, e, s');
    }
  }

  /** A critical section wakes a sleeping thread or leaves it blocked. */
  lemma SleepRemains(cfg: Config, s: Core, e: Event, s': Core, changes: nat, q: nat, f: Forward)
    requires Next(cfg, s, e, s') && !e.Crash? && SleepsRightly(s, changes, q, f)
    ensures SleepsRightly(s', changes + if Notifies(cfg, s, e) then 1 else 0, q, f)
  {
    hide Notifies, Next;
    if !Notifies(cfg, s, e) {
      QuietKeepsRequests(cfg, s, e, s');
    }
  }

  /** A thread that does not move stays in order through every critical section. */
  lemma ThreadRemains(cfg: Config, w: World, e: Event, w': World, q: nat)
    requires Inv(cfg, w.core) && CoreStep(cfg, w, e, w') && !e.Crash? && OrderInv(w) && q in w.forwards
    requires forall k | k in w.accepted :: k in w'.accepted && w'.accepted[k] == w.accepted[k]
    ensures ThreadOk(w'.core, w'.changes, w'.accepted, q, w.forwards[q])
  {
    hide Inv, Next, Notifies, Ahead, SleepsRightly, MarksOk;
    var f := w.forwards[q];
    assert ThreadOk(w.core, w.changes, w.accepted, q, f);
    SleepRemains(cfg, w.core, e, w'.core, w.changes, q, f);
    if PastTurn(f) {
      AheadRemains(cfg, w.core, e, w'.core, f.ref.id, q);
    }
  }

  // ---------------------------------------------------------------- threads

  /** A look at the turn: through and ahead, or asleep and blocked, or refused. */
  lemma LookKeeps(s: Core, changes: nat, accepted: map<nat, Name>, q: nat, f: Forward)
    requires f.Captured? && ThreadOk(s, changes, accepted, q, f)
    ensures ThreadOk(s, changes, accepted, q, AfterLook(s, changes, q, f))
  {
  }

  lemma MarkKeeps(s: Core, s': Core, changes: nat, accepted: map<nat, Name>, q: nat, f: Forward)
    requires f.Written? && ThreadOk(s', changes, accepted, q, f)
    ensures ThreadOk(s', changes, accepted, q, AfterMark(s, q, f))
  {
  }

  /** Moving on without a look keeps a thread in order. */
  lemma MoveKeeps(s: Core, changes: nat, accepted: map<nat, Name>, q: nat, a: Step, f: Forward, f': Forward)
    requires ThreadOk(s, changes, accepted, q, f) && MovesOn(a, f, f') && !a.Turn?
    ensures ThreadOk(s, changes, accepted, q, f')
  {
    hide Ahead, TakeTurn;
  }

  lemma OneMoreThread(s: Core, changes: nat, accepted: map<nat, Name>,
                      forwards: map<nat, Forward>, thread: Option<nat>, forwards': map<nat, Forward>)
    requires OneMoves(forwards, thread, forwards')
    requires forall q | q in forwards && thread != Some(q) :: ThreadOk(s, changes, accepted, q, forwards[q])
    requires thread.Some? ==> ThreadOk(s, changes, accepted, thread.value, forwards'[thread.value])
    ensures ThreadsOk(s, changes, accepted, forwards')
  {
    hide ThreadOk;
  }

  lemma LockedThreads(cfg: Config, w: World, a: Step, w': World)
    requires Inv(cfg, w.core) && Locks(a) && LockedNext(cfg, w, a, w') && OrderInv(w)
    ensures AcceptedOk(w'.core, w'.accepted)
    ensures ThreadsOk(w'.core, w'.changes, w'.accepted, w'.forwards)
  {
    hide Inv, Next, Notifies, LockedNext, ThreadOk, OneMoves, Accepts, MarksOk;
    LockedShape(cfg, w, a, w');
    var e := EventOf(w, a).value;
    AcceptedGrows(cfg, w, e, w'.core);
    if !a.Locked? { AcceptedRemains(cfg, w.core, e, w'.core, w.accepted); }
    forall q | q in w.forwards ensures ThreadOk(w'.core, w'.changes, w'.accepted, q, w.forwards[q]) {
      ThreadRemains(cfg, w, e, w', q);
    }
    if !a.Locked? {
      LockedThread(cfg, w, a, w');
    }
    OneMoreThread(w'.core, w'.changes, w'.accepted, w.forwards, ThreadOf(a), w'.forwards);
  }

  lemma LockedThread(cfg: Config, w: World, a: Step, w': World)
    requires (a.Turn? || a.Mark?) && LockedNext(cfg, w, a, w')
    requires forall q | q in w.forwards :: ThreadOk(w'.core, w'.changes, w'.accepted, q, w.forwards[q])
    ensures a.thread in w'.forwards && ThreadOk(w'.core, w'.changes, w'.accepted, a.thread, w'.forwards[a.thread])
  {
    hide CoreStep, ThreadOk, AfterLook, AfterMark;
    var q := a.thread;
    if a.Turn? {
      LookKeeps(w'.core, w'.changes, w'.accepted, q, w.forwards[q]);
    } else {
      MarkKeeps(w.core, w'.core, w'.changes, w'.accepted, q, w.forwards[q]);
    }
  }

  lemma OtherThreads(cfg: Config, w: World, a: Step, w': World)
    requires !Locks(a) && WorldNext(cfg, w, a, w') && OrderInv(w)
    ensures AcceptedOk(w'.core, w'.accepted)
    ensures ThreadsOk(w'.core, w'.changes, w'.accepted, w'.forwards)
  {
    hide WorldNext, CoreStep, ThreadOk, OneMoves, AcceptedOk, MarksOk, MovesOn;
    StepShape(cfg, w, a, w');
    if ThreadOf(a).Some? {
      var q := a.thread;
      assert q in w'.forwards by { MoverStays(w.forwards, q, w'.forwards); }
      if q in w.forwards {
        ThreadMovesOn(cfg, w, a, w');
        MoveKeeps(w.core, w.changes, w.accepted, q, a, w.forwards[q], w'.forwards[q]);
      } else {
        ThreadStarts(cfg, w, a, w', q);
        StartsOk(w.core, w.changes, w.accepted, q, w'.forwards[q]);
      }
    }
    OneMoreThread(w.core, w.changes, w.accepted, w.forwards, ThreadOf(a), w'.forwards);
  }

  lemma MoverStays(forwards: map<nat, Forward>, q: nat, forwards': map<nat, Forward>)
    requires OneMoves(forwards, Some(q), forwards')
    ensures q in forwards'
  {
  }

  lemma StartsOk(s: Core, changes: nat, accepted: map<nat, Name>, q: nat, f: Forward)
    requires q in accepted && f.Found? && f.ref.id == accepted[q]
    ensures ThreadOk(s, changes, accepted, q, f)
  {
  }

  // ---------------------------------------------------------------- marks

  lemma HasMarkedStays(cfg: Config, w: World, a: Step, w': World, q: nat)
    requires WorldNext(cfg, w, a, w') && HasMarked(w.forwards, q)
    ensures HasMarked(w'.forwards, q)
  {
    hide WorldNext, CoreStep, Rank;
    StepShape(cfg, w, a, w');
    if ThreadOf(a) == Some(q) {
      ThreadMovesOn(cfg, w, a, w');
    }
  }

  lemma MarkMarks(cfg: Config, w: World, q: nat, w': World, k: nat)
    requires LockedNext(cfg, w, Mark(q), w') && k in w'.core.active && w'.core.active[k].sent
    ensures (k in w.core.active && w.core.active[k].sent) || (k == q && HasMarked(w'.forwards, q))
  {
    hide Notifies;
  }

  lemma MarksKept(cfg: Config, w: World, a: Step, w': World)
    requires Inv(cfg, w.core) && WorldNext(cfg, w, a, w') && MarksOk(w.core, w.forwards)
    ensures MarksOk(w'.core, w'.forwards)
  {
    forall k | k in w'.core.active && w'.core.active[k].sent ensures HasMarked(w'.forwards, k) {
      hide Inv, Next, LockedNext, OpenNext, TalkNext, CloseNext, HasMarked, Notifies;
      StepShape(cfg, w, a, w');
      if a.Mark? {
        MarkMarks(cfg, w, a.thread, w', k);
      } else if EventOf(w, a).Some? {
        LockedEvent(cfg, w, a, w');
        SentOnlyByMark(cfg, w.core, EventOf(w, a).value, w'.core, k);
      }
      if k in w.core.active && w.core.active[k].sent {
        HasMarkedStays(cfg, w, a, w', k);
      }
    }
  }

  lemma LockedEvent(cfg: Config, w: World, a: Step, w': World)
    requires WorldNext(cfg, w, a, w') && !a.Mark? && EventOf(w, a).Some?
    ensures !EventOf(w, a).value.DoMarkSent?
  {
    hide CoreStep, OpenNext, TalkNext, CloseNext;
  }

  lemma OrderStep(cfg: Config, w: World, a: Step, w': World)
    requires Inv(cfg, w.core) && WorldNext(cfg, w, a, w') && OrderInv(w)
    ensures OrderInv(w')
  {
    MarksKept(cfg, w, a, w');
    hide Inv, LockedNext, OpenNext, TalkNext, CloseNext, AcceptedOk, ThreadsOk, MarksOk;
    if Locks(a) {
      LockedThreads(cfg, w, a, w');
    } else {
      OtherThreads(cfg, w, a, w');
    }
  }

  /** In every run every thread is in order. */
  lemma {:induction false} OrderRun(cfg: Config, worlds: seq<World>, steps: seq<Step>, i: nat)
    requires WorldRun(cfg, worlds, steps) && i < |worlds|
    ensures OrderInv(worlds[i])
  {
    hide WorldNext, Inv;
    if i > 0 {
      OrderRun(cfg, worlds, steps, i - 1);
      WorldRunInv(cfg, worlds, steps, i - 1);
      hide OrderInv, ForwardsOk, Exclusive;
      OrderStep(cfg, worlds[i - 1], steps[i - 1], worlds[i]);
    }
  }

  // ---------------------------------------------------------------- order

  lemma {:induction false} AheadForever(
    cfg: Config, worlds: seq<World>, steps: seq<Step>, i: nat, j: nat, id: Name, q: nat)
    requires WorldRun(cfg, worlds, steps) && i <= j < |worlds| && Cleared(worlds[i].core, id, q)
    ensures Cleared(worlds[j].core, id, q)
    decreases j - i
  {
    hide WorldNext, Cleared, Inv;
    if i < j {
      AheadForever(cfg, worlds, steps, i, j - 1, id, q);
      WorldRunInv(cfg, worlds, steps, j - 1);
      hide ForwardsOk, Exclusive, Next, Notifies;
      StepShape(cfg, worlds[j - 1], steps[j - 1], worlds[j]);
      if EventOf(worlds[j - 1], steps[j - 1]).Some? {
        ClearedStep(cfg, worlds[j - 1].core, EventOf(worlds[j - 1], steps[j - 1]).value, worlds[j].core, id, q);
      }
    }
  }

  /** Step `i` writes request `q` of the binding to its relay while the request is registered. */
  ghost predicate WritesAt(worlds: seq<World>, steps: seq<Step>, i: nat, id: Name, q: nat) {
    && i < |steps| && i < |worlds| && steps[i] == Write(q) && q in worlds[i].core.active
    && q in worlds[i].forwards && worlds[i].forwards[q].Entered? && worlds[i].forwards[q].ref.id == id
  }

  /** Step `i` sets the send mark of request `q` of the binding. */
  ghost predicate MarksAt(worlds: seq<World>, steps: seq<Step>, i: nat, id: Name, q: nat) {
    && i < |steps| && i < |worlds| && steps[i] == Mark(q) && q in worlds[i].core.active
    && q in worlds[i].forwards && worlds[i].forwards[q].Written? && worlds[i].forwards[q].ref.id == id
  }

  /** What a thread at its write or its mark knows: it is ahead, and its own request is not marked yet. */
  lemma AtItsSend(cfg: Config, worlds: seq<World>, steps: seq<Step>, i: nat, q: nat)
    requires WorldRun(cfg, worlds, steps) && i < |worlds|
    requires q in worlds[i].core.active && q in worlds[i].forwards && 9 <= Rank(worlds[i].forwards[q]) <= 10
    ensures Cleared(worlds[i].core, worlds[i].forwards[q].ref.id, q)
    ensures worlds[i].core.active[q].bindingID == worlds[i].forwards[q].ref.id && !worlds[i].core.active[q].sent
  {
    hide WorldNext;
    OrderRun(cfg, worlds, steps, i);
    assert ThreadOk(worlds[i].core, worlds[i].changes, worlds[i].accepted, q, worlds[i].forwards[q]);
  }

  /** A later send of a lower number of the same binding is impossible. */
  lemma NoLowerLater(cfg: Config, worlds: seq<World>, steps: seq<Step>, i: nat, j: nat, id: Name, q: nat, r: nat)
    requires WorldRun(cfg, worlds, steps) && i < j < |worlds| && r != q
    requires q in worlds[i].core.active && q in worlds[i].forwards && 9 <= Rank(worlds[i].forwards[q]) <= 10
    requires r in worlds[j].core.active && r in worlds[j].forwards && 9 <= Rank(worlds[j].forwards[r]) <= 10
    requires worlds[i].forwards[q].ref.id == id == worlds[j].forwards[r].ref.id
    ensures q < r
  {
    hide WorldNext, Rank;
    AtItsSend(cfg, worlds, steps, i, q);
    AtItsSend(cfg, worlds, steps, j, r);
    AheadForever(cfg, worlds, steps, i, j, id, q);
  }

  /** Requests of one binding go out on the relay in strictly increasing order, as long as each is
      registered when it is written; a frame is written once. */
  lemma WritesOrdered(cfg: Config, worlds: seq<World>, steps: seq<Step>, i: nat, j: nat, id: Name, q: nat, r: nat)
    requires WorldRun(cfg, worlds, steps) && i < j
    requires WritesAt(worlds, steps, i, id, q) && WritesAt(worlds, steps, j, id, r)
    ensures q < r
  {
    hide WorldNext;
    if r == q {
      WriteMoves(cfg, worlds[i], q, worlds[i + 1]);
      RankMonotone(cfg, worlds, steps, i + 1, j, q);
    } else {
      NoLowerLater(cfg, worlds, steps, i, j, id, q, r);
    }
  }

  /** Step `i` writes the frame of request `q` of the binding, registered or not. */
  ghost predicate FrameAt(worlds: seq<World>, steps: seq<Step>, i: nat, id: Name, q: nat) {
    && i < |steps| && i < |worlds| && steps[i] == Write(q)
    && q in worlds[i].forwards && worlds[i].forwards[q].Entered? && worlds[i].forwards[q].ref.id == id
  }

  /** Of two frames written out of order, one is of a request that is no longer registered when it is
      written. */
  lemma OutOfOrderFrames(cfg: Config, worlds: seq<World>, steps: seq<Step>, i: nat, j: nat, id: Name, q: nat, r: nat)
    requires WorldRun(cfg, worlds, steps) && i < j && r <= q
    requires FrameAt(worlds, steps, i, id, q) && FrameAt(worlds, steps, j, id, r)
    ensures q !in worlds[i].core.active || r !in worlds[j].core.active
  {
    hide WorldNext, WorldRun;
    if q in worlds[i].core.active && r in worlds[j].core.active {
      WritesOrdered(cfg, worlds, steps, i, j, id, q, r);
    }
  }

  /** Every lower registered request of the binding but `r` is sent. */
  predicate OnlyInTheWay(s: Core, id: Name, q: nat, r: nat) {
    forall k | k in s.active && s.active[k].bindingID == id && k < q && k != r :: s.active[k].sent
  }

  /** When a request is overtaken, exactly: where it is the only lower one of its binding in the way, and its
      frame is not written yet, a look lets a registered higher one through if and only if it is no longer
      registered at that look. */
  lemma OvertakenExactly(cfg: Config, worlds: seq<World>, steps: seq<Step>, i: nat, q: nat, r: nat)
    requires WorldRun(cfg, worlds, steps) && i < |steps| && steps[i].Turn? && steps[i].thread == q && r < q
    requires q in worlds[i].forwards && r in worlds[i].forwards && Rank(worlds[i].forwards[r]) < 10
    requires !worlds[i].forwards[q].Finished? && worlds[i].forwards[r].ref.id == worlds[i].forwards[q].ref.id
    requires q in worlds[i].core.active
    requires OnlyInTheWay(worlds[i + 1].core, worlds[i].forwards[q].ref.id, q, r)
    ensures q in worlds[i + 1].forwards
    ensures worlds[i + 1].forwards[q].Turned? <==> r !in worlds[i + 1].core.active
  {
    hide WorldNext;
    var w, w' := worlds[i], worlds[i + 1];
    LookIs(cfg, w, steps[i], w');
    OrderRun(cfg, worlds, steps, i);
    OrderRun(cfg, worlds, steps, i + 1);
    hide OrderInv;
    OvertakenLook(w, w', q, r, steps[i].now);
  }

  /** A look at the turn prunes the registry and decides by what is left; a thread that slept looks only
      because the channel it slept on was closed. */
  lemma LookIs(cfg: Config, w: World, a: Step, w': World)
    requires WorldNext(cfg, w, a, w') && a.Turn?
    ensures a.thread in w.forwards && w.forwards[a.thread].Captured? && a.thread in w'.forwards
    ensures w.forwards[a.thread].waiting.Some? ==> w.forwards[a.thread].waiting.value < w.changes
    ensures w'.core.active == LiveRequests(w.core.active, w.core.permits, a.now)
    ensures w'.forwards == w.forwards[a.thread := AfterLook(w'.core, w'.changes, a.thread, w.forwards[a.thread])]
    ensures w'.accepted == w.accepted
  {
    hide OpenNext, TalkNext, CloseNext, Notifies, AfterLook, LiveRequests, LivePermits;
  }

  lemma OvertakenLook(w: World, w': World, q: nat, r: nat, now: int)
    requires OrderInv(w) && OrderInv(w') && r < q && q in w.core.active
    requires q in w.forwards && w.forwards[q].Captured? && r in w.forwards && Rank(w.forwards[r]) < 10
    requires w.forwards[r].ref.id == w.forwards[q].ref.id && w'.accepted == w.accepted
    requires w'.core.active == LiveRequests(w.core.active, w.core.permits, now)
    requires w'.forwards == w.forwards[q := AfterLook(w'.core, w'.changes, q, w.forwards[q])]
    requires OnlyInTheWay(w'.core, w.forwards[q].ref.id, q, r)
    ensures w'.forwards[q].Turned? <==> r !in w'.core.active
  {
    var id := w.forwards[q].ref.id;
    assert ThreadOk(w.core, w.changes, w.accepted, q, w.forwards[q]);
    assert ThreadOk(w.core, w.changes, w.accepted, r, w.forwards[r]);
    assert w.core.active[q].bindingID == id && w.core.active[q].submitted;
    assert q in w'.core.active && w'.core.active[q] == w.core.active[q];
    if r in w'.core.active {
      assert w'.core.active[r].bindingID == id;
      assert !w'.core.active[r].sent by { assert w'.forwards[r] == w.forwards[r]; }
      assert !TurnFree(w'.core, id, q);
    } else {
      assert TurnFree(w'.core, id, q);
    }
    hide OrderInv, TurnFree, LiveRequests;
  }

  lemma WriteMoves(cfg: Config, w: World, q: nat, w': World)
    requires WorldNext(cfg, w, Write(q), w')
    ensures q in w'.forwards && Rank(w'.forwards[q]) == 10
  {
    hide LockedNext, OpenNext, CloseNext;
  }

  /** Requests of one binding are marked sent in strictly increasing order. */
  lemma SendsOrdered(cfg: Config, worlds: seq<World>, steps: seq<Step>, i: nat, j: nat, id: Name, q: nat, r: nat)
    requires WorldRun(cfg, worlds, steps) && i < j
    requires MarksAt(worlds, steps, i, id, q) && MarksAt(worlds, steps, j, id, r)
    ensures q < r
  {
    hide WorldNext;
    if r == q {
      MarkMoves(cfg, worlds[i], q, worlds[i + 1]);
      RankMonotone(cfg, worlds, steps, i + 1, j, q);
    } else {
      NoLowerLater(cfg, worlds, steps, i, j, id, q, r);
    }
  }

  lemma MarkMoves(cfg: Config, w: World, q: nat, w': World)
    requires WorldNext(cfg, w, Mark(q), w')
    ensures q in w'.forwards && Rank(w'.forwards[q]) >= 11
  {
    hide OpenNext, TalkNext, CloseNext, CoreStep;
  }

  lemma MarkIs(cfg: Config, w: World, q: nat, w': World)
    requires WorldNext(cfg, w, Mark(q), w')
    ensures q in w.forwards && w.forwards[q].Written? && q in w'.forwards
    ensures w'.forwards[q] == AfterMark(w.core, q, w.forwards[q])
    ensures w'.core.active == MarkSent(w.core, w.forwards[q].ref.id, q).active
  {
    hide OpenNext, TalkNext, CloseNext, Notifies, AfterMark;
  }

  /** A mark is never refused: a thread that has written its frame goes on to await its result on its own
      channel, and its request, if it is still registered, is marked sent. */
  lemma MarkAwaits(cfg: Config, worlds: seq<World>, steps: seq<Step>, i: nat, q: nat)
    requires WorldRun(cfg, worlds, steps) && i < |steps| && steps[i] == Mark(q)
    ensures q in worlds[i].forwards && worlds[i].forwards[q].Written? && var f := worlds[i].forwards[q];
            && q in worlds[i + 1].forwards && worlds[i + 1].forwards[q] == Awaiting(f.ref, f.connection, f.channel)
            && (q in worlds[i].core.active ==>
                  q in worlds[i + 1].core.active && worlds[i + 1].core.active[q].sent)
  {
    MarkIs(cfg, worlds[i], q, worlds[i + 1]);
    hide WorldNext;
    OrderRun(cfg, worlds, steps, i);
    assert ThreadOk(worlds[i].core, worlds[i].changes, worlds[i].accepted, q, worlds[i].forwards[q]);
  }

  /** A thread marks its request only after its own look at the turn let it through, in this run. */
  lemma {:induction false} TurnBeforeSend(cfg: Config, worlds: seq<World>, steps: seq<Step>, i: nat,
      q: nat) returns (b: nat)
    requires WorldRun(cfg, worlds, steps) && i < |worlds| && q in worlds[i].forwards && PastTurn(worlds[i].forwards[q])
    ensures b < i && steps[b].Turn? && steps[b].thread == q && q in worlds[b].forwards
      && worlds[b].forwards[q].Captured?
    ensures q in worlds[b + 1].forwards && worlds[b + 1].forwards[q].Turned?
    ensures Ahead(worlds[b + 1].core, worlds[b + 1].forwards[q].ref.id, q)
  {
    hide WorldNext, CoreStep, Ahead;
    assert i > 0;
    var w, a, w' := worlds[i - 1], steps[i - 1], worlds[i];
    StepShape(cfg, w, a, w');
    if q !in w.forwards {
      ThreadStarts(cfg, w, a, w', q);
    } else {
      if ThreadOf(a) == Some(q) { ThreadMovesOn(cfg, w, a, w'); }
      if PastTurn(w.forwards[q]) {
        b := TurnBeforeSend(cfg, worlds, steps, i - 1, q);
      } else {
        b := i - 1;
        OrderRun(cfg, worlds, steps, i);
        assert ThreadOk(w'.core, w'.changes, w'.accepted, q, w'.forwards[q]);
      }
    }
  }

  /** No wakeup is lost: in every run, a thread that sleeps on the open `changed` channel is blocked by a
      lower request of its binding that is registered and unsent. */
  lemma SleepersAreBlocked(cfg: Config, worlds: seq<World>, steps: seq<Step>, i: nat, q: nat) returns (lower: nat)
    requires WorldRun(cfg, worlds, steps) && i < |worlds| && q in worlds[i].forwards
    requires worlds[i].forwards[q].Captured? && worlds[i].forwards[q].waiting == Some(worlds[i].changes)
    ensures lower < q && lower in worlds[i].core.active && !worlds[i].core.active[lower].sent
    ensures worlds[i].core.active[lower].bindingID == worlds[i].forwards[q].ref.id
  {
    hide WorldNext;
    OrderRun(cfg, worlds, steps, i);
    var w := worlds[i];
    assert ThreadOk(w.core, w.changes, w.accepted, q, w.forwards[q]);
    var id := w.forwards[q].ref.id;
    lower :| lower in w.core.active && w.core.active[lower].bindingID == id && lower < q && !w.core.active[lower].sent;
  }

  // ---------------------------------------------------------------- what is always possible

  lemma CanStep(cfg: Config, s: Core, e: Event)
    ensures Next(cfg, s, e, Apply(cfg, s, e))
  {
    hide Apply;
  }

  /** A thread that waits for its turn and was woken, or has not looked yet, can look at any time. */
  lemma CanLook(cfg: Config, w: World, q: nat, now: int) returns (w': World)
    requires q in w.forwards && w.forwards[q].Captured?
    requires w.forwards[q].waiting.Some? ==> w.forwards[q].waiting.value < w.changes
    ensures WorldNext(cfg, w, Turn(q, now), w') && w'.core == PruneExpired(w.core, now)
    ensures w'.changes == w.changes + if PruneNotifies(w.core, now) then 1 else 0
  {
    CanStep(cfg, w.core, Prune(now));
    hide OpenNext, TalkNext, CloseNext, AfterLook, PruneNotifies, LivePermits, LiveRequests, Issue, Consume;
    w' := w.(core := PruneExpired(w.core, now), changes := w.changes + if PruneNotifies(w.core, now) then 1 else 0);
    w' := w'.(forwards := w.forwards[q := AfterLook(w'.core, w'.changes, q, w.forwards[q])]);
  }

  /** A thread that has written its frame can mark its request at any time. */
  lemma CanMark(cfg: Config, w: World, q: nat) returns (w': World)
    requires q in w.forwards && w.forwards[q].Written?
    ensures WorldNext(cfg, w, Mark(q), w') && w'.core == MarkSent(w.core, w.forwards[q].ref.id, q)
  {
    var e := DoMarkSent(w.forwards[q].ref.id, q);
    CanStep(cfg, w.core, e);
    hide OpenNext, TalkNext, CloseNext, AfterMark, Notifies, Issue, Consume;
    w' := w.(core := MarkSent(w.core, w.forwards[q].ref.id, q),
             changes := w.changes + if Notifies(cfg, w.core, e) then 1 else 0,
             forwards := w.forwards[q := AfterMark(w.core, q, w.forwards[q])]);
  }

  // ---------------------------------------------------------------- requests that vanish

  /** The thread sleeps over a request that has left the registry, or is finished. */
  predicate Doomed(w: World, q: nat) {
    && q in w.forwards && var f := w.forwards[q];
    && (f.Finished? || (f.Captured? && f.waiting.Some? && Gone(w.core, q)))
  }

  lemma GoneStep(cfg: Config, w: World, a: Step, w': World, q: nat)
    requires Inv(cfg, w.core) && WorldNext(cfg, w, a, w') && Gone(w.core, q)
    ensures Gone(w'.core, q)
  {
    hide WorldNext, Inv, Next, Notifies;
    StepShape(cfg, w, a, w');
    if EventOf(w, a).Some? {
      StepTame(cfg, w.core, EventOf(w, a).value, w'.core);
    }
  }

  lemma OpenFromCaptured(w: World, a: Step, w': World)
    requires Opens(a) && OpenNext(w, a, w') && a.thread in w.forwards && w.forwards[a.thread].Captured?
    ensures w'.forwards[a.thread].Finished?
  {
    hide LockFree, LiveRelay, Authority, Attached;
  }

  lemma TalkNotCaptured(w: World, a: Step, w': World)
    requires Talks(a) && TalkNext(w, a, w')
    ensures a.thread in w.forwards && !w.forwards[a.thread].Captured?
  {
    hide X.Do, X.Enabled, X.Closed;
  }

  /** A thread that waits for its turn can only look or give up. */
  lemma CapturedMoves(cfg: Config, w: World, a: Step, w': World)
    requires WorldNext(cfg, w, a, w') && ThreadOf(a).Some? && a.thread in w.forwards && w.forwards[a.thread].Captured?
    ensures a.thread in w'.forwards && (a.Turn? || w'.forwards[a.thread].Finished?)
  {
    hide LockedNext, OpenNext, TalkNext, CloseNext, CoreStep;
    StepShape(cfg, w, a, w');
    if Opens(a) { OpenFromCaptured(w, a, w'); }
    else if Talks(a) { TalkNotCaptured(w, a, w'); }
    else if a.Mark? { MarkIs(cfg, w, a.thread, w'); }
  }

  lemma DoomedMoves(cfg: Config, w: World, a: Step, w': World, q: nat)
    requires WorldNext(cfg, w, a, w') && Doomed(w, q) && Gone(w'.core, q) && ThreadOf(a) == Some(q)
    requires !w.forwards[q].Finished?
    ensures q in w'.forwards && w'.forwards[q].Finished?
  {
    CapturedMoves(cfg, w, a, w');
    if a.Turn? { LookIs(cfg, w, a, w'); }
    hide WorldNext, CoreStep;
  }

  lemma DoomedStep(cfg: Config, w: World, a: Step, w': World, q: nat)
    requires Inv(cfg, w.core) && WorldNext(cfg, w, a, w') && Doomed(w, q)
    ensures Doomed(w', q)
  {
    hide WorldNext, Inv, CoreStep;
    StepShape(cfg, w, a, w');
    if w.forwards[q].Finished? {
      if ThreadOf(a) == Some(q) { ThreadMovesOn(cfg, w, a, w'); }
    } else {
      GoneStep(cfg, w, a, w', q);
      if ThreadOf(a) == Some(q) { DoomedMoves(cfg, w, a, w', q); }
    }
  }

  lemma {:induction false} DoomedForever(cfg: Config, worlds: seq<World>, steps: seq<Step>, i: nat, j: nat, q: nat)
    requires WorldRun(cfg, worlds, steps) && i <= j < |worlds| && Doomed(worlds[i], q)
    ensures Doomed(worlds[j], q)
    decreases j - i
  {
    hide WorldNext, Doomed, Inv;
    if i < j {
      DoomedForever(cfg, worlds, steps, i, j - 1, q);
      WorldRunInv(cfg, worlds, steps, j - 1);
      hide ForwardsOk, Exclusive;
      DoomedStep(cfg, worlds[j - 1], steps[j - 1], worlds[j], q);
    }
  }

  /** A request that leaves the registry while its thread waits for its turn is never written to a relay. */
  lemma VanishedNeverSent(cfg: Config, worlds: seq<World>, steps: seq<Step>, i: nat, j: nat, q: nat)
    requires WorldRun(cfg, worlds, steps) && i <= j < |steps| && q in worlds[i].forwards
    requires worlds[i].forwards[q].Captured? && worlds[i].forwards[q].waiting.Some? && q !in worlds[i].core.active
    ensures steps[j] != Write(q)
  {
    hide WorldNext;
    OrderRun(cfg, worlds, steps, i);
    assert ThreadOk(worlds[i].core, worlds[i].changes, worlds[i].accepted, q, worlds[i].forwards[q]);
    DoomedForever(cfg, worlds, steps, i, j, q);
    if steps[j] == Write(q) { WriteStarts(cfg, worlds[j], q, worlds[j + 1]); }
  }

  lemma WriteStarts(cfg: Config, w: World, q: nat, w': World)
    requires WorldNext(cfg, w, Write(q), w')
    ensures q in w.forwards && w.forwards[q].Entered?
  {
    hide LockedNext, OpenNext, CloseNext;
  }
}
