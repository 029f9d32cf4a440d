/** Forwarding threads, revocations and relay closing under every interleaving. An atomic step is one
    critical section of the broker mutex, of a binding's relay mutex or of a relay session's pending-map
    mutex, one write to the relay, or one load of a relay epoch or of a closed flag. `Reuse` and `Lock` join
    the first look at the epoch with the looks at the relay's and the broker's closed flags that follow it
    under the relay mutex. A change of the epoch between those looks is seen by the second look at the
    epoch, `Recheck`, before anything is installed; without one, the joined step can be taken later. */
module RelayWorld {
  import opened BrokerCore
  import opened BrokerInvariant
  import opened BrokerLease
  import opened BrokerRuns
  import opened Options
  import opened RelayEpochs
  import X = RelayExchange

  /** Where the thread is that forwards one accepted request. In `Captured` it waits for its turn; `waiting`
      is the state of the `changed` channel it sleeps on, none before its first look. In `Opening` and
      `Rechecked` it holds the relay mutex of `ref`: the ticket and the connection are being obtained, then
      the epoch has been looked at again. From `Ready` on it has a relay session; it registers with it,
      writes its frame, marks the request sent and awaits the result on its channel. */
  datatype Forward =
    | Found(ref: Ref)
    | Seen(ref: Ref, generation: nat)
    | Captured(ref: Ref, generation: nat, epoch: nat, waiting: Option<nat>)
    | Turned(ref: Ref, generation: nat, epoch: nat)
    | Validated(ref: Ref, generation: nat, epoch: nat)
    | Opening(ref: Ref, generation: nat, epoch: nat)
    | Rechecked(ref: Ref, generation: nat, epoch: nat)
    | Ready(ref: Ref, connection: nat)
    | Entering(ref: Ref, connection: nat, channel: nat)
    | Entered(ref: Ref, connection: nat, channel: nat)
    | Written(ref: Ref, connection: nat, channel: nat)
    | Awaiting(ref: Ref, connection: nat, channel: nat)
    | Finished

  /** A call that still has to detach the relay of an object whose materials it cleared, or that closes a
      session it detached. */
  datatype Closer = Owes(ref: Ref) | Closing(connection: nat)

  /** `changes` counts the closings of the `changed` channel. `accepted` maps every accepted number to the
      binding of its permit and `forwards` to the thread that forwards it. `relays` is each object's
      relay session and `sessions` every session ever opened. */
  datatype World = World(
    core: Core, changes: nat, accepted: map<nat, Name>, forwards: map<nat, Forward>, closers: map<nat, Closer>,
    relays: map<Ref, nat>, sessions: map<nat, X.Session>)

  /** `thread` is the sequence number of the request being forwarded. */
  datatype Step =
    | Locked(event: Event, tokens: map<nat, Ref>)
    | Turn(thread: nat, now: int)
    | Mark(thread: nat)
    | Find(thread: nat)
    | See(thread: nat)
    | Capture(thread: nat)
    | Validate(thread: nat)
    | Reuse(thread: nat)
    | Lock(thread: nat)
    | Recheck(thread: nat)
    | InstallRelay(thread: nat, connection: nat)
    | Abort(thread: nat)
    | Enter(thread: nat, key: X.Key)
    | Leave(thread: nat)
    | Write(thread: nat)
    | Receive(thread: nat)
    | GiveUp(thread: nat, key: X.Key)
    | CloseRelay(token: nat)
    | FailRelay(ref: Ref, connection: nat, token: nat)
    | Flag(token: nat)
    | Sweep(token: nat)
    | Return(token: nat)
    | Dispatch(connection: nat, channel: nat)
    | Deliver(connection: nat, key: X.Key, frame: nat, valid: bool)

  predicate Holds(f: Forward, r: Ref) { (f.Opening? || f.Rechecked?) && f.ref == r }

  ghost predicate LockFree(w: World, r: Ref) {
    forall t | t in w.forwards :: !Holds(w.forwards[t], r)
  }

  /** The object has a relay whose closed flag is not set. */
  predicate LiveRelay(w: World, r: Ref) {
    r in w.relays && w.relays[r] in w.sessions && !X.Closed(w.sessions[w.relays[r]])
  }

  function Moved(w: World, q: nat, f: Forward): World {
    w.(forwards := w.forwards[q := f])
  }

  // ---------------------------------------------------------------- steps of the broker mutex

  /** A critical section of the broker, with its effect on the `changed` channel. */
  ghost predicate CoreStep(cfg: Config, w: World, e: Event, w': World) {
    Next(cfg, w.core, e, w'.core) && w'.changes == w.changes + if Notifies(cfg, w.core, e) then 1 else 0
  }

  function AcceptedAfter(w: World, e: Event): map<nat, Name> {
    if Accepts(w.core, e) then w.accepted[e.submission.sequence := e.submission.bindingID] else w.accepted
  }

  function Owing(tokens: map<nat, Ref>): map<nat, Closer> {
    map k | k in tokens :: Owes(tokens[k])
  }

  /** What a look at the turn makes of a waiting thread; `s` is the state just pruned. */
  function AfterLook(s: Core, changes: nat, q: nat, f: Forward): Forward
    requires f.Captured?
  {
    match TakeTurn(s, f.ref.id, q, f.waiting.Some?)
    case Passed => Turned(f.ref, f.generation, f.epoch)
    case Blocked => f.(waiting := Some(changes))
    case TurnRefused => Finished
  }

  /** What marking makes of the thread: a registered request of another binding, or one that was never
      submitted, is refused. */
  function AfterMark(s: Core, q: nat, f: Forward): Forward
    requires f.Written?
  {
    if q in s.active && (s.active[q].bindingID != f.ref.id || !s.active[q].submitted) then Finished
    else Awaiting(f.ref, f.connection, f.channel)
  }

  predicate Locks(a: Step) { a.Locked? || a.Turn? || a.Mark? }

  /** The send mark is set by forwarding threads only, and a thread that sleeps looks again only once the
      channel it sleeps on is closed. */
  ghost predicate LockedNext(cfg: Config, w: World, a: Step, w': World)
    requires Locks(a)
  {
    match a
    case Locked(e, tokens) =>
      && !e.Crash? && !e.DoMarkSent? && CoreStep(cfg, w, e, w')
      && tokens.Keys !! w.closers.Keys && tokens.Values == ClosesAfter(w.core, e)
      && w' == w.(core := w'.core, changes := w'.changes, accepted := AcceptedAfter(w, e),
                  closers := w.closers + Owing(tokens))
    case Turn(q, now) =>
      && q in w.forwards && w.forwards[q].Captured? && var f := w.forwards[q];
      && (f.waiting.Some? ==> f.waiting.value < w.changes)
      && CoreStep(cfg, w, Prune(now), w')
      && w' == w.(core := w'.core, changes := w'.changes,
                  forwards := w.forwards[q := AfterLook(w'.core, w'.changes, q, f)])
    case Mark(q) =>
      && q in w.forwards && w.forwards[q].Written? && var f := w.forwards[q];
      && CoreStep(cfg, w, DoMarkSent(f.ref.id, q), w')
      && w' == w.(core := w'.core, changes := w'.changes, forwards := w.forwards[q := AfterMark(w.core, q, f)])
  }

  // ---------------------------------------------------------------- obtaining a relay

  predicate Opens(a: Step) {
    || a.Find? || a.See? || a.Capture? || a.Validate? || a.Reuse? || a.Lock? || a.Recheck? || a.InstallRelay?
      || a.Abort?
  }

  ghost predicate OpenNext(w: World, a: Step, w': World)
    requires Opens(a)
  {
    match a
    case Find(q) =>
      && q in w.accepted && q !in w.forwards && var id := w.accepted[q];
      && id in w.core.bindings && w' == Moved(w, q, Found(Ref(id, w.core.bindings[id].serial)))
    case See(q) =>
      && q in w.forwards && w.forwards[q].Found? && var r := w.forwards[q].ref;
      && Attached(w.core, r) && Authority(w.core.bindings, r.id, w.core.bindings[r.id].metadata.generation)
      && w' == Moved(w, q, Seen(r, w.core.bindings[r.id].metadata.generation))
    case Capture(q) =>
      && q in w.forwards && w.forwards[q].Seen? && var f := w.forwards[q];
      && f.ref in w.core.epochs && w' == Moved(w, q, Captured(f.ref, f.generation, w.core.epochs[f.ref], None))
    case Validate(q) =>
      && q in w.forwards && w.forwards[q].Turned? && var f := w.forwards[q];
      && Authorises(w.core, f.ref, f.generation)
      && w' == Moved(w, q, Validated(f.ref, f.generation, f.epoch))
    case Reuse(q) =>
      && q in w.forwards && w.forwards[q].Validated? && var f := w.forwards[q];
      && LockFree(w, f.ref) && f.ref in w.core.epochs && w.core.epochs[f.ref] == f.epoch && LiveRelay(w, f.ref)
      && w' == Moved(w, q, Ready(f.ref, w.relays[f.ref]))
    case Lock(q) =>
      && q in w.forwards && w.forwards[q].Validated? && var f := w.forwards[q];
      && LockFree(w, f.ref) && f.ref in w.core.epochs && w.core.epochs[f.ref] == f.epoch
      && !LiveRelay(w, f.ref) && !w.core.closed
      && w' == Moved(w, q, Opening(f.ref, f.generation, f.epoch))
    case Recheck(q) =>
      && q in w.forwards && w.forwards[q].Opening? && var f := w.forwards[q];
      && f.ref in w.core.epochs && w.core.epochs[f.ref] == f.epoch && !w.core.closed
      && w' == Moved(w, q, Rechecked(f.ref, f.generation, f.epoch))
    case InstallRelay(q, c) =>
      && q in w.forwards && w.forwards[q].Rechecked? && c !in w.sessions && var r := w.forwards[q].ref;
      && w' == Moved(w, q, Ready(r, c)).(relays := w.relays[r := c], sessions := w.sessions[c := X.START])
    case Abort(q) =>
      q in w.forwards && !w.forwards[q].Entering? && w' == Moved(w, q, Finished)
  }

  // ---------------------------------------------------------------- the exchange

  predicate Talks(a: Step) { a.Enter? || a.Leave? || a.Write? || a.Receive? || a.GiveUp? }

  /** A step of one session. */
  ghost predicate Exchanges(w: World, c: nat, x: X.Step, sessions': map<nat, X.Session>) {
    c in w.sessions && X.Enabled(w.sessions[c], x) && sessions' == w.sessions[c := X.Do(w.sessions[c], x)]
  }

  ghost predicate TalkNext(w: World, a: Step, w': World)
    requires Talks(a)
  {
    match a
    case Enter(q, key) =>
      && q in w.forwards && w.forwards[q].Ready? && var f := w.forwards[q];
      && key.sequence == q && key.bindingID == f.ref.id
      && Exchanges(w, f.connection, X.BeginRegister(key), w'.sessions)
      && w' == Moved(w, q, Entering(f.ref, f.connection, |w.sessions[f.connection].owner|)).(sessions := w'.sessions)
    case Leave(q) =>
      && q in w.forwards && w.forwards[q].Entering? && var f := w.forwards[q];
      && Exchanges(w, f.connection, X.EndRegister, w'.sessions)
      && w.sessions[f.connection].registering.value.1 == f.channel
      && w' == Moved(w, q, Entered(f.ref, f.connection, f.channel)).(sessions := w'.sessions)
    case Write(q) =>
      && q in w.forwards && w.forwards[q].Entered? && var f := w.forwards[q];
      && f.connection in w.sessions && !X.Closed(w.sessions[f.connection])
      && w' == Moved(w, q, Written(f.ref, f.connection, f.channel))
    case Receive(q) =>
      && q in w.forwards && w.forwards[q].Awaiting? && var f := w.forwards[q];
      && f.connection in w.sessions && f.channel in w.sessions[f.connection].sent
      && w' == Moved(w, q, Finished)
    case GiveUp(q, key) =>
      && q in w.forwards && w.forwards[q].Awaiting? && var f := w.forwards[q];
      && Exchanges(w, f.connection, X.Abandon(key, f.channel), w'.sessions)
      && key == w.sessions[f.connection].owner[f.channel]
      && w' == Moved(w, q, Finished).(sessions := w'.sessions)
  }

  // ---------------------------------------------------------------- closing

  /** The first closer of a session closes it; a call returns once that closer is done, that is once the
      session is swept and the results of the close are out. */
  ghost predicate CloseNext(w: World, a: Step, w': World)
    requires !Locks(a) && !Opens(a) && !Talks(a)
  {
    match a
    case CloseRelay(token) =>
      && token in w.closers && w.closers[token].Owes? && var r := w.closers[token].ref;
      && LockFree(w, r)
      && w' == w.(relays := w.relays - {r},
                  closers := if r in w.relays then w.closers[token := Closing(w.relays[r])] else w.closers - {token})
    case FailRelay(r, c, token) =>
      && LockFree(w, r) && c in w.sessions && token !in w.closers
      && w' == w.(relays := if r in w.relays && w.relays[r] == c then w.relays - {r} else w.relays,
                  closers := w.closers[token := Closing(c)])
    case Flag(token) =>
      && token in w.closers && w.closers[token].Closing?
      && Exchanges(w, w.closers[token].connection, X.Flag, w'.sessions) && w' == w.(sessions := w'.sessions)
    case Sweep(token) =>
      && token in w.closers && w.closers[token].Closing?
      && Exchanges(w, w.closers[token].connection, X.Sweep, w'.sessions) && w' == w.(sessions := w'.sessions)
    case Return(token) =>
      && token in w.closers && w.closers[token].Closing? && var c := w.closers[token].connection;
      && c in w.sessions && w.sessions[c].phase == X.Swept && X.CloseTold(w.sessions[c])
      && w' == w.(closers := w.closers - {token})
    case Dispatch(c, channel) =>
      Exchanges(w, c, X.Send(channel), w'.sessions) && w' == w.(sessions := w'.sessions)
    case Deliver(c, key, frame, valid) =>
      Exchanges(w, c, X.Deliver(key, frame, valid), w'.sessions) && w' == w.(sessions := w'.sessions)
  }

  ghost predicate WorldNext(cfg: Config, w: World, a: Step, w': World) {
    if Locks(a) then LockedNext(cfg, w, a, w')
    else if Opens(a) then OpenNext(w, a, w')
    else if Talks(a) then TalkNext(w, a, w')
    else CloseNext(w, a, w')
  }

  function Beginning(sequence: nat): World {
    World(Fresh(sequence), 0, map[], map[], map[], map[], map[])
  }

  /** A run of one process from its start. */
  ghost predicate WorldRun(cfg: Config, worlds: seq<World>, steps: seq<Step>) {
    && ValidConfig(cfg) && |worlds| == |steps| + 1
    && worlds[0].core.sequence <= MAX_UINT64 && worlds[0] == Beginning(worlds[0].core.sequence)
    && (forall i | 0 <= i < |steps| :: WorldNext(cfg, worlds[i], steps[i], worlds[i + 1]))
  }

  // ---------------------------------------------------------------- what the steps are, seen from outside

  /** The event a step runs under the broker mutex, if it does. */
  function EventOf(w: World, a: Step): Option<Event> {
    match a
    case Locked(e, tokens) => Some(e)
    case Turn(q, now) => Some(Prune(now))
    case Mark(q) => if q in w.forwards && w.forwards[q].Written? then Some(DoMarkSent(w.forwards[q].ref.id, q))
      else None
    case _ => None
  }

  /** The thread a step moves. */
  function ThreadOf(a: Step): Option<nat> {
    if Opens(a) || Talks(a) || a.Turn? || a.Mark? then Some(a.thread) else None
  }

  /** A step moves at most its own thread. */
  ghost predicate OneMoves(forwards: map<nat, Forward>, thread: Option<nat>, forwards': map<nat, Forward>) {
    match thread
    case None => forwards' == forwards
    case Some(q) => q in forwards' && forwards' == forwards[q := forwards'[q]]
  }

  /** The parts of the world a step leaves alone. */
  lemma LockedShape(cfg: Config, w: World, a: Step, w': World)
    requires Locks(a) && LockedNext(cfg, w, a, w')
    ensures EventOf(w, a).Some? && CoreStep(cfg, w, EventOf(w, a).value, w') && !EventOf(w, a).value.Crash?
    ensures w'.accepted == if a.Locked? then AcceptedAfter(w, a.event) else w.accepted
    ensures OneMoves(w.forwards, ThreadOf(a), w'.forwards) && w'.relays == w.relays && w'.sessions == w.sessions
  {
    hide CoreStep, ClosesAfter, AfterLook, AfterMark, AcceptedAfter;
  }

  lemma OpenShape(w: World, a: Step, w': World)
    requires Opens(a) && OpenNext(w, a, w')
    ensures w'.core == w.core && w'.changes == w.changes && w'.accepted == w.accepted && w'.closers == w.closers
    ensures OneMoves(w.forwards, ThreadOf(a), w'.forwards)
  {
    hide LockFree, LiveRelay, Authority, Attached, Authorises;
  }

  lemma TalkShape(w: World, a: Step, w': World)
    requires Talks(a) && TalkNext(w, a, w')
    ensures w'.core == w.core && w'.changes == w.changes && w'.accepted == w.accepted && w'.closers == w.closers
    ensures OneMoves(w.forwards, ThreadOf(a), w'.forwards) && w'.relays == w.relays
  {
    hide X.Enabled, X.Do, X.Closed;
  }

  lemma CloseShape(w: World, a: Step, w': World)
    requires !Locks(a) && !Opens(a) && !Talks(a) && CloseNext(w, a, w')
    ensures w'.core == w.core && w'.changes == w.changes && w'.accepted == w.accepted && w'.forwards == w.forwards
  {
    hide X.Enabled, X.Do, X.Closed, LockFree;
  }

  /** Every step is one critical section of the broker, or leaves its state and the channel alone; and it
      moves at most its own thread. */
  lemma StepShape(cfg: Config, w: World, a: Step, w': World)
    requires WorldNext(cfg, w, a, w')
    ensures if EventOf(w, a).Some? then CoreStep(cfg, w, EventOf(w, a).value, w') && !EventOf(w, a).value.Crash?
            else w'.core == w.core && w'.changes == w.changes
    ensures w'.accepted == if a.Locked? then AcceptedAfter(w, a.event) else w.accepted
    ensures OneMoves(w.forwards, ThreadOf(a), w'.forwards)
  {
    hide CoreStep, LockedNext, OpenNext, TalkNext, CloseNext, AcceptedAfter;
    if Locks(a) { LockedShape(cfg, w, a, w'); }
    else if Opens(a) { OpenShape(w, a, w'); }
    else if Talks(a) { TalkShape(w, a, w'); }
    else { CloseShape(w, a, w'); }
  }

  /** How far along a thread is. */
  function Rank(f: Forward): nat {
    match f
    case Found(_) => 0
    case Seen(_, _) => 1
    case Captured(_, _, _, _) => 2
    case Turned(_, _, _) => 3
    case Validated(_, _, _) => 4
    case Opening(_, _, _) => 5
    case Rechecked(_, _, _) => 6
    case Ready(_, _) => 7
    case Entering(_, _, _) => 8
    case Entered(_, _, _) => 9
    case Written(_, _, _) => 10
    case Awaiting(_, _, _) => 11
    case Finished => 12
  }

  /** A thread only moves on and keeps its object; it leaves the wait for its turn by a look that lets it
      through, and is done sending only by the mark. */
  predicate MovesOn(a: Step, f: Forward, f': Forward) {
    && Rank(f) <= Rank(f')
    && (!f'.Finished? ==> !f.Finished? && f'.ref == f.ref)
    && (Rank(f) < 3 <= Rank(f') < 12 ==> a.Turn? && f.Captured? && f'.Turned?)
    && (f'.Captured? ==> (a.Capture? && f'.waiting.None?) || (a.Turn? && f.Captured?))
    && (f'.Awaiting? ==> a.Mark?)
  }

  lemma LockedMovesOn(cfg: Config, w: World, a: Step, w': World)
    requires (a.Turn? || a.Mark?) && LockedNext(cfg, w, a, w')
    ensures a.thread in w.forwards && MovesOn(a, w.forwards[a.thread], w'.forwards[a.thread])
    ensures !w'.forwards[a.thread].Opening? && !w'.forwards[a.thread].Rechecked?
  {
    hide CoreStep, TakeTurn;
  }

  lemma OpenMovesOn(w: World, a: Step, w': World)
    requires Opens(a) && OpenNext(w, a, w') && a.thread in w.forwards
    ensures MovesOn(a, w.forwards[a.thread], w'.forwards[a.thread])
  {
    hide LockFree, LiveRelay, Authority, Attached, Authorises;
  }

  lemma TalkMovesOn(w: World, a: Step, w': World)
    requires Talks(a) && TalkNext(w, a, w')
    ensures a.thread in w.forwards && MovesOn(a, w.forwards[a.thread], w'.forwards[a.thread])
    ensures !w'.forwards[a.thread].Opening? && !w'.forwards[a.thread].Rechecked?
  {
    hide X.Enabled, X.Do, X.Closed;
  }

  lemma ThreadMovesOn(cfg: Config, w: World, a: Step, w': World)
    requires WorldNext(cfg, w, a, w') && ThreadOf(a).Some? && a.thread in w.forwards
    ensures a.thread in w'.forwards && MovesOn(a, w.forwards[a.thread], w'.forwards[a.thread])
  {
    hide LockedNext, OpenNext, TalkNext, CloseNext, MovesOn, CoreStep;
    StepShape(cfg, w, a, w');
    if Locks(a) { LockedMovesOn(cfg, w, a, w'); }
    else if Opens(a) { OpenMovesOn(w, a, w'); }
    else { TalkMovesOn(w, a, w'); }
  }

  /** A thread starts on an accepted request, at the object that is attached then. */
  lemma ThreadStarts(cfg: Config, w: World, a: Step, w': World, q: nat)
    requires WorldNext(cfg, w, a, w') && q !in w.forwards && q in w'.forwards
    ensures a == Find(q) && q in w.accepted && w.accepted[q] in w.core.bindings
    ensures w'.forwards[q] == Found(Ref(w.accepted[q], w.core.bindings[w.accepted[q]].serial))
  {
    hide CoreStep, LockedNext, TalkNext, CloseNext;
    StepShape(cfg, w, a, w');
    if Locks(a) { LockedNextHas(cfg, w, a, w'); }
    else if Talks(a) { TalkMovesOn(w, a, w'); }
  }

  lemma LockedNextHas(cfg: Config, w: World, a: Step, w': World)
    requires Locks(a) && LockedNext(cfg, w, a, w')
    ensures a.Turn? || a.Mark? ==> a.thread in w.forwards
  {
  }

  lemma {:induction false} RankMonotone(cfg: Config, worlds: seq<World>, steps: seq<Step>, i: nat, j: nat, q: nat)
    requires WorldRun(cfg, worlds, steps) && i <= j < |worlds| && q in worlds[i].forwards
    ensures q in worlds[j].forwards && Rank(worlds[i].forwards[q]) <= Rank(worlds[j].forwards[q])
    decreases j - i
  {
    hide WorldNext, Rank, CoreStep;
    if i < j {
      RankMonotone(cfg, worlds, steps, i, j - 1, q);
      StepShape(cfg, worlds[j - 1], steps[j - 1], worlds[j]);
      if ThreadOf(steps[j - 1]) == Some(q) {
        ThreadMovesOn(cfg, worlds[j - 1], steps[j - 1], worlds[j]);
      }
    }
  }
}
