/** The multiplexed relay session: registering, abandoning, delivering and closing, interleaved at the
    granularity of its pending-map mutex. Registration is two steps because the closed flag is set
    without that mutex, so a close can fall between the look at the flag and the insertion. */
module RelayExchange {
  import BrokerCore
  import opened Options

  const MAX_ABANDONED: nat := 4096

  datatype Key = Key(bindingID: BrokerCore.Name, generation: nat, requestID: BrokerCore.Name, sequence: nat)

  datatype Outcome = Response(key: Key, frame: nat) | Failed

  datatype Phase = Open | Flagged | Swept

  /** `pending` maps a request to its result channel. `registering` is a registration inside the mutex
      that has found the session open. `inflight` holds results taken out of `pending` and not yet
      sent, `sent` every result ever sent on a channel, `left` the channels whose waiter gave up.
      Channels are numbered in the order they are made and `owner` is the request of each. */
  datatype Session = Session(
    pending: map<Key, nat>,
    abandoned: set<Key>,
    phase: Phase,
    registering: Option<(Key, nat)>,
    inflight: map<nat, Outcome>,
    sent: map<nat, Outcome>,
    left: set<nat>,
    owner: seq<Key>)

  const START: Session := Session(map[], {}, Open, None, map[], map[], {}, [])

  datatype Step =
    | BeginRegister(key: Key)
    | EndRegister
    | Abandon(key: Key, channel: nat)
    | Deliver(key: Key, frame: nat, valid: bool)
    | Send(channel: nat)
    | Flag
    | Sweep

  /** The session's closed flag. */
  predicate Closed(s: Session) { s.phase != Open }

  function Remove(pending: map<Key, nat>, key: Key): map<Key, nat> { pending - {key} }

  /** Whether a step can be taken: steps inside the mutex wait for a registration to leave it, a
      registration is refused when the session is closed or the identity is known, closing happens
      once, and a send needs a result to send. */
  predicate Enabled(s: Session, a: Step) {
    match a
    case BeginRegister(key) => s.registering.None? && !Closed(s) && key !in s.pending && key !in s.abandoned
    case EndRegister => s.registering.Some?
    case Abandon(key, channel) => s.registering.None? && channel < |s.owner|
    case Deliver(key, frame, valid) => s.registering.None?
    case Send(channel) => channel in s.inflight
    case Flag => s.phase == Open
    case Sweep => s.phase == Flagged && s.registering.None?
  }

  /** Every result of a close has been sent. */
  predicate CloseTold(s: Session) {
    forall c | c in s.inflight :: s.inflight[c] != Failed
  }

  function Swap(pending: map<Key, nat>): map<nat, Outcome> {
    map c | c in pending.Values :: Failed
  }

  function Do(s: Session, a: Step): Session
    requires Enabled(s, a)
  {
    match a
    case BeginRegister(key) => s.(registering := Some((key, |s.owner|)), owner := s.owner + [key])
    case EndRegister => s.(registering := None, pending := s.pending[s.registering.value.0 := s.registering.value.1])
    case Abandon(key, channel) =>
      var gone := s.(left := s.left + {channel});
      if key !in s.pending || s.pending[key] != channel then gone
      else if |s.abandoned| >= MAX_ABANDONED then gone.(pending := Remove(s.pending, key))
      else gone.(pending := Remove(s.pending, key), abandoned := s.abandoned + {key})
    case Deliver(key, frame, valid) =>
      if key in s.abandoned then s.(abandoned := s.abandoned - {key})
      else if key in s.pending && valid then
        s.(pending := Remove(s.pending, key), inflight := s.inflight[s.pending[key] := Response(key, frame)])
      else s
    case Send(channel) => s.(inflight := s.inflight - {channel}, sent := s.sent[channel := s.inflight[channel]])
    case Flag => s.(phase := Flagged)
    case Sweep => s.(phase := Swept, pending := map[], abandoned := {}, inflight := s.inflight + Swap(s.pending))
  }

  // ---------------------------------------------------------------- invariant

  /** Every pending channel belongs to its request, so no two requests share one. */
  ghost predicate PendingOk(pending: map<Key, nat>, owner: seq<Key>) {
    forall k | k in pending :: pending[k] < |owner| && owner[pending[k]] == k
  }

  /** A result on its way or sent is for the request that made the channel. */
  ghost predicate AddressedOk(results: map<nat, Outcome>, owner: seq<Key>) {
    forall c | c in results :: c < |owner| && (results[c].Response? ==> results[c].key == owner[c])
  }

  /** No channel is in two places. */
  ghost predicate Apart(s: Session) {
    && s.inflight.Keys !! s.sent.Keys
    && (forall k | k in s.pending :: s.pending[k] !in s.inflight && s.pending[k] !in s.sent)
    && (s.registering.Some? ==> var c := s.registering.value.1;
          c !in s.inflight && c !in s.sent && c < |s.owner| && s.owner[c] == s.registering.value.0)
    && (s.registering.Some? ==> s.registering.value.0 !in s.pending && s.registering.value.0 !in s.abandoned)
  }

  predicate Waiting(s: Session, c: nat) {
    || (c < |s.owner| && s.owner[c] in s.pending && s.pending[s.owner[c]] == c)
    || (s.registering.Some? && s.registering.value.1 == c)
  }

  /** Every channel ever made is waiting, has a result on its way or sent, or was given up. */
  ghost predicate Accounted(s: Session) {
    forall c: nat | c < |s.owner| :: Waiting(s, c) || c in s.inflight || c in s.sent || c in s.left
  }

  ghost predicate Valid(s: Session) {
    && PendingOk(s.pending, s.owner)
    && AddressedOk(s.inflight, s.owner) && AddressedOk(s.sent, s.owner)
    && s.pending.Keys !! s.abandoned && |s.abandoned| <= MAX_ABANDONED
    && Apart(s) && Accounted(s)
    && (s.phase == Swept ==> s.pending == map[] && s.abandoned == {} && s.registering.None?)
  }

  lemma SweepKeeps(s: Session)
    requires Valid(s) && Enabled(s, Sweep)
    ensures Valid(Do(s, Sweep))
  {
    var s' := Do(s, Sweep);
    forall c: nat | c < |s'.owner| ensures Waiting(s', c) || c in s'.inflight || c in s'.sent || c in s'.left {
      if Waiting(s, c) {
        assert s.pending[s.owner[c]] in s.pending.Values;
      }
    }
    assert forall c | c in s.pending.Values :: exists k :: k in s.pending && s.pending[k] == c;
  }

  lemma RegisterKeeps(s: Session, a: Step)
    requires Valid(s) && Enabled(s, a) && (a.BeginRegister? || a.EndRegister?)
    ensures Valid(Do(s, a))
  {
    var s' := Do(s, a);
    forall c: nat | c < |s'.owner| ensures Waiting(s', c) || c in s'.inflight || c in s'.sent || c in s'.left {
      if c < |s.owner| {
        assert Waiting(s, c) || c in s.inflight || c in s.sent || c in s.left;
      }
    }
  }

  lemma AbandonAccounted(s: Session, a: Step)
    requires Accounted(s) && Enabled(s, a) && a.Abandon?
    ensures Accounted(Do(s, a))
  {
    var s' := Do(s, a);
    forall c: nat | c < |s'.owner| ensures Waiting(s', c) || c in s'.inflight || c in s'.sent || c in s'.left {
      assert Waiting(s, c) || c in s.inflight || c in s.sent || c in s.left;
    }
  }

  lemma AbandonApart(s: Session, a: Step)
    requires Apart(s) && Enabled(s, a) && a.Abandon?
    ensures Apart(Do(s, a))
  {
  }

  lemma AbandonKeeps(s: Session, a: Step)
    requires Valid(s) && Enabled(s, a) && a.Abandon?
    ensures Valid(Do(s, a))
  {
    AbandonAccounted(s, a);
    AbandonApart(s, a);
    hide Accounted, Apart, AddressedOk;
  }

  lemma DeliverKeeps(s: Session, a: Step)
    requires Valid(s) && Enabled(s, a) && a.Deliver?
    ensures Valid(Do(s, a))
  {
    var s' := Do(s, a);
    forall c: nat | c < |s'.owner| ensures Waiting(s', c) || c in s'.inflight || c in s'.sent || c in s'.left {
      assert Waiting(s, c) || c in s.inflight || c in s.sent || c in s.left;
    }
  }

  lemma SendKeeps(s: Session, a: Step)
    requires Valid(s) && Enabled(s, a) && (a.Send? || a.Flag?)
    ensures Valid(Do(s, a))
  {
    var s' := Do(s, a);
    forall c: nat | c < |s'.owner| ensures Waiting(s', c) || c in s'.inflight || c in s'.sent || c in s'.left {
      assert Waiting(s, c) || c in s.inflight || c in s.sent || c in s.left;
    }
  }

  lemma StepKeeps(s: Session, a: Step)
    requires Valid(s) && Enabled(s, a)
    ensures Valid(Do(s, a))
  {
    hide Valid, Do;
    match a
    case Sweep => SweepKeeps(s);
    case BeginRegister(_) => RegisterKeeps(s, a);
    case EndRegister => RegisterKeeps(s, a);
    case Abandon(_, _) => AbandonKeeps(s, a);
    case Deliver(_, _, _) => DeliverKeeps(s, a);
    case Send(_) => SendKeeps(s, a);
    case Flag => SendKeeps(s, a);
  }

  // ---------------------------------------------------------------- runs

  ghost predicate Run(states: seq<Session>, steps: seq<Step>) {
    && |states| == |steps| + 1 && states[0] == START
    && (forall i | 0 <= i < |steps| :: Enabled(states[i], steps[i]) && states[i + 1] == Do(states[i], steps[i]))
  }

  lemma {:induction false} RunValid(states: seq<Session>, steps: seq<Step>, i: nat)
    requires Run(states, steps) && i < |states|
    ensures Valid(states[i])
  {
    if i > 0 {
      hide Valid, Do, Enabled;
      RunValid(states, steps, i - 1);
      StepKeeps(states[i - 1], steps[i - 1]);
    }
  }

  lemma SentStays(s: Session, a: Step, c: nat)
    requires Enabled(s, a) && c in s.sent
    ensures c in Do(s, a).sent
  {
  }

  /** A session once closed stays closed, and channels keep their owners. */
  lemma StepGrows(s: Session, a: Step)
    requires Enabled(s, a)
    ensures Closed(s) ==> Closed(Do(s, a))
    ensures s.owner <= Do(s, a).owner
  {
  }

  /** A result once sent on a channel is the channel's result for good. */
  lemma ResultStays(s: Session, a: Step, c: nat)
    requires Valid(s) && Enabled(s, a) && c in s.sent
    ensures c in Do(s, a).sent && Do(s, a).sent[c] == s.sent[c]
  {
    hide PendingOk, AddressedOk, Accounted;
  }

  lemma {:induction false} SentForever(states: seq<Session>, steps: seq<Step>, i: nat, j: nat, c: nat)
    requires Run(states, steps) && i <= j < |states| && c in states[i].sent
    ensures c in states[j].sent
    decreases j - i
  {
    if i < j {
      hide Do, Enabled;
      SentForever(states, steps, i, j - 1, c);
      SentStays(states[j - 1], steps[j - 1], c);
    }
  }

  /** A channel is sent to at most once in any run, so a buffer of one result never makes a sender wait. */
  lemma OneResult(states: seq<Session>, steps: seq<Step>, i: nat, j: nat, c: nat)
    requires Run(states, steps) && i < j < |steps| && steps[i] == Send(c)
    ensures c !in states[i].sent && c in states[i + 1].sent
    ensures steps[j] != Send(c)
  {
    hide PendingOk, AddressedOk, Accounted;
    RunValid(states, steps, i);
    RunValid(states, steps, j);
    SentForever(states, steps, i + 1, j, c);
  }

  // ---------------------------------------------------------------- where a result comes from

  /** The result decided for a channel, on its way or sent. */
  function ResultOf(s: Session, c: nat): Option<Outcome> {
    if c in s.sent then Some(s.sent[c]) else if c in s.inflight then Some(s.inflight[c]) else None
  }

  /** The result a step decides for a channel: a valid response to the request pending on it is that response,
      and the sweep of a close reports the close to whoever is pending. */
  function Decides(s: Session, a: Step, c: nat): Option<Outcome> {
    match a
    case Deliver(key, frame, valid) =>
      if valid && key in s.pending && s.pending[key] == c then Some(Response(key, frame)) else None
    case Sweep => if exists k :: k in s.pending && s.pending[k] == c then Some(Failed) else None
    case _ => None
  }

  lemma SweepDecides(s: Session, c: nat)
    requires Enabled(s, Sweep)
    ensures c in Swap(s.pending) <==> exists k :: k in s.pending && s.pending[k] == c
  {
  }

  /** A result appears with the step that decides it and never changes, and only where there was none. */
  lemma DecidedExactly(s: Session, a: Step, c: nat)
    requires Valid(s) && Enabled(s, a)
    ensures ResultOf(Do(s, a), c) == if Decides(s, a, c).Some? then Decides(s, a, c) else ResultOf(s, c)
    ensures Decides(s, a, c).Some? ==> ResultOf(s, c).None?
  {
    hide PendingOk, AddressedOk, Accounted;
    if a.Sweep? {
      SweepDecides(s, c);
      hide Swap;
    }
  }

  /** Results go out one `Send` each, and nothing else sends. */
  lemma SentExactly(s: Session, a: Step, c: nat)
    requires Valid(s) && Enabled(s, a)
    ensures c in Do(s, a).sent <==> c in s.sent || a == Send(c)
    ensures a == Send(c) ==> c in s.inflight && c !in s.sent && c !in Do(s, a).inflight
  {
    hide PendingOk, AddressedOk, Accounted;
  }

  /** The step takes the request off the pending map: its waiter gives it up, it is answered, or the session
      is swept. */
  predicate Unpends(s: Session, a: Step, k: Key) {
    k in s.pending &&
    match a
    case Abandon(key, channel) => key == k && channel == s.pending[k]
    case Deliver(key, _, valid) => key == k && valid
    case Sweep => true
    case _ => false
  }

  /** What is pending after a step, exactly, and on which channel. */
  lemma PendingExactly(s: Session, a: Step, k: Key)
    requires Valid(s) && Enabled(s, a)
    ensures k in Do(s, a).pending <==>
      (k in s.pending && !Unpends(s, a, k)) || (a.EndRegister? && s.registering.value.0 == k)
    ensures k in s.pending && k in Do(s, a).pending ==> Do(s, a).pending[k] == s.pending[k]
    ensures k !in s.pending && k in Do(s, a).pending ==> Do(s, a).pending[k] == s.registering.value.1
  {
    hide PendingOk, AddressedOk, Accounted;
  }

  /** Which given-up requests are remembered, so that a late response to one is dropped: those given up with
      room in the set, until the response comes or the session is swept. */
  lemma AbandonedExactly(s: Session, a: Step, k: Key)
    requires Valid(s) && Enabled(s, a)
    ensures k in Do(s, a).abandoned <==>
      || (k in s.abandoned && !(a.Deliver? && a.key == k) && !a.Sweep?)
      || (a.Abandon? && a.key == k && Unpends(s, a, k) && |s.abandoned| < MAX_ABANDONED)
  {
    hide PendingOk, AddressedOk, Accounted;
  }

  /** A registration that finds the session open gets a channel of its own, under its own name. */
  lemma RegistersExactly(s: Session, a: Step)
    requires Valid(s) && Enabled(s, a)
    ensures a.BeginRegister? ==>
      Do(s, a).owner == s.owner + [a.key] && Do(s, a).registering == Some((a.key, |s.owner|))
    ensures !a.BeginRegister? ==> Do(s, a).owner == s.owner
    ensures a.EndRegister? ==> Do(s, a).registering.None?
    ensures !a.BeginRegister? && !a.EndRegister? ==> Do(s, a).registering == s.registering
    ensures Do(s, a).left == if a.Abandon? then s.left + {a.channel} else s.left
    ensures Do(s, a).phase == if a.Flag? then Flagged else if a.Sweep? then Swept else s.phase
  {
  }

  lemma {:induction false} DecidedForGood(states: seq<Session>, steps: seq<Step>, i: nat, j: nat, c: nat)
    requires Run(states, steps) && i <= j < |states| && ResultOf(states[i], c).Some?
    ensures ResultOf(states[j], c) == ResultOf(states[i], c)
    decreases j - i
  {
    hide Valid, Do, Enabled, ResultOf, Decides;
    if i < j {
      DecidedForGood(states, steps, i, j - 1, c);
      RunValid(states, steps, j - 1);
      DecidedExactly(states[j - 1], steps[j - 1], c);
    }
  }

  lemma {:induction false} DecidedBefore(states: seq<Session>, steps: seq<Step>, j: nat, c: nat) returns (i: nat)
    requires Run(states, steps) && j < |states| && ResultOf(states[j], c).Some?
    ensures i < j && Decides(states[i], steps[i], c) == ResultOf(states[j], c)
  {
    hide Valid, Do, Enabled, Decides;
    assert j > 0;
    RunValid(states, steps, j - 1);
    DecidedExactly(states[j - 1], steps[j - 1], c);
    hide ResultOf;
    if Decides(states[j - 1], steps[j - 1], c).Some? {
      i := j - 1;
    } else {
      i := DecidedBefore(states, steps, j - 1, c);
    }
  }

  /** A result goes back to exactly one step of the run: a response to a valid delivery of that frame, taken
      while its request was pending on the channel, and a failure to the sweep of the close. */
  lemma ResultOrigin(states: seq<Session>, steps: seq<Step>, j: nat, c: nat) returns (i: nat)
    requires Run(states, steps) && j < |states| && c in states[j].sent
    ensures i < j && Decides(states[i], steps[i], c) == Some(states[j].sent[c])
    ensures forall n: nat | n < |steps| && n != i :: Decides(states[n], steps[n], c).None?
  {
    i := DecidedBefore(states, steps, j, c);
    hide Valid, Do, Enabled, Decides, ResultOf;
    forall n: nat | n < |steps| && n != i ensures Decides(states[n], steps[n], c).None? {
      RunValid(states, steps, n);
      RunValid(states, steps, i);
      DecidedExactly(states[n], steps[n], c);
      DecidedExactly(states[i], steps[i], c);
      if n < i && Decides(states[n], steps[n], c).Some? {
        DecidedForGood(states, steps, n + 1, i, c);
      } else if i < n {
        DecidedForGood(states, steps, i + 1, n, c);
      }
    }
  }

  /** Whatever is received on a channel answers the request registered with it, or reports the close. */
  lemma ResultForItsOwner(states: seq<Session>, steps: seq<Step>, i: nat, c: nat)
    requires Run(states, steps) && i < |states| && c in states[i].sent
    ensures c < |states[i].owner|
    ensures states[i].sent[c] == Failed || states[i].sent[c].key == states[i].owner[c]
  {
    RunValid(states, steps, i);
  }

  lemma SweptStep(s: Session, a: Step)
    requires Valid(s) && Enabled(s, a) && s.phase == Swept
    ensures Do(s, a).phase == Swept && |Do(s, a).owner| == |s.owner|
  {
  }

  /** Once the results of a close are out there are no further ones. */
  lemma ToldStays(s: Session, a: Step)
    requires Valid(s) && Enabled(s, a) && s.phase == Swept && CloseTold(s)
    ensures CloseTold(Do(s, a))
  {
    hide PendingOk, AddressedOk, Accounted, Apart;
  }

  /** A closed session with its results out: every request ever registered with it has its result, has
      a response on its way, or had given up. */
  lemma ClosedAccounts(s: Session, c: nat)
    requires Valid(s) && s.phase == Swept && CloseTold(s) && c < |s.owner|
    ensures c in s.sent || (c in s.inflight && s.inflight[c].Response?) || c in s.left
  {
    assert Waiting(s, c) || c in s.inflight || c in s.sent || c in s.left;
  }

  /** After the sweep of a close nothing is pending or abandoned, and nothing is registered, ever again. */
  lemma {:induction false} EmptyAfterClose(states: seq<Session>, steps: seq<Step>, i: nat, j: nat)
    requires Run(states, steps) && i <= j < |states| && states[i].phase == Swept
    ensures states[j].phase == Swept && states[j].pending == map[] && states[j].abandoned == {}
    ensures |states[j].owner| == |states[i].owner|
    decreases j - i
  {
    hide Do, Enabled, PendingOk, AddressedOk, Apart, Accounted;
    RunValid(states, steps, j);
    if i < j {
      EmptyAfterClose(states, steps, i, j - 1);
      RunValid(states, steps, j - 1);
      SweptStep(states[j - 1], steps[j - 1]);
    }
  }

  /** A close strands nobody: once its results are out, every request ever registered, those that raced
      with the close included, has its one result or had given up. */
  lemma NobodyStranded(states: seq<Session>, steps: seq<Step>, i: nat, c: nat)
    requires Run(states, steps) && i < |states| && states[i].phase == Swept && states[i].inflight == map[]
    requires c < |states[i].owner|
    ensures c in states[i].sent || c in states[i].left
  {
    RunValid(states, steps, i);
    assert Waiting(states[i], c) || c in states[i].inflight || c in states[i].sent || c in states[i].left;
  }

  // ---------------------------------------------------------------- closing can always be finished

  /** Steps taken one after the other from any session. */
  ghost predicate Path(states: seq<Session>, steps: seq<Step>) {
    && |states| == |steps| + 1
    && (forall i | 0 <= i < |steps| :: Enabled(states[i], steps[i]) && states[i + 1] == Do(states[i], steps[i]))
  }

  lemma Prepend(s: Session, a: Step, states: seq<Session>, steps: seq<Step>)
    requires Path(states, steps) && Enabled(s, a) && states[0] == Do(s, a)
    ensures Path([s] + states, [a] + steps)
  {
    hide Enabled, Do;
    forall i | 0 <= i < |steps| + 1
      ensures Enabled(([s] + states)[i], ([a] + steps)[i])
      ensures ([s] + states)[i + 1] == Do(([s] + states)[i], ([a] + steps)[i])
    {
      if i > 0 { assert ([s] + states)[i] == states[i - 1] && ([a] + steps)[i] == steps[i - 1]; }
    }
  }

  /** The steps of the closing thread, and of a registration it waits for. */
  predicate Finishing(a: Step) { a.EndRegister? || a.Sweep? || a.Send? }

  lemma {:induction false} SendAll(s: Session) returns (states: seq<Session>, steps: seq<Step>)
    requires s.phase == Swept
    ensures Path(states, steps) && states[0] == s && states[|steps|].phase == Swept && states[|steps|].inflight == map[]
    ensures forall i | 0 <= i < |steps| :: Finishing(steps[i])
    decreases |s.inflight|
  {
    if s.inflight == map[] {
      states, steps := [s], [];
    } else {
      var c :| c in s.inflight;
      var s' := Do(s, Send(c));
      assert s'.inflight.Keys == s.inflight.Keys - {c};
      assert |s'.inflight.Keys| < |s.inflight.Keys|;
      states, steps := SendAll(s');
      Prepend(s, Send(c), states, steps);
      states, steps := [s] + states, [Send(c)] + steps;
    }
  }

  /** Once a session's closed flag is set its close can be finished, by the closing thread and a registration
      that is under way alone: the session is swept and every result is out. */
  lemma CloseCanFinish(s: Session) returns (states: seq<Session>, steps: seq<Step>)
    requires Closed(s) && (s.phase == Swept ==> s.registering.None?)
    ensures Path(states, steps) && states[0] == s && states[|steps|].phase == Swept && states[|steps|].inflight == map[]
    ensures forall i | 0 <= i < |steps| :: Finishing(steps[i])
  {
    if s.phase == Swept {
      states, steps := SendAll(s);
    } else if s.registering.None? {
      states, steps := SendAll(Do(s, Sweep));
      Prepend(s, Sweep, states, steps);
      states, steps := [s] + states, [Sweep] + steps;
    } else {
      var s' := Do(s, EndRegister);
      states, steps := SendAll(Do(s', Sweep));
      Prepend(s', Sweep, states, steps);
      Prepend(s, EndRegister, [s'] + states, [Sweep] + steps);
      states, steps := [s] + ([s'] + states), [EndRegister] + ([Sweep] + steps);
    }
  }

  lemma {:induction false} FlaggedBefore(states: seq<Session>, steps: seq<Step>, j: nat) returns (i: nat)
    requires Run(states, steps) && j < |states| && Closed(states[j])
    ensures i < j && steps[i] == Flag
  {
    if Closed(states[j - 1]) {
      i := FlaggedBefore(states, steps, j - 1);
    } else {
      i := j - 1;
    }
  }

  /** A session is swept only after its closed flag was set, so a registration that begins after the sweep is
      refused. */
  lemma {:induction false} FlagThenSweep(states: seq<Session>, steps: seq<Step>, j: nat) returns (i: nat, k: nat)
    requires Run(states, steps) && j < |states| && states[j].phase == Swept
    ensures i < k < j && steps[i] == Flag && steps[k] == Sweep
  {
    if states[j - 1].phase == Swept {
      i, k := FlagThenSweep(states, steps, j - 1);
    } else {
      k := j - 1;
      i := FlaggedBefore(states, steps, j - 1);
    }
  }
}
