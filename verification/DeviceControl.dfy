/** The generation-fenced device-control context of one tool session, and the activation manifests. */
module DeviceControl {
  import opened Options

  type ID(==, !new)

  datatype Reply<+T> = Ok(value: T) | Err

  const MAX_GENERATION: nat := 0x7FFF_FFFF_FFFF_FFFF
  const MAX_ACTIVE_GENERATION: nat := MAX_GENERATION - 1
  const SECOND: int := 1_000_000_000
  const MAX_LEASE: int := 330 * SECOND

  datatype Capability =
    | AdaptiveSettleV2 | ApplicationLaunchV1 | AxStateV2 | ClipboardPayloadV2
    | GlobalClipboardV1 | ObservationModeV2 | SessionFullTrustV1 | OtherCapability(text: string)

  const REQUIRED_V2: seq<Capability> := [AdaptiveSettleV2, AxStateV2, ObservationModeV2]
  const LEGACY_V2: seq<Capability> := [AdaptiveSettleV2, AxStateV2, ClipboardPayloadV2, ObservationModeV2]
  const FULL_V2: seq<Capability> :=
    [AdaptiveSettleV2, ApplicationLaunchV1, AxStateV2, ClipboardPayloadV2, GlobalClipboardV1, ObservationModeV2,
      SessionFullTrustV1]

  datatype Mode = NoMode | PerApplicationApproval | SessionFullTrust | OtherMode

  /** A capability list is tied to the authorisation mode. */
  predicate ValidCapabilities(mode: Mode, policy: int, capabilities: seq<Capability>) {
    policy == 1 &&
    match mode
    case PerApplicationApproval => capabilities == [] || capabilities == REQUIRED_V2 || capabilities == LEGACY_V2
    case SessionFullTrust => capabilities == FULL_V2
    case _ => false
  }

  /** Everything that must not change within a generation. */
  datatype Binding = Binding(mode: Mode, policy: int, user: ID, device: ID, tool: ID, session: ID, node: ID,
      macos: bool)

  /** `lease` is none when the stored timestamp does not parse. */
  datatype Context = Context(
    binding: Binding, generation: nat, capabilities: seq<Capability>, lease: Option<int>,
    nextSequence: nat, screenshot: nat, state: nat)

  /** A context update as received; `canonical` says its five identifiers are canonical UUIDs. */
  datatype Payload = Payload(
    protocol: int, binding: Binding, canonical: bool, generation: nat, capabilities: seq<Capability>,
      lease: Option<int>)

  /** A context that omits both authorisation fields is read as per-application approval, version 1. */
  function Normalized(b: Binding): Binding {
    if b.mode == NoMode && b.policy == 0 then b.(mode := PerApplicationApproval, policy := 1) else b
  }

  function Decode(p: Payload, now: int): Option<Context> {
    var b := Normalized(p.binding);
    if p.protocol != 1 || !p.canonical || !b.macos
       || !((b.mode == PerApplicationApproval || b.mode == SessionFullTrust) && b.policy == 1)
       || p.generation == 0 || p.generation > MAX_ACTIVE_GENERATION
       || !ValidCapabilities(b.mode, b.policy, p.capabilities)
       || p.lease.None? || p.lease.value <= now || p.lease.value > now + MAX_LEASE
    then None
    else Some(Context(b, p.generation, p.capabilities, p.lease, 1, 0, 0))
  }

  /** A payload decodes exactly when it is of protocol 1 with canonical identifiers, binds a macOS device in a
      mode of policy 1 with the capabilities of that mode, and has a live generation and a lease that ends
      within the next 330 seconds; a payload without mode and policy asks for per-application approval. */
  lemma DecodesExactly(p: Payload, now: int, c: Context)
    ensures Decode(p, now) == Some(c) <==>
      && p.protocol == 1 && p.canonical && p.binding.macos
      && (c.binding == p.binding ||
          (p.binding.mode == NoMode && p.binding.policy == 0 &&
           c.binding == p.binding.(mode := PerApplicationApproval, policy := 1)))
      && ValidCapabilities(c.binding.mode, c.binding.policy, p.capabilities) && c.capabilities == p.capabilities
      && 0 < p.generation < MAX_GENERATION && c.generation == p.generation
      && p.lease.Some? && now < p.lease.value <= now + 330 * SECOND && c.lease == p.lease
      && (c.nextSequence, c.screenshot, c.state) == (1, 0, 0)
  {
  }

  /** Full trust of a session goes with its mode and with nothing else; every list has the three capabilities
      that the second version requires, or is the empty list of the first. */
  lemma CapabilitiesFollowMode(mode: Mode, policy: int, capabilities: seq<Capability>)
    requires ValidCapabilities(mode, policy, capabilities)
    ensures SessionFullTrustV1 in capabilities <==> mode == SessionFullTrust
    ensures ApplicationLaunchV1 in capabilities || GlobalClipboardV1 in capabilities ==> mode == SessionFullTrust
    ensures mode == SessionFullTrust || mode == PerApplicationApproval
    ensures forall x: Capability | x in REQUIRED_V2 && capabilities != [] :: x in capabilities
    ensures forall x | x in capabilities :: !x.OtherCapability?
    ensures mode == SessionFullTrust ==> ClipboardPayloadV2 in capabilities
  {
  }

  /** What a stored context must satisfy to be loaded. */
  predicate Loadable(c: Context) {
    0 < c.generation <= MAX_ACTIVE_GENERATION && c.nextSequence > 0 && c.binding.macos
    && ValidCapabilities(c.binding.mode, c.binding.policy, c.capabilities)
  }

  datatype Stored = NoFile | Unsafe | Saved(context: Context)

  function Load(f: Stored): Stored {
    match f
    case Saved(c) =>
      var read := c.(binding := Normalized(c.binding));
      if Loadable(read) then Saved(read) else Unsafe
    case _ => f
  }

  /** A stored context is read back, with its omitted mode filled in, exactly when its generation is live, it
      has drawn a sequence number, and it binds a macOS device with the capabilities of its mode; anything else
      is unsafe. */
  lemma LoadsExactly(f: Stored, c: Context)
    ensures Load(f) == Saved(c) <==>
      && f.Saved? && c == f.context.(binding := Normalized(f.context.binding))
      && 0 < c.generation < MAX_GENERATION && c.nextSequence >= 1 && c.binding.macos
      && ValidCapabilities(c.binding.mode, c.binding.policy, c.capabilities)
    ensures Load(f).NoFile? <==> f.NoFile?
  {
  }

  /** How writing the file ends: not at all, replaced but with an error from the directory sync, or done. */
  datatype Write = NotWritten | WrittenWithError | Written

  /** The managed session the file belongs to. */
  datatype Session = Session(tool: ID, user: ID, protocol: int)

  function Update(f: Stored, session: Session, p: Payload, now: int, w: Write): (Stored, Reply<Context>) {
    match Decode(p, now)
    case None => (f, Err)
    case Some(c) =>
      if session.protocol != 1 || session.tool != c.binding.tool || session.user != c.binding.user then (f, Err)
      else
        match Load(f)
        case Unsafe => (f, Err)
        case NoFile => Store(f, c, w)
        case Saved(current) =>
          if current.generation > c.generation then (f, Err)
          else if current.generation < c.generation then Store(f, c, w)
          else if current.binding != c.binding then (f, Err)
          else if current.capabilities != [] && current.capabilities != c.capabilities then (f, Err)
          else if current.lease.None? || c.lease.value < current.lease.value then (f, Err)
          else
            Store(f, c.(nextSequence := current.nextSequence, screenshot := current.screenshot,
              state := current.state), w)
  }

  function Store(f: Stored, c: Context, w: Write): (Stored, Reply<Context>) {
    (if w.NotWritten? then f else Saved(c), if w.Written? then Ok(c) else Err)
  }

  datatype ClearRequest = ClearRequest(session: ID, tool: ID, canonical: bool, generation: nat, inclusive: bool)

  /** The reply says whether a context was removed. */
  function Clear(f: Stored, session: Session, q: ClearRequest, removes: bool): (Stored, Reply<bool>) {
    if !q.canonical || q.generation == 0 || q.generation > MAX_GENERATION then (f, Err)
    else if session.protocol != 1 || session.tool != q.tool then (f, Err)
    else
      match Load(f)
      case NoFile => (f, Ok(false))
      case Unsafe => (f, Err)
      case Saved(current) =>
        if current.binding.tool != q.tool || current.binding.session != q.session then (f, Err)
        else if current.generation > q.generation || (!q.inclusive && current.generation == q.generation)
          then (f, Ok(false))
        else if !removes then (f, Err)
        else (NoFile, Ok(true))
  }

  // ---------------------------------------------------------------- the object

  /** The context file of one managed session. */
  class ContextFile {
    const session: Session
    var file: Stored

    constructor (s: Session)
      ensures session == s && file == NoFile
    {
      session, file := s, NoFile;
    }

    /** Accepted exactly when it decodes, belongs to the session, is written and may follow what is stored;
        whatever is stored afterwards may follow what was. */
    method UpdateContext(p: Payload, now: int, w: Write) returns (reply: Reply<Context>)
      modifies this
      ensures old(Clean(file)) ==> Clean(file)
      ensures old(Clean(file)) && old(file).Saved? ==> file.Saved? && Follows(old(file).context, file.context)
      ensures old(Clean(file)) ==> (reply.Ok? <==> Acceptable(old(file), session, p, now) && w.Written?)
      ensures reply.Ok? ==> file == Saved(reply.value) && reply.value.generation == p.generation
      ensures reply.Ok? ==> reply.value.lease.Some? && now < reply.value.lease.value <= now + 330 * SECOND
      ensures (file, reply) == Update(old(file), session, p, now, w)
    {
      UpdateMeans(file, session, p, now, w);
      var decoded := Decode(p, now);
      if decoded.None? { return Err; }
      var c := decoded.value;
      if session.protocol != 1 || session.tool != c.binding.tool || session.user != c.binding.user { return Err; }
      var loaded := Load(file);
      if loaded.Unsafe? { return Err; }
      if loaded.Saved? {
        var current := loaded.context;
        if current.generation > c.generation { return Err; }
        if current.generation == c.generation {
          if current.binding != c.binding { return Err; }
          if |current.capabilities| > 0 && current.capabilities != c.capabilities { return Err; }
          if current.lease.None? || c.lease.value < current.lease.value { return Err; }
          c := c.(nextSequence := current.nextSequence, screenshot := current.screenshot, state := current.state);
        }
      }
      if !w.NotWritten? { file := Saved(c); }
      reply := if w.Written? then Ok(c) else Err;
    }

    /** A clear succeeds exactly when it is well formed, belongs to the managed session and to the stored
        context, and removes what it names; it says whether there was something to remove, and leaves anything
        else as it was. */
    method ClearContext(q: ClearRequest, removes: bool) returns (reply: Reply<bool>)
      modifies this
      ensures file == old(file) || (file == NoFile && reply == Ok(true) && old(file).Saved?)
      ensures reply == Ok(true) ==> file == NoFile
      ensures old(Clean(file)) && reply.Ok? && file.Saved? ==>
        if q.inclusive then q.generation < file.context.generation else q.generation <= file.context.generation
      ensures old(Clean(file)) ==>
        && (reply.Ok? <==> Clearable(old(file), session, q, removes))
        && (reply == Ok(true) <==> reply.Ok? && old(file).Saved? && Names(q, old(file).context.generation))
      ensures (file, reply) == Clear(old(file), session, q, removes)
    {
      ClearMeans(file, session, q, removes);
      if !q.canonical || q.generation == 0 || q.generation > MAX_GENERATION { return Err; }
      if session.protocol != 1 || session.tool != q.tool { return Err; }
      var loaded := Load(file);
      if loaded.NoFile? { return Ok(false); }
      if loaded.Unsafe? { return Err; }
      var current := loaded.context;
      if current.binding.tool != q.tool || current.binding.session != q.session { return Err; }
      if current.generation > q.generation || (!q.inclusive && current.generation == q.generation) { return Ok(false); }
      if !removes { return Err; }
      file := NoFile;
      reply := Ok(true);
    }
  }

  // ---------------------------------------------------------------- traces

  /** `Advance` is the proxy inside the session moving its own counters on. */
  datatype Event =
    | DoUpdate(payload: Payload, now: int, write: Write)
    | DoClear(request: ClearRequest, removes: bool)
    | Advance(requests: nat, screenshots: nat, states: nat)

  function Apply(f: Stored, session: Session, e: Event): Stored {
    match e
    case DoUpdate(p, now, w) => Update(f, session, p, now, w).0
    case DoClear(q, removes) => Clear(f, session, q, removes).0
    case Advance(requests, screenshots, states) =>
      if f.Saved? then
        Saved(f.context.(nextSequence := f.context.nextSequence + requests,
                         screenshot := f.context.screenshot + screenshots, state := f.context.state + states))
      else f
  }

  ghost predicate Run(session: Session, files: seq<Stored>, events: seq<Event>) {
    && |files| == |events| + 1 && files[0] == NoFile
    && (forall i | 0 <= i < |events| :: files[i + 1] == Apply(files[i], session, events[i]))
  }

  /** A stored context that this code wrote: normalised, loadable, with a readable lease. */
  predicate Clean(f: Stored) {
    f.NoFile? || (f.Saved? && Loadable(f.context) && Normalized(f.context.binding) == f.context.binding
      && f.context.lease.Some?)
  }

  /** How a stored context may be followed by another with no removal between: a newer generation; or
      the same one with the same binding, a lease that did not move back, capabilities unchanged once
      set, and counters that were not reset. */
  predicate Follows(c: Context, c': Context)
    requires c.lease.Some? && c'.lease.Some?
  {
    || c.generation < c'.generation
    || (&& c.generation == c'.generation && c.binding == c'.binding && c.lease.value <= c'.lease.value
        && (c.capabilities != [] ==> c'.capabilities == c.capabilities)
        && c.nextSequence <= c'.nextSequence && c.screenshot <= c'.screenshot && c.state <= c'.state)
  }

  lemma StepFollows(f: Stored, session: Session, e: Event)
    requires Clean(f)
    ensures Clean(Apply(f, session, e))
    ensures f.Saved? && Apply(f, session, e).Saved? ==> Follows(f.context, Apply(f, session, e).context)
  {
    hide ValidCapabilities;
  }

  /** The decoded context with the proxy's counters of the stored one, within the same generation. */
  function Carried(f: Stored, c: Context): Context {
    if f.Saved? && f.context.generation == c.generation
    then c.(nextSequence := f.context.nextSequence, screenshot := f.context.screenshot, state := f.context.state)
    else c
  }

  /** The update decodes, belongs to the managed session and may follow what is stored. */
  predicate Acceptable(f: Stored, session: Session, p: Payload, now: int)
    requires Clean(f)
  {
    && Decode(p, now).Some?
    && session == Session(Decode(p, now).value.binding.tool, Decode(p, now).value.binding.user, 1)
    && (f.Saved? ==> Follows(f.context, Carried(f, Decode(p, now).value)))
  }

  /** An update is accepted exactly when it decodes, belongs to the managed session, is written, and may
      follow what is stored; it then replaces it, the counters carried over. */
  lemma UpdatesExactly(f: Stored, session: Session, p: Payload, now: int, w: Write)
    requires Clean(f)
    ensures var (f', reply) := Update(f, session, p, now, w);
            && (reply.Ok? <==> Acceptable(f, session, p, now) && w.Written?)
            && (reply.Ok? ==> reply.value == Carried(f, Decode(p, now).value) && f' == Saved(reply.value))
            && (w.NotWritten? ==> f' == f)
  {
    hide ValidCapabilities;
  }

  lemma UpdateMeans(f: Stored, session: Session, p: Payload, now: int, w: Write)
    ensures var (f', reply) := Update(f, session, p, now, w);
            && (Clean(f) ==> Clean(f') && (reply.Ok? <==> Acceptable(f, session, p, now) && w.Written?))
            && (Clean(f) && f.Saved? ==> f'.Saved? && Follows(f.context, f'.context))
            && (reply.Ok? ==> f' == Saved(reply.value) && reply.value.generation == p.generation)
            && (reply.Ok? ==> reply.value.lease.Some? && now < reply.value.lease.value <= now + 330 * SECOND)
  {
    UpdateKeepsFile(f, session, p, now, w);
    if Clean(f) {
      StepFollows(f, session, DoUpdate(p, now, w));
      UpdatesExactly(f, session, p, now, w);
    }
  }

  lemma UpdateKeepsFile(f: Stored, session: Session, p: Payload, now: int, w: Write)
    ensures var (f', reply) := Update(f, session, p, now, w);
            && (f.Saved? ==> f'.Saved?)
            && (reply.Ok? ==> f' == Saved(reply.value) && reply.value.generation == p.generation)
            && (reply.Ok? ==> reply.value.lease.Some? && now < reply.value.lease.value <= now + 330 * SECOND)
  {
    hide ValidCapabilities, Loadable;
  }

  lemma ClearMeans(f: Stored, session: Session, q: ClearRequest, removes: bool)
    ensures var (f', reply) := Clear(f, session, q, removes);
            && (f' == f || (f' == NoFile && reply == Ok(true) && f.Saved?)) && (reply == Ok(true) ==> f' == NoFile)
            && (Clean(f) && reply.Ok? && f'.Saved? ==>
                  if q.inclusive then q.generation < f'.context.generation else q.generation <= f'.context.generation)
            && (Clean(f) ==> (reply.Ok? <==> Clearable(f, session, q, removes)))
            && (Clean(f) ==> (reply == Ok(true) <==> reply.Ok? && f.Saved? && Names(q, f.context.generation)))
  {
    if Clean(f) {
      ClearsExactly(f, session, q, removes);
      if Clear(f, session, q, removes).1.Ok? { ClearFences(f, session, q, removes); }
    }
    hide ValidCapabilities, Loadable;
  }

  lemma {:induction false} RunClean(session: Session, files: seq<Stored>, events: seq<Event>, i: nat)
    requires Run(session, files, events) && i < |files|
    ensures Clean(files[i])
  {
    if i > 0 {
      hide Apply;
      RunClean(session, files, events, i - 1);
      StepFollows(files[i - 1], session, events[i - 1]);
    }
  }

  /** Between removals, (generation, lease) never decreases lexicographically; within a generation the
      binding is fixed, the proxy's counters are never reset, and the capabilities change at most once,
      from none. */
  lemma {:induction false} TraceFollows(session: Session, files: seq<Stored>, events: seq<Event>, i: nat, j: nat)
    requires Run(session, files, events) && i <= j < |files|
    requires forall k | i <= k <= j :: files[k].Saved?
    ensures Clean(files[i]) && Clean(files[j]) && Follows(files[i].context, files[j].context)
    decreases j - i
  {
    hide Apply, Loadable;
    RunClean(session, files, events, i);
    if i < j {
      TraceFollows(session, files, events, i, j - 1);
      StepFollows(files[j - 1], session, events[j - 1]);
    }
  }

  /** The clear names this generation: its own or an older one if it is inclusive, an older one if not. */
  predicate Names(q: ClearRequest, generation: nat) {
    if q.inclusive then generation <= q.generation else generation < q.generation
  }

  /** The clear is well formed, is for the managed session and for the stored context, and can remove it if it
      names it. */
  predicate Clearable(f: Stored, session: Session, q: ClearRequest, removes: bool) {
    && q.canonical && 0 < q.generation <= MAX_GENERATION && session.protocol == 1 && session.tool == q.tool
    && (f.Saved? ==>
          && f.context.binding.tool == q.tool && f.context.binding.session == q.session
          && (Names(q, f.context.generation) ==> removes))
  }

  /** When a clear succeeds and what it does, exactly. */
  lemma ClearsExactly(f: Stored, session: Session, q: ClearRequest, removes: bool)
    requires Clean(f)
    ensures var (f', reply) := Clear(f, session, q, removes);
            && (reply.Ok? <==> Clearable(f, session, q, removes))
            && (reply == Ok(true) <==> reply.Ok? && f.Saved? && Names(q, f.context.generation))
            && f' == if reply == Ok(true) then NoFile else f
  {
    hide ValidCapabilities;
  }

  /** A successful clear at `g` leaves nothing of generation `g` or older if it is inclusive, and nothing
      older than `g` if it is not; anything it leaves it leaves as it was. */
  lemma ClearFences(f: Stored, session: Session, q: ClearRequest, removes: bool)
    requires Clean(f) && Clear(f, session, q, removes).1.Ok?
    ensures var f' := Clear(f, session, q, removes).0;
            && (f'.Saved? ==> f' == f && (if q.inclusive then q.generation < f'.context.generation
              else q.generation <= f'.context.generation))
            && (Clear(f, session, q, removes).1.value <==> f.Saved? && f'.NoFile?)
  {
    hide ValidCapabilities;
  }

  /** An inclusive clear at the reserved terminal generation removes whatever this code stored. */
  lemma TerminalClearRemoves(session: Session, files: seq<Stored>, events: seq<Event>, i: nat, q: ClearRequest,
      removes: bool)
    requires Run(session, files, events) && i < |files| && q.generation == MAX_GENERATION && q.inclusive
    requires Clear(files[i], session, q, removes).1.Ok?
    ensures Clear(files[i], session, q, removes).0 == NoFile
  {
    RunClean(session, files, events, i);
    ClearFences(files[i], session, q, removes);
  }

  // ---------------------------------------------------------------- activation manifests

  /** An activation after decoding; `rest` stands for its remaining fields. */
  datatype Activation = Activation(session: ID, tool: ID, generation: nat, rest: ID)

  predicate ActiveRange(generation: nat) { 0 < generation <= MAX_ACTIVE_GENERATION }

  function Activate(m: map<ID, Activation>, a: Activation, writes: bool): (map<ID, Activation>, Reply<()>) {
    if a.session in m && m[a.session].generation > a.generation then (m, Err)
    else if a.session in m && m[a.session].generation == a.generation
      then (m, if m[a.session] == a then Ok(()) else Err)
    else if !writes then (m, Err)
    else (m[a.session := a], Ok(()))
  }

  function Deactivate(m: map<ID, Activation>, session: ID, tool: ID, generation: nat, removes: bool)
    : (map<ID, Activation>, Reply<bool>)
  {
    if session !in m then (m, Ok(false))
    else if m[session].tool != tool then (m, Err)
    else if m[session].generation > generation then (m, Ok(false))
    else if !removes then (m, Err)
    else (m - {session}, Ok(true))
  }

  /** A newer generation, or the very same activation. */
  predicate Renews(a: Activation, a': Activation) {
    a.generation < a'.generation || a' == a
  }

  class ManifestRoot {
    var manifests: map<ID, Activation>

    constructor ()
      ensures manifests == map[]
    {
      manifests := map[];
    }

    /** Success means that this very activation is stored. No session's manifest is lost or replaced by an
        older generation or by another activation of the same one, and a refusal changes nothing. */
    method ActivateGeneration(a: Activation, writes: bool) returns (reply: Reply<()>)
      modifies this
      ensures reply.Ok? <==>
        && (a.session in old(manifests) && a != old(manifests)[a.session] ==>
          old(manifests)[a.session].generation < a.generation)
        && (writes || (a.session in old(manifests) && a == old(manifests)[a.session]))
      ensures reply.Ok? ==> a.session in manifests && manifests[a.session] == a
      ensures reply.Err? ==> manifests == old(manifests)
      ensures forall id | id in old(manifests) :: id in manifests && Renews(old(manifests)[id], manifests[id])
      ensures forall id | id in manifests && id != a.session ::
        id in old(manifests) && manifests[id] == old(manifests)[id]
      ensures (manifests, reply) == Activate(old(manifests), a, writes)
    {
      if a.session in manifests {
        var current := manifests[a.session];
        if current.generation > a.generation { return Err; }
        if current.generation == a.generation {
          return if current != a then Err else Ok(());
        }
      }
      if !writes { return Err; }
      manifests := manifests[a.session := a];
      reply := Ok(());
    }

    /** Success leaves only newer generations of the session and says whether one was removed; nothing else is
        touched, and another tool's manifest is never removed. */
    method DeactivateGeneration(session: ID, tool: ID, generation: nat, removes: bool) returns (reply: Reply<bool>)
      modifies this
      ensures manifests == old(manifests) || manifests == old(manifests) - {session}
      ensures reply.Ok? && session in manifests ==> generation < manifests[session].generation
      ensures session in old(manifests) && session !in manifests ==>
        old(manifests)[session].tool == tool && old(manifests)[session].generation <= generation
      ensures reply == Ok(true) <==> session in old(manifests) && session !in manifests
      ensures reply.Ok? <==>
        (session in old(manifests) ==>
          && old(manifests)[session].tool == tool
          && (old(manifests)[session].generation <= generation ==> removes))
      ensures reply == Ok(true) <==>
        reply.Ok? && session in old(manifests) && old(manifests)[session].generation <= generation
      ensures (manifests, reply) == Deactivate(old(manifests), session, tool, generation, removes)
    {
      if session !in manifests { return Ok(false); }
      if manifests[session].tool != tool { return Err; }
      if manifests[session].generation > generation { return Ok(false); }
      if !removes { return Err; }
      manifests := manifests - {session};
      reply := Ok(true);
    }
  }

  datatype ManifestEvent =
    | DoActivate(activation: Activation, writes: bool)
    | DoDeactivate(session: ID, tool: ID, generation: nat, removes: bool)

  function ApplyManifest(m: map<ID, Activation>, e: ManifestEvent): map<ID, Activation> {
    match e
    case DoActivate(a, writes) => if ActiveRange(a.generation) then Activate(m, a, writes).0 else m
    case DoDeactivate(session, tool, generation, removes) => Deactivate(m, session, tool, generation, removes).0
  }

  ghost predicate ManifestRun(states: seq<map<ID, Activation>>, events: seq<ManifestEvent>) {
    && |states| == |events| + 1 && states[0] == map[]
    && (forall i | 0 <= i < |events| :: states[i + 1] == ApplyManifest(states[i], events[i]))
  }

  ghost predicate ManifestsOk(m: map<ID, Activation>) {
    forall id | id in m :: m[id].session == id && ActiveRange(m[id].generation)
  }

  lemma {:induction false} ManifestRunOk(states: seq<map<ID, Activation>>, events: seq<ManifestEvent>, i: nat)
    requires ManifestRun(states, events) && i < |states|
    ensures ManifestsOk(states[i])
    ensures forall id | id in states[i] :: states[i][id].session == id && 0 < states[i][id].generation < MAX_GENERATION
  {
    if i > 0 {
      ManifestRunOk(states, events, i - 1);
    }
  }

  /** Every live generation can be activated for a session that has none, and no other can. */
  lemma ActivatesLiveExactly(m: map<ID, Activation>, a: Activation)
    requires a.session !in m
    ensures ApplyManifest(m, DoActivate(a, true)) == if 0 < a.generation < MAX_GENERATION then m[a.session := a] else m
  {
  }

  /** Between deactivations the manifest of a device session only moves to newer generations, and within
      one generation it is the very same activation. */
  lemma {:induction false} ManifestMonotone(states: seq<map<ID, Activation>>, events: seq<ManifestEvent>, i: nat,
      j: nat, id: ID)
    requires ManifestRun(states, events) && i <= j < |states|
    requires forall k | i <= k <= j :: id in states[k]
    ensures states[i][id].generation <= states[j][id].generation
    ensures states[i][id].generation == states[j][id].generation ==> states[i][id] == states[j][id]
    decreases j - i
  {
    if i < j {
      ManifestMonotone(states, events, i, j - 1, id);
      ManifestRunOk(states, events, j - 1);
    }
  }

  /** Deactivation at `g` leaves only generations above `g` of that device session, touches no other, and
      at the reserved terminal generation removes any manifest that was ever validly activated. */
  lemma DeactivationFences(states: seq<map<ID, Activation>>, events: seq<ManifestEvent>, i: nat, session: ID, tool: ID,
      g: nat, removes: bool)
    requires ManifestRun(states, events) && i < |states|
    requires Deactivate(states[i], session, tool, g, removes).1.Ok?
    ensures var m := Deactivate(states[i], session, tool, g, removes).0;
            && (session in m ==> m[session] == states[i][session] && g < m[session].generation)
            && (forall id | id != session :: id in m <==> id in states[i])
            && (forall id | id != session && id in m :: m[id] == states[i][id])
            && (g == MAX_GENERATION ==> session !in m)
  {
    ManifestRunOk(states, events, i);
  }
}
