/** The exact-session attachment gateway: one admitted lease, a stream of frames, and a cleanup that
    happens exactly once whatever the stream does. */
module Attachments {
  import opened Bytes
  import opened Options

  type Id(==, !new)

  type Digest(==, !new)

  const MAX_BATCH_BYTES: int := 256 * 1024 * 1024
  const MAX_ENTRIES: int := 32

  // ---------------------------------------------------------------- the gateway and its environment

  /** The lease, its bounds and whether the rest of the gateway's configuration is present. */
  datatype Gateway = Gateway(complete: bool, session: Id, device: Id, lease: Id, maxBytes: int, maxEntries: int)

  predicate Authorized(g: Gateway) {
    g.complete && 0 < g.maxBytes <= MAX_BATCH_BYTES && 0 < g.maxEntries <= MAX_ENTRIES
  }

  /** The fields every frame carries; `formed` says that it decodes strictly and has the right version. */
  datatype Header = Header(formed: bool, session: Id, device: Id, lease: Id)

  /** An upload frame; `named` says that its batch, kind, leaf name and checksum have the required form. */
  datatype Upload = Upload(header: Header, named: bool, batch: Id, name: string, size: int, checksum: Digest)

  datatype Line = Ended | Unreadable | OverlongOrIncomplete | NotAFrame | OtherOperation
                | OpenLine(open: Header) | UploadLine(upload: Upload) | CleanupLine(clean: Header)

  /** What receiving a body meets: whether the directory and the file could be made, the bytes the stream
      still holds, how many of them the file takes before a write fails, the digest the hash reports, whether
      closing and removing the file work. */
  datatype Body = Body(
    prepared: bool, available: seq<Byte>, takes: nat, digest: Digest, closes: bool, removable: bool)

  /** One round of the loop: the clock, the line read, the body, the answer's fate and the context. */
  datatype Turn = Turn(expired: bool, line: Line, body: Body, answerFails: bool, cancelled: bool)

  type Tree = map<(Id, string), seq<Byte>>

  // ---------------------------------------------------------------- validation

  predicate Ours(g: Gateway, h: Header) {
    h.formed && h.session == g.session && h.device == g.device && h.lease == g.lease
  }

  /** The size test of an upload frame: a remaining budget that is not positive is not compared with. */
  predicate Admits(limit: int, total: int, size: int) {
    0 < size <= MAX_BATCH_BYTES && (limit - total > 0 ==> size <= limit - total)
  }

  predicate ValidUpload(g: Gateway, f: Upload, total: int, entries: int) {
    && Ours(g, f.header)
    && f.named
    && Admits(g.maxBytes, total, f.size)
    && 0 < g.maxEntries - entries <= MAX_ENTRIES
  }

  // ---------------------------------------------------------------- cleanup

  datatype Status = Cleaned | Pending | Unknown | Rejected

  datatype Receipt = Receipt(session: Id, device: Id, lease: Id, status: Status, removed: int, id: Id)

  predicate ValidReceipt(g: Gateway, r: Receipt) {
    r.session == g.session && r.device == g.device && r.lease == g.lease && 0 <= r.removed <= MAX_ENTRIES
  }

  datatype Hook = NoHook | Accepts | Fails

  /** What a cleanup meets: the removal with what it leaves behind when it fails, the receipt's two writes,
      the control plane's hook and the fresh receipt id. */
  datatype Closing = Closing(removes: bool, left: Tree, saves: bool, hook: Hook, savesAgain: bool, id: Id)

  /** Removes the lease's tree and issues the receipt. `written` holds the receipts that reached the disk.
      The receipt returned is the one on disk exactly when its own last write worked. */
  method Cleanup(g: Gateway, batches: set<Id>, tree: Tree, e: Closing)
    returns (receipt: Receipt, after: Tree, written: seq<Receipt>)
    ensures receipt.removed == if e.removes then |batches| else 0
    ensures |batches| <= MAX_ENTRIES ==> ValidReceipt(g, receipt)
    ensures receipt.status == Cleaned <==> e.removes && e.saves && e.hook != Fails
    ensures receipt.status == Unknown <==> e.hook == Fails
    ensures receipt.id == e.id && receipt.status != Rejected
    ensures after == if e.removes then map[] else map p | p in tree && p in e.left :: tree[p]
    ensures (written != [] && written[|written| - 1] == receipt) <==>
      (if e.hook == Fails then e.savesAgain else e.saves)
    ensures forall i | 0 <= i < |written| :: written[i].(status := receipt.status) == receipt
  {
    var status := Cleaned;
    var removed := 0;
    after := map[];
    if !e.removes {
      status := Pending;
      after := map p | p in tree && p in e.left :: tree[p];
    } else {
      removed := |batches|;
    }
    receipt := Receipt(g.session, g.device, g.lease, status, removed, e.id);
    written := [];
    if e.saves {
      written := [receipt];
    } else if status == Cleaned {
      receipt := receipt.(status := Pending);
    }
    if e.hook == Fails {
      if receipt.status != Rejected {
        receipt := receipt.(status := Unknown);
      }
      if e.savesAgain {
        written := written + [receipt];
      }
    }
  }

  // ---------------------------------------------------------------- the session

  datatype Action = Offered
                  | OpenAcked
                  | Stored(batch: Id, name: string, bytes: seq<Byte>)
                  | UploadAcked(acked: Id)
                  | CleanedUp(found: Tree, receipt: Receipt)
                  | ReceiptSent

  datatype State = State(first: bool, begun: bool, seen: set<Id>, total: int, tree: Tree, log: seq<Action>)

  /** How the loop goes on: another round, a return with or without an error, or the requested cleanup. */
  datatype Course = Again | Failed | Finished | CleanRequested

  function Received(f: Upload, b: Body): seq<Byte> {
    if 0 <= f.size <= |b.available| then b.available[..f.size] else b.available
  }

  /** What is in the file when copying stops. */
  function InFile(f: Upload, b: Body): seq<Byte> {
    if b.takes < |Received(f, b)| then Received(f, b)[..b.takes] else Received(f, b)
  }

  predicate BodyKept(f: Upload, b: Body) {
    f.size <= |b.available| && f.size <= b.takes && b.closes && b.digest == f.checksum
  }

  /** The tree after a body was received, kept or not. */
  function TreeAfter(tree: Tree, f: Upload, b: Body): Tree {
    if !b.prepared || (f.batch, f.name) in tree then tree
    else if BodyKept(f, b) || !b.removable then tree[(f.batch, f.name) := InFile(f, b)]
    else tree
  }

  predicate Receivable(tree: Tree, f: Upload, b: Body) {
    b.prepared && (f.batch, f.name) !in tree && BodyKept(f, b)
  }

  method ReceiveUpload(tree: Tree, f: Upload, b: Body) returns (ok: bool, after: Tree)
    ensures ok <==> Receivable(tree, f, b)
    ensures after == TreeAfter(tree, f, b)
  {
    if !b.prepared || (f.batch, f.name) in tree { return false, tree; }
    after := tree[(f.batch, f.name) := InFile(f, b)];
    if f.size > |b.available| || f.size > b.takes || !b.closes || b.digest != f.checksum {
      if b.removable { after := tree; }
      return false, after;
    }
    ok := true;
  }

  /** One frame, after the clock was looked at. */
  function Handle(g: Gateway, s: State, t: Turn): (State, Course) {
    match t.line
    case Ended => (s, Finished)
    case Unreadable => (s, Failed)
    case OverlongOrIncomplete => (s, Failed)
    case NotAFrame => (s, Failed)
    case OtherOperation => (s, Failed)
    case OpenLine(h) =>
      if !s.first || s.begun || !Ours(g, h) then (s, Failed)
      else
        var s' := s.(begun := true);
        if t.answerFails then (s', Failed)
        else (s'.(first := false, log := s.log + [OpenAcked]), if t.cancelled then Failed else Again)
    case UploadLine(f) =>
      if !s.begun || s.first || !ValidUpload(g, f, s.total, |s.seen|) || f.batch in s.seen then (s, Failed)
      else if !Receivable(s.tree, f, t.body) then (s.(tree := TreeAfter(s.tree, f, t.body)), Failed)
      else
        var stored := Stored(f.batch, f.name, Received(f, t.body));
        var s' := s.(seen := s.seen + {f.batch}, total := s.total + f.size, tree := TreeAfter(s.tree, f, t.body),
                     log := s.log + [stored]);
        if t.answerFails then (s', Failed)
        else (s'.(log := s'.log + [UploadAcked(f.batch)]), if t.cancelled then Failed else Again)
    case CleanupLine(h) =>
      if !s.begun || s.first || !Ours(g, h) then (s, Failed) else (s, CleanRequested)
  }

  /** The whole loop; a stream that says no more has ended. */
  function Drive(g: Gateway, s: State, turns: seq<Turn>): (State, Course)
    decreases |turns|
  {
    if turns == [] then (s, Finished)
    else if turns[0].expired then (s, Failed)
    else
      var (s', course) := Handle(g, s, turns[0]);
      if course == Again then Drive(g, s', turns[1..]) else (s', course)
  }

  function Start(tree: Tree): State {
    State(true, false, {}, 0, tree, [Offered])
  }

  // ---------------------------------------------------------------- what every session keeps

  function Sum(sizes: seq<int>): int {
    if sizes == [] then 0 else Sum(sizes[..|sizes| - 1]) + sizes[|sizes| - 1]
  }

  /** The stored bodies of a log, in order. */
  function Stores(log: seq<Action>): seq<Action> {
    if log == [] then []
    else Stores(log[..|log| - 1]) + if log[|log| - 1].Stored? then [log[|log| - 1]] else []
  }

  predicate AreStores(stores: seq<Action>) {
    forall i | 0 <= i < |stores| :: stores[i].Stored?
  }

  function Sizes(stores: seq<Action>): (sizes: seq<int>)
    requires AreStores(stores)
    ensures |sizes| == |stores| && forall i | 0 <= i < |stores| :: sizes[i] == |stores[i].bytes|
  {
    seq(|stores|, i requires 0 <= i < |stores| => |stores[i].bytes|)
  }

  /** Every size passed the test against the sum of those before it. */
  ghost predicate AllAdmitted(limit: int, sizes: seq<int>) {
    forall k | 0 <= k < |sizes| :: Admits(limit, Sum(sizes[..k]), sizes[k])
  }

  ghost predicate Distinct(stores: seq<Action>)
    requires AreStores(stores)
  {
    forall i, j | 0 <= i < j < |stores| :: stores[i].batch != stores[j].batch
  }

  /** Every answered upload was stored just before its answer, and nothing has been cleaned up. */
  ghost predicate Answered(log: seq<Action>) {
    && (forall i | 0 <= i < |log| :: !log[i].CleanedUp? && !log[i].ReceiptSent?)
    && (forall i | 0 <= i < |log| && log[i].UploadAcked? ::
          i > 0 && log[i - 1].Stored? && log[i - 1].batch == log[i].acked)
  }

  /** The stored bodies are in the lease's tree with their own bytes, which nobody overwrote. */
  ghost predicate Kept(stores: seq<Action>, tree: Tree)
    requires AreStores(stores)
  {
    forall i | 0 <= i < |stores| ::
      (stores[i].batch, stores[i].name) in tree && tree[(stores[i].batch, stores[i].name)] == stores[i].bytes
  }

  ghost predicate Batches(stores: seq<Action>, seen: set<Id>)
    requires AreStores(stores)
  {
    && |seen| == |stores|
    && (forall i | 0 <= i < |stores| :: stores[i].batch in seen)
    && (forall b | b in seen :: exists i :: 0 <= i < |stores| && stores[i].batch == b)
  }

  ghost predicate Sound(g: Gateway, s: State) {
    var stores := Stores(s.log);
    && AreStores(stores)
    && Distinct(stores)
    && Batches(stores, s.seen)
    && |s.seen| <= g.maxEntries
    && s.total == Sum(Sizes(stores))
    && AllAdmitted(g.maxBytes, Sizes(stores))
    && Answered(s.log)
    && Kept(stores, s.tree)
  }

  lemma StoresOne(log: seq<Action>, a: Action)
    ensures Stores(log + [a]) == if a.Stored? then Stores(log) + [a] else Stores(log)
  {
    assert (log + [a])[..|log|] == log;
  }

  lemma AdmittedOne(limit: int, sizes: seq<int>, size: int)
    requires AllAdmitted(limit, sizes) && Admits(limit, Sum(sizes), size)
    ensures AllAdmitted(limit, sizes + [size]) && Sum(sizes + [size]) == Sum(sizes) + size
  {
    var more := sizes + [size];
    assert more[..|sizes|] == sizes;
    forall k | 0 <= k < |more| ensures Admits(limit, Sum(more[..k]), more[k]) {
      if k < |sizes| { assert more[..k] == sizes[..k]; }
    }
  }

  lemma BatchesOne(stores: seq<Action>, seen: set<Id>, a: Action)
    requires AreStores(stores) && Batches(stores, seen) && Distinct(stores)
    requires a.Stored? && a.batch !in seen
    ensures AreStores(stores + [a]) && Batches(stores + [a], seen + {a.batch}) && Distinct(stores + [a])
  {
    var more := stores + [a];
    forall b | b in seen + {a.batch} ensures exists i :: 0 <= i < |more| && more[i].batch == b {
      if b in seen {
        var i :| 0 <= i < |stores| && stores[i].batch == b;
        assert more[i].batch == b;
      } else {
        assert more[|stores|].batch == b;
      }
    }
  }

  lemma SizesOne(stores: seq<Action>, a: Action)
    requires AreStores(stores) && a.Stored?
    ensures AreStores(stores + [a]) && Sizes(stores + [a]) == Sizes(stores) + [|a.bytes|]
  {
  }

  lemma AnsweredOne(log: seq<Action>, a: Action)
    requires Answered(log) && (a.Stored? || a.OpenAcked?)
    ensures Answered(log + [a])
  {
  }

  lemma AnsweredAck(log: seq<Action>, b: Id)
    requires Answered(log) && log != [] && log[|log| - 1].Stored? && log[|log| - 1].batch == b
    ensures Answered(log + [UploadAcked(b)])
  {
  }

  lemma KeptOne(stores: seq<Action>, tree: Tree, a: Action)
    requires AreStores(stores) && Kept(stores, tree) && a.Stored? && (a.batch, a.name) !in tree
    ensures AreStores(stores + [a]) && Kept(stores + [a], tree[(a.batch, a.name) := a.bytes])
  {
  }

  /** Storing a valid upload of a new batch keeps the session sound. */
  lemma StoreKeeps(g: Gateway, s: State, f: Upload, b: Body)
    requires Sound(g, s) && ValidUpload(g, f, s.total, |s.seen|) && f.batch !in s.seen && Receivable(s.tree, f, b)
    ensures Sound(g, s.(seen := s.seen + {f.batch}, total := s.total + f.size, tree := TreeAfter(s.tree, f, b),
                        log := s.log + [Stored(f.batch, f.name, Received(f, b))]))
  {
    hide Distinct, Batches, AllAdmitted, Answered, Kept, Stores, Sum;
    var stores := Stores(s.log);
    var a := Stored(f.batch, f.name, Received(f, b));
    StoresOne(s.log, a);
    SizesOne(stores, a);
    BatchesOne(stores, s.seen, a);
    AdmittedOne(g.maxBytes, Sizes(stores), f.size);
    AnsweredOne(s.log, a);
    KeptOne(stores, s.tree, a);
  }

  lemma KeptMore(stores: seq<Action>, tree: Tree, p: (Id, string), bytes: seq<Byte>)
    requires AreStores(stores) && Kept(stores, tree) && p !in tree
    ensures Kept(stores, tree[p := bytes])
  {
  }

  lemma HandleKeeps(g: Gateway, s: State, t: Turn)
    requires Sound(g, s)
    ensures Sound(g, Handle(g, s, t).0)
  {
    hide Distinct, Batches, AllAdmitted, Answered, Kept, Stores, Sum;
    match t.line {
      case OpenLine(h) =>
        StoresOne(s.log, OpenAcked);
        AnsweredOne(s.log, OpenAcked);
      case UploadLine(f) =>
        if s.begun && !s.first && ValidUpload(g, f, s.total, |s.seen|) && f.batch !in s.seen {
          if Receivable(s.tree, f, t.body) {
            StoreKeeps(g, s, f, t.body);
            var log := s.log + [Stored(f.batch, f.name, Received(f, t.body))];
            StoresOne(log, UploadAcked(f.batch));
            AnsweredAck(log, f.batch);
          } else if t.body.prepared && (f.batch, f.name) !in s.tree {
            KeptMore(Stores(s.log), s.tree, (f.batch, f.name), InFile(f, t.body));
          }
        }
      case _ =>
    }
  }

  lemma {:induction false} DriveKeeps(g: Gateway, s: State, turns: seq<Turn>)
    requires Sound(g, s)
    ensures Sound(g, Drive(g, s, turns).0) && Drive(g, s, turns).1 != Again
    decreases |turns|
  {
    hide Sound, Handle;
    if turns != [] && !turns[0].expired {
      HandleKeeps(g, s, turns[0]);
      DriveKeeps(g, Handle(g, s, turns[0]).0, turns[1..]);
    }
  }

  lemma StartSound(g: Gateway, tree: Tree)
    requires Authorized(g)
    ensures Sound(g, Start(tree))
  {
    assert [Offered][..0] == [];
    assert Stores([Offered]) == [];
  }

  /** Every input stream: the batches stored are distinct and no more than the lease allows, each answered
      upload was stored just before its answer and is in the tree with its own bytes, and every size passed
      the test against the sum of those before it. */
  lemma SessionSound(g: Gateway, tree: Tree, turns: seq<Turn>)
    requires Authorized(g)
    ensures Sound(g, Drive(g, Start(tree), turns).0)
  {
    StartSound(g, tree);
    DriveKeeps(g, Start(tree), turns);
  }

  // ---------------------------------------------------------------- what the gateway acts on

  /** The header of a frame of this very lease. */
  function OwnHeader(g: Gateway): Header { Header(true, g.session, g.device, g.lease) }

  /** The round's frame calls for this action: it carries the lease's own header, and a stored body is the whole
      body of a well-formed upload, with the checksum it announced. */
  predicate CallsFor(g: Gateway, t: Turn, a: Action) {
    match a
    case OpenAcked => t.line == OpenLine(OwnHeader(g))
    case Stored(batch, name, bytes) =>
      && t.line.UploadLine? && var f := t.line.upload;
      && f == Upload(OwnHeader(g), true, batch, name, |bytes|, t.body.digest)
      && bytes <= t.body.available && 0 < |bytes| <= MAX_BATCH_BYTES && t.body.prepared && t.body.closes
    case UploadAcked(batch) =>
      t.line.UploadLine? && t.line.upload.header == OwnHeader(g) && t.line.upload.batch == batch && !t.answerFails
    case _ => false
  }

  lemma HandleCalledFor(g: Gateway, s: State, t: Turn)
    ensures var (s', course) := Handle(g, s, t);
            && s.log <= s'.log && (forall k | |s.log| <= k < |s'.log| :: CallsFor(g, t, s'.log[k]))
            && (course == CleanRequested ==> t.line == CleanupLine(OwnHeader(g)))
  {
  }

  /** Some round of the stream calls for the action. */
  ghost predicate CalledFor(g: Gateway, turns: seq<Turn>, a: Action) {
    exists i :: 0 <= i < |turns| && CallsFor(g, turns[i], a)
  }

  lemma CalledForLater(g: Gateway, turns: seq<Turn>, a: Action)
    requires turns != [] && CalledFor(g, turns[1..], a)
    ensures CalledFor(g, turns, a)
  {
    var i :| 0 <= i < |turns[1..]| && CallsFor(g, turns[1..][i], a);
    assert turns[i + 1] == turns[1..][i];
  }

  /** Every answer and every stored body of a session was called for by a frame of its own lease, and so was a
      requested cleanup. */
  lemma {:induction false} ActsOnOwnFrames(g: Gateway, s: State, turns: seq<Turn>)
    ensures var (s', course) := Drive(g, s, turns);
            && s.log <= s'.log && (forall k | |s.log| <= k < |s'.log| :: CalledFor(g, turns, s'.log[k]))
            && (course == CleanRequested ==> exists i :: 0 <= i < |turns| && turns[i].line == CleanupLine(OwnHeader(g)))
    decreases |turns|
  {
    hide Handle, CallsFor;
    if turns != [] && !turns[0].expired {
      HandleCalledFor(g, s, turns[0]);
      var (s1, course) := Handle(g, s, turns[0]);
      var (s', last) := Drive(g, s, turns);
      if course == Again {
        var rest := turns[1..];
        ActsOnOwnFrames(g, s1, rest);
        if last == CleanRequested {
          var i :| 0 <= i < |rest| && rest[i].line == CleanupLine(OwnHeader(g));
          assert turns[i + 1] == rest[i];
        }
      }
      forall k | |s.log| <= k < |s'.log| ensures CalledFor(g, turns, s'.log[k]) {
        if k < |s1.log| {
          assert CallsFor(g, turns[0], s'.log[k]);
        } else {
          CalledForLater(g, turns, s'.log[k]);
        }
      }
    }
  }

  /** When a round stores a body, exactly. The opening of the lease was answered, the frame is a well-formed
      upload of this lease for a new batch, within the entries and the budget test, and its whole body, with the
      checksum it announced, went into a new file. */
  lemma StoresExactly(g: Gateway, s: State, t: Turn)
    ensures var (s', course) := Handle(g, s, t);
            |s'.seen| > |s.seen| <==>
              && t.line.UploadLine? && var f, b := t.line.upload, t.body;
              && s.begun && !s.first && f.header == OwnHeader(g) && f.named && f.batch !in s.seen
              && 0 < f.size <= MAX_BATCH_BYTES && (s.total < g.maxBytes ==> s.total + f.size <= g.maxBytes)
              && |s.seen| < g.maxEntries <= |s.seen| + MAX_ENTRIES
              && b.prepared && (f.batch, f.name) !in s.tree && f.size <= |b.available| && f.size <= b.takes
              && b.closes && b.digest == f.checksum
  {
  }

  // ---------------------------------------------------------------- the loop

  /** Exactly one cleanup ends the log, after everything stored and answered, and it counts all of it. */
  ghost predicate CleanedOnce(g: Gateway, log: seq<Action>, before: State, receipt: Receipt) {
    && Sound(g, before)
    && ValidReceipt(g, receipt)
    && before.log + [CleanedUp(before.tree, receipt)] <= log
    && |log| <= |before.log| + 2
    && (|log| == |before.log| + 2 ==> log[|log| - 1] == ReceiptSent)
  }

  /** Serves one connection. `offer` says whether the lease offer could be written and `last` whether the
      receipt could; `log` is everything the gateway did past the offer. */
  method Serve(g: Gateway, offer: bool, turns: seq<Turn>, e: Closing, last: bool, tree: Tree)
    returns (ok: bool, log: seq<Action>, after: Tree, written: seq<Receipt>)
    ensures log != [] <==>
      offer && g.complete && 0 < g.maxBytes <= MAX_BATCH_BYTES && 0 < g.maxEntries <= MAX_ENTRIES
    ensures log == [] ==> !ok && after == tree && written == []
    ensures Authorized(g) && offer ==>
      var (s, course) := Drive(g, Start(tree), turns);
      && |log| > |s.log| && log[|s.log|].CleanedUp?
      && CleanedOnce(g, log, s, log[|s.log|].receipt)
      && log[|s.log|].receipt.removed == (if e.removes then |Stores(s.log)| else 0)
      && (ok <==> course == Finished || (course == CleanRequested && last))
      && (|log| == |s.log| + 2 <==> course == CleanRequested && last)
      && (e.removes ==> after == map[])
  {
    hide Sound, Stores;
    if !Authorized(g) || !offer { return false, [], tree, []; }
    var first, opening, seen, bytesTotal := true, false, {}, 0;
    after := tree;
    log := [Offered];
    var course := Again;
    var i := 0;
    while course == Again
      invariant 0 <= i <= |turns|
      invariant var s := State(first, opening, seen, bytesTotal, after, log);
                Drive(g, Start(tree), turns) == if course == Again then Drive(g, s, turns[i..]) else (s, course)
      decreases |turns| - i, course == Again
    {
      if i == |turns| {
        course := Finished;
      } else if turns[i].expired {
        course := Failed;
      } else {
        first, opening, seen, bytesTotal, after, log, course :=
          Round(g, turns[i], first, opening, seen, bytesTotal, after, log);
        assert turns[i..][1..] == turns[i + 1..];
        i := i + 1;
      }
    }
    ghost var s := State(first, opening, seen, bytesTotal, after, log);
    SessionSound(g, tree, turns);
    CountsStores(g, s);
    var receipt, emptied, kept := Cleanup(g, seen, after, e);
    log := log + [CleanedUp(after, receipt)];
    after, written := emptied, kept;
    ok := course == Finished;
    if course == CleanRequested && last {
      log := log + [ReceiptSent];
      ok := true;
    }
  }

  lemma CountsStores(g: Gateway, s: State)
    requires Sound(g, s) && Authorized(g)
    ensures |s.seen| == |Stores(s.log)| <= MAX_ENTRIES
  {
  }

  /** The loop's body: one frame of the stream. */
  method Round(g: Gateway, t: Turn, first0: bool, opened0: bool, seen0: set<Id>, total0: int, tree0: Tree,
      log0: seq<Action>)
    returns (first: bool, opening: bool, seen: set<Id>, bytesTotal: int, tree: Tree, log: seq<Action>, course: Course)
    ensures Sound(g, State(first0, opened0, seen0, total0, tree0, log0)) ==>
              Sound(g, State(first, opening, seen, bytesTotal, tree, log))
    ensures log0 <= log && seen0 <= seen && total0 <= bytesTotal
    ensures course == CleanRequested ==> log == log0 && tree == tree0
    ensures (State(first, opening, seen, bytesTotal, tree, log), course)
         == Handle(g, State(first0, opened0, seen0, total0, tree0, log0), t)
  {
    hide Sound;
    if Sound(g, State(first0, opened0, seen0, total0, tree0, log0)) {
      HandleKeeps(g, State(first0, opened0, seen0, total0, tree0, log0), t);
    }
    first, opening, seen, bytesTotal, tree, log := first0, opened0, seen0, total0, tree0, log0;
    course := Failed;
    match t.line {
      case Ended => course := Finished; return;
      case OpenLine(h) =>
        if !first || opening || !Ours(g, h) { return; }
        opening := true;
        if t.answerFails { return; }
        log := log + [OpenAcked];
      case UploadLine(f) =>
        if !opening || first { return; }
        if !ValidUpload(g, f, bytesTotal, |seen|) { return; }
        if f.batch in seen { return; }
        if |seen| >= g.maxEntries { return; }
        var ok;
        ok, tree := ReceiveUpload(tree, f, t.body);
        if !ok { return; }
        seen := seen + {f.batch};
        log := log + [Stored(f.batch, f.name, Received(f, t.body))];
        bytesTotal := bytesTotal + f.size;
        if t.answerFails { return; }
        log := log + [UploadAcked(f.batch)];
      case CleanupLine(h) =>
        if opening && !first && Ours(g, h) { course := CleanRequested; }
        return;
      case _ => return;
    }
    first := false;
    course := if t.cancelled then Failed else Again;
  }

  // ---------------------------------------------------------------- the byte budget

  /** The sum met the limit before some later size. */
  ghost predicate MetBefore(limit: int, sizes: seq<int>) {
    exists k :: 0 <= k < |sizes| && Sum(sizes[..k]) == limit
  }

  lemma AdmittedFront(limit: int, sizes: seq<int>)
    requires sizes != [] && AllAdmitted(limit, sizes)
    ensures AllAdmitted(limit, sizes[..|sizes| - 1])
    ensures Admits(limit, Sum(sizes[..|sizes| - 1]), sizes[|sizes| - 1])
  {
    var rest := sizes[..|sizes| - 1];
    forall k | 0 <= k < |rest| ensures Admits(limit, Sum(rest[..k]), rest[k]) {
      assert sizes[..k] == rest[..k];
      assert Admits(limit, Sum(sizes[..k]), sizes[k]);
    }
  }

  lemma MetFront(limit: int, sizes: seq<int>)
    requires sizes != []
    ensures MetBefore(limit, sizes) <==> MetBefore(limit, sizes[..|sizes| - 1]) || Sum(sizes[..|sizes| - 1]) == limit
  {
    var rest := sizes[..|sizes| - 1];
    if MetBefore(limit, sizes) && Sum(rest) != limit {
      var k :| 0 <= k < |sizes| && Sum(sizes[..k]) == limit;
      assert sizes[..k] == rest[..k];
    }
    if MetBefore(limit, rest) {
      var k :| 0 <= k < |rest| && Sum(rest[..k]) == limit;
      assert sizes[..k] == rest[..k];
    }
  }

  /** The sizes admitted exceed the budget exactly when one was admitted after their sum had met it. */
  lemma {:induction false} OverrunExactly(limit: int, sizes: seq<int>)
    requires limit > 0 && AllAdmitted(limit, sizes)
    ensures Sum(sizes) > limit <==> MetBefore(limit, sizes)
    decreases |sizes|
  {
    if sizes != [] {
      AdmittedFront(limit, sizes);
      MetFront(limit, sizes);
      OverrunExactly(limit, sizes[..|sizes| - 1]);
    }
  }

  /** How far it can go: at most the budget and one full batch for each further entry. */
  lemma {:induction false} OverrunBounded(limit: int, sizes: seq<int>)
    requires 0 < limit <= MAX_BATCH_BYTES && AllAdmitted(limit, sizes)
    ensures |sizes| > 0 ==> Sum(sizes) <= limit + (|sizes| - 1) * MAX_BATCH_BYTES
    ensures 0 <= Sum(sizes)
    decreases |sizes|
  {
    if sizes != [] {
      AdmittedFront(limit, sizes);
      OverrunBounded(limit, sizes[..|sizes| - 1]);
    }
  }

  /** The size test with the guard on the budget's sign left out. */
  predicate AdmitsWithin(limit: int, total: int, size: int) {
    0 < size <= MAX_BATCH_BYTES && size <= limit - total
  }

  /** The two tests decide alike on every size exactly while the budget is not used up. */
  lemma TestsAgreeExactly(limit: int, total: int)
    requires total <= limit
    ensures (forall size :: Admits(limit, total, size) <==> AdmitsWithin(limit, total, size)) <==> total < limit
  {
    if total == limit {
      assert Admits(limit, total, 1) && !AdmitsWithin(limit, total, 1);
    }
  }

  /** Without that guard the sum stays within the budget on every sequence. */
  lemma {:induction false} WithinBudget(limit: int, sizes: seq<int>)
    requires limit > 0
    requires forall k | 0 <= k < |sizes| :: AdmitsWithin(limit, Sum(sizes[..k]), sizes[k])
    ensures Sum(sizes) <= limit
  {
    if sizes != [] {
      var n := |sizes| - 1;
      assert AdmitsWithin(limit, Sum(sizes[..n]), sizes[n]);
    }
  }

  /** A session stores more than the lease's bytes exactly when it stores an upload after meeting them,
      and never more than one full batch for each further entry on top. */
  lemma SessionBytes(g: Gateway, tree: Tree, turns: seq<Turn>)
    requires Authorized(g)
    ensures var s := Drive(g, Start(tree), turns).0;
            && AreStores(Stores(s.log))
            && (s.total > g.maxBytes <==> MetBefore(g.maxBytes, Sizes(Stores(s.log))))
            && 0 <= s.total <= g.maxBytes + (g.maxEntries - 1) * MAX_BATCH_BYTES
  {
    hide Drive, Start, Sum, Stores, Distinct, Batches, AllAdmitted, Answered, Kept, MetBefore;
    SessionSound(g, tree, turns);
    SoundBytes(g, Drive(g, Start(tree), turns).0);
  }

  lemma SoundBytes(g: Gateway, s: State)
    requires Authorized(g) && Sound(g, s)
    ensures s.total > g.maxBytes <==> MetBefore(g.maxBytes, Sizes(Stores(s.log)))
    ensures 0 <= s.total <= g.maxBytes + (g.maxEntries - 1) * MAX_BATCH_BYTES
  {
    hide Sum, Stores, Distinct, AllAdmitted, Answered, Kept, MetBefore;
    var sizes := Sizes(Stores(s.log));
    assert |sizes| == |s.seen| <= g.maxEntries;
    OverrunExactly(g.maxBytes, sizes);
    OverrunBounded(g.maxBytes, sizes);
    SumOfNone();
  }

  lemma SumOfNone()
    ensures Sum([]) == 0
  {
  }

  /** A lease of one byte: a first upload of one byte meets the budget and a second one is stored all the
      same. */
  lemma BudgetCanBeExceeded(g: Gateway, a: Id, b: Id, d: Digest)
    requires Authorized(g) && g.maxBytes == 1 && g.maxEntries == 2 && a != b
    ensures exists turns :: Drive(g, Start(map[]), turns).0.total > g.maxBytes
  {
    var h := Header(true, g.session, g.device, g.lease);
    var body := Body(true, [0], 1, d, true, true);
    var t0 := Turn(false, OpenLine(h), body, false, false);
    var t1 := Turn(false, UploadLine(Upload(h, true, a, "x", 1, d)), body, false, false);
    var t2 := Turn(false, UploadLine(Upload(h, true, b, "x", 1, d)), body, false, false);
    var s0 := Start(map[]);
    var s1 := s0.(first := false, begun := true, log := s0.log + [OpenAcked]);
    StoreOneByte(g, s1, t1, h, a, d);
    var s2 := Handle(g, s1, t1).0;
    StoreOneByte(g, s2, t2, h, b, d);
    var s3 := Handle(g, s2, t2).0;
    assert Handle(g, s0, t0) == (s1, Again);
    DriveOne(g, s2, t2, []);
    DriveOne(g, s1, t1, [t2]);
    DriveOne(g, s0, t0, [t1, t2]);
    assert Drive(g, s0, [t0] + ([t1] + ([t2] + []))).0.total > g.maxBytes by {
      assert [t1] + ([t2] + []) == [t1, t2] && [t2] + [] == [t2];
    }
  }

  lemma DriveOne(g: Gateway, s: State, t: Turn, rest: seq<Turn>)
    requires !t.expired && Handle(g, s, t).1 == Again
    ensures Drive(g, s, [t] + rest) == Drive(g, Handle(g, s, t).0, rest)
  {
    hide Handle;
    assert ([t] + rest)[1..] == rest;
  }

  /** An upload of one byte is stored when a byte is left and also when none is. */
  lemma StoreOneByte(g: Gateway, s: State, t: Turn, h: Header, batch: Id, d: Digest)
    requires Ours(g, h) && t == Turn(false, UploadLine(Upload(h, true, batch, "x", 1, d)),
      Body(true, [0], 1, d, true, true), false, false)
    requires s.begun && !s.first && batch !in s.seen && (batch, "x") !in s.tree
    requires 0 < g.maxEntries - |s.seen| <= MAX_ENTRIES
    ensures var (s', course) := Handle(g, s, t);
            && course == Again && s'.total == s.total + 1 && s'.begun && !s'.first && s'.seen == s.seen + {batch}
            && s'.tree == s.tree[(batch, "x") := [0]]
  {
    assert [0][..1] == [0];
  }
}
