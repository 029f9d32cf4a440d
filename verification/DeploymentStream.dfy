/** Streaming a deployment's objects to the helper: the loop answers one peer frame at a time and must end
    against any peer, however long it keeps sending. */
module DeploymentStream {
  import opened Options

  type Digest(==, !new)
  type Receipt(==, !new)

  datatype Entry = FileEntry(digest: Digest) | OtherEntry

  datatype Kind = Prepared | ObjectFrame | OtherKind

  /** A frame that was read without error, so its protocol version is the right one. */
  datatype Frame = Frame(kind: Kind, digest: Option<Digest>, receipt: Option<Receipt>)

  /** What happens while one object is served: the verifier can be built, the download and its checksum
      succeed, the completion byte is written. */
  datatype Service = Service(verifiable: bool, downloaded: bool, verified: bool, completed: bool)

  datatype Failure = Unavailable | InvalidReceipt | Cancelled | VerifierFailed | DownloadFailed | ChecksumFailed

  datatype Outcome = Done(receipt: Receipt) | Failed(failure: Failure)

  /** The digests the manifest lists as files, with multiplicity. */
  function Listed(entries: seq<Entry>): multiset<Digest> {
    if entries == [] then multiset{}
    else
      Listed(entries[..|entries| - 1])
      + (match entries[|entries| - 1] case FileEntry(d) => multiset{d} case OtherEntry => multiset{})
  }

  /** The conversation: `frames(i)` is the `i`-th frame of the peer, none once reading fails; `service(i)`
      is how serving it goes; `accepts` is the receipt's validation against the original input. */
  datatype Peer = Peer(frames: nat -> Option<Frame>, service: nat -> Service, cancelled: bool, accepts: Receipt -> bool)

  /** A frame that asks for an object and carries nothing else. */
  predicate Asks(f: Frame, d: Digest) {
    f == Frame(ObjectFrame, Some(d), None)
  }

  predicate Finishes(f: Frame) {
    f.kind == Prepared && f.digest.None? && f.receipt.Some?
  }

  /** The first thing that goes wrong while serving, in the order it is done. */
  function Trouble(s: Service): Option<Failure> {
    if !s.verifiable then Some(VerifierFailed)
    else if !s.downloaded then Some(DownloadFailed)
    else if !s.verified then Some(ChecksumFailed)
    else if !s.completed then Some(Unavailable)
    else None
  }

  method CountRemaining(entries: seq<Entry>) returns (remaining: multiset<Digest>)
    ensures remaining == Listed(entries)
  {
    remaining := multiset{};
    var i := 0;
    assert entries[..0] == [];
    while i < |entries|
      invariant 0 <= i <= |entries| && remaining == Listed(entries[..i])
    {
      assert entries[..i + 1][..i] == entries[..i];
      match entries[i] {
        case FileEntry(d) => remaining := remaining + multiset{d};
        case OtherEntry =>
      }
      i := i + 1;
    }
    assert entries[..|entries|] == entries;
  }

  lemma SizesAdd(served: seq<Digest>, remaining: multiset<Digest>, all: multiset<Digest>)
    requires multiset(served) + remaining == all
    ensures |served| + |remaining| == |all| && multiset(served) <= all
  {
  }

  lemma OneServed(served: seq<Digest>, remaining: multiset<Digest>, all: multiset<Digest>, d: Digest)
    requires multiset(served) + remaining == all && d in remaining
    ensures multiset(served + [d]) + (remaining - multiset{d}) == all && |remaining - multiset{d}| == |remaining| - 1
    ensures multiset(served + [d]) <= all
  {
  }

  /** The peer's first frames asked for exactly these objects, and each was served without trouble. */
  ghost predicate Conversation(peer: Peer, served: seq<Digest>) {
    forall i | 0 <= i < |served| ::
      && peer.frames(i) == Some(Frame(ObjectFrame, Some(served[i]), None))
      && peer.service(i) == Service(true, true, true, true)
  }

  /** The frame after those ends the conversation with this receipt, which validates for the input. */
  predicate EndsWith(peer: Peer, n: nat, receipt: Receipt) {
    peer.frames(n) == Some(Frame(Prepared, None, Some(receipt))) && peer.accepts(receipt) && !peer.cancelled
  }

  /** The frame asks for an object that is still owed: listed more often than served. */
  predicate AsksOwed(entries: seq<Entry>, served: seq<Digest>, f: Frame) {
    f.kind == ObjectFrame && f.receipt.None? && f.digest.Some?
    && multiset(served)[f.digest.value] < Listed(entries)[f.digest.value]
  }

  /** Why the conversation fails after these objects: the receipt is looked at before a cancellation, what goes
      wrong with an object is told by its first trouble, and anything else is unavailable. */
  predicate FailsWith(entries: seq<Entry>, peer: Peer, served: seq<Digest>, failure: Failure) {
    var s, f := peer.service(|served|), peer.frames(|served|);
    if f.None? then failure == Unavailable
    else if f.value.kind == Prepared && f.value.digest.None? && f.value.receipt.Some? then
      if !peer.accepts(f.value.receipt.value) then failure == InvalidReceipt
      else peer.cancelled && failure == Cancelled
    else if !AsksOwed(entries, served, f.value) then failure == Unavailable
    else
      match failure
      case VerifierFailed => !s.verifiable
      case DownloadFailed => s.verifiable && !s.downloaded
      case ChecksumFailed => s.verifiable && s.downloaded && !s.verified
      case Unavailable => s == Service(true, true, true, false)
      case _ => false
  }

  lemma TroubleIsFirst(s: Service)
    ensures Trouble(s).None? <==> s == Service(true, true, true, true)
    ensures Trouble(s) == Some(VerifierFailed) <==> !s.verifiable
    ensures Trouble(s) == Some(DownloadFailed) <==> s.verifiable && !s.downloaded
    ensures Trouble(s) == Some(ChecksumFailed) <==> s.verifiable && s.downloaded && !s.verified
    ensures Trouble(s) == Some(Unavailable) <==> s == Service(true, true, true, false)
    ensures Trouble(s).Some? ==> Trouble(s).value in {VerifierFailed, DownloadFailed, ChecksumFailed, Unavailable}
  {
  }

  /** What one frame is answered, against what is still owed. */
  lemma JudgesExactly(entries: seq<Entry>, peer: Peer, served: seq<Digest>, remaining: multiset<Digest>)
    requires multiset(served) + remaining == Listed(entries)
    ensures var verdict := Judge(peer.frames(|served|), remaining, peer);
            && (verdict.Serve? ==>
                  && peer.frames(|served|) == Some(Frame(ObjectFrame, Some(verdict.digest), None))
                  && AsksOwed(entries, served, peer.frames(|served|).value) && verdict.digest in remaining)
            && (verdict.End? && verdict.outcome.Failed? ==> FailsWith(entries, peer, served, verdict.outcome.failure))
            && (verdict.End? && verdict.outcome.Done? ==> EndsWith(peer, |served|, verdict.outcome.receipt))
  {
    forall d ensures multiset(served)[d] + remaining[d] == Listed(entries)[d] { }
  }

  lemma ConversationGrows(peer: Peer, served: seq<Digest>, d: Digest)
    requires Conversation(peer, served) && peer.frames(|served|) == Some(Frame(ObjectFrame, Some(d), None))
    requires peer.service(|served|) == Service(true, true, true, true)
    ensures Conversation(peer, served + [d])
  {
  }

  /** The answer to one frame: the conversation goes on with the digest it asks for, or ends. */
  datatype Verdict = Serve(digest: Digest) | End(outcome: Outcome)

  function Judge(frame: Option<Frame>, remaining: multiset<Digest>, peer: Peer): Verdict {
    if frame.None? then End(Failed(Unavailable))
    else
      var f := frame.value;
      if Finishes(f) then
        End(if !peer.accepts(f.receipt.value) then Failed(InvalidReceipt)
            else if peer.cancelled then Failed(Cancelled) else Done(f.receipt.value))
      else if f.digest.None? || f.digest.value !in remaining || !Asks(f, f.digest.value) then End(Failed(Unavailable))
      else Serve(f.digest.value)
  }

  /** A conversation that asks for listed objects only, as often as they are listed at most, and ends with
      this receipt. */
  ghost predicate Completes(entries: seq<Entry>, peer: Peer, plan: seq<Digest>, receipt: Receipt) {
    && multiset(plan) <= Listed(entries)
    && Conversation(peer, plan)
    && EndsWith(peer, |plan|, receipt)
  }

  lemma NextIsListed(plan: seq<Digest>, served: seq<Digest>, remaining: multiset<Digest>, all: multiset<Digest>)
    requires multiset(plan) <= all && served <= plan && |served| < |plan| && multiset(served) + remaining == all
    ensures plan[|served|] in remaining && served + [plan[|served|]] <= plan
  {
    var d, n := plan[|served|], |served|;
    assert plan == served + ([d] + plan[n + 1..]);
    assert multiset(plan) == multiset(served) + (multiset{d} + multiset(plan[n + 1..]));
    assert multiset(served)[d] < multiset(plan)[d];
  }

  /** The answer to the next frame of a conversation that completes. */
  lemma CompletesNext(entries: seq<Entry>, peer: Peer, plan: seq<Digest>, receipt: Receipt, served: seq<Digest>,
      remaining: multiset<Digest>)
    requires Completes(entries, peer, plan, receipt) && served <= plan
      && multiset(served) + remaining == Listed(entries)
    ensures Judge(peer.frames(|served|), remaining, peer) ==
            if |served| < |plan| then Serve(plan[|served|]) else End(Done(receipt))
    ensures |served| < |plan| ==> Trouble(peer.service(|served|)).None? && served + [plan[|served|]] <= plan
  {
    if |served| < |plan| {
      NextIsListed(plan, served, remaining, Listed(entries));
    }
  }

  /** Against any peer the loop ends after at most one frame more than there are file entries. `served` are
      the objects completely served, in order, and no digest is served more often than the manifest lists
      it. It returns a receipt if and only if the conversation completes with it: `plan` and `receipt` are
      any conversation that does. Otherwise it says what went wrong first. */
  method StreamObjects(entries: seq<Entry>, peer: Peer, ghost plan: seq<Digest>, ghost receipt: Receipt)
    returns (outcome: Outcome, served: seq<Digest>, processed: nat)
    ensures |served| + 1 == processed <= |Listed(entries)| + 1 <= |entries| + 1
    ensures multiset(served) <= Listed(entries) && forall d | d in served :: FileEntry(d) in entries
    ensures Conversation(peer, served)
    ensures outcome.Done? ==> Completes(entries, peer, served, outcome.receipt)
    ensures outcome.Failed? ==> FailsWith(entries, peer, served, outcome.failure)
    ensures Completes(entries, peer, plan, receipt) ==> outcome == Done(receipt) && served == plan
  {
    hide Conversation, Listed, Trouble, Judge, AsksOwed;
    ListedSize(entries);
    var remaining := CountRemaining(entries);
    served, processed := [], 0;
    EmptyConversation(peer);
    while true
      invariant multiset(served) + remaining == Listed(entries)
      invariant processed == |served| && Conversation(peer, served)
      invariant forall d | d in served :: FileEntry(d) in entries
      invariant Completes(entries, peer, plan, receipt) ==> served <= plan
      decreases |remaining|
    {
      SizesAdd(served, remaining, Listed(entries));
      if Completes(entries, peer, plan, receipt) {
        CompletesNext(entries, peer, plan, receipt, served, remaining);
      }
      var i := processed;
      processed := processed + 1;
      JudgesExactly(entries, peer, served, remaining);
      var verdict := Judge(peer.frames(i), remaining, peer);
      if verdict.End? {
        outcome := verdict.outcome;
        return;
      }
      var d := verdict.digest;
      OneServed(served, remaining, Listed(entries), d);
      ListedFiles(entries, d);
      remaining := remaining - multiset{d};
      TroubleIsFirst(peer.service(i));
      var trouble := Trouble(peer.service(i));
      if trouble.Some? {
        outcome := Failed(trouble.value);
        return;
      }
      ConversationGrows(peer, served, d);
      served := served + [d];
    }
  }

  lemma EmptyConversation(peer: Peer)
    ensures Conversation(peer, [])
  {
  }

  lemma {:induction false} ListedSize(entries: seq<Entry>)
    ensures |Listed(entries)| <= |entries|
    ensures (forall i | 0 <= i < |entries| :: entries[i].FileEntry?) ==> |Listed(entries)| == |entries|
  {
    if entries != [] {
      ListedSize(entries[..|entries| - 1]);
    }
  }

  lemma {:induction false} ListedFiles(entries: seq<Entry>, d: Digest)
    ensures d in Listed(entries) <==> FileEntry(d) in entries
  {
    if entries != [] {
      ListedFiles(entries[..|entries| - 1], d);
      assert entries == entries[..|entries| - 1] + [entries[|entries| - 1]];
    }
  }
}
