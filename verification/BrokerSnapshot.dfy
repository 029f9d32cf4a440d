/** What snapshots, renewals and the other critical sections do to one binding, said of its fields: what an
    accepted list makes of it, where its lease comes from, and exactly when its materials are cleared. */
module BrokerSnapshot {
  import opened BrokerCore
  import opened BrokerInvariant
  import opened BrokerLease
  import opened BrokerRuns
  import opened Options

  // ---------------------------------------------------------------- reading the list

  /** The list is accepted exactly when every offer is valid and no ID is offered twice; the result has the
      offers under their own IDs. */
  ghost predicate ListedFrom(offers: seq<Offer>, next: map<Name, Metadata>) {
    && (forall i | 0 <= i < |offers| :: ValidOffer(offers[i]).Some?)
    && (forall i | 0 <= i < |offers| :: Under(next, ValidOffer(offers[i]).value))
    && (forall i, j | 0 <= i < j < |offers| ::
          ValidOffer(offers[i]).value.bindingID != ValidOffer(offers[j]).value.bindingID)
    && (forall id | id in next :: exists i :: 0 <= i < |offers| && ValidOffer(offers[i]).value.bindingID == id)
  }

  predicate Under(next: map<Name, Metadata>, m: Metadata) { m.bindingID in next && next[m.bindingID] == m }

  /** The offers are valid and their IDs distinct. */
  ghost predicate Acceptable(offers: seq<Offer>) {
    && (forall i | 0 <= i < |offers| :: ValidOffer(offers[i]).Some?)
    && (forall i, j | 0 <= i < j < |offers| ::
          ValidOffer(offers[i]).value.bindingID != ValidOffer(offers[j]).value.bindingID)
  }

  lemma {:induction false} ListedExactly(offers: seq<Offer>)
    ensures Listed(offers).Some? <==> Acceptable(offers)
    ensures Listed(offers).Some? ==> ListedFrom(offers, Listed(offers).value)
  {
    hide ValidOffer;
    if offers != [] {
      var n := |offers| - 1;
      var rest := offers[..n];
      ListedExactly(rest);
      assert forall i | 0 <= i < n :: rest[i] == offers[i];
      if Listed(rest).Some? && ValidOffer(offers[n]).Some? {
        ListedLast(offers, Listed(rest).value);
      }
    }
  }

  lemma ListedLast(offers: seq<Offer>, next: map<Name, Metadata>)
    requires offers != [] && ListedFrom(offers[..|offers| - 1], next) && ValidOffer(offers[|offers| - 1]).Some?
    ensures var m := ValidOffer(offers[|offers| - 1]).value;
            && (m.bindingID in next ==> !Acceptable(offers))
            && (m.bindingID !in next ==> ListedFrom(offers, next[m.bindingID := m]))
  {
    hide ValidOffer;
    var n := |offers| - 1;
    var rest, m := offers[..n], ValidOffer(offers[n]).value;
    assert forall i | 0 <= i < n :: rest[i] == offers[i];
    if m.bindingID in next {
      var i :| 0 <= i < |rest| && ValidOffer(rest[i]).value.bindingID == m.bindingID;
      assert offers[i] == rest[i];
    } else {
      var next' := next[m.bindingID := m];
      forall i | 0 <= i < |offers| ensures Under(next', ValidOffer(offers[i]).value) {
        if i < n { assert Under(next, ValidOffer(rest[i]).value); }
      }
      forall i, j | 0 <= i < j < |offers|
        ensures ValidOffer(offers[i]).value.bindingID != ValidOffer(offers[j]).value.bindingID
      {
        assert Under(next, ValidOffer(rest[i]).value);
      }
      forall id | id in next' ensures exists i :: 0 <= i < |offers| && ValidOffer(offers[i]).value.bindingID == id {
        if id == m.bindingID {
          assert ValidOffer(offers[n]).value.bindingID == id;
        } else {
          var i :| 0 <= i < |rest| && ValidOffer(rest[i]).value.bindingID == id;
          assert ValidOffer(offers[i]).value.bindingID == id;
        }
      }
    }
  }

  /** An offer is valid exactly when its contract is, its one or two spellings of the generation agree on a
      positive one, and its fields are in range; it is then stored as it is, under that generation. */
  lemma OfferExactly(o: Offer)
    ensures ValidOffer(o).Some? <==>
      && o.contractValid && (o.body.generation != 0 || o.legacyGeneration != 0)
      && (o.body.generation == o.legacyGeneration || o.body.generation == 0 || o.legacyGeneration == 0)
      && o.body.status !in {Revoked, UnknownStatus} && o.body.health != UnknownHealth
      && 1 <= o.body.maxParallel <= 4 && o.body.allowlistRevision > 0 && o.body.absoluteTTL != Malformed
    ensures ValidOffer(o).Some? ==>
      && ValidOffer(o).value == o.body.(generation := ValidOffer(o).value.generation)
      && ValidOffer(o).value.generation in {o.body.generation, o.legacyGeneration} - {0}
  {
  }

  // ---------------------------------------------------------------- what a snapshot makes of a binding

  /** The entry is of an older generation, or of one that is terminal here. */
  predicate Outdated(b: BindingState, m: Metadata) {
    m.generation < b.metadata.generation || (b.terminal && m.generation == b.metadata.generation)
  }

  /** Nothing that the binding's materials depend on differs. */
  predicate Agrees(m: Metadata, m': Metadata) {
    && m.generation == m'.generation && m.toolSession == m'.toolSession
    && m.allowlistRevision == m'.allowlistRevision && m.learningDigest == m'.learningDigest
    && m.status == m'.status && m.health == m'.health
  }

  /** What a listed ID becomes. A new ID gets a new object; an outdated entry changes nothing; any other entry
      is stored as it is in the same object, which has no mark then. */
  predicate BecomesListed(s: Core, id: Name, m: Metadata, b': BindingState) {
    if id !in s.bindings then b' == BindingState(s.snapshots, m, false, 0)
    else if Outdated(s.bindings[id], m) then b' == s.bindings[id]
    else b'.metadata == m && b'.serial == s.bindings[id].serial && !b'.terminal
  }

  /** The permits, the requests and the relay epoch of an attached binding are as they were. */
  ghost predicate Untouched(s: Core, s': Core, id: Name)
    requires id in s.bindings && Ref(id, s.bindings[id].serial) in s.epochs
  {
    var r := Ref(id, s.bindings[id].serial);
    && (forall q | q in s.permits && s.permits[q].bindingID == id :: q in s'.permits && s'.permits[q] == s.permits[q])
    && (forall q | q in s.active && s.active[q].bindingID == id :: q in s'.active && s'.active[q] == s.active[q])
    && r in s'.epochs && s'.epochs[r] == s.epochs[r]
  }

  /** They are gone, and the epoch has moved on. */
  ghost predicate Wiped(s: Core, s': Core, id: Name)
    requires id in s.bindings && Ref(id, s.bindings[id].serial) in s.epochs
  {
    var r := Ref(id, s.bindings[id].serial);
    && (forall q | q in s'.permits :: s'.permits[q].bindingID != id)
    && (forall q | q in s'.active :: s'.active[q].bindingID != id)
    && r in s'.epochs && s.epochs[r] < s'.epochs[r]
  }

  ghost predicate HasEpochs(s: Core) {
    forall id | id in s.bindings :: Ref(id, s.bindings[id].serial) in s.epochs
  }

  /** No permit, request, session or sequence number appears or goes; a new object starts at epoch zero and
      the objects that are no longer attached keep theirs. */
  ghost predicate KeepsTheRest(s: Core, next: map<Name, Metadata>, s': Core) {
    && Submap(s'.permits, s.permits) && Submap(s'.active, s.active)
    && (s'.sessions, s'.nonces, s'.peerUIDs) == (s.sessions, s.nonces, s.peerUIDs)
    && (s'.sequence, s'.disk, s'.closed) == (s.sequence, s.disk, s.closed) && s'.snapshots == s.snapshots + 1
    && (forall r | r in s'.epochs :: r in s.epochs || (r.id in next && r.id !in s.bindings && r.serial == s.snapshots))
    && (forall id | id in next && id !in s.bindings ::
          Ref(id, s.snapshots) in s'.epochs && s'.epochs[Ref(id, s.snapshots)] == 0)
    && (forall r | r in s.epochs && !Attached(s, r) && r.serial < s.snapshots ::
          r in s'.epochs && s'.epochs[r] == s.epochs[r])
  }

  /** The attached IDs are exactly the listed ones, each with the entry it should have. */
  ghost predicate ListsAll(s: Core, next: map<Name, Metadata>, s': Core) {
    s'.bindings.Keys == next.Keys && forall id | id in next :: BecomesListed(s, id, next[id], s'.bindings[id])
  }

  /** A binding keeps its materials exactly when its entry is too old to be stored, or differs in nothing they
      depend on. */
  ghost predicate ClearsTheDrifted(s: Core, next: map<Name, Metadata>, s': Core)
    requires HasEpochs(s)
  {
    forall id | id in s.bindings ::
      if id in next && (Outdated(s.bindings[id], next[id]) || Agrees(s.bindings[id].metadata, next[id]))
      then Untouched(s, s', id) else Wiped(s, s', id)
  }

  /** What an accepted list does. */
  ghost predicate Adopts(s: Core, next: map<Name, Metadata>, s': Core)
    requires HasEpochs(s)
  {
    ListsAll(s, next, s') && ClearsTheDrifted(s, next, s') && KeepsTheRest(s, next, s')
  }

  lemma InvHasEpochs(cfg: Config, s: Core)
    requires Inv(cfg, s)
    ensures HasEpochs(s)
  {
    forall id | id in s.bindings ensures Ref(id, s.bindings[id].serial) in s.epochs {
      assert BindingOk(id, s.bindings[id], s.epochs, s.snapshots);
    }
  }

  lemma InstalledMeans(cfg: Config, s: Core, next: map<Name, Metadata>, id: Name)
    requires Inv(cfg, s) && id in next
    ensures id in Installed(s, next) && BecomesListed(s, id, next[id], Installed(s, next)[id])
  {
    if id in s.bindings {
      assert BindingOk(id, s.bindings[id], s.epochs, s.snapshots);
    }
    hide Inv;
  }

  lemma BumpsMeans(cfg: Config, s: Core, next: map<Name, Metadata>, id: Name)
    requires Inv(cfg, s) && id in s.bindings
    ensures id in Bumps(s, next) <==>
      !(id in next && (Outdated(s.bindings[id], next[id]) || Agrees(s.bindings[id].metadata, next[id])))
    ensures id in Bumps(s, next) ==> Bumps(s, next)[id] > 0
  {
    assert BindingOk(id, s.bindings[id], s.epochs, s.snapshots);
    hide Inv;
  }

  /** Clearing wipes the bindings it names and leaves the others untouched. */
  lemma ClearMeans(s: Core, bumps: map<Name, nat>, id: Name)
    requires id in s.bindings && Ref(id, s.bindings[id].serial) in s.epochs
    ensures id in bumps && bumps[id] > 0 ==> Wiped(s, ClearMaterials(s, bumps), id)
    ensures id !in bumps ==> Untouched(s, ClearMaterials(s, bumps), id)
  {
  }

  lemma InstallMeans(s: Core, next: map<Name, Metadata>, id: Name)
    requires id in s.bindings && Ref(id, s.bindings[id].serial) in s.epochs && s.bindings[id].serial < s.snapshots
    ensures id in Bumps(s, next) && Bumps(s, next)[id] > 0 ==> Wiped(s, Install(s, next), id)
    ensures id !in Bumps(s, next) ==> Untouched(s, Install(s, next), id)
  {
    hide Bumps, Installed, ClearMaterials;
    ClearMeans(s, Bumps(s, next), id);
  }

  lemma MaterialsAdopted(cfg: Config, s: Core, next: map<Name, Metadata>, s': Core, id: Name)
    requires Inv(cfg, s) && s' == Install(s, next).(consumed := s'.consumed) && id in s.bindings
    ensures Ref(id, s.bindings[id].serial) in s.epochs
    ensures if id in next && (Outdated(s.bindings[id], next[id]) || Agrees(s.bindings[id].metadata, next[id]))
            then Untouched(s, s', id) else Wiped(s, s', id)
  {
    assert BindingOk(id, s.bindings[id], s.epochs, s.snapshots);
    hide Inv, Bumps, Install, Outdated, Agrees;
    BumpsMeans(cfg, s, next, id);
    InstallMeans(s, next, id);
  }

  lemma InstallFrame(s: Core, next: map<Name, Metadata>)
    ensures var s' := Install(s, next);
            && s'.bindings == Installed(s, next) && s'.bindings.Keys == next.Keys
  {
    hide PermitsWithout, RequestsWithout, Bumped, Bumps, Merge;
  }

  /** Clearing takes permits and requests away and leaves all but the epochs of attached objects alone. */
  lemma ClearKeepsTheRest(s: Core, bumps: map<Name, nat>)
    ensures var s' := ClearMaterials(s, bumps);
            && Submap(s'.permits, s.permits) && Submap(s'.active, s.active) && s'.epochs.Keys == s.epochs.Keys
            && (forall r | r in s.epochs && !Attached(s, r) :: s'.epochs[r] == s.epochs[r])
            && s' == s.(permits := s'.permits, active := s'.active, epochs := s'.epochs)
  {
  }

  lemma InstallKeepsTheRest(s: Core, next: map<Name, Metadata>)
    ensures KeepsTheRest(s, next, Install(s, next))
  {
    ClearKeepsTheRest(s, Bumps(s, next));
    hide Bumps, Installed, ClearMaterials, Attached, Submap;
  }

  lemma SameRest(s: Core, next: map<Name, Metadata>, s': Core, consumed: map<nat, int>)
    requires KeepsTheRest(s, next, s')
    ensures KeepsTheRest(s, next, s'.(consumed := consumed))
  {
  }

  lemma AppliedLists(cfg: Config, s: Core, next: map<Name, Metadata>, s': Core)
    requires Inv(cfg, s) && s' == Install(s, next).(consumed := s'.consumed)
    ensures ListsAll(s, next, s')
  {
    InstallFrame(s, next);
    hide Inv, BecomesListed, Install, Installed;
    forall id | id in next ensures BecomesListed(s, id, next[id], s'.bindings[id]) {
      InstalledMeans(cfg, s, next, id);
    }
  }

  lemma AppliedClears(cfg: Config, s: Core, next: map<Name, Metadata>, s': Core)
    requires Inv(cfg, s) && HasEpochs(s) && s' == Install(s, next).(consumed := s'.consumed)
    ensures ClearsTheDrifted(s, next, s')
  {
    hide Inv, Untouched, Wiped, Outdated, Agrees, Install;
    forall id | id in s.bindings
      ensures if id in next && (Outdated(s.bindings[id], next[id]) || Agrees(s.bindings[id].metadata, next[id]))
              then Untouched(s, s', id) else Wiped(s, s', id)
    {
      MaterialsAdopted(cfg, s, next, s', id);
    }
  }

  lemma AppliedAdopts(cfg: Config, s: Core, next: map<Name, Metadata>, s': Core)
    requires Inv(cfg, s) && s' == Install(s, next).(consumed := s'.consumed)
    ensures HasEpochs(s) && Adopts(s, next, s')
  {
    InvHasEpochs(cfg, s);
    InstallKeepsTheRest(s, next);
    hide Inv, HasEpochs, ListsAll, ClearsTheDrifted, KeepsTheRest, Install;
    SameRest(s, next, Install(s, next), s'.consumed);
    AppliedLists(cfg, s, next, s');
    AppliedClears(cfg, s, next, s');
  }

  /** What a snapshot does, exactly: a refused list changes nothing, an accepted one is adopted. */
  lemma SnapshotExactly(cfg: Config, s: Core, offers: seq<Offer>, s': Core)
    requires Inv(cfg, s) && Next(cfg, s, Snapshot(offers), s')
    ensures HasEpochs(s)
    ensures if Listed(offers).Some? then Adopts(s, Listed(offers).value, s') else s' == s.(consumed := s'.consumed)
  {
    InvHasEpochs(cfg, s);
    hide Inv, Install, Listed, Adopts, HasEpochs, Issue, Consume;
    if Listed(offers).Some? {
      AppliedAdopts(cfg, s, Listed(offers).value, s');
    }
  }

  // ---------------------------------------------------------------- where a lease comes from

  /** The binding after a renewal: the answer's three times, a healthy lease, and all else as it was. */
  predicate Prolongs(b: BindingState, answer: Renewal, b': BindingState) {
    var m, m' := b.metadata, b'.metadata;
    && (m'.leaseUntil, m'.graceUntil, m'.absoluteTTL) == (answer.leaseUntil, answer.graceUntil, answer.absoluteTTL)
    && m'.health == Healthy && m'.status == m.status && m'.generation == m.generation
    && (m'.bindingID, m'.toolSession, m'.maxParallel) == (m.bindingID, m.toolSession, m.maxParallel)
    && (m'.allowlistRevision, m'.learningDigest) == (m.allowlistRevision, m.learningDigest)
    && (b'.serial, b'.terminal, b'.terminalGeneration) == (b.serial, b.terminal, b.terminalGeneration)
  }

  /** What committing a renewal does, exactly: under the source's guards the binding is prolonged, and nothing
      else changes. */
  lemma RenewsExactly(s: Core, r: Ref, generation: nat, answer: Renewal)
    ensures var s' := Renew(s, r, generation, answer);
            if && r.id in s.bindings && s.bindings[r.id].serial == r.serial && !s.bindings[r.id].terminal
               && s.bindings[r.id].metadata.generation == generation && s.bindings[r.id].metadata.status == Active
            then
              && s'.bindings.Keys == s.bindings.Keys && Prolongs(s.bindings[r.id], answer, s'.bindings[r.id])
              && (forall id | id in s.bindings && id != r.id :: s'.bindings[id] == s.bindings[id])
              && s' == s.(bindings := s'.bindings)
            else s' == s
  {
  }

  /** The lease and the absolute lifetime a step gives to a binding, if it does: those of a snapshot's entry
      that is stored, or of a renewal answer that is committed. */
  function Granted(s: Core, e: Event, id: Name): Option<(Stamp, Stamp)> {
    match e
    case Snapshot(offers) =>
      if Listed(offers).Some? && id in Listed(offers).value
         && (id in s.bindings ==> !Outdated(s.bindings[id], Listed(offers).value[id]))
      then Some((Listed(offers).value[id].leaseUntil, Listed(offers).value[id].absoluteTTL)) else None
    case DoRenew(r, generation, answer) =>
      if Reaches(s, r, generation, id) then Some((answer.leaseUntil, answer.absoluteTTL)) else None
    case _ => None
  }

  function TimesOf(b: BindingState): (Stamp, Stamp) { (b.metadata.leaseUntil, b.metadata.absoluteTTL) }

  /** The binding's times after a step are what the step gives it, or what they were. */
  predicate TimesMoved(s: Core, e: Event, id: Name, b': BindingState) {
    match Granted(s, e, id)
    case Some(times) => TimesOf(b') == times
    case None => id in s.bindings && TimesOf(b') == TimesOf(s.bindings[id])
  }

  lemma TimesStep(cfg: Config, s: Core, e: Event, s': Core, id: Name)
    requires Inv(cfg, s) && Next(cfg, s, e, s') && id in s'.bindings
    ensures TimesMoved(s, e, id, s'.bindings[id])
  {
    hide Inv, Apply, TimesMoved;
    if AboutLease(e) {
      LeaseKeys(cfg, s, e);
      LeaseTimes(cfg, s, e, id);
    } else if e.Snapshot? {
      SnapshotTimes(cfg, s, e.offers, s', id);
    } else if e.Crash? {
      CrashEmpties(cfg, s, e);
    } else {
      OthersKeepBindings(cfg, s, e);
      OtherTimes(s, e, id);
    }
  }

  lemma OtherTimes(s: Core, e: Event, id: Name)
    requires !AboutLease(e) && !e.Snapshot? && id in s.bindings
    ensures TimesMoved(s, e, id, s.bindings[id])
  {
  }

  lemma SnapshotTimes(cfg: Config, s: Core, offers: seq<Offer>, s': Core, id: Name)
    requires Inv(cfg, s) && Next(cfg, s, Snapshot(offers), s') && id in s'.bindings
    ensures TimesMoved(s, Snapshot(offers), id, s'.bindings[id])
  {
    SnapshotExactly(cfg, s, offers, s');
    hide Inv, Apply, Next, Listed, Untouched, Wiped, Outdated, HasEpochs;
  }

  lemma LeaseTimes(cfg: Config, s: Core, e: Event, id: Name)
    requires AboutLease(e) && id in s.bindings
    ensures id in Apply(cfg, s, e).bindings && TimesMoved(s, e, id, Apply(cfg, s, e).bindings[id])
  {
    if !e.DoRenew? { OneLeaseTimes(s, e, id); }
    hide Renew, FailRenewal, Expire, Revoke, Issue, Consume, Install, Listed, TimesMoved, ClearMaterials, Register,
      Authorize, Unregister, Drop, PruneExpired, MarkSent;
    match e
    case DoRenew(r, generation, answer) => RenewTimes(s, r, generation, answer, id);
    case DoFail(r, now) => FailTimes(cfg, s, r, now, id);
    case DoExpire(r) => ExpireTimes(cfg, s, r, id);
    case DoRevoke(k, generation) => RevokeTimes(cfg, s, k, generation, id);
  }

  /** Failures, expiries and revocations give no times. */
  lemma OneLeaseTimes(s: Core, e: Event, id: Name)
    requires AboutLease(e) && !e.DoRenew? && id in s.bindings
    ensures forall b' :: TimesOf(b') == TimesOf(s.bindings[id]) ==> TimesMoved(s, e, id, b')
  {
  }

  predicate SameTimes(s: Core, s': Core, id: Name) {
    id in s.bindings && id in s'.bindings && TimesOf(s'.bindings[id]) == TimesOf(s.bindings[id])
  }

  lemma ReplaceTimes(s: Core, k: Name, b: BindingState, clearings: nat, id: Name)
    requires k in s.bindings && id in s.bindings && TimesOf(b) == TimesOf(s.bindings[k])
    ensures SameTimes(s, Replace(s, k, b, clearings), id)
  {
    hide Replace, TimesOf;
    ReplaceFrame(s, k, b, clearings);
  }

  lemma FailTimes(cfg: Config, s: Core, r: Ref, now: int, id: Name)
    requires id in s.bindings
    ensures SameTimes(s, FailRenewal(cfg, s, r, now), id)
  {
    assert SameTimes(s, s, id);
    hide Replace, GraceOver, CanFail, Terminate, EnterGrace, TimesOf, SameTimes;
    if Attached(s, r) {
      EndTimes(cfg, s.bindings[r.id], now);
      ReplaceTimes(s, r.id, Terminate(s.bindings[r.id], Expired), 2, id);
      ReplaceTimes(s, r.id, EnterGrace(cfg, s.bindings[r.id], now), 1, id);
    }
  }

  lemma ExpireTimes(cfg: Config, s: Core, r: Ref, id: Name)
    requires id in s.bindings
    ensures SameTimes(s, Expire(s, r), id)
  {
    assert SameTimes(s, s, id);
    hide Replace, Terminate, TimesOf, SameTimes;
    if Attached(s, r) {
      EndTimes(cfg, s.bindings[r.id], 0);
      ReplaceTimes(s, r.id, Terminate(s.bindings[r.id], Expired), 1, id);
    }
  }

  lemma RevokeTimes(cfg: Config, s: Core, k: Name, generation: nat, id: Name)
    requires id in s.bindings
    ensures SameTimes(s, Revoke(s, k, generation), id)
  {
    assert SameTimes(s, s, id);
    hide Replace, Terminate, TimesOf, SameTimes;
    if k in s.bindings {
      EndTimes(cfg, s.bindings[k], 0);
      ReplaceTimes(s, k, Terminate(s.bindings[k], Revoked), 1, id);
    }
  }

  lemma EndTimes(cfg: Config, b: BindingState, now: int)
    ensures TimesOf(Terminate(b, Expired)) == TimesOf(b) && TimesOf(Terminate(b, Revoked)) == TimesOf(b)
    ensures TimesOf(EnterGrace(cfg, b, now)) == TimesOf(b)
  {
  }

  /** The answer is for this object in the generation that asked for it, which is still live. */
  predicate Reaches(s: Core, r: Ref, generation: nat, id: Name) {
    && r.id == id && Attached(s, r) && s.bindings[id].metadata.generation == generation
    && s.bindings[id].metadata.status == Active && !s.bindings[id].terminal
  }

  lemma RenewBinding(s: Core, r: Ref, generation: nat, answer: Renewal, id: Name)
    requires id in s.bindings
    ensures id in Renew(s, r, generation, answer).bindings
    ensures Renew(s, r, generation, answer).bindings[id] ==
            if Reaches(s, r, generation, id) then Renewed(s.bindings[id], answer) else s.bindings[id]
  {
    RenewIs(s, r, generation, answer);
    hide Renewed, Renew;
  }

  lemma RenewIs(s: Core, r: Ref, generation: nat, answer: Renewal)
    ensures Reaches(s, r, generation, r.id) ==>
      Renew(s, r, generation, answer).bindings == s.bindings[r.id := Renewed(s.bindings[r.id], answer)]
    ensures !Reaches(s, r, generation, r.id) ==> Renew(s, r, generation, answer) == s
  {
    hide Renewed;
  }

  lemma RenewTimes(s: Core, r: Ref, generation: nat, answer: Renewal, id: Name)
    requires id in s.bindings
    ensures var s' := Renew(s, r, generation, answer);
            id in s'.bindings && TimesMoved(s, DoRenew(r, generation, answer), id, s'.bindings[id])
  {
    RenewBinding(s, r, generation, answer, id);
    RenewedTimes(s.bindings[id], answer);
    hide Renewed, TimesOf, Renew, Listed, Reaches, Outdated;
  }

  lemma RenewedTimes(b: BindingState, answer: Renewal)
    ensures TimesOf(Renewed(b, answer)) == (answer.leaseUntil, answer.absoluteTTL)
  {
  }

  /** Over every run, the lease and the absolute lifetime of an attached binding are those of the last
      snapshot entry or renewal answer that reached it. */
  lemma {:induction false} TimesOrigin(cfg: Config, states: seq<Core>, events: seq<Event>, j: nat, id: Name)
    returns (i: nat)
    requires Run(cfg, states, events) && j < |states| && id in states[j].bindings
    ensures i < j && Granted(states[i], events[i], id) == Some(TimesOf(states[j].bindings[id]))
    ensures forall k | i < k < j :: Granted(states[k], events[k], id).None?
  {
    hide Next, Inv, Granted, TimesOf;
    assert j > 0;
    RunInv(cfg, states, events, j - 1);
    TimesStep(cfg, states[j - 1], events[j - 1], states[j], id);
    if Granted(states[j - 1], events[j - 1], id).Some? {
      i := j - 1;
    } else {
      i := TimesOrigin(cfg, states, events, j - 1, id);
    }
  }

  // ---------------------------------------------------------------- clearing

  /** The critical section clears the materials of this attached binding. */
  predicate ClearsBinding(s: Core, e: Event, id: Name) {
    id in s.bindings && var b := s.bindings[id];
    match e
    case Snapshot(offers) =>
      Listed(offers).Some? &&
      !(id in Listed(offers).value &&
        (Outdated(b, Listed(offers).value[id]) || Agrees(b.metadata, Listed(offers).value[id])))
    case DoFail(r, _) =>
      r == Ref(id, b.serial) && b.metadata.status == Active && !b.terminal && b.metadata.health != LeaseExpired
    case DoExpire(r) => r == Ref(id, b.serial) && b.metadata.status == Active
    case DoRevoke(k, generation) => k == id && (generation == 0 || generation == b.metadata.generation)
    case DoUnregister(tool, expected) =>
      tool in s.sessions && (expected.Some? ==> s.sessions[tool] == expected.value) && b.metadata.toolSession == tool
    case ReloadTool(tool) => b.metadata.toolSession == tool
    case Reload => true
    case _ => false
  }

  lemma ReplaceMeans(s: Core, k: Name, b: BindingState, clearings: nat, id: Name)
    requires id in s.bindings && Ref(id, s.bindings[id].serial) in s.epochs && clearings > 0
    ensures if k == id then Wiped(s, Replace(s, k, b, clearings), id) else Untouched(s, Replace(s, k, b, clearings), id)
  {
    ClearMeans(s, map[k := clearings], id);
    hide ClearMaterials;
  }

  /** Wiped if it was to be cleared, untouched otherwise. */
  ghost predicate ClearedIf(s: Core, s': Core, id: Name, cleared: bool)
    requires id in s.bindings && Ref(id, s.bindings[id].serial) in s.epochs
  {
    if cleared then Wiped(s, s', id) else Untouched(s, s', id)
  }

  lemma FailClears(cfg: Config, s: Core, r: Ref, now: int, id: Name)
    requires id in s.bindings && Ref(id, s.bindings[id].serial) in s.epochs
    ensures ClearedIf(s, FailRenewal(cfg, s, r, now), id, ClearsBinding(s, DoFail(r, now), id))
  {
    SameUntouched(s, s, id);
    hide Replace, GraceOver, Terminate, EnterGrace, Untouched, Wiped, Listed;
    if Attached(s, r) {
      ReplaceMeans(s, r.id, Terminate(s.bindings[r.id], Expired), 2, id);
      ReplaceMeans(s, r.id, EnterGrace(cfg, s.bindings[r.id], now), 1, id);
    }
  }

  lemma ExpireClears(s: Core, r: Ref, id: Name)
    requires id in s.bindings && Ref(id, s.bindings[id].serial) in s.epochs
    ensures ClearedIf(s, Expire(s, r), id, ClearsBinding(s, DoExpire(r), id))
  {
    SameUntouched(s, s, id);
    hide Replace, Terminate, Untouched, Wiped, Listed;
    if Attached(s, r) { ReplaceMeans(s, r.id, Terminate(s.bindings[r.id], Expired), 1, id); }
  }

  lemma RevokeClears(s: Core, k: Name, generation: nat, id: Name)
    requires id in s.bindings && Ref(id, s.bindings[id].serial) in s.epochs
    ensures ClearedIf(s, Revoke(s, k, generation), id, ClearsBinding(s, DoRevoke(k, generation), id))
  {
    SameUntouched(s, s, id);
    hide Replace, Terminate, Untouched, Wiped, Listed;
    if k in s.bindings { ReplaceMeans(s, k, Terminate(s.bindings[k], Revoked), 1, id); }
  }

  lemma RenewClears(s: Core, r: Ref, generation: nat, answer: Renewal, id: Name)
    requires id in s.bindings && Ref(id, s.bindings[id].serial) in s.epochs
    ensures ClearedIf(s, Renew(s, r, generation, answer), id, ClearsBinding(s, DoRenew(r, generation, answer), id))
  {
    hide Renewed, Listed;
    SameUntouched(s, Renew(s, r, generation, answer), id);
  }

  lemma LeaseClears(cfg: Config, s: Core, e: Event, id: Name)
    requires AboutLease(e) && id in s.bindings && Ref(id, s.bindings[id].serial) in s.epochs
    ensures ClearedIf(s, Apply(cfg, s, e), id, ClearsBinding(s, e, id))
  {
    hide Renew, FailRenewal, Expire, Revoke, Issue, Consume, Install, Listed, ClearMaterials, Register, Authorize,
      Unregister, Drop, PruneExpired, MarkSent, ClearsBinding, ClearedIf;
    match e
    case DoRenew(r, generation, answer) => RenewClears(s, r, generation, answer, id);
    case DoFail(r, now) => FailClears(cfg, s, r, now, id);
    case DoExpire(r) => ExpireClears(s, r, id);
    case DoRevoke(k, generation) => RevokeClears(s, k, generation, id);
  }

  lemma SameUntouched(s: Core, s': Core, id: Name)
    requires id in s.bindings && Ref(id, s.bindings[id].serial) in s.epochs
    requires s'.permits == s.permits && s'.active == s.active && s'.epochs == s.epochs
    ensures Untouched(s, s', id)
  {
  }

  lemma OnceMeans(s: Core, ids: set<Name>, id: Name)
    requires id in s.bindings && Ref(id, s.bindings[id].serial) in s.epochs
    ensures var s' := ClearMaterials(s, Once(ids)); if id in ids then Wiped(s, s', id) else Untouched(s, s', id)
  {
    ClearMeans(s, Once(ids), id);
    hide ClearMaterials, Wiped, Untouched;
  }

  lemma UnregisterClears(s: Core, tool: Name, expected: Option<Name>, id: Name)
    requires id in s.bindings && Ref(id, s.bindings[id].serial) in s.epochs
    ensures ClearedIf(s, Unregister(s, tool, expected), id, ClearsBinding(s, DoUnregister(tool, expected), id))
  {
    SameUntouched(s, s, id);
    OnceMeans(s, OfSession(s.bindings, tool), id);
    hide ClearMaterials, Once, Listed;
  }

  lemma ReloadClears(cfg: Config, s: Core, e: Event, id: Name)
    requires (e.Reload? || e.ReloadTool?) && id in s.bindings && Ref(id, s.bindings[id].serial) in s.epochs
    ensures ClearedIf(s, Apply(cfg, s, e), id, ClearsBinding(s, e, id))
  {
    hide ClearMaterials, Once, Issue, Consume, Install, Listed, Replace, Untouched, Wiped;
    if e.Reload? {
      OnceMeans(s, s.bindings.Keys, id);
    } else {
      OnceMeans(s, OfSession(s.bindings, e.tool), id);
    }
  }

  lemma SessionClears(cfg: Config, s: Core, e: Event, id: Name)
    requires AboutSession(e) && id in s.bindings && Ref(id, s.bindings[id].serial) in s.epochs
    ensures ClearedIf(s, Apply(cfg, s, e), id, ClearsBinding(s, e, id))
  {
    if e.Reload? || e.ReloadTool? {
      ReloadClears(cfg, s, e, id);
      hide Apply, ClearsBinding, ClearedIf;
    } else if e.DoUnregister? {
      UnregisterClears(s, e.tool, e.expected, id);
      hide Unregister, ClearsBinding, ClearedIf, Issue, Consume, Install, Listed;
    } else {
      hide Issue, Consume, Install, Listed, Unregister, ClearMaterials;
      SameUntouched(s, Apply(cfg, s, e), id);
    }
  }

  lemma SnapshotClears(cfg: Config, s: Core, e: Event, s': Core, id: Name)
    requires Inv(cfg, s) && Next(cfg, s, e, s') && e.Snapshot? && id in s.bindings && HasEpochs(s)
    ensures ClearedIf(s, s', id, ClearsBinding(s, e, id))
  {
    hide Inv, Next, Listed, Outdated, Agrees, ListsAll, KeepsTheRest, Untouched, Wiped;
    SnapshotExactly(cfg, s, e.offers, s');
    if Listed(e.offers).None? { SameUntouched(s, s', id); }
  }

  /** Pruning the replay cache touches no materials. */
  lemma CacheAside(s: Core, s': Core, consumed: map<nat, int>, id: Name, cleared: bool)
    requires id in s.bindings && Ref(id, s.bindings[id].serial) in s.epochs && ClearedIf(s, s', id, cleared)
    ensures ClearedIf(s, s'.(consumed := consumed), id, cleared)
  {
  }

  /** A binding's materials are wiped by exactly the critical sections that clear it. The lease, session and
      snapshot sections leave every other binding untouched. */
  lemma ClearsExactly(cfg: Config, s: Core, e: Event, s': Core, id: Name)
    requires Inv(cfg, s) && Next(cfg, s, e, s') && (AboutLease(e) || AboutSession(e) || e.Snapshot?) && id in s.bindings
    ensures Ref(id, s.bindings[id].serial) in s.epochs
    ensures if ClearsBinding(s, e, id) then Wiped(s, s', id) else Untouched(s, s', id)
  {
    InvHasEpochs(cfg, s);
    hide Inv, Apply, ClearsBinding, Untouched, Wiped;
    if e.Snapshot? {
      SnapshotClears(cfg, s, e, s', id);
    } else {
      if AboutLease(e) { LeaseClears(cfg, s, e, id); } else { SessionClears(cfg, s, e, id); }
      CacheAside(s, Apply(cfg, s, e), s'.consumed, id, ClearsBinding(s, e, id));
    }
  }

  // ---------------------------------------------------------------- ending and failing

  /** The binding after its generation ended: terminal under this status, its lease expired and without a
      deadline, and all else as it was. */
  predicate Ended(b: BindingState, status: Status, b': BindingState) {
    && b'.terminal && b'.terminalGeneration == b.metadata.generation && b'.serial == b.serial
    && b'.metadata.status == status && b'.metadata.health == LeaseExpired && b'.metadata.graceUntil == Missing
    && b'.metadata.(status := b.metadata.status, health := b.metadata.health, graceUntil := b.metadata.graceUntil)
       == b.metadata
  }

  /** The binding in grace: under its deadline, or a fresh one if it had none, and all else as it was. */
  predicate Failing(cfg: Config, b: BindingState, now: int, b': BindingState) {
    && b'.metadata.health == RenewalGrace
    && b'.metadata.graceUntil == (if b.metadata.graceUntil.Missing? || b.metadata.graceUntil.Blank?
                                  then At(now + cfg.renewGrace) else b.metadata.graceUntil)
    && b'.(metadata := b'.metadata.(health := b.metadata.health, graceUntil := b.metadata.graceUntil)) == b
  }

  lemma EndedBy(b: BindingState, status: Status)
    ensures Ended(b, status, Terminate(b, status))
  {
  }

  lemma FailingBy(cfg: Config, b: BindingState, now: int)
    ensures Failing(cfg, b, now, EnterGrace(cfg, b, now))
  {
  }

  /** What a revocation, an expiry and a failed renewal make of a binding, exactly: ended, in grace, or as it
      was. */
  lemma EndsExactly(cfg: Config, s: Core, e: Event, id: Name)
    requires (e.DoRevoke? || e.DoExpire? || e.DoFail?) && id in s.bindings
    ensures var b, bindings := s.bindings[id], Apply(cfg, s, e).bindings;
            && bindings.Keys == s.bindings.Keys
            && if !ClearsBinding(s, e, id) then bindings[id] == b
               else if e.DoRevoke? then Ended(b, Revoked, bindings[id])
               else if e.DoExpire? || GraceOver(b, e.now) then Ended(b, Expired, bindings[id])
               else Failing(cfg, b, e.now, bindings[id])
  {
    EndedBy(s.bindings[id], Revoked);
    EndedBy(s.bindings[id], Expired);
    if e.DoFail? { FailingBy(cfg, s.bindings[id], e.now); }
    hide Ended, Failing, Terminate, EnterGrace, GraceOver, ClearMaterials, Issue, Consume, Install, Listed;
  }

  // ---------------------------------------------------------------- waking the waiters, exactly

  ghost predicate Clears(s: Core, e: Event) { exists id :: ClearsBinding(s, e, id) }

  lemma NothingCleared(s: Core)
    ensures ClearMaterials(s, map[]).active == s.active && ClearMaterials(s, Once({})).active == s.active
  {
    assert Once({}) == map[];
  }

  lemma LeaseWakes(cfg: Config, s: Core, e: Event)
    requires AboutLease(e)
    ensures Notifies(cfg, s, e) <==> Clears(s, e)
    ensures !Notifies(cfg, s, e) ==> Apply(cfg, s, e).active == s.active
  {
    hide Issue, Consume, Install, Listed, Replace, Terminate, EnterGrace, GraceOver, Renewed, PruneNotifies;
    if Notifies(cfg, s, e) {
      assert ClearsBinding(s, e, if e.DoRevoke? then e.id else e.ref.id);
    }
  }

  lemma SessionWakes(cfg: Config, s: Core, e: Event)
    requires AboutSession(e)
    ensures Notifies(cfg, s, e) <==> Clears(s, e)
    ensures !Notifies(cfg, s, e) ==> Apply(cfg, s, e).active == s.active
  {
    NothingCleared(s);
    hide Issue, Consume, Install, Listed, ClearMaterials, PruneNotifies, Once;
    if Notifies(cfg, s, e) {
      if e.Reload? {
        var id :| id in s.bindings;
        assert ClearsBinding(s, e, id);
      } else {
        var id :| id in OfSession(s.bindings, e.tool);
        assert ClearsBinding(s, e, id);
      }
    }
    if Clears(s, e) {
      var id :| ClearsBinding(s, e, id);
      if !e.Reload? { assert id in OfSession(s.bindings, e.tool); }
    }
    if e.Reload? && s.bindings == map[] { assert s.bindings.Keys == {}; }
  }

  lemma SnapshotWakes(cfg: Config, s: Core, offers: seq<Offer>)
    requires Inv(cfg, s)
    ensures Notifies(cfg, s, Snapshot(offers)) <==> Clears(s, Snapshot(offers))
    ensures !Notifies(cfg, s, Snapshot(offers)) ==> Apply(cfg, s, Snapshot(offers)).active == s.active
  {
    NothingCleared(s);
    if Listed(offers).Some? {
      forall id | id in s.bindings
        ensures id in Bumps(s, Listed(offers).value) <==> ClearsBinding(s, Snapshot(offers), id)
      {
        BumpsMeans(cfg, s, Listed(offers).value, id);
      }
      SomeBump(s, Listed(offers).value);
    }
    hide Inv, Listed, Bumps, ClearMaterials, Installed, NewEpochs, Issue, Consume, Outdated, Agrees;
  }

  lemma SomeBump(s: Core, next: map<Name, Metadata>)
    ensures Bumps(s, next) != map[] <==> exists id :: id in s.bindings && id in Bumps(s, next)
  {
    if Bumps(s, next) != map[] {
      var id :| id in Bumps(s, next);
    }
  }

  lemma PruneWakes(s: Core, now: int)
    ensures PruneNotifies(s, now) <==> PruneExpired(s, now).active != s.active
  {
    if PruneNotifies(s, now) {
      var q :| q in s.permits && s.permits[q].expiresAt <= now && q in s.active && !s.active[q].submitted;
      assert q !in PruneExpired(s, now).active;
    } else {
      assert PruneExpired(s, now).active == s.active;
    }
  }

  lemma GrantAdds(s: Core, m: Metadata, env: IssueEnv)
    ensures Grant(s, m, env).1.Ok? ==> s.sequence + 1 in Grant(s, m, env).0.active
    ensures Grant(s, m, env).1.Err? ==> Grant(s, m, env).0.active == s.active
  {
    hide PermitExpiry;
  }

  lemma IssueAdds(cfg: Config, s: Core, nonce: Name, tool: Name, env: IssueEnv)
    ensures Issue(cfg, s, nonce, tool, env).1.Ok? ==> s.sequence + 1 in Issue(cfg, s, nonce, tool, env).0.active
    ensures Issue(cfg, s, nonce, tool, env).1.Err? ==>
      Issue(cfg, s, nonce, tool, env).0.active == PruneExpired(s, env.now).active
  {
    hide Grant, Admit, LivePermits, LiveRequests;
    var pruned := PruneExpired(s, env.now);
    match Admit(cfg, pruned, nonce, tool)
    case Err(_) =>
    case Ok(m) => GrantAdds(pruned, m, env);
  }

  lemma IssueWakes(cfg: Config, s: Core, nonce: Name, tool: Name, env: IssueEnv)
    requires Inv(cfg, s)
    ensures PruneNotifies(s, env.now) || Issue(cfg, s, nonce, tool, env).1.Ok? <==>
      Issue(cfg, s, nonce, tool, env).0.active != s.active
  {
    PruneWakes(s, env.now);
    forall q | q in s.active ensures q <= s.sequence { assert RequestOk(q, s.active[q], s.bindings, s.sequence); }
    assert s.sequence + 1 !in s.active;
    IssueAdds(cfg, s, nonce, tool, env);
    hide Inv, Issue, PruneExpired, PruneNotifies;
  }

  lemma ConsumeWakes(cfg: Config, s: Core, c: Submission)
    requires Inv(cfg, s)
    ensures (Consume(s, c).1.Ok? && c.sequence in s.active) || Consume(s, c).1 == Err(ErrLeaseExpired) <==>
      Consume(s, c).0.active != s.active
  {
    hide BindingsOk, RequestsOk, ParallelOk, ReplayOk, SessionsOk, RegisteredOk;
  }

  lemma RequestWakes(cfg: Config, s: Core, e: Event)
    requires Inv(cfg, s) && (e.DoIssue? || e.DoConsume? || e.Release? || e.Prune?)
    ensures Notifies(cfg, s, e) <==> Apply(cfg, s, e).active != s.active
    ensures !Clears(s, e)
  {
    match e
    case DoIssue(nonce, tool, env) =>
      IssueWakes(cfg, s, nonce, tool, env);
      hide Issue, Consume, Inv, PruneNotifies, Install, Listed;
    case Prune(now) =>
      PruneWakes(s, now);
      hide Issue, Consume, Inv, PruneExpired, PruneNotifies, Install, Listed;
    case DoConsume(c) =>
      ConsumeWakes(cfg, s, c);
      hide Issue, Consume, Inv, PruneExpired, PruneNotifies, Install, Listed;
    case Release(_) =>
      hide Issue, Consume, Inv, PruneExpired, PruneNotifies, Install, Listed;
  }

  /** A critical section closes the `changed` channel if and only if it changes the registered requests, clears
      some binding, or marks a request. */
  lemma WakesExactly(cfg: Config, s: Core, e: Event)
    requires Inv(cfg, s) && !e.Crash?
    ensures Notifies(cfg, s, e) <==>
      || Apply(cfg, s, e).active != s.active || Clears(s, e)
      || (e.DoMarkSent? && e.sequence in s.active && s.active[e.sequence].bindingID == e.id
          && s.active[e.sequence].submitted)
  {
    if e.DoMarkSent? {
      hide Inv, Issue, Consume, Install, Listed, PruneNotifies;
    } else {
      hide Inv, Apply, Notifies, Clears, ClearsBinding;
      if AboutLease(e) { LeaseWakes(cfg, s, e); }
      else if AboutSession(e) { SessionWakes(cfg, s, e); }
      else if e.Snapshot? { SnapshotWakes(cfg, s, e.offers); }
      else { RequestWakes(cfg, s, e); }
    }
  }
}
