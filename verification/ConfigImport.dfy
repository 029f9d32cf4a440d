/** Importing an account's configuration files under write-ahead receipts and a permanent account fence.

    The helper runs imports one at a time; a process crash may fall between any two of an import's
    durable actions, and keeps what the completed ones did. The receipt store and the fence store are
    durable maps: a record is published by an atomic rename, whose own directory sync may still report
    an error afterwards. */
module ConfigImport {
  import opened Options

  type TaskID(==, !new)
  type Account(==, !new)
  type Digest(==, !new)

  datatype Mode = Legacy | Migrating | Managed

  datatype ReceiptState = Started | Succeeded | FailedState

  /** A receipt retains the identity of the task and its immutable input, and an outcome. */
  datatype Receipt = Receipt(account: Account, digest: Digest, state: ReceiptState)

  datatype Request = Request(task: TaskID, account: Account, digest: Digest, mode: Mode, epoch: nat)

  /** One writing of a task's file batch, and whether it ended without an error. */
  datatype Batch = Batch(task: TaskID, account: Account, mode: Mode, ok: bool)

  /** `written` is the history of file batches; it is never read by the code. */
  datatype Store = Store(receipts: map<TaskID, Receipt>, fences: map<Account, nat>, written: seq<Batch>)

  datatype Answer = Imported | Pending | Failed | Refused | Crashed

  /** How publishing one record ends: not at all, durably but with an error, or durably. */
  datatype Publish = NotPublished | PublishedWithError | Published

  /** What the environment decides during one import: whether stored records can be read, how each
      publication ends, whether the checks before the write pass, how the write ends, and after how
      many durable actions the process dies, if it does. */
  datatype Env = Env(readable: bool, fence: Publish, checks: bool, begin: Publish, writeOk: bool, finish: Publish,
      crash: Option<nat>)

  predicate Dies(env: Env, after: nat) { env.crash == Some(after) }

  function Put(m: map<TaskID, Receipt>, k: TaskID, r: Receipt, how: Publish): map<TaskID, Receipt> {
    if how.NotPublished? then m else m[k := r]
  }

  /** The directory mode an import runs in. A request that is not legacy closes the account first; a
      legacy request against a closed account becomes managed. */
  function ModeFor(s: Store, q: Request, env: Env): (Store, Option<Mode>) {
    if q.mode != Legacy then
      if q.account in s.fences then (s, Some(q.mode))
      else
        (if env.fence.NotPublished? then s else s.(fences := s.fences[q.account := q.epoch]),
         if env.fence.Published? then Some(q.mode) else None)
    else (s, Some(if q.account in s.fences then Managed else Legacy))
  }

  /** What a stored receipt answers. */
  function AnswerOf(state: ReceiptState): Answer {
    match state
    case Succeeded => Imported
    case FailedState => Failed
    case Started => Pending
  }

  function StartedReceipt(q: Request): Receipt { Receipt(q.account, q.digest, Started) }

  /** The part of an import that writes: intent, files, outcome. */
  function Write(s: Store, q: Request, mode: Mode, env: Env): (Store, Answer) {
    var begun := s.(receipts := Put(s.receipts, q.task, StartedReceipt(q), env.begin));
    if Dies(env, 1) then (begun, Crashed)
    else if !env.begin.Published? then (begun, Refused)
    else
      var wrote := begun.(written := begun.written + [Batch(q.task, q.account, mode, env.writeOk)]);
      if Dies(env, 2) then (wrote, Crashed)
      else
        var outcome := StartedReceipt(q).(state := if env.writeOk then Succeeded else FailedState);
        var done := wrote.(receipts := Put(wrote.receipts, q.task, outcome, env.finish));
        if Dies(env, 3) then (done, Crashed)
        else (done, if !env.finish.Published? then Pending else if env.writeOk then Imported else Failed)
  }

  function Import(s: Store, q: Request, env: Env): (Store, Answer) {
    if !env.readable then (s, Refused)
    else if q.task in s.receipts && s.receipts[q.task].(state := Started) != StartedReceipt(q) then (s, Refused)
    else
      var (fenced, mode) := ModeFor(s, q, env);
      if Dies(env, 0) then (fenced, Crashed)
      else if mode.None? then (fenced, Refused)
      else if q.task in s.receipts then
        (fenced, AnswerOf(s.receipts[q.task].state))
      else if !env.checks then (fenced, Refused)
      else Write(fenced, q, mode.value, env)
  }

  // ---------------------------------------------------------------- the object

  class Importer {
    var receipts: map<TaskID, Receipt>
    var fences: map<Account, nat>
    ghost var written: seq<Batch>

    ghost function Abstract(): Store
      reads this
    {
      Store(receipts, fences, written)
    }

    constructor ()
      ensures Abstract() == Store(map[], map[], [])
    {
      receipts, fences, written := map[], map[], [];
    }

    /** Publishing a receipt; only `BeginImport` refuses to replace one. */
    method PublishReceipt(task: TaskID, r: Receipt, how: Publish) returns (ok: bool)
      modifies `receipts
      ensures receipts == Put(old(receipts), task, r, how) && (ok <==> how.Published?)
    {
      if !how.NotPublished? { receipts := receipts[task := r]; }
      ok := how.Published?;
    }

    /** The mode is legacy only for an account without a fence; any other mode leaves one behind, and no
        fence is ever replaced. */
    method ImportMode(q: Request, env: Env) returns (mode: Option<Mode>)
      modifies `fences
      ensures forall a | a in old(fences) :: a in fences && fences[a] == old(fences)[a]
      ensures fences.Keys <= old(fences).Keys + {q.account}
      ensures mode == Some(Legacy) <==> q.mode == Legacy && q.account !in fences
      ensures mode.Some? && mode != Some(Legacy) ==> q.account in fences
      ensures mode.Some? && q.mode != Legacy ==> mode.value == q.mode
      ensures mode.None? <==> q.mode != Legacy && q.account !in old(fences) && !env.fence.Published?
      ensures q.account in fences && q.account !in old(fences) ==> fences[q.account] == q.epoch && q.mode != Legacy
      ensures (Abstract(), mode) == ModeFor(old(Abstract()), q, env)
    {
      if q.mode == Legacy {
        return Some(if q.account in fences then Managed else Legacy);
      }
      if q.account in fences { return Some(q.mode); }
      if !env.fence.NotPublished? { fences := fences[q.account := q.epoch]; }
      mode := if env.fence.Published? then Some(q.mode) else None;
    }

    /** No earlier receipt or fence changes and at most the task's own batch is written, never a second time.
        Success and failure mean a durable receipt of that outcome for this input and a batch written exactly
        once, without an error or with one; a pending answer means that the task has a receipt for this input,
        so it will never be written again. */
    method ImportAccountConfig(q: Request, env: Env) returns (answer: Answer)
      modifies this
      ensures Extends(old(Abstract()), Abstract(), q)
      ensures old(WriteOnce(Abstract())) ==> WriteOnce(Abstract())
      ensures answer == Imported ==> q.task in receipts && receipts[q.task] == Receipt(q.account, q.digest, Succeeded)
      ensures answer == Failed ==> q.task in receipts && receipts[q.task] == Receipt(q.account, q.digest, FailedState)
      ensures answer == Imported && old(WriteOnce(Abstract())) ==> WroteOnce(written, q.task, true)
      ensures answer == Failed && old(WriteOnce(Abstract())) ==> WroteOnce(written, q.task, false)
      ensures answer == Pending ==>
        q.task in receipts && receipts[q.task].account == q.account && receipts[q.task].digest == q.digest
      ensures answer == Refused && q.task !in old(receipts) ==> written == old(written)
      ensures (Abstract(), answer) == Import(old(Abstract()), q, env)
    {
      hide Extends, WriteOnce, WroteOnce;
      ImportMeans(Abstract(), q, env);
      if !env.readable { return Refused; }
      var saved: Option<Receipt> := if q.task in receipts then Some(receipts[q.task]) else None;
      if saved.Some? && (saved.value.account != q.account || saved.value.digest != q.digest) { return Refused; }
      var mode := ImportMode(q, env);
      if Dies(env, 0) { return Crashed; }
      if mode.None? { return Refused; }
      if saved.Some? {
        match saved.value.state {
          case Succeeded => return Imported;
          case FailedState => return Failed;
          case Started => return Pending;
        }
      }
      if !env.checks { return Refused; }
      var begun := PublishReceipt(q.task, StartedReceipt(q), env.begin);
      if Dies(env, 1) { return Crashed; }
      if !begun { return Refused; }
      written := written + [Batch(q.task, q.account, mode.value, env.writeOk)];
      if Dies(env, 2) { return Crashed; }
      var outcome := if env.writeOk then Succeeded else FailedState;
      var finished := PublishReceipt(q.task, Receipt(q.account, q.digest, outcome), env.finish);
      if Dies(env, 3) { return Crashed; }
      if !finished { return Pending; }
      answer := if env.writeOk then Imported else Failed;
    }
  }

  // ---------------------------------------------------------------- runs

  /** Any sequence of imports, each with its own faults and its own crash. A crash loses nothing durable,
      so the next import starts from the same store. */
  ghost predicate Run(stores: seq<Store>, requests: seq<Request>, envs: seq<Env>) {
    && |stores| == |requests| + 1 && |envs| == |requests| && stores[0] == Store(map[], map[], [])
    && (forall i | 0 <= i < |requests| :: stores[i + 1] == Import(stores[i], requests[i], envs[i]).0)
  }

  function AnswerAt(stores: seq<Store>, requests: seq<Request>, envs: seq<Env>, i: nat): Answer
    requires i < |requests| && i < |stores| && i < |envs|
  {
    Import(stores[i], requests[i], envs[i]).1
  }

  /** The task has a batch that ended this way. */
  ghost predicate Wrote(written: seq<Batch>, task: TaskID, ok: bool) {
    exists i :: 0 <= i < |written| && written[i].task == task && written[i].ok == ok
  }

  /** No task is written twice, every written task has a receipt, and a settled receipt tells how its batch
      ended. */
  ghost predicate WriteOnce(s: Store) {
    && (forall i, j | 0 <= i < j < |s.written| :: s.written[i].task != s.written[j].task)
    && (forall i | 0 <= i < |s.written| :: s.written[i].task in s.receipts)
    && (forall t | t in s.receipts && s.receipts[t].state == Succeeded :: Wrote(s.written, t, true))
    && (forall t | t in s.receipts && s.receipts[t].state == FailedState :: Wrote(s.written, t, false))
  }

  /** The history grows by this batch of the request: in the request's mode, or managed where a legacy
      request meets a fence, and legacy only for an account without one. */
  ghost predicate Adds(s: Store, s': Store, q: Request, batch: Batch) {
    && q.task !in s.receipts && q.task in s'.receipts && s'.written == s.written + [batch]
    && batch.task == q.task && batch.account == q.account
    && batch.mode == (if q.mode == Legacy && q.account in s'.fences then Managed else q.mode)
    && (batch.mode == Legacy ==> q.account !in s'.fences)
    && (s'.receipts[q.task].state == Succeeded ==> batch.ok)
    && (s'.receipts[q.task].state == FailedState ==> !batch.ok)
  }

  /** What an import may do to the store: receipts and fences stay unchanged; only the task's own receipt, for
      the request's input, and the account's own fence are new; the history grows by at most the task's own
      batch, and only if the task had no receipt; a new receipt is settled only with a batch that ended so. */
  ghost predicate Extends(s: Store, s': Store, q: Request) {
    && (forall t | t in s.receipts :: t in s'.receipts && s'.receipts[t] == s.receipts[t])
    && (forall a | a in s.fences :: a in s'.fences && s'.fences[a] == s.fences[a])
    && (forall a | a in s'.fences && a !in s.fences :: a == q.account && s'.fences[a] == q.epoch && q.mode != Legacy)
    && (forall t | t in s'.receipts && t !in s.receipts ::
          t == q.task && s'.receipts[t].account == q.account && s'.receipts[t].digest == q.digest)
    && (s'.written == s.written || (s'.written != [] && Adds(s, s', q, s'.written[|s'.written| - 1])))
    && (forall t | t in s'.receipts && t !in s.receipts && s'.receipts[t].state != Started :: s'.written != s.written)
  }

  /** Choosing the mode changes no receipt and no history, and leaves a fence wherever it does not
      choose legacy. */
  lemma ModeForFences(s: Store, q: Request, env: Env)
    ensures var (fenced, mode) := ModeFor(s, q, env);
            && fenced.receipts == s.receipts && fenced.written == s.written
            && (forall a | a in s.fences :: a in fenced.fences && fenced.fences[a] == s.fences[a])
            && fenced.fences.Keys <= s.fences.Keys + {q.account}
            && (mode == Some(Legacy) <==> q.mode == Legacy && q.account !in fenced.fences)
            && (mode.Some? && mode != Some(Legacy) ==> q.account in fenced.fences)
            && (mode.Some? && q.mode != Legacy ==> mode.value == q.mode)
            && (mode.Some? && q.mode == Legacy ==> mode.value == if q.account in s.fences then Managed else Legacy)
            && (forall a | a in fenced.fences && a !in s.fences ::
                  a == q.account && fenced.fences[a] == q.epoch && q.mode != Legacy)
  {
  }

  lemma WriteExtends(s: Store, q: Request, mode: Mode, env: Env)
    requires q.task !in s.receipts && mode == (if q.mode == Legacy && q.account in s.fences then Managed else q.mode)
    requires mode == Legacy ==> q.account !in s.fences
    ensures Extends(s, Write(s, q, mode, env).0, q)
  {
    var s' := Write(s, q, mode, env).0;
    var batch := Batch(q.task, q.account, mode, env.writeOk);
    if s'.written != s.written {
      assert s'.written == s.written + [batch];
      assert Adds(s, s', q, batch);
    }
  }

  lemma ImportExtends(s: Store, q: Request, env: Env)
    ensures Extends(s, Import(s, q, env).0, q)
  {
    hide ModeFor, Write;
    var (fenced, mode) := ModeFor(s, q, env);
    ModeForFences(s, q, env);
    if mode.Some? && q.task !in s.receipts {
      WriteExtends(fenced, q, mode.value, env);
    }
  }

  lemma WroteStays(written: seq<Batch>, batch: Batch, task: TaskID, ok: bool)
    requires Wrote(written, task, ok)
    ensures Wrote(written + [batch], task, ok)
  {
    var i :| 0 <= i < |written| && written[i].task == task && written[i].ok == ok;
    assert (written + [batch])[i] == written[i];
  }

  lemma WroteNow(written: seq<Batch>, batch: Batch)
    ensures Wrote(written + [batch], batch.task, batch.ok)
  {
    assert (written + [batch])[|written|] == batch;
  }

  lemma OutcomeKept(s: Store, s': Store, q: Request, t: TaskID, state: ReceiptState)
    requires WriteOnce(s) && Extends(s, s', q) && t in s'.receipts && s'.receipts[t].state == state != Started
    ensures Wrote(s'.written, t, state == Succeeded)
  {
    if s'.written != s.written {
      var batch := s'.written[|s'.written| - 1];
      WroteNow(s.written, batch);
      if t in s.receipts { WroteStays(s.written, batch, t, state == Succeeded); }
    }
  }

  lemma ExtendsKeeps(s: Store, s': Store, q: Request)
    requires WriteOnce(s) && Extends(s, s', q)
    ensures WriteOnce(s')
  {
    forall t | t in s'.receipts && s'.receipts[t].state != Started
      ensures Wrote(s'.written, t, s'.receipts[t].state == Succeeded)
    {
      OutcomeKept(s, s', q, t, s'.receipts[t].state);
    }
    hide Wrote;
  }

  lemma {:induction false} RunWriteOnce(stores: seq<Store>, requests: seq<Request>, envs: seq<Env>, i: nat)
    requires Run(stores, requests, envs) && i < |stores|
    ensures WriteOnce(stores[i])
  {
    hide Import;
    if i > 0 {
      RunWriteOnce(stores, requests, envs, i - 1);
      ImportExtends(stores[i - 1], requests[i - 1], envs[i - 1]);
      ExtendsKeeps(stores[i - 1], stores[i], requests[i - 1]);
    }
  }

  function Count(written: seq<Batch>, task: TaskID): nat {
    if written == [] then 0
    else (if written[|written| - 1].task == task then 1 else 0) + Count(written[..|written| - 1], task)
  }

  lemma {:induction false} CountDistinct(written: seq<Batch>, task: TaskID)
    requires forall i, j | 0 <= i < j < |written| :: written[i].task != written[j].task
    ensures Count(written, task) <= 1
    ensures Count(written, task) == 1 <==> exists i :: 0 <= i < |written| && written[i].task == task
  {
    if written != [] {
      var shorter := written[..|written| - 1];
      CountDistinct(shorter, task);
      assert forall i | 0 <= i < |shorter| :: shorter[i] == written[i];
    }
  }

  /** The task has one batch, and it ended this way. */
  ghost predicate WroteOnce(written: seq<Batch>, task: TaskID, ok: bool) {
    Count(written, task) == 1 && forall i | 0 <= i < |written| && written[i].task == task :: written[i].ok == ok
  }

  /** In a store in order, a settled receipt goes with exactly one batch, which ended as it says. */
  lemma SettledMeans(s: Store, task: TaskID)
    requires WriteOnce(s) && task in s.receipts && s.receipts[task].state != Started
    ensures WroteOnce(s.written, task, s.receipts[task].state == Succeeded)
  {
    CountDistinct(s.written, task);
    var ok := s.receipts[task].state == Succeeded;
    assert Wrote(s.written, task, ok);
    hide Count;
    var n :| 0 <= n < |s.written| && s.written[n].task == task && s.written[n].ok == ok;
    forall i | 0 <= i < |s.written| && s.written[i].task == task ensures s.written[i].ok == ok {
      assert i == n;
    }
  }

  /** What one import leaves and what its answer means. */
  lemma ImportMeans(s: Store, q: Request, env: Env)
    ensures var (s', answer) := Import(s, q, env);
            && Extends(s, s', q) && (WriteOnce(s) ==> WriteOnce(s'))
            && (answer == Imported ==>
                  q.task in s'.receipts && s'.receipts[q.task] == Receipt(q.account, q.digest, Succeeded))
            && (answer == Failed ==>
                  q.task in s'.receipts && s'.receipts[q.task] == Receipt(q.account, q.digest, FailedState))
            && (answer == Imported && WriteOnce(s) ==> WroteOnce(s'.written, q.task, true))
            && (answer == Failed && WriteOnce(s) ==> WroteOnce(s'.written, q.task, false))
            && (answer == Pending ==>
                  q.task in s'.receipts && s'.receipts[q.task].account == q.account
                    && s'.receipts[q.task].digest == q.digest)
            && (answer == Refused && q.task !in s.receipts ==> s'.written == s.written)
  {
    ImportExtends(s, q, env);
    var (s', answer) := Import(s, q, env);
    AnswerMeans(s, q, env);
    hide Import, Extends, WroteOnce;
    if WriteOnce(s) {
      ExtendsKeeps(s, s', q);
      hide WriteOnce;
      if answer == Imported || answer == Failed { SettledMeans(s', q.task); }
    }
  }

  lemma AnswerMeans(s: Store, q: Request, env: Env)
    ensures var (s', answer) := Import(s, q, env);
            && (answer == Imported ==>
                  q.task in s'.receipts && s'.receipts[q.task] == Receipt(q.account, q.digest, Succeeded))
            && (answer == Failed ==>
                  q.task in s'.receipts && s'.receipts[q.task] == Receipt(q.account, q.digest, FailedState))
            && (answer == Pending ==>
                  q.task in s'.receipts && s'.receipts[q.task].account == q.account
                    && s'.receipts[q.task].digest == q.digest)
            && (answer == Refused && q.task !in s.receipts ==> s'.written == s.written)
  {
  }

  /** Over any run with crashes and retries, a task's file batch is written at most once. */
  lemma WrittenAtMostOnce(stores: seq<Store>, requests: seq<Request>, envs: seq<Env>, i: nat, task: TaskID)
    requires Run(stores, requests, envs) && i < |stores|
    ensures Count(stores[i].written, task) <= 1
  {
    RunWriteOnce(stores, requests, envs, i);
    CountDistinct(stores[i].written, task);
  }

  /** In every run, a settled receipt tells how the task's one batch ended: "succeeded" only if it was written
      without an error, "failed" only if it was written with one. */
  lemma ReceiptTellsOutcome(stores: seq<Store>, requests: seq<Request>, envs: seq<Env>, i: nat, task: TaskID)
    requires Run(stores, requests, envs) && i < |stores|
    requires task in stores[i].receipts && stores[i].receipts[task].state != Started
    ensures WroteOnce(stores[i].written, task, stores[i].receipts[task].state == Succeeded)
  {
    RunWriteOnce(stores, requests, envs, i);
    SettledMeans(stores[i], task);
  }

  /** Success is answered, at a first import or a retry, only once a "succeeded" receipt for exactly this input
      is durable and the batch has been written, exactly once and without an error; failure only once a
      "failed" receipt is and the batch was written with one. */
  lemma SuccessIsDurable(stores: seq<Store>, requests: seq<Request>, envs: seq<Env>, i: nat)
    requires Run(stores, requests, envs) && i < |requests| && AnswerAt(stores, requests, envs, i) in {Imported, Failed}
    ensures var q, ok := requests[i], AnswerAt(stores, requests, envs, i) == Imported;
            && q.task in stores[i + 1].receipts
            && stores[i + 1].receipts[q.task] == Receipt(q.account, q.digest, if ok then Succeeded else FailedState)
            && WroteOnce(stores[i + 1].written, q.task, ok)
  {
    RunWriteOnce(stores, requests, envs, i);
    ImportMeans(stores[i], requests[i], envs[i]);
    hide Import, WroteOnce, WriteOnce, Extends;
  }

  lemma {:induction false} ReceiptsStay(stores: seq<Store>, requests: seq<Request>, envs: seq<Env>, i: nat, j: nat,
      task: TaskID)
    requires Run(stores, requests, envs) && i <= j < |stores| && task in stores[i].receipts
    ensures task in stores[j].receipts && stores[j].receipts[task] == stores[i].receipts[task]
    decreases j - i
  {
    hide Import;
    if i < j {
      ReceiptsStay(stores, requests, envs, i, j - 1, task);
      ImportExtends(stores[j - 1], requests[j - 1], envs[j - 1]);
    }
  }

  /** What the answer to a request is once its task has a receipt, for ever: the receipt's own outcome
      for the same input, a refusal for another input, and never a write. An unfinished receipt answers
      "pending". */
  lemma AnsweredByReceipt(stores: seq<Store>, requests: seq<Request>, envs: seq<Env>, i: nat, j: nat)
    requires Run(stores, requests, envs) && i <= j < |requests| && requests[j].task in stores[i].receipts
    ensures var r, q := stores[i].receipts[requests[j].task], requests[j];
            var answer := AnswerAt(stores, requests, envs, j);
            && stores[j + 1].written == stores[j].written
            && (answer != Refused && answer != Crashed ==>
                  && r.account == q.account && r.digest == q.digest
                  && answer == AnswerOf(r.state))
            && (r.account == q.account && r.digest == q.digest ==>
                  envs[j].readable && envs[j].fence.Published? && envs[j].crash.None? ==> answer == AnswerOf(r.state))
  {
    ReceiptsStay(stores, requests, envs, i, j, requests[j].task);
  }

  lemma {:induction false} FencesStay(stores: seq<Store>, requests: seq<Request>, envs: seq<Env>, i: nat, j: nat,
      account: Account)
    requires Run(stores, requests, envs) && i <= j < |stores| && account in stores[i].fences
    ensures account in stores[j].fences && stores[j].fences[account] == stores[i].fences[account]
    decreases j - i
  {
    hide Import;
    if i < j {
      FencesStay(stores, requests, envs, i, j - 1, account);
      ImportExtends(stores[j - 1], requests[j - 1], envs[j - 1]);
    }
  }

  /** After an account's fence exists, nothing is written for the account in legacy mode, and the fence
      keeps the epoch it was made with. */
  lemma NoLegacyAfterFence(stores: seq<Store>, requests: seq<Request>, envs: seq<Env>, i: nat, j: nat, account: Account)
    requires Run(stores, requests, envs) && i <= j < |requests| && account in stores[i].fences
    ensures account in stores[j].fences && stores[j].fences[account] == stores[i].fences[account]
    ensures stores[j + 1].written != stores[j].written && requests[j].account == account ==>
              |stores[j + 1].written| > 0
              && var batch := stores[j + 1].written[|stores[j + 1].written| - 1];
                 batch.account == account && batch.mode != Legacy
  {
    hide Import;
    FencesStay(stores, requests, envs, i, j, account);
    FencesStay(stores, requests, envs, i, j + 1, account);
    ImportExtends(stores[j], requests[j], envs[j]);
  }

  /** Nothing stands in the way of a first import. */
  predicate Unhindered(s: Store, q: Request, env: Env) {
    && env.readable && env.checks && env.begin.Published? && env.finish.Published?
    && (q.mode != Legacy && q.account !in s.fences ==> env.fence.Published?)
    && (env.crash.Some? ==> env.crash.value > 3)
  }

  /** The writing part of a first import, when nothing stands in its way and otherwise. */
  lemma FirstWrite(s: Store, q: Request, mode: Mode, env: Env)
    requires q.task !in s.receipts && !Dies(env, 0)
    ensures var (s', answer) := Write(s, q, mode, env);
            var through := env.begin.Published? && env.finish.Published? && (env.crash.Some? ==> env.crash.value > 3);
            && (answer == Imported <==> through && env.writeOk) && (answer == Failed <==> through && !env.writeOk)
            && (answer == Imported || answer == Failed ==>
                && s'.receipts == s.receipts[q.task := Receipt(q.account, q.digest,
                                                               if env.writeOk then Succeeded else FailedState)]
                && s'.written == s.written + [Batch(q.task, q.account, mode, env.writeOk)])
  {
  }

  /** A task without a receipt is settled, in one step and durably, exactly when nothing stands in its way, and
      then as its write ends; its batch is then the one addition to the history. */
  lemma FirstImport(s: Store, q: Request, env: Env)
    requires q.task !in s.receipts
    ensures var (s', answer) := Import(s, q, env);
            && (answer == Imported <==> Unhindered(s, q, env) && env.writeOk)
            && (answer == Failed <==> Unhindered(s, q, env) && !env.writeOk)
            && (answer == Imported || answer == Failed ==>
                && s'.receipts == s.receipts[q.task := Receipt(q.account, q.digest,
                                                               if env.writeOk then Succeeded else FailedState)]
                && |s'.written| == |s.written| + 1 && s.written < s'.written
                && s'.written[|s.written|].ok == env.writeOk)
  {
    var (fenced, mode) := ModeFor(s, q, env);
    ModeForFences(s, q, env);
    if mode.Some? && !Dies(env, 0) { FirstWrite(fenced, q, mode.value, env); }
    hide Write;
  }
}
