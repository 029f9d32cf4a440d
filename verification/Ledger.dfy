/** The task ledger: a map kept in memory and in one file, replaced by write-temporary, sync, rename and
    directory sync, with compare-and-swap and a poison state for an uncertain publication.

    The file's JSON text is represented by the map it decodes to. A process crash keeps whatever the
    completed file-system calls did. */
module LedgerModel {
  import opened Options

  type TaskID(==, !new)
  type Detail(==, !new)

  /** `detail` is the result and error of the task as JSON values. */
  datatype Entry = Entry(taskID: TaskID, status: string, detail: Detail, updatedAt: int)

  type Entries = map<TaskID, Entry>

  /** What the ledger path holds; `Unreadable` is any content that does not decode to an object, and
      `Irregular` is a path that is not a regular file. */
  datatype File = Absent | Holds(entries: Entries) | Unreadable | Irregular

  datatype Error = Poisoned | Conflict | Encoding | Publication | BadFile

  datatype Reply<+T> = Ok(value: T) | Err(error: Error)

  /** The calls of one publication, in order. */
  datatype Call =
    | MakeDirectory | Inspect | OpenDirectory | CreateTemporary | WriteTemporary | SyncTemporary | CloseTemporary
    | Rename | SyncDirectory

  const CALLS: seq<Call> := [MakeDirectory, Inspect, OpenDirectory, CreateTemporary, WriteTemporary, SyncTemporary,
      CloseTemporary, Rename, SyncDirectory]

  /** The number of calls of a publication that succeed before one fails or the process dies; all of
      them when it is at least `|CALLS|`. */
  type Progress = nat

  predicate Renamed(p: Progress) { p > 7 }

  predicate Complete(p: Progress) { p >= |CALLS| }

  /** The destination after that many calls. */
  function AfterCalls(file: File, next: Entries, p: Progress): File {
    if file.Irregular? && p > 1 then file
    else if Renamed(p) then Holds(next) else file
  }

  class Disk {
    var file: File
    var temporary: Option<Entries>

    constructor (content: File)
      ensures file == content
    {
      file := content;
      temporary := None;
    }

    /** Publishing: each call may be the one that fails. */
    method Publish(next: Entries, p: Progress) returns (renamed: bool, failed: bool)
      modifies this
      ensures file == AfterCalls(old(file), next, p)
      ensures renamed <==> Renamed(p) && !old(file).Irregular?
      ensures failed <==> !Complete(p) || old(file).Irregular?
    {
      renamed, failed := false, true;
      if p <= 0 { return; }
      if p <= 1 { return; }
      if file.Irregular? { return; }
      if p <= 2 { return; }
      if p <= 3 { return; }
      temporary := None;
      if p <= 4 { return; }
      temporary := Some(next);
      if p <= 5 { return; }
      if p <= 6 { return; }
      if p <= 7 { return; }
      file := Holds(temporary.value);
      temporary := None;
      renamed := true;
      failed := p <= 8;
    }
  }

  // ---------------------------------------------------------------- the specification

  datatype State = State(entries: Entries, poisoned: bool, file: File)

  function Content(file: File): Option<Entries> {
    match file
    case Absent => Some(map[])
    case Holds(entries) => Some(entries)
    case _ => None
  }

  function OpenFile(file: File): Reply<State> {
    match Content(file)
    case None => Err(BadFile)
    case Some(entries) => Ok(State(entries, false, file))
  }

  /** `encodes` is whether the new map can be written as JSON and read back. */
  datatype SaveEnv = SaveEnv(now: int, encodes: bool, progress: Progress)

  function Save(s: State, entry: Entry, env: SaveEnv): (State, Reply<()>) {
    if s.poisoned then (s, Err(Poisoned))
    else if !env.encodes then (s, Err(Encoding))
    else
      var next := s.entries[entry.taskID := entry.(updatedAt := env.now)];
      var file := AfterCalls(s.file, next, env.progress);
      if !Complete(env.progress) || s.file.Irregular?
      then (s.(file := file, poisoned := Renamed(env.progress) && !s.file.Irregular?), Err(Publication))
      else (State(next, false, file), Ok(()))
  }

  function CompareAndSwap(s: State, expected: Option<Entry>, entry: Entry, env: SaveEnv): (State, Reply<()>) {
    if s.poisoned then (s, Err(Poisoned))
    else if expected.None? && entry.taskID in s.entries then (s, Err(Conflict))
    else if expected.Some? && (entry.taskID !in s.entries || expected.value.taskID != entry.taskID
                               || expected.value != s.entries[entry.taskID]) then (s, Err(Conflict))
    else Save(s, entry, env)
  }

  // ---------------------------------------------------------------- the object

  class Ledger {
    var entries: Entries
    var poisoned: bool
    const disk: Disk

    ghost function Abstract(): State
      reads this, disk
    {
      State(entries, poisoned, disk.file)
    }

    /** While the ledger is healthy, memory is what the file holds. */
    ghost predicate Valid()
      reads this, disk
    {
      Agrees(Abstract())
    }

    /** Opening a readable path; `loaded` is its content. */
    constructor (d: Disk, loaded: Entries)
      requires Content(d.file) == Some(loaded)
      ensures Valid() && disk == d && OpenFile(d.file) == Ok(Abstract())
    {
      disk := d;
      entries := loaded;
      poisoned := false;
    }

    /** A reader gets what is on disk, or a refusal once the two may differ. */
    method Get(id: TaskID) returns (reply: Reply<Option<Entry>>)
      ensures reply.Ok? <==> !poisoned
      ensures reply.Ok? && Valid() ==> Content(disk.file).Some? && reply.value == Lookup(Content(disk.file).value, id)
    {
      if poisoned { return Err(Poisoned); }
      reply := Ok(if id in entries then Some(entries[id]) else None);
    }

    /** Copies the map, changes one entry, publishes it, and adopts it only once it is published. */
    method SaveEntry(entry: Entry, env: SaveEnv) returns (reply: Reply<()>)
      modifies this, disk
      ensures old(Valid()) ==> Valid() && Atomic(old(Abstract()), Stamped(entry, env), Abstract(), reply)
      ensures old(Valid()) ==> (reply.Ok? <==> !old(poisoned) && env.encodes && Complete(env.progress))
      ensures (Abstract(), reply) == Save(old(Abstract()), entry, env)
    {
      SaveIsAtomic(Abstract(), entry, env);
      if poisoned { return Err(Poisoned); }
      if !env.encodes { return Err(Encoding); }
      var next := CopyOf(entries);
      next := next[entry.taskID := entry.(updatedAt := env.now)];
      var renamed, failed := disk.Publish(next, env.progress);
      if failed {
        if renamed { poisoned := true; }
        return Err(Publication);
      }
      entries := next;
      reply := Ok(());
    }

    static method CopyOf(entries: Entries) returns (copy: Entries)
      ensures copy == entries
    {
      copy := map[];
      var rest := entries.Keys;
      while rest != {}
        invariant rest <= entries.Keys && copy.Keys == entries.Keys - rest
        invariant forall id | id in copy :: copy[id] == entries[id]
        decreases |rest|
      {
        var id :| id in rest;
        copy := copy[id := entries[id]];
        rest := rest - {id};
      }
    }

    method Swap(expected: Option<Entry>, entry: Entry, env: SaveEnv) returns (reply: Reply<()>)
      modifies this, disk
      ensures old(Valid()) ==> Valid() && Atomic(old(Abstract()), Stamped(entry, env), Abstract(), reply)
      ensures old(Valid()) ==>
        (reply.Ok? <==>
          !old(poisoned) && env.encodes && Complete(env.progress) && Matches(old(entries), expected, entry))
      ensures (Abstract(), reply) == CompareAndSwap(old(Abstract()), expected, entry, env)
    {
      SwapsExactly(Abstract(), expected, entry, env);
      if poisoned { return Err(Poisoned); }
      if expected.None? {
        if entry.taskID in entries { return Err(Conflict); }
      } else if entry.taskID !in entries || expected.value.taskID != entry.taskID
        || expected.value != entries[entry.taskID] {
        return Err(Conflict);
      }
      reply := SaveEntry(entry, env);
    }
  }

  // ---------------------------------------------------------------- one operation

  /** While unpoisoned, memory is what the file holds. */
  predicate Agrees(s: State) { !s.poisoned ==> Content(s.file) == Some(s.entries) }

  function Stamped(entry: Entry, env: SaveEnv): Entry { entry.(updatedAt := env.now) }

  function Lookup(entries: Entries, id: TaskID): Option<Entry> {
    if id in entries then Some(entries[id]) else None
  }

  /** The stored record is the expected one, of the same task; absent when none is expected. */
  predicate Matches(entries: Entries, expected: Option<Entry>, entry: Entry) {
    Lookup(entries, entry.taskID) == expected && (expected.Some? ==> expected.value.taskID == entry.taskID)
  }

  /** One record is written in memory and on disk alike; or nothing changes; or, after a failure past the
      rename, it is on disk alone and the ledger is poisoned. A poisoned ledger does not change. */
  predicate Atomic(s: State, record: Entry, s': State, reply: Reply<()>) {
    var next := s.entries[record.taskID := record];
    if s.poisoned then s' == s && reply == Err(Poisoned)
    else if reply.Ok? then s' == State(next, false, Holds(next))
    else s' == s || s' == State(s.entries, true, Holds(next))
  }

  /** An operation changes one key in memory and on disk alike; or neither; or, when it fails after the
      rename, it changes the file alone and poisons the ledger. */
  lemma SaveIsAtomic(s: State, entry: Entry, env: SaveEnv)
    ensures var (s', reply) := Save(s, entry, env);
            Agrees(s) ==>
              && Agrees(s') && Atomic(s, Stamped(entry, env), s', reply)
              && (reply.Ok? <==> !s.poisoned && env.encodes && Complete(env.progress))
              && (s'.poisoned && !s.poisoned <==>
                  !s.poisoned && env.encodes && Renamed(env.progress) && !Complete(env.progress))
  {
    if Agrees(s) && !s.poisoned {
      assert !s.file.Irregular?;
    }
  }

  /** Compare-and-swap writes exactly when the ledger is healthy, the stored record is the expected one
      (absent when none is expected) and the publication goes through. */
  lemma SwapsExactly(s: State, expected: Option<Entry>, entry: Entry, env: SaveEnv)
    ensures var (s', reply) := CompareAndSwap(s, expected, entry, env);
            Agrees(s) ==>
              && Agrees(s') && Atomic(s, Stamped(entry, env), s', reply)
              && (reply.Ok? <==>
                  !s.poisoned && env.encodes && Complete(env.progress) && Matches(s.entries, expected, entry))
              && (!s.poisoned ==> (reply == Err(Conflict) <==> !Matches(s.entries, expected, entry)))
              && (reply == Err(Conflict) ==> s' == s)
  {
    SaveIsAtomic(s, entry, env);
  }

  // ---------------------------------------------------------------- runs with crashes

  /** A crash dies inside an operation after `progress` calls, or between operations (`None`), and the
      ledger is opened again from the file. */
  datatype Event =
    | DoSave(entry: Entry, env: SaveEnv)
    | DoSwap(expected: Option<Entry>, entry: Entry, env: SaveEnv)
    | CrashIn(entry: Entry, env: SaveEnv)
    | CrashBetween

  function Reopen(s: State): State {
    match OpenFile(s.file)
    case Ok(reread) => reread
    case Err(_) => s
  }

  function Apply(s: State, e: Event): State {
    match e
    case DoSave(entry, env) => Save(s, entry, env).0
    case DoSwap(expected, entry, env) => CompareAndSwap(s, expected, entry, env).0
    case CrashIn(entry, env) => Reopen(Save(s, entry, env).0)
    case CrashBetween => Reopen(s)
  }

  function Target(e: Event): Option<TaskID> {
    if e.CrashBetween? then None else Some(e.entry.taskID)
  }

  ghost predicate Run(states: seq<State>, events: seq<Event>) {
    && |states| == |events| + 1
    && Content(states[0].file).Some? && OpenFile(states[0].file) == Ok(states[0])
    && (forall i | 0 <= i < |events| :: states[i + 1] == Apply(states[i], events[i]))
  }

  /** Readable, and in agreement unless poisoned. */
  predicate Sound(s: State) { Content(s.file).Some? && Agrees(s) }

  lemma ApplySound(s: State, e: Event)
    requires Sound(s)
    ensures Sound(Apply(s, e))
    ensures e.CrashIn? || e.CrashBetween? ==> !Apply(s, e).poisoned
    ensures s.poisoned && !e.CrashIn? && !e.CrashBetween? ==> Apply(s, e) == s
  {
  }

  lemma {:induction false} RunSound(states: seq<State>, events: seq<Event>, i: nat)
    requires Run(states, events) && i < |states|
    ensures Sound(states[i])
  {
    if i > 0 {
      RunSound(states, events, i - 1);
      ApplySound(states[i - 1], events[i - 1]);
    }
  }

  /** A crash inside a publication, after any number of its calls, reopens to the whole old map or the
      whole new one: the new one exactly from the rename on. */
  lemma CrashIsAllOrNothing(s: State, entry: Entry, env: SaveEnv)
    requires Sound(s) && !s.poisoned && env.encodes
    ensures var reopened := Apply(s, CrashIn(entry, env));
            && !reopened.poisoned && Content(reopened.file) == Some(reopened.entries)
            && reopened.entries == if Renamed(env.progress) then s.entries[entry.taskID := Stamped(entry, env)]
              else s.entries
  {
    assert !s.file.Irregular?;
  }

  /** The durable content at one task, as a reopening would see it. */
  function Durable(s: State, id: TaskID): Option<Entry>
    requires Sound(s)
  {
    var entries := Content(s.file).value;
    if id in entries then Some(entries[id]) else None
  }

  lemma OthersUntouched(s: State, e: Event, id: TaskID)
    requires Sound(s) && Target(e) != Some(id)
    ensures Sound(Apply(s, e)) && Durable(Apply(s, e), id) == Durable(s, id)
  {
    ApplySound(s, e);
  }

  predicate Acknowledged(s: State, e: Event) {
    || (e.DoSave? && Save(s, e.entry, e.env).1.Ok?)
    || (e.DoSwap? && CompareAndSwap(s, e.expected, e.entry, e.env).1.Ok?)
  }

  /** An acknowledged record survives every later fault, crash and reopening until an operation on the
      same task, and while the ledger is healthy it is what a reader gets. */
  lemma {:induction false} AcknowledgedSurvives(states: seq<State>, events: seq<Event>, i: nat, j: nat)
    requires Run(states, events) && i < j < |states| && Acknowledged(states[i], events[i])
    requires forall k | i < k < j :: Target(events[k]) != Some(events[i].entry.taskID)
    ensures var id, record := events[i].entry.taskID, Stamped(events[i].entry, events[i].env);
            && Sound(states[j]) && Durable(states[j], id) == Some(record)
            && (!states[j].poisoned ==> id in states[j].entries && states[j].entries[id] == record)
    decreases j - i
  {
    RunSound(states, events, i);
    RunSound(states, events, j);
    if j == i + 1 {
      SaveIsAtomic(states[i], events[i].entry, events[i].env);
    } else {
      AcknowledgedSurvives(states, events, i, j - 1);
      OthersUntouched(states[j - 1], events[j - 1], events[i].entry.taskID);
    }
  }

  /** Of two swaps that expect the same record, at most one is acknowledged, unless another operation on
      the task comes between: the first one leaves a different record behind. */
  lemma OneSwapWins(states: seq<State>, events: seq<Event>, i: nat, j: nat)
    requires Run(states, events) && i < j < |events|
    requires events[i].DoSwap? && events[j].DoSwap? && events[i].entry.taskID == events[j].entry.taskID
    requires events[i].expected == events[j].expected
      && Some(Stamped(events[i].entry, events[i].env)) != events[i].expected
    requires forall k | i < k < j :: Target(events[k]) != Some(events[i].entry.taskID)
    requires Acknowledged(states[i], events[i])
    ensures !Acknowledged(states[j], events[j]) && states[j + 1] == states[j]
  {
    AcknowledgedSurvives(states, events, i, j);
    RunSound(states, events, j);
    SwapsExactly(states[j], events[j].expected, events[j].entry, events[j].env);
  }

  /** Once poisoned, every operation is refused and changes nothing, until the ledger is reopened. */
  lemma {:induction false} PoisonLasts(states: seq<State>, events: seq<Event>, i: nat, j: nat)
    requires Run(states, events) && i <= j < |states| && states[i].poisoned
    requires forall k | i <= k < j :: events[k].DoSave? || events[k].DoSwap?
    ensures states[j] == states[i]
    ensures j < |events| ==> !Acknowledged(states[j], events[j])
    decreases j - i
  {
    if i < j {
      PoisonLasts(states, events, i, j - 1);
    }
  }
}
