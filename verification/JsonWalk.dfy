/** The duplicate-key walker over a JSON token stream, and what it accepts: exactly the flattening of one
    JSON value in which, at every depth, the names of an object are distinct (section 4 of RFC 8259). */
module JsonWalk {
  import opened Options

  /** What the decoder delivers. `Scalar` is a number, a boolean or null; `Bad` is text that the decoder
      reports as an error. Commas and colons belong to the decoder and are not tokens. */
  datatype Token = BeginObject | EndObject | BeginArray | EndArray | Text(text: string) | Scalar | Bad

  // ---------------------------------------------------------------- JSON values

  datatype Json = Str(text: string) | Atom | Arr(items: Items) | Obj(fields: Fields)
  datatype Items = NoItems | Item(head: Json, rest: Items)
  datatype Fields = NoFields | Field(name: string, value: Json, others: Fields)

  function Flatten(j: Json): seq<Token> {
    match j
    case Str(s) => [Text(s)]
    case Atom => [Scalar]
    case Arr(items) => [BeginArray] + FlattenItems(items) + [EndArray]
    case Obj(fields) => [BeginObject] + FlattenFields(fields) + [EndObject]
  }

  function FlattenItems(items: Items): seq<Token> {
    match items
    case NoItems => []
    case Item(head, rest) => Flatten(head) + FlattenItems(rest)
  }

  function FlattenFields(fields: Fields): seq<Token> {
    match fields
    case NoFields => []
    case Field(name, value, others) => [Text(name)] + Flatten(value) + FlattenFields(others)
  }

  function Names(fields: Fields): seq<string> {
    match fields
    case NoFields => []
    case Field(name, _, others) => [name] + Names(others)
  }

  predicate NoDuplicates(names: seq<string>) {
    forall i, j | 0 <= i < j < |names| :: names[i] != names[j]
  }

  /** Every object of the value, at every depth, has distinct names. */
  predicate DistinctNames(j: Json) {
    match j
    case Arr(items) => DistinctInItems(items)
    case Obj(fields) => NoDuplicates(Names(fields)) && DistinctInFields(fields)
    case _ => true
  }

  predicate DistinctInItems(items: Items) {
    match items
    case NoItems => true
    case Item(head, rest) => DistinctNames(head) && DistinctInItems(rest)
  }

  predicate DistinctInFields(fields: Fields) {
    match fields
    case NoFields => true
    case Field(_, value, others) => DistinctNames(value) && DistinctInFields(others)
  }

  // ---------------------------------------------------------------- the walk as a function

  /** What is left of the stream after one accepted value. */
  function Walk(ts: seq<Token>): (rest: Option<seq<Token>>)
    ensures rest.Some? ==> |rest.value| < |ts|
    decreases |ts|, 0
  {
    if ts == [] then None
    else
      match ts[0]
      case BeginObject => WalkFields(ts[1..], {})
      case BeginArray => WalkItems(ts[1..])
      case Text(_) => Some(ts[1..])
      case Scalar => Some(ts[1..])
      case _ => None
  }

  function WalkFields(ts: seq<Token>, seen: set<string>): (rest: Option<seq<Token>>)
    ensures rest.Some? ==> |rest.value| < |ts|
    decreases |ts|, 1
  {
    if ts == [] then None
    else
      match ts[0]
      case EndObject => Some(ts[1..])
      case Text(name) =>
        if name in seen then None
        else (match Walk(ts[1..]) case None => None case Some(rest) => WalkFields(rest, seen + {name}))
      case _ => None
  }

  function WalkItems(ts: seq<Token>): (rest: Option<seq<Token>>)
    ensures rest.Some? ==> |rest.value| < |ts|
    decreases |ts|, 1
  {
    if ts == [] then None
    else if ts[0] == EndArray then Some(ts[1..])
    else if ts[0] == EndObject then None
    else (match Walk(ts) case None => None case Some(rest) => WalkItems(rest))
  }

  // ---------------------------------------------------------------- the walk as a program

  class Decoder {
    const tokens: seq<Token>
    var pos: nat

    constructor (ts: seq<Token>)
      ensures tokens == ts && pos == 0
    {
      tokens, pos := ts, 0;
    }

    ghost predicate Valid() reads this { pos <= |tokens| }

    ghost function Rest(): seq<Token>
      requires Valid()
      reads this
    {
      tokens[pos..]
    }

    /** The next token; none at the end of the stream and on text that is not JSON. */
    method Next() returns (t: Option<Token>)
      requires Valid()
      modifies this
      ensures Valid()
      ensures old(Rest()) == [] || old(Rest())[0] == Bad ==> t.None? && Rest() == old(Rest())
      ensures old(Rest()) != [] && old(Rest())[0] != Bad ==> t == Some(old(Rest())[0]) && Rest() == old(Rest())[1..]
    {
      if pos == |tokens| || tokens[pos] == Bad { return None; }
      t := Some(tokens[pos]);
      pos := pos + 1;
    }

    /** Whether the enclosing object or array has another element. */
    method More() returns (more: bool)
      requires Valid()
      ensures more <==> Rest() != [] && Rest()[0] != EndObject && Rest()[0] != EndArray
    {
      more := pos < |tokens| && tokens[pos] != EndObject && tokens[pos] != EndArray;
    }

    method WalkValue() returns (ok: bool)
      requires Valid()
      modifies this
      ensures Valid()
      ensures ok <==> Walk(old(Rest())).Some?
      ensures ok ==> Rest() == Walk(old(Rest())).value
      decreases |Rest()|, 1
    {
      var t := Next();
      if t.None? { return false; }
      match t.value {
        case BeginObject => ok := WalkObject();
        case BeginArray => ok := WalkArray();
        case EndObject => ok := false;
        case EndArray => ok := false;
        case _ => ok := true;
      }
    }

    method WalkObject() returns (ok: bool)
      requires Valid()
      modifies this
      ensures Valid()
      ensures ok <==> WalkFields(old(Rest()), {}).Some?
      ensures ok ==> Rest() == WalkFields(old(Rest()), {}).value
      decreases |Rest()|, 0
    {
      ghost var start := Rest();
      var seen: set<string> := {};
      var more := More();
      while more
        invariant Valid() && |Rest()| <= |start|
        invariant WalkFields(start, {}) == WalkFields(Rest(), seen)
        invariant more <==> Rest() != [] && Rest()[0] != EndObject && Rest()[0] != EndArray
        decreases |Rest()|
      {
        var key := Next();
        if key.None? || !key.value.Text? { return false; }
        if key.value.text in seen { return false; }
        seen := seen + {key.value.text};
        var inner := WalkValue();
        if !inner { return false; }
        more := More();
      }
      var closing := Next();
      ok := closing == Some(EndObject);
    }

    method WalkArray() returns (ok: bool)
      requires Valid()
      modifies this
      ensures Valid()
      ensures ok <==> WalkItems(old(Rest())).Some?
      ensures ok ==> Rest() == WalkItems(old(Rest())).value
      decreases |Rest()|, 2
    {
      ghost var start := Rest();
      var more := More();
      while more
        invariant Valid() && |Rest()| <= |start|
        invariant WalkItems(start) == WalkItems(Rest())
        invariant more <==> Rest() != [] && Rest()[0] != EndObject && Rest()[0] != EndArray
        decreases |Rest()|
      {
        var inner := WalkValue();
        if !inner { return false; }
        more := More();
      }
      var closing := Next();
      ok := closing == Some(EndArray);
    }
  }

  // ---------------------------------------------------------------- completeness

  lemma NamesTail(name: string, others: Fields, seen: set<string>)
    requires NoDuplicates([name] + Names(others)) && (forall n | n in [name] + Names(others) :: n !in seen)
    ensures name !in seen && NoDuplicates(Names(others)) && forall n | n in Names(others) :: n !in seen + {name}
  {
    var all := [name] + Names(others);
    assert all[0] == name && name in all;
    assert forall i | 0 <= i < |Names(others)| :: Names(others)[i] == all[i + 1];
    forall n | n in Names(others) ensures n !in seen + {name} {
      var i :| 0 <= i < |Names(others)| && Names(others)[i] == n;
      assert all[i + 1] == n && n in all;
    }
  }

  /** Every value with distinct names is accepted, and exactly its tokens are consumed. */
  lemma {:induction false} WalkAccepts(j: Json, tail: seq<Token>)
    requires DistinctNames(j)
    ensures Walk(Flatten(j) + tail) == Some(tail)
    decreases j
  {
    match j
    case Str(s) => assert ([Text(s)] + tail)[1..] == tail;
    case Atom => assert ([Scalar] + tail)[1..] == tail;
    case Arr(items) =>
      var inner := FlattenItems(items) + ([EndArray] + tail);
      assert Flatten(j) + tail == [BeginArray] + inner;
      assert ([BeginArray] + inner)[1..] == inner;
      ItemsAccept(items, tail);
    case Obj(fields) =>
      var inner := FlattenFields(fields) + ([EndObject] + tail);
      assert Flatten(j) + tail == [BeginObject] + inner;
      assert ([BeginObject] + inner)[1..] == inner;
      FieldsAccept(fields, {}, tail);
  }

  lemma {:induction false} FlattenStarts(j: Json)
    ensures Flatten(j) != [] && Flatten(j)[0] != EndArray && Flatten(j)[0] != EndObject
  {
  }

  lemma {:induction false} ItemsAccept(items: Items, tail: seq<Token>)
    requires DistinctInItems(items)
    ensures WalkItems(FlattenItems(items) + ([EndArray] + tail)) == Some(tail)
    decreases items
  {
    var closing := [EndArray] + tail;
    match items
    case NoItems =>
      assert FlattenItems(items) + closing == closing;
      assert closing[1..] == tail;
    case Item(head, rest) =>
      var after := FlattenItems(rest) + closing;
      assert FlattenItems(items) + closing == Flatten(head) + after;
      FlattenStarts(head);
      WalkAccepts(head, after);
      ItemsAccept(rest, tail);
  }

  lemma {:induction false} FieldsAccept(fields: Fields, seen: set<string>, tail: seq<Token>)
    requires DistinctInFields(fields) && NoDuplicates(Names(fields))
    requires forall n | n in Names(fields) :: n !in seen
    ensures WalkFields(FlattenFields(fields) + ([EndObject] + tail), seen) == Some(tail)
    decreases fields
  {
    var closing := [EndObject] + tail;
    match fields
    case NoFields =>
      assert FlattenFields(fields) + closing == closing;
      assert closing[1..] == tail;
    case Field(name, value, others) =>
      var after := FlattenFields(others) + closing;
      var ts := FlattenFields(fields) + closing;
      assert ts == [Text(name)] + (Flatten(value) + after);
      assert ts[1..] == Flatten(value) + after;
      NamesTail(name, others, seen);
      WalkAccepts(value, after);
      FieldsAccept(others, seen + {name}, tail);
  }

  // ---------------------------------------------------------------- soundness

  /** Whatever the walk consumes is the flattening of a value with distinct names. */
  lemma {:induction false} WalkBuilds(ts: seq<Token>) returns (j: Json)
    requires Walk(ts).Some?
    ensures ts == Flatten(j) + Walk(ts).value && DistinctNames(j)
    decreases |ts|, 0
  {
    assert ts == [ts[0]] + ts[1..];
    match ts[0]
    case BeginObject =>
      var fields := FieldsBuild(ts[1..], {});
      j := Obj(fields);
    case BeginArray =>
      var items := ItemsBuild(ts[1..]);
      j := Arr(items);
    case Text(s) => j := Str(s);
    case Scalar => j := Atom;
  }

  lemma {:induction false} ItemsBuild(ts: seq<Token>) returns (items: Items)
    requires WalkItems(ts).Some?
    ensures ts == FlattenItems(items) + [EndArray] + WalkItems(ts).value && DistinctInItems(items)
    decreases |ts|, 1
  {
    if ts[0] == EndArray {
      items := NoItems;
    } else {
      var head := WalkBuilds(ts);
      var rest := ItemsBuild(Walk(ts).value);
      items := Item(head, rest);
    }
  }

  lemma NoNames()
    ensures NoDuplicates([])
  {
  }

  lemma NamesFront(name: string, others: Fields, seen: set<string>)
    requires name !in seen && NoDuplicates(Names(others)) && forall n | n in Names(others) :: n !in seen + {name}
    ensures NoDuplicates([name] + Names(others)) && forall n | n in [name] + Names(others) :: n !in seen
  {
    var names := Names(others);
    assert forall i | 0 <= i < |names| :: names[i] in names;
  }

  lemma {:induction false} FieldsBuild(ts: seq<Token>, seen: set<string>) returns (fields: Fields)
    requires WalkFields(ts, seen).Some?
    ensures ts == FlattenFields(fields) + [EndObject] + WalkFields(ts, seen).value && DistinctInFields(fields)
    ensures NoDuplicates(Names(fields)) && forall n | n in Names(fields) :: n !in seen
    decreases |ts|, 1
  {
    hide NoDuplicates;
    if ts[0] == EndObject {
      fields := NoFields;
      NoNames();
    } else {
      var name := ts[0].text;
      var value := WalkBuilds(ts[1..]);
      var others := FieldsBuild(Walk(ts[1..]).value, seen + {name});
      fields := Field(name, value, others);
      assert ts == [Text(name)] + ts[1..];
      NamesFront(name, others, seen);
    }
  }

  /** The stream is one value with distinct names, and nothing after it. */
  ghost predicate WellNamed(ts: seq<Token>) {
    exists j :: ts == Flatten(j) && DistinctNames(j)
  }

  lemma WalkExact(ts: seq<Token>)
    ensures Walk(ts) == Some([]) <==> WellNamed(ts)
  {
    if Walk(ts) == Some([]) {
      var j := WalkBuilds(ts);
      assert ts == Flatten(j);
    }
    if WellNamed(ts) {
      var j :| ts == Flatten(j) && DistinctNames(j);
      WalkAccepts(j, []);
      assert Flatten(j) + [] == ts;
    }
  }

  /** The walker accepts a stream if and only if it flattens a single JSON value in which every object at
      every depth has distinct names. */
  method RejectDuplicateKeys(ts: seq<Token>) returns (accepted: bool)
    ensures accepted <==> WellNamed(ts)
  {
    var d := new Decoder(ts);
    assert d.Rest() == ts;
    WalkExact(ts);
    accepted := d.WalkValue();
    if accepted {
      var trailing := d.Next();
      accepted := trailing.None? && d.pos == |ts|;
    }
  }
}
