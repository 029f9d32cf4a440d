/** The byte encoding behind the skill tree digest: path, NUL, decimal size, NUL, content, NUL for each
    file in walk order. The hash is not modelled; what is fed to it is. */
module SkillTree {
  import opened Bytes
  import opened Options

  datatype File = File(path: seq<Byte>, content: seq<Byte>)

  const NUL: Byte := 0

  predicate NulFree(s: seq<Byte>) { NUL !in s }

  // ---------------------------------------------------------------- decimal sizes

  function Decimal(n: nat): (digits: seq<Byte>)
    ensures |digits| > 0 && NulFree(digits)
  {
    if n < 10 then [48 + n] else Decimal(n / 10) + [48 + n % 10]
  }

  function Value(digits: seq<Byte>): Option<nat> {
    if digits == [] then None
    else
      var last := digits[|digits| - 1];
      if last < 48 || last > 57 then None
      else if |digits| == 1 then Some(last - 48)
      else (match Value(digits[..|digits| - 1]) case None => None case Some(high) => Some(high * 10 + (last - 48)))
  }

  lemma {:induction false} DecimalValue(n: nat)
    ensures Value(Decimal(n)) == Some(n)
  {
    if n >= 10 {
      DecimalValue(n / 10);
      assert Decimal(n)[..|Decimal(n)| - 1] == Decimal(n / 10);
    }
  }

  // ---------------------------------------------------------------- encoding and decoding

  function EncodeFile(f: File): seq<Byte> {
    f.path + [NUL] + Decimal(|f.content|) + [NUL] + f.content + [NUL]
  }

  function Encode(files: seq<File>): seq<Byte> {
    if files == [] then [] else Encode(files[..|files| - 1]) + EncodeFile(files[|files| - 1])
  }

  /** The field before the first NUL and what follows it. */
  function Field(bytes: seq<Byte>): (r: Option<(seq<Byte>, seq<Byte>)>)
    ensures r.Some? ==> |r.value.1| < |bytes|
  {
    if bytes == [] then None
    else if bytes[0] == NUL then Some(([], bytes[1..]))
    else (match Field(bytes[1..]) case None => None case Some((field, rest)) => Some(([bytes[0]] + field, rest)))
  }

  function DecodeFile(bytes: seq<Byte>): (r: Option<(File, seq<Byte>)>)
    ensures r.Some? ==> |r.value.1| < |bytes|
  {
    match Field(bytes)
    case None => None
    case Some((path, afterPath)) =>
      match Field(afterPath)
      case None => None
      case Some((digits, afterSize)) =>
        match Value(digits)
        case None => None
        case Some(size) =>
          if size >= |afterSize| || afterSize[size] != NUL then None
          else Some((File(path, afterSize[..size]), afterSize[size + 1..]))
  }

  function Decode(bytes: seq<Byte>): Option<seq<File>>
    decreases |bytes|
  {
    if bytes == [] then Some([])
    else
      match DecodeFile(bytes)
      case None => None
      case Some((f, rest)) => (match Decode(rest) case None => None case Some(files) => Some([f] + files))
  }

  lemma {:induction false} FieldOf(field: seq<Byte>, rest: seq<Byte>)
    requires NulFree(field)
    ensures Field(field + [NUL] + rest) == Some((field, rest))
  {
    var bytes := field + [NUL] + rest;
    if field == [] {
      assert bytes[1..] == rest;
    } else {
      assert bytes[1..] == field[1..] + [NUL] + rest;
      FieldOf(field[1..], rest);
      assert [field[0]] + field[1..] == field;
    }
  }

  lemma DecodeOne(f: File, rest: seq<Byte>)
    requires NulFree(f.path)
    ensures DecodeFile(EncodeFile(f) + rest) == Some((f, rest))
  {
    var digits := Decimal(|f.content|);
    var afterSize := f.content + [NUL] + rest;
    var afterPath := digits + [NUL] + afterSize;
    assert EncodeFile(f) + rest == f.path + [NUL] + afterPath;
    FieldOf(f.path, afterPath);
    FieldOf(digits, afterSize);
    DecimalValue(|f.content|);
    assert afterSize[..|f.content|] == f.content;
    assert afterSize[|f.content| + 1..] == rest;
  }

  lemma {:induction false} EncodeFront(files: seq<File>)
    requires files != []
    ensures Encode(files) == EncodeFile(files[0]) + Encode(files[1..])
  {
    hide EncodeFile;
    if |files| == 1 {
      assert files[..0] == [] && files[1..] == [];
    } else {
      var shorter, rest := files[..|files| - 1], files[1..];
      EncodeFront(shorter);
      assert shorter[1..] == rest[..|rest| - 1];
      var first, middle, last := EncodeFile(files[0]), Encode(shorter[1..]), EncodeFile(files[|files| - 1]);
      assert Encode(rest) == middle + last;
      assert Encode(files) == (first + middle) + last;
      assert (first + middle) + last == first + (middle + last);
    }
  }

  /** Decoding inverts encoding for every list of files with NUL-free paths, NULs in the contents included. */
  lemma {:induction false} RoundTrip(files: seq<File>)
    requires forall i | 0 <= i < |files| :: NulFree(files[i].path)
    ensures Decode(Encode(files)) == Some(files)
    decreases |files|
  {
    if files != [] {
      EncodeFront(files);
      DecodeOne(files[0], Encode(files[1..]));
      RoundTrip(files[1..]);
      assert [files[0]] + files[1..] == files;
    }
  }

  /** So the encoding determines the list: two trees feed the hash the same bytes only if they are equal. */
  lemma UniquelyDecodable(a: seq<File>, b: seq<File>)
    requires forall i | 0 <= i < |a| :: NulFree(a[i].path)
    requires forall i | 0 <= i < |b| :: NulFree(b[i].path)
    ensures Encode(a) == Encode(b) <==> a == b
  {
    RoundTrip(a);
    RoundTrip(b);
  }

  // ---------------------------------------------------------------- the two producers

  /** What a directory walk visits, in order. `Faulty` is an entry that cannot be read or whose path or
      metadata is refused. */
  datatype Entry = Directory | Regular(file: File) | Special | Faulty

  function Files(entries: seq<Entry>): seq<File> {
    if entries == [] then []
    else
      var last := entries[|entries| - 1];
      Files(entries[..|entries| - 1]) + (if last.Regular? then [last.file] else [])
  }

  predicate Walkable(entries: seq<Entry>) {
    forall i | 0 <= i < |entries| :: entries[i].Directory? || entries[i].Regular?
  }

  lemma EmptyTree()
    ensures Encode([]) == [] && Files([]) == []
  {
  }

  lemma EncodeSnoc(files: seq<File>, f: File)
    ensures Encode(files + [f]) == Encode(files) + EncodeFile(f)
  {
    assert (files + [f])[..|files|] == files;
  }

  lemma FilesSnoc(entries: seq<Entry>, i: nat)
    requires i < |entries|
    ensures Files(entries[..i + 1]) == if entries[i].Regular? then Files(entries[..i]) + [entries[i].file]
      else Files(entries[..i])
    ensures Walkable(entries[..i + 1]) <==> Walkable(entries[..i]) && (entries[i].Directory? || entries[i].Regular?)
  {
    assert entries[..i + 1][..i] == entries[..i];
  }

  class Digest {
    var fed: seq<Byte>

    constructor ()
      ensures fed == []
    {
      fed := [];
    }

    method Write(bytes: seq<Byte>)
      modifies this
      ensures fed == old(fed) + bytes
    {
      fed := fed + bytes;
    }

    method WriteTreeField(value: seq<Byte>)
      modifies this
      ensures fed == old(fed) + value + [NUL]
    {
      Write(value);
      Write([NUL]);
    }
  }

  /** The digest of an installed tree. */
  method DigestTree(entries: seq<Entry>) returns (fed: Option<seq<Byte>>)
    ensures fed.Some? <==> Walkable(entries) && Files(entries) != []
    ensures fed.Some? ==> fed.value == Encode(Files(entries))
  {
    var digest := new Digest();
    hide Encode, Files;
    EmptyTree();
    var fileCount := 0;
    var i := 0;
    while i < |entries|
      invariant 0 <= i <= |entries|
      invariant Walkable(entries[..i])
      invariant fileCount == |Files(entries[..i])|
      invariant digest.fed == Encode(Files(entries[..i]))
    {
      FilesSnoc(entries, i);
      var entry := entries[i];
      if entry.Special? || entry.Faulty? {
        assert !Walkable(entries);
        return None;
      }
      if entry.Regular? {
        ghost var before := digest.fed;
        EncodeSnoc(Files(entries[..i]), entry.file);
        digest.WriteTreeField(entry.file.path);
        digest.WriteTreeField(Decimal(|entry.file.content|));
        digest.Write(entry.file.content);
        digest.Write([NUL]);
        assert digest.fed == before + EncodeFile(entry.file);
        fileCount := fileCount + 1;
      }
      i := i + 1;
    }
    assert entries[..|entries|] == entries;
    if fileCount == 0 { return None; }
    fed := Some(digest.fed);
  }

  /** The walk of the embedded tree, which also collects the files to install. */
  method FeedSkillFiles(entries: seq<Entry>) returns (files: seq<File>, fed: Option<seq<Byte>>)
    ensures fed.Some? <==> Walkable(entries) && Files(entries) != []
    ensures fed.Some? ==> files == Files(entries) && fed.value == Encode(files)
  {
    hide Encode, Files;
    EmptyTree();
    files := [];
    var digest := new Digest();
    var i := 0;
    while i < |entries|
      invariant 0 <= i <= |entries|
      invariant Walkable(entries[..i])
      invariant files == Files(entries[..i]) && digest.fed == Encode(files)
    {
      FilesSnoc(entries, i);
      match entries[i] {
        case Directory =>
        case Regular(file) =>
          ghost var before := digest.fed;
          EncodeSnoc(files, file);
          digest.Write(file.path);
          digest.Write([NUL]);
          digest.Write(Decimal(|file.content|));
          digest.Write([NUL]);
          digest.Write(file.content);
          digest.Write([NUL]);
          assert digest.fed == before + EncodeFile(file);
          files := files + [file];
        case _ => return files, None;
      }
      i := i + 1;
    }
    assert entries[..|entries|] == entries;
    fed := if files == [] then None else Some(digest.fed);
  }

  /** What the embedded tree is pinned to: the path its first file must have, and the comparisons of that
      file's digest and of the tree's digest with the pinned ones. */
  datatype Pins = Pins(document: seq<Byte>, isDocument: seq<Byte> -> bool, isTree: seq<Byte> -> bool)

  predicate Pinned(pins: Pins, files: seq<File>) {
    && files != [] && files[0].path == pins.document && pins.isDocument(files[0].content)
    && pins.isTree(Encode(files))
  }

  /** The files to install, exactly when the embedded tree meets its pins. */
  method VerifiedSkillFiles(entries: seq<Entry>, pins: Pins) returns (files: Option<seq<File>>)
    ensures files.Some? <==> Walkable(entries) && Pinned(pins, Files(entries))
    ensures files.Some? ==> files.value == Files(entries)
  {
    var walked, fed := FeedSkillFiles(entries);
    if fed.None? { return None; }
    var document := walked[0];
    if document.path != pins.document { return None; }
    if !pins.isDocument(document.content) { return None; }
    if !pins.isTree(fed.value) { return None; }
    files := Some(walked);
  }

  /** When the pinned digest is that of one official tree's bytes and of no others, only that tree is ever
      installed. */
  lemma OnlyThePinnedTree(pins: Pins, official: seq<File>, files: seq<File>)
    requires forall bytes :: pins.isTree(bytes) ==> bytes == Encode(official)
    requires forall i | 0 <= i < |official| :: NulFree(official[i].path)
    requires forall i | 0 <= i < |files| :: NulFree(files[i].path)
    ensures Pinned(pins, files) ==> files == official
  {
    UniquelyDecodable(files, official);
  }

  /** The two producers agree: an installed tree feeds the hash the very bytes of the embedded tree exactly
      when it holds the same files in the same order, whatever directories either walk visits. */
  method SameTree(installed: seq<Entry>, embedded: seq<Entry>) returns (same: bool)
    requires forall i | 0 <= i < |Files(installed)| :: NulFree(Files(installed)[i].path)
    requires forall i | 0 <= i < |Files(embedded)| :: NulFree(Files(embedded)[i].path)
    ensures same <==>
      Walkable(installed) && Walkable(embedded) && Files(installed) != [] && Files(installed) == Files(embedded)
  {
    var a := DigestTree(installed);
    var files, b := FeedSkillFiles(embedded);
    UniquelyDecodable(Files(installed), Files(embedded));
    same := a.Some? && a == b;
  }
}
