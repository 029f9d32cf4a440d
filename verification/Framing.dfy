/** Length-prefixed frames on the broker's local socket: four big-endian length bytes, then the body. */
module Framing {
  import opened Bytes

  const MAX_FRAME: nat := 16 * 1024 * 1024

  datatype Parsed = Frame(body: seq<Byte>, rest: seq<Byte>) | TooLarge | Truncated

  // ---------------------------------------------------------------- the format

  function Header(n: nat): (h: seq<Byte>)
    requires n < 0x1_0000_0000
    ensures |h| == 4
  {
    [n / 0x100_0000, n / 0x1_0000 % 256, n / 256 % 256, n % 256]
  }

  function Length(h: seq<Byte>): (n: nat)
    requires |h| == 4
    ensures n < 0x1_0000_0000
  {
    (h[0] as int) * 0x100_0000 + (h[1] as int) * 0x1_0000 + (h[2] as int) * 256 + h[3] as int
  }

  lemma HeaderLength(n: nat)
    requires n < 0x1_0000_0000
    ensures Length(Header(n)) == n
  {
    var a, b, c := n / 256, n / 0x1_0000, n / 0x100_0000;
    assert a / 256 == b && b / 256 == c;
    assert n == a * 256 + n % 256 && a == b * 256 + a % 256 && b == c * 256 + b % 256;
  }

  lemma LengthHeader(h: seq<Byte>)
    requires |h| == 4
    ensures Header(Length(h)) == h
  {
    var n := Length(h);
    var b: int := (h[0] as int) * 256 + h[1] as int;
    var c: int := b * 256 + h[2] as int;
    assert n == c * 256 + h[3] && c == b * 256 + h[2];
    assert n / 256 == c && n % 256 == h[3];
    assert c / 256 == b && c % 256 == h[2];
    assert b / 256 == h[0] && b % 256 == h[1];
    assert n / 0x1_0000 == b && n / 0x100_0000 == h[0];
  }

  function Wire(body: seq<Byte>): (w: seq<Byte>)
    requires |body| <= MAX_FRAME
  {
    Header(|body|) + body
  }

  function Parse(bytes: seq<Byte>): Parsed {
    if |bytes| < 4 then Truncated
    else
      var n := Length(bytes[..4]);
      if n > MAX_FRAME then TooLarge
      else if |bytes| < 4 + n then Truncated
      else Frame(bytes[4..4 + n], bytes[4 + n..])
  }

  // ---------------------------------------------------------------- writing

  /** One answer of the underlying writer: it takes some bytes and says how many, it reports a count that
      cannot be right, or it takes some bytes and fails. */
  datatype Answer = Takes(count: nat) | Misreports(claim: int) | Fails(count: nat)

  class Writer {
    var out: seq<Byte>
    var answers: seq<Answer>

    constructor (script: seq<Answer>)
      ensures out == [] && answers == script
    {
      out, answers := [], script;
    }

    /** A writer whose script has run out fails. */
    method Write(data: seq<Byte>) returns (written: int, failed: bool)
      modifies this
      ensures old(answers) == [] ==> failed && out == old(out) && answers == []
      ensures old(answers) != [] ==> answers == old(answers)[1..]
      ensures old(answers) != [] && old(answers)[0].Takes? ==>
                !failed && 0 <= written <= |data| && out == old(out) + data[..written]
                && written == (if old(answers)[0].count <= |data| then old(answers)[0].count else |data|)
      ensures old(answers) != [] && old(answers)[0].Misreports? ==>
                out == old(out) && !failed && (written <= 0 || written > |data|)
      ensures old(answers) != [] && old(answers)[0].Fails? ==>
                failed && exists k :: 0 <= k <= |data| && out == old(out) + data[..k]
    {
      written, failed := 0, true;
      if answers == [] { return; }
      var a := answers[0];
      answers := answers[1..];
      match a {
        case Takes(count) =>
          written, failed := if count <= |data| then count else |data|, false;
          out := out + data[..written];
        case Misreports(claim) =>
          written, failed := if 0 < claim <= |data| then 0 else claim, false;
        case Fails(count) =>
          var k := if count <= |data| then count else |data|;
          out := out + data[..k];
      }
    }
  }

  /** A writer that always takes at least one byte, for at least `n` calls. */
  ghost predicate Willing(answers: seq<Answer>, n: nat) {
    n <= |answers| && forall i | 0 <= i < |answers| :: answers[i].Takes? && answers[i].count > 0
  }

  /** Writes all of `data`, or a prefix of it and an error; under any pattern of positive partial writes it
      is all of it, exactly once. */
  method WriteAll(w: Writer, data: seq<Byte>, ghost spare: nat) returns (ok: bool)
    modifies w
    ensures ok ==> w.out == old(w.out) + data
    ensures old(w.out) <= w.out <= old(w.out) + data
    ensures Willing(old(w.answers), |data| + spare) ==> ok && Willing(w.answers, spare)
  {
    ghost var whole := data;
    var rest := data;
    while |rest| > 0
      invariant |rest| <= |whole| && rest == whole[|whole| - |rest|..]
      invariant w.out == old(w.out) + whole[..|whole| - |rest|]
      invariant Willing(old(w.answers), |data| + spare) ==> Willing(w.answers, |rest| + spare)
    {
      var written, failed := w.Write(rest);
      ghost var done := |whole| - |rest|;
      assert forall k | 0 <= k <= |rest| :: whole[..done] + rest[..k] == whole[..done + k];
      if failed {
        assert w.out <= old(w.out) + whole;
        return false;
      }
      if written <= 0 || written > |rest| {
        return false;
      }
      rest := rest[written..];
    }
    assert whole[..|whole|] == data;
    ok := true;
  }

  /** A frame above the limit is refused and nothing is written; otherwise the header and the body go out
      exactly once, or a prefix of them and an error. */
  method WriteFrame(w: Writer, body: seq<Byte>) returns (ok: bool)
    modifies w
    ensures |body| > MAX_FRAME ==> !ok && w.out == old(w.out) && w.answers == old(w.answers)
    ensures |body| <= MAX_FRAME ==> old(w.out) <= w.out <= old(w.out) + Wire(body)
    ensures ok ==> |body| <= MAX_FRAME && w.out == old(w.out) + Wire(body)
    ensures |body| <= MAX_FRAME && Willing(old(w.answers), 4 + |body|) ==> ok
  {
    if |body| > MAX_FRAME { return false; }
    ghost var start := w.out;
    ok := WriteAll(w, Header(|body|), |body|);
    assert start + Wire(body) == start + Header(|body|) + body;
    if !ok { return; }
    ok := WriteAll(w, body, 0);
  }

  // ---------------------------------------------------------------- reading

  class Reader {
    var input: seq<Byte>

    constructor (bytes: seq<Byte>)
      ensures input == bytes
    {
      input := bytes;
    }

    /** Fills a buffer of `n` bytes, or reports that the input ended first. */
    method ReadFull(n: nat) returns (ok: bool, buffer: seq<Byte>)
      modifies this
      ensures ok <==> n <= |old(input)|
      ensures ok ==> buffer == old(input)[..n] && input == old(input)[n..]
      ensures !ok ==> input == []
    {
      ok := n <= |input|;
      if ok {
        buffer, input := input[..n], input[n..];
      } else {
        buffer, input := [], [];
      }
    }
  }

  method ReadFrame(r: Reader) returns (result: Parsed)
    modifies r
    ensures result == Parse(old(r.input))
    ensures result.Frame? ==> r.input == result.rest
    ensures result.Truncated? ==> r.input == []
    ensures result.TooLarge? ==> |old(r.input)| >= 4 && r.input == old(r.input)[4..]
  {
    var ok, header := r.ReadFull(4);
    if !ok { return Truncated; }
    var n := Length(header);
    if n > MAX_FRAME { return TooLarge; }
    var filled, body := r.ReadFull(n);
    if !filled { return Truncated; }
    result := Frame(body, r.input);
  }

  // ---------------------------------------------------------------- round trips

  /** Reading is exact: it yields a body and a remainder if and only if the input is that body's frame
      followed by that remainder, within the limit. */
  lemma ParseExact(bytes: seq<Byte>, body: seq<Byte>, rest: seq<Byte>)
    ensures Parse(bytes) == Frame(body, rest) <==> |body| <= MAX_FRAME && bytes == Wire(body) + rest
  {
    if Parse(bytes) == Frame(body, rest) {
      LengthHeader(bytes[..4]);
      assert bytes == bytes[..4] + bytes[4..4 + |body|] + bytes[4 + |body|..];
    }
    if |body| <= MAX_FRAME && bytes == Wire(body) + rest {
      HeaderLength(|body|);
      assert bytes[..4] == Header(|body|);
      assert bytes[4..4 + |body|] == body;
      assert bytes[4 + |body|..] == rest;
    }
  }

  predicate AllFit(frames: seq<seq<Byte>>) {
    forall i | 0 <= i < |frames| :: |frames[i]| <= MAX_FRAME
  }

  function Stream(frames: seq<seq<Byte>>): seq<Byte>
    requires AllFit(frames)
  {
    if frames == [] then [] else Wire(frames[0]) + Stream(frames[1..])
  }

  /** The first `n` frames of an input, and what is left. */
  function ParseMany(bytes: seq<Byte>, n: nat): (seq<seq<Byte>>, seq<Byte>) {
    if n == 0 then ([], bytes)
    else
      match Parse(bytes)
      case Frame(body, rest) => var (frames, left) := ParseMany(rest, n - 1); ([body] + frames, left)
      case _ => ([], bytes)
  }

  /** Reading any concatenation of written frames returns the same frames in order and leaves what follows
      untouched. */
  lemma {:induction false} StreamRoundTrip(frames: seq<seq<Byte>>, tail: seq<Byte>)
    requires AllFit(frames)
    ensures ParseMany(Stream(frames) + tail, |frames|) == (frames, tail)
    decreases |frames|
  {
    if frames == [] {
      assert Stream(frames) + tail == tail;
    } else {
      var rest := Stream(frames[1..]) + tail;
      assert Stream(frames) + tail == Wire(frames[0]) + rest;
      ParseExact(Stream(frames) + tail, frames[0], rest);
      StreamRoundTrip(frames[1..], tail);
      assert [frames[0]] + frames[1..] == frames;
    }
  }

  /** Every prefix cut short of a frame is reported as truncated, never as a shorter frame. */
  lemma CutIsTruncated(body: seq<Byte>, k: nat)
    requires |body| <= MAX_FRAME && k < 4 + |body|
    ensures Parse(Wire(body)[..k]) == Truncated
  {
    if k >= 4 {
      HeaderLength(|body|);
      assert Wire(body)[..k][..4] == Header(|body|);
    }
  }
}
