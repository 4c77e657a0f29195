/** The request decoder of the server (class RedisProcessor).

    A request is `*<n>\r\n` followed by n fields `$<len>\r\n<len bytes>\r\n`.  The input stream
    is the byte sequence `s` together with the read position `p`; `in.read()` at position p
    yields `s[p]` and moves on, or yields -1 at the end of the stream and stays put.

    Each method below follows the Java code step by step (the same loops, the same reads) and is
    proved equal to a specification function `...From`, which states what the stream prefix means.
    Module Framing proves the round trip against these functions.
 */
module RedisProcessor {
  import opened Text

  const EOF: int := -1
  const STAR: byte := 42
  const DOLLAR: byte := 36

  /** What the decoder throws.  EndOfStream is java.io.EOFException, UnknownMarker is the
      UnknownError raised for an unexpected leading byte, IllegalCapacity is the
      IllegalArgumentException of `new ArrayList<>(n)` for n < 0, and NegativeArraySize is the
      NegativeArraySizeException of `new byte[len]` for len < 0. */
  datatype ParseError =
    | EndOfStream
    | UnknownMarker(marker: byte)
    | IllegalCapacity(count: int)
    | NegativeArraySize(length: int)

  datatype Result<T> = Ok(value: T) | Err(error: ParseError)

  /** `in.read()` at position p. */
  function ByteAt(s: Bytes, p: nat): int {
    if p < |s| then s[p] else EOF
  }

  /** The position after `in.read()` at position p. */
  function Next(s: Bytes, p: nat): nat {
    if p < |s| then p + 1 else p
  }

  // ---------------------------------------------------------------------------
  // Specification

  /** The value `getLength` returns when `value` has already been accumulated and the stream is at p,
      with the position after it: every byte before '\r' folds in as value * 10 + (b - '0') in
      32-bit arithmetic, and one more byte is read after the '\r'. */
  function LengthFrom(s: Bytes, p: nat, value: Int32): (r: Result<(Int32, nat)>)
    requires p <= |s|
    ensures r.Ok? ==> p < r.value.1 <= |s|
    ensures r.Err? ==> r.error == EndOfStream
    decreases |s| - p
  {
    if p == |s| then Err(EndOfStream)
    else if s[p] == CR then Ok((value, Next(s, p + 1)))
    else LengthFrom(s, p + 1, Wrap32(value * 10 + (s[p] - ZERO)))
  }

  /** `processMultiBulk` at p: the length line, exactly that many payload bytes, then two bytes
      skipped unchecked (reads past the end are ignored). */
  function BulkFrom(s: Bytes, p: nat): (r: Result<(Bytes, nat)>)
    requires p <= |s|
    ensures r.Ok? ==> p < r.value.1 <= |s|
    ensures r.Ok? ==> LengthFrom(s, p, 0).Ok? && |r.value.0| == LengthFrom(s, p, 0).value.0
  {
    match LengthFrom(s, p, 0)
    case Err(e) => Err(e)
    case Ok((len, q)) =>
      if len < 0 then Err(NegativeArraySize(len))
      else if q + len > |s| then Err(EndOfStream)
      else Ok((s[q..q + len], Next(s, Next(s, q + len))))
  }

  /** `process` at p: one field, which must start with '$'. */
  function ElementFrom(s: Bytes, p: nat): (r: Result<(Bytes, nat)>)
    requires p <= |s|
    ensures r.Ok? ==> p < r.value.1 <= |s| && s[p] == DOLLAR
    ensures ByteAt(s, p) == EOF ==> r == Err(EndOfStream)
    ensures ByteAt(s, p) !in {EOF, DOLLAR as int} ==> r == Err(UnknownMarker(s[p]))
  {
    var b := ByteAt(s, p);
    if b == EOF then Err(EndOfStream)
    else if b == DOLLAR then BulkFrom(s, p + 1)
    else Err(UnknownMarker(b))
  }

  /** xs placed in front of the fields of a successful result. */
  function Prepend(xs: seq<Bytes>, r: Result<(seq<Bytes>, nat)>): Result<(seq<Bytes>, nat)> {
    match r
    case Err(e) => Err(e)
    case Ok((ys, q)) => Ok((xs + ys, q))
  }

  /** n fields read one after the other from p, in stream order. */
  function ElementsFrom(s: Bytes, p: nat, n: nat): (r: Result<(seq<Bytes>, nat)>)
    requires p <= |s|
    ensures r.Ok? ==> |r.value.0| == n && p <= r.value.1 <= |s|
    decreases n
  {
    if n == 0 then Ok(([], p))
    else
      match ElementFrom(s, p)
      case Err(e) => Err(e)
      case Ok((x, q)) => Prepend([x], ElementsFrom(s, q, n - 1))
  }

  /** `processMessage` at p: a '*' frame whose count says how many fields follow. */
  function MessageFrom(s: Bytes, p: nat): (r: Result<(seq<Bytes>, nat)>)
    requires p <= |s|
    ensures r.Ok? ==> p < r.value.1 <= |s|
    ensures r.Ok? ==> ByteAt(s, p) == STAR && LengthFrom(s, p + 1, 0).Ok?
                      && LengthFrom(s, p + 1, 0).value.0 == |r.value.0|
  {
    var b := ByteAt(s, p);
    if b == EOF then Err(EndOfStream)
    else if b != STAR then Err(UnknownMarker(b))
    else
      match LengthFrom(s, p + 1, 0)
      case Err(e) => Err(e)
      case Ok((n, q)) =>
        if n < 0 then Err(IllegalCapacity(n)) else ElementsFrom(s, q, n)
  }

  lemma PrependTwice(xs: seq<Bytes>, x: Bytes, r: Result<(seq<Bytes>, nat)>)
    ensures Prepend(xs, Prepend([x], r)) == Prepend(xs + [x], r)
  {
    match r
    case Err(_) =>
    case Ok((ys, _)) => assert xs + ([x] + ys) == (xs + [x]) + ys;
  }

  // ---------------------------------------------------------------------------
  // The decoder

  /** `getLength`: accumulate the digits up to '\r', then drop the '\n'. */
  method GetLength(s: Bytes, p: nat) returns (r: Result<(Int32, nat)>)
    requires p <= |s|
    ensures r == LengthFrom(s, p, 0)
  {
    var value: Int32 := 0;
    var pos := p;
    while true
      invariant pos <= |s|
      invariant LengthFrom(s, pos, value) == LengthFrom(s, p, 0)
      decreases |s| - pos
    {
      var buf := ByteAt(s, pos);
      pos := Next(s, pos);
      if buf == CR {
        pos := Next(s, pos);
        return Ok((value, pos));
      }
      if buf == EOF {
        return Err(EndOfStream);
      }
      value := Wrap32(value * 10 + (buf - ZERO));
    }
  }

  /** `InputStream.read(buf, off, len)` with len > 0 on a stream that hands over every byte it has,
      up to len: returns -1 at the end of the stream, otherwise the count it copied into buf. */
  method ReadInto(s: Bytes, p: nat, buf: array<byte>, off: nat, len: nat) returns (n: int, q: nat)
    requires p <= |s| && 0 < len && off + len <= buf.Length
    modifies buf
    ensures p == |s| ==> n == EOF && q == p && buf[..] == old(buf[..])
    ensures p < |s| ==> 0 < n <= len && q == p + n <= |s| && n == (if len < |s| - p then len else |s| - p)
    ensures p < |s| ==> buf[..off] == old(buf[..off]) && buf[off..off + n] == s[p..q]
                        && buf[off + n..] == old(buf[off + n..])
  {
    if p == |s| {
      return EOF, p;
    }
    n := if len < |s| - p then len else |s| - p;
    var i := 0;
    while i < n
      invariant 0 <= i <= n
      invariant forall k :: 0 <= k < buf.Length && !(off <= k < off + i) ==> buf[k] == old(buf[k])
      invariant forall k :: off <= k < off + i ==> buf[k] == s[k - off + p]
    {
      buf[off + i] := s[p + i];
      i := i + 1;
    }
    q := p + n;
    assert buf[off..off + n] == s[p..q];
  }

  /** `processMultiBulk`: read the length, fill a buffer of that size, skip the "\r\n". */
  method ProcessMultiBulk(s: Bytes, p: nat) returns (r: Result<(Bytes, nat)>)
    requires p <= |s|
    ensures r == BulkFrom(s, p)
  {
    var lr := GetLength(s, p);
    if lr.Err? {
      return Err(lr.error);
    }
    var length := lr.value.0;
    var pos := lr.value.1;
    if length < 0 {
      return Err(NegativeArraySize(length));
    }
    var start := pos;
    var readBuffer := new byte[length];
    var bytesRead := 0;
    while bytesRead < length
      invariant 0 <= bytesRead <= length
      invariant pos == start + bytesRead <= |s|
      invariant readBuffer[..bytesRead] == s[start..pos]
      decreases length - bytesRead
    {
      var readBytes;
      ghost var from := pos;
      readBytes, pos := ReadInto(s, pos, readBuffer, bytesRead, length - bytesRead);
      if readBytes == EOF {
        return Err(EndOfStream);
      }
      assert readBuffer[..bytesRead] == s[start..from] && readBuffer[bytesRead..bytesRead + readBytes] == s[from..pos];
      assert readBuffer[..bytesRead + readBytes] == readBuffer[..bytesRead] + readBuffer[bytesRead..bytesRead + readBytes];
      assert s[start..pos] == s[start..from] + s[from..pos];
      bytesRead := bytesRead + readBytes;
    }
    pos := Next(s, pos);
    pos := Next(s, pos);
    assert readBuffer[..] == readBuffer[..bytesRead];
    return Ok((readBuffer[..], pos));
  }

  /** `process`: one field; only bulk strings are accepted. */
  method Process(s: Bytes, p: nat) returns (r: Result<(Bytes, nat)>)
    requires p <= |s|
    ensures r == ElementFrom(s, p)
    ensures ByteAt(s, p) == EOF ==> r == Err(EndOfStream)
    ensures ByteAt(s, p) !in {EOF, DOLLAR as int} ==> r == Err(UnknownMarker(s[p]))
  {
    var prefix := ByteAt(s, p);
    if prefix == EOF {
      return Err(EndOfStream);
    }
    if prefix == DOLLAR {
      r := ProcessMultiBulk(s, p + 1);
    } else {
      r := Err(UnknownMarker(prefix));
    }
  }

  /** `processMessage`: decode one whole request. */
  method ProcessMessage(s: Bytes, p: nat) returns (r: Result<(seq<Bytes>, nat)>)
    requires p <= |s|
    ensures r == MessageFrom(s, p)
    ensures ByteAt(s, p) == EOF ==> r == Err(EndOfStream)
    ensures ByteAt(s, p) !in {EOF, STAR as int} ==> r == Err(UnknownMarker(s[p]))
  {
    var firstByte := ByteAt(s, p);
    if firstByte == EOF {
      return Err(EndOfStream);
    }
    if firstByte != STAR {
      return Err(UnknownMarker(firstByte));
    }
    var lr := GetLength(s, p + 1);
    if lr.Err? {
      return Err(lr.error);
    }
    var length := lr.value.0;
    var pos: nat := lr.value.1;
    if length < 0 {
      return Err(IllegalCapacity(length));
    }
    ghost var start := pos;
    var ret: seq<Bytes> := [];
    assert Prepend(ret, ElementsFrom(s, pos, length)) == ElementsFrom(s, start, length) by {
      match ElementsFrom(s, pos, length)
      case Err(_) =>
      case Ok((ys, _)) => assert [] + ys == ys;
    }
    for i := 0 to length
      invariant pos <= |s|
      invariant Prepend(ret, ElementsFrom(s, pos, length - i)) == ElementsFrom(s, start, length)
    {
      var e := Process(s, pos);
      if e.Err? {
        return Err(e.error);
      }
      PrependTwice(ret, e.value.0, ElementsFrom(s, e.value.1, length - i - 1));
      ret := ret + [e.value.0];
      pos := e.value.1;
    }
    assert ret + [] == ret;
    return Ok((ret, pos));
  }
}
