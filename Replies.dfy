/** The replies the command handlers write, and their bytes on the wire.

    Every array the server writes holds bulk strings only, so an array reply is a count and the
    list of its byte strings.  The count is what the server writes after '*', which for LPOP with
    a count argument need not be the number of elements that follow.
 */
module Replies {
  import opened Text
  import RedisProcessor
  import Framing

  const COLON: byte := 58

  datatype Reply =
    | Simple(text: string)                   // +text\r\n
    | Error(text: string)                    // -text\r\n
    | BareError(text: string)                // -text, written without the closing \r\n
    | Integer(n: int)                        // :n\r\n
    | Bulk(data: Bytes)                      // $len\r\n data \r\n
    | NullBulk                               // $-1\r\n
    | BulkArray(count: int, elems: seq<Bytes>) // *count\r\n then one bulk string per element

  /** An array reply whose count is its number of elements. */
  function ArrayOf(xs: seq<Bytes>): Reply {
    BulkArray(|xs|, xs)
  }

  function BulkBytes(d: Bytes): Bytes {
    [RedisProcessor.DOLLAR] + IntText(|d|) + [CR, LF] + d + [CR, LF]
  }

  function BulksBytes(xs: seq<Bytes>): (r: Bytes)
    ensures xs != [] ==> |r| >= 2 && r[|r| - 2..] == [CR, LF]
  {
    if xs == [] then [] else BulkBytes(xs[0]) + BulksBytes(xs[1..])
  }

  /** The first byte of a reply on the wire, which tells its kind. */
  function Marker(r: Reply): byte {
    match r
    case Simple(_) => PLUS
    case Error(_) => MINUS
    case BareError(_) => MINUS
    case Integer(_) => COLON
    case Bulk(_) => RedisProcessor.DOLLAR
    case NullBulk => RedisProcessor.DOLLAR
    case BulkArray(_, _) => RedisProcessor.STAR
  }

  /** The bytes `out.write` receives for a reply: they start with the reply's marker, and every
      reply except the bare errors ends with "\r\n". */
  function Encode(r: Reply): (bytes: Bytes)
    ensures |bytes| >= 1 && bytes[0] == Marker(r)
    ensures !r.BareError? ==> |bytes| >= 3 && bytes[|bytes| - 2..] == [CR, LF]
  {
    match r
    case Simple(t) => [PLUS] + Ascii(t) + [CR, LF]
    case Error(t) => [MINUS] + Ascii(t) + [CR, LF]
    case BareError(t) => [MINUS] + Ascii(t)
    case Integer(n) => [COLON] + IntText(n) + [CR, LF]
    case Bulk(d) => BulkBytes(d)
    case NullBulk => [RedisProcessor.DOLLAR] + IntText(-1) + [CR, LF]
    case BulkArray(n, xs) => [RedisProcessor.STAR] + IntText(n) + [CR, LF] + BulksBytes(xs)
  }

  lemma {:induction false} BulksAreFrames(xs: seq<Bytes>)
    ensures BulksBytes(xs) == Framing.BulkFrames(xs)
    decreases |xs|
  {
    if xs != [] {
      BulksAreFrames(xs[1..]);
    }
  }

  /** An array reply is framed exactly like a request carrying the same strings. */
  lemma ArrayIsRequestFrame(xs: seq<Bytes>)
    ensures Encode(ArrayOf(xs)) == Framing.RequestFrame(xs)
  {
    BulksAreFrames(xs);
  }

  /** An array reply, followed by anything, decodes back to its strings with the request decoder,
      which stops right after it. */
  lemma ArrayReplyDecodes(xs: seq<Bytes>, rest: Bytes)
    requires |xs| <= MaxInt32 && forall i :: 0 <= i < |xs| ==> |xs[i]| <= MaxInt32
    ensures RedisProcessor.MessageFrom(Encode(ArrayOf(xs)) + rest, 0) == RedisProcessor.Ok((xs, |Encode(ArrayOf(xs))|))
  {
    ArrayIsRequestFrame(xs);
    Framing.DecodeEncoded(xs, rest);
  }

  /** A bulk-string reply (ECHO, GET, a single LPOP), followed by anything, reads back with the
      decoder's field reader as its bytes, which stops right after it. */
  lemma BulkReplyDecodes(d: Bytes, rest: Bytes)
    requires |d| <= MaxInt32
    ensures RedisProcessor.ElementFrom(Encode(Bulk(d)) + rest, 0) == RedisProcessor.Ok((d, |Encode(Bulk(d))|))
  {
    var s := Encode(Bulk(d)) + rest;
    assert Encode(Bulk(d)) == Framing.BulkFrame(d);
    assert s[0..|Framing.BulkFrame(d)|] == Framing.BulkFrame(d);
    Framing.BulkRoundTrip(s, 0, d);
  }
}
