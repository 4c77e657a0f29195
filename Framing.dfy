/** Requests as a client writes them, and the round trip through the decoder.

    RequestFrame is the encoding the decoder of module RedisProcessor expects.  The lemmas prove
    that an encoded request, wherever it sits in the stream and whatever follows it, decodes to
    its fields and leaves the stream at the first byte after it.
 */
module Framing {
  import opened Text
  import opened RedisProcessor

  /** One field on the wire: `$<len>\r\n<bytes>\r\n`. */
  function BulkFrame(x: Bytes): Bytes {
    [DOLLAR] + NatText(|x|) + [CR, LF] + x + [CR, LF]
  }

  function BulkFrames(xs: seq<Bytes>): Bytes {
    if xs == [] then [] else BulkFrame(xs[0]) + BulkFrames(xs[1..])
  }

  /** A whole request on the wire: `*<n>\r\n` and the n fields. */
  function RequestFrame(xs: seq<Bytes>): Bytes {
    [STAR] + NatText(|xs|) + [CR, LF] + BulkFrames(xs)
  }

  /** t occurs in s at position p. */
  predicate IsPrefixAt(s: Bytes, p: nat, t: Bytes) {
    p + |t| <= |s| && s[p..p + |t|] == t
  }

  lemma PrefixSplit(s: Bytes, p: nat, a: Bytes, b: Bytes)
    requires IsPrefixAt(s, p, a + b)
    ensures IsPrefixAt(s, p, a) && IsPrefixAt(s, p + |a|, b)
  {
    assert s[p..p + |a|] == (a + b)[..|a|];
    assert s[p + |a|..p + |a| + |b|] == (a + b)[|a|..];
  }

  lemma PrefixAt(s: Bytes, p: nat, t: Bytes, i: nat)
    requires IsPrefixAt(s, p, t) && i < |t|
    ensures s[p + i] == t[i]
  {
    assert s[p..p + |t|][i] == t[i];
  }

  /** A digit run ending in '\r' is read as its decimal value as long as that value fits an int. */
  lemma {:induction false} LengthOfDigits(s: Bytes, p: nat, ds: Bytes, acc: Int32)
    requires acc >= 0 && AllDigits(ds) && FoldDigits(acc, ds) <= MaxInt32
    requires IsPrefixAt(s, p, ds + [CR])
    ensures LengthFrom(s, p, acc) == Ok((FoldDigits(acc, ds), Next(s, p + |ds| + 1)))
    decreases |ds|
  {
    PrefixAt(s, p, ds + [CR], 0);
    if ds != [] {
      assert IsDigit(ds[0]);
      var next := acc * 10 + (ds[0] - ZERO);
      FoldGrows(next, ds[1..]);
      assert Wrap32(next) == next;
      assert ds + [CR] == [ds[0]] + (ds[1..] + [CR]);
      PrefixSplit(s, p, [ds[0]], ds[1..] + [CR]);
      LengthOfDigits(s, p + 1, ds[1..], next);
    }
  }

  /** The length line of a count n decodes to n and ends right after its "\r\n". */
  lemma LengthRoundTrip(s: Bytes, p: nat, n: nat)
    requires n <= MaxInt32
    requires IsPrefixAt(s, p, NatText(n) + [CR, LF])
    ensures LengthFrom(s, p, 0) == Ok((n, p + |NatText(n)| + 2))
  {
    NatTextValue(n);
    assert NatText(n) + [CR, LF] == (NatText(n) + [CR]) + [LF];
    PrefixSplit(s, p, NatText(n) + [CR], [LF]);
    LengthOfDigits(s, p, NatText(n), 0);
  }

  /** One encoded field decodes to its payload and ends exactly after its frame. */
  lemma BulkRoundTrip(s: Bytes, p: nat, x: Bytes)
    requires |x| <= MaxInt32
    requires IsPrefixAt(s, p, BulkFrame(x))
    ensures ElementFrom(s, p) == Ok((x, p + |BulkFrame(x)|))
  {
    var len := NatText(|x|) + [CR, LF];
    assert BulkFrame(x) == [DOLLAR] + (len + (x + [CR, LF]));
    PrefixAt(s, p, BulkFrame(x), 0);
    PrefixSplit(s, p, [DOLLAR], len + (x + [CR, LF]));
    PrefixSplit(s, p + 1, len, x + [CR, LF]);
    LengthRoundTrip(s, p + 1, |x|);
    var q := p + 1 + |len|;
    PrefixSplit(s, q, x, [CR, LF]);
  }

  /** Reading n > 0 fields is reading one and then n - 1 more. */
  lemma ElementsStep(s: Bytes, p: nat, n: nat, x: Bytes, q: nat)
    requires p <= |s| && q <= |s| && n > 0
    requires ElementFrom(s, p) == Ok((x, q))
    ensures ElementsFrom(s, p, n) == Prepend([x], ElementsFrom(s, q, n - 1))
  {
  }

  lemma PrependOk(a: Result<(seq<Bytes>, nat)>, x: Bytes, b: Result<(seq<Bytes>, nat)>, ys: seq<Bytes>, e: nat)
    requires a == Prepend([x], b) && b == Ok((ys, e))
    ensures a == Ok(([x] + ys, e))
  {
  }

  /** The number of bytes of BulkFrame(x). */
  function FrameLength(x: Bytes): nat {
    5 + |NatText(|x|)| + |x|
  }

  function FramesLength(xs: seq<Bytes>): nat {
    if xs == [] then 0 else FrameLength(xs[0]) + FramesLength(xs[1..])
  }

  /** From p on, `process` reads the fields xs one after the other, each field taking as many
      bytes as its frame. */
  ghost predicate FieldsAt(s: Bytes, p: nat, xs: seq<Bytes>)
    decreases |xs|
  {
    p <= |s| &&
    (xs == [] ||
      var q: nat := p + FrameLength(xs[0]);
      ElementFrom(s, p) == Ok((xs[0], q)) && FieldsAt(s, q, xs[1..]))
  }

  /** Where the frames of xs sit, `process` reads the fields xs, and the frames' lengths add up. */
  lemma {:induction false} FieldsOfFrames(s: Bytes, p: nat, xs: seq<Bytes>)
    requires forall i :: 0 <= i < |xs| ==> |xs[i]| <= MaxInt32
    requires IsPrefixAt(s, p, BulkFrames(xs))
    ensures FieldsAt(s, p, xs) && |BulkFrames(xs)| == FramesLength(xs)
    decreases |xs|
  {
    if xs != [] {
      PrefixSplit(s, p, BulkFrame(xs[0]), BulkFrames(xs[1..]));
      BulkRoundTrip(s, p, xs[0]);
      FieldsOfFrames(s, p + |BulkFrame(xs[0])|, xs[1..]);
    }
  }

  /** Fields read one at a time are what reading n fields at once returns. */
  lemma {:induction false} FieldsRoundTrip(s: Bytes, p: nat, xs: seq<Bytes>, n: nat)
    requires n == |xs| && FieldsAt(s, p, xs)
    ensures ElementsFrom(s, p, n) == Ok((xs, p + FramesLength(xs)))
    decreases n
  {
    if n != 0 {
      var q := p + FrameLength(xs[0]);
      ElementsStep(s, p, n, xs[0], q);
      FieldsRoundTrip(s, q, xs[1..], n - 1);
      PrependOk(ElementsFrom(s, p, n), xs[0], ElementsFrom(s, q, n - 1), xs[1..], q + FramesLength(xs[1..]));
      assert [xs[0]] + xs[1..] == xs;
    }
  }

  /** Where a request frame sits at p, `processMessage` reads the header and goes on to read
      |xs| fields from q, where the fields' frames follow one after the other up to the frame's end. */
  lemma RequestLayout(s: Bytes, p: nat, xs: seq<Bytes>) returns (q: nat)
    requires |xs| <= MaxInt32 && forall i :: 0 <= i < |xs| ==> |xs[i]| <= MaxInt32
    requires IsPrefixAt(s, p, RequestFrame(xs))
    ensures q <= |s| && MessageFrom(s, p) == ElementsFrom(s, q, |xs|) && FieldsAt(s, q, xs)
    ensures q + FramesLength(xs) == p + |RequestFrame(xs)|
  {
    var header := [STAR] + NatText(|xs|) + [CR, LF];
    assert RequestFrame(xs) == header + BulkFrames(xs);
    PrefixSplit(s, p, header, BulkFrames(xs));
    HeaderRoundTrip(s, p, |xs|);
    q := p + |header|;
    MessageAfterHeader(s, p, |xs|, q);
    FieldsOfFrames(s, q, xs);
  }

  /** Round trip: the frame of fields x1..xn, wherever it sits in the stream, decodes to
      [x1..xn] and leaves the stream at the first byte after it, ready for the next request. */
  lemma RequestRoundTrip(s: Bytes, p: nat, xs: seq<Bytes>)
    requires |xs| <= MaxInt32 && forall i :: 0 <= i < |xs| ==> |xs[i]| <= MaxInt32
    requires IsPrefixAt(s, p, RequestFrame(xs))
    ensures MessageFrom(s, p) == Ok((xs, p + |RequestFrame(xs)|))
  {
    var q := RequestLayout(s, p, xs);
    FieldsRoundTrip(s, q, xs, |xs|);
  }

  lemma MessageAfterHeader(s: Bytes, p: nat, n: nat, q: nat)
    requires p < |s| && n <= MaxInt32
    requires ByteAt(s, p) == STAR as int && LengthFrom(s, p + 1, 0) == Ok((n, q))
    ensures MessageFrom(s, p) == ElementsFrom(s, q, n)
  {
  }

  lemma HeaderRoundTrip(s: Bytes, p: nat, n: nat)
    requires n <= MaxInt32
    requires IsPrefixAt(s, p, [STAR] + NatText(n) + [CR, LF])
    ensures ByteAt(s, p) == STAR as int
    ensures LengthFrom(s, p + 1, 0) == Ok((n, p + |NatText(n)| + 3))
  {
    var len := NatText(n) + [CR, LF];
    assert [STAR] + NatText(n) + [CR, LF] == [STAR] + len;
    PrefixAt(s, p, [STAR] + len, 0);
    PrefixSplit(s, p, [STAR], len);
    LengthRoundTrip(s, p + 1, n);
  }

  /** The decoder reads a request followed by anything else back to its fields, and stops where
      the rest begins. */
  lemma DecodeEncoded(xs: seq<Bytes>, rest: Bytes)
    requires |xs| <= MaxInt32 && forall i :: 0 <= i < |xs| ==> |xs[i]| <= MaxInt32
    ensures MessageFrom(RequestFrame(xs) + rest, 0) == Ok((xs, |RequestFrame(xs)|))
  {
    var s := RequestFrame(xs) + rest;
    assert s[0..|RequestFrame(xs)|] == RequestFrame(xs);
    RequestRoundTrip(s, 0, xs);
  }
}
