/** A client suspended in BLPOP (class BlockClient), its connection, and the wake scan's choice.

    A waiter keeps the socket and output stream of the client that blocked, a deadline fixed
    when it is made, and an `unblock` flag that a push on its list sets.  The connection is a
    Socket object whose `closed` flag is what `Socket.isClosed()` answers.  In the program that
    flag turns true only when the connection's own worker closes the socket on leaving `run`,
    and a waiter's worker always takes it off the queue before it can leave; so a queued waiter
    never reports closed.  The model does not build that in: `closed` is part of the state, and
    the lemmas hold whatever its value.
 */
module Waiting {
  import opened Text

  /** A client connection; `closed` is `isClosed()`. */
  class Socket {
    var closed: bool

    constructor ()
      ensures !closed
    {
      closed := false;
    }
  }

  /** The output stream of a connection; only its identity matters to a waiter. */
  class OutputStream {
    constructor () {
    }
  }

  const NanosPerMilli: int := 1_000_000

  /** The deadline a waiter stores when made with t at nanoTime() == nanoNow: t is taken as
      milliseconds, turned into nanoseconds and added to nanoNow, in `long` arithmetic. */
  function Deadline(t: Int64, nanoNow: Int64): (r: Int64)
    ensures (r - (t * NanosPerMilli + nanoNow)) % 0x1_0000_0000_0000_0000 == 0
    ensures MinInt64 <= t * NanosPerMilli <= MaxInt64 && MinInt64 <= t * NanosPerMilli + nanoNow <= MaxInt64 ==>
              r == t * NanosPerMilli + nanoNow
  {
    var millis := Wrap64(t * NanosPerMilli);
    var r := Wrap64(millis + nanoNow);
    WrapSum64(millis - t * NanosPerMilli, r - (millis + nanoNow));
    r
  }

  class BlockClient {
    const socket: Socket
    const outputStream: OutputStream
    const timeOut: Int64
    var unblock: bool

    constructor (socket: Socket, outputStream: OutputStream, timeOut: Int64, nanoNow: Int64)
      ensures GetSocket() == socket && GetOutputStream() == outputStream
      ensures GetTimeout() == Deadline(timeOut, nanoNow)
      ensures !IsUnblock()
    {
      this.socket := socket;
      this.outputStream := outputStream;
      this.timeOut := Deadline(timeOut, nanoNow);
      this.unblock := false;
    }

    function GetSocket(): Socket {
      socket
    }

    function GetOutputStream(): OutputStream {
      outputStream
    }

    function GetTimeout(): Int64 {
      timeOut
    }

    method SetUnblock(state: bool)
      modifies this`unblock
      ensures IsUnblock() == state
    {
      unblock := state;
    }

    function IsUnblock(): bool
      reads this`unblock
    {
      unblock
    }

    /** A stored deadline of 0 means "never"; otherwise the deadline has passed once it is
        strictly before now. */
    function IsTimeOut(nanoNow: Int64): (r: bool)
      ensures timeOut == 0 ==> !r
      ensures r ==> timeOut < nanoNow
    {
      if timeOut == 0 then false else timeOut < nanoNow
    }

    function IsClosed(): bool
      reads socket`closed
    {
      socket.closed
    }
  }

  /** A BLPOP with timeout 0 ("block forever") hands the constructor the current wall-clock time in
      milliseconds, so its deadline is that time in nanoseconds plus nanoTime(): never 0 while the
      clocks are positive and the sum fits a long, so the "0 means never" test does not fire and
      such a waiter counts as timed out once nanoTime() passes that sum. */
  lemma ForeverIsAFiniteDeadline(millisNow: Int64, nanoNow: Int64)
    requires 0 < millisNow && 0 <= nanoNow
    requires millisNow * NanosPerMilli + nanoNow <= MaxInt64
    ensures Deadline(millisNow, nanoNow) == millisNow * NanosPerMilli + nanoNow
    ensures Deadline(millisNow, nanoNow) != 0
  {
    assert millisNow * NanosPerMilli >= NanosPerMilli;
  }

  /** A waiter that has timed out stays timed out as nanoTime() moves on, and one whose stored
      deadline is not 0 times out at every instant after that deadline. */
  lemma TimeOutIsFinal(w: BlockClient, now: Int64, later: Int64)
    requires now <= later
    ensures w.IsTimeOut(now) ==> w.IsTimeOut(later)
    ensures w.timeOut != 0 && w.timeOut < now ==> w.IsTimeOut(now)
  {
  }

  /** The wake scan passes over a waiter whose connection is closed or whose deadline has passed. */
  predicate Eligible(w: BlockClient, nanoNow: Int64)
    reads w.socket`closed
  {
    !w.IsClosed() && !w.IsTimeOut(nanoNow)
  }

  function SocketsOf(q: seq<BlockClient>): set<Socket> {
    set i | 0 <= i < |q| :: q[i].socket
  }

  /** The position in the wait queue q of the waiter a push wakes: the earliest eligible one,
      or |q| when there is none.  Every waiter before it is passed over. */
  function FirstEligible(q: seq<BlockClient>, nanoNow: Int64): (j: nat)
    reads SocketsOf(q)`closed
    ensures j <= |q|
    ensures j < |q| ==> Eligible(q[j], nanoNow)
    ensures forall i :: 0 <= i < j ==> !Eligible(q[i], nanoNow)
    decreases |q|
  {
    if q == [] then 0
    else if Eligible(q[0], nanoNow) then 0
    else
      assert SocketsOf(q[1..]) <= SocketsOf(q) by {
        forall i | 0 <= i < |q| - 1 ensures q[1..][i].socket in SocketsOf(q) {
          assert q[1..][i] == q[i + 1];
        }
      }
      1 + FirstEligible(q[1..], nanoNow)
  }

  /** A scan that passed over every waiter before position j and stops at j (an eligible waiter,
      or the end of the queue) stops where FirstEligible says. */
  lemma FirstEligibleAt(q: seq<BlockClient>, nanoNow: Int64, j: nat)
    requires j <= |q| && (j < |q| ==> Eligible(q[j], nanoNow))
    requires forall i :: 0 <= i < j ==> !Eligible(q[i], nanoNow)
    ensures FirstEligible(q, nanoNow) == j
  {
  }

  /** q with its first occurrence of w removed (`Queue.remove(Object)`). */
  function RemoveFirst(q: seq<BlockClient>, w: BlockClient): (r: seq<BlockClient>)
    ensures w !in q ==> r == q
    ensures w in q ==> |r| == |q| - 1
    ensures multiset(r) == multiset(q) - multiset{w}
  {
    if q == [] then []
    else
      assert q == [q[0]] + q[1..];
      if q[0] == w then q[1..] else [q[0]] + RemoveFirst(q[1..], w)
  }

  /** When the first occurrence of w in q is at position i, RemoveFirst takes out exactly that
      one and keeps every other waiter in its queue order. */
  lemma {:induction false} RemoveFirstAt(q: seq<BlockClient>, w: BlockClient, i: nat)
    requires i < |q| && q[i] == w && w !in q[..i]
    ensures RemoveFirst(q, w) == q[..i] + q[i + 1..]
    decreases i
  {
    if i > 0 {
      var tail := q[1..];
      assert q[..i] == [q[0]] + tail[..i - 1];
      assert q[0] != w;
      RemoveFirstAt(tail, w, i - 1);
      assert q[i + 1..] == tail[i..];
      assert q[..i] + q[i + 1..] == [q[0]] + (tail[..i - 1] + tail[i..]);
    }
  }

  /** A waiter in a queue has a first occurrence there: with RemoveFirstAt, removing it from the
      queue removes that occurrence. */
  lemma {:induction false} FirstOccurrence(q: seq<BlockClient>, w: BlockClient) returns (i: nat)
    requires w in q
    ensures i < |q| && q[i] == w && w !in q[..i]
    decreases |q|
  {
    if q[0] == w {
      i := 0;
    } else {
      assert w in q[1..] by {
        var k :| 0 <= k < |q| && q[k] == w;
        assert q[1..][k - 1] == w;
      }
      var j := FirstOccurrence(q[1..], w);
      i := j + 1;
      assert q[..i] == [q[0]] + q[1..][..j];
    }
  }
}
