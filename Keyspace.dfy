/** The state every connection shares: the string store with its expiry times, the list store, and
    the wait queues of blocked BLPOP calls (the maps `store`, `timeStore`, `listStore` and
    `blockManager` that the server builds once and hands to every ClientHandler).

    Also here: what list values mean after a push, which part of a list LRANGE returns, and what
    removing a list's head does to the list store.
 */
module Store {
  import opened Text
  import opened Waiting

  // ---------------------------------------------------------------------------
  // Lists

  function Reverse(xs: seq<Bytes>): (r: seq<Bytes>)
    ensures |r| == |xs|
  {
    if xs == [] then [] else [xs[|xs| - 1]] + Reverse(xs[..|xs| - 1])
  }

  lemma {:induction false} ReverseAt(xs: seq<Bytes>, k: nat)
    requires k < |xs|
    ensures Reverse(xs)[k] == xs[|xs| - 1 - k]
    decreases |xs|
  {
    if k > 0 {
      ReverseAt(xs[..|xs| - 1], k - 1);
    }
  }

  datatype Side = Left | Right

  /** The list after RPUSH or LPUSH of xs onto l. */
  function Pushed(side: Side, l: seq<Bytes>, xs: seq<Bytes>): seq<Bytes> {
    if side == Right then l + xs else Reverse(xs) + l
  }

  /** RPUSH keeps the arguments in order after the old elements; LPUSH puts each argument in front
      of the list in turn, so the last argument ends up first and the old elements follow. */
  lemma PushedOrder(side: Side, l: seq<Bytes>, xs: seq<Bytes>)
    ensures |Pushed(side, l, xs)| == |l| + |xs|
    ensures side == Right ==> Pushed(side, l, xs)[..|l|] == l && Pushed(side, l, xs)[|l|..] == xs
    ensures side == Left ==> Pushed(side, l, xs)[|xs|..] == l
    ensures side == Left ==> forall k :: 0 <= k < |xs| ==> Pushed(side, l, xs)[k] == xs[|xs| - 1 - k]
  {
    if side == Left {
      forall k | 0 <= k < |xs| ensures Pushed(side, l, xs)[k] == xs[|xs| - 1 - k] {
        ReverseAt(xs, k);
      }
    }
  }

  /** LRANGE's treatment of an index: a negative one counts from the end, floored at 0. */
  function Clamp(i: int, size: nat): nat {
    if i < 0 then (if size + i > 0 then size + i else 0) else i
  }

  function Min(a: int, b: int): int {
    if a < b then a else b
  }

  /** The elements LRANGE returns for start and end (both inclusive). */
  function Range(l: seq<Bytes>, start: int, end: int): seq<Bytes> {
    var s := Clamp(start, |l|);
    var e := Clamp(end, |l|);
    if s >= |l| || s > e then [] else l[s..Min(e, |l| - 1) + 1]
  }

  /** LRANGE returns the elements at positions Clamp(start) to Clamp(end), the latter cut to the
      last position, in list order; nothing when that window is empty. */
  lemma RangeWindow(l: seq<Bytes>, start: int, end: int)
    ensures var s := Clamp(start, |l|);
            var e := Min(Clamp(end, |l|), |l| - 1);
            |Range(l, start, end)| == (if s <= e then e - s + 1 else 0)
            && forall k :: 0 <= k < |Range(l, start, end)| ==> Range(l, start, end)[k] == l[s + k]
  {
  }

  /** `LRANGE key 0 -1` is the whole list. */
  lemma RangeWhole(l: seq<Bytes>)
    ensures Range(l, 0, -1) == l
  {
  }

  /** `LRANGE key -k -1` is the last k elements. */
  lemma RangeLast(l: seq<Bytes>, k: int)
    requires 1 <= k <= |l|
    ensures Range(l, -k, -1) == l[|l| - k..]
  {
  }

  /** The list store after the first n elements of key's list are removed: the key is dropped
      when nothing is left (the `removeFirst` calls followed by `if (isEmpty()) remove(key)`). */
  function DropFront(ls: map<Bytes, seq<Bytes>>, key: Bytes, n: nat): (r: map<Bytes, seq<Bytes>>)
    requires key in ls && n <= |ls[key]|
    ensures key in r <==> n < |ls[key]|
    ensures key in r ==> r[key] == ls[key][n..]
    ensures forall k :: k != key ==> (k in r <==> k in ls) && (k in r ==> r[k] == ls[k])
  {
    if n == |ls[key]| then ls - {key} else ls[key := ls[key][n..]]
  }

  /** Every list in the list store is non-empty. */
  ghost predicate NonEmpty(ls: map<Bytes, seq<Bytes>>) {
    forall k :: k in ls ==> ls[k] != []
  }

  /** Removing a prefix of one list keeps every list of the store non-empty, because a list that
      runs out is dropped. */
  lemma DropFrontNonEmpty(ls: map<Bytes, seq<Bytes>>, key: Bytes, n: nat)
    requires key in ls && n <= |ls[key]| && NonEmpty(ls)
    ensures NonEmpty(DropFront(ls, key, n))
  {
  }

  // ---------------------------------------------------------------------------
  // The shared state

  /** Every waiter in the domain of flagsBefore still has the `unblock` flag recorded there. */
  ghost predicate FlagsAre(flagsBefore: map<BlockClient, bool>)
    reads flagsBefore.Keys`unblock
  {
    forall w :: w in flagsBefore ==> w.unblock == flagsBefore[w]
  }

  class Keyspace {
    var store: map<Bytes, Bytes>
    var timeStore: map<Bytes, Int64>
    var listStore: map<Bytes, seq<Bytes>>
    var blockManager: map<Bytes, seq<BlockClient>>

    constructor ()
      ensures store == map[] && timeStore == map[] && listStore == map[] && blockManager == map[]
    {
      store, timeStore, listStore, blockManager := map[], map[], map[], map[];
    }

    /** The wait queue of key; an absent queue reads as an empty one. */
    function Queue(key: Bytes): seq<BlockClient>
      reads this`blockManager
    {
      if key in blockManager then blockManager[key] else []
    }

    /** Every waiter in some wait queue. */
    ghost function Waiters(): set<BlockClient>
      reads this`blockManager
    {
      set k, w | k in blockManager && w in blockManager[k] :: w
    }

    /** The `unblock` flag of every queued waiter. */
    ghost function Flags(): map<BlockClient, bool>
      reads this`blockManager, Waiters()`unblock
    {
      map w | w in Waiters() :: w.unblock
    }

    /** The list of key; an absent list reads as an empty one. */
    function Lists(key: Bytes): seq<Bytes>
      reads this`listStore
    {
      if key in listStore then listStore[key] else []
    }

    /** key holds a non-empty list. */
    predicate ListReady(key: Bytes)
      reads this`listStore
    {
      key in listStore && listStore[key] != []
    }

    /** key has an expiry time strictly before now. */
    predicate Expired(key: Bytes, now: Int64)
      reads this`timeStore
    {
      key in timeStore && timeStore[key] < now
    }

    /** Every key with an expiry time has a value. */
    ghost predicate ExpiryTracked()
      reads this`store, this`timeStore
    {
      forall k :: k in timeStore ==> k in store
    }

    /** Every key of the list store holds a non-empty list. */
    ghost predicate NoEmptyLists()
      reads this`listStore
    {
      NonEmpty(listStore)
    }

    /** The wake scan ran on key's queue as it was in `before`: every waiter up to the first
        eligible one was taken off the queue, that one (if any) now has `unblock` set and no other
        flag changed; the queues of other keys are as they were. */
    ghost predicate WokeFirstEligible(key: Bytes, nanoNow: Int64, before: map<Bytes, seq<BlockClient>>,
                                      flagsBefore: map<BlockClient, bool>)
      reads this`blockManager, flagsBefore.Keys`unblock, (if key in before then SocketsOf(before[key]) else {})`closed
    {
      var q := if key in before then before[key] else [];
      var j := FirstEligible(q, nanoNow);
      blockManager == (if q == [] then before else before[key := if j < |q| then q[j + 1..] else []])
      && forall w :: w in flagsBefore ==> w.unblock == (flagsBefore[w] || (j < |q| && w == q[j]))
    }
  }
}
