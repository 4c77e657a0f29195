/** One client connection's command handlers (class ClientHandler): each decoded request is
    dispatched on its upper-cased first field and answered on the connection's output stream,
    reading and updating the keyspace every connection shares.

    A handler call ends in one of four ways: it writes one reply, writes nothing, leaves the
    client suspended in BLPOP, or lets a runtime exception escape after writing some replies (which
    ends the connection's worker thread and leaves the keyspace as the handler left it).  The two
    clocks the handlers read, `System.nanoTime()` and `System.currentTimeMillis()`, are given as a
    Clock value.
 */
module Handler {
  import opened Text
  import opened Replies
  import opened Waiting
  import opened Store

  /** `System.nanoTime()` and `System.currentTimeMillis()` while a command runs. */
  datatype Clock = Clock(nanos: Int64, millis: Int64)

  /** The runtime exceptions a handler lets escape. */
  datatype Fault =
    | IndexOutOfBounds   // a field read past the end of the request
    | NullMonitor        // a `synchronized` block entered on a missing list
    | NoSuchElement      // the first element of an empty list or request
    | NumberFormat       // a numeric argument that does not parse

  datatype Outcome =
    | Wrote(reply: Reply)
    | Silent
    | Blocked(key: Bytes, waiter: BlockClient)
    | Crashed(fault: Fault, written: seq<Reply>)

  /** The cases of the dispatcher's switch; Other is its default. */
  datatype Command =
    | Docs | Ping | Echo | Set | Get | RPush | LRange | LPush | LLen | LPop | BLPop | Type | Other

  /** The name a case matches. */
  function Spelling(c: Command): string
    requires c != Other
  {
    match c
    case Docs => "COMMAND"
    case Ping => "PING"
    case Echo => "ECHO"
    case Set => "SET"
    case Get => "GET"
    case RPush => "RPUSH"
    case LRange => "LRANGE"
    case LPush => "LPUSH"
    case LLen => "LLEN"
    case LPop => "LPOP"
    case BLPop => "BLPOP"
    case Type => "TYPE"
  }

  /** The switch's case labels, in source order. */
  const Cases: seq<Command> := [Docs, Ping, Echo, Set, Get, RPush, LRange, LPush, LLen, LPop, BLPop, Type]

  /** The first of cs spelled name, or the default when none is. */
  function CaseIn(name: Bytes, cs: seq<Command>): (c: Command)
    requires Other !in cs
    ensures c != Other ==> c in cs && name == Ascii(Spelling(c))
  {
    if cs == [] then Other
    else if name == Ascii(Spelling(cs[0])) then cs[0]
    else CaseIn(name, cs[1..])
  }

  /** The case the switch takes for an upper-cased command name: the one spelled that way, or the
      default when no case is. */
  function CommandOf(name: Bytes): (c: Command)
    ensures c != Other ==> name == Ascii(Spelling(c))
  {
    CaseIn(name, Cases)
  }

  /** Every byte of a case's spelling is an upper-case ASCII letter. */
  lemma SpellingIsUpper(c: Command, i: nat)
    requires c != Other && i < |Spelling(c)|
    ensures 65 <= Ascii(Spelling(c))[i] <= 90
  {
    AsciiAt(Spelling(c), i);
  }

  /** No two cases share a spelling. */
  lemma Distinct(c: Command, d: Command)
    requires c != Other && d != Other && c != d
    ensures Ascii(Spelling(c)) != Ascii(Spelling(d))
  {
    if |Spelling(c)| == |Spelling(d)| {
      AsciiAt(Spelling(c), 0);
      AsciiAt(Spelling(d), 0);
      AsciiAt(Spelling(c), 1);
      AsciiAt(Spelling(d), 1);
    }
  }

  /** The spelling of a case in cs does not fall through to the default. */
  lemma {:induction false} CaseInFinds(c: Command, cs: seq<Command>)
    requires Other !in cs && c in cs
    ensures CaseIn(Ascii(Spelling(c)), cs) != Other
    decreases |cs|
  {
    if cs[0] != c && Ascii(Spelling(c)) != Ascii(Spelling(cs[0])) {
      CaseInFinds(c, cs[1..]);
    }
  }

  /** Each case's spelling selects that case. */
  lemma SpellingSelects(c: Command)
    requires c != Other
    ensures CommandOf(Ascii(Spelling(c))) == c
  {
    var r := CommandOf(Ascii(Spelling(c)));
    CaseInFinds(c, Cases);
    if r != c {
      Distinct(r, c);
    }
  }

  /** The switch runs on the upper-cased name, so a spelling written in any mix of upper- and
      lower-case letters selects its case. */
  lemma AnyCaseSelects(name: Bytes, c: Command)
    requires c != Other && |name| == |Spelling(c)|
    requires forall i :: 0 <= i < |name| ==>
               name[i] == Ascii(Spelling(c))[i] || name[i] as int == Ascii(Spelling(c))[i] as int + 32
    ensures CommandOf(Upper(name)) == c
  {
    forall i | 0 <= i < |name|
      ensures Upper(name)[i] == Ascii(Spelling(c))[i]
    {
      SpellingIsUpper(c, i);
    }
    assert Upper(name) == Ascii(Spelling(c));
    SpellingSelects(c);
  }

  /** The expiry time SET stores for `PX ms`: ms in nanoseconds added to nanoTime(), in `long`
      arithmetic. */
  function ExpiryAt(ms: Int64, nanoNow: Int64): (r: Int64)
    ensures (r - (nanoNow + ms * NanosPerMilli)) % 0x1_0000_0000_0000_0000 == 0
    ensures MinInt64 <= ms * NanosPerMilli <= MaxInt64 && MinInt64 <= nanoNow + ms * NanosPerMilli <= MaxInt64 ==>
              r == nanoNow + ms * NanosPerMilli
  {
    var nanos := Wrap64(ms * NanosPerMilli);
    var r := Wrap64(nanoNow + nanos);
    WrapSum64(nanos - ms * NanosPerMilli, r - (nanoNow + nanos));
    r
  }

  /** The write loop of LRANGE: the elements at positions from .. to, in list order. */
  method Window(listValue: seq<Bytes>, from: nat, to: nat) returns (elems: seq<Bytes>)
    requires from <= to < |listValue|
    ensures elems == listValue[from..to + 1]
  {
    elems := [];
    var i := from;
    while i <= to
      invariant from <= i <= to + 1
      invariant |elems| == i - from
      invariant forall k :: 0 <= k < |elems| ==> elems[k] == listValue[from + k]
    {
      elems := elems + [listValue[i]];
      i := i + 1;
    }
  }

  function Max0(n: int): nat {
    if n < 0 then 0 else n
  }

  class ClientHandler {
    const clientSocket: Socket
    const ks: Keyspace

    constructor (clientSocket: Socket, ks: Keyspace)
      ensures this.clientSocket == clientSocket && this.ks == ks
    {
      this.clientSocket := clientSocket;
      this.ks := ks;
    }

    /** Dispatch on the upper-cased command name.  A request without fields fails on its first
        field; an unknown command writes nothing and changes nothing. */
    method ExecuteCommand(arr: seq<Bytes>, out: OutputStream, clock: Clock) returns (res: Outcome)
      modifies ks`store, ks`timeStore, ks`listStore, ks`blockManager, ks.Waiters()`unblock
      ensures arr == [] ==> res == Crashed(NoSuchElement, [])
      ensures arr != [] && CommandOf(Upper(arr[0])) in {Ping, Docs} ==> res == Wrote(Simple("PONG"))
      ensures arr == [] || CommandOf(Upper(arr[0])) == Other ==>
                ks.store == old(ks.store) && ks.timeStore == old(ks.timeStore)
                && ks.listStore == old(ks.listStore) && ks.blockManager == old(ks.blockManager)
                && FlagsAre(old(ks.Flags()))
      ensures arr != [] && CommandOf(Upper(arr[0])) == Other ==> res == Silent
    {
      if arr == [] {
        return Crashed(NoSuchElement, []);
      }
      match CommandOf(Upper(arr[0]))
      case Docs =>
        // With or without a DOCS argument the reply is the same.
        res := Wrote(Simple("PONG"));
      case Ping => res := Wrote(Simple("PONG"));
      case Echo => res := ExecuteECHO(arr);
      case Set => res := ExecuteSET(arr, clock);
      case Get => res := ExecuteGET(arr, clock);
      case RPush => res := ExecutePUSH(arr, Right, clock.nanos);
      case LRange => res := ExecuteLRANGE(arr);
      case LPush => res := ExecutePUSH(arr, Left, clock.nanos);
      case LLen => res := ExecuteLLEN(arr);
      case LPop => res := ExecuteLPOP(arr);
      case BLPop => res := ExecuteBLPOP(arr, out, clock);
      case Type => res := ExecuteTYPE(arr);
      case Other => res := Silent;
    }

    /** ECHO writes its argument back as a bulk string. */
    method ExecuteECHO(arr: seq<Bytes>) returns (res: Outcome)
      ensures |arr| < 2 ==> res == Wrote(Error("ERR missing argument for ECHO"))
      ensures |arr| >= 2 ==> res == Wrote(Bulk(arr[1]))
    {
      if |arr| < 2 {
        return Wrote(Error("ERR missing argument for ECHO"));
      }
      res := Wrote(Bulk(arr[1]));
    }

    /** SET key value [option ms]: the value is stored as soon as key and value are present; with
        more fields the expiry is read from the fifth field, so a request of exactly four fields
        fails after the store has changed.  Without an expiry the key keeps any earlier one. */
    method ExecuteSET(arr: seq<Bytes>, clock: Clock) returns (res: Outcome)
      modifies ks`store, ks`timeStore
      ensures |arr| < 3 ==> res == Wrote(Error("ERR missing either key or value for SET"))
                            && ks.store == old(ks.store)
      ensures |arr| >= 3 ==> ks.store == old(ks.store)[arr[1] := arr[2]]
      ensures |arr| == 3 ==> res == Wrote(Simple("OK"))
      ensures |arr| == 4 ==> res == Crashed(IndexOutOfBounds, [])
      ensures |arr| >= 5 ==>
                var ms := ParseInteger(arr[4], MinInt64, MaxInt64);
                if ms.None? then res == Crashed(NumberFormat, []) && ks.timeStore == old(ks.timeStore)
                else res == Wrote(Simple("OK"))
                     && ks.timeStore == old(ks.timeStore)[arr[1] := ExpiryAt(ms.value, clock.nanos)]
      ensures |arr| < 5 ==> ks.timeStore == old(ks.timeStore)
      ensures old(ks.ExpiryTracked()) ==> ks.ExpiryTracked()
    {
      if |arr| < 3 {
        return Wrote(Error("ERR missing either key or value for SET"));
      }
      var setKey := arr[1];
      var setValue := arr[2];
      ks.store := ks.store[setKey := setValue];
      if |arr| > 3 {
        if |arr| == 4 {
          return Crashed(IndexOutOfBounds, []);
        }
        var setTime := ParseInteger(arr[4], MinInt64, MaxInt64);
        if setTime.None? {
          return Crashed(NumberFormat, []);
        }
        ks.timeStore := ks.timeStore[setKey := ExpiryAt(setTime.value, clock.nanos)];
      }
      res := Wrote(Simple("OK"));
    }

    /** GET key: an expiry time already passed removes the key first; the reply is the value or
        the null bulk string. */
    method ExecuteGET(arr: seq<Bytes>, clock: Clock) returns (res: Outcome)
      modifies ks`store, ks`timeStore
      ensures |arr| < 2 ==> res == Wrote(Error("ERR missing key for GET"))
                            && ks.store == old(ks.store) && ks.timeStore == old(ks.timeStore)
      ensures |arr| >= 2 ==>
                var key := arr[1];
                var expired := old(ks.Expired(key, clock.nanos));
                ks.store == (if expired then old(ks.store) - {key} else old(ks.store))
                && ks.timeStore == (if expired then old(ks.timeStore) - {key} else old(ks.timeStore))
                && res == Wrote(if key in old(ks.store) && !expired then Bulk(old(ks.store)[key]) else NullBulk)
      ensures old(ks.ExpiryTracked()) ==> ks.ExpiryTracked()
    {
      if |arr| < 2 {
        return Wrote(Error("ERR missing key for GET"));
      }
      var getKey := arr[1];
      if getKey in ks.timeStore {
        if ks.timeStore[getKey] < clock.nanos {
          ks.timeStore := ks.timeStore - {getKey};
          ks.store := ks.store - {getKey};
        }
      }
      if getKey !in ks.store {
        res := Wrote(NullBulk);
      } else {
        res := Wrote(Bulk(ks.store[getKey]));
      }
    }

    /** RPUSH / LPUSH key element...: the list is made when missing, the elements are added one
        at a time at the chosen end, the new length is written, and then the first waiter on the
        key that can still be served is woken.  Both commands report a missing argument with the
        RPUSH text. */
    method ExecutePUSH(arr: seq<Bytes>, side: Side, nanoNow: Int64) returns (res: Outcome)
      modifies ks`listStore, ks`blockManager, ks.Waiters()`unblock
      ensures |arr| < 3 ==> res == Wrote(Error("ERR missing list name or element(s) for RPUSH"))
                            && ks.listStore == old(ks.listStore) && ks.blockManager == old(ks.blockManager)
                            && FlagsAre(old(ks.Flags()))
      ensures |arr| >= 3 ==>
                var l := if arr[1] in old(ks.listStore) then old(ks.listStore)[arr[1]] else [];
                ks.listStore == old(ks.listStore)[arr[1] := Pushed(side, l, arr[2..])]
                && res == Wrote(Integer(|l| + |arr| - 2))
                && ks.WokeFirstEligible(arr[1], nanoNow, old(ks.blockManager), old(ks.Flags()))
      ensures old(ks.NoEmptyLists()) ==> ks.NoEmptyLists()
    {
      if |arr| < 3 {
        return Wrote(Error("ERR missing list name or element(s) for RPUSH"));
      }
      var listName := arr[1];
      ghost var queues0, flags0 := ks.blockManager, ks.Flags();
      var size := AddAll(listName, arr[2..], side);
      res := Wrote(Integer(size));
      ghost var lists1 := ks.listStore;
      assert ks.blockManager == queues0 && ks.Flags() == flags0 && ks.ListReady(listName);
      NotifyBlockClients(listName, nanoNow);
      assert ks.listStore == lists1 && ks.WokeFirstEligible(listName, nanoNow, queues0, flags0);
    }

    /** The add loops of RPUSH and LPUSH: the list is made when missing and each element is added
        in turn at the chosen end.  Returns the new length. */
    method AddAll(listName: Bytes, elems: seq<Bytes>, side: Side) returns (size: nat)
      modifies ks`listStore
      ensures ks.listStore == old(ks.listStore)[listName := Pushed(side, old(ks.Lists(listName)), elems)]
      ensures size == |old(ks.Lists(listName))| + |elems|
      ensures old(ks.NoEmptyLists()) && elems != [] ==> ks.NoEmptyLists()
    {
      if listName !in ks.listStore {
        ks.listStore := ks.listStore[listName := []];
      }
      var listValue := ks.listStore[listName];
      ghost var l0 := listValue;
      if side == Right {
        var i := 0;
        assert l0 + elems[..i] == l0;
        while i < |elems|
          invariant 0 <= i <= |elems|
          invariant listValue == l0 + elems[..i]
        {
          assert l0 + elems[..i + 1] == (l0 + elems[..i]) + [elems[i]];
          listValue := listValue + [elems[i]];
          i := i + 1;
        }
        assert elems[..i] == elems;
      } else {
        var i := 0;
        assert Reverse(elems[..i]) + l0 == l0;
        while i < |elems|
          invariant 0 <= i <= |elems|
          invariant listValue == Reverse(elems[..i]) + l0
        {
          assert Reverse(elems[..i + 1]) + l0 == [elems[i]] + (Reverse(elems[..i]) + l0) by {
            var xs := elems[..i + 1];
            assert xs[|xs| - 1] == elems[i] && xs[..|xs| - 1] == elems[..i];
          }
          listValue := [elems[i]] + listValue;
          i := i + 1;
        }
        assert elems[..i] == elems;
      }
      ks.listStore := ks.listStore[listName := listValue];
      size := |listValue|;
    }

    /** LRANGE key start end: a missing list is an empty array before the indices are read;
        otherwise the indices are parsed as `int`s and the window Range describes is written. */
    method ExecuteLRANGE(arr: seq<Bytes>) returns (res: Outcome)
      ensures |arr| < 4 ==> res == Wrote(BareError("ERR missing list name or start index or end index for LRANGE"))
      ensures |arr| >= 4 && arr[1] !in ks.listStore ==> res == Wrote(ArrayOf([]))
      ensures |arr| >= 4 && arr[1] in ks.listStore ==>
                var s := ParseInteger(arr[2], MinInt32, MaxInt32);
                var e := ParseInteger(arr[3], MinInt32, MaxInt32);
                res == if s.None? || e.None? then Crashed(NumberFormat, [])
                       else Wrote(ArrayOf(Range(ks.listStore[arr[1]], s.value, e.value)))
    {
      if |arr| < 4 {
        return Wrote(BareError("ERR missing list name or start index or end index for LRANGE"));
      }
      var listName := arr[1];
      if listName !in ks.listStore {
        return Wrote(ArrayOf([]));
      }
      var listValue := ks.listStore[listName];
      var startParsed := ParseInteger(arr[2], MinInt32, MaxInt32);
      if startParsed.None? {
        return Crashed(NumberFormat, []);
      }
      var endParsed := ParseInteger(arr[3], MinInt32, MaxInt32);
      if endParsed.None? {
        return Crashed(NumberFormat, []);
      }
      var reply := RangeReply(listValue, startParsed.value, endParsed.value);
      res := Wrote(reply);
    }

    /** The part of LRANGE that holds the list's monitor: negative indices count from the end, an
        empty window gives an empty array, the end is cut to the last element, and the elements
        from start to end are written. */
    method RangeReply(listValue: seq<Bytes>, start: Int32, end: Int32) returns (reply: Reply)
      ensures reply == ArrayOf(Range(listValue, start, end))
    {
      var startValue := start;
      var endValue := end;
      if startValue < 0 {
        startValue := if |listValue| + startValue > 0 then |listValue| + startValue else 0;
      }
      if endValue < 0 {
        endValue := if |listValue| + endValue > 0 then |listValue| + endValue else 0;
      }
      assert startValue == Clamp(start, |listValue|) && endValue == Clamp(end, |listValue|);
      if startValue >= |listValue| || startValue > endValue {
        return ArrayOf([]);
      }
      if endValue >= |listValue| {
        endValue := |listValue| - 1;
      }
      var elems := Window(listValue, startValue, endValue);
      reply := BulkArray(endValue - startValue + 1, elems);
    }

    /** LLEN key: the length of the list, 0 when there is none. */
    method ExecuteLLEN(arr: seq<Bytes>) returns (res: Outcome)
      ensures |arr| < 2 ==> res == Wrote(BareError("ERR missing list name for LLEN"))
      ensures |arr| >= 2 ==> res == Wrote(Integer(|ks.Lists(arr[1])|))
    {
      if |arr| < 2 {
        return Wrote(BareError("ERR missing list name for LLEN"));
      }
      var listName := arr[1];
      if listName !in ks.listStore {
        return Wrote(Integer(0));
      }
      res := Wrote(Integer(|ks.listStore[listName]|));
    }

    /** Removes and returns the head of a non-empty list, dropping the key once the list is empty. */
    method RemoveHead(listName: Bytes) returns (x: Bytes)
      requires ks.ListReady(listName)
      modifies ks`listStore
      ensures x == old(ks.listStore)[listName][0]
      ensures ks.listStore == DropFront(old(ks.listStore), listName, 1)
      ensures old(ks.NoEmptyLists()) ==> ks.NoEmptyLists()
    {
      if ks.NoEmptyLists() {
        DropFrontNonEmpty(ks.listStore, listName, 1);
      }
      x := ks.listStore[listName][0];
      ks.listStore := ks.listStore[listName := ks.listStore[listName][1..]];
      if ks.listStore[listName] == [] {
        ks.listStore := ks.listStore - {listName};
      }
    }

    /** LPOP key [count]: a missing list fails on its monitor and an empty one gives the null bulk
        string.  With exactly three fields the count is parsed, `*count` is written and that many
        elements are popped; a count beyond the length fails once the list runs out, leaving the
        emptied list in place.  Otherwise the head is popped. */
    method ExecuteLPOP(arr: seq<Bytes>) returns (res: Outcome)
      modifies ks`listStore
      ensures |arr| < 2 ==> res == Wrote(BareError("ERR missing list name for LLEN"))
                            && ks.listStore == old(ks.listStore)
      ensures |arr| >= 2 && arr[1] !in old(ks.listStore) ==>
                res == Crashed(NullMonitor, []) && ks.listStore == old(ks.listStore)
      ensures |arr| >= 2 && arr[1] in old(ks.listStore) && old(ks.listStore)[arr[1]] == [] ==>
                res == Wrote(NullBulk) && ks.listStore == old(ks.listStore)
      ensures |arr| == 3 && old(ks.ListReady(arr[1])) ==>
                var l := old(ks.listStore)[arr[1]];
                var n := ParseInteger(arr[2], MinInt32, MaxInt32);
                if n.None? then res == Crashed(NumberFormat, []) && ks.listStore == old(ks.listStore)
                else if n.value > |l| then
                  res == Crashed(NoSuchElement, [BulkArray(n.value, l)])
                  && ks.listStore == old(ks.listStore)[arr[1] := []]
                else
                  res == Wrote(BulkArray(n.value, l[..Max0(n.value)]))
                  && ks.listStore == DropFront(old(ks.listStore), arr[1], Max0(n.value))
      ensures |arr| >= 2 && |arr| != 3 && old(ks.ListReady(arr[1])) ==>
                res == Wrote(Bulk(old(ks.listStore)[arr[1]][0]))
                && ks.listStore == DropFront(old(ks.listStore), arr[1], 1)
      ensures old(ks.NoEmptyLists()) && !res.Crashed? ==> ks.NoEmptyLists()
    {
      if |arr| < 2 {
        return Wrote(BareError("ERR missing list name for LLEN"));
      }
      var listName := arr[1];
      if listName !in ks.listStore {
        return Crashed(NullMonitor, []);
      }
      if ks.listStore[listName] == [] {
        return Wrote(NullBulk);
      }
      if |arr| == 3 {
        var parsed := ParseInteger(arr[2], MinInt32, MaxInt32);
        if parsed.None? {
          return Crashed(NumberFormat, []);
        }
        var popAmt := parsed.value;
        ghost var l := ks.listStore[listName];
        ghost var store0 := ks.listStore;
        var popped: seq<Bytes> := [];
        var i := 0;
        while i < popAmt
          invariant 0 <= i <= |l| && i <= Max0(popAmt)
          invariant popped == l[..i]
          invariant ks.listStore == store0[listName := l[i..]]
        {
          if ks.listStore[listName] == [] {
            assert i == |l| && popped == l && l[i..] == [];
            return Crashed(NoSuchElement, [BulkArray(popAmt, popped)]);
          }
          popped := popped + [ks.listStore[listName][0]];
          ks.listStore := ks.listStore[listName := ks.listStore[listName][1..]];
          i := i + 1;
        }
        if ks.listStore[listName] == [] {
          ks.listStore := ks.listStore - {listName};
        }
        res := Wrote(BulkArray(popAmt, popped));
      } else {
        var poppedElement := RemoveHead(listName);
        res := Wrote(Bulk(poppedElement));
      }
    }

    /** BLPOP key seconds, up to the moment the client would wait: the timeout is read as seconds
        and turned into whole milliseconds; a non-empty list is popped at once; otherwise a fresh
        waiter, due at the wall-clock time plus the timeout, joins the end of the key's queue. */
    method ExecuteBLPOP(arr: seq<Bytes>, out: OutputStream, clock: Clock) returns (res: Outcome)
      modifies ks`listStore, ks`blockManager
      ensures |arr| < 3 ==> res == Wrote(Error("ERR missing list name or timeout for BLPOP"))
      ensures |arr| >= 3 && SecondsToMillis(arr[2]).None? ==> res == Crashed(NumberFormat, [])
      ensures |arr| >= 3 && SecondsToMillis(arr[2]).Some? && SecondsToMillis(arr[2]).value < 0 ==>
                res == Wrote(Error("ERR timeout is a negative number"))
      ensures !(|arr| >= 3 && SecondsToMillis(arr[2]).Some? && SecondsToMillis(arr[2]).value >= 0) ==>
                ks.listStore == old(ks.listStore) && ks.blockManager == old(ks.blockManager)
      ensures |arr| >= 3 && SecondsToMillis(arr[2]).Some? && SecondsToMillis(arr[2]).value >= 0 ==>
                var key := arr[1];
                if old(ks.ListReady(key)) then
                  res == Wrote(ArrayOf([key, old(ks.listStore)[key][0]]))
                  && ks.listStore == DropFront(old(ks.listStore), key, 1)
                  && ks.blockManager == old(ks.blockManager)
                else
                  res.Blocked? && res.key == key && fresh(res.waiter)
                  && res.waiter.socket == clientSocket && res.waiter.outputStream == out
                  && res.waiter.timeOut == Deadline(Wrap64(clock.millis + SecondsToMillis(arr[2]).value), clock.nanos)
                  && !res.waiter.unblock
                  && ks.blockManager == old(ks.blockManager)[key := old(ks.Queue(key)) + [res.waiter]]
                  && ks.listStore == old(ks.listStore)
      ensures old(ks.NoEmptyLists()) ==> ks.NoEmptyLists()
    {
      if |arr| < 3 {
        return Wrote(Error("ERR missing list name or timeout for BLPOP"));
      }
      var listName := arr[1];
      var parsed := SecondsToMillis(arr[2]);
      if parsed.None? {
        return Crashed(NumberFormat, []);
      }
      var timeOut := parsed.value;
      if timeOut < 0 {
        return Wrote(Error("ERR timeout is a negative number"));
      }
      if listName in ks.listStore {
        if ks.listStore[listName] != [] {
          var poppedElement := RemoveHead(listName);
          return Wrote(ArrayOf([listName, poppedElement]));
        }
      }
      var blockClient := new BlockClient(clientSocket, out, Wrap64(clock.millis + timeOut), clock.nanos);
      var blockList := if listName in ks.blockManager then ks.blockManager[listName] else [];
      ks.blockManager := ks.blockManager[listName := blockList + [blockClient]];
      res := Blocked(listName, blockClient);
    }

    /** BLPOP after its wait ends, for the waiter it queued on key: the waiter leaves the queue;
        if it was woken and its connection is open, the list is popped when non-empty, nothing is
        written when the list is gone, and the null bulk string is written when the list is empty.
        A waiter that timed out or whose connection closed gets the null bulk string. */
    method ResumeBLPOP(key: Bytes, blockClient: BlockClient) returns (res: Outcome)
      modifies ks`listStore, ks`blockManager
      ensures ks.blockManager == if key in old(ks.blockManager)
                                 then old(ks.blockManager)[key := RemoveFirst(old(ks.blockManager)[key], blockClient)]
                                 else old(ks.blockManager)
      ensures if !(blockClient.IsUnblock() && !blockClient.IsClosed()) then
                res == Wrote(NullBulk) && ks.listStore == old(ks.listStore)
              else if key !in old(ks.listStore) then
                res == Silent && ks.listStore == old(ks.listStore)
              else if old(ks.listStore)[key] == [] then
                res == Wrote(NullBulk) && ks.listStore == old(ks.listStore)
              else
                res == Wrote(ArrayOf([key, old(ks.listStore)[key][0]]))
                && ks.listStore == DropFront(old(ks.listStore), key, 1)
      ensures old(ks.NoEmptyLists()) ==> ks.NoEmptyLists()
    {
      LeaveQueue(key, blockClient);
      if blockClient.IsUnblock() && !blockClient.IsClosed() {
        if key in ks.listStore {
          if ks.listStore[key] != [] {
            var poppedElement := RemoveHead(key);
            return Wrote(ArrayOf([key, poppedElement]));
          }
        } else {
          return Silent;
        }
      }
      res := Wrote(NullBulk);
    }

    /** A waiter taking itself off key's queue once its wait is over. */
    method LeaveQueue(key: Bytes, blockClient: BlockClient)
      modifies ks`blockManager
      ensures ks.blockManager == if key in old(ks.blockManager)
                                 then old(ks.blockManager)[key := RemoveFirst(old(ks.blockManager)[key], blockClient)]
                                 else old(ks.blockManager)
    {
      if key in ks.blockManager {
        ks.blockManager := ks.blockManager[key := RemoveFirst(ks.blockManager[key], blockClient)];
      }
    }

    /** TYPE key: "string" when the string store has the key, "none" otherwise; expiry times are
        not consulted and lists are not looked at. */
    method ExecuteTYPE(arr: seq<Bytes>) returns (res: Outcome)
      ensures |arr| < 2 ==> res == Wrote(BareError("ERR missing key for TYPE"))
      ensures |arr| >= 2 ==> (arr[1] in ks.store <==> res == Wrote(Simple("string")))
      ensures |arr| >= 2 ==> (arr[1] !in ks.store <==> res == Wrote(Simple("none")))
    {
      if |arr| < 2 {
        return Wrote(BareError("ERR missing key for TYPE"));
      }
      var key := arr[1];
      if key in ks.store {
        return Wrote(Simple("string"));
      }
      res := Wrote(Simple("none"));
    }

    /** After a push onto listKey: when the key has waiters and a non-empty list, waiters are taken
        off the front of its queue until one whose connection is open and whose deadline has not
        passed is found; that one is flagged to unblock and the scan stops. */
    method NotifyBlockClients(listKey: Bytes, nanoNow: Int64)
      modifies ks`blockManager, ks.Waiters()`unblock
      ensures ks.ListReady(listKey) ==>
                ks.WokeFirstEligible(listKey, nanoNow, old(ks.blockManager), old(ks.Flags()))
      ensures !ks.ListReady(listKey) ==> ks.blockManager == old(ks.blockManager) && FlagsAre(old(ks.Flags()))
    {
      if listKey in ks.blockManager && ks.blockManager[listKey] != [] {
        if ks.ListReady(listKey) {
          var woken := ScanQueue(listKey, nanoNow);
          if woken != null {
            // The flag is set right after the scan stops.
            assert woken in old(ks.blockManager)[listKey];
            assert woken in old(ks.Waiters());
            woken.SetUnblock(true);
          }
        }
      }
    }

    /** The scan of NotifyBlockClients: take waiters off the front of listKey's queue until one
        whose socket is open and whose deadline has not passed comes off, and return it (null
        when the queue runs out). */
    method ScanQueue(listKey: Bytes, nanoNow: Int64) returns (woken: BlockClient?)
      requires listKey in ks.blockManager
      modifies ks`blockManager
      ensures var q := old(ks.blockManager)[listKey];
              var j := FirstEligible(q, nanoNow);
              ks.blockManager == old(ks.blockManager)[listKey := if j < |q| then q[j + 1..] else []]
              && woken == (if j < |q| then q[j] else null)
    {
      ghost var before := ks.blockManager;
      ghost var q := before[listKey];
      ghost var i := 0;
      woken := null;
      while ks.blockManager[listKey] != []
        invariant listKey in ks.blockManager
        invariant 0 <= i <= |q| && ks.blockManager == before[listKey := q[i..]]
        invariant forall k :: 0 <= k < i ==> !Eligible(q[k], nanoNow)
        invariant woken == null
        decreases |ks.blockManager[listKey]|
      {
        var blockClient := ks.blockManager[listKey][0];
        ks.blockManager := ks.blockManager[listKey := ks.blockManager[listKey][1..]];
        if !blockClient.IsClosed() && !blockClient.IsTimeOut(nanoNow) {
          woken := blockClient;
          assert q[i..][1..] == q[i + 1..];
          FirstEligibleAt(q, nanoNow, i);
          return;
        }
        i := i + 1;
      }
      FirstEligibleAt(q, nanoNow, i);
    }
  }
}
