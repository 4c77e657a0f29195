/** Short sessions against a fresh keyspace, each following the handlers' contracts from one
    command to the next: what a client observes after a sequence of commands. */
module Scenarios {
  import opened Text
  import opened Replies
  import opened Waiting
  import opened Store
  import opened Handler

  /** SET key value, then GET key, on a fresh server answers the value. */
  method SetThenGet(key: Bytes, value: Bytes, clock: Clock) returns (res: Outcome)
    ensures res == Wrote(Bulk(value))
  {
    var ks := new Keyspace();
    var socket := new Socket();
    var handler := new ClientHandler(socket, ks);
    var _ := handler.ExecuteSET([Ascii("SET"), key, value], clock);
    res := handler.ExecuteGET([Ascii("GET"), key], clock);
  }

  /** A client that blocks with `BLPOP key 0` on a fresh server is woken by `RPUSH key x` and then
      receives [key, x]; the list is gone afterwards. */
  method PushWakesBlockedPop(key: Bytes, x: Bytes, clock: Clock) returns (res: Outcome, lists: map<Bytes, seq<Bytes>>)
    requires 0 < clock.millis && 0 <= clock.nanos && clock.millis * NanosPerMilli + clock.nanos <= MaxInt64
    ensures res == Wrote(ArrayOf([key, x])) && lists == map[]
  {
    var ks := new Keyspace();
    var socket := new Socket();
    var handler := new ClientHandler(socket, ks);
    var waiter := BlockForever(handler, key, clock);
    assert [] + [waiter] == [waiter];
    assert ks.blockManager == map[key := [waiter]];
    assert waiter in ks.blockManager[key];
    assert waiter in ks.Waiters();
    FirstEligibleAt([waiter], clock.nanos, 0);
    var request := [Ascii("RPUSH"), key, x];
    assert request[2..] == [x] && [] + [x] == [x];
    var _ := handler.ExecutePUSH(request, Right, clock.nanos);
    assert waiter.unblock && ks.listStore == map[key := [x]];
    res := ResumeWoken(handler, key, x, waiter);
    lists := ks.listStore;
  }

  /** Two clients block on the same key in turn and the first one's socket is then marked
      closed: a push skips the first and wakes the second, which receives the element; the first,
      never woken, gets the null bulk string.  This exercises the `isClosed` test of the wake scan
      as the code has it.  The program itself never reaches this state: a socket is closed only by
      its own worker on leaving `run`, and a waiting worker leaves the queue before that. */
  method WakeSkipsClosedWaiter(key: Bytes, x: Bytes, clock: Clock) returns (first: Outcome, second: Outcome)
    requires 0 < clock.millis && 0 <= clock.nanos && clock.millis * NanosPerMilli + clock.nanos <= MaxInt64
    ensures first == Wrote(NullBulk) && second == Wrote(ArrayOf([key, x]))
  {
    var ks := new Keyspace();
    var socket1 := new Socket();
    var socket2 := new Socket();
    var handler1 := new ClientHandler(socket1, ks);
    var handler2 := new ClientHandler(socket2, ks);
    var waiter1 := BlockForever(handler1, key, clock);
    assert [] + [waiter1] == [waiter1];
    var waiter2 := BlockForever(handler2, key, clock);
    assert [waiter1] + [waiter2] == [waiter1, waiter2];
    assert ks.blockManager == map[key := [waiter1, waiter2]];
    socket1.closed := true;
    PushPastClosed(handler1, key, x, waiter1, waiter2, clock.nanos);
    second := ResumeWoken(handler2, key, x, waiter2);
    first := handler1.ResumeBLPOP(key, waiter1);
  }

  /** `BLPOP key 0` on a key with no list: a fresh waiter, eligible at clock.nanos while its
      connection is open, joins the end of the key's queue. */
  method BlockForever(handler: ClientHandler, key: Bytes, clock: Clock) returns (waiter: BlockClient)
    requires 0 < clock.millis && 0 <= clock.nanos && clock.millis * NanosPerMilli + clock.nanos <= MaxInt64
    requires handler.ks.listStore == map[]
    modifies handler.ks`listStore, handler.ks`blockManager
    ensures handler.ks.listStore == map[]
    ensures fresh(waiter) && !waiter.unblock && waiter.socket == handler.clientSocket
    ensures !waiter.IsTimeOut(clock.nanos)
    ensures handler.ks.blockManager == old(handler.ks.blockManager)[key := old(handler.ks.Queue(key)) + [waiter]]
  {
    var out := new OutputStream();
    SecondsToMillisWhole(0);
    assert NatText(0) == Ascii("0");
    var request := [Ascii("BLPOP"), key, Ascii("0")];
    assert SecondsToMillis(request[2]) == Some(0);
    var blocked := handler.ExecuteBLPOP(request, out, clock);
    waiter := blocked.waiter;
    ForeverIsAFiniteDeadline(clock.millis, clock.nanos);
  }

  /** `RPUSH key x` while waiter1, whose connection is closed, and then waiter2 wait on key: the
      scan passes over waiter1 and wakes waiter2. */
  method PushPastClosed(handler: ClientHandler, key: Bytes, x: Bytes, waiter1: BlockClient, waiter2: BlockClient, nanoNow: Int64)
    requires handler.ks.listStore == map[] && handler.ks.blockManager == map[key := [waiter1, waiter2]]
    requires waiter1.socket.closed && !waiter1.unblock
    requires !waiter2.socket.closed && !waiter2.IsTimeOut(nanoNow) && !waiter2.unblock
    modifies handler.ks`listStore, handler.ks`blockManager, waiter1`unblock, waiter2`unblock
    ensures handler.ks.listStore == map[key := [x]] && !waiter1.unblock && waiter2.unblock
  {
    var ks := handler.ks;
    assert waiter1 in ks.blockManager[key] && waiter2 in ks.blockManager[key];
    assert waiter1 in ks.Waiters() && waiter2 in ks.Waiters();
    FirstEligibleAt([waiter1, waiter2], nanoNow, 1);
    var request := [Ascii("RPUSH"), key, x];
    assert request[2..] == [x] && [] + [x] == [x] && [waiter1, waiter2][2..] == [];
    var _ := handler.ExecutePUSH(request, Right, nanoNow);
  }

  /** A woken waiter whose connection is open takes the one element of key's list. */
  method ResumeWoken(handler: ClientHandler, key: Bytes, x: Bytes, waiter: BlockClient) returns (res: Outcome)
    requires handler.ks.listStore == map[key := [x]] && waiter.unblock && !waiter.socket.closed
    modifies handler.ks`listStore, handler.ks`blockManager
    ensures res == Wrote(ArrayOf([key, x])) && handler.ks.listStore == map[]
  {
    res := handler.ResumeBLPOP(key, waiter);
    assert handler.ks.listStore == map[key := [x]] - {key};
  }
}
