# redis-clone core in Dafny

A model of the core of the Java server `redis-clone`, with proofs about it. The model covers three parts:

- **the request decoder** (`RedisProcessor`): it reads one RESP request, `*<n>\r\n` followed by
  n bulk strings `$<len>\r\n<bytes>\r\n`, from the connection's input stream;
- **the command handlers** of a connection (`ClientHandler`, without its `run` loop): the
  dispatcher, then PING/COMMAND, ECHO, SET, GET, RPUSH/LPUSH, LRANGE, LLEN, LPOP, BLPOP and TYPE.
  They work over the state that every connection shares: the string store, the expiry times, the
  list store and the per-key wait queues of blocked BLPOP calls;
- **the record of a blocked BLPOP call** (`BlockClient`): its connection, its deadline and its
  `unblock` flag.

Module layout:

| module | file | holds |
|---|---|---|
| `Text` | Text.dfy | bytes, Java `int`/`long` wrap-around, `Integer.parseInt`/`Long.valueOf`, decimal text, the seconds-to-milliseconds conversion of BLPOP |
| `RedisProcessor` | RedisProcessor.dfy | the decoder as the Java code runs it (methods with loops), proved equal to specification functions |
| `Framing` | Framing.dfy | the wire encoding of a request and the round trip through the decoder |
| `Replies` | Replies.dfy | the replies and their bytes; array replies decode with the request decoder |
| `Waiting` | BlockClient.dfy | `Socket`, `BlockClient`, and which waiter the wake scan picks |
| `Store` | Keyspace.dfy | the shared `Keyspace` object, list semantics (push order, LRANGE window, removal) |
| `Handler` | ClientHandler.dfy | `ClientHandler`: one method per `execute…` method of the source |
| `Scenarios` | Scenarios.dfy | short sessions on a fresh keyspace, proved from the handlers' contracts |

How the Java code is represented:

- **The input stream** is a byte sequence plus a read position. `read()` at the end yields -1.
  `read(buf, off, len)` hands over every byte it has, up to `len`. Its copy into the buffer is a
  loop over a Dafny `array`.
- **Runtime exceptions.** A handler that lets one escape (index out of bounds, a null monitor,
  `NoSuchElementException`, `NumberFormatException`) ends in `Crashed(fault, written)`.
  - `written` lists the replies already written.
  - The keyspace stays as the handler left it.
- **A BLPOP call** is split at its wait:
  - `ExecuteBLPOP` runs up to enqueueing the waiter.
  - `ResumeBLPOP` is everything after the wait ends.
- **The clocks** `System.nanoTime()` and `System.currentTimeMillis()` are parameters, passed as a
  `Clock` value for each command.
- **Behaviours kept exactly as the code has them:**
  - TYPE does not check expiry.
  - LPOP on a missing key fails on a null monitor.
  - LPOP with a count larger than the list writes `*count` and then fails.
  - A number that does not parse raises `NumberFormatException`; no error reply is written.
  - SET with exactly four fields stores the value and then fails reading the fifth.
  - BLPOP with timeout 0 gets a finite deadline (see `Waiting.ForeverIsAFiniteDeadline`).
  - LPOP's missing-argument error names LLEN.

## Model

| member | source | states |
|---|---|---|
| `Text.Wrap32` | redis-clone/src/RedisProcessor.java:15 | Java `int` arithmetic: the result is in range and congruent to the exact value modulo 2^32; a value in range is unchanged |
| `Text.Wrap64` | redis-clone/src/BlockClient.java:14 | Java `long` arithmetic: the result is in range and congruent to the exact value modulo 2^64; a value in range is unchanged |
| `Text.Upper` | redis-clone/src/ClientHandler.java:25 | `toUpperCase`: each byte a-z becomes A-Z, every other byte is kept, the length is unchanged |
| `Text.AsciiAt` | redis-clone/src/ClientHandler.java:26-70 | byte i of a string literal's bytes is the code of its character i |
| `Text.NatText` | redis-clone/src/ClientHandler.java:80 | Java's decimal text of a count, as in `"$" + s.length()`: at least one digit, digits only, no leading zero |
| `Text.IntText` | redis-clone/src/ClientHandler.java:140 | Java's decimal text of any number: a leading '-' exactly for negative numbers, followed by the digits of its magnitude |
| `Text.ParseInteger` | redis-clone/src/ClientHandler.java:158-159 | `Integer.parseInt` / `Long.valueOf`: a result is always within the target type's range; None is the NumberFormatException |
| `Text.ParseIntegerText` | redis-clone/src/ClientHandler.java:217 | any number in range, written in decimal as Java writes it, parses back to itself |
| `Text.SecondsToMillis` | redis-clone/src/ClientHandler.java:241 | `(long) (Float.parseFloat(t) * 1000)`: a result needs non-empty text, and a negative result needs a leading '-' |
| `Text.SecondsToMillisFraction` | redis-clone/src/ClientHandler.java:241 | n seconds followed by '.' and digits becomes n * 1000 plus the first three fraction digits (missing ones read as 0), the rest truncated |
| `Text.TenthOfASecond` | redis-clone/src/ClientHandler.java:241 | a timeout of "0.1" is 100 milliseconds |
| `Text.BelowAMillisecond` | redis-clone/src/ClientHandler.java:241 | a timeout of "0.0005" truncates to 0 milliseconds, the value for which the BLPOP wait loop has no time limit |
| `Text.SecondsToMillisWhole` | redis-clone/src/ClientHandler.java:241 | a BLPOP timeout of n whole seconds becomes n * 1000 milliseconds |
| `RedisProcessor.LengthFrom` | redis-clone/src/RedisProcessor.java:8-20 | a length line either fails with end of stream or ends strictly after where it started, within the input |
| `RedisProcessor.GetLength` | redis-clone/src/RedisProcessor.java:8-20 | the digit loop returns exactly the length LengthFrom gives, with the same end position or error |
| `RedisProcessor.ReadInto` | redis-clone/src/RedisProcessor.java:57 | `read(buf, off, len)`: -1 with the buffer unchanged at end of stream, otherwise copies min(len, available) bytes of the stream into buf[off..] and leaves the rest of buf alone |
| `RedisProcessor.BulkFrom` | redis-clone/src/RedisProcessor.java:52-69 | a field read after '$' has exactly the length its length line declares and ends within the input, after where it started |
| `RedisProcessor.ElementFrom` | redis-clone/src/RedisProcessor.java:40-51 | a field is read only when the byte at p is '$'; end of stream gives EOFException and any other marker UnknownError with that marker |
| `RedisProcessor.ProcessMultiBulk` | redis-clone/src/RedisProcessor.java:52-69 | the fill loop reads exactly the declared number of payload bytes, in order, then skips two bytes; negative length and truncation are the errors of BulkFrom |
| `RedisProcessor.Process` | redis-clone/src/RedisProcessor.java:40-51 | one field equals ElementFrom; end of stream gives EOFException, any marker other than '$' gives UnknownError with that marker |
| `RedisProcessor.ProcessMessage` | redis-clone/src/RedisProcessor.java:22-38 | the whole request equals MessageFrom (fields in stream order); end of stream and a first byte other than '*' are the errors |
| `RedisProcessor.MessageFrom` | redis-clone/src/RedisProcessor.java:22-38 | a decoded request started with '*' and has exactly as many fields as its count line says |
| `RedisProcessor.ElementsFrom` | redis-clone/src/RedisProcessor.java:31-33 | n fields read in turn give exactly n fields, ending within the input |
| `Framing.LengthRoundTrip` | redis-clone/src/RedisProcessor.java:8-20 | the decimal text of a count n ≤ 2^31-1 followed by CRLF reads back as n, ending right after the LF |
| `Framing.BulkRoundTrip` | redis-clone/src/RedisProcessor.java:40-69 | an encoded bulk string decodes to its payload and ends right after its frame |
| `Framing.FieldsOfFrames` | redis-clone/src/RedisProcessor.java:31-33 | consecutive bulk frames are read back field by field, and their lengths add up |
| `Framing.FieldsRoundTrip` | redis-clone/src/RedisProcessor.java:31-33 | fields read one at a time are exactly what the n-field loop returns, ending after the last frame |
| `Framing.RequestRoundTrip` | redis-clone/src/RedisProcessor.java:22-38 | an encoded request anywhere in the stream decodes to its fields and leaves the stream right after it |
| `Framing.DecodeEncoded` | redis-clone/src/RedisProcessor.java:22-38 | decode(encode(xs) + rest) == xs, stopping at the first byte of rest |
| `Replies.Encode` | redis-clone/src/ClientHandler.java:76-118 | the bytes written for a reply start with its kind's marker ('+', '-', ':', '$', '*') and, except the error replies written without CRLF, end with CRLF |
| `Replies.BulkReplyDecodes` | redis-clone/src/ClientHandler.java:80 | a bulk-string reply, whatever follows it, reads back as its string and ends right after its own bytes |
| `Replies.ArrayReplyDecodes` | redis-clone/src/ClientHandler.java:252-254 | an array reply the server writes is framed like a request and decodes back to its strings |
| `Waiting.Deadline` | redis-clone/src/BlockClient.java:14 | `timeOut * 1000000 + nanoTime()` in `long` arithmetic: congruent to the exact value modulo 2^64, and equal to it when neither step overflows |
| `Waiting.BlockClient.constructor` | redis-clone/src/BlockClient.java:11-15 | keeps socket and stream, stores the deadline timeOut * 10^6 + nanoTime() in `long` arithmetic, starts not unblocked |
| `Waiting.BlockClient.SetUnblock` | redis-clone/src/BlockClient.java:29-32 | after setUnblock(s), isUnblock() is s and nothing else changes |
| `Waiting.BlockClient.IsTimeOut` | redis-clone/src/BlockClient.java:34-39 | a deadline of 0 never times out; a waiter times out only when its deadline is before the current nanoTime |
| `Waiting.TimeOutIsFinal` | redis-clone/src/BlockClient.java:34-39 | once timed out, a waiter stays timed out at every later time; any non-zero deadline before now has timed out |
| `Waiting.ForeverIsAFiniteDeadline` | redis-clone/src/BlockClient.java:14-38 | BLPOP with timeout 0 stores currentTimeMillis * 10^6 + nanoTime, which is not 0, so the "0 means never" test never fires for it |
| `Waiting.FirstEligible` | redis-clone/src/ClientHandler.java:352-363 | the waiter a push wakes is the earliest one whose socket is open and whose deadline has not passed; every waiter before it is passed over |
| `Waiting.RemoveFirst` | redis-clone/src/ClientHandler.java:290 | `Queue.remove(o)`: leaves a queue without o as it was, is one shorter otherwise, and keeps every other waiter (as a multiset) |
| `Waiting.RemoveFirstAt` | redis-clone/src/ClientHandler.java:290 | when o first occurs at index i, `Queue.remove(o)` is exactly the queue without index i: the first occurrence goes, the rest keep their order |
| `Waiting.FirstOccurrence` | redis-clone/src/ClientHandler.java:290 | a waiter in the queue has a first occurrence: an index holding it with no earlier copy |
| `Store.PushedOrder` | redis-clone/src/ClientHandler.java:131-139 | RPUSH keeps the old elements and then the arguments in order; LPUSH puts the arguments in reverse order in front of the old elements |
| `Store.RangeWindow` | redis-clone/src/ClientHandler.java:162-181 | LRANGE returns exactly the elements at clamped start .. min(clamped end, last), in list order, nothing when the window is empty |
| `Store.RangeWhole` | redis-clone/src/ClientHandler.java:162-181 | `LRANGE key 0 -1` is the whole list |
| `Store.RangeLast` | redis-clone/src/ClientHandler.java:162-181 | `LRANGE key -k -1` is the last k elements |
| `Store.DropFront` | redis-clone/src/ClientHandler.java:220-229 | removing n head elements keeps the rest of the list and every other key, and drops the key exactly when nothing is left |
| `Store.DropFrontNonEmpty` | redis-clone/src/ClientHandler.java:227-229 | removing head elements never leaves an empty list in the list store |
| `Store.Keyspace.constructor` | redis-clone/src/Main.java:12-15 | the four shared maps start empty |
| `Handler.ExpiryAt` | redis-clone/src/ClientHandler.java:95 | `nanoTime() + ms * 1000000` in `long` arithmetic: congruent to the exact value modulo 2^64, and equal to it when neither step overflows |
| `Handler.CaseIn` | redis-clone/src/ClientHandler.java:26-70 | the switch as a first-match lookup over its case labels: a case it takes is one of them and is spelled exactly as the name |
| `Handler.CommandOf` | redis-clone/src/ClientHandler.java:25-70 | a command other than the default case is taken only for its exact upper-case spelling |
| `Handler.Distinct` | redis-clone/src/ClientHandler.java:26-70 | no two case labels have the same spelling |
| `Handler.CaseInFinds` | redis-clone/src/ClientHandler.java:26-70 | the spelling of any listed case is matched by some case, never by the default |
| `Handler.SpellingSelects` | redis-clone/src/ClientHandler.java:26-70 | each case's spelling selects exactly that case |
| `Handler.SpellingIsUpper` | redis-clone/src/ClientHandler.java:26-70 | every case label is written in upper-case ASCII letters |
| `Handler.AnyCaseSelects` | redis-clone/src/ClientHandler.java:25-70 | the name is upper-cased before the switch, so a case's spelling written in any mix of upper and lower case ("blpop", "BLpop") selects that case |
| `Handler.ClientHandler.constructor` | redis-clone/src/ClientHandler.java:16-22 | the handler keeps its socket and the shared keyspace |
| `Handler.ClientHandler.ExecuteCommand` | redis-clone/src/ClientHandler.java:24-72 | an empty request fails on its first field; PING and COMMAND answer PONG; an unknown command writes nothing and changes nothing |
| `Handler.ClientHandler.ExecuteECHO` | redis-clone/src/ClientHandler.java:74-81 | the argument comes back as a bulk string; a missing argument is an error reply |
| `Handler.ClientHandler.ExecuteSET` | redis-clone/src/ClientHandler.java:83-99 | stores key → value; with five or more fields also stores the expiry nanoTime + ms * 10^6; four fields crash after storing; a bad number crashes; keys with an expiry keep a value |
| `Handler.ClientHandler.ExecuteGET` | redis-clone/src/ClientHandler.java:101-120 | an expired key is removed from both maps first; the reply is the value if present and not expired, else the null bulk string |
| `Handler.ClientHandler.ExecutePUSH` | redis-clone/src/ClientHandler.java:122-143 | the list becomes Pushed(side, old list, arguments), the new length is written, and the wake scan ran on the key's queue (WokeFirstEligible); no empty list is left behind |
| `Handler.ClientHandler.AddAll` | redis-clone/src/ClientHandler.java:128-139 | the add loops create a missing list and add each argument at the chosen end; the result is the new length |
| `Handler.ClientHandler.ExecuteLRANGE` | redis-clone/src/ClientHandler.java:145-160 | a missing list gives `*0` before the indices are parsed; otherwise the indices are parsed as `int` (crash on failure) and the reply is Range of the list |
| `Handler.ClientHandler.RangeReply` | redis-clone/src/ClientHandler.java:161-182 | the index clamping and the write loop produce the array of Range(list, start, end) |
| `Handler.Window` | redis-clone/src/ClientHandler.java:178-181 | the write loop over positions from .. to yields exactly those elements of the list, in order |
| `Handler.ClientHandler.ExecuteLLEN` | redis-clone/src/ClientHandler.java:185-200 | the length of the key's list, 0 when there is none |
| `Handler.ClientHandler.RemoveHead` | redis-clone/src/ClientHandler.java:251-257 | returns the head and removes it, dropping the key when the list empties |
| `Handler.ClientHandler.ExecuteLPOP` | redis-clone/src/ClientHandler.java:202-231 | missing list crashes, empty list gives null bulk; with a count, `*count` and that many heads (a count beyond the length crashes after emptying the list, which stays in place); otherwise the head |
| `Handler.ClientHandler.ExecuteBLPOP` | redis-clone/src/ClientHandler.java:233-269 | argument and timeout errors; a non-empty list is popped at once as [key, head]; otherwise a fresh unblocked-false waiter with deadline Deadline(currentTimeMillis + timeout, nanoTime) joins the end of the key's queue |
| `Handler.ClientHandler.ResumeBLPOP` | redis-clone/src/ClientHandler.java:289-316 | the waiter leaves the queue; woken with an open connection: [key, head] from a non-empty list, nothing for a missing list, null bulk for an empty one; otherwise null bulk |
| `Handler.ClientHandler.LeaveQueue` | redis-clone/src/ClientHandler.java:289-291 | the waiter's first occurrence is removed from the key's queue |
| `Handler.ClientHandler.ExecuteTYPE` | redis-clone/src/ClientHandler.java:328-343 | "string" exactly when the string store has the key, "none" exactly when it does not |
| `Handler.ClientHandler.NotifyBlockClients` | redis-clone/src/ClientHandler.java:346-367 | with a non-empty list, the queue loses every waiter up to and including the first eligible one, which alone gets its flag set; otherwise nothing changes |
| `Handler.ClientHandler.ScanQueue` | redis-clone/src/ClientHandler.java:352-363 | the poll loop stops at the waiter FirstEligible names, having removed exactly the waiters up to it |
| `Scenarios.SetThenGet` | redis-clone/src/ClientHandler.java:83-120 | SET key value then GET key on a fresh server answers the value |
| `Scenarios.PushWakesBlockedPop` | redis-clone/src/ClientHandler.java:264-316 | BLPOP key 0 on a fresh server, then RPUSH key x: the waiter is woken and receives [key, x], and the list is gone |
| `Scenarios.WakeSkipsClosedWaiter` | redis-clone/src/ClientHandler.java:346-367 | of two waiters, the first with its socket marked closed, a push wakes the second, which gets [key, x]; the first gets the null bulk string. This exercises the `isClosed` skip at line 354 as written; the program never reaches the state, since a socket is closed only when its own worker leaves `run` (line 370), and a waiting worker first leaves the queue (lines 290, 319) |

## Left out

- Concurrency: the `synchronized` blocks, `wait`/`notify` and the timing of the wait loop are not modelled.
  - A handler runs as one step.
  - A BLPOP wait is the gap between `ExecuteBLPOP` and `ResumeBLPOP`. Whatever the other
    connections do meanwhile is the state `ResumeBLPOP` starts from.
- The InterruptedException path of BLPOP (ClientHandler.java:318-324) is not modelled; it needs a thread interrupt.
- `ClientHandler.run`, `Main`, and the console printing are not modelled. That includes the "list isn't null" line.
- The invariant that a queued waiter's socket is open is not modelled. `Socket.isClosed()` turns
  true only when the socket's own worker closes it on leaving `run`, after that worker has taken
  its waiter off the queue. In the model `closed` is plain state, so the wake scan's `isClosed`
  skip can be taken; every lemma holds for either value.
- I/O errors are not modelled. Writes to the output stream are the reply values themselves. An
  IOException from a closed socket is not modelled.
- Text is taken as ASCII:
  - `new String(bytes)`, `String.length()` and `toUpperCase` work on bytes here, so character
    and byte counts agree.
  - Only ASCII letters are upper-cased.
- `Text.SecondsToMillis`: `Float.parseFloat(t) * 1000` is modelled for plain decimal text only.
  - The result is exact and truncated to milliseconds.
  - `float` rounding, exponents, hexadecimal floats, "NaN"/"Infinity" and trailing type letters
    are not modelled.
- The ways `read(buf, off, len)` can return fewer bytes than are available are not modelled.
  `RedisProcessor.ReadInto` hands over everything available, up to `len`.
- `OutOfMemoryError` for huge declared lengths is not modelled.
- `Handler.ClientHandler.NotifyBlockClients`: the flag is set by the caller right after the scan
  returns, not inside the poll loop. The resulting state is the same.
- `Handler.ClientHandler.ExecuteCommand`: for the commands with their own handler, the contract
  does not restate the handler's outcome.
  - The dispatch is a single `match` over `CommandOf`.
  - Each handler's own contract states the outcome.
