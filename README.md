# polygon-cli: node crawler, peer message layer and mnemonic check

This project models three pieces of polygon-cli in Dafny and proves properties of them.

- **The p2p crawler** (`cmd/p2p/crawl/crawl_util.go`).
  - `newCrawler` seeds an output node set from the input set and adds an iterator over the input nodes to the node sources.
  - `updateNode` revalidates one node against that set. It skips nodes checked recently. It skips nodes that fail the network filter, which is `shouldSkipNode`. Otherwise it asks for the node's ENR record (EIP-868): a success raises the node's score, and a failure halves it. It deletes entries whose score drops to zero or below.
  - `run` runs the main select loop. The loop counts finished iterators and arms the timeout once the input iterator is done. Its worker goroutines tally their outcomes into five counters.
- **The peer message layer** (`p2p/types.go`).
  - Each message type has a `Code()` and a `ReqID()`. `Error` is the sentinel with code -1.
  - `Conn.Read` dispatches a transport frame on its code. Codes 0x01 and 24 each have two formats: it tries one type and falls back to the other.
  - `Conn.Write` tags an RLP payload with `uint64(Code())`.
  - `Conn.ReadSnap` skips non-snap/1 frames until a snap/1 message arrives, a read fails, the first snap/1 frame fails to decode, or time runs out.
- **The `mnemonic` command's pre-run check** of the word count (`cmd/mnemonic.go`).

Modules:

- `GoTypes` (go_types.dfy) holds Go's fixed-width integers, `uint64` conversion and increment, and Go's truncating division by two.
- `Mnemonic` (mnemonic.dfy) holds the word-count validator.
- `Messages` (messages.dfy) holds:
  - the message values and their Go type (`Shape`);
  - the code and request-id tables;
  - the RLP decoder and encoder. These are parameters, not modelled byte by byte.
- `Conn` (conn.dfy) holds `Read`, `Write` and `ReadSnap` as methods. The transport's frames, its answer to a write, and the RLP library are inputs.
- `Crawl` (crawl.dfy) holds the crawler:
  - `Crawler` is a class whose `output` node set is a field that `UpdateNode` and `Run` update.
  - `Transition` is the decision `updateNode` makes, as a pure function.
  - The observable loop is two folds over a sequence of events. `LoopRun` covers the loop's variables. `WorkRun` covers the workers' output set and counters, applied to the events the loop took (`Taken`).

The network, the clock and goroutine scheduling are inputs:

- `PeerProbe` is what dialing and the status exchange gave.
- `EnrResult` is what the ENR request gave.
- `now` is the clock reading for the node.
- `Event` is what the select took next: a delivered node, a finished iterator, the timer, or the status ticker.

`time.Time` is kept as Go keeps it: whole seconds since the zero time, plus nanoseconds within the second. `Truncate(time.Second)` clears the nanoseconds. `time.Since` saturates at the `Duration` range.

Where the code differs from its own comments or naming, the model follows the code:

- `Transactions.ReqID()` returns the constant 18.
- On an unknown code, `Read` still decodes the body into the `Error` value. A decode failure there is reported as "could not rlp decode", and a success as "invalid message code".
- The final `invalid message` return of `Read` (line 255) is unreachable, because every branch of the switch that does not return sets `msg`.
- `Write` of an `Error` value sends frame code 2^64 - 1, which is `uint64(-1)`.
- `Score /= 2` truncates toward zero.
- A single-reason `Disconnect` payload that also decodes as a reason list is read back as `Disconnects`.

## Model

| member | source | states |
|---|---|---|
| GoTypes.ToUint64 | p2p/types.go:264 | `uint64(x)` is x for non-negative x and x + 2^64 for negative x |
| GoTypes.GoHalf | cmd/p2p/crawl/crawl_util.go:211 | Go's `x / 2` truncates toward zero: 2r is within one of x, on x's side of zero |
| GoTypes.IncUint64 | p2p/types.go:270 | `id + 1` on uint64 is never `id`; it is id + 1, or wraps to 0 at 2^64 - 1 |
| Mnemonic.ValidateWordCount | cmd/mnemonic.go:49-60 | fewer than 12 gives the too-few error with the count, and more than 24 the too-many error; within range, a count that is not a multiple of 3 gives the multiple-of-3 error; the count is accepted exactly when it is 12, 15, 18, 21 or 24 (each both ways) |
| Mnemonic.DefaultIsValid | cmd/mnemonic.go:66 | the `--words` default of 24 passes the check |
| Mnemonic.RangeCheckedFirst | cmd/mnemonic.go:50-58 | an out-of-range count never gets the multiple-of-3 error, because the range checks come first |
| Messages.ShapeCode | p2p/types.go:33-346 | each type's `Code()` (the control and eth methods at lines 33-149, the snap/1 ones at lines 310-346): -1 exactly for `Error`; control messages exactly 0..3, eth messages exactly 16..26, snap/1 messages exactly 33..40 |
| Messages.Code | p2p/types.go:20-34 | a message's code is in -1..40, and it is -1 exactly for the `Error` sentinel |
| Messages.SharedCodes | p2p/types.go:60-67 | two distinct types share a code only as Disconnect/Disconnects (0x01) or the two pooled-hash announcements (24, lines 128 and 138) |
| Messages.ReqID | p2p/types.go:34-149 | `ReqID()` is the request id of the six eth/66 request/response packets and the `ID` of the snap packets (lines 310-346); it is 18 for `Transactions` and 0 for every other type, including `Error` |
| Messages.DecodeAs | p2p/types.go:249-253 | decoding into a Go value of type T fails or yields a T, and is the library's answer whenever that answer is a T |
| Conn.Candidates | p2p/types.go:180-247 | the types tried for a code all carry that code, every non-snap type carrying the code is among them, and there are at most two |
| Conn.FirstDecoding | p2p/types.go:187-193 | the result is the decoding of the first candidate, in order, that decodes; there is a result exactly when some candidate decodes |
| Conn.Read | p2p/types.go:173-256 | the result equals the ordered-candidates reading `ReadSpec`, and it is either the `Error` sentinel or a message carrying the frame's code |
| Conn.ReadNeverCrashes | p2p/types.go:173-256 | every frame reads as the -1 sentinel or as a non-snap message of the frame's code |
| Conn.ReadErrors | p2p/types.go:174-177 | a transport failure gives the read error; an unknown code gives the invalid-code error or the decode error (lines 245-252) |
| Conn.DisconnectFallback | p2p/types.go:187-193 | code 0x01 gives the reason list whenever it decodes, the single reason only when it does not, and otherwise the decode error |
| Conn.PooledHashesFallback | p2p/types.go:226-232 | code 24 gives the eth/68 typed announcement whenever it decodes, the legacy hash list only when it does not, and otherwise the decode error |
| Conn.SingleShapeCodes | p2p/types.go:181-244 | every other known code has exactly one type; its decoding is returned, or the decode error at once |
| Conn.RoundTrip | p2p/types.go:180-264 | the frame `Write` sends for a non-snap message (its encoding, under `uint64(Code())`) is read back as that message when the encoding decodes back as its own type, provided that for codes 0x01 and 24 the type tried first rejects it |
| Conn.Write | p2p/types.go:259-266 | an encoding failure is returned and nothing is sent; otherwise the payload is sent under `uint64(Code())`, which is 2^64 - 1 for an `Error`, and the write succeeds exactly when the transport accepts it |
| Conn.SnapShape | p2p/types.go:278-298 | a code has a snap/1 type exactly when it is 33..40, and that type carries the code |
| Conn.ReadSnap | p2p/types.go:269-305 | the frames passed over are exactly the leading non-snap frames. The wait times out exactly when the budget is used up. A failed read gives the read error. The first snap frame is decoded and returned, or gives the decode error. The request id plays no part, because `id + 1 != id` |
| Crawl.TruncNow | cmd/p2p/crawl/crawl_util.go:238-240 | the truncated time is a whole second, at most `now` and less than a second before it |
| Crawl.Since | cmd/p2p/crawl/crawl_util.go:191 | `time.Since` is the nanosecond difference, clamped to the int64 `Duration` range |
| Crawl.OutcomeCode | cmd/p2p/crawl/crawl_util.go:28-34 | the `iota` constants lie in 0..4 |
| Crawl.OutcomeCodesDistinct | cmd/p2p/crawl/crawl_util.go:28-34 | two outcomes have the same constant exactly when they are the same outcome |
| Crawl.ShouldSkipNode | cmd/p2p/crawl/crawl_util.go:161-181 | with no network filter nothing is skipped; otherwise a node is skipped exactly when it could not be dialed, did not answer the status exchange, or declared another network |
| Crawl.Transition | cmd/p2p/crawl/crawl_util.go:185-236 | the decision of `updateNode`: only the two skips keep the entry, only a removal deletes it (both ways), and a stored entry has a positive score |
| Crawl.TransitionCases | cmd/p2p/crawl/crawl_util.go:185-236 | each outcome of `updateNode`, both ways: skip-recent exactly for recently checked known entries; skip-incompatible exactly when filtered out or when the ENR request fails at score 0. On a failure the score is halved and the entry is removed exactly when that leaves it ≤ 0. On a success the score rises by one, the record and sequence are refreshed, and the first response is set, with outcome "added", exactly when the entry had none. A stored entry has the truncated time as its last check |
| Crawl.Apply | cmd/p2p/crawl/crawl_util.go:227-234 | keeping leaves the set alone, deleting removes the id, storing writes the record; no other id's entry changes |
| Crawl.CounterOf | cmd/p2p/crawl/crawl_util.go:90-101 | each named outcome code selects its own counter (both ways); any other code, `nodeUpdated` among them, selects the updated counter |
| Crawl.Record | cmd/p2p/crawl/crawl_util.go:90-101 | exactly the selected counter goes up by one |
| Crawl.RecordTotal | cmd/p2p/crawl/crawl_util.go:90-101 | every recorded outcome adds one to the sum of the counters |
| Crawl.Threads | cmd/p2p/crawl/crawl_util.go:67-69 | at least one worker; the requested number when it is at least 1 |
| Crawl.LoopStep | cmd/p2p/crawl/crawl_util.go:109-134 | one select: an exited loop is unchanged, a running one takes the event; arming is permanent and only the input iterator's completion arms a positive timeout; the loop breaks on the last completion and on the armed timer, and on nothing else (each both ways) |
| Crawl.WorkStep | cmd/p2p/crawl/crawl_util.go:87-101 | a worker handles only a delivered node: other events change nothing, no other id's entry changes, and a changed entry that stays has a positive score |
| Crawl.LoopRun | cmd/p2p/crawl/crawl_util.go:109-134 | each event is taken at most once |
| Crawl.HandledPrefix | cmd/p2p/crawl/crawl_util.go:109-134 | a running loop has taken every event; a loop that left events untaken has exited; its state is that of the events it took |
| Crawl.Stopped | cmd/p2p/crawl/crawl_util.go:120-124 | once the loop breaks, later events change nothing |
| Crawl.CountsMatchDeliveries | cmd/p2p/crawl/crawl_util.go:87-101 | the counters' sum grows by exactly the number of nodes the workers handled |
| Crawl.LiveCountdown | cmd/p2p/crawl/crawl_util.go:120-122 | the live count is the number of iterators minus those finished and never negative (line 65 sets the start); the loop ends by exhaustion exactly when it reaches 0, with as many completions taken as there are iterators |
| Crawl.DoneIters | cmd/p2p/crawl/crawl_util.go:147-148 | one iterator per completion event, each of them completed among the events |
| Crawl.AllIteratorsFinished | cmd/p2p/crawl/crawl_util.go:72-74 | when completions come only from the started iterators, each at most once per start (`runIterator` sends on the done channel once, line 148), a loop ended by exhaustion has seen every iterator of `iters` finish (lines 120-122) |
| Crawl.TimeoutArming | cmd/p2p/crawl/crawl_util.go:112-119 | the timeout is armed exactly when it is positive and the input iterator has finished |
| Crawl.TimedOutWhenArmed | cmd/p2p/crawl/crawl_util.go:123-124 | a loop that timed out was armed, and the last event it took was the timer |
| Crawl.ArmedTimerEnds | cmd/p2p/crawl/crawl_util.go:123-124 | conversely, a timer event taken while the loop runs with the timeout armed ends it: the loop has timed out and takes nothing after that event |
| Crawl.OnlyDeliveredChange | cmd/p2p/crawl/crawl_util.go:185-236 | the workers change only the entries of nodes they were handed |
| Crawl.WrittenEntriesScored | cmd/p2p/crawl/crawl_util.go:227-234 | every entry the crawl writes has a positive score, so a set of positive-score entries stays one |
| Crawl.RecentAndAdded | cmd/p2p/crawl/crawl_util.go:190-221 | a known node checked 10 s ago under a 30 s interval keeps its entry as "recent"; an unknown node whose ENR request succeeds is added with score 1 and the time as first response, last response and last check |
| Crawl.ExampleTransitions | cmd/p2p/crawl/crawl_util.go:190-221 | the two per-node decisions of that scenario |
| Crawl.ScoreOneRemoved | cmd/p2p/crawl/crawl_util.go:205-230 | a node with score 1 whose ENR request fails drops to 0, is deleted and is counted as removed |
| Crawl.InputOnlyRunEnds | cmd/p2p/crawl/crawl_util.go:112-122 | with no timeout and only the input iterator, the loop ends when that iterator finishes, without arming the timer |
| Crawl.Crawler.constructor | cmd/p2p/crawl/crawl_util.go:40-57 | output equals the input set; a new input iterator is appended after the given iterators |
| Crawl.CopyNodeSet | cmd/p2p/crawl/crawl_util.go:53-55 | the copy loop yields exactly the input set |
| Crawl.Crawler.UpdateNode | cmd/p2p/crawl/crawl_util.go:185-236 | the status and the new output set are the ones `Transition` decides; other entries are untouched; skips leave the set alone; removal deletes the entry; a stored entry is positive-scored with the truncated time |
| Crawl.Crawler.Run | cmd/p2p/crawl/crawl_util.go:59-145 | the worker count is raised to at least 1; the output set and counters are the workers' fold over exactly the events the loop took before it exited; the exit reason is that of the loop fold. The result leaves out what Go's returned set can also hold: updates still running when the loop breaks, and nodes workers take after the loop exits (see Left out) |

## Left out

- Goroutines, channels, the mutex, the atomic adds and the drain after the loop (lines 136-143) are not modelled. Workers are sequential: each delivered node is handled at once, in the order the select took it. Concurrent interleavings of `updateNode` are not modelled.
- Crawl.Crawler.Run: its output set and counters are only the fold over the events taken before the loop exits. Go's returned set can hold more. Updates still running when the loop breaks finish during `wg.Wait()` (line 143). After `close(c.closed)`, a worker whose select has both `c.ch` and `c.closed` ready may still take a node that a feeder's select sends (lines 88-103 and 150-153), and that update also lands in the set.
- Logging is not modelled. That includes the status line that prints the removed counter under "ignored(recent)" (line 130).
- The status ticker is not modelled. A tick is an event that changes nothing.
- The timeout timer is not modelled as starting with `run` (line 61). In Go, a fire before arming stays buffered in `timeoutTimer.C`. Once the timeout is armed, that buffered fire makes the timer case ready, so one of the next selects ends the loop. In the model, a `TimerFired` event taken while unarmed is consumed and lost, so the model admits more traces than Go does.
- The clock is read once per node. Go reads it twice: `time.Since` at line 191, and again in `truncNow`, after the dial and the status exchange and before the ENR request (lines 203 and 239). For a node that is not recent, `Since` only grows with a later reading, so using the later time for both gives the same decision.
- Dialing, the hello/status exchange, the ENR request and the clock are inputs (`PeerProbe`, `EnrResult`, `now`). `p2p.Dial` and `conn.Peer` are not part of this model.
- `p2p.NodeSet` and `NodeInfo` are not part of this model. Their fields are modelled from their use in `updateNode`.
- The RLP library is a decoder and an encoder passed in. Byte-level RLP, the rlpx framing and the eth/snap packet contents are opaque bytes.
- Crawl.TransitionCases: the score is an unbounded integer, so a `Score++` wrap at the int64 maximum is not modelled.
- Crawl.Record: the five counters are unbounded; a `uint64` wrap after 2^64 outcomes is not modelled.
- Conn.ReadSnap: the package-level `timeout` and `time.Since(start)` are not modelled. The time budget is a number of reads, `bound`.
- Conn.ReadSnap: a transport past the frames it was given reports a failure, as a closed connection does.
- Conn.Read: the unreachable `invalid message` return (line 255) has no counterpart in the model.
- The other `Conn` fields (`SensorID`, keys, `requests`, `requestNum`, `oldestBlock`, logger) are not modelled. The three operations above do not use them.
- The `mnemonic` command's `RunE` is not part of this model. It calls the hdwallet library and cobra's flag plumbing.
