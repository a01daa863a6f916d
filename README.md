# Clustered service agent and receive-endpoint buffer layout, in Dafny

This project models two pieces of Aeron.

**The clustered service agent** (`ClusteredServiceAgent`). This agent drives one node of an
Aeron Cluster and holds four kinds of state:
- a table of client sessions keyed by cluster session id;
- a logical clock that only log events set;
- the current live log image;
- the recording ledger (the "recording event log"), which lists recordings already replayed.

Its parts are modelled as follows:
- **Fragment handler** `onFragment`: routes decoded log events to the session table, the clock
  and the hosted service's callbacks.
- **Duty cycle** `doWork`: polls the live image, bounded by the recording position and by
  `FRAGMENT_LIMIT` = 10.
- **Timer gateway** `scheduleTimer`, `cancelTimer`: retry loops of at most `SEND_ATTEMPTS` = 3
  claims.
- **Image handlers** and **shutdown** `onClose`.
- **Startup recovery** `replayPreviousLogs`, `replayRecording`: every recording the ledger
  lists is replayed through the fragment handler. The ledger is then extended with the latest
  recording when needed.

**The receive-endpoint thread locals** (`ReceiveChannelEndpointThreadLocals`). One allocation
holds a status message (SM) frame followed by a NAK frame. The model covers:
- the alignment arithmetic;
- the buffer limit and position steps that cut the two slices;
- the header fields written into each frame;
- the receiver id derivation.

Files:
- `common.dfy`:
  - `Wrappers`: `Option`, standing for nullable references.
  - `Numbers`: the positive integers, for header lengths.
  - `Sets`: picks a member of a set, and lists a set's members once each in some order, as the
    iteration over the session table in `onClose` does.
  - `Errors`: one constructor per exception the agent throws.
- `log_dispatch.dfy` (`LogDispatch`): the fragment handler as a function on a value
  `ServiceState`. This value holds the session table, the clock, the trace of hosted-service
  callbacks and the trace of resources closed. Lemmas about whole logs sit beside it.
- `timer_gateway.dfy` (`TimerGateway`): the outcome of the bounded claim retry.
- `recovery.dfy` (`Recovery`): startup recovery as functions. Lemmas cover failure, replay
  order and ledger growth.
- `agent.dfy` (`ServiceAgent`): the class `ClusteredServiceAgent`. Each method changes only the
  fields it names. Each is proved against the functions above; `Service()` is the abstraction
  from fields to `ServiceState`.
- `thread_locals.dfy` (`ThreadLocals`):
  - the alignment and layout functions and their lemmas;
  - a `ByteBuffer` class (capacity, position, limit);
  - the class `ReceiveChannelEndpointThreadLocals`, whose constructor does the source's steps.

The agent's collaborators are passed in as values:
- the outcome of the k-th `tryClaim` on the timer publication is `claim(k)`;
- the archive's replay for a recording id is `archive(id)`: an image count and a finite script
  of polls, each with its batch of fragments, its position afterwards, and its closed and
  interrupted flags;
- the recordings map, the latest recording's key and the position counter id found for it are
  parameters;
- the live image is a value holding its position and the fragments waiting in it;
- the recording position counter's value and the number of work items the Aeron client
  invoker reports are parameters of `DoWork`;
- the two halves of the random UUID are parameters of the thread-locals constructor.

The codec constants are left open as positive constants, because the generated codecs are not
part of this model: `SESSION_HEADER_LENGTH` and the SM and NAK header lengths. The header
constants `CURRENT_VERSION`, `HDR_TYPE_SM` and `HDR_TYPE_NAK` are left open the same way.

Two behaviours of the code may differ from what one would expect:
- One might expect recovery to replay the discovered recordings that are *not* in the ledger,
  in ascending order. The code (ClusteredServiceAgent.java:321-328) replays each id the ledger
  *lists*, in ledger order. It fails on an id with no discovered recording, and never replays a
  recording the ledger does not list.
- One might expect the clock never to go backwards. The code overwrites it with each event's
  timestamp, so it moves backwards when the log's timestamps do (`ClockCanMoveBackwards`). It
  is proved monotone on a log whose timestamps are ordered (`ClockMonotoneOnOrderedLog`).

Further points the model follows from the code:
- The ledger is appended with the latest recording id exactly when the last id replayed from
  the ledger differs from it. That id starts at -1, as in the code (lines 319, 335-338).
- An open event for an id already in the table replaces the entry. It does not close the old
  session's response publication (lines 186-193).
- `cancelTimer` throws with the same message as `scheduleTimer` ("Failed to schedule timer").
  The model gives both the one error `TimerRequestFailed`.

## Model

Source paths are relative to the repository root.

| member | source | states |
|---|---|---|
| LogDispatch.Dispatch | aeron-cluster/src/main/java/io/aeron/cluster/service/ClusteredServiceAgent.java:135-219 | A session message or timer event keeps the table and sets the clock to its timestamp. A session message passes on the payload at offset + SESSION_HEADER_LENGTH with length - SESSION_HEADER_LENGTH. An open stores the new session under its id, leaves every other entry as it was, closes nothing and sets the clock. A close of a present id removes exactly that entry, closes its response publication, sets the clock and issues one onSessionClose. A close of an absent id and an unknown template change nothing at all. Every session stays keyed by its own id |
| LogDispatch.DispatchAll | aeron-cluster/src/main/java/io/aeron/cluster/service/ClusteredServiceAgent.java:121-125 | Handing fragments to the handler in order only ever appends to the callbacks and to the closes, at most one of each per fragment |
| LogDispatch.DispatchAllKeepsKeyed | aeron-cluster/src/main/java/io/aeron/cluster/service/ClusteredServiceAgent.java:185-193 | Over any sequence of fragments, each session stays stored under its own cluster session id |
| LogDispatch.TableIsOpenedNotClosed | aeron-cluster/src/main/java/io/aeron/cluster/service/ClusteredServiceAgent.java:177-215 | After a log is dispatched, an id is in the table if and only if the log opened it and did not close it later, or it was present before and the log never closed it |
| LogDispatch.ClockComesFromLog | aeron-cluster/src/main/java/io/aeron/cluster/service/ClusteredServiceAgent.java:151-210 | After a log, the clock is either its old value or the timestamp of some event of the log; it is never set from anywhere else |
| LogDispatch.ClockMonotoneOnOrderedLog | aeron-cluster/src/main/java/io/aeron/cluster/service/ClusteredServiceAgent.java:151-210 | When the log's timestamps are ordered and none precedes the clock, the clock after any prefix lies between the start clock and the clock after the whole log |
| LogDispatch.ClockCanMoveBackwards | aeron-cluster/src/main/java/io/aeron/cluster/service/ClusteredServiceAgent.java:172-172 | Some event sets the clock to a value below the current one: nothing enforces monotonicity |
| TimerGateway.FirstClaim | aeron-cluster/src/main/java/io/aeron/cluster/service/ClusteredServiceAgent.java:235-252 | The attempt chosen is the first one below SEND_ATTEMPTS = 3 whose claim is positive, and every earlier claim failed. There is none if and only if all three claims fail |
| TimerGateway.ClaimsMade | aeron-cluster/src/main/java/io/aeron/cluster/service/ClusteredServiceAgent.java:235-252 | tryClaim is called between 1 and 3 times. Every call before the last one failed, so claiming stops at the first success, and the last call is that success when there is one. When all claims fail, exactly 3 are made |
| Recovery.ReplayPolls | aeron-cluster/src/main/java/io/aeron/cluster/service/ClusteredServiceAgent.java:378-404 | A replay poll loop that succeeds ends at or past the stop position. A replay already at its stop position does nothing. A poll that does no work fails the replay with ReplayClosedEarly when the image is closed, else with ReplayInterrupted when the thread is interrupted; either failure happens only after such a poll. Running out of polls short of the stop position is ReplayIncomplete, and no other failure occurs. Sessions stay keyed |
| Recovery.ReplayDispatchesConsumed | aeron-cluster/src/main/java/io/aeron/cluster/service/ClusteredServiceAgent.java:378-404 | A replay leaves the service state exactly as dispatching, in order, the batches of every poll it makes up to the one that ends it (Consumed) |
| Recovery.ReplayRecording | aeron-cluster/src/main/java/io/aeron/cluster/service/ClusteredServiceAgent.java:342-406 | A missing recording fails with LogRecordingNotFound and opens no replay. A replay is opened exactly for a present recording of non-zero length. An empty recording is skipped with no effect. A replay with more than one image fails before any poll. LogRecordingNotFound is given only for a missing recording. A single-image replay of a non-empty recording has exactly the effect and outcome of the poll loop ReplayPolls from its start to its stop position |
| Recovery.ReplayLedger | aeron-cluster/src/main/java/io/aeron/cluster/service/ClusteredServiceAgent.java:319-328 | A successful ledger replay ends with the last replayed id equal to the ledger's last entry (-1 for an empty ledger), and every listed id was discovered. A ledger listing an undiscovered id always fails |
| Recovery.LedgerFailureSticks | aeron-cluster/src/main/java/io/aeron/cluster/service/ClusteredServiceAgent.java:321-328 | Once a prefix of the ledger fails, replaying the whole ledger ends with that same state and failure: nothing after the failing id is replayed |
| Recovery.ReplaysFollowLedgerOrder | aeron-cluster/src/main/java/io/aeron/cluster/service/ClusteredServiceAgent.java:321-328 | A successful ledger replay opens replays for exactly the non-empty recordings the ledger lists, in ledger order, repeats included |
| Recovery.Startup | aeron-cluster/src/main/java/io/aeron/cluster/service/ClusteredServiceAgent.java:293-340 | No recordings gives NoLogRecordings, and a missing position counter gives NoRecordingPositionCounter; both leave everything untouched. A failed startup never changes the ledger. A successful one appends the latest id exactly when the ledger does not already end with it, and then ends with it. A ledger naming an undiscovered id fails |
| Recovery.SecondStartupKeepsLedger | aeron-cluster/src/main/java/io/aeron/cluster/service/ClusteredServiceAgent.java:335-338 | A second successful startup over the same recordings does not grow the ledger again |
| Recovery.EmptyLedgerGetsLatest | aeron-cluster/src/main/java/io/aeron/cluster/service/ClusteredServiceAgent.java:319-338 | Startup over an empty ledger succeeds, replays nothing and leaves the ledger holding just the latest recording id |
| ServiceAgent.BoundedPoll | aeron-cluster/src/main/java/io/aeron/cluster/service/ClusteredServiceAgent.java:124-124 | A bounded poll delivers no more fragments than the fragment limit and than are waiting in the image |
| ServiceAgent.BoundedPollDeliversInOrder | aeron-cluster/src/main/java/io/aeron/cluster/service/ClusteredServiceAgent.java:121-125 | A bounded poll delivers at most FRAGMENT_LIMIT fragments and no more than are waiting, in the order they wait, each ending at or before the recorded position |
| ServiceAgent.BoundedPollStopsAtLimit | aeron-cluster/src/main/java/io/aeron/cluster/service/ClusteredServiceAgent.java:121-125 | A bounded poll that delivers fewer than the fragment limit while fragments remain stopped at a fragment ending past the recorded position |
| ServiceAgent.BoundedPollAdvancesImage | aeron-cluster/src/main/java/io/aeron/cluster/service/ClusteredServiceAgent.java:121-125 | After a bounded poll the image holds exactly the fragments not delivered; its position is the end of the last fragment delivered, at or before the recorded position, or unchanged when none was |
| ServiceAgent.ClusteredServiceAgent.constructor | aeron-cluster/src/main/java/io/aeron/cluster/service/ClusteredServiceAgent.java:78-91 | A new agent has an empty table, no image, no position counter, nothing committed or closed, and the ledger it is given |
| ServiceAgent.ClusteredServiceAgent.OnStart | aeron-cluster/src/main/java/io/aeron/cluster/service/ClusteredServiceAgent.java:93-97 | The hosted service's onStart comes first, then startup recovery with exactly the effect of Recovery.Startup |
| LogDispatch.ClosingEverySessionCount | aeron-cluster/src/main/java/io/aeron/cluster/service/ClusteredServiceAgent.java:106-109 | Closing every session of the table makes as many close requests as there are sessions |
| LogDispatch.ClosingEverySessionCovers | aeron-cluster/src/main/java/io/aeron/cluster/service/ClusteredServiceAgent.java:106-109 | Closing every session of the table includes the response publication of each session in it |
| LogDispatch.ClosingEverySessionOnlySessions | aeron-cluster/src/main/java/io/aeron/cluster/service/ClusteredServiceAgent.java:106-109 | Closing every session of the table closes nothing but response publications of sessions in it |
| Sets.Enumerate | aeron-cluster/src/main/java/io/aeron/cluster/service/ClusteredServiceAgent.java:106-106 | The iteration over the table visits every member once, in some order: the listing has exactly the set's members and its length |
| ServiceAgent.ClusteredServiceAgent.OnClose | aeron-cluster/src/main/java/io/aeron/cluster/service/ClusteredServiceAgent.java:99-113 | Without owned resources nothing is closed. Otherwise the log subscription and the timer publication are closed first and the ledger last; in between, the response publication of each session in the table is closed once, in the iteration's order (ClosesEverySession), and nothing else |
| ServiceAgent.ClusteredServiceAgent.DoWork | aeron-cluster/src/main/java/io/aeron/cluster/service/ClusteredServiceAgent.java:115-128 | Without an image the work count is the client's and nothing changes. With one, it polls BoundedPoll(image, recorded position, 10), dispatches what was delivered in order, and adds the number of fragments delivered |
| ServiceAgent.ClusteredServiceAgent.Deliver | aeron-cluster/src/main/java/io/aeron/cluster/service/ClusteredServiceAgent.java:124-124 | Handing fragments to onFragment one by one has the effect of DispatchAll over them |
| ServiceAgent.ClusteredServiceAgent.OnFragment | aeron-cluster/src/main/java/io/aeron/cluster/service/ClusteredServiceAgent.java:135-219 | Its effect on table, clock, callbacks and closes is exactly Dispatch, and it always returns CONTINUE |
| ServiceAgent.ClusteredServiceAgent.GetClientSession | aeron-cluster/src/main/java/io/aeron/cluster/service/ClusteredServiceAgent.java:221-224 | A session is returned if and only if the id is in the table; it is the entry stored there and carries that id |
| ServiceAgent.ClusteredServiceAgent.TimeMs | aeron-cluster/src/main/java/io/aeron/cluster/service/ClusteredServiceAgent.java:226-229 | The clock as the fragment handler last set it |
| ServiceAgent.ClusteredServiceAgent.ScheduleTimer | aeron-cluster/src/main/java/io/aeron/cluster/service/ClusteredServiceAgent.java:231-255 | Makes exactly ClaimsMade claims. It succeeds if and only if one of the first three succeeds, and then commits exactly one schedule request with the correlation id and deadline. Otherwise it fails with TimerRequestFailed having committed nothing |
| ServiceAgent.ClusteredServiceAgent.CancelTimer | aeron-cluster/src/main/java/io/aeron/cluster/service/ClusteredServiceAgent.java:257-280 | As ScheduleTimer, committing one cancel request with the correlation id |
| ServiceAgent.ClusteredServiceAgent.OnAvailableImage | aeron-cluster/src/main/java/io/aeron/cluster/service/ClusteredServiceAgent.java:282-286 | The image becomes the current log image |
| ServiceAgent.ClusteredServiceAgent.OnUnavailableImage | aeron-cluster/src/main/java/io/aeron/cluster/service/ClusteredServiceAgent.java:288-291 | There is no current log image afterwards |
| ServiceAgent.ClusteredServiceAgent.ReplayPreviousLogs | aeron-cluster/src/main/java/io/aeron/cluster/service/ClusteredServiceAgent.java:293-340 | The loop over the ledger has exactly the effect of Recovery.Startup on the table, clock, callbacks, closes, replays opened, ledger and position counter |
| ServiceAgent.ClusteredServiceAgent.ReplayLedgerEntries | aeron-cluster/src/main/java/io/aeron/cluster/service/ClusteredServiceAgent.java:319-328 | Replaying the ledger's entries one by one has exactly the effect of Recovery.ReplayLedger, and on success the last id visited is the ledger's last entry |
| ServiceAgent.ClusteredServiceAgent.ReplayRecording | aeron-cluster/src/main/java/io/aeron/cluster/service/ClusteredServiceAgent.java:342-406 | The poll loop has exactly the effect of Recovery.ReplayRecording, and it records the replay it opens |
| ThreadLocals.Align | aeron-driver/src/main/java/io/aeron/driver/media/ReceiveChannelEndpointThreadLocals.java:41-42 | Aligning gives a multiple of the power-of-two alignment, at or above the value and less than one alignment above it |
| ThreadLocals.AlignIsLeast | aeron-driver/src/main/java/io/aeron/driver/media/ReceiveChannelEndpointThreadLocals.java:41-42 | The aligned value is the least multiple of the alignment at or above the value |
| ThreadLocals.AlignCoarserIsLarger | aeron-driver/src/main/java/io/aeron/driver/media/ReceiveChannelEndpointThreadLocals.java:53-54 | Aligning to a multiple of an alignment never gives less: align(x, 32) <= align(x, 64) |
| ThreadLocals.SmLength | aeron-driver/src/main/java/io/aeron/driver/media/ReceiveChannelEndpointThreadLocals.java:39-39 | The SM frame is longer than its feedback: the SM header precedes it |
| ThreadLocals.BufferLength | aeron-driver/src/main/java/io/aeron/driver/media/ReceiveChannelEndpointThreadLocals.java:40-42 | The allocation is a whole number of cache lines and holds the SM frame and the NAK header end to end |
| ThreadLocals.NakMessageOffset | aeron-driver/src/main/java/io/aeron/driver/media/ReceiveChannelEndpointThreadLocals.java:53-53 | The NAK frame starts on a 32-byte boundary, at or after the end of the SM frame and less than 32 bytes past it |
| ThreadLocals.LayoutIsSound | aeron-driver/src/main/java/io/aeron/driver/media/ReceiveChannelEndpointThreadLocals.java:39-54 | For every feedback length: the NAK region starts at or after the end of the SM region and is 32-byte aligned, within 32 bytes of that end; it ends within bufferLength; bufferLength is a multiple of CACHE_LINE_LENGTH |
| ThreadLocals.ReceiverId | aeron-driver/src/main/java/io/aeron/driver/media/ReceiveChannelEndpointThreadLocals.java:44-45 | The receiver id is the exclusive or of the UUID's two halves; combining it with either half gives back the other |
| ThreadLocals.ByteBuffer.SetLimit | aeron-driver/src/main/java/io/aeron/driver/media/ReceiveChannelEndpointThreadLocals.java:49-49 | A limit within the capacity is set; a position beyond it is pulled back to it |
| ThreadLocals.ByteBuffer.SetPosition | aeron-driver/src/main/java/io/aeron/driver/media/ReceiveChannelEndpointThreadLocals.java:54-54 | A position within the limit is set and the limit is kept |
| ThreadLocals.ByteBuffer.Slice | aeron-driver/src/main/java/io/aeron/driver/media/ReceiveChannelEndpointThreadLocals.java:50-50 | The slice spans from the position to the limit and lies within the capacity |
| ThreadLocals.ReceiveChannelEndpointThreadLocals.constructor | aeron-driver/src/main/java/io/aeron/driver/media/ReceiveChannelEndpointThreadLocals.java:36-69 | The SM slice is [0, smLength) and the NAK slice [align(smLength, 32), +NAK header length), in an allocation of bufferLength bytes. The slices are disjoint and every limit set fits the capacity. The SM frame length is header length + feedback length, with type HDR_TYPE_SM, CURRENT_VERSION, the receiver id and the feedback. The NAK frame has the NAK header length, HDR_TYPE_NAK and CURRENT_VERSION |

## Left out

- Aeron client calls are oracles or parameters: `addSubscription`, `addExclusivePublication`, `AeronArchive.connect` and `replay`, and the counters reader.
- `invokeAeronClient` is not modelled; its work count is the `clientWork` parameter of `DoWork`, and the calls in the idle loops are dropped together with those loops.
- The SBE codecs and the byte layout of messages are not modelled: fragments arrive decoded, and the timer requests are committed as values.
- Fragment reassembly by `ControlledFragmentAssembler` is not part of this model: each fragment stands for one reassembled message.
- `RecordingInfo.mapRecordings`, `findLatestRecording` and `RecordingPos.findActiveRecordingPositionCounterId` are not part of this model. Their results (recordings map, latest key, counter id) are inputs, with the latest key required to be in a non-empty map.
- The waits for the live log and for the replay subscription to connect are not modelled: they only idle until a collaborator changes state.
- Idle strategies, `Thread.yield`, `System.nanoTime` and the once-only "replay potentially stuck" console report (lines 375-403) are left out: they affect timing and output, not state.
- Recovery.ReplayPolls: the source polls until the replay reaches its stop position, however long that takes. The model's script of polls is finite, and `ReplayIncomplete` stands for the script running out before the stop position.
- Recovery.ReplayPolls: `FRAGMENT_LIMIT` on each replay poll is not enforced. A poll step's batch is whatever the image delivered.
- The thread interrupt flag is read from each poll step, as an input.
- ServiceAgent.BoundedPoll: it is the model's own version of the image's bounded controlled poll, whose source is not part of this model. It delivers whole fragments that end at or before the limit and ignores term boundaries and padding frames; BoundedPollStopsAtLimit holds of this version, not of the real image.
- ServiceAgent.ClusteredServiceAgent.DoWork: the recorded position is a parameter, not read from the counter whose id `onStart` finds. The source dereferences that counter, so `doWork` is meaningful only after a successful `onStart`; the model does not tie the two together.
- `latestLogImage` is volatile and set from another thread; the model treats it as a plain field and leaves concurrency out.
- Closing resources records only that the close was asked for. The exception swallowing of `CloseHelper` is left out, and so is the try-with-resources close of the archive client and the replay subscription.
- Exceptions thrown by the hosted service's callbacks are not modelled.
- ThreadLocals.ByteBuffer: the allocation is taken to be exactly bufferLength bytes. `NetworkUtil.allocateDirectAlignedAndPadded` is not part of this model; a larger padded capacity only makes the limits easier to meet.
- ThreadLocals.Align: stated as rounding up on unbounded integers, not as the source's bit mask on 32-bit ints. Overflow of Java `int` lengths is not modelled.
- The flyweight writes are recorded as header field values, not as bytes at their offsets.
- The accessors `smBuffer()`, `nakBuffer()` and the two flyweight getters return fields unchanged, so they are the class's constants.
- `UUID.randomUUID()` is not modelled: its two halves are parameters.
- Message lengths computed for `tryClaim` in `scheduleTimer` and `cancelTimer` are part of the codecs and are left out.
