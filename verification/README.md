# Anycorn's protocol layer, verified

Anycorn turns what its ASGI applications send, what its peers do and what its timers fire into
HTTP/1.1, HTTP/2, HTTP/3 and WebSocket traffic. This project models that layer in Dafny and proves
what it promises on every run: no byte of a response lost or reordered, no coroutine left waiting
for an event that nobody will set, no message of one response in another, no index out of step with
the objects it finds.

`dafny verify dfyconfig.toml` checks everything.

## How the concurrent parts are modelled

Coroutines are cut at their real suspension points, and what runs between two of them is one step. A
*run* is any sequence of steps of all coroutines and of the peer; the theorems speak of the state
after any run. `EventWrapper.clear` replaces the event it holds, so events have an identity: `Marks`
lists the objects a wrapper has made, and a waiter is the index of the object it waits on.

Where the source has an object that changes, there is a class with its fields, and every segment of
its coroutines is a method whose contract says that it does exactly what the specification function
used by the runs says. The libraries are reduced to what the code relies on:

- h2: the windows of the connection and of each stream, the maximum frame size, and the refusal of
  anything sent on a stream that has ended or is gone;
- priority: which streams the tree holds and which of them are blocked; any other may come next;
- h11: the state of both sides, whether the connection may be kept, whether received bytes are left,
  and the three ways it frames a body; `closes` and `refuses` stand for what it finds in headers and
  lengths;
- aioquic: the events it reports, and whether it has already reset a sender;
- wsproto: the message fragments it makes of the bytes it is given;
- the kernel: how much of each read or sendfile it performs, and when it says EAGAIN.

| files | what they cover |
|---|---|
| EventObjects, StreamBuffers, H2Core, H2Protocol, H2Runs, H2Invariant, H2Theorems, H2Progress, H2Stranding | the send path of an HTTP/2 connection |
| HttpStream, HttpGrammar, HttpRuns, HttpContent | the state machine of one HTTP request, and what it emits |
| H3, H3Runs, H3Theorems | resets of HTTP/3 streams, and one response for one request |
| H11, H11Runs, H11Theorems, H11KeepAlive | HTTP/1.1 pipelining and recycling |
| Quic, Timer | the QUIC routing table and the restartable timer |
| WebSocket, WebSocketRuns | message reassembly, bytes ahead of the accept, and two loops over one connection |
| SendFile, Framing | zero-copy bodies and their framing |
| Utf8, Paths | request paths and their quoting |
| Wsgi, Dispatcher | WSGI applications, and the lifespan of mounted applications |

## What does not hold

Nine promises fail in the code as it is. Each has a run that shows the failure and a lemma that says when
the promise is kept.

- HTTP/2, an empty push while the last bytes of its stream are being flushed replaces the drained
  event; an app that then ends its body waits for ever (`H2Stranding.EmptyPushIsReached`,
  `EmptyPushStrands`). It takes exactly such a push (`NobodyIsStranded`). `HTTPStream` never pushes an
  empty chunk (`HttpRuns.OutputKeepsToGrammar`), the denial response of `WSStream` may
  (src/anycorn/protocol/ws_stream.py, line 489).
- HTTP/2, `Closed` closes no stream buffer: a writer that waits by then, on backpressure or for its last
  bytes to leave, goes on waiting (`H2Stranding.PushIsLeftWaiting`, `DrainIsLeftWaiting`), over any
  run exactly until a reset of its own stream is handled (`WaitingUntilReset`).
- HTTP/1.1, the reader that waits for a pipelined request is released by every StreamClosed, but waits
  again exactly if the connection may not be kept while the client's side is DONE
  (`H11Theorems.ClosingReleasesReader`): a shutdown is enough, and so is an app that returns in
  mid-response (`UnkeptConnectionStrandsReader`, `ReaderIsStranded`). It also waits for good when the
  connection is lost and the app then returns without finishing (`LossStrandsReader`).
- HTTP/1.1, an app that ends its response while its queue is full of messages it has not read waits for
  room in that queue, and the reader behind it (`H11Theorems.AppIsBlocked`, `BlockedForGood`); with
  room for the disconnect it does not (`ClosingNeedsRoom`).
- HTTP/3, something can be handed to aioquic on a stream that the peer has reset. As long as no more
  HEADERS come on the id, that can happen exactly if the id is exposed
  (`H3Runs.AttemptedExactlyIfExposed`): it has left `_reset_streams` while one of its streams is not
  CLOSED or has something left to send; or it is still there, but one of its streams can yet make the
  connection forget the reset, and another one, or the same one for an app that goes on after its
  return, has more to send. With one stream and an app that is silent after its return nothing is
  attempted (`H3Theorems.NothingAfterReset`). HEADERS on a reset id, such as the trailers of its
  request, expose it unless all its streams are finished (`TrailersExpose`, `HeadersExpose`). There is a
  run for each way: `LateBodyIsAttempted`, `TrailersReopen`, `TwoStreamsForgetTheReset`.
- HTTP/3, an id may get more than one Response: each HEADERS gets at most one
  (`H3Theorems.OneResponsePerHeaders`), but trailers are HEADERS, and on an id that is not reset the 400
  to them is sent whatever the id has had before (`AnotherResponse`, `TrailersAreAnswered`). Without
  more HEADERS another one can follow exactly if one of its streams has not answered, and the id is not
  reset or another of its streams can make the connection forget that
  (`H3Runs.AttemptedExactlyIfExposed`, for `AnyResponse`).
- WebSocket, data that arrives while `_accept` is suspended overtakes what was held ahead of it
  (`WebSockets.BytesAreReordered`); exactly when that matters says `ReplayKeepsTheOrder`.
- WebSocket, the replay in `_accept` and the reader share one buffer, which is cleared only after the put
  of a message: two messages can reach the app as one (`WebSocketRuns.TwoMessagesAsOne`). A
  fragment taken by one loop while the other is in its put does no harm exactly if it is an empty part
  of a message, or a whole message within the limit that finds the buffer empty: without harm each
  message arrives on its own (`OneMessageEach`), with it the app gets something else (`HarmIsSeen`).
- WebSocket, the app is inside its own `send` while what was held is replayed: the accept gets through
  exactly if the messages held find room in the queue of the app (`WebSocketRuns.AcceptNeedsRoom`), and
  otherwise waits for an app that waits for it (`AcceptIsBlocked`, `BlockedUntilServed`).

## Model

| member | source | states |
|---|---|---|
| EventObjects.EventWrapper.SetEvent | src/anycorn/worker_context.py:76-78 | fires the event the wrapper holds now, and no event it has replaced |
| EventObjects.EventWrapper.ClearEvent | src/anycorn/worker_context.py:68-70 | the wrapper holds a new, unset event; waiters of the old one keep theirs |
| StreamBuffers.StreamBuffer.BeginPush | src/anycorn/protocol/h2.py:81-88 | refused on a complete buffer; otherwise the bytes are appended, and the writer parks on the current event at the high water mark |
| StreamBuffers.StreamBuffer.FinishPush | src/anycorn/protocol/h2.py:89 | the token that released the writer is consumed |
| StreamBuffers.StreamBuffer.Take | src/anycorn/protocol/h2.py:91-105 | the oldest bytes leave; the marks follow what is left, not what was taken |
| StreamBuffers.StreamBuffer.ForceClose | src/anycorn/protocol/h2.py:69-74 | complete and empty, with every waiter of the current events released |
| H2Protocols.H2Protocol.SendData | src/anycorn/protocol/h2.py:192-214 | one scheduling of a stream up to its first suspension: a chunk within the windows and the frame size, the end of the stream, a block, or the removal of a stream h2 refuses |
| H2Protocols.H2Protocol.EndIfComplete | src/anycorn/protocol/h2.py:206-214 | END_STREAM only behind an empty, complete buffer |
| H2Protocols.H2Protocol.RetireStream | src/anycorn/protocol/h2.py:209-210 | buffer and tree entry go together |
| H2Protocols.H2Protocol.DiscardSendState | src/anycorn/protocol/h2.py:459-465 | the buffer is closed and dropped and the tree entry removed, however often it is called |
| H2Protocols.H2Protocol.ResumeSendTask | src/anycorn/protocol/h2.py:186-188 | the woken send task waits on a new event next time |
| H2Protocols.H2Protocol.SendBody | src/anycorn/protocol/h2.py:246-249 | unblock, wake and push in one step, with the exceptions of an unknown stream and of a complete buffer |
| H2Protocols.H2Protocol.SendEndBody | src/anycorn/protocol/h2.py:250-254 | the buffer is complete before the stream is unblocked, and the writer drains |
| H2Protocols.H2Protocol.SendTrailers | src/anycorn/protocol/h2.py:255-260 | trailers wait for the buffer to be drained |
| H2Protocols.H2Protocol.UpdateWindow | src/anycorn/protocol/h2.py:335-342 | the streams the update covers are unblocked and the send task is woken |
| H2Protocols.H2Protocol.UpdatePriority | src/anycorn/protocol/h2.py:344-365 | a PRIORITY ahead of its HEADERS leaves a blocked entry |
| H2Protocols.H2Protocol.RegisterStream | src/anycorn/protocol/h2.py:405-412 | a new buffer, and a blocked tree entry unless PRIORITY made one before |
| H2Protocols.H2Protocol.HandleReset | src/anycorn/protocol/h2.py:311-318 | the send state of a reset stream is dropped and the send task woken |
| H2Theorems.WireIsWhatWasWritten | src/anycorn/protocol/h2.py:76-105 | on every run the DATA of a stream is a prefix of what its app pushed, and with its buffer exactly that |
| H2Theorems.EndOfStreamIsLast | src/anycorn/protocol/h2.py:206-214 | nothing follows the end of a stream, which comes once, and behind every pushed byte |
| H2Theorems.EveryFrameIsAllowed | src/anycorn/protocol/h2.py:192-214 | a step emits at most one frame: a non-empty chunk from the head of the buffer within both windows and the frame size, or the end or the trailers of a stream whose bytes have all left |
| H2Theorems.ScheduledStreamSends | src/anycorn/protocol/h2.py:194-202 | a stream that is scheduled with bytes and a usable window sends as much as it may |
| H2Theorems.NeverBeyondCredit | src/anycorn/protocol/h2.py:194-201 | over all streams, bytes sent are the credit granted less the window left, which is never negative |
| H2Theorems.NeverBeyondStreamCredit | src/anycorn/protocol/h2.py:194-201 | on each stream, bytes sent and window make up its initial window, its updates and the SETTINGS changes since |
| H2Theorems.NoStalledStream | src/anycorn/protocol/h2.py:181-190 | while the send task is parked every stream is blocked, one with bytes only for want of a window whose opening the reader has not yet handled, and none that is finished still awaits its end |
| H2Theorems.CreditWakesSendTask | src/anycorn/protocol/h2.py:335-342 | handling that event unblocks the stream and releases the send task |
| H2Theorems.BufferBound | src/anycorn/protocol/h2.py:81-89 | a buffer never exceeds HIGH_WATER - 1 + 2 * M for pushes of at most M bytes, and a parked writer has at least LOW_WATER bytes before it |
| H2Stranding.BufferBoundIsAttained | src/anycorn/protocol/h2.py:87-89 | the bound is exact: for every M some run reaches it |
| H2Theorems.WaitersAreReachable | src/anycorn/protocol/h2.py:61-105 | no lost wakeup: the send task and every writer of a live stream wait on the event that the next `set` fires |
| H2Theorems.ResetReleasesWriter | src/anycorn/protocol/h2.py:311-318 | handling a reset releases the writer of the stream wherever it is parked |
| H2Invariant.RunInv | src/anycorn/protocol/h2.py:181-365 | the invariant behind these theorems holds after every run |
| H2Progress.ScheduledEndLeaves | src/anycorn/protocol/h2.py:203-208 | a finished stream whose turn comes puts exactly its END_STREAM on the wire |
| H2Progress.FlushedEndLeaves | src/anycorn/protocol/h2.py:200-208 | so does one whose last bytes have just been flushed, at once |
| H2Progress.EndedStreamIsRetired | src/anycorn/protocol/h2.py:208-210 | behind the flush of its end it leaves the table and the tree, and no other stream does |
| H2Progress.FinishedStreamIsEnded | src/anycorn/protocol/h2.py:181-210 | from every reached state in which a stream awaits its end, the send task alone sends it and retires the stream |
| H2Progress.WaitingBytesLeave | src/anycorn/protocol/h2.py:181-202 | from every one in which bytes wait for their turn alone, it sends some of them |
| H2Progress.IdleStreamIsBlocked | src/anycorn/protocol/h2.py:203-204 | a turn with nothing to send, or no window, blocks the stream and changes nothing else |
| H2Progress.RefusedStreamIsDropped | src/anycorn/protocol/h2.py:211-214 | a stream of which h2 takes nothing leaves the table and the tree, and its writer may go on |
| H2Progress.WriteIsTaken | src/anycorn/protocol/h2.py:246-249 | every chunk is taken whole behind what is there, until the body is ended; the stream may be picked, and the writer waits exactly at the high water mark |
| H2Progress.LowWaterReleases | src/anycorn/protocol/h2.py:96-102 | a waiting writer is released by a step exactly if that leaves less than the low water mark, or takes its buffer away |
| H2Progress.FinishIsTaken | src/anycorn/protocol/h2.py:250-254 | the end of a body completes the buffer as it is, and the stream may be picked |
| H2Progress.TrailersAreTaken | src/anycorn/protocol/h2.py:255-258 | trailers wait for the buffer to be drained |
| H2Progress.TrailersLeave | src/anycorn/protocol/h2.py:259-260 | and then leave exactly if h2 takes them |
| H2Progress.RequestIsRegistered | src/anycorn/protocol/h2.py:405-412 | a request gets an empty buffer, a tree entry and an idle writer |
| H2Progress.DeclinedRequestIsReset | src/anycorn/protocol/h2.py:284-289 | one that arrives while the worker is terminating gets none of them, and is reset |
| H2Progress.PriorityOnlyAdds | src/anycorn/protocol/h2.py:344-365 | PRIORITY adds blocked entries for exactly the streams it names, and unblocks and removes none |
| H2Stranding.NobodyIsStranded | src/anycorn/protocol/h2.py:206-210 | without an empty push in mid-flush, on a stream that h2 still takes data for, no writer is left behind on a buffer that has left the table |
| H2Stranding.EmptyPushStrands | src/anycorn/protocol/h2.py:81-86 | with any such push the app that then ends its body is |
| H2Stranding.EmptyPushIsReached | src/anycorn/protocol/h2.py:81-86 | a run to it: one byte, an empty chunk, the end of the body |
| H2Stranding.StrandedForGood | src/anycorn/protocol/h2.py:206-214 | such a writer never goes on |
| H2Stranding.OnlyResetReleasesAfterClose | src/anycorn/protocol/h2.py:226-231 | after `Closed` a writer that waits on backpressure or for the end of its bytes is released by the handling of a reset of its stream and by nothing else |
| H2Stranding.PushIsLeftWaiting | src/anycorn/protocol/h2.py:226-231 | a run to such a writer that filled its buffer |
| H2Stranding.DrainIsLeftWaiting | src/anycorn/protocol/h2.py:250-254 | a run to one that ended its body |
| H2Stranding.WaitingUntilReset | src/anycorn/protocol/h2.py:226-231 | over any run after `Closed` it is still waiting exactly if no reset of its stream was handled |
| HttpStreams.HTTPStream.AppSend | src/anycorn/protocol/http_stream.py:219-338 | a message does what `Plan` says in the current state, or raises and leaves state, events and log as they were |
| HttpStreams.HTTPStream.AppReturn | src/anycorn/protocol/http_stream.py:210-218 | a return closes an open stream, with a 500 if no response was started |
| HttpStreams.HTTPStream.SendZeroCopyBody | src/anycorn/protocol/http_stream.py:352-372 | a window goes out as one event on HTTP/1 and chunk by chunk elsewhere, not at all where no body is allowed, and ends the response unless more follows |
| HttpStreams.HTTPStream.SendTrailers | src/anycorn/protocol/http_stream.py:295-336 | trailers start or end a response only for a client that takes them |
| HttpStreams.HTTPStream.SendClosed | src/anycorn/protocol/http_stream.py:374-383 | CLOSED is marked before anything is sent |
| HttpStreams.HTTPStream.SendErrorResponse | src/anycorn/protocol/http_stream.py:385-406 | a whole error response, and a record if there is a scope |
| HttpStreams.HTTPStream.HandleRequest | src/anycorn/protocol/http_stream.py:123-191 | an app for a good request; otherwise one 400 or 404 and a closed stream without an app |
| HttpStreams.HTTPStream.HandleBody | src/anycorn/protocol/http_stream.py:193-201 | a body message is put to the app while the stream is open |
| HttpStreams.HTTPStream.HandleClosed | src/anycorn/protocol/http_stream.py:202-207 | the disconnect is put and an unfinished response recorded, once |
| HttpRuns.OutputKeepsToGrammar | src/anycorn/protocol/http_stream.py:209-406 | with the reader acting at any moment, the events keep to the grammar, with no body where `suppress_body` forbids it and never an empty one, and a returned app leaves the stream closed |
| HttpRuns.OutputDecomposes | src/anycorn/protocol/http_stream.py:209-406 | the grammar spelled out: informational events, one response, its bodies, its trailers, at most one end, then StreamClosed alone |
| HttpRuns.NeverStartedGets500 | src/anycorn/protocol/http_stream.py:211-216 | an app that never started a response gets exactly one 500 |
| HttpRuns.LogAndDisconnectAccounting | src/anycorn/protocol/http_stream.py:193-207 | nothing is put after http.disconnect, put at most once; at most one full and one aborted record, none aborted after the CLOSED mark |
| HttpGrammar.PlanFits | src/anycorn/protocol/http_stream.py:219-338 | whatever an app sends, what it makes its stream do fits the grammar from the state it is in |
| HttpGrammar.ReturnFits | src/anycorn/task_group.py:67-84 | so does its return, reported once or twice |
| HttpContents.AcceptedExactly | src/anycorn/protocol/http_stream.py:219-338 | which messages are accepted, by state, version and headers; every other raises |
| HttpContents.BodyIsEmitted | src/anycorn/protocol/http_stream.py:264-294 | the bytes of a message, or the chunks of the file it names (SendFiles.ReadFileChunks: its window), or on HTTP/1 exactly that window, go out whole and in order where HTTP has a body, and the response ends exactly behind the last part |
| HttpContents.HeadIsEmitted | src/anycorn/protocol/http_stream.py:219-263 | starts, hints, pushes and trailers go out with the status, headers and links they were given |
| HttpContents.OnlyStartsAreRemembered | src/anycorn/protocol/http_stream.py:220 | a start keeps its status and the trailers it announces |
| HttpContents.BodyIsWhatWasAsked | src/anycorn/protocol/http_stream.py:219-372 | on every run the bytes and windows emitted are the first of those asked for, and all of them between two messages |
| HttpContents.RequestReachesTheApp | src/anycorn/protocol/http_stream.py:193-207 | on every run the app is given every part of its request up to the closing of the stream, in order, and behind that the disconnect |
| H3Protocols.H3Protocol.CreateStream | src/anycorn/protocol/h3.py:155-203 | every HEADERS make a new stream, which overwrites the one its id led to; a refused one, be it for its path, its target or its name, is answered by the reader |
| H3Protocols.H3Protocol.StreamSend | src/anycorn/protocol/h3.py:108-146 | StreamClosed forgets the stream and its reset, and a push is promised even on a reset stream; any other event is skipped there, and an assertion of aioquic counts as a reset |
| H3Protocols.H3Protocol.ResetStream | src/anycorn/protocol/h3.py:148-153 | a reset stream is forgotten and told |
| H3Runs.AttemptedExactlyIfExposed | src/anycorn/protocol/h3.py:108-153 | in every state a run reaches, for every id, and for apps that go on after their return or not: without more HEADERS on the id a call into aioquic, or a Response, is attempted in some continuation exactly if the id is exposed |
| H3Runs.OnlyTheExposed | src/anycorn/protocol/h3.py:74-77 | no continuation exposes an id that is not, so nothing is attempted on it again |
| H3Runs.ExposedIsAttempted | src/anycorn/protocol/h3.py:117-134 | and from every state in which an id is exposed, a run that attempts something |
| H3Runs.SpeakingIsAttempted | src/anycorn/protocol/h3.py:117-134 | what a stream has left to send is attempted once the id has left `_reset_streams` |
| H3Runs.RunInv | src/anycorn/protocol/h3.py:60-153 | the invariant behind these theorems holds after every run |
| H3Theorems.TableFollows | src/anycorn/protocol/h3.py:108-153 | an id leads to a stream exactly if HEADERS were last said of it, and is in `_reset_streams` exactly if its last mention but for HEADERS was a reset |
| H3Theorems.OnlyTheNamedIsTold | src/anycorn/protocol/h3.py:148-153 | a reset tells the stream its id leads to, and nothing tells any other |
| H3Theorems.NothingAfterReset | src/anycorn/protocol/h3.py:74-77 | while a reset is remembered and its id has one stream whose app is silent after its return, nothing is attempted on it again, unless HEADERS come on it |
| H3Theorems.TrailersExpose | src/anycorn/protocol/h3.py:79-86 | refused HEADERS expose an id exactly unless it is reset and all its streams are finished |
| H3Theorems.HeadersExpose | src/anycorn/protocol/h3.py:155-203 | HEADERS that get an app always do, as it may send after its return |
| H3Theorems.LateBodyIsAttempted | src/anycorn/protocol/h3.py:117-134 | a run in which a late body reaches aioquic on an id reset ahead of its request |
| H3Theorems.TrailersForgetTheReset | src/anycorn/protocol/h3.py:110-113 | in every state, refused HEADERS make the connection forget the reset of their id |
| H3Theorems.TrailersReopen | src/anycorn/protocol/h3.py:110-113 | a run in which the next body of an app that has not returned reaches aioquic on a reset id, behind the trailers of its request |
| H3Theorems.TwoStreamsForgetTheReset | src/anycorn/protocol/h3.py:110-113 | a run in which it does with no HEADERS behind the reset, which came while the trailers were being answered |
| H3Theorems.LateMessagesMatter | src/anycorn/protocol/http_stream.py:219-338 | exactly which messages make a stream send something, by the state it is in: bodies, trailers, starts and hints |
| H3Theorems.ClosedStreamsAreDeaf | src/anycorn/protocol/http_stream.py:219-250 | a CLOSED stream does nothing about a message, late or not, exactly unless it is a valid server push |
| H3Theorems.OneResponsePerHeaders | src/anycorn/protocol/h3.py:117-126 | over every run, no more Responses are attempted on an id than HEADERS came on it |
| H3Theorems.AnotherResponse | src/anycorn/protocol/h3.py:79-81 | in every state in which an id is not reset, refused HEADERS on it get a Response, whatever it has had before |
| H3Theorems.TrailersAreAnswered | src/anycorn/protocol/h3.py:79-81 | a run with two Responses on one id, the first still open |
| H11Protocols.H11Protocol.StreamSend | src/anycorn/protocol/h11.py:177-210 | what becomes of each event: on the wire, ignored, dropped, or raised to the app before or after h11 heard of it; the last response allowed asks to close |
| H11Protocols.H11Protocol.SendH11Event | src/anycorn/protocol/h11.py:344-351 | a refusal by h11 is raised unless the client's side has failed |
| H11Protocols.H11Protocol.MaybeRecycle | src/anycorn/protocol/h11.py:367-386 | the stream is told and dropped; the connection is kept exactly if both sides are done, it may be, and the worker is not stopping; either way `can_read` is set |
| H11Protocols.H11Protocol.CloseStream | src/anycorn/protocol/h11.py:388-391 | the live stream is told that it is closed |
| H11Protocols.H11Protocol.CreateStream | src/anycorn/protocol/h11.py:284-342 | a request makes a new live stream; it counts at once if it gets an app, and otherwise leaves the answer that comes first |
| H11Protocols.H11Protocol.CountRequest | src/anycorn/protocol/h11.py:341 | a refused request counts behind its answer |
| H11Protocols.H11Protocol.Park | src/anycorn/protocol/h11.py:267-269 | the reader waits on a new event |
| H11Protocols.H11Protocol.HandleClosed | src/anycorn/protocol/h11.py:173-175 | the stream is told and dropped, and the connection goes on writing |
| H11Theorems.ResponsesInOrder | src/anycorn/protocol/h11.py:177-210 | as long as the transport takes bytes, also behind `Closed`, the wire is the responses one after the other in request order, each but the last complete |
| H11Theorems.LastResponseKeepsToGrammar | src/anycorn/protocol/h11.py:177-210 | and the last one a part of a complete one, unless h11 has refused something of it |
| H11Theorems.HangupDoesNotStopTheResponse | src/anycorn/tcp_server.py:162-179 | a run in which a client that has ended its side gets its response |
| H11Theorems.LateMessagesVanish | src/anycorn/protocol/http_stream.py:209-219 | whatever a finished app still sends, and its return, change nothing at all on the connection |
| H11Theorems.EmittedIsOnTheWire | src/anycorn/protocol/h11.py:177-234 | a head, and behind a final one every body, window and end, is on the wire at once and last, unless h11 has failed or finds a fault |
| H11Theorems.NoBodyBehindAnInformationalHead | src/anycorn/protocol/h11.py:190-196 | behind a head below 200, which h11 does not count as a response, it raises |
| H11Theorems.FaultsStayOffTheWire | src/anycorn/protocol/h11.py:344-351 | what h11 finds a fault with is raised, and nothing of it is on the wire |
| H11Theorems.DroppedForAFailedClient | src/anycorn/protocol/h11.py:347-349 | unless h11 has failed on the client's input: then it is dropped, and the app goes on |
| H11Theorems.ConnectionIsKept | src/anycorn/protocol/h11.py:367-386 | a StreamClosed keeps the connection exactly if both sides are DONE, the worker goes on and the bound allows; then both are idle and what was received can be the next request |
| H11KeepAlive.EveryRequestIsServed | src/anycorn/protocol/h11.py:369-381 | for every bound, every size of the queues and every number of requests within the bound, a run in which all are answered on one connection |
| H11Theorems.RequestsAreBounded | src/anycorn/protocol/h11.py:182-183 | a connection takes at most max(1, keep_alive_max_requests) requests |
| H11Theorems.ReaderWaitsForAnApp | src/anycorn/protocol/h11.py:267-269 | a reader waits only while there is a live stream whose app is not finished |
| H11Theorems.ClosingReleasesReader | src/anycorn/protocol/h11.py:367-386 | every StreamClosed releases it, and it waits again exactly if the connection may not be kept and the client's side is DONE |
| H11Theorems.ClosingNeedsRoom | src/anycorn/task_group.py:115-118 | a StreamClosed goes through exactly if the disconnect finds room in the queue of the app, or the app has left |
| H11Theorems.BlockedForGood | src/anycorn/protocol/h11.py:388-391 | otherwise the app and the reader wait for good, unless the app reads elsewhere |
| H11Theorems.AppIsBlocked | src/anycorn/protocol/h11.py:276-279 | for every size of the queue a run gets there |
| H11Theorems.UnkeptConnectionStrandsReader | src/anycorn/protocol/h11.py:369-386 | in any such state nothing is left that could release the reader |
| H11Theorems.LossStrandsReader | src/anycorn/protocol/h11.py:388-391 | so does a lost connection whose app returns without finishing |
| H11Theorems.StrandedForGood | src/anycorn/protocol/h11.py:267-269 | and it then waits for good, unless an app with an unfinished response sends more |
| H11Theorems.ReaderIsStranded | src/anycorn/protocol/h11.py:367-386 | a run that gets there: two pipelined requests and a shutdown |
| H11Runs.RunInv | src/anycorn/protocol/h11.py:236-391 | the invariant behind these theorems holds after every run |
| QuicProtocols.QuicProtocol.Route | src/anycorn/protocol/quic.py:115-136 | a datagram finds its connection, or a long enough first packet makes one with two ids; the table stays sound exactly if the drawn id is new |
| QuicProtocols.QuicProtocol.Terminate | src/anycorn/protocol/quic.py:181-185 | every id of the connection leaves the table and no deletion can miss |
| QuicProtocols.QuicProtocol.Issue | src/anycorn/protocol/quic.py:213-215 | the table stays sound exactly if no other connection has the id |
| QuicProtocols.QuicProtocol.Retire | src/anycorn/protocol/quic.py:216-218 | raises exactly for an id the connection does not have; otherwise the deletion cannot miss |
| QuicProtocols.QuicProtocol.HandleEvent | src/anycorn/protocol/quic.py:180-218 | the table follows the ids of the connection, and no other connection notices |
| QuicProtocols.QuicProtocol.HandleEvents | src/anycorn/protocol/quic.py:176-223 | over any interleaving of the events of any connections, each ends up with the ids of its own events and the table with all of them |
| QuicProtocols.IdsAfterMeans | src/anycorn/protocol/quic.py:181-218 | an id is held exactly if its last mention issued it, or it was there and nothing took it back |
| QuicProtocols.QuicProtocol.Distinct | src/anycorn/protocol/quic.py:159-162 | every connection in the table once, however many ids lead to it |
| QuicProtocols.QuicProtocol.CloseAll | src/anycorn/protocol/quic.py:145-164 | each connection that has an id is closed exactly once, the others not |
| QuicProtocols.DistinctConnectionsShareNoId | src/anycorn/protocol/quic.py:131-132 | the id sets of two connections are disjoint |
| Timers.AnyioSingleTask.FinishRestart | src/anycorn/worker_context.py:48-52 | the replacement runs, uncancelled, when its predecessor is cancelled |
| Timers.AnyioSingleTask.Stop | src/anycorn/worker_context.py:54-59 | the task is cancelled and forgotten |
| TimerRuns.AtMostOneArmed | src/anycorn/worker_context.py:48-52 | at most one task is armed, or the two a restart is swapping |
| TimerRuns.ATaskIsAlwaysDue | src/anycorn/worker_context.py:37-59 | between a restart and a stop there is always a task that nobody has cancelled, and none is armed outside that time |
| TimerRuns.SelfRestartArmsItsReplacementFirst | src/anycorn/protocol/quic.py:166-174 | a timer that restarts itself has its replacement before its own cancellation, which is the only one |
| TimerRuns.CancelsUnderTheLock | src/anycorn/worker_context.py:48-59 | only the task the handle names is ever cancelled, by whoever holds the lock |
| SendFiles.SendFile | src/anycorn/sendfile.py:33-63 | whatever the kernel answers, exactly the window of the file goes out, in calls within the cap |
| SendFiles.ReadFileChunks | src/anycorn/sendfile.py:83-98 | the same bytes, in non-empty chunks within their cap |
| Framing.ZeroCopyIsABody | src/anycorn/protocol/h11.py:45-62 | in every framing a window inside the file is on the wire what a body with its bytes is |
| Framing.OnlyInsideTheFile | src/anycorn/protocol/h11.py:212-234 | outside the file exactly where no length was announced, or h11 raises for both |
| Framing.ChunksReadBack | src/anycorn/tcp_server.py:152-160 | a client that decodes the chunks reads back the bodies, sent as bytes or out of the file |
| Framing.UnhexHex | src/anycorn/protocol/h11.py:212-225 | chunk sizes read back |
| Framing.CountedReadsBack | src/anycorn/protocol/h11.py:212-234 | under a content length bodies are accepted exactly as long as they fit, and a client reads back their bytes |
| Framing.UntilCloseReadsBack | src/anycorn/protocol/h11.py:212-234 | without either framing all are accepted, and read back |
| Paths.FirstMalformed | src/anycorn/utils.py:90-104 | the scan that skips behind each escape finds the first malformed one, if there is one |
| Paths.StrictMeansScanned | src/anycorn/utils.py:83-110 | it accepts exactly what decoding from left to right accepts, and there the lenient `unquote_to_bytes` agrees with it |
| Paths.DecodePath | src/anycorn/utils.py:83-110 | malformed escapes first, then bytes that are not UTF-8 |
| Paths.PathSpellsItsBytes | src/anycorn/utils.py:106-110 | the path is the text whose UTF-8 form the escapes spell; a refusal means there is none |
| Paths.PathsAreInjective | src/anycorn/utils.py:83-110 | two targets have the same path exactly if they decode to the same bytes |
| Utf8.EncodeDecode | src/anycorn/utils.py:107 | strict decoding loses nothing |
| Utf8.DecodeEncode | src/anycorn/utils.py:107 | every text has a form that decodes to it |
| Paths.QuoteIsIdempotent | src/anycorn/middleware/http_to_https.py:17-21 | quoting twice is quoting once |
| Paths.QuoteLeavesValidPaths | src/anycorn/middleware/http_to_https.py:17-21 | quoting leaves exactly the paths of safe characters alone |
| Paths.QuoteEscapesTheRest | src/anycorn/middleware/http_to_https.py:17-21 | exactly letters, digits and the characters listed there are left alone, and any other byte becomes its escape |
| Paths.QuoteConcat | src/anycorn/middleware/http_to_https.py:17-21 | each byte on its own |
| Paths.RedirectKeepsThePath | src/anycorn/middleware/http_to_https.py:116 | root_path and the quoted target have the same path as root_path and the target, or the same refusal |
| WebSockets.WebsocketBuffer.Extend | src/anycorn/protocol/ws_stream.py:178-187 | the fragment is appended, kept even when too large, and of the wrong kind a TypeError |
| WebSockets.WSStream.HandleEvents | src/anycorn/protocol/ws_stream.py:402-416 | the app has been given exactly what all events so far deliver; the loop ends where one is too large |
| WebSockets.DeliveredIsOneMessage | src/anycorn/protocol/ws_stream.py:178-200 | the n-th delivery is, in order, the fragments of exactly the n-th message, within the limit |
| WebSockets.NothingAfterTooLarge | src/anycorn/protocol/ws_stream.py:185-187 | after one fragment too many nothing is ever delivered again |
| WebSockets.EverythingWithinTheLimit | src/anycorn/protocol/ws_stream.py:413-416 | without one every complete message is |
| WebSockets.BatchesDoNotMatter | src/anycorn/protocol/ws_stream.py:402-416 | what is delivered does not depend on how the events were batched |
| WebSockets.WSStream.HandleData | src/anycorn/protocol/ws_stream.py:309-325 | data is held up to the limit before the accept and decoded after it |
| WebSockets.WSStream.BeginAccept | src/anycorn/protocol/ws_stream.py:454-461 | the handshake counts as accepted before the first suspension |
| WebSockets.WSStream.FinishAccept | src/anycorn/protocol/ws_stream.py:467-472 | what was held is replayed |
| WebSockets.DataIsHeldOrRefused | src/anycorn/protocol/ws_stream.py:309-325 | ahead of the accept data is refused exactly if it exceeds the limit together with what is held, and otherwise held behind that; afterwards never |
| WebSockets.NothingEarlyIsLost | src/anycorn/protocol/ws_stream.py:309-325 | over every run that nobody closes: refused exactly if more than the limit came ahead of the accept, and otherwise everything is held, or received, in order |
| WebSockets.EarlyInv | src/anycorn/protocol/ws_stream.py:309-325 | after any run, what is held and what the decoder has been given, by what arrived ahead of, during and after the accept |
| WebSockets.HeldIsBounded | src/anycorn/protocol/ws_stream.py:318-322 | never more is held than one message may have |
| WebSockets.ReplayKeepsTheOrder | src/anycorn/protocol/ws_stream.py:454-472 | the decoder gets every byte in the order of arrival exactly if what came while the accept was suspended commutes with what was held |
| WebSockets.BytesAreReordered | src/anycorn/protocol/ws_stream.py:454-472 | any two bytes around the start of the accept are reordered |
| WebSocketRuns.AllOfIsDelivered | src/anycorn/protocol/ws_stream.py:178-200 | messages put together fragment by fragment are what the whole history delivers |
| WebSocketRuns.DueIsDelivered | src/anycorn/protocol/ws_stream.py:402-416 | on every run of two loops, what is due to the app is what one loop would deliver |
| WebSocketRuns.OneMessageEach | src/anycorn/protocol/ws_stream.py:413-416 | the app has been given exactly that, unless a loop took a fragment to its harm while the other was in its put |
| WebSocketRuns.HarmIsSeen | src/anycorn/protocol/ws_stream.py:413-416 | from every state in which the last fragment wsproto has is about to be taken to its harm, a run in which it has not |
| WebSocketRuns.TwoMessagesAsOne | src/anycorn/protocol/ws_stream.py:467-472 | for every size of the queue and any two messages, a run that delivers them as one |
| WebSocketRuns.AcceptNeedsRoom | src/anycorn/protocol/ws_stream.py:467-472 | the replay gets through exactly if its messages find room in the queue of the app; otherwise it stops in a put |
| WebSocketRuns.BlockedUntilServed | src/anycorn/task_group.py:115-119 | where it stays over every run, until the app reads or is gone |
| WebSocketRuns.AcceptIsBlocked | src/anycorn/protocol/ws_stream.py:467-472 | for every size of the queue, one held message too many gets there |
| WsgiWrappers.WSGIWrapper.StartResponse | src/anycorn/app_wrappers.py:133-157 | exactly when it raises into the application, and what it then leaves: the first call counts, or one with exc_info before the headers are sent |
| WsgiWrappers.WSGIWrapper.SendStart | src/anycorn/app_wrappers.py:161-169 | one start, refused if the app never called start_response |
| WsgiWrappers.WSGIWrapper.RunApp | src/anycorn/app_wrappers.py:127-185 | one start with the head in force at the first data, then the chunks; the iterable is closed once; when it raises |
| WsgiWrappers.WSGIWrapper.HandleHttp | src/anycorn/app_wrappers.py:99-125 | a body too large is a 400, a foreign path a 404, anything else the app's reply with one final body |
| WsgiWrappers.StartRaisesExactly | src/anycorn/app_wrappers.py:133-157 | over all that the application did before, exactly which calls raise into it |
| WsgiWrappers.HeadIsTheLastAccepted | src/anycorn/app_wrappers.py:140-153 | the status in force is that of the last accepted call |
| WsgiWrappers.HeadersAreTheLastEncoded | src/anycorn/app_wrappers.py:154-157 | the headers are those of the last accepted call that could encode them |
| WsgiWrappers.ReplyDrivesTheStreamToClosed | src/anycorn/protocol/http_stream.py:219-277 | every such reply is accepted by the stream from end to end exactly if its headers are valid, and takes it to CLOSED |
| WsgiWrappers.WsgiThroughTheStream | src/anycorn/app_wrappers.py:171-182 | the client gets what the application yielded |
| Dispatchers.DispatcherMiddleware.Send | src/anycorn/middleware/dispatcher.py:146-161 | a completion goes upstream when it is the last, a failure at once |
| Dispatchers.DispatcherMiddleware.FinishMount | src/anycorn/middleware/dispatcher.py:120-144 | a mount that declined is completed for, one that failed is not, and an error past startup is raised |
| Dispatchers.CompletionsInOrder | src/anycorn/middleware/dispatcher.py:146-155 | upstream hears of the startup exactly once every mount has completed or declined, then likewise of the shutdown |
| Dispatchers.FailuresArePassedOn | src/anycorn/middleware/dispatcher.py:156-161 | the failures upstream hears of are those the mounts report, each as it is, once and in order |
| Dispatchers.EndsAreSettled | src/anycorn/middleware/dispatcher.py:120-144 | a mount that ends raises past the dispatcher exactly if it raised once it was up or had failed, and otherwise counts as up and down unless it had failed |
| Dispatchers.FailureIsNotTakenBack | src/anycorn/middleware/dispatcher.py:134-137 | a failed startup keeps the dispatcher from starting up, any failure from having shut down |
| Dispatchers.FailedStaysFailed | src/anycorn/middleware/dispatcher.py:156-161 | a mount that failed its startup never counts as started later |
| Dispatchers.AllEndWell | src/anycorn/middleware/dispatcher.py:120-161 | if no mount fails and all finish, upstream gets exactly the two completions |
| Dispatchers.CompletingTwiceShowsUpstream | src/anycorn/middleware/dispatcher.py:148-151 | a mount that completes twice is heard twice, so the promise of the apps is needed |

## Left out

- Sockets, TLS, UDP, signals, supervision, configuration, logging formats and metrics: input, output and plumbing.
- The insides of h2, priority, h11, wsproto and aioquic beyond the facts listed above; HEADERS of a response and informational responses are not on the HTTP/2 wire of the model.
- Several senders on one stream: replaced events could leave one of them behind, so each stream has one.
- H2Protocols.H2Protocol holds the value of each StreamBuffer, not the object: a suspended coroutine that still holds a buffer after it left the table is represented by the `detached` map of the runs.
- HTTP/2 and HTTP/3, the wait for room in an app's queue while a stream is told that it was reset; a reset is one step.
- HttpStreams.HTTPStream.AppSend: passes header names and values on as given, where the source strips blanks around them; messages lacking a required key, or with a value of the wrong type, are not modelled.
- Server push: an app may push and the events appear in the grammar, but the promised stream is not modelled, and no push is sent in the HTTP/3 runs.
- H3Protocols.H3Protocol.StreamSend: of a push it says only that the push goes on to `_create_server_push`.
- HTTP/1.1, the h2c upgrade, WebSocket upgrades, CONNECT and `Expect: 100-continue`; input that h11 rejects, other than bytes behind a response that asked to close.
- HTTP/3, CONNECT streams, which carry WebSockets.
- HttpRuns.OutputKeepsToGrammar: no emission of these runs raises, and none is cancelled midway; an app that cancels its own send, or goes on after h11 has raised, can make its stream emit a second Response. What the HTTP/1.1 runs put on the wire allows for errors of h11.
- HttpRuns.OutputDecomposes: likewise.
- H11Theorems.ResponsesInOrder: says nothing once the transport is gone, which takes no bytes from then on; before that it holds at every moment.
- H11Theorems.RequestsAreBounded: requests that were already received and are taken up after the transport has gone are not counted, as nobody is served.
- HTTP/1.1, the wait of the reader for room in a queue when it tells a stream of a hangup or a loss; messages put to an app that has already been told are dropped.
- WebSockets.WSStream.HandleEvents: pings and close frames, which leave the buffer alone; the class runs one loop at a time, WebSocketRuns both.
- WebSocketRuns.HarmIsSeen: the fragment is the last one that has arrived; what others behind it would make of the harm is not followed.
- Cancellation inside clean-up code, and cancellation of a timer from outside its own SingleTask.
- Reading the header of a datagram, version negotiation and the size of aioquic's own ids.
- WebSocket denial responses and access records; the suspension while a too large early message is answered with a 400.
- A zero-copy count or offset that is negative, an offset taken from the position of the file, and files that change while they are sent; the end of a body that falls short of its content length.
- `valid_request_target`, header and host checks, the WSGI environ, the mounting of paths and the rest of the redirect: easy members.
