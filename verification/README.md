# Verified models of the client protocols and the mobile link

This project models the parts of the repository in which several things happen
at once or a stream has to be put together again, and proves what they promise:

* **Terminal runtime** (`TerminalState`, `TerminalSafety`, `TerminalLoss`, `TerminalTrace`,
  `TerminalRuntime`):
  tabs start, fall back, restart and close while transport calls are in flight.
  A state machine with one step per stretch of code between two awaits; a class
  whose methods perform the steps; theorems over every run.
* **Terminal transports** (`OutputChannel`, `SocketState`, `SocketSafety`,
  `SocketTrace`, `SocketWrites`, `SocketFate`, `TerminalSocket`, `HttpCursor`,
  `HttpTrace`): output that survives
  reconnects, input that is never re-sent, the bounded output buffer.
* **Encodings** (`Utf16`, `Base64`): repairing and chunking UTF-16, decoding
  Base64.
* **Messages and stream runs** (`MessageList`, `Timeline`, `RunTable`,
  `RunStore`, `StreamHook`, `TurnFate`): merging and ordering the message list, the
  segmented timeline, the run table with its fences and pruning, and the event
  dispatcher that drives them.
* **Queued messages** (`QueuedMessages`, `QueueKey`).
* **Mobile link** (`Framing`, `Pairing`): the frame protocol between the phone
  and the desktop, and pairing, revocation and persistence.
* **Backend kernels** (`JsonPointer`, `CanonicalJson`, `LockRegistry`): the
  legacy variants of a payload's identity bytes, and the lifecycle locks.

Where the code changes things step by step, a class or a loop does the same and
is proved against a function of the old state; the theorems about whole runs are
lemmas about these functions. The handlers (`DoRunStart`, `DoEvent`, `OnMessage`,
`AuthorizeClaim` and the like) each ensure that the class moves exactly as the
step function of their name, whole state included; the table below lists only
the theorems and the members that contain a loop. `dafny verify dfyconfig.toml`
checks everything.

## What turned out not to hold, and exactly when it does

* The WebSocket accepts output frames before the first `authenticated` frame
  (`wsTransport.ts:63-82`), which may then move the cursor back. So an event can
  be delivered twice (`SocketSafety.AcceptedEarlyTwice`); delivery is one
  contiguous segment if and only if that frame did not move the cursor away from
  what was already accepted (`ContiguousIff`), and always for a server that
  authenticates first (`AuthenticatedFirst`).
* Local rows keep their order in the merged list if and only if both lists agree
  on the order of the ids they share (`MessageList.LocalOrderIff`).
* A run's turn id can change while it is the empty string, which is false in
  JavaScript (`messageStore.ts:1675`): `RunTable.TurnFixedIff`.
* `queued` is not among the statuses that accept events
  (`messageStore.ts:621-628`), so a run in that status is fenced as well.
* Finalizing shows the message exactly if and only if the earlier segments are
  its beginning (`Timeline.FinalizedShows`), as long as no other open segment has
  the id of the last one. Draft ids are distinct if and only if no delta opens a
  segment under an id a draft still has (`DraftIdsDistinctIff`). That never
  happens in runs without `agent_silent` (`DraftIdsStayDistinct`) and can happen
  otherwise, because clearing drafts shortens the list (`ClearedIdsCollide`).
* A bubble agrees with its segments except after three kinds of events that find
  something open: a stream error (`StreamHook.ErrorDisturbsIff`), a message
  without a sender for an agent named `unknown-agent` or with the empty name
  (`NamelessDisturbsIff`), and any start or end of a run that prunes the stream
  and leaves its bubble (`PruningDisturbsIff`), which a late token then extends
  (`RevivedRunDisagrees`). Which events prune which run is a guard on the table
  before the event (`PrunesIff`). Exactly these: `EventAgreesIff` for one event,
  `BubbleIsSegments` for runs.
* An open session has an owner, a live tab entry or a start in flight, if and only
  if its create call did not reject after the server had made it and no close call
  left it open while its owner went (`TerminalLoss.NoSessionLostOrShared`). A
  lost session stays without an owner in every continuation (`LostForever`,
  `RejectedCreateLosesSession`). So closing everything leaves no entry and no
  start, but not always nothing open: when the close calls work, exactly the lost
  sessions of rejected creates can remain (`CloseAllLeavesNothingOpen`), and
  `ClosingMissesLost` is a run in which one does.
* The comment on `mergeHistoryIntoLocal` says that a row both sides know keeps
  the local copy (`messageStore.ts:754-755`); the code keeps the fetched row
  whenever it carries a `seq`, and the model follows the code.

## Modelling choices

* JavaScript is atomic between awaits. Each promise continuation, handler and
  timer is one step, and every order of steps is a run. That a step is ever taken
  is not claimed; theorems about ends and progress say what the steps do once
  they are.
* Identifiers that are uuids, symbols or object references in the source are
  natural numbers; object identity is a handle, or the number of a dispatch.
* In the terminal runtime the transport has no attach. A create may reject before
  the server made a session or after it did, as `wsTransport.ts:201-204` and
  `httpTransport.ts:296` can. Whether the promise of a close call resolves says
  nothing about the server: `wsTransport.ts:223-235` and `httpTransport.ts:334-348`
  resolve with the session open when the view has no lease or the transport does
  not know the session. So every returning close call names what it closed
  (`gone`), whatever its promise did; the promise matters to a restart only, which
  goes on when it resolved. That the calls close what they were asked to is the
  hypothesis `TerminalLoss.AllWork`, where a theorem needs it. Saved tab metadata
  is the flag `saved` where the code consults it.
* Each output channel of the runtime has the list of operations done to it:
  output, the drop before a fallback, the clearing by a closing. `OutputChannel`
  says what listeners hear for any such list, `TerminalTrace` which list it is.
* The server of a terminal is a function from positions to logged events; it may
  send any frame at any time. WebSocket cursors are natural numbers, and
  `sendable` says whether the socket is open with room in its buffer. Lease
  renewal and heartbeats only send or close, which the steps already include.
* UTF-16 texts are sequences of code units, bytes are 0 to 255. Shifts and masks
  are written as division, remainder and multiplication.
* A message's `seq` is absent, a decimal number, or another text. Sorting is
  stable, as the language prescribes for `Array.prototype.sort`.
* A timeline event's id is the structured form of its text; the stream id every
  id of a run starts with is left out. Fields that nothing modelled reads are
  one number, `detail`.
* Encryption is ideal: a sealed message is 16 bytes longer and opens, under its
  number, to what was sealed. Secrets are drawn from a counter and hashing is
  injective; clients may present any value. A claim is one step at the moment
  its code is checked, although creating the account session under the lock
  takes time.
* A double is its bit pattern. JSON numbers are integers or doubles, objects are
  lists of entries with distinct keys, and the encoder is a parameter that may
  fail. Array indices are unbounded.
* The lock registry's mutex is modelled by the phase between the sweep and the
  lookup, during which guards may be dropped but no other call may enter.

## Model

| member | source | states |
|---|---|---|
| `TerminalLoss.NoSessionLostOrShared` | frontend/src/terminal/TerminalRuntimeProvider.tsx:291-880 | over every interleaving of starts, fallbacks, restarts, tab, conversation and whole closings, with calls that resolve or reject whatever the server did: an open session is the session of exactly one live tab entry or held by exactly one start in flight, if and only if its create did not reject after making it and no close call left it open as its owner went |
| `TerminalLoss.LostForever` | frontend/src/terminal/TerminalRuntimeProvider.tsx:291-880 | a session that lost its owner is never known to an entry or a start again, in any run |
| `TerminalLoss.OwnedUnlessAbandoned` | frontend/src/terminal/TerminalRuntimeProvider.tsx:291-880 | in runs whose close calls close what they were asked to, an open session has exactly one owner if and only if its create call did not reject after making it |
| `TerminalLoss.RejectedCreateLosesSession` | frontend/src/terminal/wsTransport.ts:192-206 | a create call that rejects once the server has made its session, as when `socket.ready` rejects after the POST, leaves that session open, and in every continuation no entry and no start knows it |
| `TerminalSafety.NextKeeps` | frontend/src/terminal/TerminalRuntimeProvider.tsx:291-880 | no step, taken from any state that satisfies the invariant, breaks it |
| `TerminalLoss.CloseAllLeavesNothingOpen` | frontend/src/terminal/TerminalRuntimeProvider.tsx:827-880 | when closing everything has ended no tab entry and no start is left and whatever is open is lost; if the close calls worked it is a session of a rejected create, and nothing is open exactly when none of those is |
| `TerminalLoss.ClosingMissesLost` | frontend/src/terminal/wsTransport.ts:192-235 | a concrete run in which all close calls work and yet a session stays open after everything was closed: its create rejected after making it |
| `TerminalSafety.ClosedConversationIsGone` | frontend/src/terminal/TerminalRuntimeProvider.tsx:785-825 | when a conversation's closing reaches its `finally`, no entry and no start of the conversation exists |
| `TerminalSafety.OutdatedForever` | frontend/src/terminal/TerminalRuntimeProvider.tsx:291-302 | a generation a tab has moved past never becomes current again, in any run |
| `TerminalSafety.OutdatedChangesNothing` | frontend/src/terminal/TerminalRuntimeProvider.tsx:338-498 | after any further run, an event of an outdated generation changes nothing, and an outdated start neither touches an entry or the output nor keeps its session: it turns it over to be closed |
| `TerminalSafety.InterruptionsOutdate` | frontend/src/terminal/TerminalRuntimeProvider.tsx:649-780 | closing a tab, restarting it and closing everything each outdate every start in flight they concern |
| `TerminalRuntime.Runtime.DoConversationRuns` | frontend/src/terminal/TerminalRuntimeProvider.tsx:792-803 | closing a conversation closes each of its listed tabs in turn and waits for exactly those closings |
| `TerminalRuntime.Runtime.DoCloseAll` | frontend/src/terminal/TerminalRuntimeProvider.tsx:827-834 | the loop over the entries gives every live entry a generation no start carries, before the transport is asked |
| `TerminalRuntime.Runtime.DoAllReturns` | frontend/src/terminal/TerminalRuntimeProvider.tsx:836-869 | what the two `transport.closeAll` calls did not close is on record; the second clears the output channel of every live entry, one by one, and empties the tables |
| `TerminalTrace.ChannelGetsItsLedger` | frontend/src/terminal/TerminalRuntimeProvider.tsx:376-405 | over every run each output channel gets exactly the operations read off the actions, in order: the bytes of the events that arrive while nothing is closing and carry their tab's current generation, a drop when a start falls back, a clearing when its entry is closed, and nothing else |
| `TerminalTrace.ViewHearsItsTab` | frontend/src/terminal/TerminalRuntimeProvider.tsx:110-162 | a view that subscribes to a tab's channel at any moment of any run hears the last 256 KiB of those bytes since the last fallback and then all later ones, in order |
| `TerminalTrace.TabShowsWhatIsTold` | frontend/src/terminal/TerminalRuntimeProvider.tsx:338-869 | in every reachable state each action moves a tab's entry exactly as told from the action and the guards: an exit shows exited, a fault or a rejected call failed, a returned session running, a closing or a restart a new generation, and every other action nothing |
| `TerminalTrace.OpeningEnds` | frontend/src/terminal/TerminalRuntimeProvider.tsx:407-498 | an opened tab whose call returns runs with the session the server made, and its start is over |
| `TerminalTrace.OvertakenStartEnds` | frontend/src/terminal/TerminalRuntimeProvider.tsx:407-498 | an overtaken start makes no call, or closes the session it was given and goes |
| `TerminalTrace.FallbackBegins` | frontend/src/terminal/TerminalRuntimeProvider.tsx:432-459 | a rejected call that asked for another directory starts once more, on the same channel and without a further fallback |
| `TerminalTrace.ClosingCalls` | frontend/src/terminal/TerminalRuntimeProvider.tsx:649-712 | once no start of the tab is in flight, the closing asks the server for exactly the captured entry's session, or is over when there is none |
| `TerminalTrace.RestartStarts` | frontend/src/terminal/TerminalRuntimeProvider.tsx:714-783 | a restart whose close call resolved while it still holds the tab starts anew on the same channel |
| `TerminalTrace.ConversationEnds` | frontend/src/terminal/TerminalRuntimeProvider.tsx:785-825 | a conversation's closing ends exactly once the closings it waits for have |
| `TerminalTrace.ClosingAllEnds` | frontend/src/terminal/TerminalRuntimeProvider.tsx:827-880 | closing everything calls the transport twice, empties the tables and then admits work again |
| `OutputChannel.Channel.Dispatch` | frontend/src/terminal/TerminalRuntimeProvider.tsx:132-162 | output goes to every listener, or into the buffer, which stays the last 256 KiB of what was output, with `bufferedBytes` its length |
| `OutputChannel.Channel.TrimOverflow` | frontend/src/terminal/TerminalRuntimeProvider.tsx:148-161 | shifting and cutting the front chunks leaves exactly the suffix |
| `OutputChannel.Channel.Replay` | frontend/src/terminal/TerminalRuntimeProvider.tsx:882-903 | the loop hands the first subscriber every kept chunk in order |
| `OutputChannel.BeforeAnyListener` | frontend/src/terminal/TerminalRuntimeProvider.tsx:132-162 | before any subscriber nobody has heard anything; until the channel is cleared it keeps what was output since the last fallback dropped the buffer |
| `OutputChannel.FirstListenerHearsAll` | frontend/src/terminal/TerminalRuntimeProvider.tsx:118-162 | with drops and clearings in the run: the first listener hears exactly the last 256 KiB of what was output since the last drop, none of it once the channel was cleared, and then all later output, in order, nothing lost or repeated |
| `OutputChannel.GoneHearsNothing` | frontend/src/terminal/TerminalRuntimeProvider.tsx:110-162 | a listener that unsubscribed, or whose channel was cleared, hears nothing more until it subscribes again |
| `Utf16.ToWellFormedUnicode` | frontend/src/terminal/encoding.ts:69-95 | the loop computes the text with every lone surrogate replaced by U+FFFD and everything else in place |
| `Utf16.RepairedIsWellFormed` | frontend/src/terminal/encoding.ts:69-95 | the repaired text has the same length, is well-formed, and is the input exactly when that was well-formed; repairing is idempotent |
| `Utf16.Utf8CodePointSize` | frontend/src/terminal/encoding.ts:55-66 | the size function returns the code units of the character at an index and its UTF-8 length (section 3 of RFC 3629) |
| `Utf16.Utf8InputChunks` | frontend/src/terminal/encoding.ts:97-118 | for every text, and with the non-advancing `continue`, the loop ends with chunks that spell the text, have at most 16384 UTF-8 bytes, split no surrogate pair and are each as long as possible |
| `Utf16.GreedyIsShortest` | frontend/src/terminal/encoding.ts:97-118 | no other admissible chunking of the text uses fewer chunks |
| `Base64.DecodeBase64` | frontend/src/terminal/encoding.ts:13-40 | the decoder accepts exactly the texts of full, partial and padded groups described by `Accepts`, and returns byte by byte what the groups encode |
| `Base64.EncodingDecodes` | frontend/src/terminal/encoding.ts:13-40 | the encoding of section 4 of RFC 4648, padded or not, is accepted and decodes to the bytes, length included |
| `Base64.DecodeInvertsEncode` | frontend/src/terminal/encoding.ts:13-40 | so does that encoding, padded or not, with white space inserted at any positions |
| `SocketSafety.DeliveredIsLogSegments` | frontend/src/terminal/wsTransport.ts:41-101 | over every run of connects, drops, replays and stale sockets, the log events delivered are those accepted before the first authentication and then those from the cursor it fixed to the current one, each segment in order and without gaps or repetition |
| `SocketSafety.ContiguousIff` | frontend/src/terminal/wsTransport.ts:60-84 | that is one contiguous segment up to the cursor exactly when the first authentication did not move the cursor away from events already accepted |
| `SocketSafety.AuthenticatedFirst` | frontend/src/terminal/wsTransport.ts:60-84 | when a server sends no output before its first `authenticated` frame, the delivered events are always the one contiguous segment from the fixed cursor to the current one |
| `SocketSafety.AcceptedEarlyTwice` | frontend/src/terminal/wsTransport.ts:63-82 | a concrete run in which an event is delivered twice because it was accepted before authentication moved the cursor back |
| `SocketSafety.NothingAfterTheEnd` | frontend/src/terminal/wsTransport.ts:76-91 | after an exit, a server error, an undecodable event, a gap, garbage or a stop, nothing is delivered or sent any more in any continuation |
| `SocketSafety.StaleForever` | frontend/src/terminal/wsTransport.ts:51-52 | a late ticket, frame, failure or close of a superseded connection changes nothing, forever |
| `SocketSafety.SupersededForever` | frontend/src/terminal/wsTransport.ts:135-178 | once a connection is lost, stopped, reconnected or retried, none of its handlers changes anything any more, whatever happens in between |
| `SocketTrace.DeliveredIsLedger` | frontend/src/terminal/wsTransport.ts:51-161 | over every run the caller is told exactly what the actions say, in order: the next readable event, the lease after every authentication, lease frame and loss, a failure for every frame or connection that ends the session, and nothing by a stale handler |
| `SocketTrace.CursorIsFarthest` | frontend/src/terminal/wsTransport.ts:76-83 | from the first authentication on, every number past the start that the cursor reached was heard over the connection of that moment, and every readable number heard was reached, unless a failure was reported |
| `SocketTrace.FirstAuthenticationStarts` | frontend/src/terminal/wsTransport.ts:60-66 | the first authentication fixes where the output starts: in every continuation the events told since are the ones after the number it named |
| `SocketTrace.LossMissesNothing` | frontend/src/terminal/wsTransport.ts:135-156 | however a connection is lost, once the next one is authenticated and the server replays from anywhere up to the cursor, the caller has been told every event once, and that it could not and now can write |
| `SocketTrace.EndsIff` | frontend/src/terminal/wsTransport.ts:51-178 | a session ends exactly with a stop, a changed account, a refused connection, or a frame of the current connection that ends it |
| `SocketTrace.ConnectionFollows` | frontend/src/terminal/wsTransport.ts:41-156 | in a session that goes on, the connection is open from its ticket to its loss, the lease is what the server said last, and each loss schedules one retry under a new epoch |
| `SocketWrites.InputInCallOrder` | frontend/src/terminal/wsTransport.ts:207-221 | the input frames on the wire are, write by write in call order, a prefix of that write's chunks, all in the connection epoch of the call, none twice and none interleaved |
| `SocketWrites.SendsWhileConnected` | frontend/src/terminal/wsTransport.ts:108-122 | an input frame leaves only over a live connection that holds the lease, in the epoch its write was called in, and is the next chunk of the first unfinished write |
| `SocketWrites.ResolvedWasAcknowledged` | frontend/src/terminal/wsTransport.ts:112-134 | a resolved write had all its chunks sent and each one's request acknowledged, over the connection live at that moment |
| `SocketWrites.SuccessWasAcknowledged` | frontend/src/terminal/wsTransport.ts:127-134 | a request succeeds only through an acknowledgement that arrived while it was pending |
| `SocketFate.AnsweredIff` | frontend/src/terminal/wsTransport.ts:84-134 | over every run a request has succeeded if and only if its acknowledgement arrived over the live connection while it was pending; a rejected one was never acknowledged that way |
| `SocketFate.RequestFate` | frontend/src/terminal/wsTransport.ts:112-178 | in every step a pending request succeeds exactly with its acknowledgement, fails exactly with its timeout, its error or the loss or end of the connection, and otherwise stays pending |
| `SocketFate.WriteResolvesIff` | frontend/src/terminal/wsTransport.ts:207-221 | over every run a finished write resolved if and only if all its chunks were sent and acknowledged: such a write is never rejected |
| `SocketFate.AcknowledgedResolves` | frontend/src/terminal/wsTransport.ts:207-221 | a running write all of whose chunks were acknowledged has resolved after two more of its continuations, whatever else happens before, between and after them |
| `SocketFate.InputGoesThrough` | frontend/src/terminal/wsTransport.ts:108-122 | on a connected session with the lease and no write waiting, a call whose chunks are acknowledged puts exactly those chunks on the wire, in order, and resolves |
| `SocketFate.WriteContinues` | frontend/src/terminal/wsTransport.ts:112-122 | a continuation of the running write sends exactly when the epoch, the lease, the 128 slots and the connection allow it, and rejects exactly when they do not or its request was rejected |
| `TerminalSocket.TerminalSocket.RejectPending` | frontend/src/terminal/wsTransport.ts:142 | the loop over the pending commands rejects exactly those |
| `HttpCursor.ExactlyOnce` | frontend/src/terminal/httpTransport.ts:127-247 | over every run of responses, messages, drops, recoveries and stops the delivered log events are one contiguous segment up to the newest stream's cursor, starting at the cursor the first response fixed or, when that is no number, with the first event; every older stream is aborted |
| `HttpCursor.StartsAtZero` | frontend/src/terminal/httpTransport.ts:140-206 | a stream that has nothing to repaint delivers that segment from the beginning of the log |
| `HttpCursor.EndEndsForGood` | frontend/src/terminal/httpTransport.ts:207-225 | after an exit, a server error, a gap or an unusable id nothing is delivered by any stream in any continuation |
| `HttpTrace.DeliveredIsLedger` | frontend/src/terminal/httpTransport.ts:191-241 | over every run the caller is told exactly what the actions say, in order: control by every accepted response, a failure by every refused one and every unusable or gapped message, the event by every readable message numbered one past the cursor, and nothing else |
| `HttpTrace.CursorIsFarthest` | frontend/src/terminal/httpTransport.ts:207-225 | every number past the start that the cursor reached was received by the newest open, unaborted stream, and every readable number received that way was reached, unless a failure was reported |
| `HttpTrace.NextIsTold` | frontend/src/terminal/httpTransport.ts:216-225 | a readable event numbered one past the cursor is told and moves the cursor to it; an exit or an error then ends the session |
| `HttpTrace.LossMissesNothing` | frontend/src/terminal/httpTransport.ts:148-156 | a connection that breaks or is recovered misses nothing: once the next request is accepted and the server replays from anywhere up to the cursor, every event was told once |
| `HttpTrace.RepaintStartsAtHeader` | frontend/src/terminal/httpTransport.ts:191-206 | a repainting session starts at the number its first accepted response names, or at 0 when it names none: in every continuation the events told are the ones after it, up to the cursor |
| `HttpTrace.EndsIff` | frontend/src/terminal/httpTransport.ts:191-247 | a session ends exactly with a stop, a refused response, or a message of the open connection that ends it |
| `MessageList.MergeWalk` | frontend/src/stores/messageStore.ts:757-781 | the walk with its moving cursor emits the ids of the recursive walk; for duplicate-free lists a fetched row with a `seq` as fetched, one without as the local row of its id when there is one, and a local-only row as the local row |
| `MessageList.MergeIsUnion` | frontend/src/stores/messageStore.ts:757-781 | for duplicate-free lists: every id of either list exactly once, fetched rows in server order, local-only rows in local order |
| `MessageList.LocalOrderIff` | frontend/src/stores/messageStore.ts:757-781 | the local rows keep their local order exactly when both lists agree on the order of the ids they share |
| `MessageList.MergeHistoryIntoLocal` | frontend/src/stores/messageStore.ts:757-781 | for duplicate-free lists the merged list shows a fetched row with a `seq` as fetched, one without as the local row of its id when there is one and otherwise as fetched, and a local-only row as the local row; each id of the union once, sorted numbered rows; an empty local list returns the history as it is |
| `MessageList.OrderIsStableInPlace` | frontend/src/stores/messageStore.ts:783-789 | ordering permutes only numerically sequenced rows among their own slots, sorts them stably, and fixes every other position |
| `MessageList.OrderIsIdempotent` | frontend/src/stores/messageStore.ts:783-789 | ordering twice changes nothing |
| `MessageList.UpsertShows` | frontend/src/stores/messageStore.ts:792-797 | upserting keeps ids distinct, changes no other row, and never replaces a numbered row by an unnumbered one |
| `MessageList.UpsertAppends` | frontend/src/stores/messageStore.ts:792-794 | a new unnumbered message goes to the end |
| `Timeline.SegmentsSpellSpeech` | frontend/src/stores/messageStore.ts:705-742 | whatever edits interleave, an agent's open segments join to what it said since it last completed or fell silent |
| `Timeline.TextGrows` | frontend/src/stores/messageStore.ts:705-742 | a delta lands at the end of its agent's text and leaves every other agent's text alone |
| `Timeline.ReasoningKeepsText` | frontend/src/stores/messageStore.ts:686-702 | closing a reasoning block changes no agent's text |
| `Timeline.FinalizedText` | frontend/src/stores/messageStore.ts:1390-1469 | finalizing closes all of the agent's segments and none of another agent's |
| `Timeline.FinalizedShows` | frontend/src/stores/messageStore.ts:1406-1430 | when no other open segment shares the last one's id, the segments then show exactly the message if and only if the earlier segments already showed its beginning |
| `Timeline.DistinctMakesUnique` | frontend/src/stores/messageStore.ts:1406-1430 | distinct draft ids suffice for that |
| `Timeline.DraftIdsDistinctIff` | frontend/src/stores/messageStore.ts:729-742 | over any run, silent agents included, an agent's draft ids are distinct at every moment exactly when no delta opened a segment under an id one of its drafts still had |
| `Timeline.DraftIdsStayDistinct` | frontend/src/stores/messageStore.ts:729-742 | in runs without a silent agent every draft keeps the index it was opened at, so draft ids stay distinct |
| `Timeline.ClearedIdsCollide` | frontend/src/stores/messageStore.ts:1364-1388 | a concrete run in which clearing drafts makes two segments share an id and finalizing writes the end of the message into both |
| `Timeline.SpeechLands` | frontend/src/stores/messageStore.ts:705-742 | a text delta is appended to the agent's open segment at the end or opens one there, closes the agent's latest reasoning block, and touches nothing else |
| `Timeline.CompletedStands` | frontend/src/stores/messageStore.ts:1390-1469 | an agent without open segments gets its whole message as one final event |
| `Timeline.OnlyOpenDraftsGo` | frontend/src/stores/messageStore.ts:1364-1388 | clearing removes exactly the agent's open segments |
| `RunTable.NextCoherent` | frontend/src/stores/messageStore.ts:831-1952 | under every action the order list is a duplicate-free enumeration of exactly the runs |
| `RunTable.PrunedKeepsLatest` | frontend/src/stores/messageStore.ts:799-825 | pruning keeps every active run unchanged and exactly the latest twelve finished ones in order, and leaves no message linked to a run it removed |
| `RunTable.StartedIsKept` | frontend/src/stores/messageStore.ts:1181-1220 | starting a run keeps that run, links its message to it, and bounds the finished runs |
| `RunTable.FrozenStatusKept` | frontend/src/stores/messageStore.ts:621-628 | a scheduler status that accepts no events is changed by no action but reconciliation while the run is kept |
| `RunTable.TurnFixedIff` | frontend/src/stores/messageStore.ts:1669-1719 | no action changes a run's turn id exactly when the id is not the empty string or the run is retired |
| `TurnFate.EndIsRecorded` | frontend/src/stores/messageStore.ts:1669-1719 | an accepted end of a turn leaves its run with that status, that reason and that turn, whatever it was before, shows the status's run status, and changes no other run |
| `TurnFate.EndedTurnIsClosed` | frontend/src/stores/messageStore.ts:621-628 | after an end that is not pending, running or waiting the run accepts exactly `done` and the repeated completion of its turn, and no event of the stream passes the gate |
| `TurnFate.EndedTurnStays` | frontend/src/stores/messageStore.ts:1669-1719 | that status stays and the gate stays closed under every run of actions without reconciliation, while the run is kept |
| `TurnFate.AcceptedIff` | frontend/src/stores/messageStore.ts:1669-1694 | an update is accepted exactly when it is for the stream and its turn, the run is not retired, and the turn goes on or the update is `done` or repeats its completion |
| `TurnFate.ReconciledIff` | frontend/src/stores/messageStore.ts:1749-1789 | reconciliation gives the server's status and reason to exactly the runs of the turn |
| `TurnFate.EndsAreRecorded` | frontend/src/stores/messageStore.ts:1866-1952 | an error and a cancellation end the run and say so last; a cancellation leaves a turn that is over alone |
| `RunStore.CloseReasoning` | frontend/src/stores/messageStore.ts:686-702 | the backward loop closes the latest reasoning block of the agent and nothing else |
| `RunStore.CancelEach` | frontend/src/stores/messageStore.ts:1898-1952 | the loop cancels the named runs one after another, skipping fenced turns, as the step says |
| `RunStore.RunStore.MarkStreamRunCancelled` | frontend/src/stores/messageStore.ts:1898-1952 | cancelling updates the three tables as the step says and keeps them coherent |
| `StreamHook.FinishedTimelineFixed` | frontend/src/hooks/useSendMessageStream.ts:728-1048 | once a turn is finished, any further events of any streams leave its kept run's timeline as it is except for at most one `done` marker |
| `StreamHook.BubbleIsSegments` | frontend/src/hooks/useSendMessageStream.ts:728-1048 | for any agent, any streams and any events, nameless messages, errors and pruning included: an agent's in-flight bubble equals its joined open segments at every moment of a run if and only if none of its events disturbs them |
| `StreamHook.EventAgreesIff` | frontend/src/hooks/useSendMessageStream.ts:728-1048 | one event makes them disagree exactly when something was open and it is an error of a run it does not prune, a nameless message touching the agent, or is about to prune the run |
| `StreamHook.PrunesIff` | frontend/src/stores/messageStore.ts:799-825 | an event prunes a run if and only if it starts a run, or makes one done or errored, and the run is then among the finished ones past the latest twelve: a guard on the table before the event |
| `StreamHook.PruningDisturbsIff` | frontend/src/stores/messageStore.ts:799-825 | pruning, by the end or the start of any run, leaves the bubble: they agree afterwards exactly when nothing was open |
| `StreamHook.RevivedRunDisagrees` | frontend/src/stores/messageStore.ts:705-742 | a token that brings a pruned run back leaves the segments showing the token alone and the bubble the old text before it |
| `StreamHook.ErrorDisturbsIff` | frontend/src/hooks/useSendMessageStream.ts:1018-1028 | a stream error drops the bubble and leaves the segments: they agree afterwards exactly when nothing was open or marking the error is about to prune the run |
| `StreamHook.NamelessDisturbsIff` | frontend/src/hooks/useSendMessageStream.ts:839-855 | a message without a sender closes the segments of one fallback name and drops the bubble of the other: for either, they agree afterwards exactly when nothing was open |
| `TurnFate.TimelineIsWritten` | frontend/src/hooks/useSendMessageStream.ts:728-1048 | over any events of any streams the timeline of every run is exactly what the events that its stream listened to have written since it was last pruned, in order |
| `TurnFate.StatusMoves` | frontend/src/hooks/useSendMessageStream.ts:728-1048 | a turn's status moves with accepted scheduler updates and with a notice that it waits for the user, and with no other event |
| `QueuedMessages.QueueConserves` | frontend/src/stores/queuedMessagesStore.ts:45-94 | per key, delivered inputs, then the one in flight, then the queue are exactly what was enqueued since the last clear, however often dispatches are retried |
| `QueuedMessages.LateFinishIgnored` | frontend/src/stores/queuedMessagesStore.ts:79-94 | a release that was finished or cleared can never be finished again, restore its input or unlock a later release |
| `QueuedMessages.OutdatedForever` | frontend/src/stores/queuedMessagesStore.ts:79-94 | an outdated dispatch stays outdated and its finish changes nothing |
| `QueuedMessages.QueueIsTold` | frontend/src/stores/queuedMessagesStore.ts:45-94 | over every run a key's deliveries, release and queue are what the actions say: a finished release is delivered unless it is retried, a retried one goes back to the front |
| `QueuedMessages.ReleasedIff` | frontend/src/stores/queuedMessagesStore.ts:56-77 | an input is released exactly when the queue has one and no release is in flight, and it is the first |
| `QueueKey.KeyIsInjective` | frontend/src/stores/queuedMessagesStore.ts:16-24 | distinct send targets never share a key, lone surrogates, quotes and control characters included |
| `QueueKey.QuoteReads` | frontend/src/stores/queuedMessagesStore.ts:23 | reading a quoted string back gives the string and what follows it |
| `Framing.WireInverts` | mobile-link/src/lib.rs:241-256 | reading a wire frame inverts writing it, in front of anything |
| `Framing.WireIsWritten` | mobile-link/src/lib.rs:241-256 | what can be read at all is exactly what writing produces |
| `Framing.FrameRoundTrip` | mobile-link/src/lib.rs:272-303 | every frame a sender accepts has 1 to 32769 plaintext bytes, fits sealed into the u16 prefix and the 65535-byte limit (section 3 of the Noise Protocol Framework), and is received as sent |
| `Framing.UploadRoundTrip` | mobile-link/src/server.rs:856-868 | the server rebuilds exactly the bytes sent for every body up to 32 MiB and refuses every larger one |
| `Framing.AcceptedBodyBounded` | mobile-link/src/server.rs:863-867 | whatever is received, an accepted body respects the bound |
| `Framing.ResponseRoundTrip` | android/src-tauri/src/lan.rs:140-166 | for every response and every placement of heartbeats the phone's reads join to exactly the response |
| `Framing.UploadBound` | android/src-tauri/src/lan.rs:115-117 | the bound on the encoded text admits every legal body and exactly two more lengths |
| `Framing.Sender.SendBody` | mobile-link/src/lib.rs:375-395 | the chunk loop sends the data frames of the body and the end marker, or nothing for an oversized body |
| `Framing.Receiver.ReceiveBody` | mobile-link/src/server.rs:856-868 | the body loop returns what the specification reads |
| `Framing.Receiver.ReadChunk` | android/src-tauri/src/lan.rs:145-166 | the read loop skips heartbeats until data or the end |
| `Pairing.AlwaysConsistent` | mobile-link/src/server.rs:511-529 | over every run from a loaded file: disk equals memory at every lock release even when a save fails, at most 32 devices, active devices are stored ones, and no live connection of any other |
| `Pairing.ClaimedOnce` | mobile-link/src/server.rs:680-722 | offers are distinct, each is claimed at most once, and only before it expired |
| `Pairing.NoClaimAfterwards` | mobile-link/src/server.rs:734-751 | after an offer's rotation, expiry, claim or a stop, its code is never accepted again in any continuation |
| `Pairing.EndedOfferRefuses` | mobile-link/src/server.rs:638-751 | a stop, the offer's timer, a new offer, a claim and the passing of its time each end an offer for good: its code is refused in every continuation |
| `Pairing.RevokedForever` | mobile-link/src/server.rs:723-733 | a revoked device is never stored or active again and every connection it had is cancelled |
| `Pairing.RevokedCredential` | mobile-link/src/server.rs:790-802 | the credential of a revoked device never logs in again |
| `Pairing.NextKeeps` | mobile-link/src/server.rs:638-814 | no action breaks the invariant |
| `Pairing.LoginConnects` | mobile-link/src/server.rs:790-802 | a credential connects exactly the stored device it belongs to |
| `Pairing.UnknownIsRefused` | mobile-link/src/server.rs:790-802 | a credential of no stored device changes nothing |
| `Pairing.ClaimPairsIff` | mobile-link/src/server.rs:734-789 | a claim stores and connects a new device exactly when its code is the pending offer's, in time, there is room, and the session and the file could be written |
| `Pairing.PairingSucceeds` | mobile-link/src/server.rs:649-802 | sharing starts, an offer is made, its code is claimed within two minutes: the device is stored, and the credential it gets logs it in |
| `Pairing.RevokesOnly` | mobile-link/src/server.rs:723-733 | a saved revocation removes its device and connection and no other; a failed one changes nothing |
| `CanonicalJson.VariantsAreProduct` | backend-rs/crates/backend/src/canonical_json.rs:29-87 | the variants are the encodings of the sorted value with each float independently replaced by each of its readings, exactly those choices, each once, at most 7^k, the exact value among them |
| `CanonicalJson.ReadingsAre` | backend-rs/crates/backend/src/canonical_json.rs:70-78 | the readings of a double are exactly the finite doubles of its sign within three of its bit pattern, at most seven |
| `CanonicalJson.Enumerator.Vary` | backend-rs/crates/backend/src/canonical_json.rs:60-87 | varying in place pushes the encodings of all choices in order and restores the working value |
| `CanonicalJson.LegacyVariants` | backend-rs/crates/backend/src/canonical_json.rs:29-40 | `None` exactly past three floats, otherwise the encodings of all choices |
| `CanonicalJson.PointerIsFloat` | backend-rs/crates/backend/src/canonical_json.rs:42-58 | the collected pointer of each float reads and writes that float and no other, whatever the others hold |
| `CanonicalJson.PutFloat` | backend-rs/crates/backend/src/canonical_json.rs:67-86 | a float written through a pointer is read back, only the last write counts, and writing the old value restores everything |
| `CanonicalJson.SortedIsCanonical` | backend-rs/crates/backend/src/canonical_json.rs:5-11 | sorting lists every object's keys in ascending order and keeps keys distinct |
| `CanonicalJson.KeyLessIsLexicographic` | backend-rs/crates/backend/src/canonical_json.rs:5-11 | a key comes before another exactly when it is a proper prefix of it or smaller at the first difference |
| `CanonicalJson.SortedAlikeIff` | backend-rs/crates/backend/src/canonical_json.rs:5-11 | two values sort to the same one exactly when they are the same up to the order of keys at every level |
| `CanonicalJson.SortedIsEquiv` | backend-rs/crates/backend/src/canonical_json.rs:5-11 | the sorted value is the value up to the order of keys, and sorting again changes nothing |
| `JsonPointer.Collected` | backend-rs/crates/backend/src/canonical_json.rs:42-58 | every collected pointer parses to the token path of its float |
| `JsonPointer.UnescapeInverts` | backend-rs/crates/backend/src/canonical_json.rs:52-53 | unescaping a token inverts the escaping of a key (sections 3 and 4 of RFC 6901) |
| `JsonPointer.FindOwnKid` | backend-rs/crates/backend/src/canonical_json.rs:46-55 | the token written for a child finds that child, in arrays and in objects with distinct keys |
| `JsonPointer.PathReads` | backend-rs/crates/backend/src/canonical_json.rs:67-69 | the path of the k-th float leads to the k-th float |
| `JsonPointer.PathWrites` | backend-rs/crates/backend/src/canonical_json.rs:79-81 | assigning at the path of the k-th float replaces exactly that float |
| `LockRegistry.MutualExclusion` | backend-rs/crates/backend/src/computers.rs:111-121 | in every interleaving all live holders and waiters of an id share one mutex, different ids never do, and two guards of one id never coexist |
| `LockRegistry.RegistryIsLive` | backend-rs/crates/backend/src/computers.rs:113-119 | after a call the registry holds only its id and ids some call held or waited for when it swept |
| `LockRegistry.GrantedIff` | backend-rs/crates/backend/src/computers.rs:119-120 | over every interleaving a waiting call gets the guard exactly when no other call of its id holds one; the locks of other ids never stand in the way |
| `LockRegistry.HandsOver` | backend-rs/crates/backend/src/computers.rs:119-120 | once the holder's guard is dropped any call that waits for the id can have it |

## Left out

- React rendering, hooks wiring, routing, translations, query-cache updates, activity notifications and tool-activity lists.
- `attach`, tab metadata beyond the `saved` flag, resizing, the `inputEnabled` flag, exit codes and error texts, and the dock in the terminal runtime.
- Lease renewal, heartbeats, retry delays and reconnection timing; the WebSocket `resize`, `close` and lease commands appear only as other commands that occupy request slots.
- The HTTP transport's leases and its write path, which is the WebSocket's scheme over POST requests.
- Scheduler summaries, display names, timestamps and the approval outcome of notices (`resolveStreamApproval` rewrites events in place and leaves every table as it is).
- Actions on the message list other than merging, ordering and upserting, among them `prependHistory` and `settleOptimisticUserMessage`.
- RunTable.PrunedKeepsLatest: says nothing about index entries of runs that `removeMessage` deleted, since the code keeps a second message's entry for such a run.
- Resumed streams, cancellation and the retry logic of the send hook.
- Key exchange, cryptography, endpoint parsing, interface selection and the HTTP proxying of the mobile link; crashes between writing and renaming the state file.
- Pairing.NoClaimAfterwards: time is compared when the code is checked, so a claim whose account session is still being created may finish shortly after the offer's time.
- The text of JSON encodings: the encoder is a parameter, and so is its failure.
- CanonicalJson.SortedIsCanonical: keys are compared character by character, as the byte order of UTF-8 does for well-formed text.
- The Supervisor's requests, containers and SQL reservations.
