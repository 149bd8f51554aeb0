/**
 The client side of one terminal session over a WebSocket: output frames are
 numbered and replayed after a reconnect, input is sent at most once. One step
 per handler, timer or promise continuation.
 */
module SocketState {
  import opened Prelude
  import opened Utf16

  type Request = nat

  /** What the server logged under each number; `Unreadable` bytes do not decode. */
  datatype WireEvent = Output | Exit | Error | Unreadable

  datatype Frame =
    | Hello(supported: bool)
    | Authenticated(from: Option<nat>, lease: Option<nat>)
    | Lease(lease: Option<nat>, request: Option<Request>)
    | Ping
    | OutputFrame(number: int)
    | Ack(request: Option<Request>)
    | ErrorFrame(request: Option<Request>)
    | Garbage

  /** Calls of `onEvent`; `Wire` carries the position of the event in the log. */
  datatype Delivery = Wire(position: nat) | Control(writable: bool) | Failure

  /** One `write`: the epoch it was called in, its chunks, how many are confirmed,
      the request it waits for, and the requests of the chunks it sent. */
  datatype Write = Write(
    epoch: nat,
    chunks: seq<Text>,
    confirmed: nat,
    waiting: Option<Request>,
    requests: seq<Request>,
    result: Option<bool>)

  /** An input frame on the wire: which chunk of which write, in which epoch, under which request. */
  datatype Sent = Sent(write: nat, chunk: nat, epoch: nat, request: Request, text: Text)

  datatype Socket = Socket(
    epoch: nat,
    connected: bool,
    timer: bool,
    stopped: bool,
    lease: Option<nat>,
    cursor: nat,
    hasConnected: bool,
    pending: set<Request>,
    settled: map<Request, bool>,
    nextRequest: Request,
    writes: seq<Write>,
    // What has been observed: events delivered, input frames sent, the number
    // the first authentication fixed, and the events delivered before it.
    delivered: seq<Delivery>,
    sent: seq<Sent>,
    start: nat,
    early: nat)

  const CREATED := Socket(1, false, false, false, None, 0, false, {}, map[], 0, [], [], [], 0, 0)

  function Deliver(s: Socket, d: Delivery): Socket {
    s.(delivered := s.delivered + [d])
  }

  function SetControl(s: Socket, lease: Option<nat>): Socket {
    Deliver(s.(lease := lease), Control(lease.Some?))
  }

  function Settle(s: Socket, r: Request, ok: bool): Socket {
    if r in s.pending then s.(pending := s.pending - {r}, settled := s.settled[r := ok]) else s
  }

  function RejectAll(s: Socket): Socket {
    s.(pending := {},
       settled := map r | r in s.settled.Keys + s.pending :: if r in s.pending then false else s.settled[r])
  }

  /** `stop`; aborting the controller runs it a second time. */
  function StopOnce(s: Socket): Socket {
    RejectAll(s.(epoch := s.epoch + 1, connected := false, timer := false, lease := None, stopped := true))
  }

  function Stop(s: Socket): Socket {
    if s.stopped then StopOnce(s) else StopOnce(StopOnce(s))
  }

  /** The account changed: the controller is aborted, which runs `stop`. */
  function Abort(s: Socket): Socket {
    if s.stopped then s else StopOnce(s)
  }

  function Fail(s: Socket): Socket {
    Stop(Deliver(s, Failure))
  }

  function Disconnected(s: Socket): Socket {
    var s1 := RejectAll(s.(epoch := s.epoch + 1, connected := false));
    if s.stopped then s1 else SetControl(s1, None).(timer := true)
  }

  function Connect(s: Socket): Socket {
    s.(epoch := s.epoch + 1)
  }

  function TimerFires(s: Socket): Socket {
    if s.timer then Connect(s.(timer := false)) else s
  }

  function Reconnect(s: Socket): Socket {
    if s.stopped then s else Connect(Disconnected(s.(epoch := s.epoch + 1)).(timer := false))
  }

  /** The ticket of connection attempt `epoch` arrived. */
  function Opened(s: Socket, epoch: nat): Socket {
    if s.stopped || epoch != s.epoch then s else s.(connected := true)
  }

  function ConnectFailed(s: Socket, epoch: nat, fatal: bool): Socket {
    if s.stopped || epoch != s.epoch then s else if fatal then Fail(s) else Disconnected(s)
  }

  function SocketClosed(s: Socket, epoch: nat): Socket {
    if epoch == s.epoch then Disconnected(s) else s
  }

  function FirstAuthentication(s: Socket, from: Option<nat>): Socket {
    if s.hasConnected then s
    else
      var cursor := if from.Some? then from.value else s.cursor;
      s.(cursor := cursor, hasConnected := true, start := cursor)
  }

  /** Delivers the next event; before the first authentication that also moves the start. */
  function Accept(s: Socket): Socket {
    Deliver(s, Wire(s.cursor)).(
      cursor := s.cursor + 1,
      start := if s.hasConnected then s.start else s.cursor + 1,
      early := if s.hasConnected then s.early else s.cursor + 1)
  }

  /** An output frame for the live connection. */
  function OnOutput(s: Socket, log: nat -> WireEvent, number: int): Socket {
    if number <= s.cursor then s
    else if number != s.cursor + 1 then Fail(s)
    else if log(s.cursor).Unreadable? then Fail(s)
    else if log(s.cursor).Output? then Accept(s)
    else Stop(Accept(s))
  }

  function SettleSome(s: Socket, r: Option<Request>, ok: bool): Socket {
    if r.Some? then Settle(s, r.value, ok) else s
  }

  /** `onmessage` of the socket opened in `epoch`; `sendable` says whether a reply can leave. */
  function OnMessage(s: Socket, log: nat -> WireEvent, epoch: nat, frame: Frame, sendable: bool): Socket {
    if s.stopped || epoch != s.epoch then s
    else
      match frame
      case Hello(supported) => if supported && s.connected && sendable then s else Fail(s)
      case Authenticated(from, lease) => SetControl(FirstAuthentication(s, from), lease)
      case Lease(lease, request) => SettleSome(SetControl(s, lease), request, true)
      case Ping => if s.connected && sendable then s else Fail(s)
      case OutputFrame(number) => OnOutput(s, log, number)
      case Ack(request) => SettleSome(s, request, true)
      case ErrorFrame(request) =>
        if request.Some? && request.value in s.pending then Settle(s, request.value, false) else Fail(s)
      case Garbage => Fail(s)
  }

  function CallWrite(s: Socket, chunks: seq<Text>): Socket {
    s.(writes := s.writes + [Write(s.epoch, chunks, 0, None, [], None)])
  }

  /** Writes run one after another: the first unfinished one. */
  function Head(writes: seq<Write>): (h: nat)
    ensures h <= |writes|
    ensures forall i :: 0 <= i < h ==> writes[i].result.Some?
    ensures h < |writes| ==> writes[h].result.None?
  {
    if writes == [] || writes[0].result.None? then 0 else 1 + Head(writes[1..])
  }

  function SetWrite(s: Socket, h: nat, w: Write): Socket
    requires h < |s.writes|
  {
    s.(writes := s.writes[h := w])
  }

  function SendChunk(s: Socket, h: nat, sendable: bool): Socket
    requires h < |s.writes| && s.writes[h].confirmed < |s.writes[h].chunks|
  {
    var w := s.writes[h];
    var r := s.nextRequest;
    if s.epoch != w.epoch || s.lease.None? || |s.pending| >= 128 then SetWrite(s, h, w.(result := Some(false)))
    else if !s.connected || !sendable then
      SetWrite(s, h, w.(result := Some(false))).(settled := s.settled[r := false], nextRequest := r + 1)
    else
      SetWrite(s, h, w.(waiting := Some(r), requests := w.requests + [r])).(
        pending := s.pending + {r},
        nextRequest := r + 1,
        sent := s.sent + [Sent(h, w.confirmed, s.epoch, r, w.chunks[w.confirmed])])
  }

  /** The next continuation of the running write. */
  function AdvanceWrite(s: Socket, sendable: bool): Socket {
    var h := Head(s.writes);
    if h == |s.writes| then s
    else
      var w := s.writes[h];
      if w.waiting.Some? then
        var r := w.waiting.value;
        if r !in s.settled then s
        else if s.settled[r] then SetWrite(s, h, w.(confirmed := w.confirmed + 1, waiting := None))
        else SetWrite(s, h, w.(waiting := None, result := Some(false)))
      else if w.confirmed >= |w.chunks| then SetWrite(s, h, w.(result := Some(true)))
      else SendChunk(s, h, sendable)
  }

  /** Any other command: resize, close, acquire or release. */
  function OtherCommand(s: Socket, needsLease: bool, sendable: bool): Socket {
    if (needsLease && s.lease.None?) || |s.pending| >= 128 then s
    else if !s.connected || !sendable then
      s.(settled := s.settled[s.nextRequest := false], nextRequest := s.nextRequest + 1)
    else s.(pending := s.pending + {s.nextRequest}, nextRequest := s.nextRequest + 1)
  }

  datatype Action =
    | DoTimer
    | DoReconnect
    | DoOpened(epoch: nat)
    | DoConnectFailed(epoch: nat, fatal: bool)
    | DoSocketClosed(epoch: nat)
    | DoMessage(epoch: nat, frame: Frame, sendable: bool)
    | DoStop
    | DoAbort
    | DoWrite(chunks: seq<Text>)
    | DoAdvance(sendable: bool)
    | DoCommand(needsLease: bool, sendable: bool)
    | DoTimeout(request: Request)

  function Next(s: Socket, log: nat -> WireEvent, a: Action): Socket {
    match a
    case DoTimer => TimerFires(s)
    case DoReconnect => Reconnect(s)
    case DoOpened(epoch) => Opened(s, epoch)
    case DoConnectFailed(epoch, fatal) => ConnectFailed(s, epoch, fatal)
    case DoSocketClosed(epoch) => SocketClosed(s, epoch)
    case DoMessage(epoch, frame, sendable) => OnMessage(s, log, epoch, frame, sendable)
    case DoStop => Stop(s)
    case DoAbort => Abort(s)
    case DoWrite(chunks) => CallWrite(s, chunks)
    case DoAdvance(sendable) => AdvanceWrite(s, sendable)
    case DoCommand(needsLease, sendable) => OtherCommand(s, needsLease, sendable)
    case DoTimeout(request) => Settle(s, request, false)
  }

  function Run(s: Socket, log: nat -> WireEvent, actions: seq<Action>): Socket {
    if actions == [] then s else Next(Run(s, log, actions[..|actions| - 1]), log, actions[|actions| - 1])
  }
}
