/** The socket object itself: each handler against the step it performs. */
module TerminalSocket {
  import opened Prelude
  import opened Utf16
  import opened SocketState

  class TerminalSocket {
    var epoch: nat
    var connected: bool
    var timer: bool
    var stopped: bool
    var lease: Option<nat>
    var cursor: nat
    var hasConnected: bool
    var pending: set<Request>
    var settled: map<Request, bool>
    var nextRequest: Request
    var writes: seq<Write>
    var delivered: seq<Delivery>
    var sent: seq<Sent>
    ghost var start: nat
    ghost var early: nat

    ghost function Abs(): (s: Socket)
      reads this
    {
      Socket(epoch, connected, timer, stopped, lease, cursor, hasConnected, pending, settled, nextRequest,
             writes, delivered, sent, start, early)
    }

    /** The constructor starts the first connection attempt. */
    constructor ()
      ensures Abs() == CREATED
    {
      epoch, connected, timer, stopped := 1, false, false, false;
      lease, cursor, hasConnected := None, 0, false;
      pending, settled, nextRequest := {}, map[], 0;
      writes, delivered, sent := [], [], [];
      start, early := 0, 0;
    }

    method SettleRequest(r: Request, ok: bool)
      modifies this
      ensures Abs() == Settle(old(Abs()), r, ok)
    {
      if r in pending {
        pending := pending - {r};
        settled := settled[r := ok];
      }
    }

    /** Rejects every waiting request, one at a time. */
    method RejectPending()
      modifies this`pending, this`settled
      ensures Abs() == RejectAll(old(Abs()))
    {
      ghost var before := settled;
      ghost var waiting := pending;
      while pending != {}
        invariant pending <= waiting
        invariant settled.Keys == before.Keys + (waiting - pending)
        invariant forall r <- settled :: settled[r] == if r in waiting - pending then false else before[r]
        decreases pending
      {
        var r :| r in pending;
        settled := settled[r := false];
        pending := pending - {r};
      }
      assert waiting - pending == waiting;
      assert settled == map r | r in before.Keys + waiting :: if r in waiting then false else before[r];
    }

    method Control(value: Option<nat>)
      modifies this
      ensures Abs() == SetControl(old(Abs()), value)
    {
      lease := value;
      delivered := delivered + [SocketState.Control(value.Some?)];
    }

    method DoStopOnce()
      modifies this
      ensures Abs() == StopOnce(old(Abs()))
    {
      timer := false;
      epoch := epoch + 1;
      connected := false;
      lease := None;
      stopped := true;
      RejectPending();
    }

    /** `stop`: the first call aborts the controller, whose listener stops again. */
    method DoStop()
      modifies this
      ensures Abs() == Stop(old(Abs()))
    {
      var aborted := stopped;
      DoStopOnce();
      if !aborted {
        DoStopOnce();
      }
    }

    method DoFail()
      modifies this
      ensures Abs() == Fail(old(Abs()))
    {
      delivered := delivered + [Failure];
      DoStop();
    }

    method DoDisconnected()
      modifies this
      ensures Abs() == Disconnected(old(Abs()))
    {
      epoch := epoch + 1;
      connected := false;
      RejectPending();
      if stopped {
        return;
      }
      Control(None);
      timer := true;
    }

    method DoReconnect()
      modifies this
      ensures Abs() == Reconnect(old(Abs()))
    {
      if stopped {
        return;
      }
      epoch := epoch + 1;
      DoDisconnected();
      timer := false;
      epoch := epoch + 1;
    }

    /** The output branch of `onmessage`. */
    method DoOutput(log: nat -> WireEvent, number: int)
      modifies this
      ensures Abs() == OnOutput(old(Abs()), log, number)
    {
      if number <= cursor {
        return;
      }
      if number != cursor + 1 {
        DoFail();
        return;
      }
      var event := log(cursor);
      if event.Unreadable? {
        DoFail();
        return;
      }
      delivered := delivered + [Wire(cursor)];
      cursor := number;
      if !hasConnected {
        start, early := number, number;
      }
      if event.Exit? || event.Error? {
        DoStop();
      }
    }

    method DoMessage(log: nat -> WireEvent, from: nat, frame: Frame, sendable: bool)
      modifies this
      ensures Abs() == OnMessage(old(Abs()), log, from, frame, sendable)
    {
      if stopped || from != epoch {
        return;
      }
      match frame
      case Hello(supported) => if !supported || !connected || !sendable { DoFail(); }
      case Authenticated(first, generation) =>
        if !hasConnected {
          if first.Some? {
            cursor := first.value;
          }
          start := cursor;
        }
        hasConnected := true;
        Control(generation);
      case Lease(generation, request) =>
        Control(generation);
        if request.Some? {
          SettleRequest(request.value, true);
        }
      case Ping => if !connected || !sendable { DoFail(); }
      case OutputFrame(number) => DoOutput(log, number);
      case Ack(request) =>
        if request.Some? {
          SettleRequest(request.value, true);
        }
      case ErrorFrame(request) =>
        if request.Some? && request.value in pending {
          SettleRequest(request.value, false);
        } else {
          DoFail();
        }
      case Garbage => DoFail();
    }

    /** `write`: the epoch is taken now, the chunks of the repaired text wait for
        their turn, none splits a character and together they are the text. */
    method Write(data: Text) returns (chunks: seq<Text>)
      modifies this
      ensures Abs() == CallWrite(old(Abs()), chunks)
      ensures Sendable(Repaired(data), chunks)
    {
      var text := ToWellFormedUnicode(data);
      chunks := Utf8InputChunks(text);
      writes := writes + [SocketState.Write(epoch, chunks, 0, None, [], None)];
    }

    /** Issues one input command for the running write. */
    method Command(h: nat, sendable: bool)
      requires h < |writes| && writes[h].confirmed < |writes[h].chunks|
      modifies this
      ensures Abs() == SendChunk(old(Abs()), h, sendable)
    {
      var w := writes[h];
      if epoch != w.epoch || lease.None? || |pending| >= 128 {
        writes := writes[h := w.(result := Some(false))];
        return;
      }
      var r := nextRequest;
      nextRequest := nextRequest + 1;
      if !connected || !sendable {
        settled := settled[r := false];
        writes := writes[h := w.(result := Some(false))];
        return;
      }
      pending := pending + {r};
      sent := sent + [Sent(h, w.confirmed, epoch, r, w.chunks[w.confirmed])];
      writes := writes[h := w.(waiting := Some(r), requests := w.requests + [r])];
    }
  }
}
