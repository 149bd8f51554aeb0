/**
 The output channel of a terminal tab: until somebody listens it keeps the last
 256 KiB of output; the first listener gets that and everything that follows.
 */
module OutputChannel {
  import opened Prelude

  const MAX_BUFFERED_OUTPUT_BYTES := 256 * 1024

  type Bytes = seq<Byte>
  type Listener = nat

  /** The last `n` bytes, or all of them. */
  function Suffix(s: Bytes, n: nat): (r: Bytes)
    ensures |r| == Min(|s|, n)
  {
    if |s| <= n then s else s[|s| - n..]
  }

  lemma SuffixAppends(s: Bytes, more: Bytes, n: nat)
    ensures Suffix(Suffix(s, n) + more, n) == Suffix(s + more, n)
  {
  }

  lemma SuffixOfLong(s: Bytes, more: Bytes, n: nat)
    requires |more| >= n
    ensures Suffix(s + more, n) == more[|more| - n..]
  {
  }

  lemma SuffixOfShort(s: Bytes, n: nat)
    ensures |s| <= n ==> Suffix(s, n) == s
  {
  }

  /** Dropping what overflows from the front keeps the suffix. */
  lemma SuffixDrops(s: Bytes, k: nat, n: nat)
    requires n + k <= |s|
    ensures Suffix(s[k..], n) == Suffix(s, n)
  {
  }

  // What can be observed of a channel: who listens, what was dispatched since
  // buffering began or the buffer was last dropped, and what each listener heard.

  /** Output, subscribing, its undo, a fallback that drops the buffer, and the clearing of a closed channel. */
  datatype Op = Output(bytes: Bytes) | Join(listener: Listener) | Leave(listener: Listener) | Drop | Reset

  datatype View = View(listeners: set<Listener>, buffering: bool, total: Bytes, received: map<Listener, Bytes>)

  function Heard(v: View, listener: Listener): Bytes {
    if listener in v.received then v.received[listener] else []
  }

  /** How the operations move the view. */
  function Step(v: View, op: Op): View {
    match op
    case Output(bytes) =>
      v.(total := v.total + bytes,
         received := map l | l in v.received :: if l in v.listeners then v.received[l] + bytes else v.received[l])
    case Join(listener) =>
      View(v.listeners + {listener}, false, v.total,
           v.received[listener := Heard(v, listener)
             + if v.buffering then Suffix(v.total, MAX_BUFFERED_OUTPUT_BYTES) else []])
    case Leave(listener) => v.(listeners := v.listeners - {listener})
    case Drop => if v.buffering then v.(total := []) else v
    case Reset => v.(listeners := {}, buffering := false)
  }

  lemma NoChunks()
    ensures Flatten<Byte>([]) == [] && forall b: Bytes :: [] + b == b
  {
  }

  class Channel {
    var listeners: set<Listener>
    var buffering: bool
    var bufferedChunks: seq<Bytes>
    var bufferedBytes: int
    // What each listener has been called with, and everything dispatched
    // since buffering began or the buffer was last cleared.
    ghost var received: map<Listener, Bytes>
    ghost var total: Bytes

    ghost predicate Valid()
      reads this
    {
      && (buffering ==> listeners == {})
      && (buffering ==> Flatten(bufferedChunks) == Suffix(total, MAX_BUFFERED_OUTPUT_BYTES))
      && (!buffering ==> bufferedChunks == [])
      && bufferedBytes == |Flatten(bufferedChunks)|
      && listeners <= received.Keys
    }

    constructor ()
      ensures Valid() && buffering && listeners == {} && received == map[] && total == []
    {
      listeners, buffering, bufferedChunks, bufferedBytes := {}, true, [], 0;
      received, total := map[], [];
    }

    ghost function Abs(): View
      reads this
    {
      View(listeners, buffering, total, received)
    }

    method Dispatch(bytes: Bytes)
      requires Valid()
      modifies this
      ensures Valid() && Abs() == Step(old(Abs()), Output(bytes))
    {
      total := total + bytes;
      received := map l | l in received :: if l in listeners then received[l] + bytes else received[l];
      assert Abs() == Step(old(Abs()), Output(bytes));
      if listeners != {} || !buffering {
        return;
      }
      hide Step, Suffix, Flatten;
      SuffixAppends(old(total), bytes, MAX_BUFFERED_OUTPUT_BYTES);
      var chunk := bytes;
      if |chunk| >= MAX_BUFFERED_OUTPUT_BYTES {
        chunk := chunk[|chunk| - MAX_BUFFERED_OUTPUT_BYTES..];
        SuffixOfLong(old(total), bytes, MAX_BUFFERED_OUTPUT_BYTES);
        FlattenSnoc([], chunk);
        NoChunks();
        assert [] + [chunk] == [chunk];
        bufferedChunks := [chunk];
        bufferedBytes := |chunk|;
        return;
      }
      FlattenSnoc(bufferedChunks, chunk);
      bufferedChunks := bufferedChunks + [chunk];
      bufferedBytes := bufferedBytes + |chunk|;
      TrimOverflow();
    }

    /** Drops bytes from the front until the buffer is within its bound. */
    method TrimOverflow()
      modifies this`bufferedChunks, this`bufferedBytes
      requires bufferedBytes == |Flatten(bufferedChunks)|
      requires Suffix(Flatten(bufferedChunks), MAX_BUFFERED_OUTPUT_BYTES) == Suffix(total, MAX_BUFFERED_OUTPUT_BYTES)
      ensures bufferedBytes == |Flatten(bufferedChunks)|
      ensures Flatten(bufferedChunks) == Suffix(total, MAX_BUFFERED_OUTPUT_BYTES)
    {
      hide Suffix;
      var overflow := bufferedBytes - MAX_BUFFERED_OUTPUT_BYTES;
      SuffixOfShort(Flatten(bufferedChunks), MAX_BUFFERED_OUTPUT_BYTES);
      while overflow > 0
        invariant bufferedBytes == |Flatten(bufferedChunks)|
        invariant overflow > 0 ==> bufferedBytes == MAX_BUFFERED_OUTPUT_BYTES + overflow
        invariant overflow <= 0 ==> Flatten(bufferedChunks) == Suffix(total, MAX_BUFFERED_OUTPUT_BYTES)
        invariant Suffix(Flatten(bufferedChunks), MAX_BUFFERED_OUTPUT_BYTES) == Suffix(total, MAX_BUFFERED_OUTPUT_BYTES)
        decreases |bufferedChunks|, overflow
      {
        if bufferedChunks == [] { break; }
        var first := bufferedChunks[0];
        if |first| <= overflow {
          SuffixDrops(Flatten(bufferedChunks), |first|, MAX_BUFFERED_OUTPUT_BYTES);
          assert Flatten(bufferedChunks)[|first|..] == Flatten(bufferedChunks[1..]);
          bufferedChunks := bufferedChunks[1..];
          bufferedBytes := bufferedBytes - |first|;
          overflow := overflow - |first|;
          SuffixOfShort(Flatten(bufferedChunks), MAX_BUFFERED_OUTPUT_BYTES);
          continue;
        }
        CutFirst(bufferedChunks, overflow);
        SuffixDrops(Flatten(bufferedChunks), overflow, MAX_BUFFERED_OUTPUT_BYTES);
        bufferedChunks := bufferedChunks[0 := first[overflow..]];
        bufferedBytes := bufferedBytes - overflow;
        SuffixOfShort(Flatten(bufferedChunks), MAX_BUFFERED_OUTPUT_BYTES);
        overflow := 0;
      }
    }

    /** The first subscriber ends the buffering and gets what was kept. */
    method Subscribe(listener: Listener)
      requires Valid()
      modifies this
      ensures Valid() && Abs() == Step(old(Abs()), Join(listener))
    {
      listeners := listeners + {listener};
      if listener !in received {
        received := received[listener := []];
      }
      if buffering {
        buffering := false;
        var buffered := bufferedChunks;
        bufferedChunks := [];
        bufferedBytes := 0;
        Replay(listener, buffered);
      } else {
        assert received[listener] + [] == received[listener];
      }
    }

    /** Calls the listener with each kept chunk in turn. */
    method Replay(listener: Listener, buffered: seq<Bytes>)
      requires listener in received
      modifies this`received
      ensures received == old(received)[listener := old(received)[listener] + Flatten(buffered)]
    {
      ghost var before := received;
      assert buffered[..0] == [] && before[listener] + [] == before[listener];
      for i := 0 to |buffered|
        invariant received == before[listener := before[listener] + Flatten(buffered[..i])]
      {
        assert buffered[..i + 1] == buffered[..i] + [buffered[i]];
        FlattenSnoc(buffered[..i], buffered[i]);
        assert (before[listener] + Flatten(buffered[..i])) + buffered[i]
            == before[listener] + (Flatten(buffered[..i]) + buffered[i]);
        received := received[listener := received[listener] + buffered[i]];
      }
      assert buffered[..|buffered|] == buffered;
    }

    method Unsubscribe(listener: Listener)
      requires Valid()
      modifies this`listeners
      ensures Valid() && Abs() == Step(old(Abs()), Leave(listener))
    {
      listeners := listeners - {listener};
    }

    /** A start that falls back drops what the failed one had buffered. */
    method DropBuffered()
      requires Valid()
      modifies this`bufferedChunks, this`bufferedBytes, this`total
      ensures Valid() && Abs() == Step(old(Abs()), Drop)
    {
      bufferedChunks := [];
      bufferedBytes := 0;
      if buffering {
        total := [];
      }
    }

    /** `clearOutputChannel`. */
    method Clear()
      requires Valid()
      modifies this`listeners, this`bufferedChunks, this`bufferedBytes, this`buffering
      ensures Valid() && Abs() == Step(old(Abs()), Reset)
    {
      listeners := {};
      bufferedChunks := [];
      bufferedBytes := 0;
      buffering := false;
    }
  }

  /** Cutting into the first chunk drops bytes from the front of the whole. */
  lemma CutFirst(chunks: seq<Bytes>, n: nat)
    requires chunks != [] && n < |chunks[0]|
    ensures Flatten(chunks[0 := chunks[0][n..]]) == Flatten(chunks)[n..]
  {
    var cut := chunks[0 := chunks[0][n..]];
    assert cut[1..] == chunks[1..];
  }

  function Steps(v: View, ops: seq<Op>): View {
    if ops == [] then v else Step(Steps(v, ops[..|ops| - 1]), ops[|ops| - 1])
  }

  function Outputs(ops: seq<Op>): Bytes {
    if ops == [] then []
    else Outputs(ops[..|ops| - 1]) + if ops[|ops| - 1].Output? then ops[|ops| - 1].bytes else []
  }

  /** The output since the last time a fallback dropped the buffer. */
  function SinceDrop(ops: seq<Op>): Bytes {
    if ops == [] then []
    else
      match ops[|ops| - 1]
      case Output(bytes) => SinceDrop(ops[..|ops| - 1]) + bytes
      case Drop => []
      case _ => SinceDrop(ops[..|ops| - 1])
  }

  const FRESH := View({}, true, [], map[])

  /** Before any subscriber nobody hears anything; until the channel is cleared it
      keeps what was output since the last drop. */
  lemma {:induction false} BeforeAnyListener(ops: seq<Op>)
    requires forall op :: op in ops ==> !op.Join?
    ensures var v := Steps(FRESH, ops);
      && v.listeners == {} && v.received == map[]
      && (v.buffering <==> Reset !in ops)
      && (v.buffering ==> v.total == SinceDrop(ops))
  {
    if ops != [] {
      var front := ops[..|ops| - 1];
      assert ops == front + [ops[|ops| - 1]];
      assert ops[|ops| - 1] in ops && forall op :: op in front ==> op in ops;
      BeforeAnyListener(front);
    }
  }

  /** While it stays and the channel is open, a listener hears all output in order. */
  lemma {:induction false} StayingHearsAll(v: View, listener: Listener, after: seq<Op>)
    requires listener in v.listeners && listener in v.received && !v.buffering
    requires forall op :: op in after ==> op != Leave(listener) && op != Reset
    ensures var w := Steps(v, after);
      && listener in w.listeners && !w.buffering && listener in w.received
      && w.received[listener] == v.received[listener] + Outputs(after)
  {
    if after == [] {
      assert v.received[listener] + [] == v.received[listener];
    } else {
      var front := after[..|after| - 1];
      var last := after[|after| - 1];
      assert last in after && forall op :: op in front ==> op in after;
      StayingHearsAll(v, listener, front);
      StayingHears(Steps(v, front), listener, last);
    }
  }

  lemma StayingHears(v: View, listener: Listener, op: Op)
    requires listener in v.listeners && listener in v.received && !v.buffering
    requires op != Leave(listener) && op != Reset
    ensures var w := Step(v, op);
      && listener in w.listeners && !w.buffering && listener in w.received
      && w.received[listener] == v.received[listener] + if op.Output? then op.bytes else []
  {
    assert v.received[listener] + [] == v.received[listener];
  }

  /** The first listener hears exactly the last 256 KiB of what was output since the
      last drop, nothing of it once the channel was cleared, and then everything, in
      order, nothing lost or repeated, while it stays and the channel is open. */
  lemma FirstListenerHearsAll(before: seq<Op>, listener: Listener, after: seq<Op>)
    requires forall op :: op in before ==> !op.Join?
    requires forall op :: op in after ==> op != Leave(listener) && op != Reset
    ensures var v := Steps(Step(Steps(FRESH, before), Join(listener)), after);
      && listener in v.listeners && !v.buffering && listener in v.received
      && Heard(v, listener)
        == (if Reset in before then [] else Suffix(SinceDrop(before), MAX_BUFFERED_OUTPUT_BYTES)) + Outputs(after)
  {
    BeforeAnyListener(before);
    var joined := Step(Steps(FRESH, before), Join(listener));
    assert joined.received[listener]
        == if Reset in before then [] else Suffix(SinceDrop(before), MAX_BUFFERED_OUTPUT_BYTES);
    StayingHearsAll(joined, listener, after);
  }

  /** A listener that left, or whose channel was cleared, hears nothing more until it
      subscribes again. */
  lemma {:induction false} GoneHearsNothing(v: View, listener: Listener, leaves: Op, after: seq<Op>)
    requires leaves == Leave(listener) || leaves == Reset
    requires forall op :: op in after ==> op != Join(listener)
    ensures var w := Steps(Step(v, leaves), after);
      listener !in w.listeners && Heard(w, listener) == Heard(v, listener)
  {
    if after != [] {
      var front := after[..|after| - 1];
      assert after[|after| - 1] in after && forall op :: op in front ==> op in after;
      GoneHearsNothing(v, listener, leaves, front);
    }
  }
}
