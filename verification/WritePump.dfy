/** sendToClient and the loops of writePump (server.go) on a connection's send queue, with
    other goroutines enqueuing between any two looks at the queue. */
module WritePump {
  import opened Powers
  import opened Wire
  import opened Pipeline
  import opened TextPipe

  /** The messages other goroutines offer before the pump's k-th look at the queue. */
  type Arrivals = nat -> seq<Message>

  /** Nobody else sends while the frame is written. */
  ghost predicate IsQuiet(env: Arrivals) {
    forall k :: env(k) == []
  }

  /** Nothing has happened on the client's side, and no write was lost. */
  ghost predicate SameBeyond(p: Pipe<Message>, p': Pipe<Message>) {
    p'.wire == p.wire && p'.lines == p.lines && p'.out == p.out && p'.lost == p.lost
  }

  /** The frame's text is the messages of the batch with a newline between each two, and is read back as
      exactly these messages. */
  ghost predicate Reads(frame: string, batch: seq<string>) {
    Split(frame) == batch && Lines(frame) == batch
  }

  /** The connection's send channel. The ghost fields record the steps of module Pipeline that
      the methods take, so that Valid says: this object is a run of that step system. */
  class Conn {
    var send: seq<Message>
    ghost var steps: seq<Step<Message>>
    ghost var pipe: Pipe<Message>

    ghost predicate Valid()
      reads this
    {
      && IsRun(Start(), steps) && pipe == Run(Start(), steps)
      && pipe.queue == send && |send| <= CAPACITY && !pipe.broken
    }

    ghost predicate Idle()
      reads this
    {
      Valid() && pipe.pump == Select
    }

    constructor ()
      ensures Idle() && send == [] && pipe == Start()
    {
      send, steps, pipe := [], [], Start();
    }

    ghost method Log(step: Step<Message>)
      requires IsRun(Start(), steps) && pipe == Run(Start(), steps)
      requires Enabled(pipe, step)
      modifies this`steps, this`pipe
      ensures IsRun(Start(), steps) && pipe == Run(Start(), steps)
      ensures pipe == Apply(old(pipe), step)
    {
      RunSnoc(Start(), steps, step);
      steps, pipe := steps + [step], Apply(pipe, step);
    }

    ghost method LogTake()
      requires IsRun(Start(), steps) && pipe == Run(Start(), steps) && pipe.pump == Select && pipe.queue != []
      modifies this`steps, this`pipe
      ensures IsRun(Start(), steps) && pipe == Run(Start(), steps)
      ensures pipe == old(pipe).(pump := Test(0), batch := [old(pipe).queue[0]], queue := old(pipe).queue[1..])
    {
      Log(Take);
    }

    ghost method LogTest()
      requires IsRun(Start(), steps) && pipe == Run(Start(), steps) && pipe.pump.Test? && pipe.pump.i < |pipe.queue|
      modifies this`steps, this`pipe
      ensures IsRun(Start(), steps) && pipe == Run(Start(), steps)
      ensures pipe == old(pipe).(pump := Receive(old(pipe).pump.i))
    {
      Log(Check);
    }

    ghost method LogFlush()
      requires IsRun(Start(), steps) && pipe == Run(Start(), steps) && pipe.pump.Test? && pipe.pump.i >= |pipe.queue|
      requires !pipe.broken
      modifies this`steps, this`pipe
      ensures IsRun(Start(), steps) && pipe == Run(Start(), steps)
      ensures pipe == old(pipe).(pump := Select, batch := [], wire := old(pipe).wire + [old(pipe).batch])
    {
      Log(Check);
    }

    ghost method LogDraw()
      requires IsRun(Start(), steps) && pipe == Run(Start(), steps) && pipe.pump.Receive? && pipe.queue != []
      modifies this`steps, this`pipe
      ensures IsRun(Start(), steps) && pipe == Run(Start(), steps)
      ensures pipe == old(pipe).(batch := old(pipe).batch + [old(pipe).queue[0]], queue := old(pipe).queue[1..],
                                 pump := Test(old(pipe).pump.i + 1))
    {
      DrawMoves(pipe);
      Log(Draw);
    }

    method SendToClient(data: Message) returns (queued: bool)
      requires Valid()
      modifies this
      ensures Valid() && pipe == Apply(old(pipe), Send(data))
      ensures queued <==> |old(send)| < 256
      ensures send == if queued then old(send) + [data] else old(send)
    {
      queued := |send| < CAPACITY;
      if queued {
        send := send + [data];
      }
      Log(Send(data));
    }

    /** Other goroutines' calls of SendToClient, one after the other. */
    method Interfere(ms: seq<Message>)
      requires Valid()
      modifies this
      ensures Valid() && old(send) <= send
      ensures SameBeyond(old(pipe), pipe) && pipe.pump == old(pipe).pump && pipe.batch == old(pipe).batch
      ensures ms == [] ==> send == old(send)
    {
      for k := 0 to |ms|
        invariant Valid() && old(send) <= send
        invariant SameBeyond(old(pipe), pipe) && pipe.pump == old(pipe).pump && pipe.batch == old(pipe).batch
        invariant ms == [] ==> send == old(send)
      {
        var queued := SendToClient(ms[k]);
      }
    }

    /** One frame: a message, then as many as the loop finds. The frame is read back as exactly
        the batch the step system puts on the wire, at most 257 messages; and when nobody
        adds to them, n queued messages shrink to (n - 1) / 2, oldest first. */
    method WriteFrame(env: Arrivals) returns (frame: string, ghost batch: seq<Message>)
      requires Idle() && send != []
      modifies this
      ensures Idle() && Reads(frame, batch) && 1 <= |batch| <= 257
      ensures pipe.wire == old(pipe).wire + [batch]
      ensures pipe.out == old(pipe).out && pipe.lines == old(pipe).lines
      ensures IsQuiet(env) ==> |send| == (|old(send)| - 1) / 2 && batch + send == old(send)
    {
      var data := ReceiveFirst();
      LinesClean(data);
      SplitSingle(data);
      frame, batch := WriteQueued(data, env);
      LogFlush();
    }

    method ReceiveFirst() returns (data: string)
      requires Idle() && send != []
      modifies this
      ensures Valid() && pipe.pump == Test(0) && SameBeyond(old(pipe), pipe)
      ensures Clean(data) && pipe.batch == [data] && pipe.batch + send == old(send)
    {
      data := send[0];
      send := send[1..];
      LogTake();
    }

    /** The inner loop: its counter rises while the queue's length, which it is tested against,
        changes. */
    method WriteQueued(data: string, env: Arrivals) returns (frame: string, ghost batch: seq<Message>)
      requires Valid() && pipe.pump == Test(0) && Reads(data, pipe.batch) && |pipe.batch| == 1
      modifies this
      ensures Valid() && pipe.pump.Test? && pipe.pump.i >= |send| && batch == pipe.batch && Reads(frame, batch)
      ensures SameBeyond(old(pipe), pipe) && |pipe.batch| == pipe.pump.i + 1 <= CAPACITY + 1
      ensures IsQuiet(env) ==>
                |send| == |old(send)| / 2 && pipe.batch + send == old(pipe).batch + old(send)
    {
      ghost var all := pipe.batch + send;
      ghost var quiet := IsQuiet(env);
      frame := data;
      var i := 0;
      Interfere(env(0));
      while i < |send|
        invariant Valid() && pipe.pump == Test(i) && Reads(frame, pipe.batch)
        invariant SameBeyond(old(pipe), pipe) && |pipe.batch| == i + 1 <= CAPACITY + 1
        invariant quiet ==> pipe.batch + send == all && 2 * i <= |all|
        decreases CAPACITY - i
      {
        MoveOne(pipe.batch, send);
        frame := DrawOne(frame, env(2 * i + 1));
        i := i + 1;
        Interfere(env(2 * i));
      }
      batch := pipe.batch;
    }

    /** The loop's body once its test has passed. */
    method DrawOne(open: string, arrivals: seq<Message>) returns (frame: string)
      requires Valid() && pipe.pump.Test? && pipe.pump.i < |send|
      requires Reads(open, pipe.batch)
      modifies this
      ensures Valid() && pipe.pump == Test(old(pipe).pump.i + 1) && Reads(frame, pipe.batch)
      ensures SameBeyond(old(pipe), pipe) && |pipe.batch| == |old(pipe).batch| + 1
      ensures arrivals == [] ==> pipe.batch == old(pipe).batch + [old(send)[0]] && send == old(send)[1..]
    {
      LogTest();
      Interfere(arrivals);
      frame := Append(open);
    }

    /** The receive finds a message, since send[0] is in range; a separator and that message
        go into the frame. */
    method Append(open: string) returns (frame: string)
      requires Valid() && pipe.pump.Receive? && send != []
      requires Reads(open, pipe.batch)
      modifies this
      ensures Valid() && pipe.pump == Test(old(pipe).pump.i + 1) && Reads(frame, pipe.batch)
      ensures SameBeyond(old(pipe), pipe)
      ensures pipe.batch == old(pipe).batch + [old(send)[0]] && send == old(send)[1..]
    {
      var data := ReceiveNext();
      frame := Joined(open, data);
    }

    method ReceiveNext() returns (data: string)
      requires Valid() && pipe.pump.Receive? && send != []
      modifies this
      ensures Valid() && pipe.pump == Test(old(pipe).pump.i + 1) && SameBeyond(old(pipe), pipe)
      ensures data == old(send)[0] && send == old(send)[1..]
      ensures pipe.batch == old(pipe).batch + [old(send)[0]]
    {
      data := send[0];
      send := send[1..];
      LogDraw();
    }

    /** The outer loop on a backlog that nobody adds to. */
    method DrainBacklog() returns (frames: seq<string>)
      requires Idle()
      modifies this
      ensures Idle() && send == []
      ensures Flatten(EachLines(frames)) == old(send)
      ensures pipe.wire == old(pipe).wire + EachLines(frames)
      ensures |frames| == Frames(|old(send)|)
    {
      frames := [];
      while send != []
        invariant Idle()
        invariant Flatten(EachLines(frames)) + send == old(send)
        invariant pipe.wire == old(pipe).wire + EachLines(frames)
        invariant |frames| + Frames(|send|) == Frames(|old(send)|)
        decreases |send|
      {
        ghost var n := |send|;
        var frame, batch := WriteFrame(k => []);
        FramesStep(n, |send|);
        EachLinesAppend(frames, frame);
        FlattenAppend(EachLines(frames), Lines(frame));
        Regroup(Flatten(EachLines(frames)), Lines(frame), send);
        frames := frames + [frame];
      }
    }
  }

  lemma DrawMoves(p: Pipe<Message>)
    requires p.pump.Receive? && p.queue != []
    ensures Enabled(p, Draw)
    ensures Apply(p, Draw) == p.(batch := p.batch + [p.queue[0]], queue := p.queue[1..], pump := Test(p.pump.i + 1))
  {
  }

  /** An open frame with one message more. */
  function Joined(open: string, data: string): (frame: string)
    requires Clean(data)
    ensures Lines(frame) == Lines(open) + [data] && Split(frame) == Split(open) + [data]
  {
    LinesAppend(open, data);
    LinesClean(data);
    SplitAppend(open, data);
    SplitSingle(data);
    open + "\n" + data
  }

  lemma MoveOne(batch: seq<Message>, send: seq<Message>)
    requires send != []
    ensures (batch + [send[0]]) + send[1..] == batch + send
  {
  }

  // ---------------------------------------------------------------- the batching arithmetic

  /** The number of frames for a backlog of n, when a frame leaves (n - 1) / 2 behind. */
  function Frames(n: nat): nat {
    if n == 0 then 0 else 1 + Frames((n - 1) / 2)
  }

  lemma FramesStep(n: nat, left: nat)
    requires n > 0 && left == (n - 1) / 2
    ensures Frames(n) == 1 + Frames(left)
  {
  }

  /** A backlog of n clears in floor(log2(n + 1)) frames. */
  lemma {:induction false} FramesIsLog(n: nat)
    ensures Pow2(Frames(n)) <= n + 1 < Pow2(Frames(n) + 1)
    ensures forall f: nat :: Pow2(f) <= n + 1 < Pow2(f + 1) ==> f == Frames(n)
  {
    if n == 0 {
      assert Pow2(1) == 2;
    } else {
      FramesIsLog((n - 1) / 2);
      assert Pow2(Frames(n)) == 2 * Pow2(Frames((n - 1) / 2));
    }
    forall f: nat | Pow2(f) <= n + 1 < Pow2(f + 1)
      ensures f == Frames(n)
    {
      if f < Frames(n) {
        Pow2Monotone(f + 1, Frames(n));
      } else if Frames(n) < f {
        Pow2Monotone(Frames(n) + 1, f);
      }
    }
  }

  /** A full queue clears in eight frames. */
  lemma FullQueue()
    ensures Frames(256) == 8 && CAPACITY == 256
  {
    assert Frames(15) == 4;
    assert Frames(127) == 7;
  }
}
