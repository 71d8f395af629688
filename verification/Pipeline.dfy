/** The server-to-client pipeline of one connection as a step system: sendToClient's bounded
    queue, writePump's batching loop, frames in flight, and the client's line loop. */
module Pipeline {
  import opened Option

  /** How many messages a connection's send channel holds. */
  const CAPACITY: nat := 256

  /** Where writePump stands: in its select, before the loop test with counter i, committed to
      the loop body's receive, or returned. */
  datatype Pump = Select | Test(i: nat) | Receive(i: nat) | Gone

  /** One call of sendToClient: the message, and how many slots it found taken. */
  datatype Offer<T> = Offer(msg: T, depth: nat)

  datatype Pipe<T> = Pipe(
    queue: seq<T>,           // c.send
    pump: Pump,
    batch: seq<T>,           // messages written into the open frame
    wire: seq<seq<T>>,       // frames in flight, oldest first
    lines: seq<T>,           // lines of the frame the client is working through
    out: seq<T>,             // lines the client has taken up
    broken: bool,            // writes to the connection fail
    lost: seq<T>,            // taken by the pump, but written to a broken connection
    offers: seq<Offer<T>>)   // every sendToClient so far

  datatype Step<T> =
    | Send(m: T)
    | Take
    | TakeFails
    | Check
    | Draw
    | Leave
    | Break
    | ReadFrame
    | ReadLine

  function Start<T>(): Pipe<T> {
    Pipe([], Select, [], [], [], [], false, [], [])
  }

  predicate Enabled<T>(p: Pipe<T>, step: Step<T>) {
    match step
    case Send(_) => true
    case Take => p.pump == Select && p.queue != []
    case TakeFails => p.pump == Select && p.queue != [] && p.broken
    case Check => p.pump.Test?
    case Draw => p.pump.Receive?
    case Leave => p.pump == Select
    case Break => true
    case ReadFrame => p.lines == [] && p.wire != []
    case ReadLine => p.lines != []
  }

  /** sendToClient: a full queue drops the message. */
  function Enqueue<T>(p: Pipe<T>, m: T): Pipe<T> {
    p.(offers := p.offers + [Offer(m, |p.queue|)],
       queue := if |p.queue| < CAPACITY then p.queue + [m] else p.queue)
  }

  function NextLine<T>(p: Pipe<T>): Pipe<T>
    requires p.lines != []
  {
    p.(out := p.out + [p.lines[0]], lines := p.lines[1..])
  }

  /** Draw stands for a receive that blocks while the queue is empty; DrawNeverBlocks shows
      that it never does, so the case is only there to make the function total. */
  function Apply<T>(p: Pipe<T>, step: Step<T>): Pipe<T>
    requires Enabled(p, step)
  {
    match step
    case Send(m) => Enqueue(p, m)
    case Take => p.(batch := [p.queue[0]], queue := p.queue[1..], pump := Test(0))
    case TakeFails => p.(lost := p.lost + [p.queue[0]], queue := p.queue[1..], pump := Gone)
    case Check =>
      if p.pump.i < |p.queue| then p.(pump := Receive(p.pump.i))
      else if p.broken then p.(lost := p.lost + p.batch, batch := [], pump := Select)
      else p.(wire := p.wire + [p.batch], batch := [], pump := Select)
    case Draw =>
      if p.queue == [] then p
      else p.(batch := p.batch + [p.queue[0]], queue := p.queue[1..], pump := Test(p.pump.i + 1))
    case Leave => p.(pump := Gone)
    case Break => p.(broken := true)
    case ReadFrame => p.(lines := p.wire[0], wire := p.wire[1..])
    case ReadLine => NextLine(p)
  }

  predicate IsRun<T>(p: Pipe<T>, steps: seq<Step<T>>)
    decreases |steps|
  {
    steps == [] || (Enabled(p, steps[0]) && IsRun(Apply(p, steps[0]), steps[1..]))
  }

  function Run<T>(p: Pipe<T>, steps: seq<Step<T>>): Pipe<T>
    requires IsRun(p, steps)
    decreases |steps|
  {
    if steps == [] then p else Run(Apply(p, steps[0]), steps[1..])
  }

  lemma {:induction false} RunSnoc<T(!new)>(p: Pipe<T>, steps: seq<Step<T>>, step: Step<T>)
    requires IsRun(p, steps) && Enabled(Run(p, steps), step)
    ensures IsRun(p, steps + [step]) && Run(p, steps + [step]) == Apply(Run(p, steps), step)
    decreases |steps|
  {
    if steps == [] {
      assert steps + [step] == [step] && [step][1..] == [];
    } else {
      assert (steps + [step])[1..] == steps[1..] + [step];
      RunSnoc(Apply(p, steps[0]), steps[1..], step);
    }
  }

  // ---------------------------------------------------------------- conservation

  /** The offers that met fewer than CAPACITY queued messages, in order. */
  function Accepted<T>(offers: seq<Offer<T>>): seq<T> {
    if offers == [] then []
    else
      var last := offers[|offers| - 1];
      Accepted(offers[..|offers| - 1]) + (if last.depth < CAPACITY then [last.msg] else [])
  }

  lemma {:induction false} AcceptedExactly<T(!new)>(offers: seq<Offer<T>>)
    ensures forall m :: m in Accepted(offers) <==> exists i :: 0 <= i < |offers| && offers[i].msg == m && offers[i].depth < 256
  {
    if offers != [] {
      var front, last := offers[..|offers| - 1], offers[|offers| - 1];
      AcceptedExactly(front);
      assert forall i :: 0 <= i < |front| ==> front[i] == offers[i];
    }
  }

  function Flatten<T>(frames: seq<seq<T>>): seq<T> {
    if frames == [] then [] else frames[0] + Flatten(frames[1..])
  }

  /** Everything between sendToClient and the client's dispatcher, oldest first. */
  function Held<T>(p: Pipe<T>): seq<T> {
    Sent(p) + Kept(p)
  }

  function Sent<T>(p: Pipe<T>): seq<T> {
    p.out + p.lines + Flatten(p.wire)
  }

  function Kept<T>(p: Pipe<T>): seq<T> {
    p.lost + p.batch + p.queue
  }

  ghost predicate Inv<T(!new)>(p: Pipe<T>) {
    Held(p) == Accepted(p.offers) && Shape(p)
  }

  /** The queue is bounded; only a broken connection loses messages; a frame is open exactly
      while the loop runs, and has one message more than the loop's counter says. */
  ghost predicate Shape<T(!new)>(p: Pipe<T>) {
    && |p.queue| <= CAPACITY
    && (forall o :: o in p.offers ==> o.depth <= CAPACITY)
    && (p.lost != [] ==> p.broken)
    && (p.pump.Select? || p.pump.Gone? ==> p.batch == [])
    && (p.pump.Test? ==> |p.batch| == p.pump.i + 1 && p.pump.i <= CAPACITY)
    && (p.pump.Receive? ==> |p.batch| == p.pump.i + 1 && p.pump.i < |p.queue|)
    && (forall f :: f in p.wire ==> 1 <= |f| <= CAPACITY + 1)
  }

  lemma {:induction false} FlattenAppend<T>(frames: seq<seq<T>>, f: seq<T>)
    ensures Flatten(frames + [f]) == Flatten(frames) + f
  {
    if frames == [] {
      assert frames + [f] == [f];
      assert Flatten([f]) == f + Flatten([f][1..]);
    } else {
      assert (frames + [f])[1..] == frames[1..] + [f];
      FlattenAppend(frames[1..], f);
      assert frames[0] + (Flatten(frames[1..]) + f) == (frames[0] + Flatten(frames[1..])) + f;
    }
  }

  lemma SendKeeps<T(!new)>(p: Pipe<T>, m: T)
    requires Inv(p)
    ensures Inv(Apply(p, Send(m)))
    ensures Accepted(Apply(p, Send(m)).offers) == Accepted(p.offers) + (if |p.queue| < CAPACITY then [m] else [])
  {
    var p' := Apply(p, Send(m));
    assert p'.offers[..|p'.offers| - 1] == p.offers;
    if |p.queue| < CAPACITY {
      Regroup(p.lost + p.batch, p.queue, [m]);
      Regroup(Sent(p), Kept(p), [m]);
    }
  }

  lemma Regroup<T>(a: seq<T>, b: seq<T>, c: seq<T>)
    ensures a + b + c == a + (b + c)
  {
  }

  /** No step but Send changes what is held between the two ends. */
  lemma HeldUnchanged<T(!new)>(p: Pipe<T>, step: Step<T>)
    requires Inv(p) && Enabled(p, step) && !step.Send?
    ensures Held(Apply(p, step)) == Held(p)
  {
    match step
    case Take => KeptMoves(p.lost, [], p.queue);
    case TakeFails => KeptMoves(p.lost, [], p.queue);
    case Check => if p.pump.i >= |p.queue| { FlushKeeps(p); }
    case Draw => KeptMoves(p.lost, p.batch, p.queue);
    case Leave =>
    case Break =>
    case ReadFrame =>
      Regroup(p.out, p.wire[0], Flatten(p.wire[1..]));
    case ReadLine =>
      assert p.out + p.lines == p.out + [p.lines[0]] + p.lines[1..];
  }

  lemma KeptMoves<T>(lost: seq<T>, batch: seq<T>, queue: seq<T>)
    requires queue != []
    ensures lost + batch + queue == lost + (batch + [queue[0]]) + queue[1..]
    ensures batch == [] ==> lost + batch + queue == (lost + [queue[0]]) + batch + queue[1..]
    ensures [] + [queue[0]] == [queue[0]]
  {
  }

  lemma FlushKeeps<T(!new)>(p: Pipe<T>)
    requires Inv(p) && p.pump.Test? && p.pump.i >= |p.queue|
    ensures Held(Apply(p, Check)) == Held(p)
  {
    var p' := Apply(p, Check);
    if p.broken {
      assert Kept(p') == Kept(p);
    } else {
      FlattenAppend(p.wire, p.batch);
      Regroup(p.out + p.lines, Flatten(p.wire), p.batch);
      assert Sent(p') == Sent(p) + p.batch;
      assert Kept(p) == p.batch + Kept(p');
    }
  }

  /** Every step of every party keeps the messages, and their order. */
  lemma StepKeeps<T(!new)>(p: Pipe<T>, step: Step<T>)
    requires Inv(p) && Enabled(p, step)
    ensures Inv(Apply(p, step))
    ensures !step.Send? ==> Apply(p, step).offers == p.offers
  {
    if step.Send? {
      SendKeeps(p, step.m);
    } else {
      HeldUnchanged(p, step);
      ShapeKeeps(p, step);
    }
  }

  lemma ShapeKeeps<T(!new)>(p: Pipe<T>, step: Step<T>)
    requires Shape(p) && Enabled(p, step)
    ensures Shape(Apply(p, step))
  {
  }

  lemma RestIsOut<T(!new)>(p: Pipe<T>)
    requires Inv(p) && !p.broken && p.queue == [] && p.pump.Select? && p.wire == [] && p.lines == []
    ensures p.out == Accepted(p.offers)
  {
    assert Flatten<T>([]) == [];
  }

  lemma {:induction false} RunKeeps<T(!new)>(p: Pipe<T>, steps: seq<Step<T>>)
    requires Inv(p) && IsRun(p, steps)
    ensures Inv(Run(p, steps))
    decreases |steps|
  {
    if steps != [] {
      StepKeeps(p, steps[0]);
      RunKeeps(Apply(p, steps[0]), steps[1..]);
    }
  }

  /** Conservation over every run: what the client has taken up, then what is in flight, then
      what is queued is exactly what was accepted, in order; the rejected messages are those
      that met a full queue; and nothing is missing while the connection works. */
  lemma Conservation<T(!new)>(steps: seq<Step<T>>)
    requires IsRun(Start<T>(), steps)
    ensures var p := Run(Start<T>(), steps);
            && Held(p) == Accepted(p.offers)
            && p.out <= Accepted(p.offers)
            && (forall o :: o in p.offers ==> o.depth <= CAPACITY)
            && (!p.broken ==> Sent(p) + p.batch + p.queue == Accepted(p.offers))
  {
    RunKeeps(Start<T>(), steps);
    HeldMeans(Run(Start<T>(), steps));
  }

  lemma HeldMeans<T(!new)>(p: Pipe<T>)
    requires Inv(p)
    ensures p.out <= Held(p)
    ensures !p.broken ==> Held(p) == Sent(p) + p.batch + p.queue
  {
    if !p.broken {
      assert p.lost + p.batch == p.batch;
      Regroup(Sent(p), p.batch, p.queue);
    }
  }

  /** In every run the pump's receive finds a message, its counter never passes the queue's
      capacity, and no frame carries more than CAPACITY + 1 messages. */
  lemma DrawNeverBlocks<T(!new)>(steps: seq<Step<T>>)
    requires IsRun(Start<T>(), steps)
    ensures var p := Run(Start<T>(), steps);
            && (p.pump.Receive? ==> p.queue != [] && p.pump.i < CAPACITY)
            && (p.pump.Test? ==> p.pump.i <= CAPACITY && |p.batch| == p.pump.i + 1)
            && (forall f :: f in p.wire ==> 1 <= |f| <= CAPACITY + 1)
  {
    RunKeeps(Start<T>(), steps);
  }

  /** A client that has caught up has seen every accepted message once, in order. */
  lemma CaughtUp<T(!new)>(steps: seq<Step<T>>)
    requires IsRun(Start<T>(), steps)
    requires var p := Run(Start<T>(), steps);
             !p.broken && p.queue == [] && p.pump.Select? && p.wire == [] && p.lines == []
    ensures Run(Start<T>(), steps).out == Accepted(Run(Start<T>(), steps).offers)
  {
    RunKeeps(Start<T>(), steps);
    RestIsOut(Run(Start<T>(), steps));
  }

  /** How the pump ends: on a broken connection with the message it has taken, or on its own; and after
      that it takes no more. */
  lemma PumpEnds<T(!new)>(p: Pipe<T>, step: Step<T>)
    requires Enabled(p, step)
    ensures step == Break ==> Apply(p, step) == p.(broken := true)
    ensures step == Leave ==> Apply(p, step) == p.(pump := Gone)
    ensures step == TakeFails ==>
              var p' := Apply(p, step);
              p'.pump == Gone && p'.queue == p.queue[1..] && p'.lost == p.lost + [p.queue[0]] && p'.wire == p.wire
    ensures step == Check && p.pump.i >= |p.queue| && p.broken ==>
              Apply(p, step).lost == p.lost + p.batch && Apply(p, step).wire == p.wire
    ensures p.pump == Gone ==>
              Apply(p, step).pump == Gone && (step.Send? || Apply(p, step).queue == p.queue)
  {
  }

  // ---------------------------------------------------------------- progress

  /** What the pump and the client do next of their own accord, if anything is left to do. */
  function NextStep<T>(p: Pipe<T>): Option<Step<T>> {
    if p.lines != [] then Some(ReadLine)
    else if p.wire != [] then Some(ReadFrame)
    else match p.pump
      case Receive(_) => Some(Draw)
      case Test(_) => Some(Check)
      case Select => if p.queue != [] then Some(Take) else None
      case Gone => None
  }

  function Rank(pump: Pump): nat {
    match pump case Test(_) => 2 case Receive(_) => 1 case _ => 0
  }

  predicate AtRest<T>(p: Pipe<T>) {
    p.queue == [] && p.pump.Select? && p.wire == [] && p.lines == []
  }

  /** Nothing that was accepted stays behind: from every state of a working connection the pump and the
      client, by themselves, bring every accepted message out, each once and in order. */
  lemma {:induction false} Drains<T(!new)>(p: Pipe<T>) returns (steps: seq<Step<T>>)
    requires Inv(p) && !p.broken && !p.pump.Gone?
    ensures IsRun(p, steps) && forall st :: st in steps ==> !st.Send? && !st.Break? && !st.TakeFails? && !st.Leave?
    ensures var p' := Run(p, steps); AtRest(p') && p'.offers == p.offers && p'.out == Accepted(p.offers)
    decreases |p.queue|, Rank(p.pump), |p.wire|, |p.lines|
  {
    match NextStep(p)
    case None =>
      steps := [];
      RestIsOut(p);
    case Some(step) =>
      StepKeeps(p, step);
      var rest := Drains(Apply(p, step));
      steps := [step] + rest;
      assert steps[1..] == rest;
  }
}
