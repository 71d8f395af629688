/** The client's calls, pending table, read loop and close protocol (client.go) as a step
    system: a step is what one goroutine does between two points where another may run. */
module ClientCore {
  import opened Option
  import opened Messages

  /** A one-slot response channel. */
  datatype Chan = Chan(slot: Option<Response>, closed: bool)

  datatype Result = Got(r: Response) | ConnectionClosed | Cancelled | SendFailed | MarshalFailed

  /** A call has entered the table; waits in its select; is about to leave the table; has returned. */
  datatype Phase = Registered | Waiting | Leaving(res: Result) | Returned(res: Result)

  datatype Call = Call(name: string, params: Option<Json>, phase: Phase, ch: Chan)

  /** The read loop: between lines, inside a notification handler, holding a response and the
      channel it looked up, or returned. */
  datatype Reader = Ready | InHandler(name: string) | Holding(x: string, r: Response) | Gone

  /** How far the one effective Close has come. */
  datatype Closing = Open | Signalled | Drained | Shut

  /** What became of a line that the read loop has finished with. */
  datatype Fate =
    | HandlerRan(name: string)
    | NoHandler(name: string)
    | Unreadable
    | Delivered(x: string)
    | SlotTaken(x: string)
    | NoWaiter
    | NotTaken

  datatype Client = Client(
    connected: bool,
    once: bool,                 // Close's sync.Once has run
    closing: Closing,
    closes: nat,                // how often close(done) was executed
    pending: set<string>,       // the keys of the pending table
    calls: map<string, Call>,
    handlers: set<string>,
    reader: Reader,
    fates: seq<Fate>,           // one per finished line
    crashed: bool)              // a run-time panic has ended the program

  datatype Step =
    | Connect
    | On(name: string)
    | Begin(x: string, name: string, params: Option<Json>)
    | Write(x: string)
    | Notify
    | Fail(x: string, res: Result)
    | TakeReply(x: string)
    | SeeClosed(x: string)
    | SeeDone(x: string)
    | Cancel(x: string)
    | Leave(x: string)
    | Close
    | Drain
    | CloseConn
    | Take(line: Line)
    | Respond(r: Response)
    | HandlerEnds
    | Deliver
    | ReadFails

  function NewClient(): Client {
    Client(false, false, Open, 0, {}, map[], {}, Ready, [], false)
  }

  predicate InFlight(c: Client, x: string) {
    x in c.calls && !c.calls[x].phase.Returned?
  }

  predicate IsPhase(c: Client, x: string, ph: Phase) {
    x in c.calls && c.calls[x].phase == ph
  }

  predicate Enabled(c: Client, step: Step) {
    !c.crashed &&
    match step
    case Connect => !c.connected
    case On(_) => true
    case Begin(x, _, _) => x !in c.calls
    case Write(x) => IsPhase(c, x, Registered)
    case Notify => true
    case Fail(x, res) => IsPhase(c, x, Registered) && (res == MarshalFailed || (res == SendFailed && c.connected))
    case TakeReply(x) => IsPhase(c, x, Waiting) && c.calls[x].ch.slot.Some?
    case SeeClosed(x) => IsPhase(c, x, Waiting) && c.calls[x].ch == Chan(None, true)
    case SeeDone(x) => IsPhase(c, x, Waiting) && c.closes > 0
    case Cancel(x) => IsPhase(c, x, Waiting)
    case Leave(x) => x in c.calls && c.calls[x].phase.Leaving?
    case Close => true
    case Drain => c.closing == Signalled
    case CloseConn => c.closing == Drained
    case Take(_) => c.connected && c.reader == Ready
    case Respond(_) => c.connected && c.reader == Ready
    case HandlerEnds => c.reader.InHandler?
    case Deliver => c.reader.Holding?
    case ReadFails => c.connected && c.reader == Ready
  }

  function SetPhase(c: Client, x: string, ph: Phase): Client
    requires x in c.calls
  {
    c.(calls := c.calls[x := c.calls[x].(phase := ph)])
  }

  function SetChan(c: Client, x: string, ch: Chan): Client
    requires x in c.calls
  {
    c.(calls := c.calls[x := c.calls[x].(ch := ch)])
  }

  function Finished(c: Client, f: Fate): Client {
    c.(reader := Ready, fates := c.fates + [f])
  }

  /** handleResponse up to its channel send. Looking up an id that is no map key panics. */
  function LookUp(c: Client, r: Response): Client {
    if !Comparable(r.id) then c.(crashed := true)
    else if r.id.JStr? && r.id.s in c.pending then c.(reader := Holding(r.id.s, r))
    else Finished(c, NoWaiter)
  }

  /** The body of readLoop for one line, up to the point where other code runs. */
  function TakeLine(c: Client, line: Line): Client {
    match ClientKind(line)
    case KNotification => (
      match DecodeNotification(line)
      case None => Finished(c, Unreadable)
      case Some(n) =>
        if n.name in c.handlers then c.(reader := InHandler(n.name)) else Finished(c, NoHandler(n.name)))
    case KResponse => (
      match DecodeResponse(line)
      case None => Finished(c, Unreadable)
      case Some(r) => LookUp(c, r))
    case _ => Finished(c, NotTaken)
  }

  /** close(ch) for every channel in the table; closing one a second time would panic. */
  function CloseAll(c: Client): Client {
    if exists x :: x in c.pending && x in c.calls && c.calls[x].ch.closed then c.(crashed := true)
    else
      c.(pending := {}, closing := Drained,
         calls := map x | x in c.calls ::
           if x in c.pending then c.calls[x].(ch := c.calls[x].ch.(closed := true)) else c.calls[x])
  }

  function Apply(c: Client, step: Step): Client
    requires Enabled(c, step)
  {
    match step
    case Connect => c.(connected := true)
    case On(name) => c.(handlers := c.handlers + {name})
    case Begin(x, name, params) =>
      c.(pending := c.pending + {x}, calls := c.calls[x := Call(name, params, Registered, Chan(None, false))])
    case Write(x) => if c.connected then SetPhase(c, x, Waiting) else c.(crashed := true)
    case Notify => if c.connected then c else c.(crashed := true)
    case Fail(x, res) => SetPhase(c, x, Leaving(res))
    case TakeReply(x) =>
      SetPhase(SetChan(c, x, c.calls[x].ch.(slot := None)), x, Leaving(Got(c.calls[x].ch.slot.value)))
    case SeeClosed(x) => SetPhase(c, x, Leaving(ConnectionClosed))
    case SeeDone(x) => SetPhase(c, x, Leaving(ConnectionClosed))
    case Cancel(x) => SetPhase(c, x, Leaving(Cancelled))
    case Leave(x) => SetPhase(c, x, Returned(c.calls[x].phase.res)).(pending := c.pending - {x})
    case Close =>
      if c.once then c
      else if !c.connected then c.(once := true)
      else c.(once := true, closing := Signalled, closes := c.closes + 1)
    case Drain => CloseAll(c)
    case CloseConn => c.(closing := Shut)
    case Take(line) => TakeLine(c, line)
    case Respond(r) => LookUp(c, r)
    case HandlerEnds => Finished(c, HandlerRan(c.reader.name))
    case Deliver => DeliverHeld(c)
    case ReadFails => c.(reader := Gone)
  }

  /** The non-blocking send of handleResponse, which panics on a closed channel. */
  function DeliverHeld(c: Client): Client
    requires c.reader.Holding?
  {
    var x := c.reader.x;
    if x !in c.calls || c.calls[x].ch.closed then c.(crashed := true)
    else if c.calls[x].ch.slot.Some? then Finished(c, SlotTaken(x))
    else Finished(SetChan(c, x, Chan(Some(c.reader.r), false)), Delivered(x))
  }

  predicate IsRun(c: Client, steps: seq<Step>)
    decreases |steps|
  {
    steps == [] || (Enabled(c, steps[0]) && IsRun(Apply(c, steps[0]), steps[1..]))
  }

  function Run(c: Client, steps: seq<Step>): Client
    requires IsRun(c, steps)
    decreases |steps|
  {
    if steps == [] then c else Run(Apply(c, steps[0]), steps[1..])
  }

  // ---------------------------------------------------------------- the invariant

  /** A channel's slot, and a result taken from it, carry the id under which it is filed. */
  ghost predicate CallOk(x: string, call: Call) {
    && (call.ch.slot.Some? ==> call.ch.slot.value.id == JStr(x))
    && (call.phase.Leaving? && call.phase.res.Got? ==> call.phase.res.r.id == JStr(x))
    && (call.phase.Returned? && call.phase.res.Got? ==> call.phase.res.r.id == JStr(x))
  }

  ghost predicate CallsOk(c: Client) {
    forall x :: x in c.calls ==> CallOk(x, c.calls[x])
  }

  /** The table's keys are the calls in flight, though after Close's sweep maybe fewer. */
  ghost predicate TableOk(c: Client) {
    && (forall x :: x in c.pending ==> InFlight(c, x))
    && (forall x :: InFlight(c, x) && !c.calls[x].ch.closed ==> x in c.pending)
    && (c.closing == Open || c.closing == Signalled ==> forall x :: InFlight(c, x) ==> x in c.pending)
  }

  ghost predicate ChansOk(c: Client) {
    && (forall x :: x in c.pending && x in c.calls ==> !c.calls[x].ch.closed)
    && (c.closing == Open || c.closing == Signalled ==> forall x :: x in c.calls ==> !c.calls[x].ch.closed)
  }

  ghost predicate CloseOk(c: Client) {
    && c.closes == (if c.closing == Open then 0 else 1)
    && (c.closing != Open ==> c.once && c.connected)
  }

  ghost predicate ReaderOk(c: Client) {
    c.reader.Holding? ==> c.reader.x in c.calls && c.reader.r.id == JStr(c.reader.x)
  }

  ghost predicate Inv(c: Client) {
    CallsOk(c) && TableOk(c) && ChansOk(c) && CloseOk(c) && ReaderOk(c)
  }

  lemma MoveKeeps(c: Client, x: string, ph: Phase)
    requires Inv(c) && InFlight(c, x) && !ph.Returned?
    requires ph.Leaving? && ph.res.Got? ==> ph.res.r.id == JStr(x)
    ensures Inv(SetPhase(c, x, ph))
  {
    var c' := SetPhase(c, x, ph);
    assert CallsOk(c');
    assert forall y :: InFlight(c', y) <==> InFlight(c, y);
    assert ChansOk(c');
  }

  lemma FillKeeps(c: Client, x: string, slot: Option<Response>)
    requires Inv(c) && x in c.calls && (slot.Some? ==> slot.value.id == JStr(x))
    ensures Inv(SetChan(c, x, c.calls[x].ch.(slot := slot)))
  {
    var c' := SetChan(c, x, c.calls[x].ch.(slot := slot));
    assert CallsOk(c');
    assert forall y :: InFlight(c', y) <==> InFlight(c, y);
    assert ChansOk(c');
  }

  lemma BeginKeeps(c: Client, x: string, name: string, params: Option<Json>)
    requires Inv(c) && Enabled(c, Begin(x, name, params))
    ensures Inv(Apply(c, Begin(x, name, params)))
  {
    var c' := Apply(c, Begin(x, name, params));
    assert CallsOk(c');
    assert forall y :: InFlight(c', y) <==> InFlight(c, y) || y == x;
    assert ChansOk(c');
  }

  lemma LeaveKeeps(c: Client, x: string)
    requires Inv(c) && Enabled(c, Leave(x))
    ensures Inv(Apply(c, Leave(x)))
  {
    var c' := Apply(c, Leave(x));
    assert CallsOk(c');
    assert forall y :: InFlight(c', y) <==> InFlight(c, y) && y != x;
    assert ChansOk(c');
  }

  lemma DrainKeeps(c: Client)
    requires Inv(c) && Enabled(c, Drain)
    ensures Inv(Apply(c, Drain)) && !Apply(c, Drain).crashed
  {
    var c' := Apply(c, Drain);
    assert CallsOk(c');
  }

  lemma ReadKeeps(c: Client, reader: Reader, fates: seq<Fate>, crashed: bool)
    requires Inv(c)
    requires reader.Holding? ==> reader.x in c.calls && reader.r.id == JStr(reader.x)
    ensures Inv(c.(reader := reader, fates := fates, crashed := crashed))
  {
    var c' := c.(reader := reader, fates := fates, crashed := crashed);
    assert forall y :: InFlight(c', y) <==> InFlight(c, y);
  }

  lemma LookUpKeeps(c: Client, r: Response)
    requires Inv(c)
    ensures Inv(LookUp(c, r))
  {
    var c' := LookUp(c, r);
    assert c'.reader.Holding? && c'.reader != c.reader ==> InFlight(c, r.id.s);
    ReadKeeps(c, c'.reader, c'.fates, c'.crashed);
  }

  /** Taking up a line changes neither the calls nor the table. */
  lemma TakeKeeps(c: Client, line: Line)
    requires Inv(c)
    ensures Inv(TakeLine(c, line))
  {
    if ClientKind(line) == KResponse && DecodeResponse(line).Some? {
      LookUpKeeps(c, DecodeResponse(line).value);
    } else {
      var c' := TakeLine(c, line);
      assert c' == c.(reader := c'.reader, fates := c'.fates);
      ReadKeeps(c, c'.reader, c'.fates, c'.crashed);
    }
  }

  lemma DeliverKeeps(c: Client)
    requires Inv(c) && Enabled(c, Deliver)
    ensures Inv(Apply(c, Deliver))
  {
    var x := c.reader.x;
    if !c.calls[x].ch.closed && c.calls[x].ch.slot.None? {
      FillKeeps(c, x, Some(c.reader.r));
      var filled := SetChan(c, x, Chan(Some(c.reader.r), false));
      assert Apply(c, Deliver) == Finished(filled, Delivered(x));
      assert Inv(Finished(filled, Delivered(x)));
    }
  }

  lemma StepKeeps(c: Client, step: Step)
    requires Inv(c) && Enabled(c, step)
    ensures Inv(Apply(c, step))
  {
    match step
    case Begin(x, name, params) => BeginKeeps(c, x, name, params);
    case Write(x) => if c.connected { MoveKeeps(c, x, Waiting); } else { PlainKeeps(c, step); }
    case Fail(x, res) => MoveKeeps(c, x, Leaving(res));
    case TakeReply(x) =>
      FillKeeps(c, x, None);
      MoveKeeps(SetChan(c, x, c.calls[x].ch.(slot := None)), x, Leaving(Got(c.calls[x].ch.slot.value)));
    case SeeClosed(x) => MoveKeeps(c, x, Leaving(ConnectionClosed));
    case SeeDone(x) => MoveKeeps(c, x, Leaving(ConnectionClosed));
    case Cancel(x) => MoveKeeps(c, x, Leaving(Cancelled));
    case Leave(x) => LeaveKeeps(c, x);
    case Drain => DrainKeeps(c);
    case Take(line) => TakeKeeps(c, line);
    case Respond(r) => LookUpKeeps(c, r);
    case Deliver => DeliverKeeps(c);
    case _ => PlainKeeps(c, step);
  }

  lemma PlainKeeps(c: Client, step: Step)
    requires Inv(c) && Enabled(c, step)
    requires step.Connect? || step.On? || (step.Write? && !c.connected) || step.Notify? || step.Close? || step.CloseConn? || step.HandlerEnds? || step.ReadFails?
    ensures Inv(Apply(c, step))
  {
    var c' := Apply(c, step);
    assert c'.calls == c.calls && c'.pending == c.pending;
    assert forall y :: InFlight(c', y) <==> InFlight(c, y);
  }

  lemma {:induction false} RunKeeps(c: Client, steps: seq<Step>)
    requires Inv(c) && IsRun(c, steps)
    ensures Inv(Run(c, steps))
    decreases |steps|
  {
    if steps != [] {
      StepKeeps(c, steps[0]);
      RunKeeps(Apply(c, steps[0]), steps[1..]);
    }
  }

  // ---------------------------------------------------------------- where responses come from

  /** The client holds r for the call x: looked up, in its channel, or taken as its result. */
  ghost predicate Present(c: Client, x: string, r: Response) {
    c.reader == Holding(x, r) || Has(c, x, r)
  }

  /** The call has got r: in its channel, or as its result. */
  predicate Has(c: Client, x: string, r: Response) {
    x in c.calls &&
    (c.calls[x].ch.slot == Some(r) || c.calls[x].phase == Leaving(Got(r)) || c.calls[x].phase == Returned(Got(r)))
  }

  lemma LookUpPresent(c: Client, r0: Response, x: string, r: Response)
    requires Present(LookUp(c, r0), x, r) && !Present(c, x, r)
    ensures r0 == r && r.id == JStr(x) && x in c.pending && LookUp(c, r0).reader == Holding(x, r)
  {
  }

  lemma TakePresent(c: Client, line: Line, x: string, r: Response)
    requires Present(TakeLine(c, line), x, r) && !Present(c, x, r)
    ensures ClientKind(line) == KResponse && DecodeResponse(line) == Some(r)
    ensures r.id == JStr(x) && x in c.pending && TakeLine(c, line).reader == Holding(x, r)
  {
    if ClientKind(line) == KResponse && DecodeResponse(line).Some? {
      LookUpPresent(c, DecodeResponse(line).value, x, r);
    }
  }

  lemma DeliverPresent(c: Client, x: string, r: Response)
    requires c.reader.Holding? && Present(DeliverHeld(c), x, r)
    ensures Present(c, x, r)
  {
  }

  /** A response comes to a call in one way only: read as a line, under the call's own id. */
  lemma ResponsesComeFromLines(c: Client, step: Step, x: string, r: Response)
    requires Inv(c) && Enabled(c, step) && Present(Apply(c, step), x, r) && !Present(c, x, r)
    ensures r.id == JStr(x) && x in c.pending && Apply(c, step).reader == Holding(x, r)
    ensures step == Respond(r) ||
            (step.Take? && ClientKind(step.line) == KResponse && DecodeResponse(step.line) == Some(r))
  {
    match step
    case Take(line) => TakePresent(c, line, x, r);
    case Respond(r0) => LookUpPresent(c, r0, x, r);
    case Deliver => DeliverPresent(c, x, r);
    case _ => NothingNew(c, step, x, r);
  }

  lemma NothingNew(c: Client, step: Step, x: string, r: Response)
    requires Enabled(c, step) && !step.Take? && !step.Respond? && !step.Deliver?
    requires Present(Apply(c, step), x, r)
    ensures Present(c, x, r)
  {
    var c' := Apply(c, step);
    assert c'.reader == Holding(x, r) ==> c.reader == c'.reader;
    assert x in c'.calls && x !in c.calls ==> c'.calls[x].phase == Registered;
  }

  /** A call gets a response by its delivery alone. */
  lemma HasByDelivery(c: Client, step: Step, x: string, r: Response)
    requires Enabled(c, step) && Has(Apply(c, step), x, r) && !Has(c, x, r)
    ensures step == Deliver && c.reader == Holding(x, r) && Apply(c, step).fates == c.fates + [Delivered(x)]
  {
    match step
    case Take(line) => TakeSame(c, line);
    case Respond(r0) =>
    case _ => HasOtherwise(c, step, x, r);
  }

  lemma TakeSame(c: Client, line: Line)
    ensures TakeLine(c, line).calls == c.calls
  {
  }

  lemma HasOtherwise(c: Client, step: Step, x: string, r: Response)
    requires Enabled(c, step) && !step.Take? && !step.Respond? && Has(Apply(c, step), x, r) && !Has(c, x, r)
    ensures step == Deliver && c.reader == Holding(x, r) && Apply(c, step).fates == c.fates + [Delivered(x)]
  {
  }

  /** The reader comes to hold a response by taking up the line with it. */
  lemma HeldIsNew(c: Client, step: Step)
    requires Enabled(c, step) && !step.Respond? && Apply(c, step).reader.Holding? && Apply(c, step).reader != c.reader
    ensures step.Take? && ClientKind(step.line) == KResponse
    ensures DecodeResponse(step.line) == Some(Apply(c, step).reader.r)
    ensures Apply(c, step).reader.r.id == JStr(Apply(c, step).reader.x)
  {
  }

  /** What a reader that holds a response finishes with is its delivery. */
  lemma OnlyDelivery(c: Client, step: Step)
    requires Enabled(c, step) && c.reader.Holding? && !step.Take? && |Apply(c, step).fates| > |c.fates|
    ensures step == Deliver && !Apply(c, step).crashed
  {
  }

  /** What a reader inside a handler finishes with is that handler's end. */
  lemma OnlyHandlerEnds(c: Client, step: Step)
    requires Enabled(c, step) && c.reader.InHandler? && |Apply(c, step).fates| > |c.fates|
    ensures step == HandlerEnds && Apply(c, step).fates == c.fates + [HandlerRan(c.reader.name)]
  {
  }

  /** A reader that is busy stays with its line until it is finished. */
  lemma BusyStays(c: Client, step: Step)
    requires Enabled(c, step) && c.reader != Ready && c.reader != Gone
    requires |Apply(c, step).fates| == |c.fates|
    ensures Apply(c, step).reader == c.reader
  {
  }

  /** A response is looked up in vain only when its call does not wait. */
  lemma LookUpEnds(c: Client, r: Response)
    requires Inv(c) && r.id.JStr?
    ensures var c' := LookUp(c, r);
            && c'.calls == c.calls
            && ((c'.reader == Holding(r.id.s, r) && c'.fates == c.fates)
                || (c' == Finished(c, NoWaiter) && !Waits(c', r.id.s)))
  {
  }

  lemma FreeSlotTakes(c: Client)
    requires Enabled(c, Deliver) && c.reader.x in c.calls && c.calls[c.reader.x].ch.slot == None
    ensures var x, c' := c.reader.x, Apply(c, Deliver);
            if c.calls[x].ch.closed then c'.crashed
            else x in c'.calls && c'.calls[x].ch == Chan(Some(c.reader.r), false) && c'.fates == c.fates + [Delivered(x)]
  {
  }

  /** What a step adds to the record of finished lines. A response is thrown away at a taken slot
      only when it is delivered to a channel that holds one. */
  lemma FatesGrow(c: Client, step: Step)
    requires Enabled(c, step)
    ensures c.fates <= Apply(c, step).fates && |Apply(c, step).fates| <= |c.fates| + 1
    ensures |Apply(c, step).fates| == |c.fates| + 1 && Apply(c, step).fates[|c.fates|].SlotTaken? ==>
              step == Deliver && c.reader.x in c.calls && c.calls[c.reader.x].ch.slot.Some?
  {
    if step.Take? {
      TakeGrows(c, step.line);
    }
  }

  lemma TakeGrows(c: Client, line: Line)
    ensures var fates := TakeLine(c, line).fates;
            fates == c.fates || (|fates| == |c.fates| + 1 && c.fates <= fates && !fates[|c.fates|].SlotTaken?)
  {
    match ClientKind(line)
    case KNotification =>
    case KResponse =>
      if DecodeResponse(line).Some? {
        LookUpGrows(c, DecodeResponse(line).value);
      }
    case _ =>
  }

  lemma LookUpGrows(c: Client, r: Response)
    ensures var fates := LookUp(c, r).fates; fates == c.fates || fates == c.fates + [NoWaiter]
  {
  }

  /** Calls keep what they asked for, and leave the registered phase for good. */
  lemma CallsPersist(c: Client, step: Step, x: string)
    requires Enabled(c, step) && x in c.calls
    ensures var c' := Apply(c, step);
            && x in c'.calls && c'.calls[x].name == c.calls[x].name && c'.calls[x].params == c.calls[x].params
            && (c'.calls[x].phase == Registered ==> c.calls[x].phase == Registered && (step == Write(x) ==> c'.crashed))
  {
    match step
    case Take(line) => TakeSame(c, line);
    case Drain => DrainSame(c, x);
    case _ =>
  }

  /** Closing the channels changes nothing else about the calls. */
  lemma DrainSame(c: Client, x: string)
    requires x in c.calls
    ensures x in CloseAll(c).calls && CloseAll(c).calls[x].(ch := c.calls[x].ch) == c.calls[x]
    ensures c.calls[x].ch.closed ==> CloseAll(c).calls[x].ch.closed
    ensures CloseAll(c).calls[x].ch.slot == c.calls[x].ch.slot && CloseAll(c).connected == c.connected
  {
  }

  /** The result that a call is about to return, or has returned. */
  function ResultOf(c: Client, x: string): Option<Result>
    requires x in c.calls
  {
    match c.calls[x].phase
    case Leaving(res) => Some(res)
    case Returned(res) => Some(res)
    case _ => None
  }

  lemma ResultStays(c: Client, step: Step, x: string)
    requires Enabled(c, step) && x in c.calls && ResultOf(c, x).Some?
    ensures x in Apply(c, step).calls && ResultOf(Apply(c, step), x) == ResultOf(c, x)
  {
  }

  /** A call consumes one response at most: once it has its result, that result stays. */
  lemma {:induction false} OneResult(c: Client, steps: seq<Step>, x: string)
    requires IsRun(c, steps) && x in c.calls && ResultOf(c, x).Some?
    ensures x in Run(c, steps).calls && ResultOf(Run(c, steps), x) == ResultOf(c, x)
    ensures forall i :: 0 <= i < |steps| ==> steps[i] != TakeReply(x)
    decreases |steps|
  {
    if steps != [] {
      ResultStays(c, steps[0], x);
      OneResult(Apply(c, steps[0]), steps[1..], x);
      assert forall i :: 0 < i < |steps| ==> steps[i] == steps[1..][i - 1];
    }
  }

  // ---------------------------------------------------------------- what a call comes to

  /** A call enters with what it asks for and an empty channel; each way out of its select gives it the
      result that belongs to it, a response taken being its result as it is; and nothing but the
      call's own steps moves it on. */
  lemma CallExactly(c: Client, step: Step, x: string)
    requires Enabled(c, step)
    ensures step.Begin? && step.x == x ==>
              Apply(c, step).calls == c.calls[x := Call(step.name, step.params, Registered, Chan(None, false))]
              && Apply(c, step).pending == c.pending + {x}
    ensures x in c.calls ==> x in Apply(c, step).calls
    ensures x in c.calls ==>
              var before, after := c.calls[x], Apply(c, step).calls[x];
              && (step == Write(x) && c.connected ==> after.phase == Waiting)
              && (step.Fail? && step.x == x ==> after.phase == Leaving(step.res))
              && (step == TakeReply(x) ==>
                    before.ch.slot.Some? && after.phase == Leaving(Got(before.ch.slot.value)) && after.ch.slot == None)
              && (step == SeeClosed(x) || step == SeeDone(x) ==> after.phase == Leaving(ConnectionClosed))
              && (step == Cancel(x) ==> after.phase == Leaving(Cancelled))
              && (step == Leave(x) ==>
                    before.phase.Leaving? && after.phase == Returned(before.phase.res) && x !in Apply(c, step).pending)
              && (!Own(x, step) ==> after.phase == before.phase)
  {
    match step
    case Take(line) => TakeSame(c, line);
    case Drain => if x in c.calls { DrainSame(c, x); }
    case _ =>
  }

  /** When each way out is open: a response that is there, a closed channel with none, done closed, and
      the context's end at any time. */
  lemma WaysOut(c: Client, x: string)
    requires !c.crashed && x in c.calls && c.calls[x].phase == Waiting
    ensures Enabled(c, TakeReply(x)) <==> c.calls[x].ch.slot.Some?
    ensures Enabled(c, SeeClosed(x)) <==> c.calls[x].ch.slot.None? && c.calls[x].ch.closed
    ensures Enabled(c, SeeDone(x)) <==> c.closes > 0
    ensures Enabled(c, Cancel(x)) && !Enabled(c, Write(x)) && !Enabled(c, Leave(x))
  {
  }

  /** The read loop looked this response up for the call, and delivered it, in the course of the run. */
  ghost predicate DeliveredIn(steps: seq<Step>, x: string, r: Response) {
    exists j :: 0 <= j < |steps| && DeliveredAt(steps, j, x, r)
  }

  ghost predicate DeliveredAt(steps: seq<Step>, j: nat, x: string, r: Response)
    requires j < |steps|
  {
    steps[j] == Deliver && IsRun(NewClient(), steps[..j]) && Run(NewClient(), steps[..j]).reader == Holding(x, r)
  }

  lemma {:induction false} HasWasDelivered(steps: seq<Step>, x: string, r: Response)
    requires IsRun(NewClient(), steps) && Has(Run(NewClient(), steps), x, r)
    ensures DeliveredIn(steps, x, r)
    decreases |steps|
  {
    if steps != [] {
      var n := |steps| - 1;
      var front := steps[..n];
      RunSplit(NewClient(), steps, n);
      LastStep(Run(NewClient(), front), steps[n..]);
      if Has(Run(NewClient(), front), x, r) {
        HasWasDelivered(front, x, r);
        var j :| 0 <= j < n && DeliveredAt(front, j, x, r);
        assert front[..j] == steps[..j];
        assert DeliveredAt(steps, j, x, r);
      } else {
        HasByDelivery(Run(NewClient(), front), steps[n], x, r);
        assert DeliveredAt(steps, n, x, r);
      }
    }
  }

  lemma LastStep(c: Client, steps: seq<Step>)
    requires |steps| == 1 && IsRun(c, steps)
    ensures Enabled(c, steps[0]) && Run(c, steps) == Apply(c, steps[0])
  {
    assert steps[1..] == [];
  }

  lemma {:induction false} RunSplit(c: Client, steps: seq<Step>, i: nat)
    requires IsRun(c, steps) && i <= |steps|
    ensures IsRun(c, steps[..i]) && IsRun(Run(c, steps[..i]), steps[i..])
    ensures Run(c, steps) == Run(Run(c, steps[..i]), steps[i..])
    decreases i
  {
    if i == 0 {
      assert steps[..0] == [] && steps[0..] == steps;
    } else {
      assert steps[..i][0] == steps[0] && steps[..i][1..] == steps[1..][..i - 1] && steps[1..][i - 1..] == steps[i..];
      RunSplit(Apply(c, steps[0]), steps[1..], i - 1);
    }
  }

  /** Over every run: a call that takes a response returns that one, which the read loop had looked up
      for it and delivered to it. */
  lemma ReturnsWhatWasDelivered(steps: seq<Step>, i: nat, x: string) returns (r: Response)
    requires IsRun(NewClient(), steps) && i < |steps| && steps[i] == TakeReply(x)
    ensures DeliveredIn(steps[..i], x, r) && r.id == JStr(x)
    ensures x in Run(NewClient(), steps).calls && ResultOf(Run(NewClient(), steps), x) == Some(Got(r))
  {
    RunSplit(NewClient(), steps, i);
    var c, rest := Run(NewClient(), steps[..i]), steps[i..];
    RunKeeps(NewClient(), steps[..i]);
    assert Enabled(c, rest[0]) && rest[0] == TakeReply(x);
    r := c.calls[x].ch.slot.value;
    assert CallOk(x, c.calls[x]);
    HasWasDelivered(steps[..i], x, r);
    TakenIsReturned(c, rest, x, r);
  }

  lemma TakenIsReturned(c: Client, steps: seq<Step>, x: string, r: Response)
    requires steps != [] && IsRun(c, steps) && steps[0] == TakeReply(x) && c.calls[x].ch.slot == Some(r)
    ensures x in Run(c, steps).calls && ResultOf(Run(c, steps), x) == Some(Got(r))
  {
    CallExactly(c, TakeReply(x), x);
    OneResult(Apply(c, TakeReply(x)), steps[1..], x);
  }

  /** What the read loop does with a notification: it runs the handler registered for it to its end, if
      there is one, before the next line. */
  lemma HandlersRunExactly(c: Client, n: Notification, line: Line)
    requires !c.crashed && c.connected && c.reader == Ready
    requires ClientKind(line) == KNotification && DecodeNotification(line) == Some(n)
    ensures var c' := Apply(c, Take(line));
            if n.name in c.handlers
            then c'.reader == InHandler(n.name) && Enabled(c', HandlerEnds) && !Enabled(c', Take(line))
                 && Apply(c', HandlerEnds).fates == c.fates + [HandlerRan(n.name)]
                 && Apply(c', HandlerEnds).reader == Ready
            else c'.reader == Ready && c'.fates == c.fates + [NoHandler(n.name)]
  {
  }

  /** A handler stays registered once On has registered it. */
  lemma {:induction false} HandlersStay(c: Client, steps: seq<Step>)
    requires IsRun(c, steps)
    ensures c.handlers <= Run(c, steps).handlers
    ensures forall st :: st in steps && st.On? ==> st.name in Run(c, steps).handlers
    decreases |steps|
  {
    if steps != [] {
      HandlersGrow(c, steps[0]);
      HandlersStay(Apply(c, steps[0]), steps[1..]);
    }
  }

  lemma HandlersGrow(c: Client, step: Step)
    requires Enabled(c, step)
    ensures Apply(c, step).handlers == if step.On? then c.handlers + {step.name} else c.handlers
  {
  }

  // ---------------------------------------------------------------- the pending table

  /** Over every run, against any peer: the table's keys are calls in flight, and all of them
      until Close sweeps the table; a channel holds at most one response, and its id is the
      key's; a call that returns with a response returns one with its own id; and once all
      calls have returned the table is empty. */
  lemma PendingTable(steps: seq<Step>)
    requires IsRun(NewClient(), steps)
    ensures var c := Run(NewClient(), steps);
            && (forall x :: x in c.pending ==> InFlight(c, x))
            && (c.closing == Open || c.closing == Signalled ==> c.pending == set x | x in c.calls && InFlight(c, x))
            && (forall x :: x in c.calls && c.calls[x].ch.slot.Some? ==> c.calls[x].ch.slot.value.id == JStr(x))
            && (forall x :: x in c.calls && c.calls[x].phase.Returned? && c.calls[x].phase.res.Got? ==>
                  c.calls[x].phase.res.r.id == JStr(x))
            && ((forall x :: x in c.calls ==> c.calls[x].phase.Returned?) ==> c.pending == {})
  {
    RunKeeps(NewClient(), steps);
    var c := Run(NewClient(), steps);
    assert forall x :: x in c.calls ==> CallOk(x, c.calls[x]);
  }

  // ---------------------------------------------------------------- the close protocol

  /** How a connection comes and goes: Connect makes it; the first Close that finds it signals, sweeps the
      table and closes the connection, in this order; and a read that fails ends the read loop. */
  lemma ConnectionExactly(c: Client, step: Step, line: Line)
    requires Inv(c) && Enabled(c, step)
    ensures step == Connect ==> Apply(c, step).connected
    ensures step == Close && !c.once && c.connected ==>
              Apply(c, step).closing == Signalled && Enabled(Apply(c, step), Drain) && Apply(c, step).closes == c.closes + 1
    ensures step == Drain ==>
              && Apply(c, step).closing == Drained && Apply(c, step).pending == {} && Enabled(Apply(c, step), CloseConn)
              && forall x :: x in c.pending ==> Apply(c, step).calls[x].ch == Chan(c.calls[x].ch.slot, true)
    ensures step == CloseConn ==> Apply(c, step).closing == Shut
    ensures step == ReadFails ==>
              var c' := Apply(c, step);
              c'.reader == Gone && !Enabled(c', Take(line)) && !Enabled(c', Deliver) && !Enabled(c', HandlerEnds)
  {
    if step == Drain {
      DrainKeeps(c);
    }
  }

  /** However Close calls of the caller and of the read loop interleave with everything else,
      done is closed at most once, and exactly when a Close has found a connection. */
  lemma CloseOnce(steps: seq<Step>)
    requires IsRun(NewClient(), steps)
    ensures var c := Run(NewClient(), steps);
            && c.closes <= 1 && (c.closes == 1 <==> c.closing != Open)
            && (c.closes == 1 && !c.crashed ==> Apply(c, Close) == c)
            && (c.closes == 0 && !c.once && c.connected && !c.crashed ==> Apply(c, Close).closes == 1)
  {
    RunKeeps(NewClient(), steps);
  }

  /** Exactly when a step ends the program in a panic: a delivery whose channel Close has swept
      between look-up and send, a response whose id is an array or an object, or something to
      write before any Connect has succeeded, when there is no connection yet. Sweeping the
      table itself never closes a channel twice. */
  lemma CrashExactly(c: Client, step: Step)
    requires Inv(c) && Enabled(c, step)
    ensures Apply(c, step).crashed <==>
            || (step == Deliver && c.calls[c.reader.x].ch.closed)
            || (step.Respond? && !Comparable(step.r.id))
            || (step.Take? && ClientKind(step.line) == KResponse && DecodeResponse(step.line).Some?
                && !Comparable(DecodeResponse(step.line).value.id))
            || ((step.Write? || step.Notify?) && !c.connected)
    ensures step == Deliver && Apply(c, step).crashed ==> c.closing == Drained || c.closing == Shut
  {
    if step == Drain {
      DrainKeeps(c);
    }
  }

  /** A concrete run for the first family: a response is looked up, Close sweeps the table, and
      the delivery meets a closed channel. */
  lemma CloseDuringDelivery() returns (steps: seq<Step>)
    ensures IsRun(NewClient(), steps) && Run(NewClient(), steps).crashed
    ensures forall st :: st in steps && st.Take? ==> st.line == Parsed(JObj(map["id" := JStr("x"), "result" := JInt(1)]))
  {
    var line := Parsed(JObj(map["id" := JStr("x"), "result" := JInt(1)]));
    assert DecodeResponse(line) == Some(Response(JStr("x"), Some(JInt(1)), None)) && ClientKind(line) == KResponse;
    steps := Snoc(NewClient(), [], Connect);
    steps := Snoc(NewClient(), steps, Begin("x", "m", None));
    steps := Snoc(NewClient(), steps, Write("x"));
    steps := Snoc(NewClient(), steps, Take(line));
    assert Run(NewClient(), steps).reader.Holding?;
    steps := SweepUnder(steps);
  }

  /** And one for the last: NewClient, then Call. */
  lemma CallBeforeConnect() returns (steps: seq<Step>)
    ensures IsRun(NewClient(), steps) && Run(NewClient(), steps).crashed
    ensures forall st :: st in steps ==> st.Begin? || st.Write?
  {
    steps := Snoc(NewClient(), [], Begin("x", "m", None));
    steps := Snoc(NewClient(), steps, Write("x"));
  }

  lemma SweepUnder(held: seq<Step>) returns (steps: seq<Step>)
    requires IsRun(NewClient(), held)
    requires var c := Run(NewClient(), held);
             !c.crashed && !c.once && c.reader.Holding? && c.reader.x in c.pending && c.connected
    ensures IsRun(NewClient(), steps) && steps == held + [Close, Drain, Deliver]
    ensures Run(NewClient(), steps).crashed
  {
    RunKeeps(NewClient(), held);
    var c := Run(NewClient(), held);
    SweptUnder(c);
    InARow(c, Close, Drain, Deliver);
    RunAppend(NewClient(), held, [Close, Drain, Deliver]);
    steps := held + [Close, Drain, Deliver];
  }

  lemma SweptUnder(c: Client)
    requires Inv(c) && !c.crashed && !c.once && c.connected && c.reader.Holding? && c.reader.x in c.pending
    ensures var c1 := Apply(c, Close);
            && Enabled(c1, Drain) && Enabled(Apply(c1, Drain), Deliver)
            && Apply(Apply(c1, Drain), Deliver).crashed
  {
    PlainKeeps(c, Close);
    DrainKeeps(Apply(c, Close));
  }

  lemma InARow(c: Client, first: Step, second: Step, third: Step)
    requires Enabled(c, first) && Enabled(Apply(c, first), second) && Enabled(Apply(Apply(c, first), second), third)
    ensures IsRun(c, [first, second, third])
    ensures Run(c, [first, second, third]) == Apply(Apply(Apply(c, first), second), third)
  {
    var c1 := Apply(c, first);
    Prepend(Apply(c1, second), third, []);
    Prepend(c1, second, [third]);
    Prepend(c, first, [second, third]);
    assert [third] + [] == [third] && [second] + [third] == [second, third];
    assert [first] + [second, third] == [first, second, third];
  }

  lemma Prepend(c: Client, step: Step, rest: seq<Step>)
    requires Enabled(c, step) && IsRun(Apply(c, step), rest)
    ensures IsRun(c, [step] + rest) && Run(c, [step] + rest) == Run(Apply(c, step), rest)
  {
    assert ([step] + rest)[1..] == rest;
  }

  lemma Snoc(c: Client, steps: seq<Step>, step: Step) returns (longer: seq<Step>)
    requires IsRun(c, steps) && Enabled(Run(c, steps), step)
    ensures longer == steps + [step]
    ensures IsRun(c, longer) && Run(c, longer) == Apply(Run(c, steps), step)
  {
    longer := steps + [step];
    assert [step][1..] == [];
    RunAppend(c, steps, [step]);
  }

  lemma {:induction false} RunAppend(c: Client, a: seq<Step>, b: seq<Step>)
    requires IsRun(c, a) && IsRun(Run(c, a), b)
    ensures IsRun(c, a + b) && Run(c, a + b) == Run(Run(c, a), b)
    decreases |a|
  {
    if a == [] {
      assert a + b == b;
    } else {
      assert (a + b)[0] == a[0] && (a + b)[1..] == a[1..] + b;
      RunAppend(Apply(c, a[0]), a[1..], b);
    }
  }

  /** The steps that belong to the call x alone. */
  predicate Own(x: string, step: Step) {
    match step
    case Write(y) => x == y
    case Fail(y, _) => x == y
    case TakeReply(y) => x == y
    case SeeClosed(y) => x == y
    case SeeDone(y) => x == y
    case Cancel(y) => x == y
    case Leave(y) => x == y
    case _ => false
  }

  /** After an effective Close a waiting call can go on, and no step of any other goroutine
      takes that away: only its own next step ends the wait. */
  lemma NobodyWaitsForever(c: Client, x: string, step: Step)
    requires Inv(c) && c.closes > 0 && IsPhase(c, x, Waiting) && Enabled(c, step)
    ensures Enabled(c, SeeDone(x))
    ensures !Own(x, step) && !Apply(c, step).crashed ==>
              var c' := Apply(c, step); c'.closes > 0 && IsPhase(c', x, Waiting) && Enabled(c', SeeDone(x))
    ensures Own(x, step) ==> Apply(c, step).calls[x].phase.Leaving?
  {
  }

  /** How many steps of its own a call has left at most: write or fail, end the wait, leave. */
  function StepsLeft(c: Client, x: string): nat {
    if x !in c.calls then 3
    else match c.calls[x].phase
      case Registered => 3
      case Waiting => 2
      case Leaving(_) => 1
      case Returned(_) => 0
  }

  function OwnCount(x: string, steps: seq<Step>): nat {
    if steps == [] then 0 else (if Own(x, steps[0]) then 1 else 0) + OwnCount(x, steps[1..])
  }

  lemma OwnStepCounts(c: Client, x: string, step: Step)
    requires Enabled(c, step) && x in c.calls && c.connected
    ensures x in Apply(c, step).calls && Apply(c, step).connected
    ensures StepsLeft(Apply(c, step), x) + (if Own(x, step) then 1 else 0) <= StepsLeft(c, x)
  {
    match step
    case Take(line) => TakeSame(c, line);
    case Drain => DrainSame(c, x);
    case _ => OtherStepCounts(c, x, step);
  }

  lemma OtherStepCounts(c: Client, x: string, step: Step)
    requires Enabled(c, step) && x in c.calls && c.connected && !step.Take? && !step.Drain?
    ensures x in Apply(c, step).calls && Apply(c, step).connected
    ensures StepsLeft(Apply(c, step), x) + (if Own(x, step) then 1 else 0) <= StepsLeft(c, x)
  {
  }

  lemma {:induction false} OwnSteps(c: Client, steps: seq<Step>, x: string)
    requires IsRun(c, steps) && x in c.calls && c.connected
    ensures x in Run(c, steps).calls && OwnCount(x, steps) + StepsLeft(Run(c, steps), x) <= StepsLeft(c, x)
    decreases |steps|
  {
    if steps != [] {
      OwnStepCounts(c, x, steps[0]);
      OwnSteps(Apply(c, steps[0]), steps[1..], x);
    }
  }

  /** Some step of the call's own can be taken. */
  predicate CanGoOn(c: Client, x: string) {
    Enabled(c, Write(x)) || Enabled(c, SeeDone(x)) || Enabled(c, Leave(x))
  }

  lemma AfterClose(c: Client, x: string)
    requires Inv(c) && !c.crashed && c.closes > 0
    ensures InFlight(c, x) <==> CanGoOn(c, x)
    ensures (forall y :: !CanGoOn(c, y)) ==> c.pending == {} && forall y :: y in c.calls ==> c.calls[y].phase.Returned?
  {
    if forall y :: !CanGoOn(c, y) {
      forall y | y in c.calls
        ensures c.calls[y].phase.Returned?
      {
        assert !CanGoOn(c, y);
      }
    }
  }

  lemma {:induction false} ClosesStay(c: Client, steps: seq<Step>)
    requires Inv(c) && IsRun(c, steps)
    ensures Inv(Run(c, steps)) && Run(c, steps).closes >= c.closes
    decreases |steps|
  {
    if steps != [] {
      StepKeeps(c, steps[0]);
      ClosesStay(Apply(c, steps[0]), steps[1..]);
    }
  }

  /** After an effective Close, in every schedule of the calls, the read loop, Close and the peer: a
      call takes three steps of its own at most, and has one to take exactly as long as it has not
      returned. So calls that are given their turns all return; and when none of them can go
      on any more, all have returned and the table is empty. */
  lemma CloseFreesEveryone(c: Client, steps: seq<Step>, x: string)
    requires Inv(c) && c.closes > 0 && IsRun(c, steps) && x in c.calls
    ensures OwnCount(x, steps) <= 3
    ensures var c' := Run(c, steps);
            !c'.crashed ==>
              && (InFlight(c', x) <==> CanGoOn(c', x))
              && ((forall y :: !CanGoOn(c', y)) ==>
                    c'.pending == {} && forall y :: y in c'.calls ==> c'.calls[y].phase.Returned?)
  {
    OwnSteps(c, steps, x);
    ClosesStay(c, steps);
    if !Run(c, steps).crashed {
      AfterClose(Run(c, steps), x);
    }
  }

  // ---------------------------------------------------------------- a call that still waits

  /** The call has no result yet and its channel is open. */
  predicate Waits(c: Client, x: string) {
    x in c.calls && (c.calls[x].phase == Registered || c.calls[x].phase == Waiting) && !c.calls[x].ch.closed
  }

  /** A call that waits has waited from its start, and lost nothing from its channel. */
  lemma WaitsStay(c: Client, step: Step, x: string)
    requires Enabled(c, step) && x in c.calls && Waits(Apply(c, step), x)
    ensures Waits(c, x)
    ensures c.calls[x].ch.slot.Some? ==> Apply(c, step).calls[x].ch.slot == c.calls[x].ch.slot
  {
    match step
    case Take(line) => TakeSame(c, line);
    case Drain => DrainSame(c, x);
    case _ => WaitsOtherwise(c, step, x);
  }

  lemma WaitsOtherwise(c: Client, step: Step, x: string)
    requires Enabled(c, step) && !step.Take? && !step.Drain? && x in c.calls && Waits(Apply(c, step), x)
    ensures Waits(c, x)
    ensures c.calls[x].ch.slot.Some? ==> Apply(c, step).calls[x].ch.slot == c.calls[x].ch.slot
  {
  }
}
