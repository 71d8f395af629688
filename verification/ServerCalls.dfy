/** The server's own calls to a client (Server.Call in server.go): the same table as the client's,
    but nobody closes its channels, the connection's end is not announced to the waiting
    caller, and the request goes into a queue that removeClient may close under it. */
module ServerCalls {
  import opened Option
  import opened Messages
  import opened ClientCore

  datatype Table = Table(
    core: Client,
    added: bool,           // hubLoop has added the client, which it does once
    listed: bool,          // the client is in the server's table of clients
    leaving: bool,         // removeClient has deleted it, and not yet closed its queue
    queueClosed: bool)

  /** GetClient and the entry of the call; its sendToClient; the rest of the call and the delivery
      of responses; and what hubLoop, removeClient and Shutdown do to the client meanwhile. */
  datatype Step =
    | Call(x: string, name: string, params: Option<Json>)
    | Send(x: string)
    | Core(step: ClientCore.Step)
    | List
    | Remove
    | CloseQueue
    | Shutdown

  function NewTable(): Table {
    Table(NewClient().(connected := true), false, false, false, false)
  }

  predicate CoreStep(step: ClientCore.Step) {
    step.TakeReply? || step.Cancel? || step.Leave? || step.Respond? || step.Deliver?
  }

  predicate Enabled(t: Table, step: Step) {
    !t.core.crashed &&
    match step
    case Call(x, _, _) => x !in t.core.calls
    case Send(x) => IsPhase(t.core, x, Registered)
    case Core(st) => CoreStep(st) && ClientCore.Enabled(t.core, st)
    case List => !t.added
    case Remove => true
    case CloseQueue => t.leaving
    case Shutdown => true
  }

  function Apply(t: Table, step: Step): Table
    requires Enabled(t, step)
  {
    match step
    case Call(x, name, params) =>
      if t.listed then t.(core := ClientCore.Apply(t.core, Begin(x, name, params))) else t
    case Send(x) =>
      t.(core := if t.queueClosed then t.core.(crashed := true) else SetPhase(t.core, x, Waiting))
    case Core(st) => t.(core := ClientCore.Apply(t.core, st))
    case List => t.(added := true, listed := true)
    case Remove => if t.listed then t.(listed := false, leaving := true) else t
    case CloseQueue => t.(leaving := false, queueClosed := true)
    case Shutdown => t.(listed := false)
  }

  predicate IsRun(t: Table, steps: seq<Step>)
    decreases |steps|
  {
    steps == [] || (Enabled(t, steps[0]) && IsRun(Apply(t, steps[0]), steps[1..]))
  }

  function Run(t: Table, steps: seq<Step>): Table
    requires IsRun(t, steps)
    decreases |steps|
  {
    if steps == [] then t else Run(Apply(t, steps[0]), steps[1..])
  }

  /** Nobody closes done or a channel. */
  ghost predicate TableInv(t: Table) {
    Inv(t.core) && t.core.closing == Open && t.core.connected
  }

  lemma TableStep(t: Table, step: Step)
    requires TableInv(t) && Enabled(t, step)
    ensures TableInv(Apply(t, step))
    ensures Apply(t, step).queueClosed <==> t.queueClosed || step == CloseQueue
  {
    match step
    case Call(x, name, params) =>
      if t.listed {
        BeginKeeps(t.core, x, name, params);
      }
    case Send(x) => SendKeeps(t.core, x);
    case Core(st) => CoreKeeps(t.core, st);
    case _ =>
  }

  lemma SendKeeps(c: Client, x: string)
    requires Inv(c) && IsPhase(c, x, Registered)
    ensures Inv(c.(crashed := true)) && Inv(SetPhase(c, x, Waiting))
  {
    ReadKeeps(c, c.reader, c.fates, true);
    MoveKeeps(c, x, Waiting);
  }

  lemma CoreKeeps(c: Client, st: ClientCore.Step)
    requires Inv(c) && c.closing == Open && c.connected && CoreStep(st) && ClientCore.Enabled(c, st)
    ensures var c' := ClientCore.Apply(c, st); Inv(c') && c'.closing == Open && c'.connected
  {
    ClientCore.StepKeeps(c, st);
  }

  lemma {:induction false} TableRun(t: Table, steps: seq<Step>)
    requires TableInv(t) && IsRun(t, steps)
    ensures TableInv(Run(t, steps))
    ensures Run(t, steps).queueClosed <==> t.queueClosed || CloseQueue in steps
    decreases |steps|
  {
    if steps != [] {
      TableStep(t, steps[0]);
      TableRun(Apply(t, steps[0]), steps[1..]);
    }
  }

  /** At every point of every run the table holds exactly the calls in flight and its channels are
      open; and a step panics exactly when it is the look-up of an array or an object, or the send
      of a call whose client's queue removeClient has closed since the call got hold of it. */
  lemma ServerTable(steps: seq<Step>, step: Step)
    requires IsRun(NewTable(), steps) && Enabled(Run(NewTable(), steps), step)
    ensures var t := Run(NewTable(), steps);
            && t.core.pending == (set x | x in t.core.calls && InFlight(t.core, x))
            && (forall x :: x in t.core.calls ==> !t.core.calls[x].ch.closed)
            && (Apply(t, step).core.crashed <==>
                || (step.Core? && step.step.Respond? && !Comparable(step.step.r.id))
                || (step.Send? && CloseQueue in steps))
  {
    TableRun(NewTable(), steps);
    var t := Run(NewTable(), steps);
    if step.Core? {
      CrashExactly(t.core, step.step);
    }
  }

  /** What a step does to the table: a call enters it exactly if its client is listed, and its send, on an
      open queue, leaves it waiting; the rest are the client's steps. */
  lemma TableExactly(t: Table, step: Step)
    requires Enabled(t, step)
    ensures step.Call? ==>
              if t.listed
              then Apply(t, step).core.pending == t.core.pending + {step.x}
                   && IsPhase(Apply(t, step).core, step.x, Registered) && Apply(t, step).core.calls[step.x].name == step.name
                   && Apply(t, step).core.calls[step.x].params == step.params
              else Apply(t, step) == t
    ensures step.Send? && !t.queueClosed ==>
              IsPhase(Apply(t, step).core, step.x, Waiting) && Apply(t, step).core.pending == t.core.pending
    ensures step.Remove? ==> !Apply(t, step).listed && (t.listed ==> Enabled(Apply(t, step), CloseQueue) || t.core.crashed)
    ensures step.List? ==> Apply(t, step).listed
    ensures step.Shutdown? ==> !Apply(t, step).listed && Apply(t, step).leaving == t.leaving
  {
  }

  /** A run in which a call to the client returns its response. */
  lemma CallCanReturn(x: string, r: Response) returns (steps: seq<Step>)
    requires r.id == JStr(x)
    ensures steps == [List, Step.Call(x, "m", None), Send(x), Core(Respond(r)), Core(Deliver), Core(TakeReply(x)), Core(Leave(x))]
    ensures IsRun(NewTable(), steps) && IsPhase(Run(NewTable(), steps).core, x, Returned(Got(r)))
  {
    var t0 := NewTable().(added := true, listed := true);
    var t1 := t0.(core := Answering(x, Registered, None));
    var t2 := t0.(core := Answering(x, Waiting, None));
    steps := Answered(t2, x, r);
    SendsOn(t0, t1, t2, x);
    steps := Prepend(t1, Send(x), steps);
    steps := Prepend(t0, Step.Call(x, "m", None), steps);
    steps := Prepend(NewTable(), List, steps);
  }

  /** The table with one call in this phase. */
  function Answering(x: string, ph: Phase, slot: Option<Response>): Client {
    NewClient().(connected := true, pending := {x}, calls := map[x := ClientCore.Call.Call("m", None, ph, Chan(slot, false))])
  }

  lemma SendsOn(t0: Table, t1: Table, t2: Table, x: string)
    requires t0 == NewTable().(added := true, listed := true)
    requires t1 == t0.(core := Answering(x, Registered, None)) && t2 == t0.(core := Answering(x, Waiting, None))
    ensures Enabled(NewTable(), List) && Apply(NewTable(), List) == t0
    ensures Enabled(t0, Step.Call(x, "m", None)) && Apply(t0, Step.Call(x, "m", None)) == t1
    ensures Enabled(t1, Send(x)) && Apply(t1, Send(x)) == t2
  {
  }

  lemma Answered(t: Table, x: string, r: Response) returns (steps: seq<Step>)
    requires t.core == Answering(x, Waiting, None) && r.id == JStr(x)
    ensures steps == [Core(Respond(r)), Core(Deliver), Core(TakeReply(x)), Core(Leave(x))]
    ensures IsRun(t, steps) && IsPhase(Run(t, steps).core, x, Returned(Got(r)))
  {
    var c1 := t.core.(reader := Holding(x, r));
    var c2 := Answering(x, Waiting, Some(r)).(fates := [Delivered(x)]);
    var c3 := Answering(x, Leaving(Got(r)), None).(fates := [Delivered(x)]);
    Arrives(x, r);
    Returns(x, r);
    steps := Prepend(t.(core := c3), Core(Leave(x)), []);
    steps := Prepend(t.(core := c2), Core(TakeReply(x)), steps);
    steps := Prepend(t.(core := c1), Core(Deliver), steps);
    steps := Prepend(t, Core(Respond(r)), steps);
  }

  lemma Arrives(x: string, r: Response)
    requires r.id == JStr(x)
    ensures var c, c1 := Answering(x, Waiting, None), Answering(x, Waiting, None).(reader := Holding(x, r));
            && ClientCore.Enabled(c, Respond(r)) && ClientCore.Apply(c, Respond(r)) == c1
            && ClientCore.Enabled(c1, Deliver)
            && ClientCore.Apply(c1, Deliver) == Answering(x, Waiting, Some(r)).(fates := [Delivered(x)])
  {
  }

  lemma Returns(x: string, r: Response)
    ensures var c2, c3 := Answering(x, Waiting, Some(r)).(fates := [Delivered(x)]),
                          Answering(x, Leaving(Got(r)), None).(fates := [Delivered(x)]);
            && ClientCore.Enabled(c2, TakeReply(x)) && ClientCore.Apply(c2, TakeReply(x)) == c3
            && ClientCore.Enabled(c3, Leave(x)) && IsPhase(ClientCore.Apply(c3, Leave(x)), x, Returned(Got(r)))
  {
  }

  /** A run of the second kind: the client is listed, a call gets hold of it, it is removed and its
      queue closed, and the call sends. */
  lemma CallMeetsRemoval() returns (steps: seq<Step>)
    ensures steps == [List, Step.Call("x", "m", None), Remove, CloseQueue, Send("x")]
    ensures IsRun(NewTable(), steps) && Run(NewTable(), steps).core.crashed
  {
    var t1 := Apply(NewTable(), List);
    var t2 := Apply(t1, Step.Call("x", "m", None));
    var t3 := Apply(t2, Remove);
    var t4 := Apply(t3, CloseQueue);
    steps := Prepend(t4, Send("x"), []);
    steps := Prepend(t3, CloseQueue, steps);
    steps := Prepend(t2, Remove, steps);
    steps := Prepend(t1, Step.Call("x", "m", None), steps);
    steps := Prepend(NewTable(), List, steps);
  }

  lemma Prepend(t: Table, step: Step, rest: seq<Step>) returns (steps: seq<Step>)
    requires Enabled(t, step) && IsRun(Apply(t, step), rest)
    ensures steps == [step] + rest
    ensures IsRun(t, steps) && Run(t, steps) == Run(Apply(t, step), rest)
  {
    steps := [step] + rest;
    assert steps[1..] == rest;
  }
}
