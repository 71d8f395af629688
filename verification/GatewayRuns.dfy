/** Runs of the gateway from end to end: what a call and a push come to when nothing goes wrong. */
module GatewayRuns {
  import opened Option
  import opened Messages
  import opened Gateway
  import Pipeline
  import Dispatch
  import ClientCore

  lemma {:induction false} RunSnoc(s: State, steps: seq<Step>, step: Step)
    requires IsRun(s, steps) && Enabled(Run(s, steps), step)
    ensures IsRun(s, steps + [step]) && Run(s, steps + [step]) == Apply(Run(s, steps), step)
    decreases |steps|
  {
    if steps == [] {
      assert steps + [step] == [step] && [step][1..] == [];
    } else {
      assert (steps + [step])[0] == steps[0] && (steps + [step])[1..] == steps[1..] + [step];
      RunSnoc(Apply(s, steps[0]), steps[1..], step);
    }
  }

  /** The run goes on with a step that leads to this state. */
  lemma Next(s: State, steps: seq<Step>, step: Step, s': State) returns (longer: seq<Step>)
    requires IsRun(s, steps) && Enabled(Run(s, steps), step) && Apply(Run(s, steps), step) == s'
    ensures longer == steps + [step] && IsRun(s, longer) && Run(s, longer) == s'
  {
    RunSnoc(s, steps, step);
    longer := steps + [step];
  }

  // ---------------------------------------------------------------- a call and its answer

  /** The client with one call in this phase. */
  function Caller(x: string, name: string, params: Option<Json>, ph: ClientCore.Phase, slot: Option<Response>): ClientCore.Client {
    ClientCore.NewClient().(
      connected := true,
      pending := if ph.Returned? then {} else {x},
      calls := map[x := ClientCore.Call(name, params, ph, ClientCore.Chan(slot, false))])
  }

  /** The outcome of serving a call whose method is registered, or is not. */
  predicate Fitting(o: Dispatch.Outcome, registered: bool) {
    registered <==> !o.NoMethod?
  }

  /** The call is on the wire. */
  lemma Ask(x: string, name: string, params: Option<Json>) returns (steps: seq<Step>)
    ensures steps == [Client(ClientCore.Connect), Client(ClientCore.Begin(x, name, params)), Write(x)]
    ensures IsRun(Start(false), steps)
    ensures Run(Start(false), steps) ==
            Start(false).(client := Caller(x, name, params, ClientCore.Waiting, None), sent := [Call(x, name, params)])
  {
    var c1 := ClientCore.NewClient().(connected := true);
    var c2 := Caller(x, name, params, ClientCore.Registered, None);
    steps := Next(Start(false), [], Client(ClientCore.Connect), Start(false).(client := c1));
    assert ClientCore.Apply(c1, ClientCore.Begin(x, name, params)) == c2;
    steps := Next(Start(false), steps, Client(ClientCore.Begin(x, name, params)), Start(false).(client := c2));
    assert ClientCore.Apply(c2, ClientCore.Write(x)) == Caller(x, name, params, ClientCore.Waiting, None);
    steps := Next(Start(false), steps, Write(x),
                  Start(false).(client := Caller(x, name, params, ClientCore.Waiting, None), sent := [Call(x, name, params)]));
  }

  /** The reply to the first message. */
  function Reply(u: Up, o: Dispatch.Outcome): Item
    requires u.Call?
  {
    Item(EncodeResponse(Dispatch.Reply(CallTask(u), o)), ReplyTo(0))
  }

  /** The server has served the first message, a call. */
  ghost predicate Served(s: State, s': State, u: Up, o: Dispatch.Outcome)
    requires u.Call?
  {
    && s'.client == s.client && s'.sent == s.sent && s'.ended == map[0 := o]
    && s'.down == Pipeline.Enqueue(s.down, Reply(u, o))
  }

  lemma Answer(s: State, before: seq<Step>, u: Up, methods: set<string>, o: Dispatch.Outcome) returns (steps: seq<Step>)
    requires u.Call? && IsRun(Start(false), before) && s == Run(Start(false), before)
    requires s.sent == [u] && s.effects == [] && !s.pending && s.running == map[] && s.ended == map[]
    requires Fitting(o, u.name in methods)
    ensures steps == before + (if u.name in methods then [Serve(None, methods), Finish(0, o)] else [Serve(None, methods)])
    ensures IsRun(Start(false), steps) && Served(s, Run(Start(false), steps), u, o)
  {
    var t := CallTask(u);
    RequestRoundTrip(Request(JStr(u.x), u.name, u.params));
    var e := if u.name in methods then Dispatch.Spawned(t) else Dispatch.Unserved(t);
    assert EffectOf(s, None, methods) == e;
    steps := Next(Start(false), before, Serve(None, methods), ServeNext(s, e));
    if u.name in methods {
      var s1 := ServeNext(s, e);
      assert s1.running[0] == t;
      steps := Next(Start(false), steps, Finish(0, o), Gateway.Reply(s1, 0, t, o));
      assert before + [Serve(None, methods)] + [Finish(0, o)] == before + [Serve(None, methods), Finish(0, o)];
    }
  }

  /** A message alone in the queue reaches the client's line loop. */
  lemma Carry(s: State, before: seq<Step>, item: Item) returns (steps: seq<Step>)
    requires IsRun(Start(false), before) && s == Run(Start(false), before)
    requires s.down == Pipeline.Enqueue(Pipeline.Start(), item) && s.client.reader == ClientCore.Ready
    ensures steps == before + [Pump(Pipeline.Take)] + [Pump(Pipeline.Check)] + [Pump(Pipeline.ReadFrame)]
    ensures IsRun(Start(false), steps)
    ensures Run(Start(false), steps) == s.(down := s.down.(queue := [], lines := [item]))
  {
    var p := s.down;
    var p1 := p.(queue := [], batch := [item], pump := Pipeline.Test(0));
    var p2 := p.(queue := [], wire := [[item]]);
    assert Pipeline.Apply(p, Pipeline.Take) == p1;
    steps := Next(Start(false), before, Pump(Pipeline.Take), s.(down := p1));
    assert Pipeline.Apply(p1, Pipeline.Check) == p2;
    steps := Next(Start(false), steps, Pump(Pipeline.Check), s.(down := p2));
    steps := Next(Start(false), steps, Pump(Pipeline.ReadFrame), s.(down := p.(queue := [], lines := [item])));
  }

  /** The client with one call, for which one response has been delivered. */
  function Told(x: string, name: string, params: Option<Json>, ph: ClientCore.Phase, slot: Option<Response>): ClientCore.Client {
    Caller(x, name, params, ph, slot).(fates := [ClientCore.Delivered(x)])
  }

  lemma Delivers(x: string, name: string, params: Option<Json>, r: Response)
    ensures var c := Caller(x, name, params, ClientCore.Waiting, None).(reader := ClientCore.Holding(x, r));
            && ClientCore.Enabled(c, ClientCore.Deliver)
            && ClientCore.Apply(c, ClientCore.Deliver) == Told(x, name, params, ClientCore.Waiting, Some(r))
  {
  }

  lemma Takes(x: string, name: string, params: Option<Json>, r: Response)
    ensures var c := Told(x, name, params, ClientCore.Waiting, Some(r));
            && ClientCore.Enabled(c, ClientCore.TakeReply(x))
            && ClientCore.Apply(c, ClientCore.TakeReply(x)) == Told(x, name, params, ClientCore.Leaving(ClientCore.Got(r)), None)
  {
  }

  lemma Leaves(x: string, name: string, params: Option<Json>, r: Response)
    ensures var c := Told(x, name, params, ClientCore.Leaving(ClientCore.Got(r)), None);
            && ClientCore.Enabled(c, ClientCore.Leave(x))
            && ClientCore.Apply(c, ClientCore.Leave(x)) == Told(x, name, params, ClientCore.Returned(ClientCore.Got(r)), None)
  {
  }

  /** A step of the client's alone. */
  lemma NextOfClient(s: State, before: seq<Step>, st: ClientCore.Step, c: ClientCore.Client) returns (steps: seq<Step>)
    requires IsRun(Start(false), before) && s == Run(Start(false), before)
    requires st.Deliver? || st.TakeReply? || st.Leave?
    requires ClientCore.Enabled(s.client, st) && ClientCore.Apply(s.client, st) == c
    ensures steps == before + [Client(st)] && IsRun(Start(false), steps) && Run(Start(false), steps) == s.(client := c)
  {
    steps := Next(Start(false), before, Client(st), s.(client := c));
  }

  /** The client takes up the reply to its call. */
  lemma TakeUp(s: State, before: seq<Step>, x: string, name: string, params: Option<Json>, o: Dispatch.Outcome)
    returns (steps: seq<Step>)
    requires IsRun(Start(false), before) && s == Run(Start(false), before) && o != Dispatch.Returned(JNull)
    requires s.client == Caller(x, name, params, ClientCore.Waiting, None)
    requires s.down.lines == [Reply(Call(x, name, params), o)]
    ensures steps == before + [ReadLine] && IsRun(Start(false), steps)
    ensures Run(Start(false), steps).client ==
            s.client.(reader := ClientCore.Holding(x, Dispatch.Reply(CallTask(Call(x, name, params)), o)))
  {
    var c := LooksUp(x, name, params, o);
    steps := Next(Start(false), before, ReadLine, s.(client := c, down := Pipeline.NextLine(s.down)));
  }

  lemma LooksUp(x: string, name: string, params: Option<Json>, o: Dispatch.Outcome) returns (c: ClientCore.Client)
    requires o != Dispatch.Returned(JNull)
    ensures var before, line := Caller(x, name, params, ClientCore.Waiting, None), Parsed(Reply(Call(x, name, params), o).json);
            ClientCore.Enabled(before, ClientCore.Take(line)) && ClientCore.Apply(before, ClientCore.Take(line)) == c
    ensures c == Caller(x, name, params, ClientCore.Waiting, None).(
                   reader := ClientCore.Holding(x, Dispatch.Reply(CallTask(Call(x, name, params)), o)))
  {
    ReplyIsLookedUp(Caller(x, name, params, ClientCore.Waiting, None), CallTask(Call(x, name, params)), o);
    c := Caller(x, name, params, ClientCore.Waiting, None).(
           reader := ClientCore.Holding(x, Dispatch.Reply(CallTask(Call(x, name, params)), o)));
  }

  /** The waiting call takes its response and returns. */
  lemma Return(s: State, before: seq<Step>, x: string, name: string, params: Option<Json>, o: Dispatch.Outcome)
    returns (steps: seq<Step>)
    requires IsRun(Start(false), before) && s == Run(Start(false), before) && o != Dispatch.Returned(JNull)
    requires s.client == Caller(x, name, params, ClientCore.Waiting, None)
    requires s.down.lines == [Reply(Call(x, name, params), o)]
    ensures before <= steps && IsRun(Start(false), steps)
    ensures Run(Start(false), steps).client ==
            Told(x, name, params, ClientCore.Returned(ClientCore.Got(Dispatch.Reply(CallTask(Call(x, name, params)), o))), None)
  {
    var r := Dispatch.Reply(CallTask(Call(x, name, params)), o);
    steps := TakeUp(s, before, x, name, params, o);
    Delivers(x, name, params, r);
    steps := NextOfClient(Run(Start(false), steps), steps, ClientCore.Deliver, Told(x, name, params, ClientCore.Waiting, Some(r)));
    Takes(x, name, params, r);
    steps := NextOfClient(Run(Start(false), steps), steps, ClientCore.TakeReply(x),
                          Told(x, name, params, ClientCore.Leaving(ClientCore.Got(r)), None));
    Leaves(x, name, params, r);
    steps := NextOfClient(Run(Start(false), steps), steps, ClientCore.Leave(x),
                          Told(x, name, params, ClientCore.Returned(ClientCore.Got(r)), None));
  }

  /** Every call can be answered: whatever it asks, whatever methods are registered, and whatever its
      handler comes to other than null, there is a run in which the client connects, calls and
      returns exactly that. In particular the value its handler returned, or the error with
      its text. */
  lemma CallCanReturn(x: string, name: string, params: Option<Json>, methods: set<string>, o: Dispatch.Outcome)
    returns (steps: seq<Step>, r: Response)
    requires Fitting(o, name in methods) && o != Dispatch.Returned(JNull)
    ensures IsRun(Start(false), steps) && Client(ClientCore.Begin(x, name, params)) in steps && Serve(None, methods) in steps
    ensures ClientCore.IsPhase(Run(Start(false), steps).client, x, ClientCore.Returned(ClientCore.Got(r)))
    ensures match o
            case Returned(v) => r == Response(JStr(x), Some(v), None)
            case Failed(text) => r == Response(JStr(x), None, Some(Error(-32603, text)))
            case NotMarshalled(text) => r == Response(JStr(x), None, Some(Error(-32603, "marshal result failed: " + text)))
            case NoMethod => r == Response(JStr(x), None, Some(Error(-32601, "Method not found: " + name)))
  {
    var u := Call(x, name, params);
    var asked := Ask(x, name, params);
    var served := Answer(Run(Start(false), asked), asked, u, methods, o);
    var carried := Carry(Run(Start(false), served), served, Reply(u, o));
    steps := Return(Run(Start(false), carried), carried, x, name, params, o);
    assert asked <= served && served <= carried;
    assert steps[1] == asked[1] && steps[|asked|] == served[|asked|] == Serve(None, methods);
    r := Dispatch.Reply(CallTask(u), o);
  }

  // ---------------------------------------------------------------- a push and its handler

  /** From this line on, each pushed notification of this name has had its handler run. */
  ghost predicate RanFrom(s: State, from: nat, name: string) {
    && name in s.client.handlers
    && (forall j :: from <= j < |s.client.fates| && IsPush(s, j, name) ==> s.client.fates[j] == ClientCore.HandlerRan(name))
  }

  /** The j-th line that the client has taken up is a push of this name. */
  predicate IsPush(s: State, j: nat, name: string) {
    j < |s.down.out| && s.down.out[j].origin.PushedBy? && s.down.out[j].origin.n.name == name
  }

  lemma RanStep(s: State, step: Step, from: nat, name: string)
    requires Inv(s) && LandOk(s) && RanFrom(s, from, name) && Enabled(s, step)
    ensures RanFrom(Apply(s, step), from, name)
  {
    var s' := Apply(s, step);
    ClientStepMeans(s, step);
    FatesAreSound(s, step);
    HistoryGrows(s, step);
    if ClientStep(s, step).Some? {
      ClientCore.HandlersGrow(s.client, ClientStep(s, step).value);
    }
    forall j: nat | from <= j < |s'.client.fates| && IsPush(s', j, name)
      ensures s'.client.fates[j] == ClientCore.HandlerRan(name)
    {
      if j < |s.client.fates| {
        assert IsPush(s, j, name);
      } else {
        NewlyRan(s, step, j, name);
      }
    }
  }

  lemma NewlyRan(s: State, step: Step, j: nat, name: string)
    requires Inv(s) && Enabled(s, step) && name in s.client.handlers
    requires |s.client.fates| <= j < |Apply(s, step).client.fates| && IsPush(Apply(s, step), j, name)
    ensures Apply(s, step).client.fates[j] == ClientCore.HandlerRan(name)
  {
    ClientStepMeans(s, step);
    if step.ReadLine? {
      ReadRuns(s, name);
    } else {
      var st := ClientStep(s, step).value;
      ClientCore.FatesGrow(s.client, st);
      assert IsPush(s, j, name) && Busy(s.client) && j == |s.down.out| - 1;
      ClientCore.OnlyHandlerEnds(s.client, st);
    }
  }

  /** A push whose handler is registered is not finished with when it is taken up. */
  lemma ReadRuns(s: State, name: string)
    requires DownOk(s) && Enabled(s, ReadLine) && name in s.client.handlers
    ensures var s' := Apply(s, ReadLine); IsPush(s', |s'.down.out| - 1, name) ==> s'.client.fates == s.client.fates
    ensures |Apply(s, ReadLine).down.out| == |s.down.out| + 1
  {
    ReadLineMeans(s);
    NextLine(s);
    PushRuns(s.client, s.down.lines[0], name);
  }

  lemma PushRuns(c: ClientCore.Client, it: Item, name: string)
    requires !c.crashed && c.connected && c.reader == ClientCore.Ready && name in c.handlers
    requires it.origin.PushedBy? ==> it.json == EncodeNotification(it.origin.n)
    ensures it.origin.PushedBy? && it.origin.n.name == name ==> ClientCore.TakeLine(c, Parsed(it.json)).fates == c.fates
  {
    if it.origin.PushedBy? && it.origin.n.name == name {
      NotificationRoundTrip(it.origin.n);
    }
  }

  lemma {:induction false} RunRan(s: State, steps: seq<Step>, from: nat, name: string)
    requires Inv(s) && LandOk(s) && RanFrom(s, from, name) && IsRun(s, steps)
    ensures RanFrom(Run(s, steps), from, name)
    decreases |steps|
  {
    if steps != [] {
      StepKeeps(s, steps[0]);
      LandKeeps(s, steps[0]);
      RanStep(s, steps[0], from, name);
      RunRan(Apply(s, steps[0]), steps[1..], from, name);
    }
  }

  /** A registered handler is run: once On has registered it, each notification of its name that a
      handler of the server's pushes and that the client takes up later has its handler run to its
      end, and it is finished with in no other way. */
  lemma PushesRunTheirHandlers(pending: bool, before: seq<Step>, after: seq<Step>, name: string, j: nat)
    requires IsRun(Start(pending), before) && Client(ClientCore.On(name)) in before
    requires IsRun(Run(Start(pending), before), after)
    requires var s, s' := Run(Start(pending), before), Run(Run(Start(pending), before), after);
             |s.down.out| <= j < |s'.client.fates| && IsPush(s', j, name)
    ensures Run(Run(Start(pending), before), after).client.fates[j] == ClientCore.HandlerRan(name)
  {
    RunLands(Start(pending), before);
    OnStays(Start(pending), before, name);
    var s := Run(Start(pending), before);
    assert RanFrom(s, |s.down.out|, name);
    RunRan(s, after, |s.down.out|, name);
  }

  lemma {:induction false} OnStays(s: State, steps: seq<Step>, name: string)
    requires IsRun(s, steps) && (name in s.client.handlers || Client(ClientCore.On(name)) in steps)
    ensures name in Run(s, steps).client.handlers
    decreases |steps|
  {
    if steps != [] {
      ClientStepMeans(s, steps[0]);
      if ClientStep(s, steps[0]).Some? {
        ClientCore.HandlersGrow(s.client, ClientStep(s, steps[0]).value);
      }
      OnStays(Apply(s, steps[0]), steps[1..], name);
    }
  }
}
