/** Both peers of one connection together: the client's calls, the frames it sends, the server's
    dispatch and handler goroutines, and the pipeline back to the client's read loop. */
module Gateway {
  import opened Option
  import opened Wire
  import opened Messages
  import opened TextPipe
  import opened Rendering
  import Pipeline
  import Dispatch
  import ClientCore

  type Pipe = Pipeline.Pipe<Item>

  /** What the client writes: one message a frame. */
  datatype Up = Call(x: string, name: string, params: Option<Json>) | Note(n: Notification)

  /** Why the server sends a message. No step's guard looks at it; it only serves the proofs. */
  datatype Origin = ReplyTo(k: nat) | PushedBy(k: nat, n: Notification) | Other

  datatype Item = Item(json: Json, origin: Origin)

  datatype State = State(
    client: ClientCore.Client,
    sent: seq<Up>,                         // every message the client has written
    pending: bool,                         // the server's first-message gate
    effects: seq<Dispatch.Effect>,         // what the server did with the messages it has read
    running: map<nat, Dispatch.Task>,      // the messages whose handlers are running
    ended: map<nat, Dispatch.Outcome>,     // how the others ended
    down: Pipe)

  datatype Step =
    | Client(cs: ClientCore.Step)
    | Write(x: string)
    | Notify(n: Notification)
    | Serve(verdict: Option<string>, methods: set<string>)
    | Push(k: nat, n: Notification)
    | Finish(k: nat, outcome: Dispatch.Outcome)
    | SendNotification(n: Notification)
    | SendRequest(x: string, name: string, params: Option<Json>)
    | Pump(ps: Pipeline.Step<Item>)
    | ReadLine

  function Start(pending: bool): State {
    State(ClientCore.NewClient(), [], pending, [], map[], map[], Pipeline.Start())
  }

  function Encode(u: Up): Json {
    match u
    case Call(x, name, params) => EncodeRequest(Request(JStr(x), name, params))
    case Note(n) => EncodeNotification(n)
  }

  predicate Enabled(s: State, step: Step) {
    match step
    case Client(st) => !st.Write? && !st.Notify? && !st.Take? && !st.Respond? && ClientCore.Enabled(s.client, st)
    case Write(x) => ClientCore.Enabled(s.client, ClientCore.Write(x))
    case Notify(_) => ClientCore.Enabled(s.client, ClientCore.Notify)
    case Serve(_, _) => |s.effects| < |s.sent|
    case Push(k, _) => k in s.running
    case Finish(k, outcome) => k in s.running && !outcome.NoMethod?
    case SendNotification(_) => true
    case SendRequest(_, _, _) => true
    case Pump(st) =>
      !st.Send? && !st.ReadLine? && Pipeline.Enabled(s.down, st) && (st.ReadFrame? ==> s.client.reader == ClientCore.Ready)
    case ReadLine =>
      s.down.lines != [] && ClientCore.Enabled(s.client, ClientCore.Take(Parsed(s.down.lines[0].json)))
  }

  /** sendToClient */
  function Send(s: State, json: Json, origin: Origin): State {
    s.(down := Pipeline.Enqueue(s.down, Item(json, origin)))
  }

  function Reply(s: State, k: nat, t: Dispatch.Task, o: Dispatch.Outcome): State {
    Send(s.(running := s.running - {k}, ended := s.ended[k := o]), EncodeResponse(Dispatch.Reply(t, o)), ReplyTo(k))
  }

  function EffectOf(s: State, verdict: Option<string>, methods: set<string>): Dispatch.Effect
    requires |s.effects| < |s.sent|
  {
    if s.pending then
      if verdict.Some? then Dispatch.AuthRejected(verdict.value) else Dispatch.AuthAccepted
    else Dispatch.DispatchLine(methods, Parsed(Encode(s.sent[|s.effects|])))
  }

  function Seen(s: State, e: Dispatch.Effect): State {
    s.(effects := s.effects + [e], pending := s.pending && !e.AuthAccepted?)
  }

  function ServeNext(s: State, e: Dispatch.Effect): State {
    var k := |s.effects|;
    var s' := Seen(s, e);
    match e
    case Spawned(t) => s'.(running := s.running[k := t])
    case Unserved(t) => Reply(s', k, t, Dispatch.NoMethod)
    case ParseFailed => Send(s', EncodeResponse(Dispatch.PARSE_FAILURE), Other)
    case AuthRejected(reason) => Send(s', EncodeResponse(Dispatch.AuthFailure(reason)), Other)
    case _ => s'
  }

  /** A message goes out if there is a connection; without one the client has just panicked. */
  function Put(s: State, u: Up): State {
    if s.client.connected then s.(sent := s.sent + [u]) else s
  }

  function Task(s: State, k: nat): Dispatch.Task
    requires k < |s.effects| && (s.effects[k].Spawned? || s.effects[k].Unserved?)
  {
    s.effects[k].task
  }

  function Apply(s: State, step: Step): State
    requires Enabled(s, step)
  {
    match step
    case Client(st) => s.(client := ClientCore.Apply(s.client, st))
    case Write(x) =>
      var c := s.client.calls[x];
      Put(s.(client := ClientCore.Apply(s.client, ClientCore.Write(x))), Call(x, c.name, c.params))
    case Notify(n) => Put(s.(client := ClientCore.Apply(s.client, ClientCore.Notify)), Note(n))
    case Serve(verdict, methods) => ServeNext(s, EffectOf(s, verdict, methods))
    case Push(k, n) => Send(s, EncodeNotification(n), PushedBy(k, n))
    case Finish(k, outcome) => Reply(s, k, s.running[k], outcome)
    case SendNotification(n) => Send(s, EncodeNotification(n), Other)
    case SendRequest(x, name, params) => Send(s, EncodeRequest(Request(JStr(x), name, params)), Other)
    case Pump(st) => s.(down := Pipeline.Apply(s.down, st))
    case ReadLine =>
      s.(client := ClientCore.Apply(s.client, ClientCore.Take(Parsed(s.down.lines[0].json))),
         down := Pipeline.NextLine(s.down))
  }

  // ---------------------------------------------------------------- the server's part of the invariant

  /** The k-th message is a call, and the server took it for exactly that. */
  predicate ServesCall(s: State, k: nat) {
    && k < |s.effects| <= |s.sent|
    && (s.effects[k].Spawned? || s.effects[k].Unserved?)
    && s.sent[k].Call?
    && s.effects[k].task == Dispatch.Task(JStr(s.sent[k].x), s.sent[k].name, s.sent[k].params)
  }

  predicate ServerOk(s: State) {
    && |s.effects| <= |s.sent|
    && (forall k :: k in s.running ==> ServesCall(s, k) && k !in s.ended && s.running[k] == s.effects[k].task)
    && (forall k :: k in s.ended ==> ServesCall(s, k))
  }

  /** A handler runs only for a call, and is given what the caller asked for; and what the client
      writes never ends the server's program. */
  predicate RightEffect(u: Up, e: Dispatch.Effect) {
    && !e.ParseFailed? && !e.Panicked?
    && (e.Spawned? || e.Unserved? ==> u.Call? && e.task == Dispatch.Task(JStr(u.x), u.name, u.params))
  }

  lemma ServeIsRight(s: State, verdict: Option<string>, methods: set<string>)
    requires |s.effects| < |s.sent|
    ensures RightEffect(s.sent[|s.effects|], EffectOf(s, verdict, methods))
  {
    match s.sent[|s.effects|]
    case Call(x, name, params) => RequestRoundTrip(Request(JStr(x), name, params));
    case Note(n) => NotificationRoundTrip(n);
  }

  lemma SameServer(s: State, s': State)
    requires ServerOk(s) && s.sent <= s'.sent
    requires s'.effects == s.effects && s'.running == s.running && s'.ended == s.ended
    ensures ServerOk(s')
  {
    assert forall k :: ServesCall(s, k) ==> ServesCall(s', k);
  }

  lemma ReplyKeeps(s: State, k: nat, t: Dispatch.Task, o: Dispatch.Outcome)
    requires ServerOk(s) && ServesCall(s, k)
    ensures ServerOk(Reply(s, k, t, o))
  {
    var s' := Reply(s, k, t, o);
    assert forall i :: ServesCall(s, i) ==> ServesCall(s', i);
  }

  lemma ServeKeeps(s: State, e: Dispatch.Effect)
    requires ServerOk(s) && |s.effects| < |s.sent| && RightEffect(s.sent[|s.effects|], e)
    ensures ServerOk(ServeNext(s, e))
  {
    var k := |s.effects|;
    var s1 := Seen(s, e);
    assert forall i :: ServesCall(s, i) ==> ServesCall(s1, i);
    assert ServerOk(s1);
    if e.Spawned? || e.Unserved? {
      assert ServesCall(s1, k);
      assert k !in s.running && k !in s.ended;
    }
    if e.Unserved? {
      ReplyKeeps(s1, k, e.task, Dispatch.NoMethod);
    } else {
      var s' := ServeNext(s, e);
      assert forall i :: ServesCall(s1, i) ==> ServesCall(s', i);
    }
  }

  lemma ServerKeeps(s: State, step: Step)
    requires ServerOk(s) && Enabled(s, step)
    ensures ServerOk(Apply(s, step))
  {
    match step
    case Serve(verdict, methods) =>
      ServeIsRight(s, verdict, methods);
      ServeKeeps(s, EffectOf(s, verdict, methods));
    case Finish(k, outcome) => ReplyKeeps(s, k, s.running[k], outcome);
    case _ =>
      LeavesServer(s, step);
      SameServer(s, Apply(s, step));
  }

  lemma LeavesServer(s: State, step: Step)
    requires Enabled(s, step) && !step.Serve? && !step.Finish?
    ensures var s' := Apply(s, step);
            s.sent <= s'.sent && s'.effects == s.effects && s'.running == s.running && s'.ended == s.ended
  {
  }

  // ---------------------------------------------------------------- the client's part

  /** A call is on the wire once at most, and as the caller made it. */
  ghost predicate SentOk(s: State) {
    && (forall k :: 0 <= k < |s.sent| && s.sent[k].Call? ==> SentCallOk(s.client, s.sent[k]))
    && (forall i, j :: 0 <= i < j < |s.sent| && s.sent[i].Call? && s.sent[j].Call? ==> s.sent[i].x != s.sent[j].x)
  }

  predicate SentCallOk(c: ClientCore.Client, u: Up)
    requires u.Call?
  {
    && u.x in c.calls && c.calls[u.x].phase != ClientCore.Registered
    && c.calls[u.x].name == u.name && c.calls[u.x].params == u.params
  }

  lemma SentKeepsUnder(s: State, st: ClientCore.Step)
    requires SentOk(s) && ClientCore.Enabled(s.client, st)
    ensures SentOk(s.(client := ClientCore.Apply(s.client, st)))
  {
    forall k | 0 <= k < |s.sent| && s.sent[k].Call?
      ensures SentCallOk(ClientCore.Apply(s.client, st), s.sent[k])
    {
      ClientCore.CallsPersist(s.client, st, s.sent[k].x);
    }
  }

  lemma SentKeeps(s: State, step: Step)
    requires SentOk(s) && ServerOk(s) && Enabled(s, step)
    ensures SentOk(Apply(s, step))
  {
    match step
    case Client(st) => SentKeepsUnder(s, st);
    case Write(x) =>
      SentKeepsUnder(s, ClientCore.Write(x));
      PutKeeps(s, x);
    case Notify(n) =>
      SentKeepsUnder(s, ClientCore.Notify);
      SentSame(s.(client := ClientCore.Apply(s.client, ClientCore.Notify)), Apply(s, step));
    case ReadLine =>
      SentKeepsUnder(s, ClientCore.Take(Parsed(s.down.lines[0].json)));
      SentSame(s.(client := ClientCore.Apply(s.client, ClientCore.Take(Parsed(s.down.lines[0].json)))), Apply(s, step));
    case _ =>
      ElsewhereOnly(s, step);
      SentSame(s, Apply(s, step));
  }

  lemma PutKeeps(s: State, x: string)
    requires SentOk(s) && Enabled(s, Write(x)) && s.client.calls[x].phase == ClientCore.Registered
    requires SentOk(s.(client := ClientCore.Apply(s.client, ClientCore.Write(x))))
    ensures SentOk(Apply(s, Write(x)))
  {
    var s' := Apply(s, Write(x));
    if s.client.connected {
      assert s'.sent == s.sent + [s'.sent[|s.sent|]];
      assert SentCallOk(s'.client, s'.sent[|s.sent|]);
      assert forall k :: 0 <= k < |s.sent| ==> s'.sent[k] == s.sent[k];
    }
  }

  lemma SentSame(s: State, s': State)
    requires SentOk(s) && s'.client == s.client
    requires s'.sent == s.sent || (|s'.sent| == |s.sent| + 1 && s.sent <= s'.sent && s'.sent[|s.sent|].Note?)
    ensures SentOk(s')
  {
    assert forall k :: 0 <= k < |s.sent| ==> s'.sent[k] == s.sent[k];
  }

  lemma ElsewhereOnly(s: State, step: Step)
    requires Enabled(s, step) && !step.Client? && !step.Write? && !step.Notify? && !step.ReadLine?
    ensures var s' := Apply(s, step);
            s'.client == s.client && s'.down.out == s.down.out && s'.sent == s.sent
  {
    match step
    case Serve(verdict, methods) => ServeElsewhere(s, EffectOf(s, verdict, methods));
    case Pump(st) => PumpElsewhere(s.down, st);
    case _ =>
  }

  lemma ServeElsewhere(s: State, e: Dispatch.Effect)
    ensures var s' := ServeNext(s, e);
            s'.client == s.client && s'.down.out == s.down.out && s'.sent == s.sent
  {
  }

  lemma PumpElsewhere(p: Pipe, st: Pipeline.Step<Item>)
    requires Pipeline.Enabled(p, st) && !st.ReadLine?
    ensures Pipeline.Apply(p, st).out == p.out
  {
  }

  // ---------------------------------------------------------------- what travels down

  function Accepted(s: State): seq<Item> {
    Pipeline.Accepted(s.down.offers)
  }

  /** A reply is what its ended handler came to; nothing else looks like a response. */
  ghost predicate ItemOk(s: State, it: Item) {
    match it.origin
    case ReplyTo(k) =>
      k in s.ended && ServesCall(s, k) && it.json == EncodeResponse(Dispatch.Reply(Task(s, k), s.ended[k]))
    case PushedBy(k, n) => it.json == EncodeNotification(n)
    case Other => ClientKind(Parsed(it.json)) != KResponse
  }

  ghost predicate ItemsOk(s: State) {
    forall i :: 0 <= i < |Accepted(s)| ==> ItemOk(s, Accepted(s)[i])
  }

  /** After the reply to k comes no second one, and nothing that k's handler has pushed. */
  ghost predicate OrderOk(s: State) {
    forall i, j :: 0 <= i < j < |Accepted(s)| ==> InOrder(Accepted(s)[i].origin, Accepted(s)[j].origin)
  }

  predicate InOrder(first: Origin, second: Origin) {
    first.ReplyTo? ==> !(second.ReplyTo? && second.k == first.k) && !(second.PushedBy? && second.k == first.k)
  }

  /** History only grows. */
  ghost predicate Grows(s: State, s': State) {
    && s.sent <= s'.sent && s.effects <= s'.effects && s.down.out <= s'.down.out
    && (forall k :: k in s.ended ==> k in s'.ended && s'.ended[k] == s.ended[k])
  }

  lemma ServeGrows(s: State, e: Dispatch.Effect)
    requires ServerOk(s)
    ensures Grows(s, ServeNext(s, e))
  {
    assert forall k :: k in s.ended ==> ServesCall(s, k);
  }

  lemma HistoryGrows(s: State, step: Step)
    requires ServerOk(s) && Enabled(s, step)
    ensures Grows(s, Apply(s, step))
  {
    match step
    case Serve(verdict, methods) => ServeGrows(s, EffectOf(s, verdict, methods));
    case Finish(k, outcome) => assert k !in s.ended;
    case _ => EndedSame(s, step);
  }

  lemma EndedSame(s: State, step: Step)
    requires Enabled(s, step) && !step.Serve? && !step.Finish?
    ensures Grows(s, Apply(s, step))
  {
  }

  lemma ItemPersists(s: State, s': State, it: Item)
    requires Grows(s, s') && ServerOk(s') && ItemOk(s, it)
    ensures ItemOk(s', it)
  {
    if it.origin.ReplyTo? {
      var k := it.origin.k;
      assert s'.effects[k] == s.effects[k];
    }
  }

  /** What sendToClient does to the accepted messages. */
  lemma SendAppends(s: State, json: Json, origin: Origin)
    requires Pipeline.Inv(s.down)
    ensures Pipeline.Inv(Send(s, json, origin).down)
    ensures Accepted(Send(s, json, origin)) == Accepted(s) ||
            Accepted(Send(s, json, origin)) == Accepted(s) + [Item(json, origin)]
  {
    Pipeline.SendKeeps(s.down, Item(json, origin));
  }

  lemma OthersAreNoResponses(n: Notification, r: Request)
    ensures ClientKind(Parsed(EncodeNotification(n))) != KResponse
    ensures r.id != JNull ==> ClientKind(Parsed(EncodeRequest(r))) != KResponse
    ensures forall reason :: ClientKind(Parsed(EncodeResponse(Dispatch.AuthFailure(reason)))) != KResponse
    ensures ClientKind(Parsed(EncodeResponse(Dispatch.PARSE_FAILURE))) != KResponse
  {
    NotificationRoundTrip(n);
    RequestRoundTrip(r);
    ResponseRoundTrip(Dispatch.PARSE_FAILURE);
    forall reason
      ensures ClientKind(Parsed(EncodeResponse(Dispatch.AuthFailure(reason)))) != KResponse
    {
      ResponseRoundTrip(Dispatch.AuthFailure(reason));
    }
  }

  ghost predicate DownOk(s: State) {
    Pipeline.Inv(s.down) && ItemsOk(s) && OrderOk(s)
  }

  /** One message more keeps the order, when it does not come after its own reply. */
  lemma DownKeepsSend(s: State, s': State, json: Json, origin: Origin)
    requires DownOk(s) && Grows(s, s') && ServerOk(s') && s'.down == Send(s, json, origin).down
    requires ItemOk(s', Item(json, origin))
    requires origin.ReplyTo? || origin.PushedBy? ==> origin.k !in s.ended
    ensures DownOk(s')
  {
    SendAppends(s, json, origin);
    ItemsPersist(s, s');
    if Accepted(s') != Accepted(s) {
      OrderExtends(s, s', Item(json, origin));
    }
  }

  lemma ItemsPersist(s: State, s': State)
    requires ItemsOk(s) && Grows(s, s') && ServerOk(s')
    ensures forall i :: 0 <= i < |Accepted(s)| ==> ItemOk(s', Accepted(s)[i])
  {
    forall i | 0 <= i < |Accepted(s)|
      ensures ItemOk(s', Accepted(s)[i])
    {
      ItemPersists(s, s', Accepted(s)[i]);
    }
  }

  lemma OrderExtends(s: State, s': State, it: Item)
    requires ItemsOk(s) && OrderOk(s) && Accepted(s') == Accepted(s) + [it]
    requires it.origin.ReplyTo? || it.origin.PushedBy? ==> it.origin.k !in s.ended
    ensures OrderOk(s')
  {
    forall i | 0 <= i < |Accepted(s)|
      ensures InOrder(Accepted(s)[i].origin, it.origin)
    {
      assert ItemOk(s, Accepted(s)[i]);
    }
  }

  lemma DownKeepsQuiet(s: State, s': State)
    requires DownOk(s) && Grows(s, s') && ServerOk(s')
    requires Pipeline.Inv(s'.down) && Accepted(s') == Accepted(s)
    ensures DownOk(s')
  {
    ItemsPersist(s, s');
  }

  lemma DownKeeps(s: State, step: Step)
    requires DownOk(s) && ServerOk(s) && Enabled(s, step)
    ensures DownOk(Apply(s, step))
  {
    HistoryGrows(s, step);
    ServerKeeps(s, step);
    if step.Serve? {
      DownKeepsServe(s, step.verdict, step.methods);
    } else if step.Push? || step.Finish? {
      DownKeepsHandler(s, step);
    } else if step.SendNotification? || step.SendRequest? {
      DownKeepsServer(s, step);
    } else if step.Pump? || step.ReadLine? {
      DownKeepsMove(s, step);
    } else {
      DownKeepsQuiet(s, Apply(s, step));
    }
  }

  lemma DownKeepsHandler(s: State, step: Step)
    requires DownOk(s) && ServerOk(s) && Enabled(s, step) && (step.Push? || step.Finish?)
    requires Grows(s, Apply(s, step)) && ServerOk(Apply(s, step))
    ensures DownOk(Apply(s, step))
  {
    match step
    case Push(k, n) => DownKeepsSend(s, Apply(s, step), EncodeNotification(n), PushedBy(k, n));
    case Finish(k, outcome) =>
      DownKeepsSend(s, Apply(s, step), EncodeResponse(Dispatch.Reply(s.running[k], outcome)), ReplyTo(k));
  }

  lemma DownKeepsServer(s: State, step: Step)
    requires DownOk(s) && ServerOk(s) && Enabled(s, step) && (step.SendNotification? || step.SendRequest?)
    requires Grows(s, Apply(s, step)) && ServerOk(Apply(s, step))
    ensures DownOk(Apply(s, step))
  {
    match step
    case SendNotification(n) =>
      OthersAreNoResponses(n, Request(JNull, "", None));
      DownKeepsSend(s, Apply(s, step), EncodeNotification(n), Other);
    case SendRequest(x, name, params) =>
      OthersAreNoResponses(Notification("", None), Request(JStr(x), name, params));
      DownKeepsSend(s, Apply(s, step), EncodeRequest(Request(JStr(x), name, params)), Other);
  }

  lemma DownKeepsMove(s: State, step: Step)
    requires DownOk(s) && ServerOk(s) && Enabled(s, step) && (step.Pump? || step.ReadLine?)
    requires Grows(s, Apply(s, step)) && ServerOk(Apply(s, step))
    ensures DownOk(Apply(s, step))
  {
    Pipeline.StepKeeps(s.down, if step.Pump? then step.ps else Pipeline.ReadLine);
    DownKeepsQuiet(s, Apply(s, step));
  }

  lemma DownKeepsServe(s: State, verdict: Option<string>, methods: set<string>)
    requires DownOk(s) && ServerOk(s) && Enabled(s, Serve(verdict, methods))
    ensures DownOk(Apply(s, Serve(verdict, methods)))
  {
    var s' := Apply(s, Serve(verdict, methods));
    HistoryGrows(s, Serve(verdict, methods));
    ServerKeeps(s, Serve(verdict, methods));
    ServeIsRight(s, verdict, methods);
    DownKeepsServed(s, s', EffectOf(s, verdict, methods));
  }

  lemma DownKeepsServed(s: State, s': State, e: Dispatch.Effect)
    requires DownOk(s) && ServerOk(s) && Grows(s, s') && ServerOk(s') && s' == ServeNext(s, e)
    requires |s.effects| < |s.sent| && RightEffect(s.sent[|s.effects|], e)
    ensures DownOk(s')
  {
    match e
    case Unserved(t) => DownKeepsSend(s, s', EncodeResponse(Dispatch.Reply(t, Dispatch.NoMethod)), ReplyTo(|s.effects|));
    case AuthRejected(reason) =>
      OthersAreNoResponses(Notification("", None), Request(JNull, "", None));
      DownKeepsSend(s, s', EncodeResponse(Dispatch.AuthFailure(reason)), Other);
    case _ => DownKeepsQuiet(s, s');
  }

  // ---------------------------------------------------------------- where a call's response comes from

  /** The client has read, as its j-th line, the reply to its message k, the call x; k's handler
      has ended, and r is what it came to. */
  predicate Backing(s: State, x: string, r: Response, k: nat, j: nat) {
    && k in s.ended && ServesCall(s, k) && s.sent[k].x == x
    && r == Dispatch.Reply(Task(s, k), s.ended[k])
    && j < |s.down.out| && s.down.out[j].origin == ReplyTo(k)
  }

  ghost predicate Backed(s: State, x: string, r: Response) {
    exists k: nat, j: nat :: Backing(s, x, r, k, j)
  }

  predicate LastRepliesTo(s: State, x: string, r: Response, k: nat) {
    s.down.out != [] && Backing(s, x, r, k, |s.down.out| - 1)
  }

  /** The line last read was the reply. */
  ghost predicate LastBacks(s: State, x: string, r: Response) {
    exists k: nat :: LastRepliesTo(s, x, r, k)
  }

  ghost predicate BackedOk(s: State) {
    forall x, r :: ClientCore.Present(s.client, x, r) ==> Backed(s, x, r)
  }

  lemma BackedPersists(s: State, s': State, x: string, r: Response)
    requires Grows(s, s') && ServerOk(s') && Backed(s, x, r)
    ensures Backed(s', x, r)
  {
    var k: nat, j: nat :| Backing(s, x, r, k, j);
    assert s'.effects[k] == s.effects[k] && s'.sent[k] == s.sent[k] && s'.down.out[j] == s.down.out[j];
    assert Backing(s', x, r, k, j);
  }

  /** The line the client is about to read is the next accepted message. */
  lemma NextLine(s: State)
    requires DownOk(s) && s.down.lines != []
    ensures |s.down.out| < |Accepted(s)| && Accepted(s)[|s.down.out|] == s.down.lines[0]
    ensures ItemOk(s, s.down.lines[0])
  {
    var it := s.down.lines[0];
    assert Pipeline.Held(s.down)[|s.down.out|] == it;
    assert ItemOk(s, Accepted(s)[|s.down.out|]);
  }

  lemma RepliesAreGoResponses(t: Dispatch.Task, o: Dispatch.Outcome)
    ensures GoResponse(Dispatch.Reply(t, o))
  {
  }

  /** A line that the client takes for a response is a reply, and decodes to it. */
  lemma ResponseItem(s: State, it: Item)
    requires ItemOk(s, it)
    ensures ClientKind(Parsed(it.json)) == KResponse ==>
              && it.origin.ReplyTo?
              && DecodeResponse(Parsed(it.json)) == Some(Dispatch.Reply(Task(s, it.origin.k), s.ended[it.origin.k]))
  {
    match it.origin
    case ReplyTo(k) =>
      RepliesAreGoResponses(Task(s, k), s.ended[k]);
      ResponseRoundTrip(Dispatch.Reply(Task(s, k), s.ended[k]));
    case PushedBy(k, n) => NotificationRoundTrip(n);
    case Other =>
  }

  lemma ReadIsBacked(s: State, x: string, r: Response)
    requires DownOk(s) && ServerOk(s) && Enabled(s, ReadLine)
    requires var line := Parsed(s.down.lines[0].json);
             ClientKind(line) == KResponse && DecodeResponse(line) == Some(r) && r.id == JStr(x)
    ensures LastBacks(Apply(s, ReadLine), x, r)
  {
    var s', it := Apply(s, ReadLine), s.down.lines[0];
    NextLine(s);
    ResponseItem(s, it);
    BackingRead(s, s', it, x, r);
  }

  lemma BackingRead(s: State, s': State, it: Item, x: string, r: Response)
    requires it.origin.ReplyTo? && it.origin.k in s.ended && ServesCall(s, it.origin.k)
    requires r == Dispatch.Reply(Task(s, it.origin.k), s.ended[it.origin.k]) && r.id == JStr(x)
    requires s'.ended == s.ended && s'.effects == s.effects && s'.sent == s.sent
    requires s'.down.out == s.down.out + [it]
    ensures LastBacks(s', x, r)
  {
    assert Dispatch.Reply(Task(s, it.origin.k), s.ended[it.origin.k]).id == Task(s, it.origin.k).id;
    assert s'.down.out[|s.down.out|] == it;
    assert LastRepliesTo(s', x, r, it.origin.k);
  }

  lemma BackedKeeps(s: State, step: Step)
    requires BackedOk(s) && DownOk(s) && ServerOk(s) && ClientCore.Inv(s.client) && Enabled(s, step)
    ensures BackedOk(Apply(s, step))
  {
    var s' := Apply(s, step);
    HistoryGrows(s, step);
    ServerKeeps(s, step);
    forall x, r | ClientCore.Present(s'.client, x, r)
      ensures Backed(s', x, r)
    {
      if ClientCore.Present(s.client, x, r) {
        BackedPersists(s, s', x, r);
      } else {
        NewIsBacked(s, step, x, r);
      }
    }
  }

  lemma NewIsBacked(s: State, step: Step, x: string, r: Response)
    requires DownOk(s) && ServerOk(s) && ClientCore.Inv(s.client) && Enabled(s, step)
    requires ClientCore.Present(Apply(s, step).client, x, r) && !ClientCore.Present(s.client, x, r)
    ensures Backed(Apply(s, step), x, r)
  {
    match step
    case Client(st) => ClientCore.ResponsesComeFromLines(s.client, st, x, r);
    case Write(y) => ClientCore.ResponsesComeFromLines(s.client, ClientCore.Write(y), x, r);
    case Notify(_) => ClientCore.ResponsesComeFromLines(s.client, ClientCore.Notify, x, r);
    case ReadLine =>
      ClientCore.ResponsesComeFromLines(s.client, ClientCore.Take(Parsed(s.down.lines[0].json)), x, r);
      ReadIsBacked(s, x, r);
      var k: nat :| LastRepliesTo(Apply(s, step), x, r, k);
    case _ => ElsewhereOnly(s, step);
  }

  // ---------------------------------------------------------------- one line after the other

  predicate Busy(c: ClientCore.Client) {
    c.reader.InHandler? || c.reader.Holding?
  }

  /** A pushed notification is done with when its handler has run to its end, or none was
      registered for it when it was read. */
  predicate PushDone(f: ClientCore.Fate, n: Notification) {
    f == ClientCore.HandlerRan(n.name) || f == ClientCore.NoHandler(n.name)
  }

  /** The lines read are the lines finished, and the one in hand if the reader is busy. */
  ghost predicate FatesOk(s: State) {
    && |s.down.out| == |s.client.fates| + (if Busy(s.client) then 1 else 0)
    && (forall i :: 0 <= i < |s.client.fates| && s.down.out[i].origin.PushedBy? ==>
          PushDone(s.client.fates[i], s.down.out[i].origin.n))
    && (s.client.reader.InHandler? && s.down.out[|s.down.out| - 1].origin.PushedBy? ==>
          s.client.reader.name == s.down.out[|s.down.out| - 1].origin.n.name)
    && (s.client.reader.Holding? ==> !s.down.out[|s.down.out| - 1].origin.PushedBy?)
  }

  /** Taking up a line either finishes it or makes the reader busy with it. */
  lemma TakeShape(c: ClientCore.Client, line: Line)
    requires c.reader == ClientCore.Ready && !c.crashed
    ensures var c' := ClientCore.TakeLine(c, line);
            && (c'.crashed ==> ClientKind(line) == KResponse && DecodeResponse(line).Some?
                               && !Comparable(DecodeResponse(line).value.id))
            && (c'.crashed || (Busy(c') && c'.fates == c.fates)
                || (c'.reader == ClientCore.Ready && |c'.fates| == |c.fates| + 1 && c.fates <= c'.fates))
            && (c'.reader.Holding? ==> ClientKind(line) == KResponse)
            && (c'.reader.InHandler? ==> ClientKind(line) == KNotification)
  {
  }

  lemma TakePush(c: ClientCore.Client, n: Notification)
    requires c.reader == ClientCore.Ready && !c.crashed
    ensures var c' := ClientCore.TakeLine(c, Parsed(EncodeNotification(n)));
            || c' == c.(reader := ClientCore.InHandler(n.name))
            || c' == ClientCore.Finished(c, ClientCore.NoHandler(n.name))
  {
    NotificationRoundTrip(n);
  }

  lemma FatesKeepRead(s: State)
    requires FatesOk(s) && DownOk(s) && ServerOk(s) && Enabled(s, ReadLine)
    ensures FatesOk(Apply(s, ReadLine)) && !Apply(s, ReadLine).client.crashed
  {
    var s', it := Apply(s, ReadLine), s.down.lines[0];
    NextLine(s);
    ResponseItem(s, it);
    ReplyIdsAreStrings(s, it);
    TakeFits(s.client, it);
    ReadLineMeans(s);
    FatesAfter(s, s', it);
  }

  lemma ReadLineMeans(s: State)
    requires Enabled(s, ReadLine)
    ensures var s' := Apply(s, ReadLine);
            && s'.client == ClientCore.TakeLine(s.client, Parsed(s.down.lines[0].json))
            && s'.down.out == s.down.out + [s.down.lines[0]]
            && s.client.reader == ClientCore.Ready && !s.client.crashed
  {
  }

  lemma ReplyIdsAreStrings(s: State, it: Item)
    requires ItemOk(s, it)
    ensures it.origin.ReplyTo? ==> Dispatch.Reply(Task(s, it.origin.k), s.ended[it.origin.k]).id.JStr?
  {
  }

  predicate Fits(c: ClientCore.Client, c': ClientCore.Client, it: Item) {
    && ((Busy(c') && c'.fates == c.fates)
        || (c'.reader == ClientCore.Ready && |c'.fates| == |c.fates| + 1 && c.fates <= c'.fates))
    && (it.origin.PushedBy? ==>
          || c'.reader == ClientCore.InHandler(it.origin.n.name)
          || (c'.reader == ClientCore.Ready && c'.fates == c.fates + [ClientCore.NoHandler(it.origin.n.name)]))
  }

  lemma TakeFits(c: ClientCore.Client, it: Item)
    requires c.reader == ClientCore.Ready && !c.crashed
    requires it.origin.PushedBy? ==> it.json == EncodeNotification(it.origin.n)
    requires var line := Parsed(it.json);
             ClientKind(line) == KResponse ==> DecodeResponse(line).Some? && DecodeResponse(line).value.id.JStr?
    ensures var c' := ClientCore.TakeLine(c, Parsed(it.json)); !c'.crashed && Fits(c, c', it)
  {
    TakeShape(c, Parsed(it.json));
    if it.origin.PushedBy? {
      TakePush(c, it.origin.n);
    }
  }

  lemma FatesAfter(s: State, s': State, it: Item)
    requires FatesOk(s) && s.client.reader == ClientCore.Ready
    requires s'.down.out == s.down.out + [it]
    requires Fits(s.client, s'.client, it)
    ensures FatesOk(s')
  {
    forall i | 0 <= i < |s'.client.fates| && s'.down.out[i].origin.PushedBy?
      ensures PushDone(s'.client.fates[i], s'.down.out[i].origin.n)
    {
      if i < |s.client.fates| {
        assert s'.client.fates[i] == s.client.fates[i] && s'.down.out[i] == s.down.out[i];
      }
    }
  }

  lemma FatesKeepClient(s: State, st: ClientCore.Step)
    requires FatesOk(s) && ClientCore.Inv(s.client) && ClientCore.Enabled(s.client, st) && !st.Take? && !st.Respond?
    ensures FatesOk(s.(client := ClientCore.Apply(s.client, st)))
  {
    var c' := ClientCore.Apply(s.client, st);
    if !st.HandlerEnds? && !st.Deliver? {
      assert c'.fates == s.client.fates && Busy(c') == Busy(s.client);
    }
  }

  lemma FatesKeep(s: State, step: Step)
    requires FatesOk(s) && DownOk(s) && ServerOk(s) && ClientCore.Inv(s.client) && Enabled(s, step)
    ensures FatesOk(Apply(s, step))
  {
    match step
    case Client(st) => FatesKeepClient(s, st);
    case Write(x) =>
      FatesKeepClient(s, ClientCore.Write(x));
      FatesUnchanged(s.(client := ClientCore.Apply(s.client, ClientCore.Write(x))), Apply(s, step));
    case Notify(_) =>
      FatesKeepClient(s, ClientCore.Notify);
      FatesUnchanged(s.(client := ClientCore.Apply(s.client, ClientCore.Notify)), Apply(s, step));
    case ReadLine => FatesKeepRead(s);
    case _ =>
      ElsewhereOnly(s, step);
      FatesUnchanged(s, Apply(s, step));
  }

  lemma FatesUnchanged(s: State, s': State)
    requires FatesOk(s) && s'.client == s.client && s'.down.out == s.down.out
    ensures FatesOk(s')
  {
  }

  // ---------------------------------------------------------------- all of it, over every run

  ghost predicate Inv(s: State) {
    && ServerOk(s) && SentOk(s) && DownOk(s) && BackedOk(s) && FatesOk(s) && ClientCore.Inv(s.client)
  }

  lemma ClientKeeps(s: State, step: Step)
    requires ServerOk(s) && ClientCore.Inv(s.client) && Enabled(s, step)
    ensures ClientCore.Inv(Apply(s, step).client)
  {
    match step
    case Client(st) => ClientCore.StepKeeps(s.client, st);
    case Write(x) => ClientCore.StepKeeps(s.client, ClientCore.Write(x));
    case Notify(_) => ClientCore.StepKeeps(s.client, ClientCore.Notify);
    case ReadLine => ClientCore.StepKeeps(s.client, ClientCore.Take(Parsed(s.down.lines[0].json)));
    case _ =>
  }

  lemma StepKeeps(s: State, step: Step)
    requires Inv(s) && Enabled(s, step)
    ensures Inv(Apply(s, step))
  {
    ServerKeeps(s, step);
    SentKeeps(s, step);
    DownKeeps(s, step);
    BackedKeeps(s, step);
    FatesKeep(s, step);
    ClientKeeps(s, step);
  }

  predicate IsRun(s: State, steps: seq<Step>)
    decreases |steps|
  {
    steps == [] || (Enabled(s, steps[0]) && IsRun(Apply(s, steps[0]), steps[1..]))
  }

  function Run(s: State, steps: seq<Step>): State
    requires IsRun(s, steps)
    decreases |steps|
  {
    if steps == [] then s else Run(Apply(s, steps[0]), steps[1..])
  }

  lemma {:induction false} RunKeeps(s: State, steps: seq<Step>)
    requires Inv(s) && IsRun(s, steps)
    ensures Inv(Run(s, steps))
    decreases |steps|
  {
    if steps != [] {
      StepKeeps(s, steps[0]);
      RunKeeps(Apply(s, steps[0]), steps[1..]);
    }
  }

  /** The client has r for the call x: in the call's channel, or as what the call returns. */
  predicate Answered(s: State, x: string, r: Response) {
    ClientCore.Has(s.client, x, r)
  }

  /** The server read, as its k-th message, exactly the request that the call x stands for, and
      the outcome of serving it is o. */
  predicate RanFor(s: State, x: string, k: nat, o: Dispatch.Outcome) {
    && x in s.client.calls && k < |s.effects| <= |s.sent|
    && s.sent[k] == Call(x, s.client.calls[x].name, s.client.calls[x].params)
    && k in s.ended && s.ended[k] == o
  }

  ghost predicate AnswersItsOnlyRun(s: State, x: string, r: Response) {
    && (exists k: nat, o :: RanFor(s, x, k, o) && r == Dispatch.Reply(CallTask(s.sent[k]), o))
    && (forall k: nat, l: nat, o, p :: RanFor(s, x, k, o) && RanFor(s, x, l, p) ==> k == l && o == p)
  }

  function CallTask(u: Up): Dispatch.Task
    requires u.Call?
  {
    Dispatch.Task(JStr(u.x), u.name, u.params)
  }

  /** End-to-end correlation, over every run of both peers, with handlers ending in any order,
      messages dropped, connections breaking and Close at any point: a call is answered only
      with what the server's one run of that very request came to. */
  lemma Correlation(pending: bool, steps: seq<Step>, x: string, r: Response)
    requires IsRun(Start(pending), steps) && Answered(Run(Start(pending), steps), x, r)
    ensures AnswersItsOnlyRun(Run(Start(pending), steps), x, r)
  {
    RunKeeps(Start(pending), steps);
    AnsweredFrom(Run(Start(pending), steps), x, r);
    ServedOnce(Run(Start(pending), steps), x);
  }

  lemma AnsweredFrom(s: State, x: string, r: Response)
    requires SentOk(s) && BackedOk(s) && Answered(s, x, r)
    ensures exists k: nat, o :: RanFor(s, x, k, o) && r == Dispatch.Reply(CallTask(s.sent[k]), o)
  {
    assert ClientCore.Present(s.client, x, r);
    var k: nat, j: nat :| Backing(s, x, r, k, j);
    assert SentCallOk(s.client, s.sent[k]);
    assert RanFor(s, x, k, s.ended[k]);
  }

  lemma ServedOnce(s: State, x: string)
    requires SentOk(s)
    ensures forall k: nat, l: nat, o, p :: RanFor(s, x, k, o) && RanFor(s, x, l, p) ==> k == l && o == p
  {
  }

  /** In particular, a result other than an error is the value that the handler returned. */
  lemma CallReturnsItsHandlersResult(pending: bool, steps: seq<Step>, x: string, r: Response, result: Json)
    requires IsRun(Start(pending), steps)
    requires ClientCore.IsPhase(Run(Start(pending), steps).client, x, ClientCore.Returned(ClientCore.Got(r)))
    requires r.error == None && r.result == Some(result)
    ensures exists k: nat :: RanFor(Run(Start(pending), steps), x, k, Dispatch.Returned(result))
  {
    var s := Run(Start(pending), steps);
    Correlation(pending, steps, x, r);
    var k: nat, o :| RanFor(s, x, k, o) && r == Dispatch.Reply(CallTask(s.sent[k]), o);
  }

  /** Happens-before: once a call is answered, every notification that its handler pushed, if
      the queue accepted it, has been read and its On handler has run to its end (or none was
      registered when it was read). */
  lemma PushesComeFirst(pending: bool, steps: seq<Step>, x: string, r: Response, k: nat, n: Notification, i: nat)
    requires IsRun(Start(pending), steps) && Answered(Run(Start(pending), steps), x, r)
    requires var s := Run(Start(pending), steps);
             && k < |s.sent| && s.sent[k].Call? && s.sent[k].x == x
             && i < |Accepted(s)| && Accepted(s)[i].origin == PushedBy(k, n)
    ensures var s := Run(Start(pending), steps);
            i < |s.client.fates| && PushDone(s.client.fates[i], n)
  {
    RunKeeps(Start(pending), steps);
    PushesBefore(Run(Start(pending), steps), x, r, k, n, i);
  }

  lemma PushesBefore(s: State, x: string, r: Response, k: nat, n: Notification, i: nat)
    requires SentOk(s) && BackedOk(s) && DownOk(s) && FatesOk(s) && ServerOk(s) && Answered(s, x, r)
    requires k < |s.sent| && s.sent[k].Call? && s.sent[k].x == x
    requires i < |Accepted(s)| && Accepted(s)[i].origin == PushedBy(k, n)
    ensures i < |s.client.fates| && PushDone(s.client.fates[i], n)
  {
    assert ClientCore.Present(s.client, x, r);
    var k': nat, j: nat :| Backing(s, x, r, k', j);
    assert k' == k;
    PushStandsBefore(s, k, n, i, j);
    PushIsDone(s, n, i, j);
  }

  lemma PushStandsBefore(s: State, k: nat, n: Notification, i: nat, j: nat)
    requires DownOk(s) && i < |Accepted(s)| && Accepted(s)[i].origin == PushedBy(k, n)
    requires j < |s.down.out| && s.down.out[j].origin == ReplyTo(k)
    ensures i < j && s.down.out[i].origin == PushedBy(k, n)
  {
    OutIsAccepted(s);
    assert Accepted(s)[j] == s.down.out[j];
    assert !InOrder(Accepted(s)[j].origin, Accepted(s)[i].origin);
    assert i < |s.down.out| ==> Accepted(s)[i] == s.down.out[i];
  }

  /** The reader has finished with every line but the last. */
  lemma PushIsDone(s: State, n: Notification, i: nat, j: nat)
    requires FatesOk(s) && i < j < |s.down.out| && s.down.out[i].origin.PushedBy? && s.down.out[i].origin.n == n
    ensures i < |s.client.fates| && PushDone(s.client.fates[i], n)
  {
  }

  lemma OutIsAccepted(s: State)
    requires DownOk(s)
    ensures s.down.out <= Accepted(s)
  {
    assert s.down.out <= Pipeline.Held(s.down);
  }

  /** The reader never ends the program while it takes up a line of this server's. */
  lemma ReadingNeverPanics(pending: bool, steps: seq<Step>)
    requires IsRun(Start(pending), steps) && Enabled(Run(Start(pending), steps), ReadLine)
    ensures !Apply(Run(Start(pending), steps), ReadLine).client.crashed
  {
    RunKeeps(Start(pending), steps);
    FatesKeepRead(Run(Start(pending), steps));
  }

  /** Exactly when the reply to a waiting call finds it: unless its handler returned null, which
      the client does not recognise as a response, so that the call goes on waiting. */
  lemma ReplyFindsItsCaller(c: ClientCore.Client, t: Dispatch.Task, o: Dispatch.Outcome)
    requires c.reader == ClientCore.Ready && t.id.JStr? && t.id.s in c.pending
    ensures var c' := ClientCore.TakeLine(c, Parsed(EncodeResponse(Dispatch.Reply(t, o))));
            && (o != Dispatch.Returned(JNull) ==>
                  c' == c.(reader := ClientCore.Holding(t.id.s, Dispatch.Reply(t, o))))
            && (o == Dispatch.Returned(JNull) ==> c' == ClientCore.Finished(c, ClientCore.NotTaken))
  {
    ReplyIsLookedUp(c, t, o);
  }

  /** The client's read loop takes a reply to its look-up, unless the handler returned null. */
  lemma ReplyIsLookedUp(c: ClientCore.Client, t: Dispatch.Task, o: Dispatch.Outcome)
    requires t.id.JStr?
    ensures var c', r := ClientCore.TakeLine(c, Parsed(EncodeResponse(Dispatch.Reply(t, o)))), Dispatch.Reply(t, o);
            c' == if o == Dispatch.Returned(JNull) then ClientCore.Finished(c, ClientCore.NotTaken) else ClientCore.LookUp(c, r)
  {
    RepliesAreGoResponses(t, o);
    ResponseRoundTrip(Dispatch.Reply(t, o));
  }

  // ---------------------------------------------------------------- no reply meets a taken slot

  /** A reply in the reader's hand is the line last read; what the calls have got stands before it;
      and none was thrown away because its slot was taken. */
  ghost predicate LandOk(s: State) {
    && (s.client.reader.Holding? ==> LastBacks(s, s.client.reader.x, s.client.reader.r))
    && (forall x, r :: Answered(s, x, r) ==> BackedEarlier(s, x, r))
    && (forall i :: 0 <= i < |s.client.fates| ==> !s.client.fates[i].SlotTaken?)
  }

  ghost predicate BackedEarlier(s: State, x: string, r: Response) {
    exists k: nat, j: nat :: j < |s.client.fates| && Backing(s, x, r, k, j)
  }

  /** One call, one request, one reply: its slot is still free when the reply comes. */
  lemma SlotIsFree(s: State)
    requires Inv(s) && LandOk(s) && s.client.reader.Holding?
    ensures s.client.reader.x in s.client.calls && s.client.calls[s.client.reader.x].ch.slot == None
  {
    var x, last := s.client.reader.x, |s.down.out| - 1;
    if s.client.calls[x].ch.slot.Some? {
      var r := s.client.calls[x].ch.slot.value;
      assert Answered(s, x, r) && BackedEarlier(s, x, r);
      var k: nat, j: nat :| j < |s.client.fates| && Backing(s, x, r, k, j);
      var k': nat :| LastRepliesTo(s, x, s.client.reader.r, k');
      OneReplyRead(s, x, k, j, k', last);
    }
  }

  /** The client reads one reply for a call at most. */
  lemma OneReplyRead(s: State, x: string, k: nat, j: nat, k': nat, j': nat)
    requires SentOk(s) && DownOk(s) && j < |s.down.out| && j' < |s.down.out|
    requires ServesCall(s, k) && ServesCall(s, k') && s.sent[k].x == s.sent[k'].x == x
    requires s.down.out[j].origin == ReplyTo(k) && s.down.out[j'].origin == ReplyTo(k')
    ensures k == k' && j == j'
  {
    OutIsAccepted(s);
    assert Accepted(s)[j] == s.down.out[j] && Accepted(s)[j'] == s.down.out[j'];
    assert !InOrder(Accepted(s)[j].origin, Accepted(s)[j'].origin);
    assert !InOrder(Accepted(s)[j'].origin, Accepted(s)[j].origin);
  }

  /** What a step of either peer does to the client's side. */
  function ClientStep(s: State, step: Step): Option<ClientCore.Step>
    requires Enabled(s, step)
  {
    match step
    case Client(st) => Some(st)
    case Write(x) => Some(ClientCore.Write(x))
    case Notify(_) => Some(ClientCore.Notify)
    case ReadLine => Some(ClientCore.Take(Parsed(s.down.lines[0].json)))
    case _ => None
  }

  lemma ClientStepMeans(s: State, step: Step)
    requires Enabled(s, step)
    ensures var st := ClientStep(s, step);
            if st.Some? then ClientCore.Enabled(s.client, st.value) && Apply(s, step).client == ClientCore.Apply(s.client, st.value)
            else Apply(s, step).client == s.client
    ensures !step.ReadLine? ==> Apply(s, step).down.out == s.down.out
  {
    if !step.Client? && !step.Write? && !step.Notify? && !step.ReadLine? {
      ElsewhereOnly(s, step);
    }
  }

  lemma FatesAreSound(s: State, step: Step)
    requires Inv(s) && LandOk(s) && Enabled(s, step)
    ensures s.client.fates <= Apply(s, step).client.fates
    ensures forall i :: 0 <= i < |Apply(s, step).client.fates| ==> !Apply(s, step).client.fates[i].SlotTaken?
  {
    ClientStepMeans(s, step);
    var st := ClientStep(s, step);
    if st.Some? {
      if s.client.reader.Holding? {
        SlotIsFree(s);
      }
      ClientFatesAreSound(s.client, st.value);
    }
  }

  lemma ClientFatesAreSound(c: ClientCore.Client, st: ClientCore.Step)
    requires ClientCore.Enabled(c, st) && forall i :: 0 <= i < |c.fates| ==> !c.fates[i].SlotTaken?
    requires c.reader.Holding? ==> c.reader.x in c.calls && c.calls[c.reader.x].ch.slot == None
    ensures c.fates <= ClientCore.Apply(c, st).fates
    ensures forall i :: 0 <= i < |ClientCore.Apply(c, st).fates| ==> !ClientCore.Apply(c, st).fates[i].SlotTaken?
  {
    ClientCore.FatesGrow(c, st);
  }

  lemma AnswersStandEarlier(s: State, step: Step, x: string, r: Response)
    requires Inv(s) && LandOk(s) && Enabled(s, step) && Answered(Apply(s, step), x, r)
    requires Grows(s, Apply(s, step)) && ServerOk(Apply(s, step)) && s.client.fates <= Apply(s, step).client.fates
    ensures BackedEarlier(Apply(s, step), x, r)
  {
    var s' := Apply(s, step);
    ClientStepMeans(s, step);
    if Answered(s, x, r) {
      StillEarlier(s, s', x, r);
    } else {
      ClientCore.HasByDelivery(s.client, ClientStep(s, step).value, x, r);
      LastIsEarlier(s, s', x, r);
    }
  }

  lemma StillEarlier(s: State, s': State, x: string, r: Response)
    requires BackedEarlier(s, x, r) && Grows(s, s') && ServerOk(s') && |s.client.fates| <= |s'.client.fates|
    ensures BackedEarlier(s', x, r)
  {
    var k: nat, j: nat :| j < |s.client.fates| && Backing(s, x, r, k, j);
    BackingPersists(s, s', x, r, k, j);
  }

  lemma LastIsEarlier(s: State, s': State, x: string, r: Response)
    requires FatesOk(s) && Busy(s.client) && |s.client.fates| < |s'.client.fates|
    requires LastBacks(s, x, r) && Grows(s, s') && ServerOk(s')
    ensures BackedEarlier(s', x, r)
  {
    var k: nat :| LastRepliesTo(s, x, r, k);
    BackingPersists(s, s', x, r, k, |s.down.out| - 1);
  }

  lemma HeldIsLast(s: State, step: Step)
    requires Inv(s) && LandOk(s) && Enabled(s, step) && Apply(s, step).client.reader.Holding?
    requires Grows(s, Apply(s, step)) && ServerOk(Apply(s, step))
    ensures var s' := Apply(s, step); LastBacks(s', s'.client.reader.x, s'.client.reader.r)
  {
    ClientStepMeans(s, step);
    if s.client.reader == Apply(s, step).client.reader {
      StillLast(s, Apply(s, step), s.client.reader.x, s.client.reader.r);
    } else {
      NewlyHeld(s, step);
    }
  }

  lemma StillLast(s: State, s': State, x: string, r: Response)
    requires LastBacks(s, x, r) && Grows(s, s') && ServerOk(s') && s'.down.out == s.down.out
    ensures LastBacks(s', x, r)
  {
    var k: nat :| LastRepliesTo(s, x, r, k);
    BackingPersists(s, s', x, r, k, |s.down.out| - 1);
    assert LastRepliesTo(s', x, r, k);
  }

  lemma NewlyHeld(s: State, step: Step)
    requires DownOk(s) && ServerOk(s) && Enabled(s, step)
    requires Apply(s, step).client.reader.Holding? && Apply(s, step).client.reader != s.client.reader
    ensures var s' := Apply(s, step); LastBacks(s', s'.client.reader.x, s'.client.reader.r)
  {
    var c' := Apply(s, step).client;
    ClientStepMeans(s, step);
    ClientCore.HeldIsNew(s.client, ClientStep(s, step).value);
    ReadIsBacked(s, c'.reader.x, c'.reader.r);
  }

  lemma BackingPersists(s: State, s': State, x: string, r: Response, k: nat, j: nat)
    requires Grows(s, s') && ServerOk(s') && Backing(s, x, r, k, j)
    ensures Backing(s', x, r, k, j)
  {
    assert s'.effects[k] == s.effects[k] && s'.sent[k] == s.sent[k] && s'.down.out[j] == s.down.out[j];
  }

  lemma LandKeeps(s: State, step: Step)
    requires Inv(s) && LandOk(s) && Enabled(s, step)
    ensures LandOk(Apply(s, step))
  {
    var s' := Apply(s, step);
    HistoryGrows(s, step);
    ServerKeeps(s, step);
    FatesAreSound(s, step);
    forall x, r | Answered(s', x, r)
      ensures BackedEarlier(s', x, r)
    {
      AnswersStandEarlier(s, step, x, r);
    }
    if s'.client.reader.Holding? {
      HeldIsLast(s, step);
    }
  }

  lemma {:induction false} RunLands(s: State, steps: seq<Step>)
    requires Inv(s) && LandOk(s) && IsRun(s, steps)
    ensures Inv(Run(s, steps)) && LandOk(Run(s, steps))
    decreases |steps|
  {
    if steps != [] {
      StepKeeps(s, steps[0]);
      LandKeeps(s, steps[0]);
      RunLands(Apply(s, steps[0]), steps[1..]);
    }
  }

  /** In every run a reply that the reader holds lands in its call's slot, unless Close has closed
      the channel by then; none ever finds the slot taken. */
  lemma ReplyLands(pending: bool, steps: seq<Step>, c: ClientCore.Client, x: string, r: Response)
    requires IsRun(Start(pending), steps) && c == Run(Start(pending), steps).client
    requires c.reader == ClientCore.Holding(x, r) && !c.crashed
    ensures x in c.calls && ClientCore.Enabled(c, ClientCore.Deliver)
    ensures var c' := ClientCore.Apply(c, ClientCore.Deliver);
            if c.calls[x].ch.closed then c'.crashed
            else c'.calls[x].ch == ClientCore.Chan(Some(r), false) && c'.fates == c.fates + [ClientCore.Delivered(x)]
    ensures forall i :: 0 <= i < |c.fates| ==> !c.fates[i].SlotTaken?
  {
    RunLands(Start(pending), steps);
    LandsNow(Run(Start(pending), steps), c, x, r);
  }

  lemma LandsNow(s: State, c: ClientCore.Client, x: string, r: Response)
    requires Inv(s) && LandOk(s) && c == s.client && c.reader == ClientCore.Holding(x, r) && !c.crashed
    ensures x in c.calls && ClientCore.Enabled(c, ClientCore.Deliver)
    ensures var c' := ClientCore.Apply(c, ClientCore.Deliver);
            if c.calls[x].ch.closed then c'.crashed
            else c'.calls[x].ch == ClientCore.Chan(Some(r), false) && c'.fates == c.fates + [ClientCore.Delivered(x)]
    ensures forall i :: 0 <= i < |c.fates| ==> !c.fates[i].SlotTaken?
  {
    SlotIsFree(s);
    ClientCore.FreeSlotTakes(c);
  }

  // ---------------------------------------------------------------- the answer arrives

  function ReplyOf(s: State, k: nat): Response
    requires ServesCall(s, k) && k in s.ended
  {
    Dispatch.Reply(Task(s, k), s.ended[k])
  }

  /** If the message k has been answered with something other than null and its call still waits, the
      call's channel holds the answer. */
  predicate Told(s: State, k: nat) {
    && ServesCall(s, k) && k in s.ended
    && (s.ended[k] != Dispatch.Returned(JNull) && ClientCore.Waits(s.client, s.sent[k].x) ==>
          s.client.calls[s.sent[k].x].ch.slot == Some(ReplyOf(s, k)))
  }

  /** If the line in the reader's hand is the reply to k, and not null, the reader holds it. */
  predicate HoldsReply(s: State, k: nat) {
    && ServesCall(s, k) && k in s.ended
    && (s.ended[k] != Dispatch.Returned(JNull) ==>
          s.client.reader == ClientCore.Holding(s.sent[k].x, ReplyOf(s, k)))
  }

  ghost predicate ToldOk(s: State) {
    && (forall j: nat, k: nat :: ReadReply(s, j, k) && j < |s.client.fates| ==> Told(s, k))
    && (forall k: nat :: |s.client.fates| < |s.down.out| && ReadReply(s, |s.down.out| - 1, k) ==> HoldsReply(s, k))
  }

  /** The j-th line that the client has taken up is the reply to k. */
  predicate ReadReply(s: State, j: nat, k: nat) {
    j < |s.down.out| && s.down.out[j].origin == ReplyTo(k)
  }

  lemma ToldStays(s: State, step: Step, k: nat)
    requires SentOk(s) && Enabled(s, step) && Told(s, k)
    requires Grows(s, Apply(s, step)) && ServerOk(Apply(s, step))
    ensures Told(Apply(s, step), k)
  {
    var s', x := Apply(s, step), s.sent[k].x;
    assert s'.effects[k] == s.effects[k] && s'.sent[k] == s.sent[k];
    assert SentCallOk(s.client, s.sent[k]);
    ClientStepMeans(s, step);
    if ClientStep(s, step).Some? && ClientCore.Waits(s'.client, x) {
      ClientCore.WaitsStay(s.client, ClientStep(s, step).value, x);
    }
  }

  /** When the reader is done with a reply that it held, its call has it, if it still waits. */
  lemma HeldIsTold(s: State, step: Step, k: nat)
    requires Inv(s) && LandOk(s) && Enabled(s, step) && HoldsReply(s, k)
    requires Grows(s, Apply(s, step)) && ServerOk(Apply(s, step))
    requires !step.ReadLine? && |Apply(s, step).client.fates| > |s.client.fates|
    ensures Told(Apply(s, step), k)
  {
    var s' := Apply(s, step);
    assert s'.effects[k] == s.effects[k] && s'.sent[k] == s.sent[k];
    ClientStepMeans(s, step);
    if s.ended[k] != Dispatch.Returned(JNull) {
      SlotIsFree(s);
      ClientCore.OnlyDelivery(s.client, ClientStep(s, step).value);
      ClientCore.FreeSlotTakes(s.client);
    }
  }

  /** What taking up the reply to k comes to: it is in the reader's hand, or its call no longer
      waits, or it was null. */
  lemma ReadIsTold(s: State, k: nat)
    requires Inv(s) && Enabled(s, ReadLine) && s.down.lines[0].origin == ReplyTo(k)
    requires Grows(s, Apply(s, ReadLine)) && ServerOk(Apply(s, ReadLine))
    ensures var s' := Apply(s, ReadLine);
            if |s'.client.fates| == |s.client.fates| then HoldsReply(s', k) else Told(s', k)
  {
    var s' := Apply(s, ReadLine);
    NextLine(s);
    assert ItemOk(s, s.down.lines[0]);
    assert s'.effects[k] == s.effects[k] && s'.sent[k] == s.sent[k];
    ReadLineMeans(s);
    ReplyIsLookedUp(s.client, Task(s, k), s.ended[k]);
    ClientCore.LookUpEnds(s.client, ReplyOf(s, k));
  }

  lemma ToldKeeps(s: State, step: Step)
    requires Inv(s) && LandOk(s) && ToldOk(s) && Enabled(s, step)
    ensures ToldOk(Apply(s, step))
  {
    ToldAfter(s, Apply(s, step), step);
  }

  lemma ToldAfter(s: State, s': State, step: Step)
    requires Inv(s) && LandOk(s) && ToldOk(s) && Enabled(s, step) && s' == Apply(s, step)
    ensures ToldOk(s')
  {
    forall j: nat, k: nat | ReadReply(s', j, k) && j < |s'.client.fates|
      ensures Told(s', k)
    {
      StepIsSound(s, s', step);
      FinishedIsTold(s, s', step, j, k);
    }
    forall k: nat | |s'.client.fates| < |s'.down.out| && ReadReply(s', |s'.down.out| - 1, k)
      ensures HoldsReply(s', k)
    {
      StepIsSound(s, s', step);
      LastIsHeld(s, s', step, k);
    }
  }

  lemma StepIsSound(s: State, s': State, step: Step)
    requires Inv(s) && LandOk(s) && Enabled(s, step) && s' == Apply(s, step)
    ensures ServerOk(s') && Grows(s, s') && s.client.fates <= s'.client.fates
  {
    ServerKeeps(s, step);
    HistoryGrows(s, step);
    FatesAreSound(s, step);
  }

  lemma FinishedIsTold(s: State, s': State, step: Step, j: nat, k: nat)
    requires Inv(s) && LandOk(s) && ToldOk(s) && Enabled(s, step) && s' == Apply(s, step) && ServerOk(s')
    requires Grows(s, s') && s.client.fates <= s'.client.fates
    requires j < |s'.client.fates| && ReadReply(s', j, k)
    ensures Told(s', k)
  {
    if j < |s.down.out| {
      assert ReadReply(s, j, k);
      if j < |s.client.fates| {
        ToldStays(s, step, k);
      } else {
        LastWasHeld(s, j, k);
        ClientStepMeans(s, step);
        HeldIsTold(s, step, k);
      }
    } else {
      ReadOf(s, s', step, j);
      ReadIsTold(s, k);
    }
  }

  lemma LastWasHeld(s: State, j: nat, k: nat)
    requires FatesOk(s) && ToldOk(s) && |s.client.fates| <= j && ReadReply(s, j, k)
    ensures j == |s.down.out| - 1 && HoldsReply(s, k) && Busy(s.client)
  {
  }

  /** A line more has been read. */
  lemma ReadOf(s: State, s': State, step: Step, j: nat)
    requires FatesOk(s) && Enabled(s, step) && s' == Apply(s, step) && |s.down.out| <= j < |s'.down.out|
    ensures step.ReadLine? && j == |s.down.out| && s'.down.out[j] == s.down.lines[0]
    ensures |s.client.fates| == |s.down.out|
  {
    ClientStepMeans(s, step);
    ReadLineMeans(s);
  }

  lemma LastIsHeld(s: State, s': State, step: Step, k: nat)
    requires Inv(s) && ToldOk(s) && Enabled(s, step) && s' == Apply(s, step) && ServerOk(s')
    requires Grows(s, s') && s.client.fates <= s'.client.fates
    requires |s'.client.fates| < |s'.down.out| && ReadReply(s', |s'.down.out| - 1, k)
    ensures HoldsReply(s', k)
  {
    ClientStepMeans(s, step);
    if step.ReadLine? {
      ReadOf(s, s', step, |s'.down.out| - 1);
      ReadIsTold(s, k);
    } else {
      LastWasHeld(s, |s.down.out| - 1, k);
      StillHeld(s, s', step, k);
    }
  }

  lemma StillHeld(s: State, s': State, step: Step, k: nat)
    requires Enabled(s, step) && s' == Apply(s, step) && !step.ReadLine?
    requires HoldsReply(s, k) && ServerOk(s') && Grows(s, s') && FatesOk(s) && Busy(s.client)
    requires s.client.fates <= s'.client.fates && |s'.client.fates| < |s'.down.out|
    ensures HoldsReply(s', k)
  {
    assert s'.effects[k] == s.effects[k] && s'.sent[k] == s.sent[k];
    ClientStepMeans(s, step);
    if ClientStep(s, step).Some? {
      ClientCore.BusyStays(s.client, ClientStep(s, step).value);
    }
  }

  /** A response that the client has carries an error or a result other than null. */
  ghost predicate CarriesOk(c: ClientCore.Client) {
    forall x, r :: ClientCore.Present(c, x, r) ==> Carries(r)
  }

  lemma CarriesKeeps(s: State, step: Step)
    requires CarriesOk(s.client) && ClientCore.Inv(s.client) && Enabled(s, step)
    ensures CarriesOk(Apply(s, step).client)
  {
    ClientStepMeans(s, step);
    forall x, r | ClientCore.Present(Apply(s, step).client, x, r)
      ensures Carries(r)
    {
      if !ClientCore.Present(s.client, x, r) {
        var st := ClientStep(s, step).value;
        ClientCore.ResponsesComeFromLines(s.client, st, x, r);
        ResponsesCarry(st.line);
      }
    }
  }

  lemma {:induction false} RunTells(s: State, steps: seq<Step>)
    requires Inv(s) && LandOk(s) && ToldOk(s) && CarriesOk(s.client) && IsRun(s, steps)
    ensures var s' := Run(s, steps); Inv(s') && LandOk(s') && ToldOk(s') && CarriesOk(s'.client)
    decreases |steps|
  {
    if steps != [] {
      StepKeeps(s, steps[0]);
      LandKeeps(s, steps[0]);
      ToldKeeps(s, steps[0]);
      CarriesKeeps(s, steps[0]);
      RunTells(Apply(s, steps[0]), steps[1..]);
    }
  }

  lemma StartTells(pending: bool, steps: seq<Step>)
    requires IsRun(Start(pending), steps)
    ensures var s := Run(Start(pending), steps); Inv(s) && LandOk(s) && ToldOk(s) && CarriesOk(s.client)
  {
    RunTells(Start(pending), steps);
  }

  /** The client has finished with the reply to its message k, the call x, and it was not null. */
  predicate ReplyRead(s: State, x: string, k: nat, j: nat) {
    && k < |s.sent| && s.sent[k].Call? && s.sent[k].x == x
    && k in s.ended && s.ended[k] != Dispatch.Returned(JNull)
    && j < |s.client.fates| && j < |s.down.out| && s.down.out[j].origin == ReplyTo(k)
  }

  /** The converse of Correlation, and with it exactly when a call has its answer: in every run, a
      call that still waits on an open channel has a response in it exactly if the client has
      finished with a reply to its request other than null, and then that is the response. */
  lemma AnswerArrives(pending: bool, steps: seq<Step>, s: State, x: string)
    requires IsRun(Start(pending), steps) && s == Run(Start(pending), steps) && ClientCore.Waits(s.client, x)
    ensures s.client.calls[x].ch.slot.Some? <==> exists k: nat, j: nat :: ReplyRead(s, x, k, j)
    ensures forall k: nat, j: nat :: ReplyRead(s, x, k, j) ==>
              s.client.calls[x].ch.slot == Some(Dispatch.Reply(CallTask(s.sent[k]), s.ended[k]))
  {
    StartTells(pending, steps);
    SlotExactly(s, x);
  }

  lemma SlotExactly(s: State, x: string)
    requires Inv(s) && LandOk(s) && ToldOk(s) && CarriesOk(s.client) && ClientCore.Waits(s.client, x)
    ensures s.client.calls[x].ch.slot.Some? <==> exists k: nat, j: nat :: ReplyRead(s, x, k, j)
    ensures forall k: nat, j: nat :: ReplyRead(s, x, k, j) ==>
              s.client.calls[x].ch.slot == Some(Dispatch.Reply(CallTask(s.sent[k]), s.ended[k]))
  {
    forall k: nat, j: nat | ReplyRead(s, x, k, j)
      ensures s.client.calls[x].ch.slot == Some(Dispatch.Reply(CallTask(s.sent[k]), s.ended[k]))
    {
      assert ReadReply(s, j, k) && Told(s, k);
    }
    if s.client.calls[x].ch.slot.Some? {
      AnswerWasReply(s, x, s.client.calls[x].ch.slot.value);
    }
  }

  lemma AnswerWasReply(s: State, x: string, r: Response)
    requires Inv(s) && LandOk(s) && CarriesOk(s.client) && Answered(s, x, r)
    ensures exists k: nat, j: nat :: ReplyRead(s, x, k, j)
  {
    var k: nat, j: nat :| j < |s.client.fates| && Backing(s, x, r, k, j);
    assert ClientCore.Present(s.client, x, r);
    assert ReplyRead(s, x, k, j);
  }

  /** Nothing is left between the server's queue and the client's read loop. */
  predicate CaughtUp(s: State) {
    && !s.down.broken && s.down.queue == [] && s.down.pump.Select? && s.down.wire == [] && s.down.lines == []
    && !Busy(s.client)
  }

  /** So once a working connection has come to rest, a call that still waits has been answered exactly
      if its request was served to an end, with something other than null, and the reply offered
      then met fewer than 256 queued messages. */
  lemma AnsweredAtRest(pending: bool, steps: seq<Step>, s: State, x: string)
    requires IsRun(Start(pending), steps) && s == Run(Start(pending), steps)
    requires ClientCore.Waits(s.client, x) && CaughtUp(s)
    ensures s.client.calls[x].ch.slot.Some? <==> exists k: nat, i: nat :: ServedAndKept(s, x, k, i)
    ensures forall k: nat, i: nat :: ServedAndKept(s, x, k, i) ==>
              s.client.calls[x].ch.slot == Some(Dispatch.Reply(CallTask(s.sent[k]), s.ended[k]))
  {
    AnswerArrives(pending, steps, s, x);
    RunKeeps(Start(pending), steps);
    RestMeans(s);
    SameReplies(s, x);
  }

  /** The message k is the call x, its handler has ended with something other than null, or it had none,
      and the i-th offer to the queue was its reply and was not dropped. */
  predicate ServedAndKept(s: State, x: string, k: nat, i: nat) {
    && k < |s.sent| && s.sent[k].Call? && s.sent[k].x == x
    && k in s.ended && s.ended[k] != Dispatch.Returned(JNull)
    && i < |s.down.offers| && s.down.offers[i].msg.origin == ReplyTo(k) && s.down.offers[i].depth < 256
  }

  lemma SameReplies(s: State, x: string)
    requires s.down.out == Accepted(s) && |s.client.fates| == |s.down.out|
    ensures forall k: nat, i: nat :: ServedAndKept(s, x, k, i) ==> exists j: nat :: ReplyRead(s, x, k, j)
    ensures forall k: nat, j: nat :: ReplyRead(s, x, k, j) ==> exists i: nat :: ServedAndKept(s, x, k, i)
  {
    Pipeline.AcceptedExactly(s.down.offers);
    forall k: nat, i: nat | ServedAndKept(s, x, k, i)
      ensures exists j: nat :: ReplyRead(s, x, k, j)
    {
      assert s.down.offers[i].msg in Accepted(s);
      var j :| 0 <= j < |Accepted(s)| && Accepted(s)[j] == s.down.offers[i].msg;
      assert ReplyRead(s, x, k, j);
    }
    forall k: nat, j: nat | ReplyRead(s, x, k, j)
      ensures exists i: nat :: ServedAndKept(s, x, k, i)
    {
      assert s.down.out[j] in Accepted(s);
      var i :| 0 <= i < |s.down.offers| && s.down.offers[i].msg == s.down.out[j] && s.down.offers[i].depth < 256;
      assert ServedAndKept(s, x, k, i);
    }
  }

  lemma RestMeans(s: State)
    requires DownOk(s) && FatesOk(s) && CaughtUp(s)
    ensures s.down.out == Accepted(s) && |s.client.fates| == |s.down.out|
  {
    Pipeline.RestIsOut(s.down);
  }

  // ---------------------------------------------------------------- every reply is offered

  /** The i-th offer to the queue is the reply to the message k. */
  predicate OfferFor(s: State, i: nat, k: nat) {
    i < |s.down.offers| && s.down.offers[i].msg.origin == ReplyTo(k)
  }

  /** Each message served to its end has one reply offered, and no other has one. */
  ghost predicate OffersOk(s: State) {
    OffersThere(s) && OffersRight(s) && OffersOnce(s)
  }

  ghost predicate OffersThere(s: State) {
    forall k :: k in s.ended ==> exists i: nat :: OfferFor(s, i, k)
  }

  ghost predicate OffersRight(s: State) {
    forall i: nat, k: nat :: OfferFor(s, i, k) ==> OfferRight(s, i, k)
  }

  predicate OfferRight(s: State, i: nat, k: nat)
    requires i < |s.down.offers|
  {
    && k in s.ended && ServesCall(s, k)
    && s.down.offers[i].msg.json == EncodeResponse(Dispatch.Reply(Task(s, k), s.ended[k]))
  }

  ghost predicate OffersOnce(s: State) {
    forall i: nat, j: nat, k: nat :: OfferFor(s, i, k) && OfferFor(s, j, k) ==> i == j
  }

  lemma OfferPersists(s: State, s': State, i: nat, k: nat)
    requires Grows(s, s') && ServerOk(s') && s.down.offers <= s'.down.offers && OfferFor(s, i, k) && OfferRight(s, i, k)
    ensures OfferRight(s', i, k)
  {
    assert s'.effects[k] == s.effects[k] && s'.down.offers[i] == s.down.offers[i];
  }

  /** No reply more, and nobody more to have one. */
  lemma OffersSame(s: State, s': State)
    requires OffersOk(s) && Grows(s, s') && ServerOk(s') && s'.ended == s.ended && s.down.offers <= s'.down.offers
    requires forall i: nat, k: nat :: OfferFor(s', i, k) ==> OfferFor(s, i, k)
    ensures OffersOk(s')
  {
    assert forall i: nat, k: nat :: OfferFor(s, i, k) ==> OfferFor(s', i, k);
    forall i: nat, k: nat | OfferFor(s', i, k)
      ensures OfferRight(s', i, k)
    {
      OfferPersists(s, s', i, k);
    }
  }

  lemma OffersOther(s: State, s': State, offer: Pipeline.Offer<Item>)
    requires OffersOk(s) && Grows(s, s') && ServerOk(s') && s'.ended == s.ended && !offer.msg.origin.ReplyTo?
    requires s'.down.offers == s.down.offers + [offer]
    ensures OffersOk(s')
  {
    OffersSame(s, s');
  }

  /** One reply more, for one message more. */
  lemma OffersReply(s: State, s': State, k: nat, offer: Pipeline.Offer<Item>)
    requires OffersOk(s) && Grows(s, s') && ServerOk(s') && k !in s.ended && s'.ended.Keys == s.ended.Keys + {k}
    requires s'.down.offers == s.down.offers + [offer] && offer.msg.origin == ReplyTo(k)
    requires OfferRight(s', |s.down.offers|, k)
    ensures OffersOk(s')
  {
    NewReply(s, s', k, offer);
    forall i: nat, l: nat | OfferFor(s', i, l)
      ensures OfferRight(s', i, l)
    {
      if i < |s.down.offers| {
        OfferPersists(s, s', i, l);
      }
    }
  }

  lemma NewReply(s: State, s': State, k: nat, offer: Pipeline.Offer<Item>)
    requires OffersThere(s) && OffersOnce(s) && (forall i: nat :: !OfferFor(s, i, k)) && s'.ended.Keys == s.ended.Keys + {k}
    requires s'.down.offers == s.down.offers + [offer] && offer.msg.origin == ReplyTo(k)
    ensures OffersThere(s') && OffersOnce(s')
    ensures forall i: nat, l: nat :: OfferFor(s', i, l) == (OfferFor(s, i, l) || (i == |s.down.offers| && l == k))
  {
    assert forall i: nat, l: nat :: OfferFor(s', i, l) == (OfferFor(s, i, l) || (i == |s.down.offers| && l == k));
    forall i: nat, j: nat, l: nat | OfferFor(s', i, l) && OfferFor(s', j, l)
      ensures i == j
    {
      assert OfferFor(s, i, l) || l == k;
    }
    forall l | l in s'.ended
      ensures exists i: nat :: OfferFor(s', i, l)
    {
      if l == k {
        assert OfferFor(s', |s.down.offers|, k);
      } else {
        var i: nat :| OfferFor(s, i, l);
        assert OfferFor(s', i, l);
      }
    }
  }

  lemma OffersKeep(s: State, step: Step)
    requires OffersOk(s) && ServerOk(s) && Pipeline.Inv(s.down) && Enabled(s, step)
    requires Grows(s, Apply(s, step)) && ServerOk(Apply(s, step))
    ensures OffersOk(Apply(s, step))
  {
    if step.Serve? {
      ServeIsRight(s, step.verdict, step.methods);
      OffersServed(s, Apply(s, step), EffectOf(s, step.verdict, step.methods));
    } else if step.Finish? {
      ReplyOffers(s, step.k, s.running[step.k], step.outcome);
      OffersReplied(s, Apply(s, step), step.k, s.running[step.k], step.outcome);
    } else {
      OffersElsewhere(s, Apply(s, step), step);
    }
  }

  lemma OffersReplied(s: State, s': State, k: nat, t: Dispatch.Task, o: Dispatch.Outcome)
    requires OffersOk(s) && Grows(s, s') && ServerOk(s') && k !in s.ended && s'.ended == s.ended[k := o]
    requires Offers(s, s', EncodeResponse(Dispatch.Reply(t, o)), ReplyTo(k)) && ServesCall(s', k) && t == Task(s', k)
    ensures OffersOk(s')
  {
    var offer := Pipeline.Offer(Item(EncodeResponse(Dispatch.Reply(t, o)), ReplyTo(k)), |s.down.queue|);
    assert OfferRight(s', |s.down.offers|, k);
    OffersReply(s, s', k, offer);
  }

  lemma ReplyOffers(s: State, k: nat, t: Dispatch.Task, o: Dispatch.Outcome)
    ensures var s' := Reply(s, k, t, o);
            && s'.ended == s.ended[k := o]
            && Offers(s, s', EncodeResponse(Dispatch.Reply(t, o)), ReplyTo(k))
  {
  }

  lemma OffersServed(s: State, s': State, e: Dispatch.Effect)
    requires OffersOk(s) && ServerOk(s) && Grows(s, s') && ServerOk(s') && s' == ServeNext(s, e)
    requires |s.effects| < |s.sent| && RightEffect(s.sent[|s.effects|], e)
    ensures OffersOk(s')
  {
    match e
    case Unserved(t) =>
      NotYetEnded(s);
      ReplyOffers(Seen(s, e), |s.effects|, t, Dispatch.NoMethod);
      OffersReplied(s, s', |s.effects|, t, Dispatch.NoMethod);
    case AuthRejected(reason) =>
      OffersOther(s, s', Pipeline.Offer(Item(EncodeResponse(Dispatch.AuthFailure(reason)), Other), |s.down.queue|));
    case _ => OffersSame(s, s');
  }

  lemma NotYetEnded(s: State)
    requires ServerOk(s)
    ensures |s.effects| !in s.ended && |s.effects| !in s.running
  {
  }

  lemma OffersElsewhere(s: State, s': State, step: Step)
    requires OffersOk(s) && Pipeline.Inv(s.down) && Enabled(s, step) && s' == Apply(s, step) && !step.Serve? && !step.Finish?
    requires Grows(s, s') && ServerOk(s')
    ensures OffersOk(s')
  {
    LeavesServer(s, step);
    match step
    case Push(k, n) => OffersOther(s, s', Pipeline.Offer(Item(EncodeNotification(n), PushedBy(k, n)), |s.down.queue|));
    case SendNotification(n) => OffersOther(s, s', Pipeline.Offer(Item(EncodeNotification(n), Other), |s.down.queue|));
    case SendRequest(x, name, params) =>
      OffersOther(s, s', Pipeline.Offer(Item(EncodeRequest(Request(JStr(x), name, params)), Other), |s.down.queue|));
    case Pump(st) =>
      Pipeline.StepKeeps(s.down, st);
      OffersSame(s, s');
    case _ => OffersSame(s, s');
  }

  lemma {:induction false} RunOffers(s: State, steps: seq<Step>)
    requires Inv(s) && OffersOk(s) && IsRun(s, steps)
    ensures Inv(Run(s, steps)) && OffersOk(Run(s, steps))
    decreases |steps|
  {
    if steps != [] {
      StepKeeps(s, steps[0]);
      HistoryGrows(s, steps[0]);
      OffersKeep(s, steps[0]);
      RunOffers(Apply(s, steps[0]), steps[1..]);
    }
  }

  /** What goes over the wire for a call's outcome, under the call's id. */
  predicate IsReply(json: Json, u: Up, o: Dispatch.Outcome)
    requires u.Call?
  {
    match o
    case Returned(v) => json == ResultJson(JStr(u.x), v)
    case Failed(text) => json == ErrorJson(JStr(u.x), -32603, text)
    case NotMarshalled(text) => json == ErrorJson(JStr(u.x), -32603, "marshal result failed: " + text)
    case NoMethod => json == ErrorJson(JStr(u.x), -32601, "Method not found: " + u.name)
  }

  lemma RepliesExactly(u: Up, o: Dispatch.Outcome)
    requires u.Call?
    ensures IsReply(EncodeResponse(Dispatch.Reply(CallTask(u), o)), u, o)
  {
    match o
    case Returned(v) => EncodedResponse(JStr(u.x), v, 0, "");
    case Failed(text) => EncodedResponse(JStr(u.x), JNull, -32603, text);
    case NotMarshalled(text) => EncodedResponse(JStr(u.x), JNull, -32603, "marshal result failed: " + text);
    case NoMethod => EncodedResponse(JStr(u.x), JNull, -32601, "Method not found: " + u.name);
  }

  /** In every run each message that was served to an end has exactly one reply offered to the queue, and
      what it says is what the serving came to; and no message has one before. */
  lemma EachReplyOffered(pending: bool, steps: seq<Step>, s: State, k: nat)
    requires IsRun(Start(pending), steps) && s == Run(Start(pending), steps)
    ensures k in s.ended <==> exists i: nat :: OfferFor(s, i, k)
    ensures forall i: nat, j: nat :: OfferFor(s, i, k) && OfferFor(s, j, k) ==> i == j
    ensures forall i: nat :: OfferFor(s, i, k) ==>
              k < |s.sent| && s.sent[k].Call? && IsReply(s.down.offers[i].msg.json, s.sent[k], s.ended[k])
  {
    RunOffers(Start(pending), steps);
    forall i: nat | OfferFor(s, i, k)
      ensures k < |s.sent| && s.sent[k].Call? && IsReply(s.down.offers[i].msg.json, s.sent[k], s.ended[k])
    {
      assert ServesCall(s, k);
      RepliesExactly(s.sent[k], s.ended[k]);
    }
  }

  // ---------------------------------------------------------------- what the server does, step by step

  /** How the server takes up its next message: the gate judges it while it is shut; past it, a call runs
      its handler exactly if its method is registered, and is answered with the error otherwise. */
  lemma ServeExactly(s: State, verdict: Option<string>, methods: set<string>)
    requires Enabled(s, Serve(verdict, methods))
    ensures var s', k, u := Apply(s, Serve(verdict, methods)), |s.effects|, s.sent[|s.effects|];
            && |s'.effects| == k + 1 && s'.sent == s.sent && s'.client == s.client
            && s'.pending == (s.pending && verdict.Some?)
            && (s.pending || u.Note? ==> s'.running == s.running && s'.ended == s.ended)
            && (!s.pending && u.Call? && u.name in methods ==> Runs(s, s', k, u))
            && (!s.pending && u.Call? && u.name !in methods ==> Refuses(s, s', k, u))
            && (s.pending && verdict.Some? ==> Offers(s, s', ErrorJson(JNull, -32001, verdict.value), Other))
  {
    if s.pending {
      if verdict.Some? {
        EncodedResponse(JNull, JNull, -32001, verdict.value);
      }
    } else {
      match s.sent[|s.effects|]
      case Call(x, name, params) => ServeCall(s, verdict, methods, x, name, params);
      case Note(n) => NotificationRoundTrip(n);
    }
  }

  /** A handler has been started for the call, and nothing else has happened. */
  predicate Runs(s: State, s': State, k: nat, u: Up)
    requires u.Call?
  {
    && s'.running == s.running[k := Dispatch.Task(JStr(u.x), u.name, u.params)]
    && s'.ended == s.ended && s'.down == s.down
  }

  /** The call has been answered with the error at once. */
  predicate Refuses(s: State, s': State, k: nat, u: Up)
    requires u.Call?
  {
    && s'.running == s.running - {k} && s'.ended == s.ended[k := Dispatch.NoMethod]
    && Offers(s, s', ErrorJson(JStr(u.x), -32601, "Method not found: " + u.name), ReplyTo(k))
  }

  predicate Offers(s: State, s': State, json: Json, origin: Origin) {
    s'.down.offers == s.down.offers + [Pipeline.Offer(Item(json, origin), |s.down.queue|)]
  }

  lemma ServeCall(s: State, verdict: Option<string>, methods: set<string>, x: string, name: string, params: Option<Json>)
    requires Enabled(s, Serve(verdict, methods)) && !s.pending && s.sent[|s.effects|] == Call(x, name, params)
    ensures var s', k := Apply(s, Serve(verdict, methods)), |s.effects|;
            && |s'.effects| == k + 1 && s'.sent == s.sent && s'.client == s.client && !s'.pending
            && if name in methods then Runs(s, s', k, Call(x, name, params)) else Refuses(s, s', k, Call(x, name, params))
  {
    var t := Dispatch.Task(JStr(x), name, params);
    RequestRoundTrip(Request(JStr(x), name, params));
    EncodedResponse(JStr(x), JNull, -32601, "Method not found: " + name);
    assert EffectOf(s, verdict, methods) == if name in methods then Dispatch.Spawned(t) else Dispatch.Unserved(t);
    ServeEffect(s, if name in methods then Dispatch.Spawned(t) else Dispatch.Unserved(t));
  }

  lemma ServeEffect(s: State, e: Dispatch.Effect)
    requires e.Spawned? || e.Unserved?
    ensures var s', k := ServeNext(s, e), |s.effects|;
            && s'.effects == s.effects + [e] && s'.sent == s.sent && s'.client == s.client && s'.pending == s.pending
            && (e.Spawned? ==> s'.running == s.running[k := e.task] && s'.ended == s.ended && s'.down == s.down)
            && (e.Unserved? ==>
                  && s'.running == s.running - {k} && s'.ended == s.ended[k := Dispatch.NoMethod]
                  && Offers(s, s', EncodeResponse(Dispatch.Reply(e.task, Dispatch.NoMethod)), ReplyTo(k)))
  {
  }

  /** What every other step sends down: a handler's end its reply, a push or a notification its
      notification, a server's call its request, each as one offer behind the others. */
  lemma SendsExactly(s: State, step: Step)
    requires ServerOk(s) && Enabled(s, step) && !step.Serve? && !step.Pump?
    ensures var offers, offers', depth := s.down.offers, Apply(s, step).down.offers, |s.down.queue|;
            match step
            case Finish(k, o) =>
              && Apply(s, step).ended == s.ended[k := o] && Apply(s, step).running == s.running - {k}
              && exists json :: offers' == offers + [Pipeline.Offer(Item(json, ReplyTo(k)), depth)] && IsReply(json, s.sent[k], o)
            case Push(k, n) => offers' == offers + [Pipeline.Offer(Item(EncodeNotification(n), PushedBy(k, n)), depth)]
            case SendNotification(n) => offers' == offers + [Pipeline.Offer(Item(EncodeNotification(n), Other), depth)]
            case SendRequest(x, name, params) =>
              offers' == offers + [Pipeline.Offer(Item(EncodeRequest(Request(JStr(x), name, params)), Other), depth)]
            case _ => offers' == offers
  {
    if step.Finish? {
      assert ServesCall(s, step.k) && s.running[step.k] == CallTask(s.sent[step.k]);
      RepliesExactly(s.sent[step.k], step.outcome);
    }
  }

  /** What the client asks for is what it sends, and what the server gets: in every run a call that is on the
      wire is there with the method and the parameters that Call was given. */
  lemma SentAsAsked(pending: bool, steps: seq<Step>, x: string, name: string, params: Option<Json>, k: nat)
    requires IsRun(Start(pending), steps) && Client(ClientCore.Begin(x, name, params)) in steps
    requires var s := Run(Start(pending), steps); k < |s.sent| && s.sent[k].Call? && s.sent[k].x == x
    ensures Run(Start(pending), steps).sent[k] == Call(x, name, params)
  {
    RunKeeps(Start(pending), steps);
    CallIsAsAsked(Start(pending), steps, x, name, params);
    assert SentCallOk(Run(Start(pending), steps).client, Run(Start(pending), steps).sent[k]);
  }

  predicate Asks(c: ClientCore.Client, x: string, name: string, params: Option<Json>) {
    x in c.calls && c.calls[x].name == name && c.calls[x].params == params
  }

  lemma {:induction false} CallIsAsAsked(s: State, steps: seq<Step>, x: string, name: string, params: Option<Json>)
    requires IsRun(s, steps)
    requires Asks(s.client, x, name, params) || Client(ClientCore.Begin(x, name, params)) in steps
    ensures Asks(Run(s, steps).client, x, name, params)
    decreases |steps|
  {
    if steps != [] {
      AskStep(s, steps[0], x, name, params);
      CallIsAsAsked(Apply(s, steps[0]), steps[1..], x, name, params);
    }
  }

  lemma AskStep(s: State, step: Step, x: string, name: string, params: Option<Json>)
    requires Enabled(s, step)
    ensures Asks(s.client, x, name, params) || step == Client(ClientCore.Begin(x, name, params)) ==>
              Asks(Apply(s, step).client, x, name, params)
  {
    ClientStepMeans(s, step);
    var st := ClientStep(s, step);
    if st.Some? && Asks(s.client, x, name, params) {
      ClientCore.CallsPersist(s.client, st.value, x);
    } else if st.Some? {
      ClientCore.CallExactly(s.client, st.value, x);
    }
  }

  // ---------------------------------------------------------------- down to the text

  /** Whatever the two peers do, the way down is a run of the pipeline. */
  lemma {:induction false} DownIsRun(s: State, steps: seq<Step>) returns (ps: seq<Pipeline.Step<Item>>)
    requires IsRun(s, steps)
    ensures Pipeline.IsRun(s.down, ps) && Pipeline.Run(s.down, ps) == Run(s, steps).down
    decreases |steps|
  {
    if steps == [] {
      ps := [];
    } else {
      var first := DownStep(s, steps[0]);
      ps := DownIsRun(Apply(s, steps[0]), steps[1..]);
      if first.Some? {
        assert ([first.value] + ps)[1..] == ps;
        ps := [first.value] + ps;
      }
    }
  }

  lemma DownStep(s: State, step: Step) returns (st: Option<Pipeline.Step<Item>>)
    requires Enabled(s, step)
    ensures if st.Some? then Pipeline.Enabled(s.down, st.value) && Apply(s, step).down == Pipeline.Apply(s.down, st.value)
            else Apply(s, step).down == s.down
  {
    match step
    case Serve(verdict, methods) =>
      var e := EffectOf(s, verdict, methods);
      st := match e
        case Unserved(t) =>
          Some(Pipeline.Send(Item(EncodeResponse(Dispatch.Reply(t, Dispatch.NoMethod)), ReplyTo(|s.effects|))))
        case ParseFailed => Some(Pipeline.Send(Item(EncodeResponse(Dispatch.PARSE_FAILURE), Other)))
        case AuthRejected(reason) => Some(Pipeline.Send(Item(EncodeResponse(Dispatch.AuthFailure(reason)), Other)))
        case _ => None;
    case Push(k, n) => st := Some(Pipeline.Send(Item(EncodeNotification(n), PushedBy(k, n))));
    case Finish(k, o) =>
      st := Some(Pipeline.Send(Item(EncodeResponse(Dispatch.Reply(s.running[k], o)), ReplyTo(k))));
    case SendNotification(n) => st := Some(Pipeline.Send(Item(EncodeNotification(n), Other)));
    case SendRequest(x, name, params) =>
      st := Some(Pipeline.Send(Item(EncodeRequest(Request(JStr(x), name, params)), Other)));
    case Pump(ps) => st := Some(ps);
    case ReadLine => st := Some(Pipeline.ReadLine);
    case _ => st := None;
  }

  /** And so, with messages marshalled to clean lines that parse back, it is a run on text: the
      lines that the client splits out of the frames' text are, parsed, what it takes up here. */
  lemma DownOnText(render: Json -> string, parse: string -> Line, pending: bool, steps: seq<Step>)
    returns (ts: seq<Pipeline.Step<string>>)
    requires IsRun(Start(pending), steps)
    requires forall j :: Clean(render(j)) && parse(render(j)) == Parsed(j)
    ensures IsTextRun(StartText(), ts)
    ensures Map(parse, TextRun(StartText(), ts).out) == Map((it: Item) => Parsed(it.json), Run(Start(pending), steps).down.out)
  {
    var ps := DownIsRun(Start(pending), steps);
    var onItem := (it: Item) => render(it.json);
    TextCarriesMessages(onItem, parse, (it: Item) => Parsed(it.json), ps);
    ts := MapSteps(onItem, ps);
  }

  /** So an answer is read off the text: one of the lines that the client split out of the frames
      parses and decodes to the very response that the call got, which is (Correlation) what the
      server's one run of the call's request came to. */
  lemma CorrelationOnText(render: Json -> string, parse: string -> Line, pending: bool, steps: seq<Step>, x: string, r: Response)
    returns (ts: seq<Pipeline.Step<string>>, j: nat)
    requires IsRun(Start(pending), steps) && Answered(Run(Start(pending), steps), x, r)
    requires forall v :: Clean(render(v)) && parse(render(v)) == Parsed(v)
    ensures IsTextRun(StartText(), ts) && j < |TextRun(StartText(), ts).out|
    ensures DecodeResponse(parse(TextRun(StartText(), ts).out[j])) == Some(r) && r.id == JStr(x)
    ensures AnswersItsOnlyRun(Run(Start(pending), steps), x, r)
  {
    ts := DownOnText(render, parse, pending, steps);
    RunKeeps(Start(pending), steps);
    Correlation(pending, steps, x, r);
    var s := Run(Start(pending), steps);
    j := AnswerWasRead(s, x, r);
    var lines := TextRun(StartText(), ts).out;
    assert Map(parse, lines)[j] == Map((it: Item) => Parsed(it.json), s.down.out)[j];
  }

  lemma AnswerWasRead(s: State, x: string, r: Response) returns (j: nat)
    requires Inv(s) && Answered(s, x, r)
    ensures j < |s.down.out| && DecodeResponse(Parsed(s.down.out[j].json)) == Some(r) && r.id == JStr(x)
  {
    assert ClientCore.Present(s.client, x, r);
    var k: nat, j': nat :| Backing(s, x, r, k, j');
    j := j';
    OutIsAccepted(s);
    assert ItemOk(s, Accepted(s)[j]) && Accepted(s)[j] == s.down.out[j];
    RepliesAreGoResponses(Task(s, k), s.ended[k]);
    ResponseRoundTrip(r);
  }
}
