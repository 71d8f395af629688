/** The server's client table and its send channels (server.go): hubLoop, removeClient,
    BroadcastNotification and Shutdown. */
module Hub {
  import Pipeline

  /** One connection's send channel and its close-once guard. */
  class Conn {
    const id: string
    var send: seq<string>
    var sendClosed: bool
    var closedOnce: bool

    constructor (id: string)
      ensures this.id == id && send == [] && !sendClosed && !closedOnce
    {
      this.id := id;
      send, sendClosed, closedOnce := [], false, false;
    }

    /** sendToClient. Sending on a closed channel would panic, full or not. */
    method Send(data: string)
      requires !sendClosed
      modifies this`send
      ensures send == if |old(send)| < 256 then old(send) + [data] else old(send)
    {
      if |send| < Pipeline.CAPACITY {
        send := send + [data];
      }
    }

    /** The send channel is closed under a guard that lets one caller through. */
    method CloseOnce()
      requires sendClosed ==> closedOnce
      modifies this`sendClosed, this`closedOnce
      ensures closedOnce && (sendClosed <==> !old(closedOnce) || old(sendClosed))
    {
      if !closedOnce {
        closedOnce := true;
        sendClosed := true;
      }
    }
  }

  function Queued(queue: seq<string>, data: string): seq<string> {
    if |queue| < Pipeline.CAPACITY then queue + [data] else queue
  }

  class Server {
    var running: bool
    var clients: map<string, Conn>
    ghost var state: State      // the same in the step system below

    /** Each client stands under its own id, and its send channel is open. */
    ghost predicate Valid()
      reads this, clients.Values
    {
      && Inv(state) && !state.crashed && state.running == running && state.clients == clients.Keys
      && (forall id :: id in clients ==> clients[id].id == id && !clients[id].sendClosed && !clients[id].closedOnce)
      && (forall id :: id in clients ==> clients[id].send == QueueOf(state, id))
    }

    constructor ()
      ensures Valid() && running && clients == map[] && state == Start()
    {
      running, clients, state := true, map[], Start();
    }

    /** hubLoop for one registered connection. */
    method Add(c: Conn)
      requires Valid() && c.id in state.registered && !c.sendClosed && !c.closedOnce && c.send == QueueOf(state, c.id)
      modifies this`clients, this`state
      ensures Valid() && state == Apply(old(state), HubAdd(c.id))
      ensures clients == if running then old(clients)[c.id := c] else old(clients)
    {
      StepKeeps(state, HubAdd(c.id));
      state := Apply(state, HubAdd(c.id));
      if running {
        clients := clients[c.id := c];
      }
    }

    /** removeClient: the connection whose entry it finds and deletes is the one it closes. */
    method RemoveClient(id: string)
      requires Valid() && id in state.known
      modifies this`clients, this`state, if id in clients then {clients[id]} else {}
      ensures Valid() && clients == old(clients) - {id}
      ensures id in old(clients) ==> old(clients)[id].sendClosed
      ensures id in old(clients) ==> Enabled(Apply(old(state), Lookup(id)), CloseSend(id))
                                     && state == Apply(Apply(old(state), Lookup(id)), CloseSend(id))
      ensures id !in old(clients) ==> state == Apply(old(state), Lookup(id))
    {
      if id in clients {
        StepKeeps(state, Lookup(id));
        StepKeeps(Apply(state, Lookup(id)), CloseSend(id));
        state := Apply(Apply(state, Lookup(id)), CloseSend(id));
        var c := clients[id];
        clients := clients - {id};
        c.CloseOnce();
      }
    }

    /** BroadcastNotification, in whatever order the map is walked: every client's queue takes
        the message, or is full; and no closed channel is met on the way. */
    method Broadcast(data: string)
      requires Valid()
      modifies this`state, clients.Values
      ensures Valid() && state == Apply(old(state), Step.Broadcast(data))
      ensures forall id :: id in clients ==>
                clients[id].send == if |old(clients[id].send)| < 256 then old(clients[id].send) + [data]
                                    else old(clients[id].send)
    {
      SendAll(data);
      BroadcastQueues(state, data);
      state := Apply(state, Step.Broadcast(data));
    }

    method SendAll(data: string)
      requires forall id :: id in clients ==> clients[id].id == id && !clients[id].sendClosed
      modifies set id | id in clients :: clients[id]`send
      ensures forall id :: id in clients ==> clients[id].send == Queued(old(clients[id].send), data)
    {
      var rest := clients.Keys;
      while rest != {}
        invariant rest <= clients.Keys
        invariant forall id :: id in rest ==> clients[id].send == old(clients[id].send)
        invariant forall id :: id in clients && id !in rest ==>
                    clients[id].send == Queued(old(clients[id].send), data)
        decreases rest
      {
        var id :| id in rest;
        clients[id].Send(data);
        rest := rest - {id};
      }
    }

    /** Shutdown empties the table without closing any send channel. */
    method Shutdown() returns (ok: bool)
      requires Valid()
      modifies this
      ensures Valid() && ok == old(running) && !running && state == Apply(old(state), Step.Shutdown)
      ensures clients == if ok then map[] else old(clients)
    {
      ok := running;
      StepKeeps(state, Step.Shutdown);
      state := Apply(state, Step.Shutdown);
      if running {
        running := false;
        clients := map[];
      }
    }
  }

  // ---------------------------------------------------------------- the interleavings

  /** The same operations as steps. removeClient looks up and deletes under the lock, but closes
      the channel after releasing it; and hubLoop may add a connection that is already gone. A
      goroutine outside the lock gets hold of a client first, in Notify and Call if it finds the
      client listed, in a handler of the client's in any case, and sends later. */
  datatype State = State(
    running: bool,
    registered: set<string>,      // handed to hubLoop, not yet added
    clients: set<string>,
    leaving: set<string>,         // deleted by removeClient, not yet closed
    known: set<string>,
    closes: map<string, nat>,     // how often each send channel was closed
    delivered: map<string, seq<string>>,
    senders: map<nat, string>,    // goroutines about to send, and the client each has in hand
    crashed: bool)                // a send on a closed channel has ended the program

  datatype Step =
    | Register(id: string)
    | HubAdd(id: string)
    | Lookup(id: string)
    | CloseSend(id: string)
    | Broadcast(data: string)
    | Shutdown
    | Find(n: nat, id: string)
    | Hold(n: nat, id: string)
    | Send(n: nat, data: string)

  function Start(): State {
    State(true, {}, {}, {}, {}, map[], map[], map[], false)
  }

  predicate Enabled(s: State, step: Step) {
    !s.crashed &&
    match step
    case Register(id) => id !in s.known
    case HubAdd(id) => id in s.registered
    case Lookup(id) => id in s.known
    case CloseSend(id) => id in s.leaving
    case Broadcast(_) => true
    case Shutdown => true
    case Find(n, _) => n !in s.senders
    case Hold(n, id) => n !in s.senders && id in s.known
    case Send(n, _) => n in s.senders
  }

  function ClosesOf(s: State, id: string): nat {
    if id in s.closes then s.closes[id] else 0
  }

  function QueueOf(s: State, id: string): seq<string> {
    if id in s.delivered then s.delivered[id] else []
  }

  function Apply(s: State, step: Step): State
    requires Enabled(s, step)
  {
    match step
    case Register(id) => s.(known := s.known + {id}, registered := s.registered + {id})
    case HubAdd(id) =>
      s.(registered := s.registered - {id}, clients := if s.running then s.clients + {id} else s.clients)
    case Lookup(id) =>
      if id in s.clients then s.(clients := s.clients - {id}, leaving := s.leaving + {id}) else s
    case CloseSend(id) => s.(leaving := s.leaving - {id}, closes := s.closes[id := ClosesOf(s, id) + 1])
    case Broadcast(data) =>
      s.(delivered := map id | id in s.delivered.Keys + s.clients ::
           if id in s.clients then Queued(QueueOf(s, id), data) else QueueOf(s, id))
    case Shutdown => if s.running then s.(running := false, clients := {}) else s
    case Find(n, id) => if id in s.clients then s.(senders := s.senders[n := id]) else s
    case Hold(n, id) => s.(senders := s.senders[n := id])
    case Send(n, data) =>
      var id := s.senders[n];
      if ClosesOf(s, id) > 0 then s.(crashed := true)
      else s.(senders := s.senders - {n}, delivered := s.delivered[id := Queued(QueueOf(s, id), data)])
  }

  predicate IsRun(s: State, steps: seq<Step>)
    decreases |steps|
  {
    steps == [] || (Enabled(s, steps[0]) && IsRun(Apply(s, steps[0]), steps[1..]))
  }

  function Run(s: State, steps: seq<Step>): State
    requires IsRun(s, steps)
    decreases |steps|
  {
    if steps == [] then s else Run(Apply(s, steps[0]), steps[1..])
  }

  /** A connection is waiting to be added, or a client, or about to be closed, or past all that. */
  ghost predicate Inv(s: State) {
    && s.registered + s.clients + s.leaving <= s.known
    && s.registered !! s.clients && s.clients !! s.leaving && s.registered !! s.leaving
    && (forall id :: ClosesOf(s, id) <= 1)
    && (forall id :: id in s.registered + s.clients + s.leaving || id !in s.known ==> ClosesOf(s, id) == 0)
  }

  lemma StepKeeps(s: State, step: Step)
    requires Inv(s) && Enabled(s, step)
    ensures Inv(Apply(s, step))
  {
    var s' := Apply(s, step);
    assert forall id :: ClosesOf(s', id) == ClosesOf(s, id) + if step == CloseSend(id) then 1 else 0;
  }

  lemma BroadcastQueues(s: State, data: string)
    requires Inv(s) && !s.crashed
    ensures var s' := Apply(s, Broadcast(data));
            && Inv(s') && s'.clients == s.clients && s'.running == s.running
            && forall id :: id in s.clients ==> QueueOf(s', id) == Queued(QueueOf(s, id), data)
  {
    StepKeeps(s, Broadcast(data));
  }

  lemma {:induction false} RunKeeps(s: State, steps: seq<Step>)
    requires Inv(s) && IsRun(s, steps)
    ensures Inv(Run(s, steps))
    decreases |steps|
  {
    if steps != [] {
      StepKeeps(s, steps[0]);
      RunKeeps(Apply(s, steps[0]), steps[1..]);
    }
  }

  /** In every interleaving a client that Broadcast finds in the table has an open channel, no
      channel is closed twice, and only removeClient's find leads to a close. */
  lemma BroadcastMeetsOpenChannels(steps: seq<Step>)
    requires IsRun(Start(), steps)
    ensures var s := Run(Start(), steps);
            && (forall id :: id in s.clients ==> ClosesOf(s, id) == 0)
            && (forall id :: ClosesOf(s, id) <= 1)
            && (forall id :: Enabled(s, CloseSend(id)) ==> id !in s.clients && ClosesOf(s, id) == 0)
  {
    RunKeeps(Start(), steps);
  }

  /** In every state of every run a broadcast puts its message behind what each listed client has
      queued, unless 256 are waiting there, and touches no other queue; a send outside the lock does
      the same to the one client in hand, if its channel is open. */
  lemma DeliversExactly(steps: seq<Step>, step: Step, id: string)
    requires IsRun(Start(), steps) && Enabled(Run(Start(), steps), step)
    ensures var s := Run(Start(), steps);
            var queue, queue' := QueueOf(s, id), QueueOf(Apply(s, step), id);
            && (step.Broadcast? && id in s.clients ==>
                  queue' == if |queue| < 256 then queue + [step.data] else queue)
            && (step.Send? && s.senders[step.n] == id && CloseSend(id) !in steps ==>
                  queue' == if |queue| < 256 then queue + [step.data] else queue)
            && (!(step.Broadcast? && id in s.clients) && !(step.Send? && s.senders[step.n] == id) ==> queue' == queue)
  {
    ClosedInRun(Start(), steps, id);
  }

  /** Who is listed, who has whom in hand: hubLoop lists a connection while the server runs, a look-up
      takes it off, Shutdown takes all off; Notify and Call get hold of listed clients alone. */
  lemma ListedExactly(steps: seq<Step>, step: Step, id: string)
    requires IsRun(Start(), steps) && Enabled(Run(Start(), steps), step)
    ensures var s, s' := Run(Start(), steps), Apply(Run(Start(), steps), step);
            && (step == HubAdd(id) && s.running ==> id in s'.clients)
            && (id in s'.clients && id !in s.clients ==> step == HubAdd(id) && s.running)
            && (id in s.clients && id !in s'.clients <==> id in s.clients && (step == Lookup(id) || (step == Shutdown && s.running)))
            && (step == Lookup(id) && id in s.clients ==> Enabled(s', CloseSend(id)))
            && (step.Find? ==> (step.n in s'.senders <==> step.id in s.clients))
            && (step.Find? && step.id in s.clients ==> s'.senders[step.n] == step.id)
            && (step.Hold? ==> step.n in s'.senders && s'.senders[step.n] == step.id)
  {
    RunKeeps(Start(), steps);
  }

  lemma {:induction false} ClosedInRun(s: State, steps: seq<Step>, id: string)
    requires IsRun(s, steps)
    ensures ClosesOf(Run(s, steps), id) > 0 <==> ClosesOf(s, id) > 0 || CloseSend(id) in steps
    decreases |steps|
  {
    if steps != [] {
      var s' := Apply(s, steps[0]);
      assert ClosesOf(s', id) == ClosesOf(s, id) + if steps[0] == CloseSend(id) then 1 else 0;
      ClosedInRun(s', steps[1..], id);
    }
  }

  /** In every run a step ends the program exactly if it is a send by a goroutine that holds a client
      whose channel removeClient has closed. Broadcast, which sends under the lock, never does. */
  lemma SendsOnClosedExactly(steps: seq<Step>, step: Step)
    requires IsRun(Start(), steps) && Enabled(Run(Start(), steps), step)
    ensures var s := Run(Start(), steps);
            Apply(s, step).crashed <==> step.Send? && CloseSend(s.senders[step.n]) in steps
  {
    if step.Send? {
      ClosedInRun(Start(), steps, Run(Start(), steps).senders[step.n]);
    }
  }

  /** A run of that kind: Notify finds the client, which is removed before the send. */
  lemma NotifyMeetsRemoval() returns (steps: seq<Step>)
    ensures steps == [Register("x"), HubAdd("x"), Find(0, "x"), Lookup("x"), CloseSend("x"), Send(0, "m")]
    ensures IsRun(Start(), steps) && Run(Start(), steps).crashed
  {
    var s1 := Apply(Start(), Register("x"));
    var s2 := Apply(s1, HubAdd("x"));
    var s3 := Apply(s2, Find(0, "x"));
    var s4 := Apply(s3, Lookup("x"));
    var s5 := Apply(s4, CloseSend("x"));
    steps := Prepend(s5, Send(0, "m"), []);
    steps := Prepend(s4, CloseSend("x"), steps);
    steps := Prepend(s3, Lookup("x"), steps);
    steps := Prepend(s2, Find(0, "x"), steps);
    steps := Prepend(s1, HubAdd("x"), steps);
    steps := Prepend(Start(), Register("x"), steps);
  }

  lemma Prepend(s: State, step: Step, rest: seq<Step>) returns (steps: seq<Step>)
    requires Enabled(s, step) && IsRun(Apply(s, step), rest)
    ensures steps == [step] + rest
    ensures IsRun(s, steps) && Run(s, steps) == Run(Apply(s, step), rest)
  {
    steps := [step] + rest;
    assert steps[1..] == rest;
  }
}
