/** The fields that the client's goroutines share (client.go) and the methods that change them.
    Their specification is a function of those fields alone, and the lemmas at the end show
    that the step system of module ClientCore does to its state what the methods do. */
module ClientClass {
  import opened Option
  import opened Messages
  import opened ClientCore

  /** The shared fields: a channel that has left the table belongs to its call alone. */
  datatype Shared = Shared(connected: bool, once: bool, closes: nat, table: map<string, Chan>)

  function Enter(s: Shared, x: string): Shared {
    s.(table := s.table[x := Chan(None, false)])
  }

  function Exit(s: Shared, x: string): Shared {
    s.(table := s.table - {x})
  }

  /** The response goes to the channel under its id, if there is one and its slot is free. An id
      that is no string is under no key. */
  function Hand(s: Shared, r: Response): Shared {
    if r.id.JStr? && r.id.s in s.table && s.table[r.id.s].slot.None?
    then s.(table := s.table[r.id.s := s.table[r.id.s].(slot := Some(r))])
    else s
  }

  function Shutdown(s: Shared): Shared {
    if s.once then s
    else if !s.connected then s.(once := true)
    else s.(once := true, closes := s.closes + 1, table := map[])
  }

  /** A call's response channel, with room for one response. */
  class Slot {
    const id: string
    var buffer: Option<Response>
    var closed: bool

    constructor (id: string)
      ensures this.id == id && View() == Chan(None, false)
    {
      this.id := id;
      buffer, closed := None, false;
    }

    ghost function View(): Chan
      reads this
    {
      Chan(buffer, closed)
    }

    /** The send that gives up when the slot is taken. */
    method TrySend(r: Response) returns (sent: bool)
      requires !closed
      modifies this
      ensures sent <==> old(buffer).None?
      ensures View() == Chan(if sent then Some(r) else old(buffer), false)
    {
      sent := buffer.None?;
      if sent {
        buffer := Some(r);
      }
    }

    method Close()
      requires !closed
      modifies this`closed
      ensures closed
    {
      closed := true;
    }
  }

  class RpcClient {
    var connected: bool
    var once: bool
    var running: bool
    var closes: nat
    var pending: map<string, Slot>

    /** The channels in the table are open, and each stands under its own id. */
    ghost predicate Valid()
      reads this, pending.Values
    {
      && (forall x :: x in pending ==> pending[x].id == x && !pending[x].closed)
      && (running <==> connected && closes == 0)
      && closes == if once && connected then 1 else 0
    }

    ghost function View(): Shared
      reads this, pending.Values
    {
      Shared(connected, once, closes, map x | x in pending :: pending[x].View())
    }

    constructor (connected: bool)
      ensures Valid() && View() == Shared(connected, false, 0, map[])
    {
      this.connected, once, running, closes, pending := connected, false, connected, 0, map[];
    }

    /** The entry of Call: a channel under a fresh id. */
    method Register(x: string) returns (ch: Slot)
      requires Valid() && x !in pending
      modifies this`pending
      ensures Valid() && View() == Enter(old(View()), x) && pending == old(pending)[x := ch] && fresh(ch)
    {
      ch := new Slot(x);
      pending := pending[x := ch];
    }

    /** The deferred exit of Call. */
    method Deregister(x: string)
      requires Valid()
      modifies this`pending
      ensures Valid() && View() == Exit(old(View()), x)
    {
      pending := pending - {x};
    }

    /** handleResponse, when nothing comes between its look-up and its send. An id that is no map
        key makes the look-up panic. */
    method HandleResponse(r: Response) returns (panicked: bool)
      requires Valid()
      modifies if r.id.JStr? && r.id.s in pending then {pending[r.id.s]} else {}
      ensures panicked <==> !Comparable(r.id)
      ensures Valid() && View() == Hand(old(View()), r)
    {
      panicked := !Comparable(r.id);
      if r.id.JStr? && r.id.s in pending {
        var sent := pending[r.id.s].TrySend(r);
      }
    }

    /** Close: the very first call, if a connection has been made by then, closes done, closes every
        channel in the table and empties it. A first call without a connection uses the guard up,
        and every call after the first does nothing. */
    method CloseClient()
      requires Valid()
      modifies this, pending.Values
      ensures Valid() && View() == Shutdown(old(View()))
      ensures !old(once) && connected ==>
                !running && forall x :: x in old(pending) ==>
                  old(pending)[x].View() == Chan(old(pending[x].buffer), true)
    {
      if once {
        return;
      }
      once := true;
      if !connected {
        return;
      }
      running, closes := false, closes + 1;
      CloseSlots();
    }

    /** Close's walk over the table, in whatever order. */
    method CloseSlots()
      requires forall x :: x in pending ==> pending[x].id == x && !pending[x].closed
      modifies this`pending, pending.Values
      ensures pending == map[]
      ensures forall x :: x in old(pending) ==> old(pending)[x].View() == Chan(old(pending[x].buffer), true)
    {
      ghost var all := pending;
      while pending != map[]
        invariant Rest(all, pending)
        invariant forall x :: x in all ==> all[x].id == x
        invariant forall x :: x in all ==> all[x].buffer == old(all[x].buffer)
        invariant forall x :: x in all ==> all[x].closed == (x !in pending)
        decreases |pending|
      {
        var x :| x in pending;
        var ch := pending[x];
        ghost var before := pending;
        CloseOne(x, ch);
        forall y | y in all
          ensures all[y].closed == (y !in pending)
        {
          if y != x {
            assert all[y].id != ch.id && (y in pending <==> y in before);
          }
        }
      }
    }

    method CloseOne(x: string, ch: Slot)
      requires x in pending && pending[x] == ch && !ch.closed
      modifies this`pending, ch`closed
      ensures pending == old(pending) - {x} && |pending| < |old(pending)|
      ensures ch.closed
    {
      ch.Close();
      assert (pending - {x}).Keys == pending.Keys - {x};
      pending := pending - {x};
    }
  }

  /** Part of a table. */
  ghost predicate Rest(all: map<string, Slot>, part: map<string, Slot>) {
    forall x :: x in part ==> x in all && part[x] == all[x]
  }

  // ---------------------------------------------------------------- the step system agrees

  ghost function SharedOf(c: Client): Shared
    requires forall x :: x in c.pending ==> x in c.calls
  {
    Shared(c.connected, c.once, c.closes, map x | x in c.pending :: c.calls[x].ch)
  }

  lemma CallsAgree(c: Client, x: string, name: string, params: Option<Json>)
    requires Inv(c)
    ensures Enabled(c, Begin(x, name, params)) ==>
              Inv(Apply(c, Begin(x, name, params))) &&
              SharedOf(Apply(c, Begin(x, name, params))) == Enter(SharedOf(c), x)
    ensures Enabled(c, Leave(x)) ==>
              Inv(Apply(c, Leave(x))) && SharedOf(Apply(c, Leave(x))) == Exit(SharedOf(c), x)
  {
    if Enabled(c, Begin(x, name, params)) {
      BeginKeeps(c, x, name, params);
    }
    if Enabled(c, Leave(x)) {
      LeaveKeeps(c, x);
    }
  }

  lemma ResponsesAgree(c: Client, r: Response)
    requires Inv(c) && Enabled(c, Respond(r))
    ensures Apply(c, Respond(r)).crashed <==> !Comparable(r.id)
    ensures var looked := Apply(c, Respond(r));
            var c' := if Enabled(looked, Deliver) then Apply(looked, Deliver) else looked;
            Inv(c') && (Comparable(r.id) ==> !c'.crashed) && SharedOf(c') == Hand(SharedOf(c), r)
  {
    LookUpKeeps(c, r);
    var looked := Apply(c, Respond(r));
    if looked.reader.Holding? && !looked.crashed {
      DeliverKeeps(looked);
      DeliveryAgrees(c, looked, r);
    }
  }

  lemma DeliveryAgrees(c: Client, looked: Client, r: Response)
    requires TableOk(c) && ChansOk(c) && r.id.JStr? && r.id.s in c.pending && !c.crashed
    requires looked == c.(reader := Holding(r.id.s, r))
    ensures Enabled(looked, Deliver) && !Apply(looked, Deliver).crashed
    ensures forall x :: x in Apply(looked, Deliver).pending ==> x in Apply(looked, Deliver).calls
    ensures SharedOf(Apply(looked, Deliver)) == Hand(SharedOf(c), r)
  {
  }

  /** An undisturbed Close: its steps in a row, as far as they are enabled. */
  lemma CloseAgrees(c: Client)
    requires Inv(c) && !c.crashed && (c.closing == Open || c.closing == Shut)
    ensures var c1 := Apply(c, Close);
            var c' := if Enabled(c1, Drain) then Apply(c1, Drain) else c1;
            Inv(c') && !c'.crashed && SharedOf(c') == Shutdown(SharedOf(c))
  {
    PlainKeeps(c, Close);
    if Enabled(Apply(c, Close), Drain) {
      DrainKeeps(Apply(c, Close));
    }
  }
}
