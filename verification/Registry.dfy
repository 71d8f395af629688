/** The channel registry (channel.go), with the mock channel as its concrete channel. */
module Registry {
  import opened Option

  datatype Error = ErrChannelAlreadyExists | ErrChannelAlreadyRunning | ErrChannelNotRunning

  datatype Status = Stopped | Running

  /** A message handler, told apart by a number; Start may be given none. */
  type Handler = Option<nat>

  class MockChannel {
    const name: string
    var started: bool
    var status: Status
    var handler: Handler

    ghost predicate Valid()
      reads this
    {
      started == (status == Running) && (!started ==> handler == None)
    }

    constructor (name: string)
      ensures Valid() && this.name == name && !started
    {
      this.name := name;
      started, status, handler := false, Stopped, None;
    }

    method Start(handler: Handler) returns (err: Option<Error>)
      requires Valid()
      modifies this
      ensures Valid() && started
      ensures err == if old(started) then Some(ErrChannelAlreadyRunning) else None
      ensures this.handler == if old(started) then old(this.handler) else handler
    {
      if started {
        return Some(ErrChannelAlreadyRunning);
      }
      started, this.handler, status := true, handler, Running;
      return None;
    }

    method Stop() returns (err: Option<Error>)
      requires Valid()
      modifies this
      ensures Valid() && !started
      ensures err == if old(started) then None else Some(ErrChannelNotRunning)
    {
      if !started {
        return Some(ErrChannelNotRunning);
      }
      started, status, handler := false, Stopped, None;
      return None;
    }
  }

  /** Each registered channel once. */
  ghost predicate Enumerates(order: seq<MockChannel>, channels: map<string, MockChannel>) {
    && (forall i :: 0 <= i < |order| ==> order[i] in channels.Values)
    && (forall name :: name in channels ==> channels[name] in order)
    && (forall i, j :: 0 <= i < j < |order| ==> order[i] != order[j])
  }

  class ChannelRegistry {
    var channels: map<string, MockChannel>

    ghost predicate Valid()
      reads this, channels.Values
    {
      forall name :: name in channels ==> channels[name].name == name && channels[name].Valid()
    }

    constructor ()
      ensures Valid() && channels == map[]
    {
      channels := map[];
    }

    method Register(c: MockChannel) returns (err: Option<Error>)
      requires Valid() && c.Valid()
      modifies this
      ensures Valid()
      ensures err == if c.name in old(channels) then Some(ErrChannelAlreadyExists) else None
      ensures channels == if err.None? then old(channels)[c.name := c] else old(channels)
    {
      if c.name in channels {
        return Some(ErrChannelAlreadyExists);
      }
      channels := channels[c.name := c];
      return None;
    }

    method Unregister(name: string)
      requires Valid()
      modifies this
      ensures Valid() && channels == old(channels) - {name}
    {
      channels := channels - {name};
    }

    /** The copying loop of StartAll and StopAll: some order of the map's values. */
    method Snapshot() returns (order: seq<MockChannel>)
      requires Valid()
      ensures Enumerates(order, channels)
    {
      order := [];
      var rest := channels.Keys;
      while rest != {}
        invariant rest <= channels.Keys
        invariant forall i :: 0 <= i < |order| ==> order[i] in channels.Values && order[i].name !in rest
        invariant forall name :: name in channels && name !in rest ==> channels[name] in order
        invariant forall i, j :: 0 <= i < j < |order| ==> order[i] != order[j]
        decreases rest
      {
        var name :| name in rest;
        assert channels[name] in channels.Values;
        order := order + [channels[name]];
        rest := rest - {name};
      }
    }

    /** StartAll stops at the first channel that is running already; by then exactly the channels
        before it in the order of the walk have been started, and the others are as they were. */
    method StartAll(handler: Handler) returns (err: Option<Error>, ghost order: seq<MockChannel>, ghost k: nat)
      requires Valid()
      modifies channels.Values
      ensures Valid() && Enumerates(order, channels) && k <= |order|
      ensures forall i :: 0 <= i < k ==> !old(order[i].started) && order[i].started && order[i].handler == handler
      ensures forall i :: k <= i < |order| ==> order[i].started == old(order[i].started)
      ensures err.None? <==> k == |order|
      ensures err.Some? ==> old(order[k].started) && err == Some(ErrChannelAlreadyRunning)
    {
      var list := Snapshot();
      order, k := list, 0;
      for i := 0 to |list|
        invariant Valid() && k == i
        invariant forall j :: 0 <= j < i ==> !old(list[j].started) && list[j].started && list[j].handler == handler
        invariant forall j :: i <= j < |list| ==> list[j].started == old(list[j].started)
      {
        assert list[i] in channels.Values;
        err := list[i].Start(handler);
        if err.Some? {
          return;
        }
        k := k + 1;
      }
      err := None;
    }

    /** StopAll leaves every channel stopped, and reports no error exactly if all were running. */
    method StopAll() returns (lastErr: Option<Error>)
      requires Valid()
      modifies channels.Values
      ensures Valid() && forall name :: name in channels ==> !channels[name].started
      ensures lastErr.None? <==> forall name :: name in channels ==> old(channels[name].started)
    {
      var list := Snapshot();
      lastErr := None;
      for i := 0 to |list|
        invariant Valid()
        invariant forall j :: 0 <= j < i ==> !list[j].started
        invariant forall j :: i <= j < |list| ==> list[j].started == old(list[j].started)
        invariant lastErr.None? <==> forall j :: 0 <= j < i ==> old(list[j].started)
      {
        assert list[i] in channels.Values;
        var err := list[i].Stop();
        if err.Some? {
          lastErr := err;
        }
      }
      forall name | name in channels
        ensures exists i :: 0 <= i < |list| && list[i] == channels[name]
      {
        assert channels[name] in list;
      }
      assert forall i :: 0 <= i < |list| ==> list[i] in channels.Values && list[i].name in channels;
    }
  }
}
