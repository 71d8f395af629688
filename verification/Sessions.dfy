/** SessionManager (session.go): a bounded table of sessions, and the reassembly of messages
    whose fragments arrive in any order and more than once. */
module Sessions {
  import opened Option

  type Byte = b: int | 0 <= b < 256
  type Bytes = seq<Byte>

  datatype Message = Message(sessionID: string, clientID: string, data: Bytes)

  /** A session's contents. */
  datatype Data = Data(
    id: string, clientID: string, messages: seq<Message>,
    frames: map<int, Bytes>, total: int, createdAt: int)

  type Table = map<string, Data>

  datatype Error = ErrSessionNotFound | ErrSessionLimitReached

  // ---------------------------------------------------------------- reassembly

  function Store(d: Data, index: int, total: int, data: Bytes): Data {
    d.(frames := d.frames[index := data], total := total)
  }

  /** The append loop of assembleAndRemove, from index i on; None when a frame is missing. */
  function Append(frames: map<int, Bytes>, i: nat, total: nat): Option<Bytes>
    requires i <= total
    decreases total - i
  {
    if i == total then Some([])
    else if i !in frames then None
    else match Append(frames, i + 1, total) case Some(rest) => Some(frames[i] + rest) case None => None
  }

  /** The whole is there exactly when the rest is, and then it is front followed by the rest. */
  predicate Joins(front: Bytes, rest: Option<Bytes>, whole: Option<Bytes>) {
    (whole.Some? <==> rest.Some?) && (whole.Some? ==> whole.value == front + rest.value)
  }

  lemma JoinsStep(front: Bytes, frames: map<int, Bytes>, i: nat, total: nat, whole: Option<Bytes>)
    requires i < total && i in frames && Joins(front, Append(frames, i, total), whole)
    ensures Joins(front + frames[i], Append(frames, i + 1, total), whole)
  {
  }

  /** The loop itself. */
  method AppendAll(frames: map<int, Bytes>, total: nat) returns (r: Option<Bytes>)
    ensures r == Append(frames, 0, total)
  {
    var assembled: Bytes := [];
    for i := 0 to total
      invariant Joins(assembled, Append(frames, i, total), Append(frames, 0, total))
    {
      if i !in frames {
        return None;
      }
      JoinsStep(assembled, frames, i, total, Append(frames, 0, total));
      assembled := assembled + frames[i];
    }
    assert assembled + [] == assembled;
    return Some(assembled);
  }

  /** The message that assembleAndRemove puts together, if it reports completion. */
  function Assembled(d: Data): Option<Bytes> {
    if d.total > 0 && |d.frames| == d.total then Append(d.frames, 0, d.total) else None
  }

  /** A complete session's last message is the assembled one; an incomplete one stays as it is. */
  function Delivered(d: Data): Data {
    match Assembled(d)
    case Some(bytes) => d.(messages := d.messages + [Message(d.id, d.clientID, bytes)])
    case None => d
  }

  function Indices(n: nat): (r: set<int>)
    ensures |r| == n && forall i :: i in r <==> 0 <= i < n
  {
    if n == 0 then {} else Indices(n - 1) + {n - 1}
  }

  lemma {:induction false} AppendFinds(frames: map<int, Bytes>, i: nat, total: nat)
    requires i <= total
    ensures Append(frames, i, total).Some? <==> forall k :: i <= k < total ==> k in frames
    decreases total - i
  {
    if i < total {
      AppendFinds(frames, i + 1, total);
    }
  }

  lemma SubsetOfSameSize(a: set<int>, b: set<int>)
    requires a <= b && |a| == |b|
    ensures a == b
  {
    assert |b - a| == |b| - |a|;
  }

  /** Completion is reported exactly when the indices stored are those from 0 to the announced
      total, no one missing and none beside them. */
  lemma CompleteExactly(d: Data)
    ensures Assembled(d).Some? <==> d.total > 0 && forall i :: i in d.frames <==> 0 <= i < d.total
  {
    if d.total > 0 {
      var want := Indices(d.total);
      AppendFinds(d.frames, 0, d.total);
      if |d.frames| == d.total && want <= d.frames.Keys {
        SubsetOfSameSize(want, d.frames.Keys);
      }
      if d.frames.Keys == want {
        assert |d.frames.Keys| == d.total;
      }
      if forall i :: i in d.frames <==> 0 <= i < d.total {
        assert d.frames.Keys == want;
      }
    }
  }

  /** One call of addFrame. */
  datatype Arrival = Arrival(index: int, total: int, data: Bytes)

  function Receive(d: Data, arrivals: seq<Arrival>): Data {
    if arrivals == [] then d
    else
      var last := arrivals[|arrivals| - 1];
      Store(Receive(d, arrivals[..|arrivals| - 1]), last.index, last.total, last.data)
  }

  function Concat(chunks: seq<Bytes>): Bytes {
    if chunks == [] then [] else chunks[0] + Concat(chunks[1..])
  }

  /** Each arrival is one of the chunks, under its own index and the right total. */
  ghost predicate Fragments(chunks: seq<Bytes>, arrivals: seq<Arrival>) {
    forall a :: a in arrivals ==> 0 <= a.index < |chunks| && a.total == |chunks| && a.data == chunks[a.index]
  }

  ghost predicate Arrived(arrivals: seq<Arrival>, i: int) {
    exists a :: a in arrivals && a.index == i
  }

  lemma {:induction false} ReceiveStores(d: Data, chunks: seq<Bytes>, arrivals: seq<Arrival>)
    requires d.frames == map[] && Fragments(chunks, arrivals)
    ensures var r := Receive(d, arrivals);
            && (forall i :: i in r.frames ==> 0 <= i < |chunks| && r.frames[i] == chunks[i])
            && (forall a :: a in arrivals ==> a.index in r.frames)
            && (arrivals != [] ==> r.total == |chunks|)
  {
    if arrivals != [] {
      var front, last := arrivals[..|arrivals| - 1], arrivals[|arrivals| - 1];
      assert arrivals == front + [last];
      ReceiveStores(d, chunks, front);
    }
  }

  lemma {:induction false} AppendChunks(frames: map<int, Bytes>, chunks: seq<Bytes>, i: nat)
    requires i <= |chunks| && forall k :: 0 <= k < |chunks| ==> k in frames && frames[k] == chunks[k]
    ensures Append(frames, i, |chunks|) == Some(Concat(chunks[i..]))
    decreases |chunks| - i
  {
    if i < |chunks| {
      AppendChunks(frames, chunks, i + 1);
      assert chunks[i..][1..] == chunks[i + 1..];
    }
  }

  /** However a message was cut, in whatever order and however often its chunks arrive, once
      each has arrived the assembled message is the original, byte for byte. */
  lemma Reassembly(d: Data, chunks: seq<Bytes>, arrivals: seq<Arrival>)
    requires d.frames == map[] && |chunks| >= 1 && Fragments(chunks, arrivals)
    requires forall i :: 0 <= i < |chunks| ==> Arrived(arrivals, i)
    ensures Assembled(Receive(d, arrivals)) == Some(Concat(chunks))
  {
    ReceiveStores(d, chunks, arrivals);
    assert Arrived(arrivals, 0);
    AllStored(Receive(d, arrivals), chunks, arrivals);
  }

  lemma AllStored(r: Data, chunks: seq<Bytes>, arrivals: seq<Arrival>)
    requires |chunks| >= 1 && r.total == |chunks|
    requires forall i :: i in r.frames ==> 0 <= i < |chunks| && r.frames[i] == chunks[i]
    requires forall a :: a in arrivals ==> a.index in r.frames
    requires forall i :: 0 <= i < |chunks| ==> Arrived(arrivals, i)
    ensures Assembled(r) == Some(Concat(chunks))
  {
    forall i | 0 <= i < |chunks|
      ensures i in r.frames
    {
      assert Arrived(arrivals, i);
    }
    CompleteExactly(r);
    AppendChunks(r.frames, chunks, 0);
    assert chunks[0..] == chunks;
  }

  /** The chunks that a message is cut into at these places. */
  ghost predicate IsCut(message: Bytes, places: seq<int>, chunks: seq<Bytes>) {
    && |places| == |chunks| + 1 && places[0] == 0 && places[|chunks|] == |message|
    && (forall i :: 0 <= i < |chunks| ==> CutOut(message, places[i], places[i + 1], chunks[i]))
  }

  predicate CutOut(message: Bytes, from: int, to: int, chunk: Bytes) {
    0 <= from <= to <= |message| && chunk == message[from..to]
  }

  lemma {:induction false} ConcatOfCut(message: Bytes, places: seq<int>, chunks: seq<Bytes>, i: nat)
    requires IsCut(message, places, chunks) && i <= |chunks|
    ensures 0 <= places[i] <= |message| && Concat(chunks[i..]) == message[places[i]..]
    decreases |chunks| - i
  {
    if i < |chunks| {
      assert CutOut(message, places[i], places[i + 1], chunks[i]);
      ConcatOfCut(message, places, chunks, i + 1);
      assert chunks[i..][1..] == chunks[i + 1..];
      assert message[places[i]..] == message[places[i]..places[i + 1]] + message[places[i + 1]..];
    }
  }

  lemma {:induction false} ReceiveKeeps(d: Data, arrivals: seq<Arrival>)
    ensures var r := Receive(d, arrivals);
            r.id == d.id && r.clientID == d.clientID && r.messages == d.messages && r.createdAt == d.createdAt
  {
    if arrivals != [] {
      ReceiveKeeps(d, arrivals[..|arrivals| - 1]);
    }
  }

  /** A message cut anywhere, its chunks received in any order and repetition, and the session
      assembled: the message is added to the session's, under its id and its client, byte for byte;
      while an incomplete session stays as it was. */
  lemma AssembledMessage(d: Data, message: Bytes, places: seq<int>, chunks: seq<Bytes>, arrivals: seq<Arrival>)
    requires d.frames == map[] && |chunks| >= 1 && IsCut(message, places, chunks) && Fragments(chunks, arrivals)
    requires forall i :: 0 <= i < |chunks| ==> Arrived(arrivals, i)
    ensures Delivered(Receive(d, arrivals)).messages == d.messages + [Message(d.id, d.clientID, message)]
    ensures Assembled(d) == None && Delivered(d) == d
  {
    Reassembly(d, chunks, arrivals);
    ReceiveKeeps(d, arrivals);
    ConcatOfCut(message, places, chunks, 0);
    assert chunks[0..] == chunks && message[0..] == message;
    assert 0 !in d.frames;
    CompleteExactly(d);
  }

  // ---------------------------------------------------------------- the table

  function Fresh(id: string, clientID: string, now: int): Data {
    Data(id, clientID, [], map[], 0, now)
  }

  predicate Of(d: Data, clientID: string) {
    d.clientID == clientID
  }

  class Session {
    const id: string
    const clientID: string
    var messages: seq<Message>
    var pendingFrames: map<int, Bytes>
    var frameTotal: int
    const createdAt: int

    constructor (id: string, clientID: string, now: int)
      ensures View() == Fresh(id, clientID, now)
      ensures this.id == id && this.clientID == clientID && createdAt == now
      ensures messages == [] && pendingFrames == map[] && frameTotal == 0
    {
      this.id, this.clientID, createdAt := id, clientID, now;
      messages, pendingFrames, frameTotal := [], map[], 0;
    }

    function View(): Data
      reads this
    {
      Data(id, clientID, messages, pendingFrames, frameTotal, createdAt)
    }

    /** The second half of assembleAndRemove, after the session has left the table. */
    method Assemble() returns (complete: bool)
      modifies this
      ensures complete <==> Assembled(old(View())).Some?
      ensures View() == Delivered(old(View()))
      ensures complete ==> messages == old(messages) + [Message(id, clientID, Assembled(old(View())).value)]
      ensures !complete ==> messages == old(messages)
      ensures pendingFrames == old(pendingFrames) && frameTotal == old(frameTotal)
    {
      complete := false;
      if frameTotal > 0 && |pendingFrames| == frameTotal {
        var assembled := AppendAll(pendingFrames, frameTotal);
        if assembled.Some? {
          messages := messages + [Message(id, clientID, assembled.value)];
          complete := true;
        }
      }
    }
  }

  lemma OneLess(t: Table, snapshot: set<string>, ids: set<string>, id: string)
    requires id in ids && ids <= snapshot
    ensures t - (snapshot - ids) - {id} == t - (snapshot - (ids - {id}))
  {
    assert snapshot - (ids - {id}) == (snapshot - ids) + {id};
  }

  class SessionManager {
    var sessions: map<string, Session>
    const timeout: int
    const maxSessions: nat

    ghost predicate Valid()
      reads this, sessions.Values
    {
      && |sessions| <= maxSessions
      && forall id :: id in sessions ==> sessions[id].id == id
    }

    ghost function View(): (t: Table)
      reads this, sessions.Values
    {
      map id | id in sessions :: sessions[id].View()
    }

    constructor (timeout: int)
      ensures Valid() && View() == map[] && maxSessions == 1000
    {
      this.timeout, maxSessions := timeout, 1000;
      sessions := map[];
    }

    /** create, with the id that uuid.New came up with. */
    method Create(clientID: string, id: string, now: int) returns (r: Option<Error>)
      requires Valid() && id !in sessions
      modifies this
      ensures Valid()
      ensures r == if |old(sessions)| >= maxSessions then Some(ErrSessionLimitReached) else None
      ensures View() == if r.None? then old(View())[id := Fresh(id, clientID, now)] else old(View())
    {
      if |sessions| >= maxSessions {
        return Some(ErrSessionLimitReached);
      }
      var s := new Session(id, clientID, now);
      sessions := sessions[id := s];
      return None;
    }

    method CreateWithID(clientID: string, id: string, now: int) returns (r: Option<Error>)
      requires Valid()
      modifies this
      ensures Valid()
      ensures r == if id in old(sessions) then Some(ErrSessionNotFound)
                   else if |old(sessions)| >= maxSessions then Some(ErrSessionLimitReached) else None
      ensures View() == if r.None? then old(View())[id := Fresh(id, clientID, now)] else old(View())
    {
      if id in sessions {
        return Some(ErrSessionNotFound);
      }
      r := Create(clientID, id, now);
    }

    method AddFrame(id: string, index: int, total: int, data: Bytes) returns (r: Option<Error>)
      requires Valid()
      modifies if id in sessions then {sessions[id]} else {}
      ensures Valid()
      ensures r == if id in old(View()) then None else Some(ErrSessionNotFound)
      ensures View() == if id in old(View())
                        then old(View())[id := Store(old(View())[id], index, total, data)]
                        else old(View())
    {
      if id !in sessions {
        return Some(ErrSessionNotFound);
      }
      var s := sessions[id];
      s.pendingFrames := s.pendingFrames[index := data];
      s.frameTotal := total;
      return None;
    }

    method AddMessage(id: string, msg: Message) returns (r: Option<Error>)
      requires Valid()
      modifies if id in sessions then {sessions[id]} else {}
      ensures Valid()
      ensures r == if id in old(View()) then None else Some(ErrSessionNotFound)
      ensures View() == if id in old(View())
                        then old(View())[id := old(View())[id].(messages := old(View())[id].messages + [msg])]
                        else old(View())
    {
      if id !in sessions {
        return Some(ErrSessionNotFound);
      }
      var s := sessions[id];
      s.messages := s.messages + [msg];
      return None;
    }

    /** The session leaves the table whether it is complete or not. */
    method AssembleAndRemove(id: string) returns (s: Session?, complete: bool)
      requires Valid()
      modifies this, if id in sessions then {sessions[id]} else {}
      ensures Valid() && View() == old(View()) - {id}
      ensures s != null <==> id in old(View())
      ensures s == null ==> !complete
      ensures s != null ==>
                var d := old(View())[id];
                && (complete <==> Assembled(d).Some?)
                && s.View() == Delivered(d)
    {
      if id !in sessions {
        return null, false;
      }
      s := sessions[id];
      assert (sessions - {id}).Keys == sessions.Keys - {id};
      sessions := sessions - {id};
      complete := s.Assemble();
    }

    method Remove(id: string)
      requires Valid()
      modifies this
      ensures Valid() && View() == old(View()) - {id}
    {
      assert (sessions - {id}).Keys == sessions.Keys - {id};
      sessions := sessions - {id};
    }

    /** Snapshot, then removal one by one: exactly the client's sessions go. */
    method CleanupClient(clientID: string)
      requires Valid()
      modifies this
      ensures Valid()
      ensures View() == map id | id in old(View()) && !Of(old(View())[id], clientID) :: old(View())[id]
    {
      var ids := set id | id in sessions && sessions[id].clientID == clientID;
      assert forall id :: id in ids <==> id in View() && Of(View()[id], clientID);
      RemoveAll(ids);
    }

    method RemoveAll(snapshot: set<string>)
      requires Valid()
      modifies this
      ensures Valid() && View() == old(View()) - snapshot
    {
      var ids := snapshot;
      while ids != {}
        invariant Valid() && ids <= snapshot
        invariant View() == old(View()) - (snapshot - ids)
        decreases ids
      {
        var id :| id in ids;
        OneLess(old(View()), snapshot, ids, id);
        Remove(id);
        ids := ids - {id};
      }
    }
  }
}
