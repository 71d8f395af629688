/** The session table over whole timed runs (session.go): callers, clean-up of a client, and
    the ticker goroutine with its snapshot and its removals, interleaved freely. */
module SessionRuns {
  import opened Option
  import opened Sessions

  /** The ticker's period, and the unit of time, in seconds. */
  const TICK := 10

  /** A run of cleanupClient: what it saw of its client's sessions, and what of it is not yet
      removed. Several may be at work on one table. */
  datatype Cleanup = Cleanup(clientID: string, snapshot: set<string>, left: set<string>)

  datatype State = State(
    table: Table,
    max: nat,
    timeout: nat,
    now: int,
    lastTick: int,
    expired: set<string>,      // the ticker's snapshot, as far as it is not yet removed
    cleanups: seq<Cleanup>,
    used: set<string>,         // every id ever given to a session
    assembled: seq<string>,    // the ids for which assembly reported completion
    closed: bool)              // Close was called: the ticker may stop

  datatype Step =
    | Create(clientID: string, id: string)
    | AddFrame(id: string, index: int, total: int, data: Bytes)
    | AddMessage(id: string, msg: Message)
    | Assemble(id: string)
    | Remove(id: string)
    | CleanStart(clientID: string)
    | CleanOne(n: nat, id: string)
    | Advance(seconds: nat)
    | Tick
    | ExpireOne(id: string)
    | Close

  function Start(max: nat, timeout: nat, now: int): State {
    State(map[], max, timeout, now, now, {}, [], {}, [], false)
  }

  /** Ids are never reused. The ticker fires every TICK seconds while it runs, and its removals
      take no time on that scale. After Close nothing is promised about time, though the loop's
      select may still prefer a tick that is there. */
  predicate Enabled(s: State, step: Step) {
    match step
    case Create(_, id) => id !in s.used || id in s.table
    case AddFrame(_, _, _, _) => true
    case AddMessage(_, _) => true
    case Assemble(_) => true
    case Remove(_) => true
    case CleanStart(_) => true
    case CleanOne(n, id) => n < |s.cleanups| && id in s.cleanups[n].left
    case Advance(seconds) => s.closed || (s.expired == {} && s.now + seconds <= s.lastTick + TICK)
    case Tick => s.expired == {} && (if s.closed then s.now >= s.lastTick + TICK else s.now == s.lastTick + TICK)
    case ExpireOne(id) => id in s.expired
    case Close => true
  }

  /** create and createWithID: an id in use, or a full table, is refused. */
  function Insert(s: State, clientID: string, id: string): State {
    if id in s.table || |s.table| >= s.max then s
    else s.(table := s.table[id := Fresh(id, clientID, s.now)], used := s.used + {id})
  }

  function Apply(s: State, step: Step): State
    requires Enabled(s, step)
  {
    match step
    case Create(clientID, id) => Insert(s, clientID, id)
    case AddFrame(id, index, total, data) =>
      if id in s.table then s.(table := s.table[id := Store(s.table[id], index, total, data)]) else s
    case AddMessage(id, msg) =>
      if id in s.table
      then s.(table := s.table[id := s.table[id].(messages := s.table[id].messages + [msg])]) else s
    case Assemble(id) =>
      if id in s.table && Assembled(s.table[id]).Some?
      then s.(table := s.table - {id}, assembled := s.assembled + [id])
      else s.(table := s.table - {id})
    case Remove(id) => s.(table := s.table - {id})
    case CleanStart(clientID) =>
      var ids := set id | id in s.table && Of(s.table[id], clientID);
      s.(cleanups := s.cleanups + [Cleanup(clientID, ids, ids)])
    case CleanOne(n, id) => Done(s.(table := s.table - {id}), n, id)
    case Advance(seconds) => s.(now := s.now + seconds)
    case Tick => s.(lastTick := s.now, expired := set id | id in s.table && Age(s, id) > s.timeout)
    case ExpireOne(id) => s.(table := s.table - {id}, expired := s.expired - {id})
    case Close => s.(closed := true)
  }

  function Done(s: State, n: nat, id: string): State
    requires n < |s.cleanups|
  {
    s.(cleanups := s.cleanups[n := s.cleanups[n].(left := s.cleanups[n].left - {id})])
  }

  function Age(s: State, id: string): int
    requires id in s.table
  {
    s.now - s.table[id].createdAt
  }

  predicate IsRun(s: State, steps: seq<Step>)
    decreases |steps|
  {
    steps == [] || (Enabled(s, steps[0]) && IsRun(Apply(s, steps[0]), steps[1..]))
  }

  function Run(s: State, steps: seq<Step>): State
    requires IsRun(s, steps)
    decreases |steps|
  {
    if steps == [] then s else Run(Apply(s, steps[0]), steps[1..])
  }

  // ---------------------------------------------------------------- the invariant

  ghost predicate TableOk(s: State) {
    && |s.table| <= s.max
    && (forall id :: id in s.table ==> s.table[id].id == id && id in s.used)
    && s.expired <= s.used
  }

  /** What the ticker has in its snapshot is overdue; nothing else was overdue at its last tick;
      and nothing was when it ticked before that. */
  ghost predicate TimeOk(s: State) {
    && (forall id :: id in s.table ==> s.table[id].createdAt <= s.now)
    && (forall id :: id in s.table && id in s.expired ==> Age(s, id) > s.timeout)
    && (!s.closed ==> s.lastTick <= s.now <= s.lastTick + TICK)
    && (!s.closed ==> forall id :: id in s.table && id !in s.expired ==>
          s.lastTick - s.table[id].createdAt <= s.timeout)
    && (!s.closed && s.expired != {} ==> s.now == s.lastTick)
    && (!s.closed ==> forall id :: id in s.table ==> s.lastTick - TICK - s.table[id].createdAt <= s.timeout)
  }

  ghost predicate CleanOk(s: State) {
    forall n :: 0 <= n < |s.cleanups| ==> CleanupOk(s, s.cleanups[n])
  }

  /** Of what it saw, a clean-up has still to remove what is there, and that is its client's. */
  ghost predicate CleanupOk(s: State, c: Cleanup) {
    && c.left <= c.snapshot <= s.used
    && (forall id :: id in s.table && id in c.snapshot ==> id in c.left && Of(s.table[id], c.clientID))
  }

  ghost predicate AssembledOk(s: State) {
    && (forall i :: 0 <= i < |s.assembled| ==> s.assembled[i] in s.used && s.assembled[i] !in s.table)
    && (forall i, j :: 0 <= i < j < |s.assembled| ==> s.assembled[i] != s.assembled[j])
  }

  ghost predicate Inv(s: State) {
    TableOk(s) && TimeOk(s) && CleanOk(s) && AssembledOk(s)
  }

  /** Taking one session out of the table keeps everything. */
  lemma WithoutKeeps(s: State, id: string)
    requires Inv(s)
    ensures Inv(s.(table := s.table - {id}))
  {
    var t := s.table - {id};
    assert t.Keys == s.table.Keys - {id};
    assert |t.Keys| <= |s.table.Keys|;
  }

  lemma UpdateKeeps(s: State, id: string, d: Data)
    requires Inv(s) && id in s.table
    requires d.id == id && d.clientID == s.table[id].clientID && d.createdAt == s.table[id].createdAt
    ensures Inv(s.(table := s.table[id := d]))
  {
    var s' := s.(table := s.table[id := d]);
    assert s'.table.Keys == s.table.Keys;
    UpdateTime(s, id, d);
    assert TableOk(s') && CleanOk(s') && AssembledOk(s');
  }

  lemma UpdateTime(s: State, id: string, d: Data)
    requires TimeOk(s) && id in s.table && d.createdAt == s.table[id].createdAt
    ensures TimeOk(s.(table := s.table[id := d]))
  {
    var s' := s.(table := s.table[id := d]);
    forall k | k in s'.table ensures k in s.table && Age(s', k) == Age(s, k) {
    }
  }

  lemma InsertTable(s: State, clientID: string, id: string)
    requires TableOk(s) && id !in s.table && |s.table| < s.max
    ensures TableOk(Insert(s, clientID, id))
  {
    var s' := Insert(s, clientID, id);
    assert s'.table.Keys == s.table.Keys + {id};
  }

  lemma InsertTime(s: State, clientID: string, id: string)
    requires TimeOk(s) && TableOk(s) && id !in s.used
    ensures TimeOk(Insert(s, clientID, id))
  {
    assert id !in s.expired;
  }

  lemma InsertClean(s: State, clientID: string, id: string)
    requires CleanOk(s) && id !in s.used
    ensures CleanOk(Insert(s, clientID, id))
  {
    forall n | 0 <= n < |s.cleanups|
      ensures CleanupOk(Insert(s, clientID, id), s.cleanups[n])
    {
      assert CleanupOk(s, s.cleanups[n]) && id !in s.cleanups[n].snapshot;
    }
  }

  lemma InsertKeeps(s: State, clientID: string, id: string)
    requires Inv(s) && (id !in s.used || id in s.table)
    ensures Inv(Insert(s, clientID, id))
  {
    if id !in s.table && |s.table| < s.max {
      InsertTable(s, clientID, id);
      InsertTime(s, clientID, id);
      InsertClean(s, clientID, id);
      assert forall i :: 0 <= i < |s.assembled| ==> s.assembled[i] != id;
    }
  }

  lemma AssembleKeeps(s: State, id: string)
    requires Inv(s)
    ensures Inv(Apply(s, Assemble(id)))
  {
    var without := s.(table := s.table - {id});
    WithoutKeeps(s, id);
    if id in s.table && Assembled(s.table[id]).Some? {
      assert forall i :: 0 <= i < |s.assembled| ==> s.assembled[i] != id;
      LogKeeps(without, id, s.assembled);
    }
  }

  lemma LogKeeps(s: State, id: string, log: seq<string>)
    requires Inv(s) && s.assembled == log && id in s.used && id !in s.table
    requires forall i :: 0 <= i < |log| ==> log[i] != id
    ensures Inv(s.(assembled := log + [id]))
  {
  }

  lemma StepKeeps(s: State, step: Step)
    requires Inv(s) && Enabled(s, step)
    ensures Inv(Apply(s, step))
    ensures Apply(s, step).max == s.max && Apply(s, step).timeout == s.timeout
  {
    match step
    case Create(clientID, id) => InsertKeeps(s, clientID, id);
    case AddFrame(id, index, total, data) =>
      if id in s.table { UpdateKeeps(s, id, Store(s.table[id], index, total, data)); }
    case AddMessage(id, msg) =>
      if id in s.table { UpdateKeeps(s, id, s.table[id].(messages := s.table[id].messages + [msg])); }
    case Assemble(id) => AssembleKeeps(s, id);
    case Remove(id) => WithoutKeeps(s, id);
    case CleanStart(clientID) => CleanKeeps(s, clientID);
    case CleanOne(n, id) =>
      WithoutKeeps(s, id);
      DoneKeeps(s.(table := s.table - {id}), n, id);
    case Advance(seconds) => ClockKeeps(s, step);
    case Tick => TickKeeps(s);
    case ExpireOne(id) =>
      WithoutKeeps(s, id);
      ExpiredKeeps(s.(table := s.table - {id}), id);
    case Close => ClockKeeps(s, step);
  }

  lemma ClockKeeps(s: State, step: Step)
    requires Inv(s) && Enabled(s, step) && (step.Advance? || step.Close?)
    ensures Inv(Apply(s, step))
  {
    var s' := Apply(s, step);
    assert TimeOk(s');
  }

  /** A session that has gone can be struck off the snapshots. */
  lemma DoneKeeps(s: State, n: nat, id: string)
    requires Inv(s) && n < |s.cleanups| && id !in s.table
    ensures Inv(Done(s, n, id))
  {
    var s' := Done(s, n, id);
    SameTime(s, s');
    forall k | 0 <= k < |s.cleanups|
      ensures CleanupOk(s', s'.cleanups[k])
    {
      assert CleanupOk(s, s.cleanups[k]);
    }
  }

  lemma ExpiredKeeps(s: State, id: string)
    requires Inv(s) && id !in s.table
    ensures Inv(s.(expired := s.expired - {id}))
  {
    var s' := s.(expired := s.expired - {id});
    CleanSame(s, s');
  }

  /** CleanOk looks at the table, the clean-ups and the used ids only. */
  lemma CleanSame(s: State, s': State)
    requires CleanOk(s) && s'.table == s.table && s'.cleanups == s.cleanups && s.used <= s'.used
    ensures CleanOk(s')
  {
    forall n | 0 <= n < |s.cleanups|
      ensures CleanupOk(s', s.cleanups[n])
    {
      assert CleanupOk(s, s.cleanups[n]);
    }
  }

  lemma CleanKeeps(s: State, clientID: string)
    requires Inv(s) && Enabled(s, CleanStart(clientID))
    ensures Inv(Apply(s, CleanStart(clientID)))
  {
    var ids := set id | id in s.table && Of(s.table[id], clientID);
    assert ids <= s.used;
    SnapshotKeeps(s, clientID, ids);
  }

  lemma SnapshotKeeps(s: State, clientID: string, ids: set<string>)
    requires Inv(s) && ids <= s.used
    requires forall id :: id in s.table && id in ids ==> Of(s.table[id], clientID)
    ensures Inv(s.(cleanups := s.cleanups + [Cleanup(clientID, ids, ids)]))
  {
    var s' := s.(cleanups := s.cleanups + [Cleanup(clientID, ids, ids)]);
    SameTime(s, s');
    forall n | 0 <= n < |s'.cleanups|
      ensures CleanupOk(s', s'.cleanups[n])
    {
      assert n < |s.cleanups| ==> s'.cleanups[n] == s.cleanups[n] && CleanupOk(s, s.cleanups[n]);
    }
  }

  /** TimeOk looks at the table, the clock and the ticker only. */
  lemma SameTime(s: State, s': State)
    requires TimeOk(s) && s'.table == s.table && s'.now == s.now && s'.lastTick == s.lastTick
    requires s'.expired == s.expired && s'.timeout == s.timeout && s'.closed == s.closed
    ensures TimeOk(s')
  {
    forall id | id in s'.table ensures Age(s', id) == Age(s, id) {
    }
  }

  lemma TickKeeps(s: State)
    requires Inv(s) && Enabled(s, Tick)
    ensures Inv(Apply(s, Tick))
  {
    var s' := Apply(s, Tick);
    assert s'.expired <= s.table.Keys;
  }

  lemma {:induction false} RunKeeps(s: State, steps: seq<Step>)
    requires Inv(s) && IsRun(s, steps)
    ensures Inv(Run(s, steps))
    ensures Run(s, steps).max == s.max && Run(s, steps).timeout == s.timeout
    decreases |steps|
  {
    if steps != [] {
      StepKeeps(s, steps[0]);
      RunKeeps(Apply(s, steps[0]), steps[1..]);
    }
  }

  lemma RunReaches(max: nat, timeout: nat, now: int, steps: seq<Step>)
    requires IsRun(Start(max, timeout, now), steps)
    ensures var s := Run(Start(max, timeout, now), steps);
            Inv(s) && s.max == max && s.timeout == timeout
  {
    RunKeeps(Start(max, timeout, now), steps);
  }

  // ---------------------------------------------------------------- what holds over every run

  /** The table never outgrows its bound; each session stands under its own id; until Close no
      session outlives its timeout by more than one tick; and at most one assembly per id
      reports completion. */
  lemma SessionTable(max: nat, timeout: nat, now: int, steps: seq<Step>)
    requires IsRun(Start(max, timeout, now), steps)
    ensures var s := Run(Start(max, timeout, now), steps);
            && |s.table| <= max
            && (forall id :: id in s.table ==> s.table[id].id == id)
            && (!s.closed ==> forall id :: id in s.table ==> s.now - s.table[id].createdAt <= timeout + 10)
            && (forall i, j :: 0 <= i < j < |s.assembled| ==> s.assembled[i] != s.assembled[j])
  {
    RunReaches(max, timeout, now, steps);
  }

  /** Whenever the ticker removes a session, it is older than the timeout; and a clean-up
      removes no other client's session. */
  lemma RemovalsAreDue(max: nat, timeout: nat, now: int, steps: seq<Step>, s: State, n: nat, id: string)
    requires IsRun(Start(max, timeout, now), steps) && s == Run(Start(max, timeout, now), steps)
    requires id in s.table
    ensures Enabled(s, ExpireOne(id)) ==> Age(s, id) > timeout
    ensures Enabled(s, CleanOne(n, id)) ==> s.table[id].clientID == s.cleanups[n].clientID
  {
    Reaches(max, timeout, now, steps, s);
    DueNow(s, n, id);
  }

  lemma Reaches(max: nat, timeout: nat, now: int, steps: seq<Step>, s: State)
    requires IsRun(Start(max, timeout, now), steps) && s == Run(Start(max, timeout, now), steps)
    ensures TimeOk(s) && CleanOk(s) && s.timeout == timeout
  {
    RunReaches(max, timeout, now, steps);
  }

  lemma DueNow(s: State, n: nat, id: string)
    requires TimeOk(s) && CleanOk(s) && id in s.table
    ensures Enabled(s, ExpireOne(id)) ==> Age(s, id) > s.timeout
    ensures Enabled(s, CleanOne(n, id)) ==> s.table[id].clientID == s.cleanups[n].clientID
  {
    assert n < |s.cleanups| ==> CleanupOk(s, s.cleanups[n]);
  }

  /** When a clean-up is over, everything it saw at its start is gone, whatever happened
      meanwhile: other clean-ups, of this client or another, the ticker, and new sessions. */
  lemma CleanedUp(max: nat, timeout: nat, now: int, steps: seq<Step>, n: nat)
    requires IsRun(Start(max, timeout, now), steps) && n < |Run(Start(max, timeout, now), steps).cleanups|
    ensures var s := Run(Start(max, timeout, now), steps);
            s.cleanups[n].left == {} ==> forall id :: id in s.cleanups[n].snapshot ==> id !in s.table
  {
    RunReaches(max, timeout, now, steps);
    assert CleanupOk(Run(Start(max, timeout, now), steps), Run(Start(max, timeout, now), steps).cleanups[n]);
  }

  /** What each step does to the table, and to the snapshots that removals work from. */
  lemma TableExactly(s: State, step: Step)
    requires Enabled(s, step)
    ensures var t, t' := s.table, Apply(s, step).table;
            match step
            case Create(clientID, id) =>
              t' == if id !in t && |t| < s.max then t[id := Data(id, clientID, [], map[], 0, s.now)] else t
            case AddFrame(id, index, total, data) =>
              t' == if id in t then t[id := t[id].(frames := t[id].frames[index := data], total := total)] else t
            case AddMessage(id, msg) =>
              t' == if id in t then t[id := t[id].(messages := t[id].messages + [msg])] else t
            case Assemble(id) =>
              && t' == t - {id}
              && Apply(s, step).assembled == (if id in t && Assembled(t[id]).Some? then s.assembled + [id] else s.assembled)
            case Remove(id) => t' == t - {id}
            case CleanOne(_, id) => t' == t - {id}
            case ExpireOne(id) => t' == t - {id}
            case _ => t' == t
    ensures step.Tick? ==>
              forall id :: id in Apply(s, step).expired <==> id in s.table && s.now - s.table[id].createdAt > s.timeout
    ensures step.CleanStart? ==>
              var cleanups := Apply(s, step).cleanups;
              && |cleanups| == |s.cleanups| + 1
              && forall id :: id in cleanups[|s.cleanups|].snapshot <==> id in s.table && s.table[id].clientID == step.clientID
  {
  }

  /** What time, the ticker and Close do beside it. */
  lemma TimeExactly(s: State, step: Step)
    requires Enabled(s, step)
    ensures step.Tick? && !s.closed ==> s.now == s.lastTick + 10
    ensures Apply(s, step).now == s.now + (if step.Advance? then step.seconds else 0)
    ensures Apply(s, step).lastTick == if step.Tick? then s.now else s.lastTick
    ensures Apply(s, step).closed == (s.closed || step.Close?)
    ensures step.ExpireOne? ==> Apply(s, step).expired == s.expired - {step.id}
    ensures step.CleanOne? ==> Apply(s, step).cleanups[step.n].left == s.cleanups[step.n].left - {step.id}
  {
  }

  // ---------------------------------------------------------------- reassembly in the midst of everything

  /** The fragments that a run adds to a session, in order. */
  function ArrivalsIn(steps: seq<Step>, id: string): seq<Arrival> {
    if steps == [] then []
    else
      (if steps[0].AddFrame? && steps[0].id == id
       then [Arrival(steps[0].index, steps[0].total, steps[0].data)] else [])
      + ArrivalsIn(steps[1..], id)
  }

  /** The messages that a run adds to it. */
  function MessagesIn(steps: seq<Step>, id: string): seq<Message> {
    if steps == [] then []
    else (if steps[0].AddMessage? && steps[0].id == id then [steps[0].msg] else []) + MessagesIn(steps[1..], id)
  }

  lemma {:induction false} ReceiveCons(d: Data, first: Arrival, rest: seq<Arrival>)
    ensures Receive(d, [first] + rest) == Receive(Store(d, first.index, first.total, first.data), rest)
  {
    var all := [first] + rest;
    if rest == [] {
      assert all == [first] && all[..0] == [];
      assert Receive(d, all[..0]) == d;
    } else {
      var n := |rest| - 1;
      assert all[..|all| - 1] == [first] + rest[..n] && all[|all| - 1] == rest[n];
      ReceiveCons(d, first, rest[..n]);
    }
  }

  lemma {:induction false} ReceiveBeside(d: Data, messages: seq<Message>, arrivals: seq<Arrival>)
    ensures Receive(d.(messages := messages), arrivals) == Receive(d, arrivals).(messages := messages)
  {
    if arrivals != [] {
      ReceiveBeside(d, messages, arrivals[..|arrivals| - 1]);
    }
  }

  /** An id is not used again, so a session that has gone does not come back. */
  lemma {:induction false} GoneForGood(s: State, steps: seq<Step>, id: string)
    requires IsRun(s, steps) && id in s.used && id !in s.table
    ensures id !in Run(s, steps).table
    decreases |steps|
  {
    if steps != [] {
      GoneStep(s, steps[0], id);
      GoneForGood(Apply(s, steps[0]), steps[1..], id);
    }
  }

  lemma GoneStep(s: State, step: Step, id: string)
    requires Enabled(s, step) && id in s.used
    ensures id in Apply(s, step).used
    ensures id !in s.table ==> id !in Apply(s, step).table
  {
    TableExactly(s, step);
  }

  /** Whatever else happens to the table meanwhile, a session that is still there at the end of a run holds
      what it held at the beginning and, on top, exactly the frames and messages that were added
      under its id, in order. */
  lemma {:induction false} SessionAfter(s: State, steps: seq<Step>, id: string)
    requires IsRun(s, steps) && id in s.used && id in s.table && id in Run(s, steps).table
    ensures var d := Receive(s.table[id], ArrivalsIn(steps, id));
            Run(s, steps).table[id] == d.(messages := s.table[id].messages + MessagesIn(steps, id))
    decreases |steps|
  {
    var d := s.table[id];
    if steps == [] {
      assert d.messages + [] == d.messages && Receive(d, []) == d;
    } else {
      var s' := Apply(s, steps[0]);
      GoneStep(s, steps[0], id);
      if id !in s'.table {
        GoneForGood(s', steps[1..], id);
        assert false;
      } else {
        SessionAfter(s', steps[1..], id);
        SessionStep(s, steps[0], id);
        AfterFirst(d, s'.table[id], steps, id);
      }
    }
  }

  /** What one step has added to the session. */
  ghost predicate Added(d: Data, d': Data, step: Step, id: string) {
    d' == if step.AddFrame? && step.id == id then Store(d, step.index, step.total, step.data)
          else if step.AddMessage? && step.id == id then d.(messages := d.messages + [step.msg])
          else d
  }

  lemma SessionStep(s: State, step: Step, id: string)
    requires Enabled(s, step) && id in s.used && id in s.table && id in Apply(s, step).table
    ensures Added(s.table[id], Apply(s, step).table[id], step, id)
  {
    TableExactly(s, step);
  }

  lemma AfterFirst(d: Data, d': Data, steps: seq<Step>, id: string)
    requires steps != [] && Added(d, d', steps[0], id)
    ensures Receive(d', ArrivalsIn(steps[1..], id)).(messages := d'.messages + MessagesIn(steps[1..], id))
         == Receive(d, ArrivalsIn(steps, id)).(messages := d.messages + MessagesIn(steps, id))
  {
    var step, arrivals, messages := steps[0], ArrivalsIn(steps[1..], id), MessagesIn(steps[1..], id);
    if step.AddFrame? && step.id == id {
      assert ArrivalsIn(steps, id) == [Arrival(step.index, step.total, step.data)] + arrivals;
      assert MessagesIn(steps, id) == messages;
      ReceiveCons(d, Arrival(step.index, step.total, step.data), arrivals);
    } else if step.AddMessage? && step.id == id {
      assert ArrivalsIn(steps, id) == arrivals && MessagesIn(steps, id) == [step.msg] + messages;
      MessageFirst(d, step.msg, arrivals, messages);
    } else {
      assert ArrivalsIn(steps, id) == arrivals && MessagesIn(steps, id) == messages;
    }
  }

  lemma MessageFirst(d: Data, msg: Message, arrivals: seq<Arrival>, messages: seq<Message>)
    ensures Receive(d.(messages := d.messages + [msg]), arrivals).(messages := (d.messages + [msg]) + messages)
         == Receive(d, arrivals).(messages := d.messages + ([msg] + messages))
  {
    ReceiveBeside(d, d.messages + [msg], arrivals);
    assert (d.messages + [msg]) + messages == d.messages + ([msg] + messages);
  }

  /** So reassembly works in the midst of everything: a session is created, a message is cut up and its
      fragments are added in any order and repetition, while other sessions come and go, are cleaned
      up and expire; if the session is still there, assembling it reports completion and the message
      that it then holds last is the original, byte for byte. */
  lemma ReassembledInRun(s: State, clientID: string, id: string, steps: seq<Step>,
                         message: Bytes, places: seq<int>, chunks: seq<Bytes>)
    requires Inv(s) && id !in s.used && |s.table| < s.max
    requires IsRun(Apply(s, Create(clientID, id)), steps)
    requires id in Run(Apply(s, Create(clientID, id)), steps).table
    requires |chunks| >= 1 && IsCut(message, places, chunks) && Fragments(chunks, ArrivalsIn(steps, id))
    requires forall i :: 0 <= i < |chunks| ==> Arrived(ArrivalsIn(steps, id), i)
    ensures var s' := Run(Apply(s, Create(clientID, id)), steps);
            && Apply(s', Assemble(id)).assembled == s'.assembled + [id]
            && Delivered(s'.table[id]).messages == MessagesIn(steps, id) + [Message(id, clientID, message)]
  {
    var s1 := Apply(s, Create(clientID, id));
    var d0 := Data(id, clientID, [], map[], 0, s.now);
    assert s1.table[id] == d0 && id in s1.used;
    SessionAfter(s1, steps, id);
    CompletesWith(d0, MessagesIn(steps, id), ArrivalsIn(steps, id), message, places, chunks);
  }

  lemma CompletesWith(d0: Data, messages: seq<Message>, arrivals: seq<Arrival>,
                      message: Bytes, places: seq<int>, chunks: seq<Bytes>)
    requires d0.frames == map[] && d0.messages == []
    requires |chunks| >= 1 && IsCut(message, places, chunks) && Fragments(chunks, arrivals)
    requires forall i :: 0 <= i < |chunks| ==> Arrived(arrivals, i)
    ensures var d := Receive(d0, arrivals).(messages := d0.messages + messages);
            && Assembled(d).Some?
            && Delivered(d).messages == messages + [Message(d0.id, d0.clientID, message)]
  {
    AssembledMessage(d0.(messages := messages), message, places, chunks, arrivals);
    ReceiveBeside(d0, messages, arrivals);
    assert d0.messages + messages == messages;
    Reassembly(d0, chunks, arrivals);
  }

  // ---------------------------------------------------------------- a clean-up removes what was there

  lemma {:induction false} SnapshotStays(s: State, steps: seq<Step>, n: nat)
    requires IsRun(s, steps) && n < |s.cleanups|
    ensures n < |Run(s, steps).cleanups| && Run(s, steps).cleanups[n].snapshot == s.cleanups[n].snapshot
    decreases |steps|
  {
    if steps != [] {
      SnapshotStays(Apply(s, steps[0]), steps[1..], n);
    }
  }

  /** Once a clean-up is over, none of the sessions that its client had when it began is there. */
  lemma CleanedUpExactly(max: nat, timeout: nat, now: int, before: seq<Step>, s: State, clientID: string, after: seq<Step>)
    requires IsRun(Start(max, timeout, now), before) && s == Run(Start(max, timeout, now), before)
    requires IsRun(Apply(s, CleanStart(clientID)), after)
    ensures var s' := Run(Apply(s, CleanStart(clientID)), after);
            && |s.cleanups| < |s'.cleanups|
            && (s'.cleanups[|s.cleanups|].left == {} ==>
                  forall id :: id in s.table && s.table[id].clientID == clientID ==> id !in s'.table)
  {
    RunReaches(max, timeout, now, before);
    var s1 := Apply(s, CleanStart(clientID));
    StepKeeps(s, CleanStart(clientID));
    TableExactly(s, CleanStart(clientID));
    SnapshotStays(s1, after, |s.cleanups|);
    RunKeeps(s1, after);
    assert CleanupOk(Run(s1, after), Run(s1, after).cleanups[|s.cleanups|]);
  }
}
