/** The server's side of one connection (server.go): the first-message gate, the classification
    of inbound lines, and the responses that handlers owe. */
module Dispatch {
  import opened Option
  import opened Wire
  import opened Messages

  /** A goroutine that runs a method's handler. */
  datatype Task = Task(id: Json, name: string, params: Option<Json>)

  /** How a request ends. NoMethod is found at once; the others are a handler's ways to end. */
  datatype Outcome = NoMethod | Failed(text: string) | NotMarshalled(text: string) | Returned(result: Json)

  function Reply(t: Task, o: Outcome): Response {
    match o
    case NoMethod => Response(t.id, None, Some(Error(METHOD_NOT_FOUND, "Method not found: " + t.name)))
    case Failed(text) => Response(t.id, None, Some(Error(INTERNAL_ERROR, text)))
    case NotMarshalled(text) =>
      Response(t.id, None, Some(Error(INTERNAL_ERROR, "marshal result failed: " + text)))
    case Returned(result) => Response(t.id, Some(result), None)
  }

  const PARSE_FAILURE := Response(JNull, None, Some(Error(PARSE_ERROR, "Parse error")))

  function AuthFailure(reason: string): Response {
    Response(JNull, None, Some(Error(AUTH_FAILED, reason)))
  }

  /** What becomes of one line. */
  datatype Effect =
    | Ignored                        // dropped without reaching a handler function
    | AuthRejected(reason: string)
    | AuthAccepted
    | ParseFailed                    // handleRequest could not decode the line
    | Unserved(task: Task)           // handleRequest found no such method
    | Spawned(task: Task)
    | Notified(n: Option<Notification>)
    | Answered(r: Option<Response>)
    | Panicked                       // handleResponse could not look its id up
    | Unread                         // sent, but not read any more

  /** The server's surroundings: the authenticator may answer its n-th question as it likes,
      and methods may be registered at any time, so both depend on the line's number. */
  datatype Env = Env(
    gated: bool,
    auth: (nat, string) -> Option<string>,
    methods: nat -> set<string>,
    parse: string -> Line)

  function DispatchMessage(env: Env, pending: bool, n: nat, raw: string): Effect {
    if pending then
      if !env.gated then Ignored
      else match env.auth(n, raw) case Some(reason) => AuthRejected(reason) case None => AuthAccepted
    else DispatchLine(env.methods(n), env.parse(raw))
  }

  function DispatchLine(methods: set<string>, line: Line): Effect {
    match ServerKind(line)
    case KResponse => HandleResponse(line)
    case KNotification => Notified(DecodeNotification(line))
    case KRequest => HandleRequest(methods, line)
    case _ => Ignored
  }

  function HandleRequest(methods: set<string>, line: Line): Effect {
    match DecodeRequest(line)
    case None => ParseFailed
    case Some(r) =>
      var task := Task(r.id, r.name, r.params);
      if r.name in methods then Spawned(task) else Unserved(task)
  }

  function HandleResponse(line: Line): Effect {
    match DecodeResponse(line)
    case None => Answered(None)
    case Some(r) => if Comparable(r.id) then Answered(Some(r)) else Panicked
  }

  predicate Handling(e: Effect) {
    e.ParseFailed? || e.Unserved? || e.Spawned? || e.Notified? || e.Answered? || e.Panicked?
  }

  // ---------------------------------------------------------------- the connection as a system

  /** One line of the peer's: the frame it stood in, its text, and what became of it. */
  datatype Entry = Entry(frame: nat, raw: string, effect: Effect)

  datatype Server = Server(
    pending: bool,
    frames: nat,               // how many frames the peer has sent
    rest: seq<string>,         // lines of the last one that readPump has still in hand
    closed: bool,              // the connection was closed
    ended: bool,               // a read has failed: no further frame is read
    exited: bool,              // readPump has returned
    queueClosed: bool,         // its exit has closed the send queue
    crashed: bool,             // a run-time panic has ended the program
    log: seq<Entry>,
    tasks: seq<Task>,          // handlers still running
    offered: seq<Response>)    // responses handed to sendToClient

  /** The peer sends a frame, which readPump reads unless a read has failed; readPump dispatches the
      next line it has in hand; the connection is closed by someone else; a read fails, as it may
      at once after a close or only when the frames that have come in before are used up; readPump
      exits, whose removeClient closes the send queue if it finds the client listed; a handler
      ends. */
  datatype Step =
    | Frame(raw: string)
    | Line
    | Hangup
    | ReadFails
    | Exit(listed: bool)
    | Finish(k: nat, outcome: Outcome)

  predicate Enabled(s: Server, step: Step) {
    !s.crashed &&
    match step
    case Frame(_) => s.rest == []
    case Line => s.rest != []
    case Hangup => true
    case ReadFails => s.closed && s.rest == []
    case Exit(_) => s.ended && !s.exited
    case Finish(k, outcome) => k < |s.tasks| && !outcome.NoMethod?
  }

  /** The responses that the effect offers at once. */
  function Immediate(e: Effect): seq<Response> {
    match e
    case AuthRejected(reason) => [AuthFailure(reason)]
    case ParseFailed => [PARSE_FAILURE]
    case Unserved(task) => [Reply(task, NoMethod)]
    case _ => []
  }

  function Missed(frame: nat, lines: seq<string>): (r: seq<Entry>)
    ensures |r| == |lines|
    ensures forall k :: 0 <= k < |lines| ==> r[k] == Entry(frame, lines[k], Unread)
  {
    seq(|lines|, k requires 0 <= k < |lines| => Entry(frame, lines[k], Unread))
  }

  function Arrive(s: Server, raw: string): Server {
    if s.ended then s.(frames := s.frames + 1, log := s.log + Missed(s.frames + 1, Lines(raw)))
    else s.(frames := s.frames + 1, rest := Lines(raw))
  }

  /** A line that is turned down by the authenticator closes the connection, but the rest of its
      frame is in readPump's hands already. */
  function Dispatched(s: Server, e: Effect): Server
    requires s.rest != []
  {
    s.(pending := s.pending && !e.AuthAccepted?,
       rest := s.rest[1..],
       closed := s.closed || e.AuthRejected?,
       crashed := e.Panicked?,
       log := s.log + [Entry(s.frames, s.rest[0], e)],
       tasks := if e.Spawned? then s.tasks + [e.task] else s.tasks,
       offered := s.offered + Immediate(e))
  }

  function NextEffect(env: Env, s: Server): Effect
    requires s.rest != []
  {
    DispatchMessage(env, s.pending, |s.log|, s.rest[0])
  }

  function Apply(env: Env, s: Server, step: Step): Server
    requires Enabled(s, step)
  {
    match step
    case Frame(raw) => Arrive(s, raw)
    case Line => Dispatched(s, NextEffect(env, s))
    case Hangup => s.(closed := true)
    case ReadFails => s.(ended := true)
    case Exit(listed) => s.(exited := true, queueClosed := listed)
    case Finish(k, outcome) => End(s, k, outcome)
  }

  /** The end of a handler's goroutine: it offers its response, and sending on a closed queue panics. */
  function End(s: Server, k: nat, outcome: Outcome): Server
    requires k < |s.tasks|
  {
    if s.queueClosed then s.(crashed := true)
    else
      s.(tasks := s.tasks[..k] + s.tasks[k + 1..], offered := s.offered + [Reply(s.tasks[k], outcome)])
  }

  predicate IsRun(env: Env, s: Server, steps: seq<Step>)
    decreases |steps|
  {
    steps == [] || (Enabled(s, steps[0]) && IsRun(env, Apply(env, s, steps[0]), steps[1..]))
  }

  function Run(env: Env, s: Server, steps: seq<Step>): Server
    requires IsRun(env, s, steps)
    decreases |steps|
  {
    if steps == [] then s else Run(env, Apply(env, s, steps[0]), steps[1..])
  }

  function Fresh(pending: bool): Server {
    Server(pending, 0, [], false, false, false, false, false, [], [], [])
  }

  lemma {:induction false} RunSnoc(env: Env, s: Server, steps: seq<Step>, step: Step)
    requires IsRun(env, s, steps) && Enabled(Run(env, s, steps), step)
    ensures IsRun(env, s, steps + [step]) && Run(env, s, steps + [step]) == Apply(env, Run(env, s, steps), step)
    decreases |steps|
  {
    if steps == [] {
      assert steps + [step] == [step] && [step][1..] == [];
    } else {
      assert (steps + [step])[0] == steps[0] && (steps + [step])[1..] == steps[1..] + [step];
      RunSnoc(env, Apply(env, s, steps[0]), steps[1..], step);
    }
  }

  // ---------------------------------------------------------------- the history of a connection

  /** Whether the gate was still shut when the k-th line came. */
  ghost predicate PendingAt(initially: bool, log: seq<Entry>, k: nat)
    requires k <= |log|
  {
    initially && forall j :: 0 <= j < k ==> !log[j].effect.AuthAccepted?
  }

  /** Each line got what dispatchMessage does with it at its place in the history, or was never
      read; and a panic is the last thing that happens to a line. */
  ghost predicate History(env: Env, initially: bool, s: Server) {
    && (s.pending <==> PendingAt(initially, s.log, |s.log|))
    && (forall k :: 0 <= k < |s.log| ==> EntryOk(env, initially, s.log, k))
    && (forall k :: 0 <= k < |s.log| && s.log[k].effect.Panicked? ==> s.crashed)
    && (s.crashed ==> s.queueClosed || (s.log != [] && s.log[|s.log| - 1].effect.Panicked?))
  }

  ghost predicate EntryOk(env: Env, initially: bool, log: seq<Entry>, k: nat)
    requires k < |log|
  {
    log[k].effect.Unread? || log[k].effect == DispatchMessage(env, PendingAt(initially, log, k), k, log[k].raw)
  }

  /** A rejection closes the connection; it is only after a failed read, which needs a closed
      connection, that lines go unread, and then all do; and the queue is closed by the exit. */
  ghost predicate ReadOk(s: Server) {
    && (forall i :: 0 <= i < |s.log| && s.log[i].effect.AuthRejected? ==> s.closed)
    && (forall i :: 0 <= i < |s.log| && s.log[i].effect.Unread? ==> s.ended)
    && (forall i, k :: 0 <= i < k < |s.log| && s.log[i].effect.Unread? ==> s.log[k].effect.Unread?)
    && (s.ended ==> s.closed && s.rest == [])
    && (s.exited ==> s.ended)
    && (s.queueClosed ==> s.exited)
  }

  lemma EntriesPersist(env: Env, initially: bool, log: seq<Entry>, log': seq<Entry>)
    requires log <= log'
    ensures forall k :: 0 <= k <= |log| ==> PendingAt(initially, log', k) == PendingAt(initially, log, k)
    ensures forall k :: 0 <= k < |log| ==> EntryOk(env, initially, log', k) == EntryOk(env, initially, log, k)
  {
  }

  /** Every step keeps the history a faithful record. */
  lemma HistoryStep(env: Env, initially: bool, s: Server, step: Step)
    requires History(env, initially, s) && Enabled(s, step)
    ensures History(env, initially, Apply(env, s, step))
    ensures s.log <= Apply(env, s, step).log
    ensures Apply(env, s, step).pending ==> s.pending
  {
    var s' := Apply(env, s, step);
    EntriesPersist(env, initially, s.log, s'.log);
    match step {
      case Frame(raw) =>
        assert forall k :: |s.log| <= k < |s'.log| ==> s'.log[k].effect.Unread?;
        assert PendingAt(initially, s'.log, |s'.log|) == PendingAt(initially, s.log, |s.log|);
      case Line =>
        assert s'.log[|s.log|].effect == NextEffect(env, s);
        assert PendingAt(initially, s'.log, |s'.log|) ==
               (PendingAt(initially, s.log, |s.log|) && !s'.log[|s.log|].effect.AuthAccepted?);
      case _ =>
    }
  }

  lemma ReadStep(env: Env, s: Server, step: Step)
    requires ReadOk(s) && Enabled(s, step)
    ensures ReadOk(Apply(env, s, step))
    ensures s.closed ==> Apply(env, s, step).closed
    ensures s.ended ==> Apply(env, s, step).ended && Apply(env, s, step).pending == s.pending
    ensures s.queueClosed ==> Apply(env, s, step).queueClosed && Apply(env, s, step).offered == s.offered
  {
  }

  lemma {:induction false} HistoryRun(env: Env, initially: bool, s: Server, steps: seq<Step>)
    requires History(env, initially, s) && ReadOk(s) && IsRun(env, s, steps)
    ensures History(env, initially, Run(env, s, steps)) && ReadOk(Run(env, s, steps))
    ensures Run(env, s, steps).pending ==> s.pending
    decreases |steps|
  {
    if steps != [] {
      HistoryStep(env, initially, s, steps[0]);
      ReadStep(env, s, steps[0]);
      HistoryRun(env, initially, Apply(env, s, steps[0]), steps[1..]);
    }
  }

  // ---------------------------------------------------------------- what becomes of each line

  /** Past the gate, the n-th line: a request runs a handler exactly if its method is registered then. */
  ghost predicate ServedExactly(env: Env, n: nat, raw: string, e: Effect) {
    var line := env.parse(raw);
    && (ServerKind(line) == KRequest && DecodeRequest(line).Some? ==>
          var r := DecodeRequest(line).value;
          && (e == Spawned(Task(r.id, r.name, r.params)) <==> r.name in env.methods(n))
          && (e == Unserved(Task(r.id, r.name, r.params)) <==> r.name !in env.methods(n)))
    && (ServerKind(line) == KRequest && DecodeRequest(line).None? <==> e == ParseFailed)
    && (ServerKind(line) == KNotification <==> e.Notified?)
    && (e.Notified? ==> e.n == DecodeNotification(line))
    && (ServerKind(line) == KResponse <==> e.Answered? || e.Panicked?)
    && (e.Answered? ==> e.r == DecodeResponse(line))
  }

  /** At the gate: the authenticator decides, if there is one. */
  predicate JudgedExactly(env: Env, n: nat, raw: string, e: Effect) {
    && (!env.gated <==> e == Ignored)
    && (env.gated && env.auth(n, raw).None? <==> e == AuthAccepted)
    && (env.gated && env.auth(n, raw).Some? ==> e == AuthRejected(env.auth(n, raw).value))
  }

  /** The answer that goes out at once, in JSON-RPC's own codes. */
  predicate AnsweredAtOnce(e: Effect, offered: seq<Response>) {
    && (e.AuthRejected? ==> Response(JNull, None, Some(Error(-32001, e.reason))) in offered)
    && (e.ParseFailed? ==> Response(JNull, None, Some(Error(-32700, "Parse error"))) in offered)
    && (e.Unserved? ==> Response(e.task.id, None, Some(Error(-32601, "Method not found: " + e.task.name))) in offered)
  }

  /** Over every run: what became of each line that was read, and the answers given at once. */
  lemma EachLineExactly(env: Env, initially: bool, steps: seq<Step>, s: Server, k: nat)
    requires IsRun(env, Fresh(initially), steps) && s == Run(env, Fresh(initially), steps)
    requires k < |s.log| && !s.log[k].effect.Unread?
    ensures PendingAt(initially, s.log, k) ==> JudgedExactly(env, k, s.log[k].raw, s.log[k].effect)
    ensures !PendingAt(initially, s.log, k) ==> ServedExactly(env, k, s.log[k].raw, s.log[k].effect)
    ensures AnsweredAtOnce(s.log[k].effect, s.offered)
  {
    HistoryRun(env, initially, Fresh(initially), steps);
    assert EntryOk(env, initially, s.log, k);
    OfferedRun(env, Fresh(initially), steps);
  }

  ghost predicate AllAnswered(s: Server) {
    forall k :: 0 <= k < |s.log| ==> AnsweredAtOnce(s.log[k].effect, s.offered)
  }

  lemma {:induction false} OfferedRun(env: Env, s: Server, steps: seq<Step>)
    requires IsRun(env, s, steps) && AllAnswered(s)
    ensures AllAnswered(Run(env, s, steps))
    decreases |steps|
  {
    if steps != [] {
      OfferedStep(env, s, steps[0]);
      OfferedRun(env, Apply(env, s, steps[0]), steps[1..]);
    }
  }

  lemma OfferedStep(env: Env, s: Server, step: Step)
    requires Enabled(s, step) && AllAnswered(s)
    ensures AllAnswered(Apply(env, s, step))
  {
    var s' := Apply(env, s, step);
    assert forall r :: r in s.offered ==> r in s'.offered;
    if step.Line? {
      AtOnce(NextEffect(env, s), s.offered);
    }
  }

  lemma AtOnce(e: Effect, offered: seq<Response>)
    ensures AnsweredAtOnce(e, offered + Immediate(e))
  {
  }

  /** What is read and what is not: after a failed read every line of a frame goes unread, and before it the
      frame's lines are in hand; lines are dispatched in their order. */
  lemma ReadingExactly(env: Env, s: Server, step: Step)
    requires Enabled(s, step)
    ensures step.Frame? ==>
              var s', lines := Apply(env, s, step), Lines(step.raw);
              && (!s.ended ==> s'.rest == lines && s'.log == s.log)
              && (s.ended ==> s'.rest == [] && |s'.log| == |s.log| + |lines|
                              && forall k :: 0 <= k < |lines| ==> s'.log[|s.log| + k] == Entry(s.frames + 1, lines[k], Unread))
    ensures step.Line? ==>
              var s' := Apply(env, s, step);
              && s'.log == s.log + [Entry(s.frames, s.rest[0], NextEffect(env, s))] && s'.rest == s.rest[1..]
              && (NextEffect(env, s).AuthRejected? ==> s'.closed) && (NextEffect(env, s).AuthAccepted? ==> !s'.pending)
    ensures step.Hangup? ==> Apply(env, s, step).closed && Apply(env, s, step).ended == s.ended
    ensures step.ReadFails? ==> Apply(env, s, step).ended && (!s.exited ==> Enabled(Apply(env, s, step), Exit(true)))
    ensures step.Exit? ==> Apply(env, s, step).exited && Apply(env, s, step).queueClosed == step.listed
  {
  }

  /** A handler starts as the line says, beside those that run; and its end, while the queue is open,
      takes it away and offers what it came to under its request's id: the value it returned, or the
      error it ended in. */
  lemma HandlersExactly(env: Env, s: Server, step: Step)
    requires Enabled(s, step)
    ensures step.Line? ==>
              var e, s' := NextEffect(env, s), Apply(env, s, step);
              s'.tasks == (if e.Spawned? then s.tasks + [e.task] else s.tasks) && s'.rest == s.rest[1..]
    ensures step.Finish? && !s.queueClosed ==>
              var t, s' := s.tasks[step.k], Apply(env, s, step);
              && s'.tasks == s.tasks[..step.k] + s.tasks[step.k + 1..] && !s'.crashed
              && match step.outcome
                 case Returned(v) => s'.offered == s.offered + [Response(t.id, Some(v), None)]
                 case Failed(text) => s'.offered == s.offered + [Response(t.id, None, Some(Error(-32603, text)))]
                 case NotMarshalled(text) =>
                   s'.offered == s.offered + [Response(t.id, None, Some(Error(-32603, "marshal result failed: " + text)))]
                 case NoMethod => false
    ensures !step.Line? && !step.Finish? ==> Apply(env, s, step).tasks == s.tasks && Apply(env, s, step).offered == s.offered
  {
  }

  // ---------------------------------------------------------------- the gate

  /** The first-message gate: on a pending connection, whatever arrives and however the
      authenticator answers, a line reaches request, notification or response handling only
      after a strictly earlier line was accepted; exactly one line is accepted; and a
      connection that has left the pending state stays out of it. */
  lemma FirstMessageGate(env: Env, steps: seq<Step>, more: seq<Step>)
    requires IsRun(env, Fresh(true), steps) && IsRun(env, Run(env, Fresh(true), steps), more)
    ensures var log := Run(env, Fresh(true), steps).log;
            && (forall k :: 0 <= k < |log| && Handling(log[k].effect) ==>
                  exists j :: 0 <= j < k && log[j].effect.AuthAccepted?)
            && (forall i, j :: 0 <= i < j < |log| && log[i].effect.AuthAccepted? ==> !log[j].effect.AuthAccepted?)
    ensures var s := Run(env, Fresh(true), steps);
            !s.pending ==> !Run(env, s, more).pending
  {
    HistoryRun(env, true, Fresh(true), steps);
    var s := Run(env, Fresh(true), steps);
    HistoryRun(env, true, s, more);
    GateMeans(env, s);
  }

  lemma GateMeans(env: Env, s: Server)
    requires History(env, true, s)
    ensures forall k :: 0 <= k < |s.log| && Handling(s.log[k].effect) ==>
              exists j :: 0 <= j < k && s.log[j].effect.AuthAccepted?
    ensures forall i, j :: 0 <= i < j < |s.log| && s.log[i].effect.AuthAccepted? ==> !s.log[j].effect.AuthAccepted?
  {
    forall k | 0 <= k < |s.log|
      ensures Handling(s.log[k].effect) ==> !PendingAt(true, s.log, k)
      ensures s.log[k].effect.AuthAccepted? ==> PendingAt(true, s.log, k)
    {
      assert EntryOk(env, true, s.log, k);
    }
  }

  /** Of the lines from i on, the k-th is the first to which the authenticator says yes. */
  ghost predicate FirstYes(env: Env, log: seq<Entry>, i: nat, k: nat)
    requires i < k < |log|
  {
    env.auth(k, log[k].raw).None? && forall m :: i < m < k ==> env.auth(m, log[m].raw).Some?
  }

  /** A connection that was turned down is not lost, although it has been closed: a later line is
      accepted exactly if it is read at all and is the first of those behind the rejected one to
      which the authenticator says yes. */
  lemma AcceptedAfterRejection(env: Env, steps: seq<Step>, s: Server, i: nat, k: nat)
    requires IsRun(env, Fresh(true), steps) && s == Run(env, Fresh(true), steps)
    requires i < k < |s.log| && s.log[i].effect.AuthRejected?
    ensures s.closed
    ensures s.log[k].effect.AuthAccepted? <==> !s.log[k].effect.Unread? && FirstYes(env, s.log, i, k)
  {
    HistoryRun(env, true, Fresh(true), steps);
    var log := s.log;
    assert EntryOk(env, true, log, i) && EntryOk(env, true, log, k);
    assert PendingAt(true, log, i) && env.gated;
    if !log[k].effect.Unread? {
      forall m | i < m <= k
        ensures Judged(env, log, m)
      {
        assert EntryOk(env, true, log, m) && !log[m].effect.Unread?;
      }
      FirstYesIsAccepted(env, log, i, k);
    }
  }

  /** The line was read, and judged if the gate was still shut. */
  ghost predicate Judged(env: Env, log: seq<Entry>, m: nat)
    requires m < |log|
  {
    log[m].effect.AuthAccepted? <==> PendingAt(true, log, m) && env.auth(m, log[m].raw).None?
  }

  lemma FirstYesIsAccepted(env: Env, log: seq<Entry>, i: nat, k: nat)
    requires i < k < |log| && PendingAt(true, log, i) && !log[i].effect.AuthAccepted?
    requires forall m :: i < m <= k ==> Judged(env, log, m)
    ensures log[k].effect.AuthAccepted? <==> FirstYes(env, log, i, k)
  {
    if log[k].effect.AuthAccepted? {
      assert Judged(env, log, k);
      forall m | i < m < k
        ensures env.auth(m, log[m].raw).Some?
      {
        assert Judged(env, log, m) && PendingAt(true, log, m);
      }
    } else if FirstYes(env, log, i, k) {
      assert forall m :: i < m < k ==> Judged(env, log, m) && !log[m].effect.AuthAccepted?;
      assert Judged(env, log, k) && PendingAt(true, log, k);
    }
  }

  /** So a rejection is final once a read fails with no yes since, which the close is there to bring
      about: from then on, whatever the peer sends, nothing of it is handled. */
  lemma RejectionIsFinal(env: Env, steps: seq<Step>, more: seq<Step>, i: nat)
    requires IsRun(env, Fresh(true), steps) && IsRun(env, Run(env, Fresh(true), steps), more)
    requires var s := Run(env, Fresh(true), steps);
             && i < |s.log| && s.log[i].effect.AuthRejected? && s.ended
             && forall k :: i < k < |s.log| && !s.log[k].effect.Unread? ==> env.auth(k, s.log[k].raw).Some?
    ensures var s' := Run(env, Run(env, Fresh(true), steps), more);
            s'.pending && forall k :: 0 <= k < |s'.log| ==> !Handling(s'.log[k].effect)
  {
    HistoryRun(env, true, Fresh(true), steps);
    var s := Run(env, Fresh(true), steps);
    forall k | i < k < |s.log|
      ensures !s.log[k].effect.AuthAccepted?
    {
      AcceptedAfterRejection(env, steps, s, i, k);
    }
    StillPending(env, s, i);
    EndedHandlesNothing(env, s, more);
  }

  lemma StillPending(env: Env, s: Server, i: nat)
    requires History(env, true, s) && i < |s.log| && s.log[i].effect.AuthRejected?
    requires forall k :: i < k < |s.log| ==> !s.log[k].effect.AuthAccepted?
    ensures s.pending
  {
    assert EntryOk(env, true, s.log, i) && PendingAt(true, s.log, i);
  }

  lemma EndedHandlesNothing(env: Env, s: Server, more: seq<Step>)
    requires History(env, true, s) && ReadOk(s) && s.pending && s.ended && IsRun(env, s, more)
    ensures var s' := Run(env, s, more);
            s'.pending && forall k :: 0 <= k < |s'.log| ==> !Handling(s'.log[k].effect)
  {
    StaysEnded(env, s, more);
    HistoryRun(env, true, s, more);
    PendingHandlesNothing(env, Run(env, s, more));
  }

  lemma PendingHandlesNothing(env: Env, s: Server)
    requires History(env, true, s) && s.pending
    ensures forall k :: 0 <= k < |s.log| ==> !Handling(s.log[k].effect)
  {
    forall k | 0 <= k < |s.log|
      ensures !Handling(s.log[k].effect)
    {
      assert EntryOk(env, true, s.log, k);
    }
  }

  lemma {:induction false} StaysEnded(env: Env, s: Server, steps: seq<Step>)
    requires IsRun(env, s, steps) && ReadOk(s) && s.ended
    ensures var s' := Run(env, s, steps); s'.ended && s'.pending == s.pending
    decreases |steps|
  {
    if steps != [] {
      ReadStep(env, s, steps[0]);
      StaysEnded(env, Apply(env, s, steps[0]), steps[1..]);
    }
  }

  /** Concrete connections of that kind: the first line is turned down, the second is let in, and
      the third is served, be they in one frame or in three that have come in before the close. */
  lemma RejectedYetServed(together: bool) returns (env: Env, steps: seq<Step>)
    ensures IsRun(env, Fresh(true), steps)
    ensures var s := Run(env, Fresh(true), steps);
            && |s.log| == 3 && s.frames == (if together then 1 else 3)
            && s.log[0] == Entry(1, "a", AuthRejected("no")) && s.log[1].raw == "b" && s.log[1].effect == AuthAccepted
            && s.log[2].raw == "c" && s.log[2].effect == Spawned(Task(JStr("x"), "m", None))
    ensures env.gated && env.auth(0, "a") == Some("no") && env.auth(1, "b") == None && env.methods(2) == {"m"}
    ensures env.parse("c") == Parsed(JObj(map["jsonrpc" := JStr("2.0"), "id" := JStr("x"), "method" := JStr("m")]))
  {
    var request := Request(JStr("x"), "m", None);
    env := Env(true, (n: nat, raw: string) => if n == 0 then Some("no") else None, (n: nat) => {"m"},
               (raw: string) => Parsed(EncodeRequest(request)));
    RequestRoundTrip(request);
    assert EncodeRequest(request) == JObj(map["jsonrpc" := JStr("2.0"), "id" := JStr("x"), "method" := JStr("m")]);
    var task := Task(JStr("x"), "m", None);
    assert DispatchLine({"m"}, Parsed(EncodeRequest(request))) == Spawned(task);
    if together {
      steps := OneFrame(env, task);
    } else {
      steps := ThreeFrames(env, task);
    }
  }

  /** The authenticator turns "a" down and lets "b" in, and "c" is a request with a handler. */
  ghost predicate Lenient(env: Env, task: Task) {
    && DispatchMessage(env, true, 0, "a") == AuthRejected("no")
    && DispatchMessage(env, true, 1, "b") == AuthAccepted
    && DispatchMessage(env, false, 2, "c") == Spawned(task)
  }

  /** What has become of the first two lines, of one frame or of two. */
  function LetIn(frames: nat, second: nat, rest: seq<string>): Server {
    Fresh(true).(pending := false, frames := frames, rest := rest, closed := true, offered := [AuthFailure("no")],
                 log := [Entry(1, "a", AuthRejected("no")), Entry(second, "b", AuthAccepted)])
  }

  lemma OneFrame(env: Env, task: Task) returns (steps: seq<Step>)
    requires Lenient(env, task)
    ensures IsRun(env, Fresh(true), steps)
    ensures Run(env, Fresh(true), steps) == Dispatched(LetIn(1, 1, ["c"]), Spawned(task))
  {
    steps := NextFrame(env, Fresh(true), [], ["a", "b", "c"]);
    steps := NextLine(env, Fresh(true), steps, AuthRejected("no"));
    steps := NextLine(env, Fresh(true), steps, AuthAccepted);
    assert Run(env, Fresh(true), steps) == LetIn(1, 1, ["c"]);
    steps := NextLine(env, Fresh(true), steps, Spawned(task));
  }

  lemma TwoFrames(env: Env, task: Task) returns (steps: seq<Step>)
    requires Lenient(env, task)
    ensures IsRun(env, Fresh(true), steps)
    ensures Run(env, Fresh(true), steps) == LetIn(2, 2, [])
  {
    steps := NextFrame(env, Fresh(true), [], ["a"]);
    steps := NextLine(env, Fresh(true), steps, AuthRejected("no"));
    steps := NextFrame(env, Fresh(true), steps, ["b"]);
    steps := NextLine(env, Fresh(true), steps, AuthAccepted);
  }

  lemma ThreeFrames(env: Env, task: Task) returns (steps: seq<Step>)
    requires Lenient(env, task)
    ensures IsRun(env, Fresh(true), steps)
    ensures Run(env, Fresh(true), steps) == Dispatched(LetIn(3, 2, ["c"]), Spawned(task))
  {
    steps := TwoFrames(env, task);
    steps := NextFrame(env, Fresh(true), steps, ["c"]);
    steps := NextLine(env, Fresh(true), steps, Spawned(task));
  }

  lemma Snoc(env: Env, s: Server, steps: seq<Step>, step: Step) returns (longer: seq<Step>)
    requires IsRun(env, s, steps) && Enabled(Run(env, s, steps), step)
    ensures longer == steps + [step]
    ensures IsRun(env, s, longer) && Run(env, s, longer) == Apply(env, Run(env, s, steps), step)
  {
    RunSnoc(env, s, steps, step);
    longer := steps + [step];
  }

  lemma NextFrame(env: Env, s: Server, steps: seq<Step>, lines: seq<string>) returns (longer: seq<Step>)
    requires IsRun(env, s, steps) && lines != [] && forall l :: l in lines ==> Clean(l)
    requires var s' := Run(env, s, steps); !s'.crashed && !s'.ended && s'.rest == []
    ensures longer == steps + [Frame(Batch(lines))] && IsRun(env, s, longer)
    ensures var s' := Run(env, s, steps);
            Run(env, s, longer) == s'.(frames := s'.frames + 1, rest := lines)
  {
    BatchRoundTrip(lines);
    longer := Snoc(env, s, steps, Frame(Batch(lines)));
  }

  lemma NextLine(env: Env, s: Server, steps: seq<Step>, e: Effect) returns (longer: seq<Step>)
    requires IsRun(env, s, steps)
    requires Enabled(Run(env, s, steps), Line) && NextEffect(env, Run(env, s, steps)) == e
    ensures longer == steps + [Line] && IsRun(env, s, longer)
    ensures Run(env, s, longer) == Dispatched(Run(env, s, steps), e)
  {
    longer := Snoc(env, s, steps, Line);
  }

  // ---------------------------------------------------------------- the panic

  /** The line is taken for a response and carries an id that cannot be looked up. */
  predicate Fatal(env: Env, raw: string) {
    var line := env.parse(raw);
    && ServerKind(line) == KResponse
    && DecodeResponse(line).Some? && !Comparable(DecodeResponse(line).value.id)
  }

  /** Exactly when a step ends the program. */
  lemma PanicStep(env: Env, s: Server, step: Step)
    requires Enabled(s, step)
    ensures Apply(env, s, step).crashed <==>
            (step.Line? && !s.pending && Fatal(env, s.rest[0])) || (step.Finish? && s.queueClosed)
  {
  }

  /** Over every run: the lines that end the program are exactly those that are read past the gate,
      taken for responses, and carry an array or an object as their id. */
  lemma PanicExactly(env: Env, initially: bool, steps: seq<Step>, log: seq<Entry>, k: nat)
    requires IsRun(env, Fresh(initially), steps) && log == Run(env, Fresh(initially), steps).log && k < |log|
    ensures log[k].effect.Panicked? <==>
            !log[k].effect.Unread? && !PendingAt(initially, log, k) && Fatal(env, log[k].raw)
    ensures log[k].effect.Panicked? ==> Run(env, Fresh(initially), steps).crashed
  {
    HistoryRun(env, initially, Fresh(initially), steps);
    assert EntryOk(env, initially, log, k);
  }

  /** Over every run: a handler's end panics exactly if the exit of readPump has closed the queue
      before. */
  lemma LateHandlerPanics(env: Env, initially: bool, steps: seq<Step>, k: nat, outcome: Outcome)
    requires IsRun(env, Fresh(initially), steps)
    requires Enabled(Run(env, Fresh(initially), steps), Finish(k, outcome))
    ensures Apply(env, Run(env, Fresh(initially), steps), Finish(k, outcome)).crashed <==> Exit(true) in steps
  {
    ClosedByExit(env, Fresh(initially), steps);
  }

  lemma {:induction false} ClosedByExit(env: Env, s: Server, steps: seq<Step>)
    requires IsRun(env, s, steps) && (s.queueClosed ==> s.exited)
    ensures Run(env, s, steps).queueClosed <==> s.queueClosed || Exit(true) in steps
    decreases |steps|
  {
    if steps != [] {
      ClosedByExit(env, Apply(env, s, steps[0]), steps[1..]);
    }
  }

  /** And nothing else ends the program: a run has crashed exactly if a line of it was fatal or a
      handler ended after the queue was closed. */
  lemma CrashedExactly(env: Env, initially: bool, steps: seq<Step>)
    requires IsRun(env, Fresh(initially), steps)
    ensures var s := Run(env, Fresh(initially), steps);
            s.crashed <==> LinePanicked(s.log)
                           || exists i, j :: 0 <= i < j < |steps| && steps[i] == Exit(true) && steps[j].Finish?
  {
    CrashRun(env, Fresh(initially), steps);
    LateEndMeans(false, steps);
  }

  ghost predicate LinePanicked(log: seq<Entry>) {
    exists k :: 0 <= k < |log| && log[k].effect.Panicked?
  }

  /** A handler ends after the queue was closed. */
  predicate LateEnd(closed: bool, steps: seq<Step>)
    decreases |steps|
  {
    steps != [] && ((closed && steps[0].Finish?) || LateEnd(closed || steps[0] == Exit(true), steps[1..]))
  }

  lemma {:induction false} LateEndMeans(closed: bool, steps: seq<Step>)
    ensures LateEnd(closed, steps) <==>
            || (closed && exists j :: 0 <= j < |steps| && steps[j].Finish?)
            || exists i, j :: 0 <= i < j < |steps| && steps[i] == Exit(true) && steps[j].Finish?
    decreases |steps|
  {
    if steps != [] {
      var rest := steps[1..];
      LateEndMeans(closed || steps[0] == Exit(true), rest);
      assert forall j :: 0 < j < |steps| ==> steps[j] == rest[j - 1];
      assert forall j :: 0 <= j < |rest| ==> rest[j] == steps[j + 1];
    }
  }

  lemma {:induction false} CrashRun(env: Env, s: Server, steps: seq<Step>)
    requires IsRun(env, s, steps) && (s.queueClosed ==> s.exited)
    ensures s.log <= Run(env, s, steps).log
    ensures !s.crashed && !LinePanicked(s.log) ==>
              (Run(env, s, steps).crashed <==> LinePanicked(Run(env, s, steps).log) || LateEnd(s.queueClosed, steps))
    decreases |steps|
  {
    if steps != [] {
      var s' := Apply(env, s, steps[0]);
      CrashRun(env, s', steps[1..]);
      CrashStep(env, s, steps[0]);
    }
  }

  lemma CrashStep(env: Env, s: Server, step: Step)
    requires Enabled(s, step) && (s.queueClosed ==> s.exited)
    ensures var s' := Apply(env, s, step);
            && s.log <= s'.log && (s'.queueClosed ==> s'.exited)
            && (s'.queueClosed <==> s.queueClosed || step == Exit(true))
            && (!LinePanicked(s.log) ==>
                  (s'.crashed <==> LinePanicked(s'.log) || (s.queueClosed && step.Finish?)))
  {
    var s' := Apply(env, s, step);
    if step.Line? {
      assert s'.log[|s.log|].effect == NextEffect(env, s);
    }
  }

  // ---------------------------------------------------------------- one response each

  /** How many of the responses carry the id x. */
  function Offers(rs: seq<Response>, x: Json): nat {
    if rs == [] then 0 else Offers(rs[..|rs| - 1], x) + (if rs[|rs| - 1].id == x then 1 else 0)
  }

  /** How many running handlers will answer with the id x. */
  function Running(ts: seq<Task>, x: Json): nat {
    if ts == [] then 0 else (if ts[0].id == x then 1 else 0) + Running(ts[1..], x)
  }

  /** The id under which a line is owed a response, read off the line alone: a request's own,
      null for one that does not decode, and null for a first message that is turned down.
      Notifications and responses are owed none. */
  function Debt(env: Env, pending: bool, n: nat, raw: string): Option<Json> {
    if pending then
      if env.gated && env.auth(n, raw).Some? then Some(JNull) else None
    else if ServerKind(env.parse(raw)) == KRequest then
      match DecodeRequest(env.parse(raw)) case Some(r) => Some(r.id) case None => Some(JNull)
    else None
  }

  /** How many of the lines that a run dispatches are owed a response under the id x. */
  function Owed(env: Env, s: Server, steps: seq<Step>, x: Json): nat
    requires IsRun(env, s, steps)
    decreases |steps|
  {
    if steps == [] then 0 else DebtOf(env, s, steps[0], x) + Owed(env, Apply(env, s, steps[0]), steps[1..], x)
  }

  function DebtOf(env: Env, s: Server, step: Step, x: Json): nat
    requires Enabled(s, step)
  {
    if step.Line? && Debt(env, s.pending, |s.log|, s.rest[0]) == Some(x) then 1 else 0
  }

  lemma {:induction false} RunningAppend(a: seq<Task>, b: seq<Task>, x: Json)
    ensures Running(a + b, x) == Running(a, x) + Running(b, x)
  {
    if a == [] {
      assert a + b == b;
    } else {
      assert (a + b)[0] == a[0] && (a + b)[1..] == a[1..] + b;
      RunningAppend(a[1..], b, x);
    }
  }

  lemma RunningPick(ts: seq<Task>, k: nat, x: Json)
    requires k < |ts|
    ensures Running(ts, x) == Running(ts[..k] + ts[k + 1..], x) + (if ts[k].id == x then 1 else 0)
  {
    assert ts == ts[..k] + ts[k..] && ts[k..][1..] == ts[k + 1..];
    RunningAppend(ts[..k], ts[k..], x);
    RunningAppend(ts[..k], ts[k + 1..], x);
  }

  lemma RunningSnoc(ts: seq<Task>, t: Task, x: Json)
    ensures Running(ts + [t], x) == Running(ts, x) + (if t.id == x then 1 else 0)
  {
    RunningAppend(ts, [t], x);
    assert [t][1..] == [];
  }

  lemma OffersSnoc(rs: seq<Response>, r: Response, x: Json)
    ensures Offers(rs + [r], x) == Offers(rs, x) + (if r.id == x then 1 else 0)
  {
    assert (rs + [r])[..|rs|] == rs;
  }

  function Balance(s: Server, x: Json): nat {
    Offers(s.offered, x) + Running(s.tasks, x)
  }

  /** A line's debt is either settled at once or becomes a running handler. */
  lemma DebtSplits(env: Env, pending: bool, n: nat, raw: string)
    ensures var e := DispatchMessage(env, pending, n, raw);
            && |Immediate(e)| <= 1 && (e.Spawned? ==> Immediate(e) == [])
            && Debt(env, pending, n, raw) ==
               (if Immediate(e) != [] then Some(Immediate(e)[0].id) else if e.Spawned? then Some(e.task.id) else None)
  {
  }

  /** Dispatching with any effect that splits a debt in that way. */
  lemma BalanceEffect(s: Server, e: Effect, debt: Option<Json>, x: Json)
    requires s.rest != [] && |Immediate(e)| <= 1 && (e.Spawned? ==> Immediate(e) == [])
    requires debt == if Immediate(e) != [] then Some(Immediate(e)[0].id)
                     else if e.Spawned? then Some(e.task.id) else None
    ensures Balance(Dispatched(s, e), x) == Balance(s, x) + if debt == Some(x) then 1 else 0
  {
    var now := Immediate(e);
    if now != [] {
      assert now == [now[0]];
      OffersSnoc(s.offered, now[0], x);
    } else {
      assert s.offered + now == s.offered;
      if e.Spawned? {
        RunningSnoc(s.tasks, e.task, x);
      }
    }
  }

  lemma BalanceLine(env: Env, s: Server, x: Json)
    requires Enabled(s, Line)
    ensures Balance(Apply(env, s, Line), x) ==
            Balance(s, x) + if Debt(env, s.pending, |s.log|, s.rest[0]) == Some(x) then 1 else 0
  {
    DebtSplits(env, s.pending, |s.log|, s.rest[0]);
    BalanceEffect(s, NextEffect(env, s), Debt(env, s.pending, |s.log|, s.rest[0]), x);
  }

  lemma BalanceStep(env: Env, s: Server, step: Step, x: Json)
    requires Enabled(s, step)
    ensures Balance(Apply(env, s, step), x) == Balance(s, x) + DebtOf(env, s, step, x)
  {
    match step
    case Line => BalanceLine(env, s, x);
    case Finish(k, outcome) =>
      RunningPick(s.tasks, k, x);
      OffersSnoc(s.offered, Reply(s.tasks[k], outcome), x);
    case _ =>
  }

  lemma {:induction false} BalanceRun(env: Env, s: Server, steps: seq<Step>, x: Json)
    requires IsRun(env, s, steps)
    ensures Balance(Run(env, s, steps), x) == Balance(s, x) + Owed(env, s, steps, x)
    decreases |steps|
  {
    if steps != [] {
      BalanceStep(env, s, steps[0], x);
      BalanceRun(env, Apply(env, s, steps[0]), steps[1..], x);
    }
  }

  /** Exactly one response each. At every point of every run the responses offered under an id and
      the handlers running for it make up the lines owed one. So once every handler has ended,
      in whatever order they did, there are as many responses as lines owed one; and the
      handlers still running can all end exactly if the program has not crashed and the exit of
      readPump has not closed the queue. */
  lemma OneResponseEach(env: Env, pending: bool, steps: seq<Step>, x: Json)
    requires IsRun(env, Fresh(pending), steps)
    ensures var s := Run(env, Fresh(pending), steps);
            && Offers(s.offered, x) + Running(s.tasks, x) == Owed(env, Fresh(pending), steps, x)
            && (s.tasks == [] ==> Offers(s.offered, x) == Owed(env, Fresh(pending), steps, x))
            && ((exists ends :: Settles(env, s, ends)) <==> (!s.crashed && Exit(true) !in steps) || s.tasks == [])
  {
    BalanceRun(env, Fresh(pending), steps, x);
    ClosedByExit(env, Fresh(pending), steps);
    var s := Run(env, Fresh(pending), steps);
    if !s.crashed && !s.queueClosed {
      var ends := FinishAll(env, s);
      assert Settles(env, s, ends);
    } else if s.tasks == [] {
      assert Settles(env, s, []);
    } else {
      forall ends | Settles(env, s, ends)
        ensures false
      {
        NobodyEnds(env, s, ends);
      }
    }
  }

  lemma NobodyEnds(env: Env, s: Server, ends: seq<Step>)
    requires Settles(env, s, ends) && (s.crashed || s.queueClosed)
    ensures s.tasks == []
  {
    if s.crashed {
      CrashIsTheEnd(env, s, ends);
    } else if ends != [] {
      assert ends[0] in ends;
      CrashIsTheEnd(env, Apply(env, s, ends[0]), ends[1..]);
    }
  }

  lemma CrashIsTheEnd(env: Env, s: Server, steps: seq<Step>)
    requires s.crashed && IsRun(env, s, steps)
    ensures steps == [] && Run(env, s, steps) == s
  {
  }

  /** Once the queue is closed no response is offered any more, whatever happens. */
  lemma {:induction false} NothingOfferedAfterExit(env: Env, s: Server, more: seq<Step>)
    requires IsRun(env, s, more) && ReadOk(s) && s.queueClosed
    ensures Run(env, s, more).offered == s.offered
    decreases |more|
  {
    if more != [] {
      ReadStep(env, s, more[0]);
      NothingOfferedAfterExit(env, Apply(env, s, more[0]), more[1..]);
    }
  }

  /** Handlers' ends, and nothing else, after which none is running. */
  ghost predicate Settles(env: Env, s: Server, ends: seq<Step>) {
    (forall st :: st in ends ==> st.Finish?) && IsRun(env, s, ends) && Run(env, s, ends).tasks == []
  }

  lemma {:induction false} FinishAll(env: Env, s: Server) returns (ends: seq<Step>)
    requires !s.crashed && !s.queueClosed
    ensures Settles(env, s, ends)
    decreases |s.tasks|
  {
    if s.tasks == [] {
      ends := [];
    } else {
      var first := Finish(0, Returned(JNull));
      var rest := FinishAll(env, Apply(env, s, first));
      ends := [first] + rest;
      assert ends[1..] == rest;
    }
  }

  /** A request whose handler is running when a fatal line arrives is never answered: the panic that
      follows the lines {"id":"a","method":"m"} and {"id":[1],"result":1} is the end of the run. */
  lemma FatalLineLeavesADebt() returns (env: Env, steps: seq<Step>)
    ensures IsRun(env, Fresh(false), steps)
    ensures forall raw :: raw != "r" ==> env.parse(raw) == Parsed(JObj(map["id" := JStr("a"), "method" := JStr("m")]))
    ensures env.parse("r") == Parsed(JObj(map["id" := JArr([JInt(1)]), "result" := JInt(1)])) && env.methods(0) == {"m"}
    ensures var s := Run(env, Fresh(false), steps);
            && s.crashed && (forall step :: !Enabled(s, step))
            && Owed(env, Fresh(false), steps, JStr("a")) == 1 && Offers(s.offered, JStr("a")) == 0
  {
    var request, response := Parsed(JObj(map["id" := JStr("a"), "method" := JStr("m")])),
                             Parsed(JObj(map["id" := JArr([JInt(1)]), "result" := JInt(1)]));
    env := Env(false, (n: nat, raw: string) => None, (n: nat) => {"m"},
               (raw: string) => if raw == "r" then response else request);
    var task := Task(JStr("a"), "m", None);
    assert DispatchLine({"m"}, request) == Spawned(task);
    assert DispatchLine({"m"}, response) == Panicked;
    steps := ServedThenPanicked(env, task);
  }

  lemma OneDebt(env: Env, steps: seq<Step>, task: Task)
    requires IsRun(env, Fresh(false), steps)
    requires Run(env, Fresh(false), steps).tasks == [task] && Run(env, Fresh(false), steps).offered == []
    ensures Owed(env, Fresh(false), steps, task.id) == 1
    ensures Offers(Run(env, Fresh(false), steps).offered, task.id) == 0
  {
    BalanceRun(env, Fresh(false), steps, task.id);
    RunningSnoc([], task, task.id);
    assert [] + [task] == [task];
  }

  /** What has become of the line "q", with these left of its frame. */
  function Serving(task: Task, rest: seq<string>): Server {
    Fresh(false).(frames := 1, rest := rest, log := [Entry(1, "q", Spawned(task))], tasks := [task])
  }

  lemma ServeFirst(env: Env, task: Task, lines: seq<string>) returns (steps: seq<Step>)
    requires DispatchMessage(env, false, 0, "q") == Spawned(task)
    requires lines != [] && lines[0] == "q" && forall l :: l in lines ==> Clean(l)
    ensures steps == [] + [Frame(Batch(lines))] + [Line] && IsRun(env, Fresh(false), steps)
    ensures Run(env, Fresh(false), steps) == Serving(task, lines[1..])
  {
    steps := NextFrame(env, Fresh(false), [], lines);
    steps := NextLine(env, Fresh(false), steps, Spawned(task));
  }

  lemma ServedThenPanicked(env: Env, task: Task) returns (steps: seq<Step>)
    requires DispatchMessage(env, false, 0, "q") == Spawned(task) && DispatchMessage(env, false, 1, "r") == Panicked
    ensures IsRun(env, Fresh(false), steps)
    ensures var s := Run(env, Fresh(false), steps);
            && s.crashed
            && Owed(env, Fresh(false), steps, task.id) == 1 && Offers(s.offered, task.id) == 0
  {
    steps := ServeFirst(env, task, ["q", "r"]);
    steps := NextLine(env, Fresh(false), steps, Panicked);
    OneDebt(env, steps, task);
  }

  /** So does a client that goes away while its request is served: a request, the end of the
      connection, readPump's exit, the handler's end. */
  lemma ClientLeavesHandlerRunning() returns (env: Env, steps: seq<Step>)
    ensures IsRun(env, Fresh(false), steps)
    ensures env.parse("q") == Parsed(JObj(map["id" := JStr("a"), "method" := JStr("m")])) && env.methods(0) == {"m"}
    ensures steps == [Frame("q"), Line, Hangup, ReadFails, Exit(true), Finish(0, Returned(JInt(1)))]
    ensures var s := Run(env, Fresh(false), steps);
            && s.crashed && !LinePanicked(s.log)
            && Owed(env, Fresh(false), steps, JStr("a")) == 1 && Offers(s.offered, JStr("a")) == 0
  {
    var request := Parsed(JObj(map["id" := JStr("a"), "method" := JStr("m")]));
    env := Env(false, (n: nat, raw: string) => None, (n: nat) => {"m"}, (raw: string) => request);
    var task := Task(JStr("a"), "m", None);
    assert DispatchLine({"m"}, request) == Spawned(task);
    steps := ServedThenLeft(env, task);
  }

  lemma ServedThenLeft(env: Env, task: Task) returns (steps: seq<Step>)
    requires DispatchMessage(env, false, 0, "q") == Spawned(task)
    ensures steps == [Frame("q"), Line, Hangup, ReadFails, Exit(true), Finish(0, Returned(JInt(1)))]
    ensures IsRun(env, Fresh(false), steps)
    ensures var s := Run(env, Fresh(false), steps);
            && s.crashed && !LinePanicked(s.log)
            && Owed(env, Fresh(false), steps, task.id) == 1 && Offers(s.offered, task.id) == 0
  {
    steps := ServeFirst(env, task, ["q"]);
    assert Batch(["q"]) == "q";
    steps := LeaveThenEnd(env, steps, Returned(JInt(1)));
    OneDebt(env, steps, task);
  }

  lemma LeaveThenEnd(env: Env, steps: seq<Step>, outcome: Outcome) returns (longer: seq<Step>)
    requires IsRun(env, Fresh(false), steps) && !outcome.NoMethod?
    requires var s := Run(env, Fresh(false), steps); !s.crashed && s.rest == [] && !s.exited && |s.tasks| > 0
    ensures longer == steps + [Hangup] + [ReadFails] + [Exit(true)] + [Finish(0, outcome)]
    ensures IsRun(env, Fresh(false), longer)
    ensures var s := Run(env, Fresh(false), steps);
            Run(env, Fresh(false), longer) == s.(closed := true, ended := true, exited := true, queueClosed := true, crashed := true)
  {
    longer := Snoc(env, Fresh(false), steps, Hangup);
    longer := Snoc(env, Fresh(false), longer, ReadFails);
    longer := Snoc(env, Fresh(false), longer, Exit(true));
    longer := Snoc(env, Fresh(false), longer, Finish(0, outcome));
  }

  // ---------------------------------------------------------------- the code

  /** The fields of the connection that readPump and the handler goroutines change. The ghost
      fields are what readPump has in hand and what has happened. */
  class Conn {
    const env: Env
    var pendingAuth: bool
    var closed: bool
    var ended: bool
    var exited: bool
    var sendClosed: bool
    var crashed: bool
    var tasks: seq<Task>
    var offered: seq<Response>
    var count: nat
    ghost var frames: nat
    ghost var rest: seq<string>
    ghost var log: seq<Entry>

    /** As long as there is anything to read, the lines are counted. */
    ghost predicate Valid()
      reads this
    {
      (count == |log| || ended) && (ended ==> rest == [])
    }

    ghost function View(): Server
      reads this
    {
      Server(pendingAuth, frames, rest, closed, ended, exited, sendClosed, crashed, log, tasks, offered)
    }

    constructor (env: Env, pending: bool)
      ensures this.env == env && Valid() && View() == Fresh(pending)
    {
      this.env := env;
      pendingAuth, closed, ended, exited, sendClosed, crashed := pending, false, false, false, false, false;
      tasks, offered := [], [];
      count, frames, rest, log := 0, 0, [], [];
    }

    /** dispatchMessage for the next line. */
    method Receive(raw: string)
      requires Valid() && Enabled(View(), Line) && raw == rest[0]
      modifies this
      ensures Valid() && View() == Apply(env, old(View()), Line)
    {
      var n := count;
      count := count + 1;
      log, rest := log + [Entry(frames, raw, NextEffect(env, View()))], rest[1..];
      if pendingAuth {
        ReceiveFirst(n, raw);
      } else {
        ReceiveLine(n, env.parse(raw));
      }
    }

    /** The gate. */
    method ReceiveFirst(n: nat, raw: string)
      requires pendingAuth
      modifies this`pendingAuth, this`closed, this`offered
      ensures var e := DispatchMessage(env, true, n, raw);
              && pendingAuth == !e.AuthAccepted? && closed == (old(closed) || e.AuthRejected?)
              && offered == old(offered) + Immediate(e)
    {
      if env.gated {
        match env.auth(n, raw)
        case Some(reason) =>
          offered := offered + [AuthFailure(reason)];
          closed := true;
        case None => pendingAuth := false;
      }
    }

    /** The classification of a line past the gate. */
    method ReceiveLine(n: nat, line: Line)
      requires !crashed
      modifies this`tasks, this`offered, this`crashed
      ensures var e := DispatchLine(env.methods(n), line);
              && offered == old(offered) + Immediate(e) && crashed == e.Panicked?
              && tasks == if e.Spawned? then old(tasks) + [e.task] else old(tasks)
    {
      if ServerKind(line) == KRequest {
        ReceiveRequest(n, line);
      } else if ServerKind(line) == KResponse {
        var r := DecodeResponse(line);
        crashed := r.Some? && !Comparable(r.value.id);
      }
    }

    /** handleRequest */
    method ReceiveRequest(n: nat, line: Line)
      modifies this`tasks, this`offered
      ensures var e := HandleRequest(env.methods(n), line);
              && offered == old(offered) + Immediate(e)
              && tasks == if e.Spawned? then old(tasks) + [e.task] else old(tasks)
    {
      match DecodeRequest(line)
      case None => offered := offered + [PARSE_FAILURE];
      case Some(r) =>
        var task := Task(r.id, r.name, r.params);
        if r.name in env.methods(n) {
          tasks := tasks + [task];
        } else {
          offered := offered + [Reply(task, NoMethod)];
        }
    }

    /** The end of a handler's goroutine. */
    method Complete(k: nat, outcome: Outcome)
      requires Valid() && Enabled(View(), Finish(k, outcome))
      modifies this
      ensures Valid() && View() == Apply(env, old(View()), Finish(k, outcome))
    {
      if sendClosed {
        crashed := true;
        return;
      }
      offered := offered + [Reply(tasks[k], outcome)];
      tasks := tasks[..k] + tasks[k + 1..];
    }

    /** ReadMessage returns an error, and readPump leaves its loop. */
    method ReadError()
      requires Valid() && Enabled(View(), ReadFails)
      modifies this
      ensures Valid() && View() == Apply(env, old(View()), ReadFails)
    {
      ended := true;
    }

    /** readPump's deferred call of removeClient, which closes the queue if it finds the client. */
    method ExitReadPump(listed: bool)
      requires Valid() && Enabled(View(), Exit(listed))
      modifies this
      ensures Valid() && View() == Apply(env, old(View()), Exit(listed))
    {
      exited := true;
      sendClosed := listed;
    }

    /** One round of readPump: the frame is read unless a read has failed before, and dispatched line
        by line, to its end or to the line that ends the program. */
    method ReadFrame(frame: string) returns (read: bool, ghost steps: seq<Step>)
      requires Valid() && Enabled(View(), Frame(frame))
      modifies this
      ensures Valid() && (read <==> !old(ended))
      ensures IsRun(env, old(View()), steps) && View() == Run(env, old(View()), steps)
      ensures steps != [] && steps == FrameSteps(frame, |steps| - 1) && (crashed || rest == [])
    {
      read := !ended;
      ghost var before := View();
      RunSnoc(env, before, [], Frame(frame));
      steps := FrameSteps(frame, 0);
      assert steps == [] + [Frame(frame)];
      frames := frames + 1;
      if ended {
        log := log + Missed(frames, Lines(frame));
        return;
      }
      var lines := SplitFrame(frame);
      rest := lines;
      steps := ReadLines(lines, before, frame);
    }

    /** The loop over the frame's lines. */
    method ReadLines(lines: seq<string>, ghost before: Server, frame: string) returns (ghost steps: seq<Step>)
      requires Valid() && rest == lines && !crashed
      requires IsRun(env, before, FrameSteps(frame, 0)) && View() == Run(env, before, FrameSteps(frame, 0))
      modifies this
      ensures Valid() && (crashed || rest == [])
      ensures IsRun(env, before, steps) && View() == Run(env, before, steps)
      ensures steps != [] && steps == FrameSteps(frame, |steps| - 1)
    {
      var k := 0;
      steps := FrameSteps(frame, 0);
      while k < |lines| && !crashed
        invariant 0 <= k <= |lines| && rest == lines[k..] && Valid()
        invariant IsRun(env, before, steps) && View() == Run(env, before, steps)
        invariant steps == FrameSteps(frame, k)
      {
        OneMore(env, before, frame, k);
        steps := FrameSteps(frame, k + 1);
        Receive(lines[k]);
        k := k + 1;
      }
    }
  }

  function FrameSteps(frame: string, n: nat): seq<Step> {
    [Frame(frame)] + seq(n, _ => Line)
  }

  lemma OneMore(env: Env, s: Server, frame: string, n: nat)
    requires IsRun(env, s, FrameSteps(frame, n)) && Enabled(Run(env, s, FrameSteps(frame, n)), Line)
    ensures IsRun(env, s, FrameSteps(frame, n + 1))
    ensures Run(env, s, FrameSteps(frame, n + 1)) == Apply(env, Run(env, s, FrameSteps(frame, n)), Line)
  {
    RunSnoc(env, s, FrameSteps(frame, n), Line);
    assert FrameSteps(frame, n) + [Line] == FrameSteps(frame, n + 1);
  }
}
