/** The token manager (tokenmanager.go): refresh on a ticker, and when GetToken can fail. */
module Token {
  import opened Option

  datatype Token = Token(value: string, expiresAt: int)

  datatype Error = ErrTokenExpired | ErrNoRefreshFunc | RefreshError

  /** What the refresh function came back with. */
  datatype Outcome = Issued(value: string, lifetime: int) | NotIssued

  /** The 30-second context of a refresh that the loop starts. */
  const LIMIT := 30

  predicate IsExpired(t: Token, now: int) {
    now > t.expiresAt
  }

  /** GetToken fails. */
  predicate Fails(t: Option<Token>, now: int) {
    t.None? || IsExpired(t.value, now)
  }

  function Refreshed(t: Option<Token>, o: Outcome, now: int): Option<Token> {
    match o
    case Issued(value, lifetime) => Some(Token(value, now + lifetime))
    case NotIssued => t
  }

  class Manager {
    var token: Option<Token>
    const hasRefresh: bool
    var stopped: bool
    ghost var stopChCloses: nat

    ghost predicate Valid()
      reads this
    {
      stopChCloses == if stopped then 1 else 0
    }

    constructor (token: Option<Token>, hasRefresh: bool)
      ensures Valid() && this.token == token && this.hasRefresh == hasRefresh && !stopped
    {
      this.token, this.hasRefresh, stopped, stopChCloses := token, hasRefresh, false, 0;
    }

    method GetToken(now: int) returns (r: Option<string>)
      ensures r.None? <==> Fails(token, now)
      ensures r.Some? ==> r.value == token.value.value
    {
      if token.None? || IsExpired(token.value, now) {
        return None;
      }
      return Some(token.value.value);
    }

    /** Refresh, which got this outcome and stores it at this time. */
    method Refresh(o: Outcome, now: int) returns (err: Option<Error>)
      modifies this`token
      ensures err == if !hasRefresh then Some(ErrNoRefreshFunc) else if o.NotIssued? then Some(RefreshError) else None
      ensures token == if hasRefresh then Refreshed(old(token), o, now) else old(token)
      ensures err.None? ==> token == Some(Token(o.value, now + o.lifetime))
      ensures err.Some? ==> token == old(token)
    {
      if !hasRefresh {
        return Some(ErrNoRefreshFunc);
      }
      match o
      case NotIssued => return Some(RefreshError);
      case Issued(value, lifetime) =>
        token := Some(Token(value, now + lifetime));
        return None;
    }

    /** Start up to the launch of refreshLoop. */
    method Start(o: Outcome, now: int) returns (err: Option<Error>)
      modifies this`token
      ensures err.None? <==> !Fails(old(token), now) || (hasRefresh && o.Issued?)
      ensures token == if Fails(old(token), now) && hasRefresh then Refreshed(old(token), o, now) else old(token)
    {
      var t := GetToken(now);
      if t.None? {
        err := Refresh(o, now);
      } else {
        err := None;
      }
    }

    /** Stop may be called any number of times; stopCh is closed once. */
    method Stop()
      requires Valid()
      modifies this`stopped, this`stopChCloses
      ensures Valid() && stopped
    {
      if !stopped {
        stopChCloses := stopChCloses + 1;
        stopped := true;
      }
    }
  }

  // ---------------------------------------------------------------- timed runs

  /** Where refreshLoop stands: in its select, in a refresh, or returned. */
  datatype Phase = Idle | Refreshing(since: int) | Gone

  /** The manager and its refreshLoop at a point in time. The ticker keeps one tick for a busy
      loop and drops the rest. */
  datatype State = State(
    interval: int,
    token: Option<Token>,
    now: int,
    started: bool,
    stopped: bool,
    cancelled: bool,       // the context that Start was given has ended
    nextTick: int,
    tick: bool,
    phase: Phase)

  datatype Step =
    | Begin(o: Outcome)
    | Advance(d: nat)
    | Tick
    | StartRefresh
    | EndRefresh(o: Outcome)
    | Manual(o: Outcome)
    | Halt
    | Cancel
    | Exit

  /** The loop is at work. */
  predicate Running(s: State) {
    s.started && !s.phase.Gone?
  }

  /** The select has a reason to return. It may still prefer a tick that is there as well. */
  predicate Ending(s: State) {
    s.stopped || s.cancelled
  }

  /** Time passes neither a tick that is due, nor a loop in its select that can go on, nor the
      limit of a refresh. */
  predicate Enabled(s: State, step: Step) {
    match step
    case Begin(o) => !s.started && (Fails(s.token, s.now) ==> o.Issued?)
    case Advance(d) =>
      Running(s) ==>
        && s.now + d <= s.nextTick
        && (s.phase.Idle? && (s.tick || Ending(s)) ==> d == 0)
        && (s.phase.Refreshing? ==> s.now + d <= s.phase.since + LIMIT)
    case Tick => Running(s) && s.now == s.nextTick
    case StartRefresh => Running(s) && s.phase.Idle? && s.tick
    case EndRefresh(_) => s.phase.Refreshing?
    case Manual(_) => true
    case Halt => true
    case Cancel => true
    case Exit => Running(s) && s.phase.Idle? && Ending(s)
  }

  function Apply(s: State, step: Step): State
    requires Enabled(s, step)
  {
    match step
    case Begin(o) =>
      s.(token := if Fails(s.token, s.now) then Refreshed(s.token, o, s.now) else s.token,
         started := true, nextTick := s.now + s.interval)
    case Advance(d) => s.(now := s.now + d)
    case Tick => s.(tick := true, nextTick := s.nextTick + s.interval)
    case StartRefresh => s.(tick := false, phase := Refreshing(s.now))
    case EndRefresh(o) => s.(token := Refreshed(s.token, o, s.now), phase := Idle)
    case Manual(o) => s.(token := Refreshed(s.token, o, s.now))
    case Halt => s.(stopped := true)
    case Cancel => s.(cancelled := true)
    case Exit => s.(phase := Gone)
  }

  predicate IsRun(s: State, steps: seq<Step>)
    decreases |steps|
  {
    steps == [] || (Enabled(s, steps[0]) && IsRun(Apply(s, steps[0]), steps[1..]))
  }

  function Run(s: State, steps: seq<Step>): State
    requires IsRun(s, steps)
    decreases |steps|
  {
    if steps == [] then s else Run(Apply(s, steps[0]), steps[1..])
  }

  function New(interval: int, token: Option<Token>, now: int): State {
    State(interval, token, now, false, false, false, now, false, Idle)
  }

  function OutcomeOf(step: Step): Option<Outcome> {
    match step
    case Begin(o) => Some(o)
    case EndRefresh(o) => Some(o)
    case Manual(o) => Some(o)
    case _ => None
  }

  /** Every refresh succeeds, with a lifetime of at least this. */
  ghost predicate Lasting(steps: seq<Step>, lifetime: int) {
    forall st :: st in steps && OutcomeOf(st).Some? ==> OutcomeOf(st).value.Issued? && OutcomeOf(st).value.lifetime >= lifetime
  }

  /** Every refresh that succeeds has exactly this lifetime. */
  ghost predicate Constant(steps: seq<Step>, lifetime: int) {
    forall st :: st in steps && OutcomeOf(st).Some? && OutcomeOf(st).value.Issued? ==> OutcomeOf(st).value.lifetime == lifetime
  }

  /** While the loop runs, the token outlives the end of the next refresh, whenever that comes. */
  ghost predicate Covered(s: State) {
    && s.started && s.interval > 0
    && (Running(s) ==>
          && s.token.Some?
          && s.now <= s.nextTick <= s.now + s.interval
          && match s.phase
             case Refreshing(since) => since <= s.now <= since + LIMIT <= s.token.value.expiresAt
             case Gone => true
             case Idle => (if s.tick then s.now else s.nextTick) + LIMIT <= s.token.value.expiresAt)
  }

  lemma StepCovers(s: State, step: Step)
    requires Covered(s) && Enabled(s, step) && Lasting([step], s.interval + LIMIT)
    ensures Covered(Apply(s, step)) && Apply(s, step).interval == s.interval
  {
    assert step in [step];
  }

  lemma {:induction false} RunCovers(s: State, steps: seq<Step>)
    requires Covered(s) && IsRun(s, steps) && Lasting(steps, s.interval + LIMIT)
    ensures Covered(Run(s, steps))
    decreases |steps|
  {
    if steps != [] {
      assert Lasting([steps[0]], s.interval + LIMIT);
      StepCovers(s, steps[0]);
      RunCovers(Apply(s, steps[0]), steps[1..]);
    }
  }

  /** When Start is called: no token that still holds, or one that lasts past the first tick. */
  predicate GoodInitial(interval: int, token: Option<Token>, now: int) {
    Fails(token, now) || now + interval + LIMIT <= token.value.expiresAt
  }

  /** No gap: when every refresh succeeds within its 30 seconds with a lifetime of at least the
      interval and 30 seconds more, GetToken works from Start on for as long as the loop is at
      work, manual refreshes or not. The loop returns only once Stop was called or the context
      that Start was given has ended. */
  lemma NoGap(interval: int, token: Option<Token>, now: int, o: Outcome, steps: seq<Step>)
    requires interval > 0 && GoodInitial(interval, token, now)
    requires IsRun(New(interval, token, now), [Begin(o)] + steps)
    requires Lasting([Begin(o)] + steps, interval + 30)
    ensures var s := Run(New(interval, token, now), [Begin(o)] + steps);
            && (Running(s) ==> !Fails(s.token, s.now))
            && (!Ending(s) ==> Running(s))
  {
    var all := [Begin(o)] + steps;
    assert all[0] == Begin(o) && all[1..] == steps && Begin(o) in all;
    var s0 := Apply(New(interval, token, now), Begin(o));
    assert Covered(s0);
    assert Lasting(steps, interval + LIMIT) by {
      assert forall st :: st in steps ==> st in all;
    }
    RunCovers(s0, steps);
    OnlyEndingEnds(s0, steps);
  }

  lemma {:induction false} OnlyEndingEnds(s: State, steps: seq<Step>)
    requires IsRun(s, steps) && s.started && (s.phase.Gone? ==> Ending(s))
    ensures var s' := Run(s, steps); s'.started && (s'.phase.Gone? ==> Ending(s'))
    decreases |steps|
  {
    if steps != [] {
      OnlyEndingEnds(Apply(s, steps[0]), steps[1..]);
    }
  }

  lemma {:induction false} RunAppend(s: State, a: seq<Step>, b: seq<Step>)
    requires IsRun(s, a) && IsRun(Run(s, a), b)
    ensures IsRun(s, a + b) && Run(s, a + b) == Run(Run(s, a), b)
    decreases |a|
  {
    if a == [] {
      assert a + b == b;
    } else {
      assert (a + b)[0] == a[0] && (a + b)[1..] == a[1..] + b;
      RunAppend(Apply(s, a[0]), a[1..], b);
    }
  }

  lemma Snoc(s: State, steps: seq<Step>, step: Step) returns (longer: seq<Step>)
    requires IsRun(s, steps) && Enabled(Run(s, steps), step)
    ensures longer == steps + [step] && IsRun(s, longer) && Run(s, longer) == Apply(Run(s, steps), step)
  {
    longer := steps + [step];
    assert [step][1..] == [];
    RunAppend(s, steps, [step]);
  }

  /** Time can pass during a refresh up to its limit, ticks and all. */
  lemma {:induction false} Wait(s: State, until: int) returns (steps: seq<Step>)
    requires Running(s) && s.phase.Refreshing? && s.interval > 0
    requires s.now <= until <= s.phase.since + LIMIT && s.now <= s.nextTick
    ensures IsRun(s, steps) && forall st :: st in steps ==> OutcomeOf(st).None?
    ensures var s' := Run(s, steps); s'.now == until && Running(s') && Ending(s') == Ending(s) && s'.token == s.token
    decreases until - s.now, if s.now == s.nextTick then 1 else 0
  {
    if until <= s.nextTick {
      steps := Snoc(s, [], Advance(until - s.now));
    } else {
      steps := Snoc(s, [], Advance(s.nextTick - s.now));
      steps := Snoc(s, steps, Tick);
      var rest := Wait(Run(s, steps), until);
      RunAppend(s, steps, rest);
      steps := steps + rest;
    }
  }

  /** A refresh that takes its 30 seconds ends an interval and 30 seconds after the loop began: a
      token that does not last that long leaves a gap. */
  lemma FirstRefreshIsSlow(s: State) returns (steps: seq<Step>)
    requires Running(s) && !Ending(s) && s.phase == Idle && !s.tick && s.interval > 0 && s.nextTick == s.now + s.interval
    requires s.token.Some? && s.token.value.expiresAt < s.now + s.interval + LIMIT
    ensures IsRun(s, steps) && forall st :: st in steps ==> OutcomeOf(st).None?
    ensures var s' := Run(s, steps); Running(s') && !Ending(s') && Fails(s'.token, s'.now)
  {
    steps := Snoc(s, [], Advance(s.interval));
    steps := Snoc(s, steps, Tick);
    steps := Snoc(s, steps, StartRefresh);
    var rest := Wait(Run(s, steps), s.now + s.interval + LIMIT);
    RunAppend(s, steps, rest);
    steps := steps + rest;
  }

  /** The bounds are sharp: with a lifetime one second shorter, or an initial token that ends
      before the first refresh may, there is a run in which GetToken fails while the loop is at
      work and nothing has told it to end, although every refresh succeeds within its limit. */
  lemma GapBelow(interval: int, token: Option<Token>, now: int, lifetime: int) returns (o: Outcome, steps: seq<Step>)
    requires interval > 0 && (lifetime < interval + LIMIT || !GoodInitial(interval, token, now))
    ensures IsRun(New(interval, token, now), [Begin(o)] + steps)
    ensures Lasting([Begin(o)] + steps, lifetime) && Constant([Begin(o)] + steps, lifetime)
    ensures var s := Run(New(interval, token, now), [Begin(o)] + steps);
            Running(s) && !Ending(s) && Fails(s.token, s.now)
  {
    var s0 := New(interval, token, now);
    o := Issued("t", lifetime);
    var start := Snoc(s0, [], Begin(o));
    if lifetime < interval + LIMIT {
      start := Snoc(s0, start, Manual(o));
    }
    var slow := FirstRefreshIsSlow(Run(s0, start));
    RunAppend(s0, start, slow);
    steps := start[1..] + slow;
    assert [Begin(o)] + steps == start + slow;
    assert forall st :: st in start ==> OutcomeOf(st) == Some(o);
  }

  /** No run of a manager has a gap while its loop is at work exactly if the lifetime of its tokens
      is at least the interval and 30 seconds, and a token that it starts with and that still
      holds lasts as long. */
  lemma NoGapExactly(interval: int, token: Option<Token>, now: int, lifetime: int)
    requires interval > 0
    ensures lifetime >= interval + 30 && (Fails(token, now) || now + interval + 30 <= token.value.expiresAt) <==>
            forall o, steps :: NoGapIn(New(interval, token, now), lifetime, [Begin(o)] + steps)
  {
    if lifetime >= interval + LIMIT && GoodInitial(interval, token, now) {
      forall o, steps
        ensures NoGapIn(New(interval, token, now), lifetime, [Begin(o)] + steps)
      {
        var all := [Begin(o)] + steps;
        if IsRun(New(interval, token, now), all) && Lasting(all, lifetime) {
          assert Lasting(all, interval + LIMIT);
          NoGap(interval, token, now, o, steps);
        }
      }
    } else {
      var o, steps := GapBelow(interval, token, now, lifetime);
      assert !NoGapIn(New(interval, token, now), lifetime, [Begin(o)] + steps);
    }
  }

  /** The loop's end is a bound of its own: whatever the lifetime, once the context has ended the
      loop may return, and then GetToken fails in time although nobody has called Stop. */
  lemma CancelLeavesAGap(interval: int, now: int, lifetime: int) returns (steps: seq<Step>)
    requires interval > 0 && lifetime >= 0
    ensures IsRun(New(interval, None, now), steps) && Lasting(steps, lifetime) && Cancel in steps && Halt !in steps
    ensures var s := Run(New(interval, None, now), steps); s.started && !s.stopped && Fails(s.token, s.now)
  {
    var s0 := New(interval, None, now);
    steps := Snoc(s0, [], Begin(Issued("t", lifetime)));
    steps := Snoc(s0, steps, Cancel);
    steps := Snoc(s0, steps, Exit);
    steps := Snoc(s0, steps, Advance(lifetime + 1));
  }

  ghost predicate NoGapIn(s: State, lifetime: int, steps: seq<Step>) {
    IsRun(s, steps) && Lasting(steps, lifetime) && Running(Run(s, steps)) ==>
      !Fails(Run(s, steps).token, Run(s, steps).now)
  }

  // ---------------------------------------------------------------- the token in hand

  /** The step stores a token: a refresh that succeeded, or Start's when there was none to keep. */
  predicate Issues(s: State, step: Step) {
    OutcomeOf(step).Some? && OutcomeOf(step).value.Issued? && (step.Begin? ==> Fails(s.token, s.now))
  }

  lemma IssueStep(s: State, step: Step)
    requires Enabled(s, step)
    ensures Apply(s, step).token ==
            if Issues(s, step)
            then Some(Token(OutcomeOf(step).value.value, s.now + OutcomeOf(step).value.lifetime))
            else s.token
  {
  }

  /** The loop, step by step: a tick comes an interval after the one before, stays until the loop takes it and
      starts a refresh with it, and a refresh ends within 30 seconds back in the select. */
  lemma LoopExactly(s: State, step: Step)
    requires Enabled(s, step)
    ensures step.Begin? ==> Apply(s, step).started && Apply(s, step).nextTick == s.now + s.interval
    ensures step.Tick? ==> Apply(s, step).tick && Apply(s, step).nextTick == s.now + s.interval
    ensures step.StartRefresh? ==> s.tick && !Apply(s, step).tick && Apply(s, step).phase == Refreshing(s.now)
    ensures step.EndRefresh? ==> Apply(s, step).phase == Idle && Apply(s, step).tick == s.tick
    ensures step.Advance? ==> Apply(s, step) == s.(now := s.now + step.d)
    ensures step.Advance? && Running(s) && s.phase.Refreshing? ==> Apply(s, step).now <= s.phase.since + 30
    ensures step.Halt? ==> Apply(s, step) == s.(stopped := true)
    ensures step.Cancel? ==> Apply(s, step) == s.(cancelled := true)
    ensures step.Exit? ==> Apply(s, step) == s.(phase := Gone) && (s.stopped || s.cancelled)
  {
  }

  /** In every run the token in hand is the one issued last: its value and, counted from the moment it
      came, its lifetime; so GetToken returns that value until it expires. */
  lemma {:induction false} LastIssued(s: State, steps: seq<Step>)
    requires IsRun(s, steps) && s.started
    ensures Run(s, steps).started
    ensures (forall st :: st in steps ==> OutcomeOf(st).None? || OutcomeOf(st).value.NotIssued?) ==>
              Run(s, steps).token == s.token
    decreases |steps|
  {
    if steps != [] {
      assert steps[0] in steps;
      assert forall st :: st in steps[1..] ==> st in steps;
      LastIssued(Apply(s, steps[0]), steps[1..]);
    }
  }

  lemma TokenIsLastIssued(s: State, before: seq<Step>, step: Step, after: seq<Step>)
    requires IsRun(s, before) && Enabled(Run(s, before), step) && Issues(Run(s, before), step)
    requires IsRun(Apply(Run(s, before), step), after) && (step.Begin? || Run(s, before).started)
    requires forall st :: st in after ==> OutcomeOf(st).None? || OutcomeOf(st).value.NotIssued?
    ensures var issued := OutcomeOf(step).value;
            Run(Apply(Run(s, before), step), after).token == Some(Token(issued.value, Run(s, before).now + issued.lifetime))
  {
    IssueStep(Run(s, before), step);
    LastIssued(Apply(Run(s, before), step), after);
  }

  // ---------------------------------------------------------------- the expiry moves forward

  ghost predicate Within(s: State, lifetime: int) {
    s.token.Some? ==> s.token.value.expiresAt <= s.now + lifetime
  }

  /** With a constant lifetime a refresh at this moment brings the expiry forward or leaves it,
      unless the token in hand was issued to last longer than that. */
  lemma ExpiryStep(s: State, step: Step, lifetime: int)
    requires Enabled(s, step) && Constant([step], lifetime) && lifetime >= 0
    ensures Within(s, lifetime) ==>
              && Within(Apply(s, step), lifetime)
              && (s.token.Some? ==> Apply(s, step).token.Some?
                                    && s.token.value.expiresAt <= Apply(s, step).token.value.expiresAt)
    ensures s.token.Some? && (step.Manual? || step.EndRefresh?) && step.o.Issued? ==>
              (Apply(s, step).token.value.expiresAt < s.token.value.expiresAt <==> !Within(s, lifetime))
  {
    assert step in [step];
  }

  /** So over a whole run of constant lifetimes, manual refreshes included, it never goes back. */
  lemma {:induction false} ExpiryNeverDecreases(s: State, steps: seq<Step>, lifetime: int)
    requires IsRun(s, steps) && Constant(steps, lifetime) && lifetime >= 0 && Within(s, lifetime) && s.token.Some?
    ensures Run(s, steps).token.Some? && s.token.value.expiresAt <= Run(s, steps).token.value.expiresAt
    decreases |steps|
  {
    if steps != [] {
      assert Constant([steps[0]], lifetime);
      ExpiryStep(s, steps[0], lifetime);
      ExpiryNeverDecreases(Apply(s, steps[0]), steps[1..], lifetime);
    }
  }
}
