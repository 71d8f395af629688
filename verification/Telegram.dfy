/** The long-poll cursor of the Telegram channel (telegram.go): pollUpdates and what
    parseUpdate accepts. */
module Telegram {
  import opened Option

  datatype Body = Body(messageID: int, text: string)

  datatype Update = Update(
    id: int,
    message: Option<Body>,
    editedMessage: Option<Body>,
    callbackData: Option<string>)

  datatype Message = Callback(updateID: int, data: string) | Text(messageID: int, text: string, edited: bool)

  /** parseUpdate: a callback query first, then a message, then an edited one. */
  function ParseUpdate(u: Update): Option<Message> {
    if u.callbackData.Some? then Some(Callback(u.id, u.callbackData.value))
    else if u.message.Some? then Some(Text(u.message.value.messageID, u.message.value.text, false))
    else if u.editedMessage.Some? then Some(Text(u.editedMessage.value.messageID, u.editedMessage.value.text, true))
    else None
  }

  /** What getUpdates comes to: the request, the read or the decoding fails, the API says not
      ok, or there are updates. */
  datatype Response = RequestFailed | ReadFailed | DecodeFailed | NotOk | Updates(us: seq<Update>)

  datatype Fate = Dispatched(m: Message) | Rejected | NoHandler

  /** Entry of the history: what became of the update with this id. */
  datatype Entry = Entry(id: int, fate: Fate)

  /** What happens to an update when a handler is registered at that moment, or is not. */
  function FateOf(u: Update, handled: bool): Fate {
    match ParseUpdate(u)
    case None => Rejected
    case Some(m) => if handled then Dispatched(m) else NoHandler
  }

  // ---------------------------------------------------------------- the feed

  /** Updates come in with ever larger, non-negative ids. */
  ghost predicate IsFeed(feed: seq<Update>) {
    && (forall i :: 0 <= i < |feed| ==> feed[i].id >= 0)
    && (forall i, j :: 0 <= i < j < |feed| ==> feed[i].id < feed[j].id)
  }

  /** The number of updates below an offset. */
  function Below(feed: seq<Update>, offset: int): (k: nat)
    ensures k <= |feed|
  {
    if feed == [] || feed[|feed| - 1].id < offset then |feed| else Below(feed[..|feed| - 1], offset)
  }

  lemma {:induction false} BelowSplits(feed: seq<Update>, offset: int)
    requires IsFeed(feed)
    ensures var k := Below(feed, offset);
            && (forall i :: 0 <= i < k ==> feed[i].id < offset)
            && (forall i :: k <= i < |feed| ==> feed[i].id >= offset)
  {
    if feed != [] {
      var front, last := feed[..|feed| - 1], feed[|feed| - 1];
      if last.id < offset {
        assert forall i :: 0 <= i < |feed| ==> feed[i].id <= last.id;
      } else {
        BelowSplits(front, offset);
        assert forall i :: 0 <= i < |front| ==> front[i] == feed[i];
      }
    }
  }

  /** getUpdates: the earliest of the updates that have come in (`visible` of them) with ids from
      the offset on, as many as the server likes. */
  ghost predicate Answers(feed: seq<Update>, visible: nat, offset: int, r: Response) {
    r.Updates? ==>
      visible <= |feed| && exists j :: Below(feed, offset) <= j <= visible && r.us == feed[Below(feed, offset)..j]
  }

  // ---------------------------------------------------------------- the loop

  /** The surroundings of a polling loop. Every request and every update dispatched sees whether
      a handler is registered at that moment; polls are numbered, and so are updates in one. */
  datatype Env = Env(handled: (nat, nat) -> bool)

  class Poller {
    var offset: int
    ghost var history: seq<Entry>

    constructor ()
      ensures offset == 0 && history == []
    {
      offset, history := 0, [];
    }

    /** The body of pollUpdates' loop for the n-th response. */
    method Poll(env: Env, n: nat, r: Response) returns (dispatched: seq<Message>)
      modifies this
      ensures offset == Cursor(old(offset), r)
      ensures history == old(history) + Entries(env, n, r)
      ensures dispatched == Messages(Entries(env, n, r))
      ensures forall m :: m in dispatched <==> exists i :: IsHandedOn(env, n, r, i, m)
      ensures r.Updates? && |r.us| == 1 ==>
                dispatched == match ParseUpdate(r.us[0])
                              case Some(m) => if env.handled(n, 0) then [m] else []
                              case None => []
    {
      dispatched := [];
      if r.Updates? {
        dispatched := Dispatch(env, n, r.us);
      }
      HandedOnExactly(env, n, r);
      if r.Updates? && |r.us| == 1 {
        OneUpdate(env, n, r);
      }
    }

    /** The inner loop. */
    method Dispatch(env: Env, n: nat, us: seq<Update>) returns (dispatched: seq<Message>)
      modifies this
      ensures offset == Cursor(old(offset), Updates(us))
      ensures history == old(history) + EntriesOf(env, n, us)
      ensures dispatched == Messages(EntriesOf(env, n, us))
    {
      dispatched := [];
      for i := 0 to |us|
        invariant offset == if i == 0 then old(offset) else us[i - 1].id + 1
        invariant history == old(history) + EntriesOf(env, n, us[..i])
        invariant dispatched == Messages(EntriesOf(env, n, us[..i]))
      {
        var u := us[i];
        offset := u.id + 1;
        ghost var entry := Entry(u.id, FateOf(u, env.handled(n, i)));
        EntriesSnoc(env, n, us, i);
        MessagesSnoc(EntriesOf(env, n, us[..i]), entry);
        var parsed := ParseUpdate(u);
        if parsed.Some? && env.handled(n, i) {
          dispatched := dispatched + [parsed.value];
        }
        history := history + [entry];
      }
      assert us[..|us|] == us;
    }

    /** pollUpdates from its start until the context ends it after these responses. */
    method PollUpdates(env: Env, rs: seq<Response>) returns (dispatched: seq<Message>)
      requires offset == 0 && history == []
      modifies this
      ensures State(offset, history) == Run(env, rs)
      ensures dispatched == Messages(history)
    {
      dispatched := [];
      for n := 0 to |rs|
        invariant State(offset, history) == Run(env, rs[..n])
        invariant dispatched == Messages(history)
      {
        assert rs[..n + 1][..n] == rs[..n];
        MessagesAppend(history, Entries(env, n, rs[n]));
        var more := Poll(env, n, rs[n]);
        dispatched := dispatched + more;
      }
      assert rs[..|rs|] == rs;
    }
  }

  /** The i-th update of the n-th response parses to this message, and a handler is registered when
      its turn comes. */
  predicate IsHandedOn(env: Env, n: nat, r: Response, i: int, m: Message) {
    r.Updates? && 0 <= i < |r.us| && ParseUpdate(r.us[i]) == Some(m) && env.handled(n, i)
  }

  /** What parseUpdate makes of an update: a callback query comes first, then a message, then an
      edited message, and there is nothing else to make a message of. */
  lemma ParsedUpdate(u: Update)
    ensures u.callbackData.Some? ==> ParseUpdate(u) == Some(Callback(u.id, u.callbackData.value))
    ensures u.callbackData.None? && u.message.Some? ==>
              ParseUpdate(u) == Some(Text(u.message.value.messageID, u.message.value.text, false))
    ensures u.callbackData.None? && u.message.None? && u.editedMessage.Some? ==>
              ParseUpdate(u) == Some(Text(u.editedMessage.value.messageID, u.editedMessage.value.text, true))
    ensures u.callbackData.None? && u.message.None? && u.editedMessage.None? ==> ParseUpdate(u) == None
  {
  }

  /** The entry made for the i-th update of the n-th response. */
  ghost predicate FateExactly(env: Env, n: nat, i: nat, u: Update, e: Entry) {
    && e.id == u.id
    && (forall m :: e.fate == Dispatched(m) <==> ParseUpdate(u) == Some(m) && env.handled(n, i))
    && (e.fate == NoHandler <==> ParseUpdate(u).Some? && !env.handled(n, i))
    && (e.fate == Rejected <==> ParseUpdate(u) == None)
  }

  lemma {:induction false} EntriesExactly(env: Env, n: nat, us: seq<Update>)
    ensures forall i :: 0 <= i < |us| ==> FateExactly(env, n, i, us[i], EntriesOf(env, n, us)[i])
  {
    if us != [] {
      EntriesExactly(env, n, us[..|us| - 1]);
    }
  }

  lemma {:induction false} MessagesMean(es: seq<Entry>)
    ensures forall m :: m in Messages(es) <==> exists i :: 0 <= i < |es| && es[i].fate == Dispatched(m)
  {
    if es != [] {
      var front := es[..|es| - 1];
      MessagesMean(front);
      assert forall i :: 0 <= i < |front| ==> front[i] == es[i];
    }
  }

  lemma HandedOnExactly(env: Env, n: nat, r: Response)
    ensures forall m :: m in Messages(Entries(env, n, r)) <==> exists i :: IsHandedOn(env, n, r, i, m)
  {
    var es := Entries(env, n, r);
    MessagesMean(es);
    if r.Updates? {
      EntriesExactly(env, n, r.us);
      forall m, i | 0 <= i < |es|
        ensures es[i].fate == Dispatched(m) <==> IsHandedOn(env, n, r, i, m)
      {
        assert FateExactly(env, n, i, r.us[i], es[i]);
      }
    }
  }

  lemma OneUpdate(env: Env, n: nat, r: Response)
    requires r.Updates? && |r.us| == 1
    ensures Messages(Entries(env, n, r)) == match ParseUpdate(r.us[0])
                                            case Some(m) => if env.handled(n, 0) then [m] else []
                                            case None => []
  {
    assert r.us[..0] == [];
    EntriesSnoc(env, n, r.us, 0);
    assert r.us[..1] == r.us;
    MessagesSnoc([], EntriesOf(env, n, r.us)[0]);
  }

  lemma EntriesSnoc(env: Env, n: nat, us: seq<Update>, i: nat)
    requires i < |us|
    ensures EntriesOf(env, n, us[..i + 1])
         == EntriesOf(env, n, us[..i]) + [Entry(us[i].id, FateOf(us[i], env.handled(n, i)))]
  {
    assert us[..i + 1][..i] == us[..i];
  }

  lemma MessagesSnoc(es: seq<Entry>, e: Entry)
    ensures Messages(es + [e]) == if e.fate.Dispatched? then Messages(es) + [e.fate.m] else Messages(es)
  {
    assert (es + [e])[..|es|] == es;
  }

  lemma {:induction false} MessagesAppend(a: seq<Entry>, b: seq<Entry>)
    ensures Messages(a + b) == Messages(a) + Messages(b)
  {
    if b == [] {
      assert a + b == a;
    } else {
      var front, last := b[..|b| - 1], b[|b| - 1];
      MessagesAppend(a, front);
      assert (a + b)[..|a + b| - 1] == a + front;
    }
  }

  /** The offset after a response. */
  function Cursor(offset: int, r: Response): int {
    if r.Updates? && r.us != [] then r.us[|r.us| - 1].id + 1 else offset
  }

  function EntriesOf(env: Env, n: nat, us: seq<Update>): (es: seq<Entry>)
    ensures |es| == |us|
  {
    if us == [] then []
    else
      var k := |us| - 1;
      EntriesOf(env, n, us[..k]) + [Entry(us[k].id, FateOf(us[k], env.handled(n, k)))]
  }

  function Entries(env: Env, n: nat, r: Response): seq<Entry> {
    if r.Updates? then EntriesOf(env, n, r.us) else []
  }

  /** The messages handed to handlers, in order. */
  function Messages(es: seq<Entry>): seq<Message> {
    if es == [] then []
    else
      var last := es[|es| - 1];
      Messages(es[..|es| - 1]) + (if last.fate.Dispatched? then [last.fate.m] else [])
  }

  // ---------------------------------------------------------------- whole runs

  datatype State = State(offset: int, history: seq<Entry>)

  function Run(env: Env, rs: seq<Response>): State {
    if rs == [] then State(0, [])
    else
      var n := |rs| - 1;
      var before := Run(env, rs[..n]);
      State(Cursor(before.offset, rs[n]), before.history + Entries(env, n, rs[n]))
  }

  /** The API kept its word in every poll, whatever had come in by then. */
  ghost predicate Honest(env: Env, feed: seq<Update>, visible: nat -> nat, rs: seq<Response>) {
    forall n :: 0 <= n < |rs| ==> Answers(feed, visible(n), Run(env, rs[..n]).offset, rs[n])
  }

  /** The history is the beginning of the feed, update by update, and the cursor stands right
      behind it. */
  ghost predicate InStep(feed: seq<Update>, s: State) {
    && |s.history| <= |feed|
    && s.offset == (if s.history == [] then 0 else feed[|s.history| - 1].id + 1)
    && forall i :: 0 <= i < |s.history| ==> Explains(feed[i], s.history[i])
  }

  /** The entry is this update's: rejected exactly when parseUpdate has nothing for it, and
      otherwise dispatched as what it parses to, or met by no handler. */
  predicate Explains(u: Update, e: Entry) {
    && e.id == u.id
    && (e.fate == Rejected <==> ParseUpdate(u) == None)
    && (e.fate.Dispatched? ==> ParseUpdate(u) == Some(e.fate.m))
  }

  lemma {:induction false} EntriesExplain(env: Env, n: nat, us: seq<Update>)
    ensures forall i :: 0 <= i < |us| ==> Explains(us[i], EntriesOf(env, n, us)[i])
  {
    if us != [] {
      EntriesExplain(env, n, us[..|us| - 1]);
    }
  }

  lemma CursorIsBelow(feed: seq<Update>, s: State)
    requires IsFeed(feed) && InStep(feed, s)
    ensures Below(feed, s.offset) == |s.history|
  {
    BelowSplits(feed, s.offset);
    var m := |s.history|;
    assert m > 0 ==> feed[m - 1].id < s.offset;
    assert m < |feed| ==> feed[m].id >= s.offset;
  }

  lemma PollInStep(env: Env, n: nat, feed: seq<Update>, visible: nat, s: State, r: Response)
    requires IsFeed(feed) && InStep(feed, s) && Answers(feed, visible, s.offset, r)
    ensures InStep(feed, State(Cursor(s.offset, r), s.history + Entries(env, n, r)))
    ensures Cursor(s.offset, r) >= s.offset
  {
    if r.Updates? && r.us != [] {
      CursorIsBelow(feed, s);
      EntriesExplain(env, n, r.us);
    } else {
      assert s.history + Entries(env, n, r) == s.history;
    }
  }

  lemma HonestBefore(env: Env, feed: seq<Update>, visible: nat -> nat, rs: seq<Response>)
    requires Honest(env, feed, visible, rs) && rs != []
    ensures var n := |rs| - 1;
            Honest(env, feed, visible, rs[..n]) && Answers(feed, visible(n), Run(env, rs[..n]).offset, rs[n])
  {
    assert forall i :: 0 <= i < |rs| - 1 ==> rs[..|rs| - 1][..i] == rs[..i];
  }

  lemma {:induction false} RunInStep(env: Env, feed: seq<Update>, visible: nat -> nat, rs: seq<Response>)
    requires IsFeed(feed) && Honest(env, feed, visible, rs)
    ensures InStep(feed, Run(env, rs))
  {
    if rs != [] {
      var n := |rs| - 1;
      HonestBefore(env, feed, visible, rs);
      RunInStep(env, feed, visible, rs[..n]);
      PollInStep(env, n, feed, visible(n), Run(env, rs[..n]), rs[n]);
    }
  }

  /** Over every run, with failures of every kind in between: no update is taken twice, none is
      skipped, each below the offset was dispatched, rejected or met no handler, and
      none at or beyond it was touched. */
  lemma CursorSkipsNothing(env: Env, feed: seq<Update>, visible: nat -> nat, rs: seq<Response>)
    requires IsFeed(feed) && Honest(env, feed, visible, rs)
    ensures var s := Run(env, rs);
            && (forall i, j :: 0 <= i < j < |s.history| ==> s.history[i].id < s.history[j].id)
            && (forall i :: 0 <= i < |feed| ==>
                  (feed[i].id < s.offset <==> exists j :: 0 <= j < |s.history| && Explains(feed[i], s.history[j])))
  {
    RunInStep(env, feed, visible, rs);
    InStepSkipsNothing(feed, Run(env, rs));
  }

  lemma InStepSkipsNothing(feed: seq<Update>, s: State)
    requires IsFeed(feed) && InStep(feed, s)
    ensures forall i, j :: 0 <= i < j < |s.history| ==> s.history[i].id < s.history[j].id
    ensures forall i :: 0 <= i < |feed| ==>
              (feed[i].id < s.offset <==> exists j :: 0 <= j < |s.history| && Explains(feed[i], s.history[j]))
  {
    CursorIsBelow(feed, s);
    BelowSplits(feed, s.offset);
    forall i | 0 <= i < |feed|
      ensures feed[i].id < s.offset <==> exists j :: 0 <= j < |s.history| && Explains(feed[i], s.history[j])
    {
      if feed[i].id < s.offset {
        assert Explains(feed[i], s.history[i]);
      }
      if j :| 0 <= j < |s.history| && Explains(feed[i], s.history[j]) {
        assert Explains(feed[j], s.history[j]);
      }
    }
  }

  lemma LastPollAdvances(env: Env, feed: seq<Update>, visible: nat -> nat, rs: seq<Response>)
    requires IsFeed(feed) && Honest(env, feed, visible, rs) && rs != []
    ensures Run(env, rs[..|rs| - 1]).offset <= Run(env, rs).offset
  {
    var n := |rs| - 1;
    HonestBefore(env, feed, visible, rs);
    RunInStep(env, feed, visible, rs[..n]);
    PollInStep(env, n, feed, visible(n), Run(env, rs[..n]), rs[n]);
  }

  /** Over every run: what became of the i-th update of the n-th response stands in the history right
      behind what became of those before it, and is decided by what the update parses to and by
      whether a handler was registered. */
  lemma {:induction false} FatesExactly(env: Env, rs: seq<Response>, n: nat, i: nat, at: nat)
    requires n < |rs| && rs[n].Updates? && i < |rs[n].us| && at == |Run(env, rs[..n]).history| + i
    ensures FateStands(env, n, i, rs[n].us[i], Run(env, rs).history, at)
    decreases |rs|
  {
    var last := |rs| - 1;
    var front := rs[..last];
    HistoryOfRun(env, rs);
    if n < last {
      assert front[..n] == rs[..n];
      FatesExactly(env, front, n, i, at);
      FateStays(env, n, i, rs[n].us[i], Run(env, front).history, Entries(env, last, rs[last]), at);
    } else {
      FateComes(env, n, i, rs[n].us, Run(env, front).history);
    }
  }

  lemma HistoryOfRun(env: Env, rs: seq<Response>)
    requires rs != []
    ensures var last := |rs| - 1;
            Run(env, rs).history == Run(env, rs[..last]).history + Entries(env, last, rs[last])
  {
  }

  ghost predicate FateStands(env: Env, n: nat, i: nat, u: Update, history: seq<Entry>, at: nat) {
    at < |history| && FateExactly(env, n, i, u, history[at])
  }

  lemma FateStays(env: Env, n: nat, i: nat, u: Update, history: seq<Entry>, more: seq<Entry>, at: nat)
    requires FateStands(env, n, i, u, history, at)
    ensures FateStands(env, n, i, u, history + more, at)
  {
  }

  lemma FateComes(env: Env, n: nat, i: nat, us: seq<Update>, history: seq<Entry>)
    requires i < |us|
    ensures FateStands(env, n, i, us[i], history + EntriesOf(env, n, us), |history| + i)
  {
    EntriesExactly(env, n, us);
  }

  /** The offset never goes back. */
  lemma {:induction false} OffsetNeverDecreases(env: Env, feed: seq<Update>, visible: nat -> nat, rs: seq<Response>, m: nat)
    requires IsFeed(feed) && Honest(env, feed, visible, rs) && m <= |rs|
    ensures Run(env, rs[..m]).offset <= Run(env, rs).offset
    decreases |rs|
  {
    var n := |rs| - 1;
    if m <= n {
      HonestBefore(env, feed, visible, rs);
      assert rs[..n][..m] == rs[..m];
      OffsetNeverDecreases(env, feed, visible, rs[..n], m);
      LastPollAdvances(env, feed, visible, rs);
    } else {
      assert rs[..m] == rs;
    }
  }
}
