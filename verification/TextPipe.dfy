/** The same pipeline on text: a frame is one string, built with newline separators and taken
    apart again by splitting. It refines the step system of module Pipeline. */
module TextPipe {
  import opened Wire
  import opened Pipeline

  datatype Text = Text(
    queue: seq<string>,
    pump: Pump,
    open: string,            // what has been written into the open frame
    wire: seq<string>,
    lines: seq<string>,
    out: seq<string>,
    broken: bool,
    lost: seq<string>,
    offers: seq<Offer<string>>)

  function StartText(): Text {
    Text([], Select, "", [], [], [], false, [], [])
  }

  predicate Can(t: Text, step: Step<string>) {
    match step
    case Send(m) => Clean(m)
    case Take => t.pump == Select && t.queue != []
    case TakeFails => t.pump == Select && t.queue != [] && t.broken
    case Check => t.pump.Test?
    case Draw => t.pump.Receive?
    case Leave => t.pump == Select
    case Break => true
    case ReadFrame => t.lines == [] && t.wire != []
    case ReadLine => t.lines != []
  }

  function Do(t: Text, step: Step<string>): Text
    requires Can(t, step)
  {
    match step
    case Send(m) =>
      var logged := t.(offers := t.offers + [Offer(m, |t.queue|)]);
      if |t.queue| < CAPACITY then logged.(queue := t.queue + [m]) else logged
    case Take => t.(open := t.queue[0], queue := t.queue[1..], pump := Test(0))
    case TakeFails => t.(lost := t.lost + [t.queue[0]], queue := t.queue[1..], pump := Gone)
    case Check =>
      if t.pump.i < |t.queue| then t.(pump := Receive(t.pump.i))
      else if t.broken then t.(lost := t.lost + [t.open], open := "", pump := Select)
      else t.(wire := t.wire + [t.open], open := "", pump := Select)
    case Draw =>
      if t.queue == [] then t
      else t.(open := t.open + "\n" + t.queue[0], queue := t.queue[1..], pump := Test(t.pump.i + 1))
    case Leave => t.(pump := Gone)
    case Break => t.(broken := true)
    case ReadFrame => t.(lines := Lines(t.wire[0]), wire := t.wire[1..])
    case ReadLine => t.(out := t.out + [t.lines[0]], lines := t.lines[1..])
  }

  predicate IsTextRun(t: Text, steps: seq<Step<string>>)
    decreases |steps|
  {
    steps == [] || (Can(t, steps[0]) && IsTextRun(Do(t, steps[0]), steps[1..]))
  }

  function TextRun(t: Text, steps: seq<Step<string>>): Text
    requires IsTextRun(t, steps)
    decreases |steps|
  {
    if steps == [] then t else TextRun(Do(t, steps[0]), steps[1..])
  }

  // ---------------------------------------------------------------- refinement

  function EachLines(frames: seq<string>): (r: seq<seq<string>>)
    ensures |r| == |frames|
  {
    if frames == [] then [] else [Lines(frames[0])] + EachLines(frames[1..])
  }

  function Abs(t: Text): Pipe<string> {
    Pipe(t.queue, t.pump, Lines(t.open), EachLines(t.wire), t.lines, t.out, t.broken,
         Flatten(EachLines(t.lost)), t.offers)
  }

  predicate QueueClean(t: Text) {
    && (forall m :: m in t.queue ==> Clean(m))
    && (t.pump.Select? || t.pump.Gone? ==> t.open == "")
    && (t.pump.Test? || t.pump.Receive? ==> Tight(t.open))
    && (forall f :: f in t.wire ==> Tight(f))
  }

  /** Nothing stands between the messages of a frame but one newline each. */
  predicate Tight(frame: string) {
    Split(frame) == Lines(frame)
  }

  lemma {:induction false} EachLinesAppend(frames: seq<string>, f: string)
    ensures EachLines(frames + [f]) == EachLines(frames) + [Lines(f)]
  {
    if frames == [] {
      assert frames + [f] == [f] && [f][1..] == [];
    } else {
      assert (frames + [f])[1..] == frames[1..] + [f];
      EachLinesAppend(frames[1..], f);
    }
  }

  lemma LinesEmpty()
    ensures Lines("") == []
  {
    KeepOne("");
  }

  /** One step on text is the same step on messages. */
  lemma StepRefines(t: Text, step: Step<string>)
    requires QueueClean(t) && Can(t, step)
    ensures QueueClean(Do(t, step))
    ensures Enabled(Abs(t), step) && Abs(Do(t, step)) == Apply(Abs(t), step)
  {
    match step
    case Send(m) =>
    case Take =>
      LinesClean(t.queue[0]);
      SplitSingle(t.queue[0]);
    case TakeFails =>
      LinesClean(t.queue[0]);
      LostGrows(t, t.queue[0]);
    case Check => CheckRefines(t);
    case Draw => DrawRefines(t);
    case Leave =>
    case Break =>
    case ReadFrame =>
    case ReadLine =>
  }

  lemma LostGrows(t: Text, frame: string)
    ensures Flatten(EachLines(t.lost + [frame])) == Flatten(EachLines(t.lost)) + Lines(frame)
  {
    EachLinesAppend(t.lost, frame);
    FlattenAppend(EachLines(t.lost), Lines(frame));
  }

  lemma CheckRefines(t: Text)
    requires QueueClean(t) && t.pump.Test?
    ensures QueueClean(Do(t, Check)) && Abs(Do(t, Check)) == Apply(Abs(t), Check)
  {
    LinesEmpty();
    if t.pump.i >= |t.queue| {
      if t.broken {
        LostGrows(t, t.open);
      } else {
        EachLinesAppend(t.wire, t.open);
      }
    }
  }

  lemma DrawRefines(t: Text)
    requires QueueClean(t) && t.pump.Receive?
    ensures QueueClean(Do(t, Draw)) && Abs(Do(t, Draw)) == Apply(Abs(t), Draw)
  {
    if t.queue != [] {
      JoinedReads(t.open, t.queue[0]);
    }
  }

  lemma JoinedReads(open: string, m: string)
    requires Clean(m)
    ensures Lines(open + "\n" + m) == Lines(open) + [m]
    ensures Tight(open) ==> Tight(open + "\n" + m)
  {
    LinesAppend(open, m);
    SplitAppend(open, m);
    LinesClean(m);
    SplitSingle(m);
  }

  /** Every run on text is, step for step, a run on messages. */
  lemma {:induction false} RunRefines(t: Text, steps: seq<Step<string>>)
    requires QueueClean(t) && IsTextRun(t, steps)
    ensures IsRun(Abs(t), steps) && Abs(TextRun(t, steps)) == Run(Abs(t), steps)
    ensures QueueClean(TextRun(t, steps))
    decreases |steps|
  {
    if steps != [] {
      StepRefines(t, steps[0]);
      RunRefines(Do(t, steps[0]), steps[1..]);
    }
  }

  /** Conservation holds of the bytes: the client's lines are the accepted messages, whatever
      the batching, the interleaving and the moment at which the connection breaks. */
  lemma TextConservation(steps: seq<Step<string>>)
    requires IsTextRun(StartText(), steps)
    ensures var t := TextRun(StartText(), steps);
            && t.out <= Accepted(t.offers)
            && (forall f :: f in t.wire ==> Split(f) == Lines(f))
            && Held(Abs(t)) == Accepted(t.offers)
            && (!t.broken && t.queue == [] && t.pump.Select? && t.wire == [] && t.lines == []
                ==> t.out == Accepted(t.offers))
  {
    LinesEmpty();
    assert Abs(StartText()) == Start<string>();
    RunRefines(StartText(), steps);
    Conservation(steps);
    var t := TextRun(StartText(), steps);
    if !t.broken && t.queue == [] && t.pump.Select? && t.wire == [] && t.lines == [] {
      CaughtUp(steps);
    }
  }
}
