/** From messages to text: when each message is marshalled to its own clean line, the text
    pipeline carries the messages exactly as the step system on messages does. */
module Rendering {
  import opened Wire
  import opened Pipeline
  import opened TextPipe

  function Map<T, U>(f: T -> U, s: seq<T>): (r: seq<U>)
    ensures |r| == |s| && forall i :: 0 <= i < |s| ==> r[i] == f(s[i])
  {
    seq(|s|, i requires 0 <= i < |s| => f(s[i]))
  }

  function MapFrames<T, U>(f: T -> U, frames: seq<seq<T>>): (r: seq<seq<U>>)
    ensures |r| == |frames| && forall i :: 0 <= i < |frames| ==> r[i] == Map(f, frames[i])
  {
    seq(|frames|, i requires 0 <= i < |frames| => Map(f, frames[i]))
  }

  function MapOffers<T, U>(f: T -> U, os: seq<Offer<T>>): (r: seq<Offer<U>>)
    ensures |r| == |os| && forall i :: 0 <= i < |os| ==> r[i] == Offer(f(os[i].msg), os[i].depth)
  {
    seq(|os|, i requires 0 <= i < |os| => Offer(f(os[i].msg), os[i].depth))
  }

  function MapPipe<T, U>(f: T -> U, p: Pipe<T>): Pipe<U> {
    Pipe(Map(f, p.queue), p.pump, Map(f, p.batch), MapFrames(f, p.wire), Map(f, p.lines), Map(f, p.out),
         p.broken, Map(f, p.lost), MapOffers(f, p.offers))
  }

  function MapStep<T, U>(f: T -> U, step: Step<T>): Step<U> {
    match step
    case Send(m) => Send(f(m))
    case Take => Take
    case TakeFails => TakeFails
    case Check => Check
    case Draw => Draw
    case Leave => Leave
    case Break => Break
    case ReadFrame => ReadFrame
    case ReadLine => ReadLine
  }

  function MapSteps<T, U>(f: T -> U, steps: seq<Step<T>>): (r: seq<Step<U>>)
    ensures |r| == |steps|
  {
    if steps == [] then [] else [MapStep(f, steps[0])] + MapSteps(f, steps[1..])
  }

  predicate Reading<T>(step: Step<T>) {
    step.Break? || step.ReadFrame? || step.ReadLine?
  }

  lemma ReadingCommutes<T, U>(f: T -> U, p: Pipe<T>, step: Step<T>)
    requires Enabled(p, step) && Reading(step)
    ensures Enabled(MapPipe(f, p), MapStep(f, step))
    ensures Apply(MapPipe(f, p), MapStep(f, step)) == MapPipe(f, Apply(p, step))
  {
    var q, q' := Apply(MapPipe(f, p), MapStep(f, step)), MapPipe(f, Apply(p, step));
    assert q.wire == q'.wire;
    assert q.lines == q'.lines;
    assert q.out == q'.out;
    assert q.lost == q'.lost;
  }

  lemma PumpingCommutes<T, U>(f: T -> U, p: Pipe<T>, step: Step<T>)
    requires Enabled(p, step) && !Reading(step)
    ensures Enabled(MapPipe(f, p), MapStep(f, step))
    ensures Apply(MapPipe(f, p), MapStep(f, step)) == MapPipe(f, Apply(p, step))
  {
    var q, q' := Apply(MapPipe(f, p), MapStep(f, step)), MapPipe(f, Apply(p, step));
    assert q.queue == q'.queue;
    assert q.batch == q'.batch;
    assert q.wire == q'.wire;
    assert q.lost == q'.lost;
    assert q.offers == q'.offers;
  }

  /** The steps do not look at the messages. */
  lemma StepCommutes<T, U>(f: T -> U, p: Pipe<T>, step: Step<T>)
    requires Enabled(p, step)
    ensures Enabled(MapPipe(f, p), MapStep(f, step))
    ensures Apply(MapPipe(f, p), MapStep(f, step)) == MapPipe(f, Apply(p, step))
  {
    if Reading(step) {
      ReadingCommutes(f, p, step);
    } else {
      PumpingCommutes(f, p, step);
    }
  }

  lemma {:induction false} RunOnText<T(!new)>(render: T -> string, p: Pipe<T>, t: Text, steps: seq<Step<T>>)
    requires IsRun(p, steps) && forall m :: Clean(render(m))
    requires QueueClean(t) && Abs(t) == MapPipe(render, p)
    ensures IsTextRun(t, MapSteps(render, steps))
    ensures Abs(TextRun(t, MapSteps(render, steps))) == MapPipe(render, Run(p, steps))
    decreases |steps|
  {
    if steps != [] {
      var step := MapStep(render, steps[0]);
      StepCommutes(render, p, steps[0]);
      assert Can(t, step);
      StepRefines(t, step);
      assert MapSteps(render, steps)[1..] == MapSteps(render, steps[1..]);
      RunOnText(render, Apply(p, steps[0]), Do(t, step), steps[1..]);
    }
  }

  /** Every run on messages is a run on text, in which the client takes up the rendered messages;
      parsing them gives back what the messages are to the client. */
  lemma TextCarriesMessages<T(!new), U>(render: T -> string, parse: string -> U, content: T -> U, steps: seq<Step<T>>)
    requires IsRun(Start<T>(), steps)
    requires forall m :: Clean(render(m)) && parse(render(m)) == content(m)
    ensures IsTextRun(StartText(), MapSteps(render, steps))
    ensures Map(parse, TextRun(StartText(), MapSteps(render, steps)).out) == Map(content, Run(Start<T>(), steps).out)
  {
    LinesEmpty();
    assert Abs(StartText()) == MapPipe(render, Start<T>());
    RunOnText(render, Start<T>(), StartText(), steps);
  }
}
