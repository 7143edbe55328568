/** What one sync of the worker, or one activation of a handler, has gone
    through: its own steps in a run, whatever others did in between. */
module Steps {
  import opened Objects
  import opened Machine
  import opened Invariant
  import opened Preservation

  /** A step: the state it was taken in, and what it met. */
  datatype Step = Step(s: State, c: Choice)

  /** The steps of the sync under way, or of the latest one, from taking the key
      to being done with it. */
  ghost function SyncSteps(run: seq<Label>): seq<Step>
    requires IsRun(run)
  {
    if run == [] then []
    else
      var front, l := run[..|run| - 1], run[|run| - 1];
      var s := After(front);
      if !l.Work? then SyncSteps(front)
      else (if s.worker.Idle? then [] else SyncSteps(front)) + [Step(s, l.c)]
  }

  /** The steps of handler activation `h`. */
  ghost function ActivationSteps(run: seq<Label>, h: nat): seq<Step>
    requires IsRun(run)
  {
    if run == [] then []
    else
      var front, l := run[..|run| - 1], run[|run| - 1];
      if l.Handle? && l.h == h then ActivationSteps(front, h) + [Step(After(front), l.c)]
      else ActivationSteps(front, h)
  }

  /** The position of activation `h`, before it has begun as after its end. */
  function HandlerAt(s: State, h: nat): Handler {
    if h < |s.handlers| then s.handlers[h] else Finished
  }

  // ---------- requests ----------

  /** The loops of the source that send one object up to three times. */
  datatype Loop = StoreKey | StoreRecord | StripKey | WriteHealth(h: nat) | WriteVersion(h: nat)

  /** The object the next request of the loop sends, when the loop is at it. */
  function Sends(s: State, loop: Loop): Option<Cluster> {
    match loop
    case StoreKey => if s.worker.InitPut? then InMemory(s, s.worker.o) else None
    case StoreRecord => if s.worker.RecordPut? then InMemory(s, s.worker.o) else None
    case StripKey => if s.worker.StripPut? then Some(s.worker.u) else None
    case WriteHealth(h) => if HandlerAt(s, h).HealthPut? then InMemory(s, HandlerAt(s, h).o) else None
    case WriteVersion(h) => if HandlerAt(s, h).AnnotPut? then Some(HandlerAt(s, h).u) else None
  }

  function InMemory(s: State, o: nat): Option<Cluster> {
    if o < |s.shared.heap| then Some(s.shared.heap[o]) else None
  }

  /** A request whose success the sender learns of. */
  ghost predicate Answered(step: Step, loop: Loop) {
    && Sends(step.s, loop).Some? && step.c.fate == Delivered
    && Current(step.s.shared, Sends(step.s, loop).value)
  }

  /** A request that reaches the server while its object is current. */
  ghost predicate Arrives(step: Step, loop: Loop) {
    && Sends(step.s, loop).Some? && step.c.fate != Lost
    && Current(step.s.shared, Sends(step.s, loop).value)
  }

  ghost function StepsOf(run: seq<Label>, loop: Loop): seq<Step>
    requires IsRun(run)
  {
    match loop
    case WriteHealth(h) => ActivationSteps(run, h)
    case WriteVersion(h) => ActivationSteps(run, h)
    case _ => SyncSteps(run)
  }

  /** How many requests the loop has sent. */
  ghost function Requests(steps: seq<Step>, loop: Loop): nat {
    if steps == [] then 0
    else Requests(steps[..|steps| - 1], loop) + if Sends(steps[|steps| - 1].s, loop).Some? then 1 else 0
  }

  ghost predicate SomeAnswered(steps: seq<Step>, loop: Loop) {
    exists k :: 0 <= k < |steps| && Answered(steps[k], loop)
  }

  lemma AddStep(steps: seq<Step>, step: Step, loop: Loop)
    ensures Requests(steps + [step], loop) == Requests(steps, loop) + if Sends(step.s, loop).Some? then 1 else 0
    ensures SomeAnswered(steps + [step], loop) <==> SomeAnswered(steps, loop) || Answered(step, loop)
  {
    var more := steps + [step];
    assert more[..|steps|] == steps;
    if SomeAnswered(steps, loop) {
      var k :| 0 <= k < |steps| && Answered(steps[k], loop);
      assert Answered(more[k], loop);
    }
    if Answered(step, loop) {
      assert Answered(more[|steps|], loop);
    }
  }

  /** A run and its latest step. */
  lemma LatestStep(run: seq<Label>)
    requires IsRun(run) && run != []
    ensures var front, l := run[..|run| - 1], run[|run| - 1];
      IsRun(front) && Enabled(After(front), l) && After(run) == Next(After(front), l) && Inv(After(front))
  {
    RunKeepsInv(run[..|run| - 1]);
  }
}
