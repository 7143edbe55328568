/** The five retry loops: how often they try, when they stop, and what the store
    holds when they do. */
module Attempts {
  import opened Objects
  import opened Machine
  import opened Invariant
  import opened Preservation
  import opened Safety
  import opened Cleanup
  import opened Steps

  /** The process of the loop has not got to it yet. */
  predicate Ahead(s: State, loop: Loop) {
    match loop
    case StoreKey => s.worker.Config? || s.worker.Init?
    case StoreRecord =>
      || s.worker.Config? || s.worker.Init? || s.worker.InitPut?
      || s.worker.DoBegin? || s.worker.Backend? || s.worker.DoEnd? || s.worker.Record?
    case StripKey => s.worker.Fetch? || s.worker.Remove?
    case WriteHealth(h) =>
      h >= |s.handlers| || s.handlers[h].HealthBegin? || s.handlers[h].HealthProbe? || s.handlers[h].HealthEnd?
    case WriteVersion(h) =>
      h >= |s.handlers| || s.handlers[h].AnnotGet? || s.handlers[h].AnnotDiscover? || s.handlers[h].AnnotCompare?
  }

  /** The attempt the loop is at, when it is at one. */
  function Attempt(s: State, loop: Loop): Option<nat> {
    if Sends(s, loop).None? then None
    else
      match loop
      case WriteHealth(h) => Some(s.handlers[h].tries)
      case WriteVersion(h) => Some(s.handlers[h].tries)
      case _ => Some(s.worker.tries)
  }

  /** n requests sent and one of them answered or not, against where the loop
      stands. */
  ghost predicate Stage(n: nat, answered: bool, ahead: bool, at: Option<nat>) {
    && (ahead ==> n == 0 && !answered && at.None?)
    && (at.Some? ==> n == at.value <= 2 && !answered)
    && (at.None? && n > 0 ==> n == 3 || (n < 3 && answered))
  }

  ghost predicate LoopOk(s: State, steps: seq<Step>, loop: Loop) {
    Stage(Requests(steps, loop), SomeAnswered(steps, loop), Ahead(s, loop), Attempt(s, loop))
  }

  /** A step of the loop's process: it enters the loop with its first attempt,
      goes on to the next one after an attempt that was not answered, and leaves
      after one that was or after the third. */
  ghost predicate Moves(ahead: bool, at: Option<nat>, answered: bool, ahead': bool, at': Option<nat>) {
    && (ahead' ==> at.None? && at'.None? && !answered)
    && (at'.Some? ==> (ahead && at'.value == 0) || (at.Some? && !answered && at'.value == at.value + 1 <= 2))
    && (at.Some? && at'.None? ==> answered || at.value == 2)
    && (at.None? ==> !answered)
  }

  lemma MovesKeepStage(n: nat, some: bool, ahead: bool, at: Option<nat>, answered: bool, ahead': bool, at': Option<nat>)
    requires Stage(n, some, ahead, at) && Moves(ahead, at, answered, ahead', at')
    requires ahead' ==> ahead || (n == 0 && !some)
    ensures Stage(n + if at.Some? then 1 else 0, some || answered, ahead', at')
  {
  }

  ghost predicate LoopMoves(s: State, t: State, step: Step, loop: Loop) {
    Moves(Ahead(s, loop), Attempt(s, loop), Answered(step, loop), Ahead(t, loop), Attempt(t, loop))
  }

  lemma MovesKeep(s: State, t: State, steps: seq<Step>, step: Step, loop: Loop)
    requires step.s == s && LoopOk(s, steps, loop) && LoopMoves(s, t, step, loop)
    requires Ahead(t, loop) ==> Ahead(s, loop) || steps == []
    ensures LoopOk(t, steps + [step], loop)
  {
    AddStep(steps, step, loop);
    MovesKeepStage(Requests(steps, loop), SomeAnswered(steps, loop), Ahead(s, loop), Attempt(s, loop),
                   Answered(step, loop), Ahead(t, loop), Attempt(t, loop));
  }

  ghost predicate InTries(at: Option<nat>) {
    at.Some? ==> at.value <= 2
  }

  lemma KeyMoves(s: State, c: Choice)
    requires Enabled(s, Work(c)) && InTries(Attempt(s, StoreKey))
    ensures LoopMoves(s, WorkerStep(s, c), Step(s, c), StoreKey)
  {
  }

  lemma RecordMoves(s: State, c: Choice)
    requires Enabled(s, Work(c)) && InTries(Attempt(s, StoreRecord))
    ensures LoopMoves(s, WorkerStep(s, c), Step(s, c), StoreRecord)
  {
  }

  lemma StripMoves(s: State, c: Choice)
    requires Enabled(s, Work(c)) && InTries(Attempt(s, StripKey))
    ensures LoopMoves(s, WorkerStep(s, c), Step(s, c), StripKey)
  {
  }

  lemma HealthMoves(s: State, h: nat, c: Choice)
    requires Enabled(s, Handle(h, c)) && InTries(Attempt(s, WriteHealth(h)))
    ensures LoopMoves(s, HandlerStep(s, h, c), Step(s, c), WriteHealth(h))
  {
  }

  lemma VersionMoves(s: State, h: nat, c: Choice)
    requires Enabled(s, Handle(h, c)) && InTries(Attempt(s, WriteVersion(h)))
    ensures LoopMoves(s, HandlerStep(s, h, c), Step(s, c), WriteVersion(h))
  {
  }

  /** Which way the worker's process goes: back ahead of a loop only by taking
      the key. */
  lemma NotBack(s: State, c: Choice, loop: Loop)
    requires Enabled(s, Work(c)) && !loop.WriteHealth? && !loop.WriteVersion?
    ensures Ahead(WorkerStep(s, c), loop) ==> Ahead(s, loop) || s.worker.Idle?
    ensures s.worker.Idle? ==> !Ahead(s, loop) && Attempt(s, loop).None?
  {
  }

  lemma HandlerNotBack(s: State, h: nat, c: Choice, loop: Loop)
    requires Enabled(s, Handle(h, c)) && (loop == WriteHealth(h) || loop == WriteVersion(h))
    ensures Ahead(HandlerStep(s, h, c), loop) ==> Ahead(s, loop)
  {
  }

  lemma WorkerLoop(s: State, steps: seq<Step>, c: Choice, loop: Loop)
    requires Enabled(s, Work(c)) && !loop.WriteHealth? && !loop.WriteVersion? && LoopOk(s, steps, loop)
    ensures LoopOk(WorkerStep(s, c), (if s.worker.Idle? then [] else steps) + [Step(s, c)], loop)
  {
    match loop {
      case StoreKey => KeyMoves(s, c);
      case StoreRecord => RecordMoves(s, c);
      case StripKey => StripMoves(s, c);
    }
    NotBack(s, c, loop);
    MovesKeep(s, WorkerStep(s, c), if s.worker.Idle? then [] else steps, Step(s, c), loop);
  }

  lemma HandlerLoop(s: State, steps: seq<Step>, h: nat, c: Choice, loop: Loop)
    requires Enabled(s, Handle(h, c)) && (loop == WriteHealth(h) || loop == WriteVersion(h)) && LoopOk(s, steps, loop)
    ensures LoopOk(HandlerStep(s, h, c), steps + [Step(s, c)], loop)
  {
    if loop.WriteHealth? {
      HealthMoves(s, h, c);
    } else {
      VersionMoves(s, h, c);
    }
    HandlerNotBack(s, h, c, loop);
    MovesKeep(s, HandlerStep(s, h, c), steps, Step(s, c), loop);
  }

  // ---------- steps of others ----------

  predicate ByProcess(l: Label, loop: Loop) {
    match loop
    case WriteHealth(h) => l.Handle? && l.h == h
    case WriteVersion(h) => l.Handle? && l.h == h
    case _ => l.Work?
  }

  /** Nobody else moves the process of a loop; an activation that begins has
      not got to its loop. */
  lemma OthersLeave(s: State, l: Label, loop: Loop)
    requires Inv(s) && Enabled(s, l) && !ByProcess(l, loop)
    ensures var t := Next(s, l);
      || (Ahead(t, loop) == Ahead(s, loop) && Attempt(t, loop) == Attempt(s, loop))
      || (Ahead(s, loop) && Attempt(t, loop).None?)
  {
    if loop.WriteHealth? || loop.WriteVersion? {
      if loop.h < |s.handlers| {
        assert HandlerOk(s.shared, s.handlers[loop.h]);
      }
      OthersLeaveActivation(s, l, loop);
    } else {
      OthersLeaveWorker(s, l, loop);
    }
  }

  lemma OthersLeaveActivation(s: State, l: Label, loop: Loop)
    requires Enabled(s, l) && (loop.WriteHealth? || loop.WriteVersion?) && !ByProcess(l, loop)
    requires InHeap(s.shared, HandlerObject(HandlerAt(s, loop.h)))
    ensures var t := Next(s, l);
      || (Ahead(t, loop) == Ahead(s, loop) && Attempt(t, loop) == Attempt(s, loop))
      || (Ahead(s, loop) && Attempt(t, loop).None?)
  {
    ActivationStays(s, l, loop.h);
    if loop.h < |s.handlers| {
      SamePlace(s, Next(s, l), loop);
    }
  }

  lemma SamePlace(s: State, t: State, loop: Loop)
    requires (loop.WriteHealth? || loop.WriteVersion?) && InHeap(s.shared, HandlerObject(HandlerAt(s, loop.h)))
    requires |s.shared.heap| <= |t.shared.heap| && loop.h < |s.handlers| <= |t.handlers|
    requires t.handlers[loop.h] == s.handlers[loop.h]
    ensures Ahead(t, loop) == Ahead(s, loop) && Attempt(t, loop) == Attempt(s, loop)
  {
  }

  lemma OthersLeaveWorker(s: State, l: Label, loop: Loop)
    requires Enabled(s, l) && !loop.WriteHealth? && !loop.WriteVersion? && !ByProcess(l, loop)
    requires InHeap(s.shared, WorkerObject(s.worker))
    ensures Ahead(Next(s, l), loop) == Ahead(s, loop) && Attempt(Next(s, l), loop) == Attempt(s, loop)
  {
    WorkerWaits(s, l);
  }

  lemma ActivationStays(s: State, l: Label, h: nat)
    requires Enabled(s, l) && !(l.Handle? && l.h == h)
    ensures var t := Next(s, l);
      && |s.shared.heap| <= |t.shared.heap| && |s.handlers| <= |t.handlers|
      && (h < |s.handlers| ==> t.handlers[h] == s.handlers[h])
      && (|s.handlers| <= h < |t.handlers| ==>
           t.handlers[h].HealthBegin? || t.handlers[h].AnnotGet? || t.handlers[h].GenGet?)
  {
  }

  lemma WorkerWaits(s: State, l: Label)
    requires Enabled(s, l) && !l.Work?
    ensures Next(s, l).worker == s.worker && |s.shared.heap| <= |Next(s, l).shared.heap|
  {
  }

  lemma OthersKeep(s: State, l: Label, steps: seq<Step>, loop: Loop)
    requires Inv(s) && Enabled(s, l) && !ByProcess(l, loop) && LoopOk(s, steps, loop)
    ensures LoopOk(Next(s, l), steps, loop)
  {
    OthersLeave(s, l, loop);
  }

  // ---------- all runs ----------

  lemma {:induction false} RunKeepsLoop(run: seq<Label>, loop: Loop)
    requires IsRun(run)
    ensures LoopOk(After(run), StepsOf(run, loop), loop)
  {
    if run != [] {
      LatestStep(run);
      var front, l := run[..|run| - 1], run[|run| - 1];
      var s := After(front);
      RunKeepsLoop(front, loop);
      if !ByProcess(l, loop) {
        OthersKeep(s, l, StepsOf(front, loop), loop);
      } else if l.Work? {
        WorkerLoop(s, SyncSteps(front), l.c, loop);
      } else {
        HandlerLoop(s, ActivationSteps(front, l.h), l.h, l.c, loop);
      }
    }
  }

  /** The retry law, for each of the five loops in every run: at most three
      requests, none after an answered one, and a process that has begun to send
      and does not go on has been answered or has sent all three. */
  lemma TriesUntilAnsweredOrThree(run: seq<Label>, loop: Loop)
    requires IsRun(run)
    ensures var steps, sending := StepsOf(run, loop), Sends(After(run), loop).Some?;
      && Requests(steps, loop) <= 3
      && (sending ==> Requests(steps, loop) < 3 && !SomeAnswered(steps, loop))
      && (Requests(steps, loop) > 0 && !sending ==> SomeAnswered(steps, loop) || Requests(steps, loop) == 3)
  {
    RunKeepsLoop(run, loop);
  }

  /** A request that arrives while its object is current is carried out: the
      store holds what was sent, or, if that was marked and had no finalizer
      left, is rid of it. */
  lemma ArrivedIsStored(run: seq<Label>, loop: Loop, i: nat)
    requires IsRun(run) && i < |run| && StepAt(run, i) && ByProcess(run[i], loop)
    requires Arrives(Step(After(run[..i]), run[i].c), loop) && IsRun(run[..i + 1])
    ensures var sent, g := Sends(After(run[..i]), loop).value, After(run[..i + 1]).shared;
      if sent.marked && sent.finalizers == [] && sent != Last(After(run[..i]).shared) then g.gone
      else Live(g) && Last(g) == sent.(rv := Last(g).rv)
  {
    PrefixStep(run, i);
    RunKeepsInv(run[..i]);
    StoresSent(After(run[..i]), run[i], loop);
  }

  lemma StoresSent(s: State, l: Label, loop: Loop)
    requires Enabled(s, l) && ByProcess(l, loop) && Arrives(Step(s, l.c), loop)
    ensures var sent, g := Sends(s, loop).value, Next(s, l).shared;
      if sent.marked && sent.finalizers == [] && sent != Last(s.shared) then g.gone
      else Live(g) && Last(g) == sent.(rv := Last(g).rv)
  {
    SendingPuts(s, l, loop);
  }

  lemma SendingPuts(s: State, l: Label, loop: Loop)
    requires Enabled(s, l) && ByProcess(l, loop) && Sends(s, loop).Some?
    ensures Next(s, l).shared == Put(s.shared, Sends(s, loop).value, l.c.fate)
  {
    if l.Work? {
      assert WorkerStep(s, l.c).shared == WorkerEffect(s.shared, s.worker, l.c);
    } else {
      assert HandlerStep(s, l.h, l.c).shared == HandlerEffect(s.shared, s.handlers[l.h], s.kube, l.c);
    }
  }

  // ---------- the finalizer and the backend ----------

  ghost predicate SomeArrives(steps: seq<Step>, loop: Loop) {
    exists k :: 0 <= k < |steps| && Arrives(steps[k], loop)
  }

  lemma AddArrival(steps: seq<Step>, step: Step, loop: Loop)
    ensures SomeArrives(steps + [step], loop) <==> SomeArrives(steps, loop) || Arrives(step, loop)
  {
    var more := steps + [step];
    if SomeArrives(steps, loop) {
      var k :| 0 <= k < |steps| && Arrives(steps[k], loop);
      assert Arrives(more[k], loop);
    }
    if Arrives(step, loop) {
      assert Arrives(more[|steps|], loop);
    }
  }

  /** The sync under way has stored the key, and is not one that strips it. */
  ghost predicate KeyHeld(s: State, steps: seq<Step>) {
    && (s.worker.InitPut? || SomeArrives(steps, StoreKey) ==>
         !s.worker.Fetch? && !s.worker.Remove? && !s.worker.StripPut?)
    && (SomeArrives(steps, StoreKey) ==> !LacksKey(s.shared))
    && (Ahead(s, StoreKey) ==> !SomeArrives(steps, StoreKey))
  }

  lemma KeyLeavesByStripOnly(s: State, l: Label)
    requires Inv(s) && Enabled(s, l) && !LacksKey(s.shared) && !(l.Work? && s.worker.StripPut?)
    ensures !LacksKey(Next(s, l).shared)
  {
    if !ByController(l) {
      UsersKeepKey(s, l);
    } else if Commits(s, l) {
      CommitKeepsKey(s, l);
    } else {
      assert Next(s, l).shared.hist == s.shared.hist;
    }
  }

  lemma CommitKeepsKey(s: State, l: Label)
    requires Inv(s) && Enabled(s, l) && ByController(l) && Commits(s, l)
    requires !LacksKey(s.shared) && !(l.Work? && s.worker.StripPut?)
    ensures !LacksKey(Next(s, l).shared)
  {
    CommitsAreCurrent(s, l);
    LiveStoreKeepsKey(s.shared, Submitted(s, l).value);
  }

  lemma KeyArrives(s: State, c: Choice)
    requires Inv(s) && Enabled(s, Work(c)) && Arrives(Step(s, c), StoreKey)
    ensures !LacksKey(WorkerStep(s, c).shared)
  {
    StoresSent(s, Work(c), StoreKey);
  }

  lemma AddingStays(s: State, c: Choice)
    requires Enabled(s, Work(c))
    ensures var v := WorkerStep(s, c).worker;
      && (!s.worker.Idle? && !s.worker.Fetch? && !s.worker.Remove? && !s.worker.StripPut? ==>
           !v.Fetch? && !v.Remove? && !v.StripPut?)
      && (v.InitPut? ==> s.worker.Init? || s.worker.InitPut?)
  {
  }

  lemma WorkKeepsHeld(s: State, steps: seq<Step>, c: Choice)
    requires Inv(s) && Enabled(s, Work(c)) && KeyHeld(s, steps)
    ensures KeyHeld(WorkerStep(s, c), (if s.worker.Idle? then [] else steps) + [Step(s, c)])
  {
    var before := if s.worker.Idle? then [] else steps;
    AddArrival(before, Step(s, c), StoreKey);
    AddingStays(s, c);
    NotBack(s, c, StoreKey);
    if Arrives(Step(s, c), StoreKey) {
      KeyArrives(s, c);
    } else if SomeArrives(before, StoreKey) {
      KeyLeavesByStripOnly(s, Work(c));
    }
  }

  lemma OthersKeepHeld(s: State, steps: seq<Step>, l: Label)
    requires Inv(s) && Enabled(s, l) && !l.Work? && KeyHeld(s, steps)
    ensures KeyHeld(Next(s, l), steps)
  {
    WorkerWaits(s, l);
    if SomeArrives(steps, StoreKey) {
      KeyLeavesByStripOnly(s, l);
    }
  }

  lemma {:induction false} RunKeepsHeld(run: seq<Label>)
    requires IsRun(run)
    ensures KeyHeld(After(run), SyncSteps(run))
  {
    if run != [] {
      LatestStep(run);
      var front, l := run[..|run| - 1], run[|run| - 1];
      RunKeepsHeld(front);
      if l.Work? {
        WorkKeepsHeld(After(front), SyncSteps(front), l.c);
      } else {
        OthersKeepHeld(After(front), SyncSteps(front), l);
      }
    }
  }

  /** A key that got to the store is still there when the backend is called. */
  lemma ArrivedKeyIsHeld(run: seq<Label>)
    requires IsRun(run) && SomeArrives(SyncSteps(run), StoreKey)
    ensures !LacksKey(After(run).shared)
  {
    RunKeepsHeld(run);
  }

  // ---------- a sync nobody interferes with ----------

  /** The worker took the stored version, and since then nobody else has
      changed what the store holds. */
  ghost predicate Alone(run: seq<Label>)
    requires IsRun(run)
  {
    run != [] &&
    var front, l := run[..|run| - 1], run[|run| - 1];
    var s := After(front);
    if !l.Work? then Alone(front) && After(run).shared.hist == s.shared.hist && After(run).shared.gone == s.shared.gone
    else if s.worker.Idle? then
      s.cache.Some? && s.cache.value < |s.shared.heap| && Current(s.shared, s.shared.heap[s.cache.value])
    else Alone(front)
  }

  /** A request for the key that the server got. */
  ghost predicate KeyRequested(steps: seq<Step>) {
    exists k :: 0 <= k < |steps| && steps[k].s.worker.InitPut? && steps[k].c.fate != Lost
  }

  lemma AddKeyRequest(steps: seq<Step>, step: Step)
    ensures KeyRequested(steps + [step]) <==> KeyRequested(steps) || (step.s.worker.InitPut? && step.c.fate != Lost)
  {
    var more := steps + [step];
    if KeyRequested(steps) {
      var k :| 0 <= k < |steps| && steps[k].s.worker.InitPut? && steps[k].c.fate != Lost;
      assert more[k] == steps[k];
    }
    if step.s.worker.InitPut? && step.c.fate != Lost {
      assert more[|steps|] == step;
    }
  }

  /** What is requested has arrived; until then the object stays current. */
  ghost predicate Undisputed(s: State, steps: seq<Step>) {
    && (KeyRequested(steps) ==> SomeArrives(steps, StoreKey))
    && (s.worker.Config? || s.worker.Init? || s.worker.InitPut? ==>
         SomeArrives(steps, StoreKey)
         || (s.worker.o < |s.shared.heap| && Current(s.shared, s.shared.heap[s.worker.o])))
  }

  lemma WorkKeepsUndisputed(s: State, steps: seq<Step>, c: Choice)
    requires Inv(s) && Enabled(s, Work(c))
    requires if s.worker.Idle? then s.cache.Some? && Current(s.shared, s.shared.heap[s.cache.value])
             else Undisputed(s, steps)
    ensures Undisputed(WorkerStep(s, c), (if s.worker.Idle? then [] else steps) + [Step(s, c)])
  {
    var before := if s.worker.Idle? then [] else steps;
    AddArrival(before, Step(s, c), StoreKey);
    AddKeyRequest(before, Step(s, c));
    StaysCurrent(s, c);
  }

  /** Up to the first request that gets through the object stays current. */
  lemma StaysCurrent(s: State, c: Choice)
    requires Enabled(s, Work(c))
    ensures var v := WorkerStep(s, c).worker; v.Config? || v.Init? || v.InitPut? ==>
      || (s.worker.Idle? && s.cache == Some(v.o) && WorkerStep(s, c).shared == s.shared)
      || ((s.worker.Config? || s.worker.Init? || s.worker.InitPut?) && v.o == s.worker.o
          && (Current(s.shared, s.shared.heap[v.o]) ==>
               Arrives(Step(s, c), StoreKey) || Current(WorkerStep(s, c).shared, WorkerStep(s, c).shared.heap[v.o])))
  {
    var w := s.worker;
    if (w.Config? || w.Init? || w.InitPut?) && Current(s.shared, s.shared.heap[w.o]) {
      EffectStaysCurrent(s.shared, w, c);
    }
  }

  lemma EffectStaysCurrent(g: Shared, w: Worker, c: Choice)
    requires (w.Config? || w.Init? || w.InitPut?) && w.o < |g.heap| && Current(g, g.heap[w.o])
    ensures var k := WorkerEffect(g, w, c);
      (w.InitPut? && c.fate != Lost) || (w.o < |k.heap| && Current(k, k.heap[w.o]))
  {
  }

  lemma OthersKeepUndisputed(s: State, steps: seq<Step>, l: Label)
    requires Inv(s) && Enabled(s, l) && !l.Work? && Undisputed(s, steps)
    requires Next(s, l).shared.hist == s.shared.hist && Next(s, l).shared.gone == s.shared.gone
    ensures Undisputed(Next(s, l), steps)
  {
    StepKeepsInv(s, l);
    WorkerWaits(s, l);
    if s.worker.Config? || s.worker.Init? || s.worker.InitPut? {
      assert Grown(s.shared.heap[s.worker.o], Next(s, l).shared.heap[s.worker.o]);
    }
  }

  lemma {:induction false} AloneIsUndisputed(run: seq<Label>)
    requires IsRun(run) && Alone(run)
    ensures Undisputed(After(run), SyncSteps(run))
  {
    LatestStep(run);
    var front, l := run[..|run| - 1], run[|run| - 1];
    var s := After(front);
    if !l.Work? {
      AloneIsUndisputed(front);
      OthersKeepUndisputed(s, SyncSteps(front), l);
    } else {
      if !s.worker.Idle? {
        AloneIsUndisputed(front);
      }
      WorkKeepsUndisputed(s, SyncSteps(front), l.c);
    }
  }

  /** The sync found the object without the key, and appended it. */
  ghost predicate KeyAppended(steps: seq<Step>) {
    exists k :: 0 <= k < |steps| && Appends(steps[k].s)
  }

  ghost predicate Appends(s: State) {
    s.worker.Init? && s.worker.o < |s.shared.heap| && PROVISIONER !in s.shared.heap[s.worker.o].finalizers
  }

  lemma AddAppend(steps: seq<Step>, step: Step)
    ensures KeyAppended(steps + [step]) <==> KeyAppended(steps) || Appends(step.s)
  {
    var more := steps + [step];
    if KeyAppended(steps) {
      var k :| 0 <= k < |steps| && Appends(steps[k].s);
      assert Appends(more[k].s);
    }
    if Appends(step.s) {
      assert Appends(more[|steps|].s);
    }
  }

  lemma AppendLeadsToRequest(s: State, c: Choice)
    requires Enabled(s, Work(c))
    ensures Appends(s) ==> WorkerStep(s, c).worker.InitPut?
    ensures s.worker.InitPut? ==> Sends(s, StoreKey).Some?
  {
  }

  lemma {:induction false} AppendedIsRequested(run: seq<Label>)
    requires IsRun(run) && KeyAppended(SyncSteps(run))
    ensures After(run).worker.InitPut? || Requests(SyncSteps(run), StoreKey) > 0
    decreases |run|
  {
    LatestStep(run);
    var front, l := run[..|run| - 1], run[|run| - 1];
    var s := After(front);
    if l.Work? {
      var before := if s.worker.Idle? then [] else SyncSteps(front);
      AddAppend(before, Step(s, l.c));
      AddStep(before, Step(s, l.c), StoreKey);
      AppendLeadsToRequest(s, l.c);
      if KeyAppended(before) {
        AppendedIsRequested(front);
      }
    } else {
      AppendedIsRequested(front);
      WorkerWaits(s, l);
    }
  }

  /** In a sync nobody interferes with that appended the key, the backend is
      called with the key off the store only when all three requests were lost. */
  lemma KeyBeforeBackend(run: seq<Label>)
    requires IsRun(run) && Alone(run) && After(run).worker.Backend? && KeyAppended(SyncSteps(run))
    ensures !LacksKey(After(run).shared)
      || (Requests(SyncSteps(run), StoreKey) == 3 && !KeyRequested(SyncSteps(run)))
  {
    AppendedIsRequested(run);
    AloneIsUndisputed(run);
    RunKeepsHeld(run);
    TriesUntilAnsweredOrThree(run, StoreKey);
    if SomeAnswered(SyncSteps(run), StoreKey) {
      var k :| 0 <= k < |SyncSteps(run)| && Answered(SyncSteps(run)[k], StoreKey);
      assert Arrives(SyncSteps(run)[k], StoreKey);
    }
  }
}
