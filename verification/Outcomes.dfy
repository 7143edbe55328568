/** What a sync or an activation comes to, said of what it met on its way: when
    a sync fails, what a Ready condition stands for, what an annotation says, and
    when a Kubeconfig is written. */
module Outcomes {
  import opened Objects
  import opened Machine
  import opened Invariant
  import opened Preservation
  import opened Safety
  import opened Steps
  import opened Attempts

  // ---------- the result of a sync ----------

  /** A step that meets what the sync has to fail for: no object in the cache, an
      unreadable file, a refused backend call or a fetch without an answer. */
  ghost predicate Fails(step: Step) {
    match step.s.worker
    case Idle => step.s.cache.None?
    case Config(_) => step.c.file.None?
    case Backend(_, _) => !step.c.ok
    case Fetch(_) => step.c.fate != Delivered
    case Remove(_, _) => !step.c.ok
    case _ => false
  }

  ghost predicate SomeFails(steps: seq<Step>) {
    exists k :: 0 <= k < |steps| && Fails(steps[k])
  }

  /** All three requests to take the key off went unanswered. */
  ghost predicate StripGivenUp(steps: seq<Step>) {
    Requests(steps, StripKey) == 3 && !SomeAnswered(steps, StripKey)
  }

  /** Nothing else makes a sync fail: not the three lost requests of
      `initialize` or `updateAppliedConfig`, not an unchanged file, and not a
      cluster that is gone or finalized already. */
  ghost predicate SyncFailed(steps: seq<Step>) {
    SomeFails(steps) || StripGivenUp(steps)
  }

  /** The worker is bound to report a failure. */
  predicate Failing(w: Worker) {
    (w.Returned? && w.failed) || (w.DoEnd? && !w.ok)
  }

  lemma AddFailure(steps: seq<Step>, step: Step)
    ensures SomeFails(steps + [step]) <==> SomeFails(steps) || Fails(step)
  {
    var more := steps + [step];
    if SomeFails(steps) {
      var k :| 0 <= k < |steps| && Fails(steps[k]);
      assert Fails(more[k]);
    }
    if Fails(step) {
      assert Fails(more[|steps|]);
    }
  }

  lemma VerdictMoves(s: State, c: Choice)
    requires Enabled(s, Work(c)) && !s.worker.Returned?
    ensures var w, v, step := s.worker, WorkerStep(s, c).worker, Step(s, c);
      && !v.Idle?
      && Failing(v) == (Failing(w) || Fails(step) || (w.StripPut? && !Answered(step, StripKey) && w.tries >= 2))
      && (w.StripPut? && !v.StripPut? ==> Answered(step, StripKey) || w.tries >= 2)
  {
  }

  /** The step with which a strip is given up is the third request. */
  lemma GivesUp(s: State, steps: seq<Step>, c: Choice)
    requires Enabled(s, Work(c)) && LoopOk(s, steps, StripKey)
    ensures var step := Step(s, c); StripGivenUp(steps + [step]) <==>
      if s.worker.StripPut? then !Answered(step, StripKey) && s.worker.tries >= 2 else StripGivenUp(steps)
  {
    AddStep(steps, Step(s, c), StripKey);
  }

  lemma WorkKeepsVerdict(s: State, steps: seq<Step>, c: Choice)
    requires Enabled(s, Work(c)) && !s.worker.Returned?
    requires !s.worker.Idle? ==> LoopOk(s, steps, StripKey) && (SyncFailed(steps) <==> Failing(s.worker))
    ensures var more := (if s.worker.Idle? then [] else steps) + [Step(s, c)];
      SyncFailed(more) <==> Failing(WorkerStep(s, c).worker)
  {
    var before := if s.worker.Idle? then [] else steps;
    AddFailure(before, Step(s, c));
    AddStep(before, Step(s, c), StripKey);
    VerdictMoves(s, c);
    if !s.worker.Idle? {
      GivesUp(s, steps, c);
    }
  }

  lemma {:induction false} RunKeepsVerdict(run: seq<Label>)
    requires IsRun(run) && !After(run).worker.Idle?
    ensures SyncFailed(SyncSteps(run)) <==> Failing(After(run).worker)
  {
    LatestStep(run);
    var front, l := run[..|run| - 1], run[|run| - 1];
    var s := After(front);
    if l.Work? {
      if !s.worker.Idle? {
        ReturnedGoesIdle(s, l.c);
        RunKeepsVerdict(front);
        RunKeepsLoop(front, StripKey);
      }
      WorkKeepsVerdict(s, SyncSteps(front), l.c);
    } else {
      WorkerWaits(s, l);
      RunKeepsVerdict(front);
    }
  }

  lemma ReturnedGoesIdle(s: State, c: Choice)
    requires Enabled(s, Work(c))
    ensures s.worker.Returned? ==> WorkerStep(s, c).worker.Idle?
    ensures s.worker.Returned? ==> WorkerStep(s, c).dirty == (s.dirty || s.worker.failed)
  {
  }

  /** Exactly when a key is put back: with its last step the worker queues the
      key if and only if the sync has failed, and otherwise leaves the queue as
      it is. */
  lemma PutBackIffFailed(run: seq<Label>, j: nat)
    requires IsRun(run) && j < |run| && StepAt(run, j) && run[j].Work? && After(run[..j]).worker.Returned?
    ensures IsRun(run[..j + 1]) && After(run[..j + 1]).worker.Idle?
    ensures After(run[..j + 1]).dirty <==> After(run[..j]).dirty || SyncFailed(SyncSteps(run[..j]))
  {
    LastStepAt(run, j);
    RunKeepsVerdict(run[..j]);
  }

  lemma FetchEnds(s: State, c: Choice)
    requires Enabled(s, Work(c)) && s.worker.Fetch? && c.fate == Delivered && LacksKey(s.shared)
    ensures WorkerStep(s, c).worker == Returned(Some(s.worker.o), false)
  {
  }

  lemma {:induction false} WorkerWaitsUntil(run: seq<Label>, i: nat, j: nat)
    requires IsRun(run) && i <= j <= |run| && IsRun(run[..i]) && IsRun(run[..j])
    requires forall k :: i <= k < j ==> !run[k].Work?
    ensures After(run[..j]).worker == After(run[..i]).worker
    decreases j
  {
    if i < j {
      RunPrefix(run, j - 1);
      WorkerWaitsUntil(run, i, j - 1);
      WorkerWaitsAt(run, j - 1);
    }
  }

  lemma WorkerWaitsAt(run: seq<Label>, j: nat)
    requires IsRun(run) && j < |run| && !run[j].Work?
    ensures IsRun(run[..j]) && IsRun(run[..j + 1]) && After(run[..j + 1]).worker == After(run[..j]).worker
  {
    PrefixStep(run, j);
    WorkerWaits(After(run[..j]), run[j]);
  }

  /** A cluster that is gone, or that has lost the key already, is done with: a
      sync of a marked object whose fetch is answered by such a store ends with
      the worker's next step, and that step does not queue the key. */
  lemma NothingToCleanUp(run: seq<Label>, i: nat, j: nat)
    requires IsRun(run) && i < j < |run| && StepAt(run, i) && StepAt(run, j)
    requires run[i].Work? && After(run[..i]).worker.Fetch?
    requires run[i].c.fate == Delivered && LacksKey(After(run[..i]).shared)
    requires run[j].Work? && forall k :: i < k < j ==> !run[k].Work?
    ensures IsRun(run[..j + 1]) && After(run[..j + 1]).worker.Idle?
    ensures After(run[..j + 1]).dirty == After(run[..j]).dirty
  {
    FetchEndsAt(run, i);
    WorkerWaitsUntil(run, i + 1, j);
    LastStepAt(run, j);
  }

  lemma FetchEndsAt(run: seq<Label>, i: nat)
    requires IsRun(run) && i < |run| && StepAt(run, i) && run[i].Work? && After(run[..i]).worker.Fetch?
    requires run[i].c.fate == Delivered && LacksKey(After(run[..i]).shared)
    ensures IsRun(run[..i + 1])
    ensures After(run[..i + 1]).worker == Returned(Some(After(run[..i]).worker.o), false)
  {
    PrefixStep(run, i);
    FetchEnds(After(run[..i]), run[i].c);
  }

  lemma LastStepAt(run: seq<Label>, j: nat)
    requires IsRun(run) && j < |run| && StepAt(run, j) && run[j].Work? && After(run[..j]).worker.Returned?
    ensures IsRun(run[..j + 1]) && After(run[..j + 1]).worker.Idle?
    ensures After(run[..j + 1]).dirty == (After(run[..j]).dirty || After(run[..j]).worker.failed)
  {
    PrefixStep(run, j);
    ReturnedGoesIdle(After(run[..j]), run[j].c);
  }

  // ---------- while the backend is called ----------

  /** Nobody sees a cluster as provisioned while its backend call is out: the
      object in memory says Unknown, or False if it did before. */
  ghost predicate SaysPending(s: State) {
    var w := s.worker;
    w.Backend? || w.DoEnd? ==> w.o < |s.shared.heap| && !IsTrue(s.shared.heap[w.o], Provisioned)
  }

  lemma HandlersKeepPending(s: State, h: nat, c: Choice)
    requires Enabled(s, Handle(h, c)) && SaysPending(s)
    ensures SaysPending(HandlerStep(s, h, c))
  {
  }

  lemma StepKeepsPending(s: State, l: Label)
    requires Inv(s) && Enabled(s, l) && SaysPending(s)
    ensures SaysPending(Next(s, l))
  {
    if l.Handle? {
      HandlersKeepPending(s, l.h, l.c);
    } else if l.Work? {
      WorkKeepsPending(s, l.c);
    } else {
      RestKeepsPending(s, l);
    }
  }

  lemma WorkKeepsPending(s: State, c: Choice)
    requires Enabled(s, Work(c)) && SaysPending(s)
    ensures SaysPending(WorkerStep(s, c))
  {
  }

  lemma RestKeepsPending(s: State, l: Label)
    requires Enabled(s, l) && !l.Work? && !l.Handle? && SaysPending(s)
    ensures SaysPending(Next(s, l))
  {
  }

  lemma {:induction false} NotProvisionedMeanwhile(run: seq<Label>)
    requires IsRun(run)
    ensures SaysPending(After(run))
  {
    if run != [] {
      LatestStep(run);
      NotProvisionedMeanwhile(run[..|run| - 1]);
      StepKeepsPending(After(run[..|run| - 1]), run[|run| - 1]);
    }
  }

  // ---------- the health check ----------

  /** Step i of the run is a health check, and it passed or not: it passes when
      there is no Kubeconfig or the server answers, not when the fetch fails. */
  ghost predicate CheckedAt(run: seq<Label>, i: nat, passed: bool) {
    && StepAt(run, i) && run[i].Handle?
    && var s, h, c := After(run[..i]), run[i].h, run[i].c;
      && h < |s.handlers| && s.handlers[h].HealthProbe?
      && (passed <==> c.fate == Delivered && (s.kube.None? || c.ok))
  }

  lemma WhoChecks(s: State, l: Label, passed: bool)
    requires Enabled(s, l) && Checked(passed) !in s.shared.log && Checked(passed) in Next(s, l).shared.log
    ensures l.Handle? && s.handlers[l.h].HealthProbe?
    ensures passed <==> l.c.fate == Delivered && (s.kube.None? || l.c.ok)
  {
  }

  lemma {:induction false} CheckHappened(run: seq<Label>, passed: bool) returns (i: nat)
    requires IsRun(run) && Checked(passed) in After(run).shared.log
    ensures CheckedAt(run, i, passed)
  {
    LatestStep(run);
    var front, l := run[..|run| - 1], run[|run| - 1];
    if Checked(passed) in After(front).shared.log {
      i := CheckHappened(front, passed);
      CheckedEarlier(front, run, i, passed);
    } else {
      i := |front|;
      WhoChecks(After(front), l, passed);
    }
  }

  lemma CheckedEarlier(front: seq<Label>, run: seq<Label>, i: nat, passed: bool)
    requires front <= run && CheckedAt(front, i, passed)
    ensures CheckedAt(run, i, passed)
  {
    assert run[..i] == front[..i] && run[i] == front[i];
  }

  /** Ready True on any copy comes after a check that passed, Ready False after
      one that did not. */
  lemma ReadyHasCause(run: seq<Label>, c: Cluster, passed: bool)
    requires IsRun(run) && IsCopy(After(run), c)
    requires GetStatus(c.conditions, Ready) == Some(if passed then True else False)
    ensures exists i :: CheckedAt(run, i, passed)
  {
    CopyFacts(run, c);
    var i := CheckHappened(run, passed);
  }

  // ---------- the annotation ----------

  /** The version an activation got: the server's answer to its question, and ""
      if it got none or did not ask. */
  ghost function Obtained(steps: seq<Step>, h: nat): string {
    if steps == [] then ""
    else
      var last := steps[|steps| - 1];
      if HandlerAt(last.s, h).AnnotDiscover? then if last.c.ok then last.c.text else ""
      else Obtained(steps[..|steps| - 1], h)
  }

  /** A step that looked for the Kubeconfig and got an answer. */
  ghost predicate Fetches(step: Step, h: nat) {
    (HandlerAt(step.s, h).AnnotGet? || HandlerAt(step.s, h).GenGet?) && step.c.fate == Delivered
  }

  /** One step found the Kubeconfig. */
  ghost predicate Found(steps: seq<Step>, h: nat) {
    exists k :: 0 <= k < |steps| && Fetches(steps[k], h) && steps[k].s.kube.Some?
  }

  /** One step found that there was none. */
  ghost predicate Missed(steps: seq<Step>, h: nat) {
    exists k :: 0 <= k < |steps| && Fetches(steps[k], h) && steps[k].s.kube.None?
  }

  /** One step found a Kubeconfig which is `kube` but for its path. */
  ghost predicate FoundOther(steps: seq<Step>, h: nat, kube: Kubeconfig) {
    exists k :: 0 <= k < |steps| && Fetches(steps[k], h) && steps[k].s.kube.Some?
      && steps[k].s.kube.value.path != kube.path && kube == steps[k].s.kube.value.(path := kube.path)
  }

  /** One step compared the versions, and `u` is the object it saw with the
      version written into it. */
  ghost predicate Copied(steps: seq<Step>, h: nat, u: Cluster, version: string) {
    exists k :: 0 <= k < |steps| && CopiedAt(steps[k], h, u, version)
  }

  ghost predicate CopiedAt(step: Step, h: nat, u: Cluster, version: string) {
    && HandlerAt(step.s, h).AnnotCompare? && HandlerAt(step.s, h).o < |step.s.shared.heap|
    && var c := step.s.shared.heap[HandlerAt(step.s, h).o];
      u == c.(annotations := c.annotations["clusterprovisioner.rke.io/kubernetes-version" := version])
      && Version(c) != version
  }

  /** What an activation is about to do is what it was told. */
  ghost predicate Told(p: Handler, steps: seq<Step>, h: nat) {
    match p
    case HealthBegin(_) => steps == []
    case AnnotGet(_) => steps == []
    case GenGet(_) => steps == []
    case AnnotDiscover(_) => Found(steps, h)
    case AnnotCompare(_, version) => version == Obtained(steps, h)
    case AnnotPut(u, _) => Copied(steps, h, u, Obtained(steps, h))
    case GenCreate(_) => Missed(steps, h)
    case GenUpdate(k) => FoundOther(steps, h, k)
    case _ => true
  }

  lemma AddTold(steps: seq<Step>, step: Step, h: nat)
    ensures var more := steps + [step];
      && Obtained(more, h) ==
           (if HandlerAt(step.s, h).AnnotDiscover? then if step.c.ok then step.c.text else "" else Obtained(steps, h))
      && (Fetches(step, h) && step.s.kube.Some? ==> Found(more, h))
      && (Fetches(step, h) && step.s.kube.None? ==> Missed(more, h))
  {
    var more := steps + [step];
    assert more[..|steps|] == steps;
    assert more[|steps|] == step;
  }

  lemma CopiedStays(steps: seq<Step>, step: Step, h: nat, u: Cluster, version: string)
    requires Copied(steps, h, u, version) || CopiedAt(step, h, u, version)
    ensures Copied(steps + [step], h, u, version)
  {
    var more := steps + [step];
    if CopiedAt(step, h, u, version) {
      assert CopiedAt(more[|steps|], h, u, version);
    } else {
      var k :| 0 <= k < |steps| && CopiedAt(steps[k], h, u, version);
      assert CopiedAt(more[k], h, u, version);
    }
  }

  lemma FoundOtherNow(steps: seq<Step>, step: Step, h: nat, kube: Kubeconfig)
    requires Fetches(step, h) && step.s.kube.Some?
    requires step.s.kube.value.path != kube.path && kube == step.s.kube.value.(path := kube.path)
    ensures FoundOther(steps + [step], h, kube)
  {
    assert (steps + [step])[|steps|] == step;
  }

  lemma StepTells(s: State, steps: seq<Step>, h: nat, c: Choice)
    requires Enabled(s, Handle(h, c)) && Told(s.handlers[h], steps, h)
    ensures Told(HandlerNext(s.shared, s.handlers[h], s.kube, c), steps + [Step(s, c)], h)
  {
    var p, step := s.handlers[h], Step(s, c);
    var q := HandlerNext(s.shared, p, s.kube, c);
    AddTold(steps, step, h);
    if q.AnnotPut? {
      if p.AnnotCompare? {
        CopiedStays(steps, step, h, q.u, p.version);
      } else {
        CopiedStays(steps, step, h, q.u, Obtained(steps, h));
      }
    }
    if q.GenUpdate? {
      FoundOtherNow(steps, step, h, q.k);
    }
  }

  lemma {:induction false} RunKeepsTold(run: seq<Label>, h: nat)
    requires IsRun(run)
    ensures h >= |After(run).handlers| ==> ActivationSteps(run, h) == []
    ensures Told(HandlerAt(After(run), h), ActivationSteps(run, h), h)
  {
    if run != [] {
      LatestStep(run);
      var front, l := run[..|run| - 1], run[|run| - 1];
      RunKeepsTold(front, h);
      if l.Handle? && l.h == h {
        StepTells(After(front), ActivationSteps(front, h), h, l.c);
      } else {
        ActivationStays(After(front), l, h);
      }
    }
  }

  // ---------- annotations over all runs ----------

  /** Nobody writes annotations in memory, and the annotator's copy differs in
      the version alone. */
  ghost predicate AnnotationsOk(s: State) {
    && (forall o :: 0 <= o < |s.shared.heap| ==> KeepsAnnotations(s.shared.hist, s.shared.heap[o]))
    && (forall h :: 0 <= h < |s.handlers| && s.handlers[h].AnnotPut? ==> AddsVersion(s.shared.hist, s.handlers[h].u))
  }

  ghost predicate KeepsAnnotations(hist: seq<Cluster>, c: Cluster) {
    c.rv < |hist| && c.annotations == hist[c.rv].annotations
  }

  ghost predicate AddsVersion(hist: seq<Cluster>, u: Cluster) {
    u.rv < |hist| && u.annotations == hist[u.rv].annotations[VERSION_KEY := Version(u)]
  }

  lemma StepKeepsAnnotations(s: State, l: Label)
    requires Inv(s) && Enabled(s, l) && AnnotationsOk(s)
    ensures AnnotationsOk(Next(s, l))
  {
    var t := Next(s, l);
    StepKeepsInv(s, l);
    forall o | 0 <= o < |t.shared.heap| ensures KeepsAnnotations(t.shared.hist, t.shared.heap[o]) {
      if o < |s.shared.heap| {
        assert Grown(s.shared.heap[o], t.shared.heap[o]);
        assert KeepsAnnotations(s.shared.hist, s.shared.heap[o]);
      } else {
        NewObject(s, l);
      }
    }
    forall h | 0 <= h < |t.handlers| && t.handlers[h].AnnotPut? ensures AddsVersion(t.shared.hist, t.handlers[h].u) {
      CopyKeepsAnnotations(s, l, h);
    }
  }

  lemma NewObject(s: State, l: Label)
    requires Versioned(s.shared.hist) && Enabled(s, l) && |Next(s, l).shared.heap| > |s.shared.heap|
    ensures l.Refresh? && Next(s, l).shared.heap == s.shared.heap + [s.shared.hist[l.v]]
    ensures s.shared.hist[l.v].rv == l.v && Next(s, l).shared.hist == s.shared.hist
  {
  }

  lemma CopyKeepsAnnotations(s: State, l: Label, h: nat)
    requires Inv(s) && Enabled(s, l) && AnnotationsOk(s) && s.shared.hist <= Next(s, l).shared.hist
    requires h < |Next(s, l).handlers| && Next(s, l).handlers[h].AnnotPut?
    ensures AddsVersion(Next(s, l).shared.hist, Next(s, l).handlers[h].u)
  {
    if l.Handle? && l.h == h {
      NewCopy(s, h, l.c);
    } else {
      ActivationStays(s, l, h);
    }
  }

  lemma NewCopy(s: State, h: nat, c: Choice)
    requires Enabled(s, Handle(h, c)) && AnnotationsOk(s)
    requires HandlerNext(s.shared, s.handlers[h], s.kube, c).AnnotPut?
    ensures AddsVersion(s.shared.hist, HandlerNext(s.shared, s.handlers[h], s.kube, c).u)
  {
    var p := s.handlers[h];
    if p.AnnotCompare? {
      assert KeepsAnnotations(s.shared.hist, s.shared.heap[p.o]);
    }
  }

  lemma {:induction false} RunKeepsAnnotations(run: seq<Label>)
    requires IsRun(run)
    ensures AnnotationsOk(After(run))
  {
    if run != [] {
      LatestStep(run);
      RunKeepsAnnotations(run[..|run| - 1]);
      StepKeepsAnnotations(After(run[..|run| - 1]), run[|run| - 1]);
    }
  }

  /** Nobody but the annotator changes annotations, and it changes the version
      alone, to what this activation obtained. Whatever else its commit changes
      was on the object in memory when it compared the versions. */
  lemma AnnotationsChange(run: seq<Label>, l: Label)
    requires IsRun(run) && Enabled(After(run), l) && ByController(l) && Commits(After(run), l)
    requires !Next(After(run), l).shared.gone
    ensures var s, t := After(run), Next(After(run), l);
      && Live(s.shared) && Live(t.shared)
      && var before, after := Last(s.shared), Last(t.shared);
        if l.Handle? && s.handlers[l.h].AnnotPut? then
          var steps := ActivationSteps(run, l.h);
          && after.annotations ==
               before.annotations["clusterprovisioner.rke.io/kubernetes-version" := Obtained(steps, l.h)]
          && Copied(steps, l.h, after.(rv := before.rv), Obtained(steps, l.h))
        else after.annotations == before.annotations
  {
    RunKeepsInv(run);
    RunKeepsAnnotations(run);
    CommitsAreCurrent(After(run), l);
    if l.Handle? {
      RunKeepsTold(run, l.h);
    }
    CommitAnnotates(After(run), l);
  }

  lemma CommitAnnotates(s: State, l: Label)
    requires Inv(s) && Enabled(s, l) && ByController(l) && Commits(s, l) && AnnotationsOk(s)
    requires !Next(s, l).shared.gone
    ensures Live(s.shared) && Live(Next(s, l).shared)
    ensures var before, after := Last(s.shared), Last(Next(s, l).shared);
      if l.Handle? && s.handlers[l.h].AnnotPut? then
        && after.(rv := before.rv) == s.handlers[l.h].u
        && after.annotations == before.annotations[VERSION_KEY := Version(s.handlers[l.h].u)]
      else after.annotations == before.annotations
  {
    CommitSends(s, l);
    SentIsStored(s, l, Submitted(s, l).value);
  }

  lemma CommitSends(s: State, l: Label)
    requires Inv(s) && Enabled(s, l) && ByController(l) && Commits(s, l)
    ensures Submitted(s, l).Some?
    ensures var sent := Submitted(s, l).value;
      && Current(s.shared, sent) && Last(s.shared).rv == sent.rv
      && Next(s, l).shared == Store(s.shared, sent)
    ensures l.Work? && s.worker.StripPut? ==> StripCopy(s.shared.hist, s.shared.log, s.worker.u)
  {
    CommitsAreCurrent(s, l);
  }

  lemma SentIsStored(s: State, l: Label, sent: Cluster)
    requires Enabled(s, l) && Submitted(s, l) == Some(sent) && AnnotationsOk(s)
    requires Current(s.shared, sent) && Last(s.shared).rv == sent.rv && !Store(s.shared, sent).gone
    requires l.Work? && s.worker.StripPut? ==> StripCopy(s.shared.hist, s.shared.log, s.worker.u)
    ensures Live(Store(s.shared, sent))
    ensures var before, after := Last(s.shared), Last(Store(s.shared, sent));
      if l.Handle? && s.handlers[l.h].AnnotPut? then
        && after.(rv := before.rv) == s.handlers[l.h].u
        && after.annotations == before.annotations[VERSION_KEY := Version(s.handlers[l.h].u)]
      else after.annotations == before.annotations
  {
    if l.Handle? && s.handlers[l.h].AnnotPut? {
      assert AddsVersion(s.shared.hist, s.handlers[l.h].u);
    } else {
      SentAnnotations(s, l);
    }
    StoredAnnotations(s.shared, sent);
  }

  lemma SentAnnotations(s: State, l: Label)
    requires Enabled(s, l) && AnnotationsOk(s) && Submitted(s, l).Some?
    requires !(l.Handle? && s.handlers[l.h].AnnotPut?)
    requires l.Work? && s.worker.StripPut? ==> StripCopy(s.shared.hist, s.shared.log, s.worker.u)
    ensures KeepsAnnotations(s.shared.hist, Submitted(s, l).value)
  {
    if !(l.Work? && s.worker.StripPut?) {
      SentKeepsAnnotations(s, l);
    }
  }

  lemma StoredAnnotations(g: Shared, c: Cluster)
    requires Current(g, c) && !Store(g, c).gone && c.rv < |g.hist|
    ensures Live(Store(g, c))
    ensures var before, after := Last(g), Last(Store(g, c));
      && after.(rv := c.rv) == c && (before.rv == c.rv ==> after.(rv := before.rv) == c)
      && (KeepsAnnotations(g.hist, c) ==> after.annotations == before.annotations)
      && (AddsVersion(g.hist, c) ==> after.annotations == before.annotations[VERSION_KEY := Version(c)])
  {
  }

  /** What is sent from memory carries the annotations of its version. */
  lemma SentKeepsAnnotations(s: State, l: Label)
    requires AnnotationsOk(s) && Enabled(s, l) && Submitted(s, l).Some?
    requires !(l.Handle? && s.handlers[l.h].AnnotPut?) && !(l.Work? && s.worker.StripPut?)
    ensures KeepsAnnotations(s.shared.hist, Submitted(s, l).value)
  {
  }

  // ---------- Kubeconfigs ----------

  /** A Kubeconfig is created only by an activation whose fetch was answered with
      none, and updated only by one whose fetch was answered with one of another
      path; an activation without an answer writes none. */
  lemma KubeconfigWritesAreTold(run: seq<Label>, h: nat, c: Choice)
    requires IsRun(run) && Enabled(After(run), Handle(h, c)) && Next(After(run), Handle(h, c)).kube != After(run).kube
    ensures var p, steps := After(run).handlers[h], ActivationSteps(run, h);
      (p.GenCreate? && After(run).kube.None? && Missed(steps, h))
      || (p.GenUpdate? && After(run).kube.Some? && FoundOther(steps, h, p.k))
  {
    RunKeepsTold(run, h);
  }
}
