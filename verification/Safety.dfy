/** What holds in every run of the operator, whatever the interleaving, the
    faults, the stale or regressing cache, and the users. */
module Safety {
  import opened Objects
  import opened Machine
  import opened Invariant
  import opened Preservation

  /** Every content of the cluster that exists anywhere: stored, in memory,
      deep-copied by the annotator, fetched by the provisioner. */
  ghost predicate IsCopy(s: State, c: Cluster) {
    || c in s.shared.hist
    || c in s.shared.heap
    || (exists h :: 0 <= h < |s.handlers| && s.handlers[h].AnnotPut? && s.handlers[h].u == c)
    || (s.worker.Remove? && s.worker.u == c)
    || (s.worker.StripPut? && s.worker.u == c)
  }

  /** The object as its creator wrote it. */
  ghost function Origin(g: Shared): Cluster
    requires g.hist != []
  {
    g.hist[0]
  }

  ghost predicate Sound(g: Shared, c: Cluster) {
    g.hist != [] && Fact(c, g.log, g.hist[0]) && LogOk(g.log)
  }

  lemma SharedCopyFacts(g: Shared, c: Cluster)
    requires Ground(g) && (c in g.hist || c in g.heap)
    ensures Sound(g, c)
  {
    if c in g.heap {
      var o :| 0 <= o < |g.heap| && g.heap[o] == c;
      assert LiveCopy(g.hist, g.log, g.heap[o]);
    }
  }

  lemma WorkerCopyFacts(g: Shared, w: Worker)
    requires Ground(g) && WorkerOk(g, w) && (w.Remove? || w.StripPut?)
    ensures Sound(g, w.u)
  {
    if w.StripPut? {
      StripFact(g.hist[w.u.rv], g.log, g.hist[0]);
    }
  }

  lemma CopyFacts(run: seq<Label>, c: Cluster)
    requires IsRun(run) && IsCopy(After(run), c)
    ensures Sound(After(run).shared, c)
  {
    RunKeepsInv(run);
    var s := After(run);
    if c in s.shared.hist || c in s.shared.heap {
      SharedCopyFacts(s.shared, c);
    } else if h :| 0 <= h < |s.handlers| && s.handlers[h].AnnotPut? && s.handlers[h].u == c {
      assert HandlerOk(s.shared, s.handlers[h]);
    } else {
      WorkerCopyFacts(s.shared, s.worker);
    }
  }

  // ---------- finalizers and the backend ----------

  /** Finalizer travels with the record. */
  lemma FinalizerTravels(run: seq<Label>, c: Cluster)
    requires IsRun(run) && IsCopy(After(run), c)
    requires Touched(c) || (After(run).shared.hist != [] && c.applied != Origin(After(run).shared).applied)
    ensures PROVISIONER in c.finalizers || (c.marked && RemovedOk(After(run).shared.log))
  {
    CopyFacts(run, c);
  }

  /** No orphaned backend: once any stored version carried a Provisioned
      condition or a recorded config, the object is not gone before a cleanup
      of the backend has succeeded. */
  lemma NoOrphan(run: seq<Label>, i: nat)
    requires IsRun(run) && i < |After(run).shared.hist| && After(run).shared.gone
    requires var g := After(run).shared; Touched(g.hist[i]) || g.hist[i].applied != Origin(g).applied
    ensures RemovedOk(After(run).shared.log)
  {
    RunKeepsInv(run);
    var g := After(run).shared;
    assert Fact(g.hist[i], g.log, g.hist[0]);
    assert Touched(g.hist[|g.hist| - 1]);
  }

  /** What `updateAppliedConfig` gets into the store carries a Provisioned
      condition, so the two results around this one cover it. */
  lemma RecordedIsTouched(run: seq<Label>, c: Choice)
    requires IsRun(run) && After(run).worker.RecordPut? && Enabled(After(run), Work(c)) && Commits(After(run), Work(c))
    ensures var k := Next(After(run), Work(c)).shared; !k.gone && Touched(Last(k)) && PROVISIONER in Last(k).finalizers
  {
    RunKeepsInv(run);
    CommitsAreCurrent(After(run), Work(c));
  }

  /** `initialize` never makes a second occurrence of the key: no copy has
      two unless the object was created with as many. */
  lemma KeyOccursOnce(run: seq<Label>, c: Cluster)
    requires IsRun(run) && IsCopy(After(run), c)
    ensures After(run).shared.hist != []
    ensures var first := Origin(After(run).shared);
      || Occurs(c.finalizers, PROVISIONER) <= 1
      || Occurs(c.finalizers, PROVISIONER) <= Occurs(first.finalizers, PROVISIONER)
  {
    CopyFacts(run, c);
  }

  // ---------- where the status comes from ----------

  ghost predicate ProvisionBefore(log: seq<Event>, k: nat) {
    exists i, a, p :: 0 <= i < k <= |log| && log[i] == ProvisionCall(a, p, true)
  }

  ghost predicate SeenBefore(log: seq<Event>, e: Event, k: nat) {
    exists i :: 0 <= i < k <= |log| && log[i] == e && ProvisionBefore(log, i)
  }

  lemma ProvisionIsBefore(log: seq<Event>, k: nat)
    requires k <= |log| && ProvisionedOk(log[..k])
    ensures ProvisionBefore(log, k)
  {
    var a, p :| ProvisionCall(a, p, true) in log[..k];
    var i :| 0 <= i < k && log[..k][i] == ProvisionCall(a, p, true);
    assert log[i] == ProvisionCall(a, p, true);
  }

  lemma SeenIsBefore(log: seq<Event>, k: nat)
    requires LogOk(log) && k <= |log| && SawProvisioned in log[..k]
    ensures SeenBefore(log, SawProvisioned, k)
  {
    var i :| 0 <= i < k && log[..k][i] == SawProvisioned;
    assert log[i] == SawProvisioned;
    assert Explained(log[..i], log[i]);
    ProvisionIsBefore(log, i);
  }

  /** Event `e` happened, after someone saw a Provisioned copy. */
  ghost predicate AfterSeen(log: seq<Event>, e: Event) {
    exists i :: 0 <= i < |log| && log[i] == e && SeenBefore(log, SawProvisioned, i)
  }

  lemma EventAfterSeen(log: seq<Event>, e: Event)
    requires LogOk(log) && e in log && (e == SawReady || e == SawKubeconfig)
    ensures AfterSeen(log, e)
  {
    var i :| 0 <= i < |log| && log[i] == e;
    assert Explained(log[..i], log[i]);
    SeenIsBefore(log, i);
  }

  lemma CausesOf(log: seq<Event>)
    requires LogOk(log)
    ensures ProvisionedOk(log) ==> ProvisionBefore(log, |log|)
    ensures SawProvisioned in log ==> SeenBefore(log, SawProvisioned, |log|)
  {
    assert log[..|log|] == log;
    if ProvisionedOk(log) {
      ProvisionIsBefore(log, |log|);
    }
    if SawProvisioned in log {
      SeenIsBefore(log, |log|);
    }
  }

  /** Causal pipeline. A Provisioned-true copy comes after a successful
      provision call; a Ready condition after someone saw such a copy; a
      version annotation after a Ready one and a Kubeconfig were seen, each of
      them after a Provisioned copy was seen, after a provision call. */
  lemma CausalPipeline(run: seq<Label>, c: Cluster)
    requires IsRun(run) && IsCopy(After(run), c)
    ensures var log := After(run).shared.log;
      && (IsTrue(c, Provisioned) ==> ProvisionBefore(log, |log|))
      && (GetStatus(c.conditions, Ready).Some? ==> SeenBefore(log, SawProvisioned, |log|))
      && (Version(c) != "" ==> AfterSeen(log, SawReady) && AfterSeen(log, SawKubeconfig))
  {
    CopyFacts(run, c);
    var log := After(run).shared.log;
    CausesOf(log);
    if Version(c) != "" {
      EventAfterSeen(log, SawReady);
      EventAfterSeen(log, SawKubeconfig);
    }
  }

  /** A Kubeconfig exists only after a Provisioned copy was seen. */
  lemma KubeconfigHasCause(run: seq<Label>)
    requires IsRun(run) && After(run).kube.Some?
    ensures SeenBefore(After(run).shared.log, SawProvisioned, |After(run).shared.log|)
  {
    RunKeepsInv(run);
    CausesOf(After(run).shared.log);
  }

  // ---------- writes ----------

  /** The object a controller step sends to the store. */
  ghost function Submitted(s: State, l: Label): Option<Cluster>
    requires Enabled(s, l)
  {
    match l
    case Work(_) =>
      (match s.worker
       case InitPut(o, _, _) => Some(s.shared.heap[o])
       case RecordPut(o, _, _) => Some(s.shared.heap[o])
       case StripPut(_, u, _) => Some(u)
       case _ => None)
    case Handle(h, _) =>
      (match s.handlers[h]
       case HealthPut(o, _) => Some(s.shared.heap[o])
       case AnnotPut(u, _) => Some(u)
       case _ => None)
    case _ => None
  }

  /** The step changed what the store holds. */
  ghost predicate Commits(s: State, l: Label)
    requires Enabled(s, l)
  {
    Next(s, l).shared.hist != s.shared.hist || Next(s, l).shared.gone != s.shared.gone
  }

  /** A controller changes the store only by submitting an object made from
      the current version. */
  lemma CommitsAreCurrent(s: State, l: Label)
    requires Inv(s) && Enabled(s, l) && ByController(l) && Commits(s, l)
    ensures Submitted(s, l).Some? && Current(s.shared, Submitted(s, l).value)
    ensures Next(s, l).shared == Store(s.shared, Submitted(s, l).value)
    ensures LiveCopy(s.shared.hist, s.shared.log, Submitted(s, l).value)
         || (l.Work? && s.worker.StripPut? && StripCopy(s.shared.hist, s.shared.log, Submitted(s, l).value))
  {
    match l
    case Work(c) => WorkerSubmits(s.shared, s.worker, c);
    case Handle(h, c) =>
      assert HandlerOk(s.shared, s.handlers[h]);
      HandlerSubmits(s.shared, s.handlers[h], s.kube, c);
  }

  lemma WorkerSubmits(g: Shared, w: Worker, c: Choice)
    requires Ground(g) && WorkerOk(g, w) && InHeap(g, WorkerObject(w))
    requires WorkerEffect(g, w, c).hist != g.hist || WorkerEffect(g, w, c).gone != g.gone
    ensures w.InitPut? || w.RecordPut? || w.StripPut?
    ensures var u := if w.StripPut? then w.u else g.heap[w.o];
      && Current(g, u) && WorkerEffect(g, w, c) == Store(g, u)
      && (w.StripPut? ==> StripCopy(g.hist, g.log, u)) && (!w.StripPut? ==> LiveCopy(g.hist, g.log, u))
  {
    if WorkerObject(w).Some? {
      assert LiveCopy(g.hist, g.log, g.heap[WorkerObject(w).value]);
    }
  }

  lemma HandlerSubmits(g: Shared, h: Handler, kube: Option<Kubeconfig>, c: Choice)
    requires Ground(g) && HandlerOk(g, h) && InHeap(g, HandlerObject(h))
    requires HandlerEffect(g, h, kube, c).hist != g.hist || HandlerEffect(g, h, kube, c).gone != g.gone
    ensures h.HealthPut? || h.AnnotPut?
    ensures var u := if h.AnnotPut? then h.u else g.heap[h.o];
      Current(g, u) && HandlerEffect(g, h, kube, c) == Store(g, u) && LiveCopy(g.hist, g.log, u)
  {
    if HandlerObject(h).Some? {
      assert LiveCopy(g.hist, g.log, g.heap[HandlerObject(h).value]);
    }
  }

  /** Between versions `v` and `w` no edit, no mark and no foreign finalizer
      is lost. */
  ghost predicate KeepsUpdates(v: Cluster, w: Cluster) {
    && w.path == v.path
    && w.marked == v.marked
    && Strip(w.finalizers, PROVISIONER) == Strip(v.finalizers, PROVISIONER)
    && (Touched(v) ==> Touched(w))
  }

  /** No lost update: a controller's commit keeps the spec, the mark and every
      foreign finalizer, in order and multiplicity; only `finalize` takes the
      provisioner's key off, after a successful cleanup; and only it makes
      the object vanish. */
  lemma NoLostUpdate(run: seq<Label>, l: Label)
    requires IsRun(run) && Enabled(After(run), l) && ByController(l) && Commits(After(run), l)
    ensures var g, k := After(run).shared, Next(After(run), l).shared;
      var finalizing := After(run).worker.StripPut? && l.Work?;
      && Live(g)
      && (!k.gone ==>
           && |k.hist| == |g.hist| + 1
           && KeepsUpdates(Last(g), Last(k))
           && (PROVISIONER in Last(g).finalizers && PROVISIONER !in Last(k).finalizers ==>
                finalizing && RemovedOk(g.log)))
      && (k.gone ==> finalizing && RemovedOk(g.log) && Last(g).marked && Strip(Last(g).finalizers, PROVISIONER) == [])
  {
    RunKeepsInv(run);
    CommitKeepsUpdates(After(run), l);
  }

  lemma CommitKeepsUpdates(s: State, l: Label)
    requires Inv(s) && Enabled(s, l) && ByController(l) && Commits(s, l)
    ensures var g, k := s.shared, Next(s, l).shared;
      var finalizing := s.worker.StripPut? && l.Work?;
      && Live(g)
      && (!k.gone ==>
           && |k.hist| == |g.hist| + 1
           && KeepsUpdates(Last(g), Last(k))
           && (PROVISIONER in Last(g).finalizers && PROVISIONER !in Last(k).finalizers ==>
                finalizing && RemovedOk(g.log)))
      && (k.gone ==> finalizing && RemovedOk(g.log) && Last(g).marked && Strip(Last(g).finalizers, PROVISIONER) == [])
  {
    CommitsAreCurrent(s, l);
    var v := Last(s.shared);
    StripConcat(v.finalizers, [PROVISIONER], PROVISIONER);
    assert Strip(Strip(v.finalizers, PROVISIONER), PROVISIONER) == Strip(v.finalizers, PROVISIONER);
    assert Fact(v, s.shared.log, s.shared.hist[0]);
  }

  /** Finalizers only shrink under deletion. */
  lemma FinalizersShrink(run: seq<Label>, l: Label)
    requires IsRun(run) && Enabled(After(run), l) && ByController(l) && Live(After(run).shared)
    requires Last(After(run).shared).marked && !Next(After(run), l).shared.gone
    ensures var before, after := Last(After(run).shared).finalizers, Last(Next(After(run), l).shared).finalizers;
      after == before || after == Strip(before, PROVISIONER)
  {
    RunKeepsInv(run);
    StepShrinks(After(run), l);
  }

  lemma StepShrinks(s: State, l: Label)
    requires Inv(s) && Enabled(s, l) && ByController(l) && Live(s.shared) && Last(s.shared).marked
    requires !Next(s, l).shared.gone
    ensures Live(Next(s, l).shared)
    ensures var before, after := Last(s.shared).finalizers, Last(Next(s, l).shared).finalizers;
      after == before || after == Strip(before, PROVISIONER)
  {
    if Commits(s, l) {
      CommitShrinks(s, l);
    } else {
      assert Next(s, l).shared.hist == s.shared.hist;
    }
  }

  lemma CommitShrinks(s: State, l: Label)
    requires Inv(s) && Enabled(s, l) && ByController(l) && Commits(s, l)
    requires Live(s.shared) && Last(s.shared).marked && !Next(s, l).shared.gone
    ensures Live(Next(s, l).shared)
    ensures var before, after := Last(s.shared).finalizers, Last(Next(s, l).shared).finalizers;
      after == before || after == Strip(before, PROVISIONER)
  {
    CommitsAreCurrent(s, l);
    StoreShrinks(s.shared, Submitted(s, l).value);
  }

  lemma StoreShrinks(g: Shared, c: Cluster)
    requires Live(g) && Last(g).marked && Current(g, c) && !Store(g, c).gone
    requires LiveCopy(g.hist, g.log, c) || StripCopy(g.hist, g.log, c)
    ensures var before, after := Last(g).finalizers, Last(Store(g, c)).finalizers;
      after == before || after == Strip(before, PROVISIONER)
  {
  }

  /** A stripped finalizer never returns. */
  lemma StrippedStays(run: seq<Label>, i: nat)
    requires IsRun(run) && i <= |run| && IsRun(run[..i]) && Stripped(After(run[..i]).shared)
    ensures LacksKey(After(run).shared)
  {
    RunMovesForward(run, i);
  }

  // ---------- retries ----------

  /** The store has moved past this version for good. */
  ghost predicate Superseded(g: Shared, rv: nat) {
    g.hist != [] && (g.gone || rv < |g.hist| - 1)
  }

  lemma SupersededStays(g: Shared, k: Shared, rv: nat)
    requires Later(g, k) && Superseded(g, rv)
    ensures Superseded(k, rv)
  {
  }

  lemma StepSupersedes(s: State, l: Label)
    requires Inv(s) && Enabled(s, l) && Submitted(s, l).Some?
    requires Commits(s, l) || !Current(s.shared, Submitted(s, l).value)
    ensures Superseded(Next(s, l).shared, Submitted(s, l).value.rv)
  {
    SubmittedInRange(s, l);
    StepKeepsInv(s, l);
    if Commits(s, l) {
      CommitsAreCurrent(s, l);
    } else {
      SupersededStays(s.shared, Next(s, l).shared, Submitted(s, l).value.rv);
    }
  }

  /** The run takes step i from the state its first i steps lead to. */
  ghost predicate StepAt(run: seq<Label>, i: nat) {
    i < |run| && IsRun(run[..i]) && Enabled(After(run[..i]), run[i])
  }

  ghost function SubmittedAt(run: seq<Label>, i: nat): Option<Cluster>
    requires StepAt(run, i)
  {
    Submitted(After(run[..i]), run[i])
  }

  ghost predicate CommitsAt(run: seq<Label>, i: nat)
    requires StepAt(run, i)
  {
    Commits(After(run[..i]), run[i])
  }

  lemma RunTakesSteps(run: seq<Label>, i: nat)
    requires IsRun(run) && i < |run|
    ensures StepAt(run, i) && IsRun(run[..i + 1]) && After(run[..i + 1]) == Next(After(run[..i]), run[i])
  {
    PrefixStep(run, i);
  }

  /** Every version is overwritten by a controller at most once, and a
      conflict is final: after `c` was committed or refused at step i, no
      submission made from the same version changes the store at step j. All
      attempts of a retry loop submit one object, whose version never changes. */
  lemma RetriesCommitOnce(run: seq<Label>, i: nat, j: nat)
    requires IsRun(run) && i < j < |run| && StepAt(run, i) && StepAt(run, j)
    requires SubmittedAt(run, i).Some? && SubmittedAt(run, j).Some?
    requires SubmittedAt(run, i).value.rv == SubmittedAt(run, j).value.rv
    requires CommitsAt(run, i) || !Current(After(run[..i]).shared, SubmittedAt(run, i).value)
    ensures !CommitsAt(run, j)
  {
    var rv := SubmittedAt(run, i).value.rv;
    RunTakesSteps(run, i);
    RunKeepsInv(run[..i]);
    StepSupersedes(After(run[..i]), run[i]);
    SupersededLater(run, i + 1, j, rv);
    RunKeepsInv(run[..j]);
    StaleCannotCommit(After(run[..j]), run[j]);
  }

  lemma SupersededLater(run: seq<Label>, i: nat, j: nat, rv: nat)
    requires i <= j <= |run| && IsRun(run[..i]) && IsRun(run[..j]) && Superseded(After(run[..i]).shared, rv)
    ensures Superseded(After(run[..j]).shared, rv)
  {
    assert run[..j][..i] == run[..i];
    RunMovesForward(run[..j], i);
    SupersededStays(After(run[..i]).shared, After(run[..j]).shared, rv);
  }

  lemma StaleCannotCommit(s: State, l: Label)
    requires Inv(s) && Enabled(s, l) && Submitted(s, l).Some? && Superseded(s.shared, Submitted(s, l).value.rv)
    ensures !Commits(s, l)
  {
    if Commits(s, l) {
      CommitsAreCurrent(s, l);
    }
  }

  lemma SubmittedInRange(s: State, l: Label)
    requires Inv(s) && Enabled(s, l) && Submitted(s, l).Some?
    ensures Submitted(s, l).value.rv < |s.shared.hist|
  {
    var g := s.shared;
    if l.Handle? {
      assert HandlerOk(g, s.handlers[l.h]);
    }
    assert forall o :: 0 <= o < |g.heap| ==> LiveCopy(g.hist, g.log, g.heap[o]);
  }

  /** The object a loop re-submits keeps its version over the whole run. */
  lemma ObjectKeepsVersion(run: seq<Label>, i: nat, o: nat)
    requires IsRun(run) && i <= |run| && IsRun(run[..i]) && o < |After(run[..i]).shared.heap|
    ensures o < |After(run).shared.heap|
    ensures After(run).shared.heap[o].rv == After(run[..i]).shared.heap[o].rv
  {
    RunMovesForward(run, i);
    assert Grown(After(run[..i]).shared.heap[o], After(run).shared.heap[o]);
  }

  /** A retry loop around one object in memory commits it at most once, though
      others may mutate the object between the attempts. */
  lemma LoopCommitsOnce(run: seq<Label>, i: nat, j: nat, o: nat)
    requires IsRun(run) && i < j < |run| && StepAt(run, i) && StepAt(run, j)
    requires o < |After(run[..i]).shared.heap| && o < |After(run[..j]).shared.heap|
    requires SubmittedAt(run, i) == Some(After(run[..i]).shared.heap[o])
    requires SubmittedAt(run, j) == Some(After(run[..j]).shared.heap[o])
    requires CommitsAt(run, i) || !Current(After(run[..i]).shared, SubmittedAt(run, i).value)
    ensures !CommitsAt(run, j)
  {
    assert run[..j][..i] == run[..i];
    ObjectKeepsVersion(run[..j], i, o);
    RetriesCommitOnce(run, i, j);
  }

  // ---------- deletions ----------

  /** A deletion is never abandoned: while the cache shows the mark and the
      store still holds the key, a notification is on its way, the key is
      queued, or the worker is on a marked object and will queue it again. */
  lemma DeletionStaysPending(run: seq<Label>)
    requires IsRun(run)
    requires Doomed(After(run).shared, After(run).cache)
    ensures var s := After(run); s.events > 0 || s.dirty || Removing(s.shared, s.worker)
  {
    RunKeepsInv(run);
  }

  /** A sync of a marked object that ends without a requeue leaves a store
      that does not hold the key, then and ever after. */
  lemma FinishedDeletionIsFinal(run: seq<Label>, i: nat)
    requires IsRun(run) && i <= |run| && IsRun(run[..i])
    requires var s := After(run[..i]);
      s.worker.Returned? && !s.worker.failed && s.worker.from.Some? && IsMarked(s.shared, s.worker.from.value)
    ensures LacksKey(After(run).shared)
  {
    RunKeepsInv(run[..i]);
    FinishedMeansStripped(After(run[..i]));
    StrippedStays(run, i);
  }

  lemma FinishedMeansStripped(s: State)
    requires Ground(s.shared) && WorkerOk(s.shared, s.worker)
    requires s.worker.Returned? && !s.worker.failed && s.worker.from.Some?
    requires IsMarked(s.shared, s.worker.from.value)
    ensures Stripped(s.shared)
  {
    MarkedInStore(s.shared, s.worker.from.value);
  }

  /** No controller is ever blocked: every step it is about to take is
      defined, whatever the environment answers. */
  lemma NeverStuck(run: seq<Label>, c: Choice, h: nat)
    requires IsRun(run)
    ensures !After(run).worker.Idle? || After(run).dirty ==> Enabled(After(run), Work(c))
    ensures h < |After(run).handlers| ==> Enabled(After(run), Handle(h, c))
  {
    RunKeepsInv(run);
    var s := After(run);
    if h < |s.handlers| {
      assert HandlerOk(s.shared, s.handlers[h]);
    }
  }
}
