/** Concrete runs that show where the operator does not give what one might
    expect of it, and so why the results elsewhere carry their hypotheses. */
module Witnesses {
  import opened Objects
  import opened Machine
  import opened Invariant
  import opened BackendOrder
  import opened Cleanup
  import opened Convergence
  import opened Preservation
  import opened Reach

  function Created(finalizers: seq<string>, path: string): Cluster {
    Cluster(0, false, finalizers, path, [], "", map[])
  }

  /** The worker stands before `handleClusterAdd` of a fresh object. */
  function Taken(c: Cluster): State {
    State(Shared([c], false, [c], []), None, 0, Some(0), false, 0, false, Config(0), [])
  }

  lemma TakeFresh(c: Cluster) returns (run: seq<Label>)
    requires !c.marked && c.rv == 0 && c.conditions == [] && c.annotations == map[]
    ensures Reaches(run, Taken(c))
  {
    run := Go([], INITIAL, Create(c));
    var s1 := Next(INITIAL, Create(c));
    run := Go(run, s1, Refresh(0));
    var s2 := Next(s1, Refresh(0));
    run := Go(run, s2, Notify);
    var s3 := Next(s2, Notify);
    run := Go(run, s3, Work(Good("x")));
  }

  // ---------- an orphaned backend ----------

  /** The object without finalizers was deleted while the worker read the file. */
  function Vanished(c: Cluster): State {
    Taken(c).(shared := Shared([c], true, [c], [ReadConfig("x")]), worker := Init(0, "x"))
  }

  lemma VanishEarly(c: Cluster) returns (run: seq<Label>)
    requires c == Created([], "p")
    ensures Reaches(run, Vanished(c))
  {
    run := TakeFresh(c);
    run := Go(run, Taken(c), Work(Good("x")));
    var s := Next(Taken(c), Work(Good("x")));
    run := Go(run, s, Delete);
  }

  /** Three refused writes later, `initialize` reports success. */
  lemma SwallowFailures(c: Cluster) returns (run: seq<Label>)
    requires c == Created([], "p")
    ensures Reaches(run, Vanished(c).(
      shared := Vanished(c).shared.(heap := [WithKey(c)]), worker := DoBegin(0, "x")))
  {
    run := VanishEarly(c);
    var l := Work(Good("x"));
    run := Go(run, Vanished(c), l);
    var s1 := Next(Vanished(c), l);
    run := Go(run, s1, l);
    var s2 := Next(s1, l);
    run := Go(run, s2, l);
    var s3 := Next(s2, l);
    run := Go(run, s3, l);
  }

  /** The store's finalizer does not follow from `initialize` returning nil: a
      cluster deleted before its finalizer is stored is provisioned all the
      same, and no run that goes on from there ever removes the backend. */
  lemma BackendCanBeOrphaned() returns (run: seq<Label>)
    ensures IsRun(run) && After(run).shared.gone && ProvisionedOk(After(run).shared.log)
    ensures forall more :: run <= more && IsRun(more) ==> !Removal(After(more).shared.log)
  {
    var c := Created([], "p");
    run := SwallowFailures(c);
    var s0 := After(run);
    run := Go(run, s0, Work(Good("x")));
    var s1 := Next(s0, Work(Good("x")));
    run := Go(run, s1, Work(Good("x")));
    assert After(run).shared.log[1] == ProvisionCall("x", "p", true);
    assert ProvisionCall("x", "p", true) in After(run).shared.log;
    forall more | run <= more && IsRun(more) ensures !Removal(After(more).shared.log) {
      assert more[..|run|] == run;
      ForgottenForever(more, |run|);
    }
  }

  // ---------- after a first sync ----------

  /** An undisturbed first sync: the key is stored and the backend provisioned,
      but the config is not recorded. */
  lemma FirstSync(c: Cluster) returns (run: seq<Label>)
    requires c == Created([], "p")
    ensures IsRun(run)
    ensures var s := After(run);
      && Resting(s) && Standing(s.shared, "p") && s.shared.log == SyncCalls("x", "p")
      && s.shared.hist == [c, WithKey(c).(rv := 1)]
  {
    run := Go([], INITIAL, Create(c));
    RoundOutcome(After(run), "x");
    run := RoundIsRun(run, "x");
  }

  /** Cleanup has succeeded, its three writes are lost, the sync is requeued,
      and then the informer delivers the first version again. */
  lemma GoBack(c: Cluster) returns (run: seq<Label>, o: nat)
    requires c == Created([], "p")
    ensures IsRun(run) && AtUnmarked(After(run), o) && After(run).shared.heap[o] == c
    ensures After(run).shared.log == SyncCalls("x", "p") + [RemoveCall("p", true)]
  {
    run := FirstSync(c);
    var s := After(run);
    var more := ReachStrip(run, run, s, "p", {});
    var t := After(more);
    RunMovesForward(more, |run|);
    assert more[..|run|] == run;
    assert t.shared.hist[0] == c;
    more := StripLost(run, more, t, Strip(Last(s.shared).finalizers, PROVISIONER), {});
    o := |t.shared.heap|;
    run := Go(more, After(more), Refresh(0));
  }

  lemma NotOrdered(run: seq<Label>, i: nat, j: nat)
    requires IsRun(run) && i < j < |After(run).shared.log|
    requires After(run).shared.log[i].RemoveCall? && After(run).shared.log[j].ProvisionCall?
    ensures !MarkStays(run)
  {
    if MarkStays(run) {
      ProvisionsThenRemoves(run, i, j);
    }
  }

  lemma ProvisionAgain() returns (run: seq<Label>)
    ensures IsRun(run)
    ensures After(run).shared.log == SyncCalls("x", "p") + [RemoveCall("p", true)] + SyncCalls("x", "p")
  {
    var back, o := GoBack(Created([], "p"));
    run := ReachProvision(back, back, o, "x");
  }

  /** A cache that goes back behind the mark breaks the order of the backend
      calls: a removed backend is provisioned again. */
  lemma RegressingCacheBreaksOrder() returns (run: seq<Label>)
    ensures IsRun(run) && !MarkStays(run)
    ensures After(run).shared.log == SyncCalls("x", "p") + [RemoveCall("p", true)] + SyncCalls("x", "p")
  {
    run := ProvisionAgain();
    NotOrdered(run, 2, 4);
  }

  /** Cleanup goes to the path the cached object names at the end: after a spec
      edit the backend at the provisioned path is never removed, though the
      cluster is gone and its cleanup counts as done. */
  lemma CleanupCanMissThePath() returns (run: seq<Label>)
    ensures IsRun(run) && After(run).shared.gone
    ensures After(run).shared.log == SyncCalls("x", "p") + [RemoveCall("q", true)]
  {
    var first := FirstSync(Created([], "p"));
    run := CleanupCanGoTo(first, "q", {"q"});
  }

  // ---------- rounds that never converge ----------

  /** No number of undisturbed rounds converges. */
  ghost predicate Stuck(s: State, config: string) {
    Calm(s) && forall n :: !Converged(Last(Rounds(s, config, n).shared), config)
  }

  lemma StuckWith(s: State, config: string)
    requires Calm(s) && Last(s.shared).applied == config && !Converged(Last(s.shared), config)
    ensures Stuck(s, config)
  {
    forall n ensures !Converged(Last(Rounds(s, config, n).shared), config) {
      NeverConverges(s, config, n);
    }
  }

  /** A cluster created with the wanted config on record is never provisioned. */
  lemma CreatedStuck(config: string) returns (run: seq<Label>)
    ensures IsRun(run) && Stuck(After(run), config)
  {
    var c := Created([], "p").(applied := config);
    run := Go([], INITIAL, Create(c));
    StuckWith(After(run), config);
  }

  /** The health checker is about to write object `o` back, which is the stored
      version but for its Ready condition and what the worker at `w` does. */
  ghost predicate Checking(s: State, w: Worker, o: nat, h: nat, config: string) {
    && s.worker == w && (w.Idle? ==> s.dirty) && s.cache == Some(o)
    && o < |s.shared.heap| && h < |s.handlers| && s.handlers[h] == HealthPut(o, 0)
    && Live(s.shared) && Converged(Last(s.shared), config)
    && Current(s.shared, s.shared.heap[o]) && !s.shared.heap[o].marked
    && s.shared.heap[o].applied == config && PROVISIONER in s.shared.heap[o].finalizers
  }

  /** The object the health checker has been handed. */
  ghost predicate Handed(s: State, h: Handler, o: nat, config: string) {
    && s.worker.Idle? && s.dirty && s.cache == Some(o) && o < |s.shared.heap|
    && s.handlers != [] && s.handlers[|s.handlers| - 1] == h
    && Live(s.shared) && Converged(Last(s.shared), config)
    && Current(s.shared, s.shared.heap[o]) && !s.shared.heap[o].marked
    && s.shared.heap[o].applied == config && PROVISIONER in s.shared.heap[o].finalizers
  }

  lemma HandedAfter(s: State, config: string)
    requires Calm(s) && Converged(Last(s.shared), config)
    ensures var o, s1 := |s.shared.heap|, Next(s, Refresh(|s.shared.hist| - 1));
      && Enabled(s1, Notify) && Enabled(Next(s1, Notify), StartHealth(o))
      && Handed(Next(Next(s1, Notify), StartHealth(o)), HealthBegin(o), o, config)
  {
    var s1 := Next(s, Refresh(|s.shared.hist| - 1));
    assert s1.shared.heap[|s.shared.heap|] == Last(s.shared);
  }

  lemma HandOver(run: seq<Label>, s: State, config: string) returns (more: seq<Label>, o: nat)
    requires Reaches(run, s) && Calm(s) && Converged(Last(s.shared), config)
    ensures EditsWithin(run, more, {}) && Handed(After(more), HealthBegin(o), o, config)
  {
    o := |s.shared.heap|;
    HandedAfter(s, config);
    var r := Refresh(|s.shared.hist| - 1);
    more := Extend(run, run, s, r, {});
    more := Extend(run, more, Next(s, r), Notify, {});
    more := Extend(run, more, Next(Next(s, r), Notify), StartHealth(o), {});
  }

  lemma CheckStep(s: State, p: Handler, o: nat, config: string)
    requires Handed(s, p, o, config) && (p == HealthBegin(o) || p == HealthProbe(o) || p == HealthEnd(o, true))
    ensures var next :=
        if p.HealthBegin? then HealthProbe(o)
        else if p.HealthProbe? then HealthEnd(o, true)
        else HealthPut(o, 0);
      Handed(HandlerStep(s, |s.handlers| - 1, Good("")), next, o, config)
  {
  }

  lemma CheckHealth(run: seq<Label>, from: seq<Label>, o: nat, config: string) returns (more: seq<Label>, h: nat)
    requires EditsWithin(run, from, {}) && Handed(After(from), HealthBegin(o), o, config)
    ensures EditsWithin(run, more, {}) && Checking(After(more), Idle, o, h, config)
  {
    var s := After(from);
    h := |s.handlers| - 1;
    var l := Handle(h, Good(""));
    CheckStep(s, HealthBegin(o), o, config);
    more := Extend(run, from, s, l, {});
    var s1 := Next(s, l);
    CheckStep(s1, HealthProbe(o), o, config);
    more := Extend(run, more, s1, l, {});
    var s2 := Next(s1, l);
    CheckStep(s2, HealthEnd(o, true), o, config);
    more := Extend(run, more, s2, l, {});
  }

  /** The file holds something new and the backend refuses it. */
  function Refusing(other: string): Choice {
    Choice(Delivered, Some(other), false, "")
  }

  /** Where the worker goes from `w` when the backend refuses. */
  function RefusedNext(w: Worker, o: nat, other: string): Worker {
    match w
    case Idle => Config(o)
    case Config(_) => Init(o, other)
    case Init(_, _) => DoBegin(o, other)
    case DoBegin(_, _) => Backend(o, other)
    case _ => DoEnd(o, other, false)
  }

  lemma RefusedStep(run: seq<Label>, from: seq<Label>, s: State, w: Worker, o: nat, h: nat,
                    config: string, other: string)
    returns (more: seq<Label>)
    requires EditsWithin(run, from, {}) && After(from) == s && Checking(s, w, o, h, config) && other != config
    requires w in [Idle, Config(o), Init(o, other), DoBegin(o, other), Backend(o, other)]
    ensures EditsWithin(run, more, {}) && Checking(After(more), RefusedNext(w, o, other), o, h, config)
  {
    RefusedState(s, w, o, h, config, other);
    more := Extend(run, from, s, Work(Refusing(other)), {});
  }

  lemma RefusedState(s: State, w: Worker, o: nat, h: nat, config: string, other: string)
    requires Checking(s, w, o, h, config) && other != config
    requires w in [Idle, Config(o), Init(o, other), DoBegin(o, other), Backend(o, other)]
    ensures Enabled(s, Work(Refusing(other)))
    ensures Checking(WorkerStep(s, Refusing(other)), RefusedNext(w, o, other), o, h, config)
  {
  }

  lemma RefuseInit(run: seq<Label>, from: seq<Label>, o: nat, h: nat, config: string, other: string)
    returns (more: seq<Label>)
    requires EditsWithin(run, from, {}) && Checking(After(from), Idle, o, h, config) && other != config
    ensures EditsWithin(run, more, {}) && Checking(After(more), DoBegin(o, other), o, h, config)
  {
    more := RefusedStep(run, from, After(from), Idle, o, h, config, other);
    more := RefusedStep(run, more, After(more), Config(o), o, h, config, other);
    more := RefusedStep(run, more, After(more), Init(o, other), o, h, config, other);
  }

  lemma RefuseBackend(run: seq<Label>, from: seq<Label>, o: nat, h: nat, config: string, other: string)
    returns (more: seq<Label>)
    requires EditsWithin(run, from, {}) && Checking(After(from), DoBegin(o, other), o, h, config) && other != config
    ensures EditsWithin(run, more, {}) && Checking(After(more), DoEnd(o, other, false), o, h, config)
  {
    more := RefusedStep(run, from, After(from), DoBegin(o, other), o, h, config, other);
    more := RefusedStep(run, more, After(more), Backend(o, other), o, h, config, other);
  }

  /** The failed upgrade leaves False on the object in memory. */
  lemma RefuseUpgrade(run: seq<Label>, from: seq<Label>, o: nat, h: nat, config: string, other: string)
    returns (more: seq<Label>)
    requires EditsWithin(run, from, {}) && Checking(After(from), Idle, o, h, config) && other != config
    ensures EditsWithin(run, more, {}) && Checking(After(more), Returned(Some(o), true), o, h, config)
    ensures GetStatus(After(more).shared.heap[o].conditions, Provisioned) == Some(False)
  {
    more := RefuseInit(run, from, o, h, config, other);
    more := RefuseBackend(run, more, o, h, config, other);
    var s := After(more);
    RefusalEnds(s, o, h, config, other);
    more := Extend(run, more, s, Work(Refusing(other)), {});
  }

  lemma RefusalEnds(s: State, o: nat, h: nat, config: string, other: string)
    requires Checking(s, DoEnd(o, other, false), o, h, config)
    ensures Enabled(s, Work(Refusing(other)))
    ensures var t := WorkerStep(s, Refusing(other));
      && Checking(t, Returned(Some(o), true), o, h, config)
      && GetStatus(t.shared.heap[o].conditions, Provisioned) == Some(False)
  {
  }

  /** The key and the record are stored, with Provisioned False. */
  ghost predicate Demoted(g: Shared, config: string) {
    && Live(g) && !Last(g).marked && Last(g).rv == |g.hist| - 1
    && PROVISIONER in Last(g).finalizers && Last(g).applied == config
    && GetStatus(Last(g).conditions, Provisioned) == Some(False)
  }

  lemma FalseIsStored(s: State, o: nat, h: nat, config: string)
    requires Checking(s, Returned(Some(o), true), o, h, config)
    requires GetStatus(s.shared.heap[o].conditions, Provisioned) == Some(False)
    ensures var t := HandlerStep(s, h, Good(""));
      t.worker == s.worker && t.cache == s.cache && Demoted(t.shared, config)
      && |t.shared.heap| == |s.shared.heap|
  {
    assert s.shared.heap[o] != Last(s.shared);
  }

  lemma FinishesCalm(s: State, o: nat, config: string)
    requires s.worker == Returned(Some(o), true) && s.cache == Some(o) && o < |s.shared.heap|
    requires Demoted(s.shared, config)
    ensures Enabled(s, Work(Good("")))
    ensures Calm(WorkerStep(s, Good(""))) && Demoted(WorkerStep(s, Good("")).shared, config)
  {
  }

  /** The health checker writes that object back, and the worker finishes. */
  lemma WriteBackFalse(run: seq<Label>, from: seq<Label>, o: nat, h: nat, config: string) returns (more: seq<Label>)
    requires EditsWithin(run, from, {}) && Checking(After(from), Returned(Some(o), true), o, h, config)
    requires GetStatus(After(from).shared.heap[o].conditions, Provisioned) == Some(False)
    ensures EditsWithin(run, more, {}) && Calm(After(more)) && Demoted(After(more).shared, config)
  {
    var s := After(from);
    FalseIsStored(s, o, h, config);
    more := Extend(run, from, s, Handle(h, Good("")), {});
    var t := HandlerStep(s, h, Good(""));
    FinishesCalm(t, o, config);
    more := Extend(run, more, t, Work(Good("")), {});
  }

  /** From every converged cluster: one upgrade the backend refuses while the
      health checker works on the same object in memory gets Provisioned False
      stored beside the old record. When the file is put back as it was, no
      number of rounds converges again. */
  lemma FailedUpgradeSticks(run: seq<Label>, config: string, other: string) returns (more: seq<Label>)
    requires IsRun(run) && Calm(After(run)) && Converged(Last(After(run).shared), config) && other != config
    ensures EditsWithin(run, more, {}) && Demoted(After(more).shared, config) && Stuck(After(more), config)
  {
    var o, h;
    more, o := HandOver(run, After(run), config);
    more, h := CheckHealth(run, more, o, config);
    more := RefuseUpgrade(run, more, o, h, config, other);
    more := WriteBackFalse(run, more, o, h, config);
    StuckWith(After(more), config);
  }

  // ---------- faults ----------

  function Times(calls: seq<Event>, n: nat): seq<Event> {
    if n == 0 then [] else Times(calls, n - 1) + calls
  }

  /** The informer delivers the stored version and its key is queued. */
  lemma DeliverLast(run: seq<Label>, s: State) returns (more: seq<Label>)
    requires Reaches(run, s) && Calm(s)
    ensures EditsWithin(run, more, {})
    ensures var t, o := After(more), |s.shared.heap|;
      && AtUnmarked(t, o) && t.shared.heap[o] == Last(s.shared)
      && SameStore(s.shared, t.shared) && t.shared.log == s.shared.log
  {
    var s1 := Next(s, Refresh(|s.shared.hist| - 1));
    assert s1.shared.heap[|s.shared.heap|] == Last(s.shared);
    more := Extend(run, run, s, Refresh(|s.shared.hist| - 1), {});
    more := Extend(run, more, s1, Notify, {});
  }

  /** From `s` to `t` the backend was called n times and nothing was stored. */
  ghost predicate InVain(s: State, t: State, config: string, n: nat) {
    && Calm(s) && Calm(t) && SameStore(s.shared, t.shared)
    && t.shared.log == s.shared.log + Times(SyncCalls(config, Last(s.shared).path), n)
  }

  /** A sync of the stored version, none of whose writes arrive. */
  lemma LostSync(run: seq<Label>, s: State, config: string) returns (more: seq<Label>)
    requires Reaches(run, s) && Calm(s) && Last(s.shared).applied != config
    ensures EditsWithin(run, more, {}) && After(more).worker.Idle? && SameStore(s.shared, After(more).shared)
    ensures After(more).shared.log == s.shared.log + SyncCalls(config, Last(s.shared).path)
  {
    var o := |s.shared.heap|;
    var queued := DeliverLast(run, s);
    var t := After(queued);
    more := ReachProvision(queued, queued, o, config);
    more := RecordLost(queued, more, t.shared, o, config, t.shared.heap[o].path);
    QuietEditsNothing(queued, more, {});
    EditsTransitive(run, queued, more, {});
  }

  lemma InVainStart(s: State, config: string)
    requires Calm(s)
    ensures InVain(s, s, config, 0)
  {
  }

  lemma InVainOnce(s: State, t: State, u: State, config: string, n: nat)
    requires InVain(s, t, config, n) && u.worker.Idle? && SameStore(t.shared, u.shared)
    requires u.shared.log == t.shared.log + SyncCalls(config, Last(t.shared).path)
    ensures InVain(s, u, config, n + 1)
  {
  }

  lemma StillToRecord(s: State, t: State, config: string, n: nat)
    requires InVain(s, t, config, n)
    ensures Calm(t) && Last(t.shared) == Last(s.shared)
  {
  }

  lemma LostOnceMore(run: seq<Label>, from: seq<Label>, s: State, t: State, config: string, n: nat)
    returns (more: seq<Label>)
    requires EditsWithin(run, from, {}) && Reaches(from, t) && InVain(s, t, config, n)
    requires Last(s.shared).applied != config
    ensures EditsWithin(run, more, {}) && InVain(s, After(more), config, n + 1)
  {
    StillToRecord(s, t, config, n);
    more := LostSync(from, t, config);
    var u := After(more);
    InVainOnce(s, t, u, config, n);
    EditsTransitive(run, from, more, {});
  }

  /** While writes are lost, any number of syncs with a fresh cache calls the
      backend each time and stores nothing. */
  lemma FaultsPreventConvergence(run: seq<Label>, config: string, n: nat) returns (more: seq<Label>)
    requires IsRun(run) && Calm(After(run)) && Last(After(run).shared).applied != config
    ensures EditsWithin(run, more, {}) && InVain(After(run), After(more), config, n)
  {
    var s := After(run);
    more := run;
    InVainStart(s, config);
    for k := 0 to n
      invariant EditsWithin(run, more, {}) && InVain(s, After(more), config, k)
    {
      more := LostOnceMore(run, more, s, After(more), config, k);
    }
  }
}
