/** Exactly which deleted clusters have their backend cleaned up, and with
    which config path. */
module Cleanup {
  import opened Objects
  import opened Machine
  import opened Invariant
  import opened Preservation
  import opened Safety
  import opened BackendOrder
  import opened Convergence
  import opened Reach

  /** Some version of the object was marked while it carried the key. */
  ghost predicate MarkedWithKey(g: Shared) {
    exists i :: 0 <= i < |g.hist| && g.hist[i].marked && PROVISIONER in g.hist[i].finalizers
  }

  ghost predicate CleanupKnown(g: Shared) {
    && (RemovedOk(g.log) ==> MarkedWithKey(g))
    && (MarkedWithKey(g) && LacksKey(g) ==> RemovedOk(g.log))
    && (Removal(g.log) ==> g.hist != [] && Last(g).marked)
  }

  lemma MarkedWithKeyStays(g: Shared, k: Shared)
    requires g.hist <= k.hist && MarkedWithKey(g)
    ensures MarkedWithKey(k)
  {
    var i :| 0 <= i < |g.hist| && g.hist[i].marked && PROVISIONER in g.hist[i].finalizers;
    assert k.hist[i] == g.hist[i];
  }

  /** A submission from memory leaves the stored key alone. */
  lemma LiveStoreKeepsKey(g: Shared, c: Cluster)
    requires !LacksKey(g) && Current(g, c) && LiveCopy(g.hist, g.log, c)
    ensures !LacksKey(Store(g, c))
  {
    assert PROVISIONER in c.finalizers;
  }

  lemma UsersKeepKey(s: State, l: Label)
    requires Enabled(s, l) && !ByController(l) && !LacksKey(s.shared)
    ensures !LacksKey(Next(s, l).shared)
  {
  }

  /** Only a strip takes the key off the stored object. */
  lemma KeyLeavesByStrip(s: State, l: Label)
    requires Inv(s) && Enabled(s, l)
    requires !LacksKey(s.shared) && LacksKey(Next(s, l).shared)
    ensures RemovedOk(s.shared.log)
  {
    if ByController(l) {
      ControllerStrips(s, l);
    } else {
      UsersKeepKey(s, l);
    }
  }

  lemma ControllerStrips(s: State, l: Label)
    requires Inv(s) && Enabled(s, l) && ByController(l)
    requires !LacksKey(s.shared) && LacksKey(Next(s, l).shared)
    ensures RemovedOk(s.shared.log)
  {
    assert Commits(s, l);
    CommitsAreCurrent(s, l);
    var c := Submitted(s, l).value;
    if LiveCopy(s.shared.hist, s.shared.log, c) {
      LiveStoreKeepsKey(s.shared, c);
    }
  }

  /** A version stored by this step is marked with the key only if the store
      holds the key afterwards. */
  lemma NewVersionCounts(g: Shared, k: Shared)
    requires g.hist <= k.hist && |k.hist| <= |g.hist| + 1 && !k.gone && k.hist != []
    requires !MarkedWithKey(g) && MarkedWithKey(k)
    ensures !LacksKey(k)
  {
    var i :| 0 <= i < |k.hist| && k.hist[i].marked && PROVISIONER in k.hist[i].finalizers;
    assert forall j :: 0 <= j < |g.hist| ==> k.hist[j] == g.hist[j];
    assert i == |k.hist| - 1;
  }

  lemma CallsOf(s: State, l: Label)
    requires Inv(s) && Enabled(s, l)
    ensures var before, after := s.shared.log, Next(s, l).shared.log;
      && (Removal(after) && !Removal(before) ==> s.shared.hist != [] && Last(s.shared).marked)
      && (RemovedOk(after) && !RemovedOk(before) ==> MarkedWithKey(s.shared))
  {
    var before, after := s.shared.log, Next(s, l).shared.log;
    if l.Work? && s.worker.Remove? {
      MarkedInStore(s.shared, s.worker.o);
      assert s.shared.hist[s.worker.u.rv] == s.worker.u;
    } else {
      OtherSteps(s, l);
    }
  }

  /** No other step appends a remove call. */
  lemma OtherSteps(s: State, l: Label)
    requires Inv(s) && Enabled(s, l) && !(l.Work? && s.worker.Remove?)
    ensures var before, after := s.shared.log, Next(s, l).shared.log;
      (Removal(after) ==> Removal(before)) && (RemovedOk(after) ==> RemovedOk(before))
  {
    var before, after := s.shared.log, Next(s, l).shared.log;
    match l {
      case Work(c) => WorkerLog(s.shared, s.worker, c);
      case Handle(h, c) => HandlerLog(s.shared, s.handlers[h], s.kube, c);
      case _ =>
    }
    if after != before {
      var e :| after == before + [e] && !e.RemoveCall?;
      NoRemoval(before, e);
    }
  }

  lemma NoRemoval(log: seq<Event>, e: Event)
    requires !e.RemoveCall?
    ensures Removal(log + [e]) ==> Removal(log)
    ensures RemovedOk(log + [e]) ==> RemovedOk(log)
  {
    Append(log, e);
    if RemovedOk(log + [e]) {
      var p :| RemoveCall(p, true) in log + [e];
      assert RemoveCall(p, true) in log;
    }
  }

  lemma HistByOne(s: State, l: Label)
    requires Enabled(s, l)
    ensures |Next(s, l).shared.hist| <= |s.shared.hist| + 1
    ensures Next(s, l).shared.hist != s.shared.hist ==> Next(s, l).shared.gone == s.shared.gone
  {
  }

  lemma StepKeepsCleanup(s: State, l: Label)
    requires Inv(s) && Enabled(s, l) && CleanupKnown(s.shared)
    ensures CleanupKnown(Next(s, l).shared)
  {
    var g, k := s.shared, Next(s, l).shared;
    StepKeepsInv(s, l);
    CallsOf(s, l);
    HistByOne(s, l);
    if MarkedWithKey(g) {
      MarkedWithKeyStays(g, k);
      var i :| 0 <= i < |g.hist| && g.hist[i].marked;
      assert Last(g).marked;
      if LacksKey(k) && !LacksKey(g) {
        KeyLeavesByStrip(s, l);
      }
    } else if MarkedWithKey(k) {
      assert k.hist != g.hist;
      if !k.gone {
        NewVersionCounts(g, k);
      }
    }
  }

  lemma {:induction false} RunKeepsCleanup(run: seq<Label>)
    requires IsRun(run)
    ensures CleanupKnown(After(run).shared) && (After(run).shared.gone ==> After(run).shared.hist != [])
  {
    if run != [] {
      var front := run[..|run| - 1];
      RunKeepsInv(front);
      RunKeepsCleanup(front);
      StepKeepsCleanup(After(front), run[|run| - 1]);
    }
    RunKeepsInv(run);
  }

  /** The exact condition: a vanished cluster had its backend cleaned up if and
      only if it carried the key when it was marked for deletion. */
  lemma CleanedUpIffMarkedWithKey(run: seq<Label>)
    requires IsRun(run) && After(run).shared.gone
    ensures RemovedOk(After(run).shared.log) <==> MarkedWithKey(After(run).shared)
  {
    RunKeepsCleanup(run);
  }

  /** A cluster that vanished without ever being marked is never cleaned up,
      however the run goes on. */
  lemma ForgottenForever(run: seq<Label>, i: nat)
    requires IsRun(run) && i <= |run| && IsRun(run[..i])
    requires var g := After(run[..i]).shared; g.gone && g.hist != [] && !Last(g).marked
    ensures !Removal(After(run).shared.log)
  {
    RunMovesForward(run, i);
    RunKeepsCleanup(run);
  }

  // ---------- which path the backend is called with ----------

  /** Some version with this mark had this spec path. */
  ghost predicate StoredPath(hist: seq<Cluster>, marked: bool, path: string) {
    exists v :: 0 <= v < |hist| && hist[v].marked == marked && hist[v].path == path
  }

  ghost predicate CallPathStored(hist: seq<Cluster>, e: Event) {
    && (e.ProvisionCall? ==> StoredPath(hist, false, e.path))
    && (e.RemoveCall? ==> StoredPath(hist, true, e.path))
  }

  ghost predicate CallPathsStored(hist: seq<Cluster>, log: seq<Event>) {
    forall k :: 0 <= k < |log| ==> CallPathStored(hist, log[k])
  }

  lemma PathStays(hist: seq<Cluster>, more: seq<Cluster>, e: Event)
    requires hist <= more && CallPathStored(hist, e)
    ensures CallPathStored(more, e)
  {
    if e.ProvisionCall? {
      var v :| 0 <= v < |hist| && !hist[v].marked && hist[v].path == e.path;
      assert more[v] == hist[v];
    }
    if e.RemoveCall? {
      var v :| 0 <= v < |hist| && hist[v].marked && hist[v].path == e.path;
      assert more[v] == hist[v];
    }
  }

  lemma HeapPathStored(g: Shared, o: nat)
    requires Ground(g) && o < |g.heap|
    ensures StoredPath(g.hist, g.heap[o].marked, g.heap[o].path)
  {
    assert LiveCopy(g.hist, g.log, g.heap[o]);
    assert g.hist[g.heap[o].rv].path == g.heap[o].path;
  }

  lemma CallByOne(g: Shared, w: Worker, c: Choice)
    requires Ground(g) && WorkerOk(g, w) && InHeap(g, WorkerObject(w)) && (w.Backend? || w.Remove?)
    ensures exists e :: WorkerEffect(g, w, c).log == g.log + [e] && CallPathStored(g.hist, e)
  {
    HeapPathStored(g, w.o);
    var path := g.heap[w.o].path;
    var e := if w.Remove? then RemoveCall(path, c.ok) else ProvisionCall(w.config, path, c.ok);
    assert WorkerEffect(g, w, c).log == g.log + [e] && CallPathStored(g.hist, e);
  }

  lemma WorkByOne(g: Shared, w: Worker, c: Choice)
    requires Ground(g) && WorkerOk(g, w) && InHeap(g, WorkerObject(w))
    ensures var k := WorkerEffect(g, w, c);
      k.log == g.log || exists e :: k.log == g.log + [e] && CallPathStored(g.hist, e)
  {
    if w.Backend? || w.Remove? {
      CallByOne(g, w, c);
    } else {
      WorkerLog(g, w, c);
    }
  }

  lemma LogByOne(s: State, l: Label)
    requires Inv(s) && Enabled(s, l)
    ensures var before, after := s.shared.log, Next(s, l).shared.log;
      after == before || exists e :: after == before + [e] && CallPathStored(s.shared.hist, e)
  {
    match l {
      case Work(c) => WorkByOne(s.shared, s.worker, c);
      case Handle(h, c) => HandlerLog(s.shared, s.handlers[h], s.kube, c);
      case _ =>
    }
  }

  lemma StepKeepsPaths(s: State, l: Label)
    requires Inv(s) && Enabled(s, l) && CallPathsStored(s.shared.hist, s.shared.log)
    ensures CallPathsStored(Next(s, l).shared.hist, Next(s, l).shared.log)
  {
    var g, k := s.shared, Next(s, l).shared;
    StepKeepsInv(s, l);
    LogByOne(s, l);
    forall i | 0 <= i < |k.log| ensures CallPathStored(k.hist, k.log[i]) {
      assert CallPathStored(g.hist, k.log[i]);
      PathStays(g.hist, k.hist, k.log[i]);
    }
  }

  lemma {:induction false} RunKeepsPaths(run: seq<Label>)
    requires IsRun(run)
    ensures CallPathsStored(After(run).shared.hist, After(run).shared.log)
  {
    if run != [] {
      var front := run[..|run| - 1];
      RunKeepsPaths(front);
      RunKeepsInv(front);
      StepKeepsPaths(After(front), run[|run| - 1]);
    }
  }

  /** A provision call names the spec path of some version from before the
      mark, a remove call that of some version after it. */
  lemma CallsUseStoredPaths(run: seq<Label>, k: nat)
    requires IsRun(run) && k < |After(run).shared.log|
    ensures var g := After(run).shared;
      && (g.log[k].ProvisionCall? ==> StoredPath(g.hist, false, g.log[k].path))
      && (g.log[k].RemoveCall? ==> StoredPath(g.hist, true, g.log[k].path))
  {
    RunKeepsPaths(run);
    assert CallPathStored(After(run).shared.hist, After(run).shared.log[k]);
  }

  /** While no version has another spec path, every backend call names the one
      there is, and cleanup reaches it. */
  lemma UneditedSpecOnePath(run: seq<Label>, path: string)
    requires IsRun(run)
    requires PathSince(After(run).shared.hist, 0, path)
    ensures var g := After(run).shared;
      && (forall k :: 0 <= k < |g.log| && (g.log[k].ProvisionCall? || g.log[k].RemoveCall?) ==> g.log[k].path == path)
      && (MarkedWithKey(g) && LacksKey(g) ==> RemoveCall(path, true) in g.log)
  {
    RunKeepsPaths(run);
    RunKeepsCleanup(run);
    var g := After(run).shared;
    forall k | 0 <= k < |g.log| && (g.log[k].ProvisionCall? || g.log[k].RemoveCall?) ensures g.log[k].path == path {
      assert CallPathStored(g.hist, g.log[k]);
    }
    if RemovedOk(g.log) {
      RemovedAt(g.log, path);
    }
  }

  ghost predicate RemovesOnly(log: seq<Event>, path: string) {
    forall k :: 0 <= k < |log| && log[k].RemoveCall? ==> log[k].path == path
  }

  lemma RemovedAt(log: seq<Event>, path: string)
    requires RemovedOk(log) && RemovesOnly(log, path)
    ensures RemoveCall(path, true) in log
  {
    var p :| RemoveCall(p, true) in log;
    var k :| 0 <= k < |log| && log[k] == RemoveCall(p, true);
  }

  // ---------- from the middle of a run ----------

  /** All versions from number n on have this path. */
  ghost predicate PathSince(hist: seq<Cluster>, n: nat, path: string) {
    forall v :: n <= v < |hist| ==> hist[v].path == path
  }

  /** A key in the store stays until cleanup has succeeded. */
  lemma {:induction false} KeyStaysUntilCleanup(run: seq<Label>, i: nat)
    requires IsRun(run) && i <= |run| && IsRun(run[..i]) && !LacksKey(After(run[..i]).shared)
    ensures LacksKey(After(run).shared) ==> RemovedOk(After(run).shared.log)
  {
    if i == |run| {
      assert run[..i] == run;
    } else {
      var front := run[..|run| - 1];
      assert front[..i] == run[..i];
      KeyStaysUntilCleanup(front, i);
      RunKeepsInv(front);
      StepKeepsInv(After(front), run[|run| - 1]);
      if LacksKey(After(run).shared) && !LacksKey(After(front).shared) {
        KeyLeavesByStrip(After(front), run[|run| - 1]);
      }
    }
  }

  /** Whatever spec the backend was provisioned for so far: if the stored
      cluster carries the key, unmarked, at `path`, and no later version leaves
      that path, every remove call names it, and when the key is off the store
      such a call has succeeded. */
  lemma LaterPathIsCleaned(run: seq<Label>, i: nat, path: string)
    requires IsRun(run) && i <= |run| && IsRun(run[..i]) && Standing(After(run[..i]).shared, path)
    requires PathSince(After(run).shared.hist, |After(run[..i]).shared.hist|, path)
    ensures RemovesOnly(After(run).shared.log, path)
    ensures LacksKey(After(run).shared) ==> RemoveCall(path, true) in After(run).shared.log
  {
    RunKeepsPaths(run);
    RunMovesForward(run, i);
    RunKeepsInv(run);
    MarkedLater(After(run[..i]).shared, After(run).shared, path);
    KeyStaysUntilCleanup(run, i);
    if LacksKey(After(run).shared) {
      RemovedAt(After(run).shared.log, path);
    }
  }

  lemma MarkedLater(g: Shared, k: Shared, path: string)
    requires Standing(g, path) && g.hist <= k.hist && Versioned(k.hist) && CallPathsStored(k.hist, k.log)
    requires PathSince(k.hist, |g.hist|, path)
    ensures RemovesOnly(k.log, path)
  {
    assert k.hist[|g.hist| - 1] == Last(g);
    forall n | 0 <= n < |k.log| && k.log[n].RemoveCall? ensures k.log[n].path == path {
      assert CallPathStored(k.hist, k.log[n]);
      var v :| 0 <= v < |k.hist| && k.hist[v].marked && k.hist[v].path == k.log[n].path;
    }
  }

  // ---------- exactly when cleanup reaches a path ----------

  /** So have the stored version and all from number n on. */
  ghost predicate PathFrom(g: Shared, n: nat, path: string) {
    g.hist != [] && Last(g).path == path && PathSince(g.hist, n, path)
  }

  lemma StoreKeepsPath(g: Shared, c: Cluster, n: nat, path: string)
    requires PathFrom(g, n, path) && Current(g, c)
    requires LiveCopy(g.hist, g.log, c) || StripCopy(g.hist, g.log, c)
    ensures PathFrom(Store(g, c), n, path)
  {
    assert c.path == path;
  }

  lemma OthersKeepPath(s: State, l: Label, n: nat, path: string)
    requires Enabled(s, l) && !ByController(l) && PathFrom(s.shared, n, path) && (l.EditSpec? ==> l.path == path)
    ensures PathFrom(Next(s, l).shared, n, path)
  {
  }

  lemma StepKeepsPath(s: State, l: Label, n: nat, path: string)
    requires Inv(s) && Enabled(s, l) && PathFrom(s.shared, n, path) && (l.EditSpec? ==> l.path == path)
    ensures PathFrom(Next(s, l).shared, n, path)
  {
    if ByController(l) {
      if Commits(s, l) {
        CommitsAreCurrent(s, l);
        StoreKeepsPath(s.shared, Submitted(s, l).value, n, path);
      }
    } else {
      OthersKeepPath(s, l, n, path);
    }
  }

  lemma EditsPrefix(run: seq<Label>, more: seq<Label>, paths: set<string>)
    requires EditsWithin(run, more, paths) && run != more
    ensures var front, l := more[..|more| - 1], more[|more| - 1];
      && EditsWithin(run, front, paths) && (l.EditSpec? ==> l.path in paths)
      && Enabled(After(front), l) && After(more) == Next(After(front), l)
  {
    var front := more[..|more| - 1];
    assert forall k :: 0 <= k < |front| ==> front[k] == more[k];
  }

  lemma {:induction false} EditsKeepPath(run: seq<Label>, more: seq<Label>, n: nat, path: string, paths: set<string>)
    requires IsRun(run) && EditsWithin(run, more, paths) && paths <= {path} && PathFrom(After(run).shared, n, path)
    ensures PathFrom(After(more).shared, n, path)
    decreases |more|
  {
    if run != more {
      EditsPrefix(run, more, paths);
      var front := more[..|more| - 1];
      EditsKeepPath(run, front, n, path, paths);
      RunKeepsInv(front);
      StepKeepsPath(After(front), more[|more| - 1], n, path);
    }
  }

  /** A continuation that has taken the key off the store. */
  ghost predicate Finishes(run: seq<Label>, more: seq<Label>, paths: set<string>) {
    EditsWithin(run, more, paths) && LacksKey(After(more).shared)
  }

  ghost predicate Removes(run: seq<Label>, path: string) {
    IsRun(run) && RemoveCall(path, true) in After(run).shared.log
  }

  /** The converse: from every run whose worker is idle and whose stored cluster
      carries the key, unmarked, an edit to any path and a deletion lead to a
      cluster without the key of which only that path was cleaned up. */
  lemma CleanupCanGoTo(run: seq<Label>, path: string, paths: set<string>) returns (more: seq<Label>)
    requires IsRun(run) && After(run).worker.Idle?
    requires var g := After(run).shared;
      Live(g) && Standing(g, Last(g).path) && (path != Last(g).path ==> path in paths)
    ensures Finishes(run, more, paths)
    ensures After(more).shared.log == After(run).shared.log + [RemoveCall(path, true)]
    ensures After(more).shared.gone <==> Strip(Last(After(run).shared).finalizers, PROVISIONER) == []
  {
    var s := After(run);
    RunKeepsInv(run);
    more := ReachStrip(run, run, s, path, paths);
    more := StripDone(run, more, After(more), Strip(Last(s.shared).finalizers, PROVISIONER), paths);
  }

  /** While the cluster is unmarked nothing has been removed. */
  lemma NothingRemoved(run: seq<Label>, path: string)
    requires IsRun(run) && Standing(After(run).shared, path)
    ensures forall e :: e in After(run).shared.log ==> !e.RemoveCall?
  {
    RunKeepsCleanup(run);
    var log := After(run).shared.log;
    forall e | e in log ensures !e.RemoveCall? {
      var k :| 0 <= k < |log| && log[k] == e;
      assert log[k].RemoveCall? ==> Removal(log);
    }
  }

  lemma OneRemoval(log: seq<Event>, more: seq<Event>, path: string)
    requires (forall e :: e in log ==> !e.RemoveCall?) && more == log + [RemoveCall(path, true)]
    ensures forall r :: RemoveCall(r, true) in more ==> r == path
  {
    forall r | RemoveCall(r, true) in more ensures r == path {
      assert RemoveCall(r, true) in log || RemoveCall(r, true) == RemoveCall(path, true);
      assert RemoveCall(r, true) in log ==> !RemoveCall(r, true).RemoveCall?;
    }
  }

  lemma CleanupOnlyTo(run: seq<Label>, p: string, path: string, paths: set<string>) returns (more: seq<Label>)
    requires IsRun(run) && After(run).worker.Idle? && Standing(After(run).shared, p) && (path != p ==> path in paths)
    ensures Finishes(run, more, paths)
    ensures forall r :: Removes(more, r) ==> r == path
  {
    NothingRemoved(run, p);
    more := CleanupCanGoTo(run, path, paths);
    OneRemoval(After(run).shared.log, After(more).shared.log, path);
  }

  /** From any such run, with the worker anywhere: cleanup of one path only. */
  lemma CleanupOnlyAt(run: seq<Label>, path: string, paths: set<string>) returns (more: seq<Label>)
    requires IsRun(run)
    requires var g := After(run).shared;
      Live(g) && Standing(g, Last(g).path) && (path != Last(g).path ==> path in paths)
    ensures Finishes(run, more, paths)
    ensures forall r :: Removes(more, r) ==> r == path
  {
    var p := Last(After(run).shared).path;
    var idle := Settle(run, run);
    StillStanding(After(run).shared, After(idle).shared, p);
    more := CleanupOnlyTo(idle, p, path, paths);
    QuietEditsNothing(run, idle, paths);
    EditsTransitive(run, idle, more, paths);
  }

  /** Exactly when cleanup is sure to reach a path, such as that of the latest
      provision call: in all continuations in which users set the spec only to
      `paths`, a cluster that lost its key had path r removed, if and only if
      r is the stored path and `paths` holds no other. */
  lemma CleanupReachesIff(run: seq<Label>, path: string, r: string, paths: set<string>)
    requires IsRun(run) && Standing(After(run).shared, path)
    ensures (forall more :: Finishes(run, more, paths) ==> Removes(more, r)) <==> r == path && paths <= {path}
  {
    if r == path && paths <= {path} {
      forall more | Finishes(run, more, paths) ensures Removes(more, r) {
        assert more[..|run|] == run;
        EditsKeepPath(run, more, |After(run).shared.hist|, path, paths);
        LaterPathIsCleaned(more, |run|, path);
      }
    } else {
      var q := path;
      if r == path {
        q :| q in paths && q != path;
      }
      var more := CleanupOnlyAt(run, q, paths);
      assert Finishes(run, more, paths) && !Removes(more, r);
    }
  }

  // ---------- exactly when every provisioned path is cleaned up ----------

  /** Every path provisioned with success was also removed with success. */
  ghost predicate Matched(run: seq<Label>) {
    IsRun(run) && forall path :: Provisions(run, path) ==> Removes(run, path)
  }

  /** What the cache shows unmarked may be provisioned. */
  lemma ProvisionCached(run: seq<Label>, o: nat) returns (more: seq<Label>)
    requires IsRun(run) && After(run).cache == Some(o) && Unmarked(After(run).shared, o)
    ensures Quiet(run, more) && SameStore(After(run).shared, After(more).shared)
    ensures Uncleaned(After(run).shared.log, After(more).shared.log)
    ensures Provisions(more, After(run).shared.heap[o].path)
  {
    var queued := QueueKey(run, o);
    var c, log := After(queued).shared.heap[o], After(queued).shared.log;
    var config := c.applied + "x";
    more := ReachProvision(run, queued, o, config);
    assert After(more).shared.log == log + SyncCalls(config, c.path);
    assert After(more).shared.log[|log| + 1] == ProvisionCall(config, c.path, true);
    SyncRemovesNothing(log, config, c.path);
  }

  lemma SyncRemovesNothing(log: seq<Event>, config: string, path: string)
    ensures Uncleaned(log, log + SyncCalls(config, path))
  {
  }

  /** A provision call for this path has succeeded. */
  ghost predicate Provisions(run: seq<Label>, path: string) {
    IsRun(run) && exists config :: ProvisionCall(config, path, true) in After(run).shared.log
  }

  /** Any unmarked version may come back to the cache and be provisioned. */
  lemma ProvisionVersion(run: seq<Label>, v: nat, paths: set<string>) returns (more: seq<Label>)
    requires IsRun(run) && v < |After(run).shared.hist| && !After(run).shared.hist[v].marked
    ensures EditsWithin(run, more, paths) && SameStore(After(run).shared, After(more).shared)
    ensures Uncleaned(After(run).shared.log, After(more).shared.log)
    ensures Provisions(more, After(run).shared.hist[v].path)
  {
    var delivered := Extend(run, run, After(run), Refresh(v), paths);
    more := ProvisionCached(delivered, |After(run).shared.heap|);
    QuietEditsNothing(delivered, more, paths);
    EditsTransitive(run, delivered, more, paths);
  }

  lemma ProvisionStays(run: seq<Label>, more: seq<Label>, path: string)
    requires run <= more && IsRun(more) && Provisions(run, path)
    ensures Provisions(more, path)
  {
    RunMovesForward(more, |run|);
    assert more[..|run|] == run;
    var config :| ProvisionCall(config, path, true) in After(run).shared.log;
    assert ProvisionCall(config, path, true) in After(more).shared.log;
  }

  /** One path is provisioned and another cleaned up. */
  lemma ProvisionHereRemoveThere(run: seq<Label>, v: nat, path: string, q: string, paths: set<string>)
    returns (more: seq<Label>)
    requires IsRun(run) && Standing(After(run).shared, path) && v < |After(run).shared.hist|
    requires (q != path ==> q in paths) && After(run).shared.hist[v].path != q
    ensures Finishes(run, more, paths) && !Matched(more)
  {
    var p := After(run).shared.hist[v].path;
    UnmarkedSoFar(run, v, path);
    var called := ProvisionVersion(run, v, paths);
    StillStanding(After(run).shared, After(called).shared, path);
    more := CleanupOnlyAt(called, q, paths);
    EditsTransitive(run, called, more, paths);
    ProvisionStays(called, more, p);
    NotMatched(more, p);
  }

  lemma NotMatched(run: seq<Label>, path: string)
    requires Provisions(run, path) && !Removes(run, path)
    ensures !Matched(run)
  {
  }

  lemma StillStanding(g: Shared, k: Shared, path: string)
    requires Standing(g, path) && SameStore(g, k)
    ensures Standing(k, path) && Last(k).path == path
  {
  }

  lemma UnmarkedSoFar(run: seq<Label>, v: nat, path: string)
    requires IsRun(run) && Standing(After(run).shared, path) && v < |After(run).shared.hist|
    ensures !After(run).shared.hist[v].marked
  {
    RunKeepsInv(run);
  }

  /** Exactly when nothing provisioned is left running: in all continuations in
      which users set the spec only to `paths`, a cluster that lost its key had
      every provisioned path removed, if and only if all versions so far have
      the stored path and `paths` holds no other. */
  lemma AllPathsCleanedIff(run: seq<Label>, path: string, paths: set<string>)
    requires IsRun(run) && Standing(After(run).shared, path)
    ensures (forall more :: Finishes(run, more, paths) ==> Matched(more))
      <==> PathFrom(After(run).shared, 0, path) && paths <= {path}
  {
    if PathFrom(After(run).shared, 0, path) && paths <= {path} {
      forall more | Finishes(run, more, paths) ensures Matched(more) {
        OnePathMatched(run, more, path, paths);
      }
    } else if !(paths <= {path}) {
      var q :| q in paths && q != path;
      var more := ProvisionHereRemoveThere(run, |After(run).shared.hist| - 1, path, q, paths);
      assert Finishes(run, more, paths) && !Matched(more);
    } else {
      var v :| 0 <= v < |After(run).shared.hist| && After(run).shared.hist[v].path != path;
      var more := ProvisionHereRemoveThere(run, v, path, path, paths);
      assert Finishes(run, more, paths) && !Matched(more);
    }
  }

  lemma OnePathMatched(run: seq<Label>, more: seq<Label>, path: string, paths: set<string>)
    requires IsRun(run) && Standing(After(run).shared, path) && Finishes(run, more, paths)
    requires PathFrom(After(run).shared, 0, path) && paths <= {path}
    ensures Matched(more)
  {
    assert more[..|run|] == run;
    EditsKeepPath(run, more, 0, path, paths);
    LaterPathIsCleaned(more, |run|, path);
    UneditedSpecOnePath(more, path);
    var log := After(more).shared.log;
    forall p | Provisions(more, p) ensures p == path {
      var config :| ProvisionCall(config, p, true) in log;
      var k :| 0 <= k < |log| && log[k] == ProvisionCall(config, p, true);
    }
  }

  // ---------- after the mark ----------

  /** The store holds a marked cluster with the key. */
  ghost predicate Ending(g: Shared) {
    Live(g) && Last(g).marked && PROVISIONER in Last(g).finalizers
  }

  ghost predicate MarkedPaths(hist: seq<Cluster>, path: string) {
    forall v :: 0 <= v < |hist| && hist[v].marked ==> hist[v].path == path
  }

  /** Cleanup of path r is done, or can go nowhere else: all marked versions
      have that path and no other may be set. */
  ghost predicate Sure(run: seq<Label>, r: string, paths: set<string>) {
    Removes(run, r) || (IsRun(run) && MarkedPaths(After(run).shared.hist, r) && paths <= {r})
  }

  lemma CleanupOnly(run: seq<Label>, r: string)
    requires IsRun(run) && MarkedPaths(After(run).shared.hist, r)
    ensures RemovesOnly(After(run).shared.log, r)
  {
    RunKeepsPaths(run);
    var g := After(run).shared;
    forall k | 0 <= k < |g.log| && g.log[k].RemoveCall? ensures g.log[k].path == r {
      assert CallPathStored(g.hist, g.log[k]);
    }
  }

  lemma RemovalStays(run: seq<Label>, more: seq<Label>, path: string)
    requires run <= more && IsRun(more) && Removes(run, path)
    ensures Removes(more, path)
  {
    RunMovesForward(more, |run|);
    assert more[..|run|] == run;
  }

  lemma SureIsRemoved(run: seq<Label>, more: seq<Label>, r: string, paths: set<string>)
    requires IsRun(run) && Ending(After(run).shared) && Sure(run, r, paths) && Finishes(run, more, paths)
    ensures Removes(more, r)
  {
    assert more[..|run|] == run;
    if Removes(run, r) {
      RemovalStays(run, more, r);
    } else {
      var n := |After(run).shared.hist|;
      EditsKeepPath(run, more, n, r, paths);
      RunMovesForward(more, |run|);
      MarkedPathsStay(After(run).shared.hist, After(more).shared.hist, r);
      CleanupOnly(more, r);
      KeyStaysUntilCleanup(more, |run|);
      RemovedAt(After(more).shared.log, r);
    }
  }

  lemma MarkedPathsStay(hist: seq<Cluster>, more: seq<Cluster>, r: string)
    requires hist <= more && MarkedPaths(hist, r) && PathSince(more, |hist|, r)
    ensures MarkedPaths(more, r)
  {
    forall v | 0 <= v < |more| && more[v].marked ensures more[v].path == r {
      if v < |hist| { assert more[v] == hist[v]; }
    }
  }

  /** A marked version with another path is there, or a user makes one. */
  lemma OtherVersion(run: seq<Label>, r: string, paths: set<string>) returns (more: seq<Label>, v: nat)
    requires IsRun(run) && Condemned(After(run)) && !(MarkedPaths(After(run).shared.hist, r) && paths <= {r})
    ensures EditsWithin(run, more, paths) && Condemned(After(more)) && After(more).shared.log == After(run).shared.log
    ensures MarkedVersion(After(more).shared, v) && After(more).shared.hist[v].path != r
  {
    var g := After(run).shared;
    if !MarkedPaths(g.hist, r) {
      more := run;
      v :| 0 <= v < |g.hist| && g.hist[v].marked && g.hist[v].path != r;
    } else {
      var q :| q in paths && q != r;
      v := |g.hist|;
      EditedStays(After(run), q);
      more := Extend(run, run, After(run), EditSpec(q), paths);
    }
  }

  lemma EditedStays(s: State, q: string)
    requires Condemned(s) && Last(s.shared).path != q
    ensures var t, n := Next(s, EditSpec(q)), |s.shared.hist|;
      Condemned(t) && t.shared.log == s.shared.log && MarkedVersion(t.shared, n) && t.shared.hist[n].path == q
  {
  }

  /** Unless it is sure, the key can come off without a cleanup of r. */
  lemma FinishWithout(run: seq<Label>, r: string, paths: set<string>) returns (more: seq<Label>)
    requires IsRun(run) && Ending(After(run).shared) && !Sure(run, r, paths)
    ensures Finishes(run, more, paths) && !Removes(more, r)
  {
    var idle := Settle(run, run);
    RunKeepsInv(idle);
    var v;
    more, v := OtherVersion(idle, r, paths);
    var s := After(more);
    var foreign := Strip(Last(s.shared).finalizers, PROVISIONER);
    more := RemoveVersion(idle, more, s, v, paths);
    more := StripDone(idle, more, After(more), foreign, paths);
    QuietEditsNothing(run, idle, paths);
    EditsTransitive(run, idle, more, paths);
  }

  /** Exactly when cleanup is sure to reach a path once the cluster is marked:
      users may still edit the spec, and a stale version may come back. */
  lemma EndingCleanupReachesIff(run: seq<Label>, r: string, paths: set<string>)
    requires IsRun(run) && Ending(After(run).shared)
    ensures (forall more :: Finishes(run, more, paths) ==> Removes(more, r)) <==> Sure(run, r, paths)
  {
    if Sure(run, r, paths) {
      forall more | Finishes(run, more, paths) ensures Removes(more, r) {
        SureIsRemoved(run, more, r, paths);
      }
    } else {
      var more := FinishWithout(run, r, paths);
      assert Finishes(run, more, paths) && !Removes(more, r);
    }
  }

  /** Every path a provision call can still name is sure to be cleaned up. */
  ghost predicate AllSure(run: seq<Label>, paths: set<string>)
    requires IsRun(run)
  {
    var hist := After(run).shared.hist;
    forall v :: 0 <= v < |hist| && !hist[v].marked ==> Sure(run, hist[v].path, paths)
  }

  lemma StoredBeforeMark(g: Shared, k: Shared, path: string) returns (v: nat)
    requires Ending(g) && g.hist <= k.hist && Versioned(k.hist) && StoredPath(k.hist, false, path)
    ensures v < |g.hist| && !g.hist[v].marked && g.hist[v].path == path
  {
    v :| 0 <= v < |k.hist| && !k.hist[v].marked && k.hist[v].path == path;
    assert k.hist[|g.hist| - 1] == Last(g);
    assert v < |g.hist| ==> k.hist[v] == g.hist[v];
  }

  lemma ProvisionedPathStored(run: seq<Label>, path: string)
    requires Provisions(run, path)
    ensures StoredPath(After(run).shared.hist, false, path)
  {
    RunKeepsPaths(run);
    var g := After(run).shared;
    var config :| ProvisionCall(config, path, true) in g.log;
    var n :| 0 <= n < |g.log| && g.log[n] == ProvisionCall(config, path, true);
    assert CallPathStored(g.hist, g.log[n]);
  }

  /** Whatever was provisioned was stored before the mark. */
  lemma ProvisionedBeforeMark(run: seq<Label>, more: seq<Label>, path: string) returns (v: nat)
    requires IsRun(run) && Ending(After(run).shared) && run <= more && Provisions(more, path)
    ensures v < |After(run).shared.hist|
    ensures !After(run).shared.hist[v].marked && After(run).shared.hist[v].path == path
  {
    RunMovesForward(more, |run|);
    assert more[..|run|] == run;
    RunKeepsInv(more);
    ProvisionedPathStored(more, path);
    v := StoredBeforeMark(After(run).shared, After(more).shared, path);
  }

  lemma AllSureMatched(run: seq<Label>, more: seq<Label>, paths: set<string>)
    requires IsRun(run) && Ending(After(run).shared) && AllSure(run, paths) && Finishes(run, more, paths)
    ensures Matched(more)
  {
    forall path | Provisions(more, path) ensures Removes(more, path) {
      var v := ProvisionedBeforeMark(run, more, path);
      SureIsRemoved(run, more, path, paths);
    }
  }

  lemma ProvisionAndMiss(run: seq<Label>, v: nat, paths: set<string>) returns (more: seq<Label>)
    requires IsRun(run) && Ending(After(run).shared)
    requires v < |After(run).shared.hist| && !After(run).shared.hist[v].marked
    requires !Sure(run, After(run).shared.hist[v].path, paths)
    ensures Finishes(run, more, paths) && !Matched(more)
  {
    var path := After(run).shared.hist[v].path;
    var called := ProvisionVersion(run, v, paths);
    StillEnding(run, called, path, paths);
    more := FinishWithout(called, path, paths);
    EditsTransitive(run, called, more, paths);
    ProvisionStays(called, more, path);
    NotMatched(more, path);
  }

  lemma StillEnding(run: seq<Label>, called: seq<Label>, path: string, paths: set<string>)
    requires IsRun(run) && IsRun(called) && SameStore(After(run).shared, After(called).shared)
    requires Uncleaned(After(run).shared.log, After(called).shared.log)
    requires Ending(After(run).shared) && !Sure(run, path, paths)
    ensures Ending(After(called).shared) && !Sure(called, path, paths)
  {
  }

  /** Exactly when nothing provisioned is left running once the cluster is
      marked: the path of every unmarked version is sure to be cleaned up. */
  lemma EndingAllPathsCleanedIff(run: seq<Label>, paths: set<string>)
    requires IsRun(run) && Ending(After(run).shared)
    ensures (forall more :: Finishes(run, more, paths) ==> Matched(more)) <==> AllSure(run, paths)
  {
    if AllSure(run, paths) {
      forall more | Finishes(run, more, paths) ensures Matched(more) {
        AllSureMatched(run, more, paths);
      }
    } else {
      var hist := After(run).shared.hist;
      var v :| 0 <= v < |hist| && !hist[v].marked && !Sure(run, hist[v].path, paths);
      var more := ProvisionAndMiss(run, v, paths);
      assert Finishes(run, more, paths) && !Matched(more);
    }
  }
}
