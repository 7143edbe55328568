/** What the operator can be brought to do from any state it can reach, and
    what stays as it is on the way. */
module Reach {
  import opened Objects
  import opened Machine
  import opened Invariant
  import opened Preservation
  import opened Convergence

  ghost predicate Reaches(run: seq<Label>, s: State) {
    IsRun(run) && After(run) == s
  }

  lemma Go(run: seq<Label>, s: State, l: Label) returns (more: seq<Label>)
    requires Reaches(run, s) && Enabled(s, l)
    ensures more == run + [l] && Reaches(more, Next(s, l))
  {
    more := run + [l];
    RunStep(run, l);
  }

  // ---------- continuations without deliveries and users ----------

  predicate IsQuiet(l: Label) {
    l.Work? || l.Resync? || l.Notify?
  }

  /** `more` goes on from `run` with the worker and notifications alone. */
  ghost predicate Quiet(run: seq<Label>, more: seq<Label>) {
    && run <= more && IsRun(more)
    && forall k :: |run| <= k < |more| ==> IsQuiet(more[k])
  }

  lemma QuietStep(run: seq<Label>, from: seq<Label>, l: Label) returns (more: seq<Label>)
    requires Quiet(run, from) && Enabled(After(from), l) && IsQuiet(l)
    ensures Quiet(run, more) && After(more) == Next(After(from), l)
  {
    more := Go(from, After(from), l);
  }

  /** No request arrives, but the file is read and the backend does as it is
      asked. */
  function Faulty(config: string): Choice {
    Choice(Lost, Some(config), true, "")
  }

  /** Nothing arrives and nothing succeeds. */
  const BAD := Choice(Lost, None, false, "")

  ghost predicate SameStore(g: Shared, k: Shared) {
    k.hist == g.hist && k.gone == g.gone
  }

  /** No cleanup succeeded between `log` and `more`. */
  ghost predicate Uncleaned(log: seq<Event>, more: seq<Event>) {
    forall path :: RemoveCall(path, true) in more ==> RemoveCall(path, true) in log
  }

  lemma BadStep(s: State)
    requires InRange(s) && !s.worker.Idle?
    ensures var t := WorkerStep(s, BAD);
      SameStore(s.shared, t.shared) && t.cache == s.cache && Uncleaned(s.shared.log, t.shared.log)
  {
  }

  /** The worker finishes its sync in vain: what the store holds and what the
      cache shows stays. */
  lemma {:induction false} Settle(run: seq<Label>, from: seq<Label>) returns (more: seq<Label>)
    requires Quiet(run, from)
    ensures Quiet(run, more) && After(more).worker.Idle? && After(more).cache == After(from).cache
    ensures SameStore(After(from).shared, After(more).shared)
    ensures Uncleaned(After(from).shared.log, After(more).shared.log)
    decreases Distance(After(from).worker)
  {
    more := from;
    if !After(from).worker.Idle? {
      RunKeepsInv(from);
      StepsAdvance(After(from), BAD);
      BadStep(After(from));
      var next := QuietStep(run, from, Work(BAD));
      more := Settle(run, next);
    }
  }

  /** The worker is idle, has the key queued and finds an unmarked object. */
  ghost predicate AtUnmarked(s: State, o: nat) {
    s.worker.Idle? && s.dirty && s.cache == Some(o) && Unmarked(s.shared, o)
  }

  lemma QueueKey(run: seq<Label>, o: nat) returns (more: seq<Label>)
    requires IsRun(run) && After(run).cache == Some(o) && Unmarked(After(run).shared, o)
    ensures Quiet(run, more) && AtUnmarked(After(more), o)
    ensures After(more).shared.heap[o].path == After(run).shared.heap[o].path
    ensures SameStore(After(run).shared, After(more).shared)
    ensures Uncleaned(After(run).shared.log, After(more).shared.log)
  {
    more := Settle(run, run);
    RunMovesForward(more, |run|);
    assert more[..|run|] == run;
    assert Grown(After(run).shared.heap[o], After(more).shared.heap[o]);
    more := QuietStep(run, more, Resync);
    more := QuietStep(run, more, Notify);
  }

  // ---------- a provision call ----------

  /** The worker stands at `w` with object `o`, unmarked and at `path`; the
      store is as in `g`. */
  ghost predicate Holds(s: State, g: Shared, w: Worker, o: nat, path: string) {
    && s.worker == w && InHeap(s.shared, s.cache) && SameStore(g, s.shared)
    && Unmarked(s.shared, o) && s.shared.heap[o].path == path
  }

  /** What a sync that gets to the backend logs. */
  function SyncCalls(config: string, path: string): seq<Event> {
    [ReadConfig(config), ProvisionCall(config, path, true)]
  }

  /** The worker takes the object and reads something new. */
  lemma TakeUnmarked(run: seq<Label>, from: seq<Label>, o: nat, config: string) returns (more: seq<Label>)
    requires Quiet(run, from) && AtUnmarked(After(from), o) && config != After(from).shared.heap[o].applied
    ensures var g := After(from).shared;
      && Quiet(run, more) && Holds(After(more), g, Init(o, config), o, g.heap[o].path)
      && After(more).shared.log == g.log + [ReadConfig(config)]
  {
    more := QuietStep(run, from, Work(Faulty("")));
    more := QuietStep(run, more, Work(Faulty(config)));
  }

  /** From `initialize` on, the worker gets to `Do` whatever its writes meet. */
  lemma ReachDo(run: seq<Label>, from: seq<Label>, g: Shared, o: nat, config: string, path: string)
    returns (more: seq<Label>)
    requires Quiet(run, from) && Holds(After(from), g, Init(o, config), o, path)
    ensures Quiet(run, more) && Holds(After(more), g, DoBegin(o, config), o, path)
    ensures After(more).shared.log == After(from).shared.log
  {
    var lost := Work(Faulty(""));
    more := QuietStep(run, from, lost);
    if After(more).worker != DoBegin(o, config) {
      more := QuietStep(run, more, lost);
      more := QuietStep(run, more, lost);
      more := QuietStep(run, more, lost);
    }
  }

  /** From `Do` on, a provision call follows. */
  lemma ReachCall(run: seq<Label>, from: seq<Label>, g: Shared, o: nat, config: string, path: string)
    returns (more: seq<Label>)
    requires Quiet(run, from) && Holds(After(from), g, DoBegin(o, config), o, path)
    ensures Quiet(run, more) && Holds(After(more), g, DoEnd(o, config, true), o, path)
    ensures After(more).shared.log == After(from).shared.log + [ProvisionCall(config, path, true)]
  {
    more := QuietStep(run, from, Work(Faulty("")));
    more := QuietStep(run, more, Work(Faulty("")));
  }

  /** A sync of an unmarked object can always be brought to provision, at the
      path of that object: the file only has to hold something new. */
  lemma ReachProvision(run: seq<Label>, from: seq<Label>, o: nat, config: string) returns (more: seq<Label>)
    requires Quiet(run, from) && AtUnmarked(After(from), o) && config != After(from).shared.heap[o].applied
    ensures var g := After(from).shared;
      && Quiet(run, more) && Holds(After(more), g, DoEnd(o, config, true), o, g.heap[o].path)
      && After(more).shared.log == g.log + SyncCalls(config, g.heap[o].path)
  {
    var g := After(from).shared;
    var path := g.heap[o].path;
    more := TakeUnmarked(run, from, o, config);
    more := ReachDo(run, more, g, o, config, path);
    more := ReachCall(run, more, g, o, config, path);
    assert SyncCalls(config, path) == [ReadConfig(config)] + [ProvisionCall(config, path, true)];
  }

  /** The condition and the config are recorded in memory. */
  lemma RecordInMemory(run: seq<Label>, from: seq<Label>, g: Shared, o: nat, config: string, path: string)
    returns (more: seq<Label>)
    requires Quiet(run, from) && Holds(After(from), g, DoEnd(o, config, true), o, path)
    ensures Quiet(run, more) && Holds(After(more), g, RecordPut(o, config, 0), o, path)
    ensures After(more).shared.log == After(from).shared.log
  {
    more := QuietStep(run, from, Work(Faulty("")));
    more := QuietStep(run, more, Work(Faulty("")));
  }

  /** The config is recorded in memory, and its three writes are lost. */
  lemma RecordLost(run: seq<Label>, from: seq<Label>, g: Shared, o: nat, config: string, path: string)
    returns (more: seq<Label>)
    requires Quiet(run, from) && Holds(After(from), g, DoEnd(o, config, true), o, path)
    ensures Quiet(run, more) && Holds(After(more), g, Idle, o, path)
    ensures After(more).shared.log == After(from).shared.log
  {
    var lost := Work(Faulty(""));
    more := RecordInMemory(run, from, g, o, config, path);
    more := QuietStep(run, more, lost);
    more := QuietStep(run, more, lost);
    more := QuietStep(run, more, lost);
    more := QuietStep(run, more, lost);
  }

  // ---------- a cleanup ----------

  /** The store holds an unmarked cluster with the key, at this path. */
  ghost predicate Standing(g: Shared, path: string) {
    Live(g) && !Last(g).marked && PROVISIONER in Last(g).finalizers && Last(g).path == path
  }

  /** `more` goes on from `run`, and users set the spec to these paths only. */
  ghost predicate EditsWithin(run: seq<Label>, more: seq<Label>, paths: set<string>) {
    && run <= more && IsRun(more)
    && forall k :: |run| <= k < |more| && more[k].EditSpec? ==> more[k].path in paths
  }

  lemma QuietEditsNothing(run: seq<Label>, more: seq<Label>, paths: set<string>)
    requires Quiet(run, more)
    ensures EditsWithin(run, more, paths)
  {
    assert forall k :: |run| <= k < |more| ==> !more[k].EditSpec? by {
      assert forall k :: |run| <= k < |more| ==> IsQuiet(more[k]);
    }
  }

  lemma UndisturbedEditsNothing(run: seq<Label>, more: seq<Label>, paths: set<string>)
    requires Undisturbed(run, more)
    ensures EditsWithin(run, more, paths)
  {
    assert forall k :: |run| <= k < |more| ==> !more[k].EditSpec? by {
      assert forall k :: |run| <= k < |more| ==> IsUndisturbed(more[k]);
    }
  }

  lemma EditsTransitive(a: seq<Label>, b: seq<Label>, c: seq<Label>, paths: set<string>)
    requires EditsWithin(a, b, paths) && EditsWithin(b, c, paths)
    ensures EditsWithin(a, c, paths)
  {
    forall k | |a| <= k < |c| && c[k].EditSpec? ensures c[k].path in paths {
      if k < |b| { assert c[k] == b[k]; }
    }
  }

  lemma Extend(run: seq<Label>, from: seq<Label>, s: State, l: Label, paths: set<string>) returns (more: seq<Label>)
    requires EditsWithin(run, from, paths) && After(from) == s && Enabled(s, l) && (l.EditSpec? ==> l.path in paths)
    ensures EditsWithin(run, more, paths) && After(more) == Next(s, l)
  {
    more := Go(from, s, l);
  }

  /** A user moves the spec to `path`. */
  lemma Moved(s: State, path: string)
    requires Resting(s) && Standing(s.shared, Last(s.shared).path)
    ensures var t := Next(s, EditSpec(path));
      && Resting(t) && Standing(t.shared, path) && t.shared.log == s.shared.log
      && Last(t.shared).finalizers == Last(s.shared).finalizers
  {
  }

  /** A user deletes the cluster. */
  lemma Deleted(s: State, path: string)
    requires Resting(s) && Standing(s.shared, path)
    ensures var t := Next(s, Delete);
      && Condemned(t) && t.shared.log == s.shared.log
      && Last(t.shared).path == path && Last(t.shared).finalizers == Last(s.shared).finalizers
  {
  }

  /** The cluster standing in `s` has been deleted at `path`. */
  ghost predicate CondemnedFrom(s: State, t: State, path: string) {
    && Condemned(t) && t.shared.log == s.shared.log && Last(t.shared).path == path
    && s.shared.hist != [] && Last(t.shared).finalizers == Last(s.shared).finalizers
  }

  lemma Condemn(run: seq<Label>, from: seq<Label>, s: State, path: string, paths: set<string>)
    returns (more: seq<Label>)
    requires EditsWithin(run, from, paths) && After(from) == s
    requires Resting(s) && Standing(s.shared, Last(s.shared).path)
    requires path != Last(s.shared).path ==> path in paths
    ensures EditsWithin(run, more, paths) && CondemnedFrom(s, After(more), path)
  {
    if path == Last(s.shared).path {
      Deleted(s, path);
      more := Extend(run, from, s, Delete, paths);
    } else {
      Moved(s, path);
      var t := Next(s, EditSpec(path));
      more := Extend(run, from, s, EditSpec(path), paths);
      Deleted(t, path);
      more := Extend(run, more, t, Delete, paths);
    }
  }

  /** Cleanup of a condemned cluster can be made to go to the path of any marked
      version: the informer delivers that one, the worker takes it, fetches the
      stored one and calls for cleanup. */
  lemma RemoveVersion(run: seq<Label>, from: seq<Label>, s: State, v: nat, paths: set<string>)
    returns (more: seq<Label>)
    requires EditsWithin(run, from, paths) && After(from) == s && Condemned(s) && MarkedVersion(s.shared, v)
    ensures EditsWithin(run, more, paths)
    ensures AtStrip(After(more), Strip(Last(s.shared).finalizers, PROVISIONER))
    ensures After(more).shared.log == s.shared.log + [RemoveCall(s.shared.hist[v].path, true)]
  {
    var begun := BeginAtIsRun(from, v);
    BeginMarked(s, v);
    ReachesStrip(s, v, "");
    UndisturbedEditsNothing(from, begun, paths);
    EditsTransitive(run, from, begun, paths);
    var l := Work(Good(""));
    more := Extend(run, begun, BeginAt(s, v), l, paths);
    more := Extend(run, more, WorkerStep(BeginAt(s, v), Good("")), l, paths);
  }

  /** From an idle worker and a standing cluster, cleanup can be made to go to
      any path a user may set. */
  lemma ReachStrip(run: seq<Label>, from: seq<Label>, s: State, path: string, paths: set<string>)
    returns (more: seq<Label>)
    requires EditsWithin(run, from, paths) && After(from) == s
    requires Resting(s) && Standing(s.shared, Last(s.shared).path)
    requires path != Last(s.shared).path ==> path in paths
    ensures EditsWithin(run, more, paths)
    ensures AtStrip(After(more), Strip(Last(s.shared).finalizers, PROVISIONER))
    ensures After(more).shared.log == s.shared.log + [RemoveCall(path, true)]
  {
    more := Condemn(run, from, s, path, paths);
    var t := After(more);
    more := RemoveVersion(run, more, t, |t.shared.hist| - 1, paths);
  }

  /** The strip is carried out; the object goes if no finalizer is left. */
  lemma StripDone(run: seq<Label>, from: seq<Label>, s: State, foreign: seq<string>, paths: set<string>)
    returns (more: seq<Label>)
    requires EditsWithin(run, from, paths) && After(from) == s && AtStrip(s, foreign)
    ensures EditsWithin(run, more, paths)
    ensures var t := After(more).shared; LacksKey(t) && t.log == s.shared.log && (t.gone <==> foreign == [])
  {
    StripLands(s, foreign, "");
    more := Extend(run, from, s, Work(Good("")), paths);
  }

  /** The strip is lost three times and the sync is put back. */
  lemma StripLost(run: seq<Label>, from: seq<Label>, s: State, foreign: seq<string>, paths: set<string>)
    returns (more: seq<Label>)
    requires EditsWithin(run, from, paths) && After(from) == s && AtStrip(s, foreign)
    ensures EditsWithin(run, more, paths)
    ensures After(more) == s.(worker := Idle, dirty := true)
  {
    var c := Choice(Lost, None, true, "");
    var s1 := WorkerStep(s, c);
    var s2 := WorkerStep(s1, c);
    var s3 := WorkerStep(s2, c);
    more := Extend(run, from, s, Work(c), paths);
    more := Extend(run, more, s1, Work(c), paths);
    more := Extend(run, more, s2, Work(c), paths);
    more := Extend(run, more, s3, Work(c), paths);
  }
}
