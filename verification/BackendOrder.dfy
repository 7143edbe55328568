/** The order of backend calls. It needs one hypothesis the other results do
    not: the informer never shows the object unmarked again once it has shown
    the deletion mark, or the end, of it. */
module BackendOrder {
  import opened Objects
  import opened Machine
  import opened Invariant
  import opened Preservation
  import opened Reach

  /** The informer has shown the mark, or the end, of the object. */
  ghost predicate MarkShown(s: State) {
    s.shown || ShowsMark(s)
  }

  /** The informer does not take the mark back. */
  ghost predicate Forward(s: State, l: Label) {
    && (l.Refresh? && MarkShown(s) && l.v < |s.shared.hist| ==> s.shared.hist[l.v].marked)
    && (l.Redeliver? && MarkShown(s) ==> IsMarked(s.shared, l.o))
  }

  /** A run in which the mark, once shown, stays shown. */
  ghost predicate MarkStays(run: seq<Label>)
    requires IsRun(run)
    decreases |run|
  {
    run == [] || (MarkStays(run[..|run| - 1]) && Forward(After(run[..|run| - 1]), run[|run| - 1]))
  }

  /** The resource version the cache shows is at most `rv`. */
  ghost predicate ShowsAtMost(s: State, rv: nat) {
    s.cache.Some? && s.cache.value < |s.shared.heap| ==> s.shared.heap[s.cache.value].rv <= rv
  }

  /** The resource version the cache shows does not go down; the object is
      dropped only when it is gone, and does not come back. */
  ghost predicate VersionForward(s: State, l: Label) {
    && (l.Refresh? ==> !s.shown && ShowsAtMost(s, l.v))
    && (l.Redeliver? ==> !s.shown && l.o < |s.shared.heap| && ShowsAtMost(s, s.shared.heap[l.o].rv))
    && (l.Evict? ==> s.shared.gone)
  }

  ghost predicate Monotone(run: seq<Label>)
    requires IsRun(run)
    decreases |run|
  {
    run == [] || (Monotone(run[..|run| - 1]) && VersionForward(After(run[..|run| - 1]), run[|run| - 1]))
  }

  /** A cache that is monotone in resource version, however stale, keeps the
      mark shown. */
  lemma {:induction false} MonotoneKeepsMark(run: seq<Label>)
    requires IsRun(run) && Monotone(run)
    ensures MarkStays(run)
  {
    if run != [] {
      var front := run[..|run| - 1];
      MonotoneKeepsMark(front);
      RunKeepsInv(front);
      var s, l := After(front), run[|run| - 1];
      if s.cache.Some? {
        assert LiveCopy(s.shared.hist, s.shared.log, s.shared.heap[s.cache.value]);
      }
      if l.Redeliver? {
        assert LiveCopy(s.shared.hist, s.shared.log, s.shared.heap[l.o]);
      }
    }
  }

  ghost predicate Removal(log: seq<Event>) {
    exists i :: 0 <= i < |log| && log[i].RemoveCall?
  }

  /** Some number of provision calls, then some number of remove calls. */
  ghost predicate Ordered(log: seq<Event>) {
    forall i, j :: 0 <= i < j < |log| && log[i].RemoveCall? ==> !log[j].ProvisionCall?
  }

  /** The latest backend call. */
  ghost function LastCall(log: seq<Event>): Option<Event> {
    if log == [] then None
    else if log[|log| - 1].ProvisionCall? || log[|log| - 1].RemoveCall? then Some(log[|log| - 1])
    else LastCall(log[..|log| - 1])
  }

  ghost predicate CleanedUp(log: seq<Event>) {
    LastCall(log).Some? && LastCall(log).value.RemoveCall? && LastCall(log).value.ok
  }

  ghost predicate Adding(w: Worker) {
    !w.Idle? && !w.Fetch? && !w.Remove? && !w.StripPut? && !w.Returned?
  }

  ghost predicate Cleaning(w: Worker) {
    w.Fetch? || w.Remove? || w.StripPut?
  }

  ghost predicate OrderOf(log: seq<Event>, shown: bool, w: Worker) {
    && Ordered(log)
    && (Removal(log) || Cleaning(w) ==> shown)
    && (Adding(w) ==> !Removal(log))
  }

  ghost predicate OrderOk(s: State) {
    && OrderOf(s.shared.log, MarkShown(s), s.worker)
    && (s.shown && s.cache.Some? ==> IsMarked(s.shared, s.cache.value))
  }

  /** What is left to say once the key is off: the last call was a cleanup. */
  ghost predicate CleanupOk(g: Shared, w: Worker) {
    && (w.Remove? ==> Live(g) && Last(g).marked && !LacksKey(g))
    && (w.StripPut? ==> CleanedUp(g.log))
    && (g.gone && g.hist != [] && Touched(Last(g)) ==> Last(g).marked)
    && (Stripped(g) && Touched(Last(g)) ==> CleanedUp(g.log))
  }

  ghost predicate OrderInv(s: State) {
    Inv(s) && OrderOk(s) && CleanupOk(s.shared, s.worker)
  }

  // ---------- the log ----------

  lemma Append(log: seq<Event>, e: Event)
    ensures LastCall(log + [e]) == if e.ProvisionCall? || e.RemoveCall? then Some(e) else LastCall(log)
    ensures Removal(log + [e]) <==> Removal(log) || e.RemoveCall?
    ensures Ordered(log) && (Removal(log) ==> !e.ProvisionCall?) ==> Ordered(log + [e])
  {
    var more := log + [e];
    assert more[..|log|] == log;
    assert more[|log|] == e;
    if Removal(log) {
      var i :| 0 <= i < |log| && log[i].RemoveCall?;
      assert more[i].RemoveCall?;
    }
  }

  // ---------- the provisioner ----------

  lemma WorkerLog(g: Shared, w: Worker, c: Choice)
    requires InHeap(g, WorkerObject(w))
    ensures var k := WorkerEffect(g, w, c);
      || k.log == g.log
      || (w.Config? && exists e: Event :: e.ReadConfig? && k.log == g.log + [e])
      || (w.Backend? && exists e: Event :: e.ProvisionCall? && k.log == g.log + [e])
      || (w.Remove? && k.log == g.log + [RemoveCall(g.heap[w.o].path, c.ok)])
  {
    match w
    case Config(o) => if c.file.Some? { assert ReadConfig(c.file.value).ReadConfig?; }
    case Backend(o, config) => assert ProvisionCall(config, g.heap[o].path, c.ok).ProvisionCall?;
    case _ =>
  }

  lemma WorkerOrder(g: Shared, w: Worker, cache: Option<nat>, c: Choice, shown: bool)
    requires InHeap(g, WorkerObject(w)) && InHeap(g, cache)
    requires OrderOf(g.log, shown, w)
    requires cache.Some? ==> (g.heap[cache.value].marked <==> shown)
    ensures OrderOf(WorkerEffect(g, w, c).log, shown, WorkerNext(g, w, cache, c))
  {
    var k := WorkerEffect(g, w, c);
    WorkerLog(g, w, c);
    WorkerTurns(g, w, cache, c);
    if k.log != g.log {
      var e :| k.log == g.log + [e];
      Append(g.log, e);
      assert k.log[|g.log|] == e;
    }
  }

  /** Which way the worker goes is decided when it takes the key. */
  lemma WorkerTurns(g: Shared, w: Worker, cache: Option<nat>, c: Choice)
    requires InHeap(g, WorkerObject(w)) && InHeap(g, cache)
    ensures var v := WorkerNext(g, w, cache, c);
      && (Adding(v) ==> Adding(w) || (w.Idle? && cache.Some? && !g.heap[cache.value].marked))
      && (Cleaning(v) ==> Cleaning(w) || (w.Idle? && cache.Some? && g.heap[cache.value].marked))
  {
  }

  /** Nothing but the informer changes what the cache shows. */
  lemma ShownStays(s: State, t: State)
    requires OrderInv(s) && Later(s.shared, t.shared) && t.cache == s.cache && t.shown == s.shown
    ensures MarkShown(t) == MarkShown(s)
    ensures t.shown && t.cache.Some? ==> IsMarked(t.shared, t.cache.value)
  {
    if s.cache.Some? {
      assert Grown(s.shared.heap[s.cache.value], t.shared.heap[s.cache.value]);
    }
  }

  // ---------- cleanup ----------

  lemma CleanedUpIsRemoval(log: seq<Event>)
    requires CleanedUp(log)
    ensures Removal(log)
  {
    if !log[|log| - 1].RemoveCall? {
      var front := log[..|log| - 1];
      CleanedUpIsRemoval(front);
      var i :| 0 <= i < |front| && front[i].RemoveCall?;
      assert log[i].RemoveCall?;
    }
  }

  /** A new version that keeps the key, and lacks it only after a cleanup. */
  lemma StoreCleanup(g: Shared, c: Cluster, w: Worker)
    requires Ground(g) && Live(g) && CleanupOk(g, w) && Fact(c, g.log, g.hist[0])
    requires Last(g).marked ==> c.marked
    requires Touched(Last(g)) ==> Touched(c)
    requires PROVISIONER in Last(g).finalizers ==> PROVISIONER in c.finalizers
    requires c.marked && PROVISIONER !in c.finalizers && Touched(c) ==> CleanedUp(g.log)
    ensures CleanupOk(Store(g, c), w)
  {
    assert Fact(Last(g), g.log, g.hist[0]);
  }

  lemma PutCleanup(g: Shared, c: Cluster, fate: Fate, w: Worker)
    requires Ground(g) && LiveCopy(g.hist, g.log, c) && CleanupOk(g, w)
    ensures CleanupOk(Put(g, c, fate), w)
  {
    if Current(g, c) && fate != Lost && c != Last(g) {
      StoreCleanup(g, c, w);
    }
  }

  lemma StripCleanup(g: Shared, u: Cluster, fate: Fate, w: Worker, v: Worker)
    requires Ground(g) && StripCopy(g.hist, g.log, u) && CleanupOk(g, w) && w.StripPut?
    requires v.StripPut? || v.Returned?
    ensures CleanupOk(Put(g, u, fate), v)
  {
  }

  /** Steps that leave the store alone and make no backend call. */
  lemma QuietCleanup(g: Shared, k: Shared, w: Worker)
    requires CleanupOk(g, w) && k.hist == g.hist && k.gone == g.gone && LastCall(k.log) == LastCall(g.log)
    ensures CleanupOk(k, w)
  {
  }

  lemma CallCleanup(g: Shared, w: Worker, c: Choice, cache: Option<nat>)
    requires Ground(g) && WorkerOk(g, w) && CleanupOk(g, w) && (w.Backend? || w.Remove?) && InHeap(g, cache)
    requires w.Backend? ==> !Removal(g.log)
    ensures CleanupOk(WorkerEffect(g, w, c), WorkerNext(g, w, cache, c))
  {
    if w.Backend? {
      ProvisionCleanup(g, w, c, cache);
    } else {
      RemoveCleanup(g, w, c, cache);
    }
  }

  lemma ProvisionCleanup(g: Shared, w: Worker, c: Choice, cache: Option<nat>)
    requires CleanupOk(g, w) && w.Backend? && w.o < |g.heap| && InHeap(g, cache) && !Removal(g.log)
    ensures CleanupOk(WorkerEffect(g, w, c), WorkerNext(g, w, cache, c))
  {
    Append(g.log, ProvisionCall(w.config, g.heap[w.o].path, c.ok));
    if CleanedUp(g.log) {
      CleanedUpIsRemoval(g.log);
    }
  }

  lemma RemoveCleanup(g: Shared, w: Worker, c: Choice, cache: Option<nat>)
    requires CleanupOk(g, w) && w.Remove? && w.o < |g.heap| && InHeap(g, cache)
    ensures CleanupOk(WorkerEffect(g, w, c), WorkerNext(g, w, cache, c))
  {
    Append(g.log, RemoveCall(g.heap[w.o].path, c.ok));
  }

  lemma WriteCleanup(g: Shared, w: Worker, c: Choice, cache: Option<nat>)
    requires Ground(g) && CleanupOk(g, w) && (w.InitPut? || w.RecordPut?)
    requires InHeap(g, WorkerObject(w)) && InHeap(g, cache)
    ensures CleanupOk(WorkerEffect(g, w, c), WorkerNext(g, w, cache, c))
  {
    assert LiveCopy(g.hist, g.log, g.heap[w.o]);
    PutCleanup(g, g.heap[w.o], c.fate, w);
  }

  lemma WorkerCleanup(g: Shared, w: Worker, c: Choice, cache: Option<nat>)
    requires Ground(g) && WorkerOk(g, w) && CleanupOk(g, w)
    requires InHeap(g, WorkerObject(w)) && InHeap(g, cache)
    requires Adding(w) ==> !Removal(g.log)
    ensures CleanupOk(WorkerEffect(g, w, c), WorkerNext(g, w, cache, c))
  {
    match w
    case InitPut(o, _, _) => WriteCleanup(g, w, c, cache);
    case RecordPut(o, _, _) => WriteCleanup(g, w, c, cache);
    case Backend(_, _) => CallCleanup(g, w, c, cache);
    case Remove(_, _) => CallCleanup(g, w, c, cache);
    case StripPut(_, u, _) => StripCleanup(g, u, c.fate, w, WorkerNext(g, w, cache, c));
    case _ => LocalCleanup(g, w, c, cache);
  }

  /** Steps of the worker that reach neither the store nor the backend. */
  lemma LocalCleanup(g: Shared, w: Worker, c: Choice, cache: Option<nat>)
    requires CleanupOk(g, w) && InHeap(g, WorkerObject(w)) && InHeap(g, cache)
    requires !w.InitPut? && !w.RecordPut? && !w.StripPut? && !w.Backend? && !w.Remove?
    ensures CleanupOk(WorkerEffect(g, w, c), WorkerNext(g, w, cache, c))
  {
    if w.Config? && c.file.Some? {
      Append(g.log, ReadConfig(c.file.value));
    }
  }

  lemma WorkerKeeps(s: State, c: Choice)
    requires OrderInv(s) && Enabled(s, Work(c))
    ensures OrderInv(WorkerStep(s, c))
  {
    var t := WorkerStep(s, c);
    WorkerStepKeeps(s, c);
    ShownStays(s, t);
    WorkerOrder(s.shared, s.worker, s.cache, c, MarkShown(s));
    WorkerCleanup(s.shared, s.worker, c, s.cache);
  }

  // ---------- everything else ----------

  /** Steps of anyone but the worker and the informer. */
  lemma OthersKeepOrder(s: State, t: State)
    requires OrderInv(s) && Inv(t) && Later(s.shared, t.shared)
    requires t.cache == s.cache && t.shown == s.shown && t.worker == s.worker
    requires t.shared.log == s.shared.log
      || exists e: Event :: !e.ProvisionCall? && !e.RemoveCall? && t.shared.log == s.shared.log + [e]
    ensures OrderOk(t) && LastCall(t.shared.log) == LastCall(s.shared.log)
  {
    ShownStays(s, t);
    if t.shared.log != s.shared.log {
      var e: Event :| !e.ProvisionCall? && !e.RemoveCall? && t.shared.log == s.shared.log + [e];
      Append(s.shared.log, e);
    }
  }

  lemma HandlerLog(g: Shared, h: Handler, kube: Option<Kubeconfig>, c: Choice)
    requires InHeap(g, HandlerObject(h))
    ensures var k := HandlerEffect(g, h, kube, c);
      k.log == g.log || exists e: Event :: IsSighting(e) && k.log == g.log + [e]
  {
    match h
    case AnnotGet(_) => assert IsSighting(SawKubeconfig);
    case HealthProbe(_) => assert IsSighting(Checked(Healthy(kube, c)));
    case _ =>
  }

  /** What the handlers log: no reads of the file and no backend calls. */
  predicate IsSighting(e: Event) {
    !e.ReadConfig? && !e.ProvisionCall? && !e.RemoveCall?
  }

  lemma HealthPutCleanup(g: Shared, o: nat, fate: Fate, w: Worker)
    requires Ground(g) && o < |g.heap| && CleanupOk(g, w)
    ensures CleanupOk(Put(g, g.heap[o], fate), w)
  {
    assert LiveCopy(g.hist, g.log, g.heap[o]);
    PutCleanup(g, g.heap[o], fate, w);
  }

  /** Steps of a handler that do not reach the store. */
  lemma QuietHandler(g: Shared, h: Handler, kube: Option<Kubeconfig>, c: Choice, w: Worker)
    requires CleanupOk(g, w) && InHeap(g, HandlerObject(h)) && !h.HealthPut? && !h.AnnotPut?
    ensures CleanupOk(HandlerEffect(g, h, kube, c), w)
  {
    HandlerLog(g, h, kube, c);
    var k := HandlerEffect(g, h, kube, c);
    if k.log != g.log {
      var e: Event :| IsSighting(e) && k.log == g.log + [e];
      Append(g.log, e);
    }
    QuietCleanup(g, k, w);
  }

  lemma HandlerCleanup(g: Shared, h: Handler, kube: Option<Kubeconfig>, c: Choice, w: Worker)
    requires Ground(g) && HandlerOk(g, h) && CleanupOk(g, w) && InHeap(g, HandlerObject(h))
    ensures CleanupOk(HandlerEffect(g, h, kube, c), w)
  {
    match h
    case HealthPut(o, _) => HealthPutCleanup(g, o, c.fate, w);
    case AnnotPut(u, _) => PutCleanup(g, u, c.fate, w);
    case _ => QuietHandler(g, h, kube, c, w);
  }

  lemma HandlerKeeps(s: State, h: nat, c: Choice)
    requires OrderInv(s) && Enabled(s, Handle(h, c))
    ensures OrderInv(HandlerStep(s, h, c))
  {
    assert HandlerOk(s.shared, s.handlers[h]);
    HandlerStepKeeps(s, h, c);
    HandlerLog(s.shared, s.handlers[h], s.kube, c);
    OthersKeepOrder(s, HandlerStep(s, h, c));
    HandlerCleanup(s.shared, s.handlers[h], s.kube, c, s.worker);
  }

  lemma StartedKeepsOrder(s: State, e: Event, h: Handler)
    requires OrderInv(s) && Inv(Started(s, e, h)) && Later(s.shared, Started(s, e, h).shared)
    requires !e.ProvisionCall? && !e.RemoveCall?
    ensures OrderInv(Started(s, e, h))
  {
    OthersKeepOrder(s, Started(s, e, h));
    QuietCleanup(s.shared, Logged(s.shared, e), s.worker);
  }

  lemma StartKeepsOrder(s: State, l: Label)
    requires OrderInv(s) && Enabled(s, l) && (l.StartHealth? || l.StartAnnot? || l.StartGen?)
    ensures OrderInv(Next(s, l))
  {
    StepKeepsInv(s, l);
    match l
    case StartHealth(o) => StartedKeepsOrder(s, SawProvisioned, HealthBegin(o));
    case StartAnnot(o) => StartedKeepsOrder(s, SawReady, AnnotGet(o));
    case StartGen(o) => StartedKeepsOrder(s, SawProvisioned, GenGet(o));
  }

  lemma EditedCleanup(g: Shared, path: string, w: Worker)
    requires Ground(g) && Live(g) && CleanupOk(g, w)
    ensures CleanupOk(Edited(g, path), w)
  {
    assert Fact(Last(g), g.log, g.hist[0]);
    StoreCleanup(g, Last(g).(path := path), w);
  }

  lemma MarkedCleanup(g: Shared, w: Worker)
    requires Ground(g) && Live(g) && CleanupOk(g, w)
    ensures CleanupOk(Marked(g), w)
  {
    assert Fact(Last(g), g.log, g.hist[0]);
    StoreCleanup(g, Last(g).(marked := true), w);
  }

  lemma DroppedCleanup(g: Shared, f: string, w: Worker)
    requires Ground(g) && Live(g) && f != PROVISIONER && CleanupOk(g, w)
    ensures CleanupOk(Dropped(g, f), w)
  {
    assert Fact(Last(g), g.log, g.hist[0]);
    StripKeepsOccurs(Last(g).finalizers, f, PROVISIONER);
    StoreCleanup(g, Last(g).(finalizers := Strip(Last(g).finalizers, f)), w);
  }

  lemma UsersKeepCleanup(s: State, l: Label)
    requires OrderInv(s) && Enabled(s, l) && (l.EditSpec? || l.Delete? || l.DropForeign?)
    ensures CleanupOk(Next(s, l).shared, s.worker)
  {
    match l
    case EditSpec(path) => EditedCleanup(s.shared, path, s.worker);
    case Delete => MarkedCleanup(s.shared, s.worker);
    case DropForeign(f) => DroppedCleanup(s.shared, f, s.worker);
  }

  lemma InformerKeepsOrder(s: State, l: Label)
    requires OrderInv(s) && Enabled(s, l) && Forward(s, l) && (l.Refresh? || l.Redeliver? || l.Evict?)
    ensures OrderInv(Next(s, l))
  {
    var g, t := s.shared, Next(s, l);
    StepKeepsInv(s, l);
    if l.Refresh? {
      QuietCleanup(g, t.shared, s.worker);
    }
  }

  lemma UsersKeepOrder(s: State, l: Label)
    requires OrderInv(s) && Enabled(s, l) && (l.EditSpec? || l.Delete? || l.DropForeign?)
    ensures OrderInv(Next(s, l))
  {
    StepKeepsInv(s, l);
    assert Next(s, l).shared.log == s.shared.log;
    OthersKeepOrder(s, Next(s, l));
    UsersKeepCleanup(s, l);
  }

  lemma RestKeepsOrder(s: State, l: Label)
    requires OrderInv(s) && Enabled(s, l)
    requires l.Create? || l.KubeEdit? || l.KubeDelete? || l.Resync? || l.Notify?
    ensures OrderInv(Next(s, l))
  {
    StepKeepsInv(s, l);
    OthersKeepOrder(s, Next(s, l));
  }

  lemma StepKeepsOrder(s: State, l: Label)
    requires OrderInv(s) && Enabled(s, l) && Forward(s, l)
    ensures OrderInv(Next(s, l))
  {
    match l
    case Work(c) => WorkerKeeps(s, c);
    case Handle(h, c) => HandlerKeeps(s, h, c);
    case StartHealth(_) => StartKeepsOrder(s, l);
    case StartAnnot(_) => StartKeepsOrder(s, l);
    case StartGen(_) => StartKeepsOrder(s, l);
    case Refresh(_) => InformerKeepsOrder(s, l);
    case Redeliver(_) => InformerKeepsOrder(s, l);
    case Evict => InformerKeepsOrder(s, l);
    case EditSpec(_) => UsersKeepOrder(s, l);
    case Delete => UsersKeepOrder(s, l);
    case DropForeign(_) => UsersKeepOrder(s, l);
    case _ => RestKeepsOrder(s, l);
  }

  lemma {:induction false} RunKeepsOrder(run: seq<Label>)
    requires IsRun(run) && MarkStays(run)
    ensures OrderInv(After(run))
  {
    if run != [] {
      RunKeepsOrder(run[..|run| - 1]);
      StepKeepsOrder(After(run[..|run| - 1]), run[|run| - 1]);
    }
  }

  /** Backend call order: however stale the cache, no provision call ever
      follows a remove call. */
  lemma ProvisionsThenRemoves(run: seq<Label>, i: nat, j: nat)
    requires IsRun(run) && MarkStays(run)
    requires i < j < |After(run).shared.log| && After(run).shared.log[i].RemoveCall?
    ensures !After(run).shared.log[j].ProvisionCall?
  {
    RunKeepsOrder(run);
  }

  /** No live backend is left behind: once a provisioned object is gone from
      the store, or marked without the key, the last backend call was a
      successful cleanup. */
  lemma LastCallWasCleanup(run: seq<Label>, i: nat)
    requires IsRun(run) && MarkStays(run) && i < |After(run).shared.hist| && Touched(After(run).shared.hist[i])
    requires After(run).shared.gone || Stripped(After(run).shared)
    ensures CleanedUp(After(run).shared.log)
  {
    RunKeepsOrder(run);
    var g := After(run).shared;
    assert Touched(g.hist[|g.hist| - 1]);
  }

  // ---------- the hypothesis is exact ----------

  /** The cache shows a version without the deletion mark. */
  ghost predicate ShowsUnmarked(s: State) {
    s.cache.Some? && Unmarked(s.shared, s.cache.value)
  }

  /** In every run that has called for a removal, if the cache then shows an
      unmarked version, the run can go on to provision after the remove,
      wherever the worker stands and without anything new from the informer. */
  lemma LosingTheMarkBreaksOrder(run: seq<Label>) returns (more: seq<Label>)
    requires IsRun(run) && Removal(After(run).shared.log) && ShowsUnmarked(After(run))
    ensures Quiet(run, more) && Breaks(run, more)
  {
    var o := After(run).cache.value;
    var queued := QueueKey(run, o);
    more := ReachProvision(run, queued, o, After(queued).shared.heap[o].applied + "x");
    RunMovesForward(queued, |run|);
    assert queued[..|run|] == run;
    CallComesLater(After(run).shared.log, After(queued).shared.log, After(more).shared.log);
  }

  /** A provision call that `more` adds comes after a remove call of `run`. */
  ghost predicate Breaks(run: seq<Label>, more: seq<Label>) {
    && run <= more && IsRun(run) && IsRun(more)
    && exists i, j :: 0 <= i < |After(run).shared.log| <= j < |After(more).shared.log|
         && After(more).shared.log[i].RemoveCall? && After(more).shared.log[j].ProvisionCall?
  }

  lemma CallComesLater(log: seq<Event>, mid: seq<Event>, more: seq<Event>)
    requires Removal(log) && log <= mid && exists config, path :: more == mid + SyncCalls(config, path)
    ensures exists i, j :: 0 <= i < |log| <= j < |more| && more[i].RemoveCall? && more[j].ProvisionCall?
  {
    var i :| 0 <= i < |log| && log[i].RemoveCall?;
    assert more[i].RemoveCall? && more[|mid| + 1].ProvisionCall?;
  }

  /** `more` goes on from `run` without a delivery by the informer. */
  ghost predicate Undelivered(run: seq<Label>, more: seq<Label>) {
    && run <= more && IsRun(more)
    && forall k :: |run| <= k < |more| ==> !more[k].Refresh? && !more[k].Redeliver?
  }

  /** No sync of an unmarked object is under way and none can begin. */
  ghost predicate Shut(s: State) {
    !Adding(s.worker) && InHeap(s.shared, s.cache) && (s.cache.Some? ==> IsMarked(s.shared, s.cache.value))
  }

  /** The log got no provision call between `log` and `more`. */
  ghost predicate NotProvisioned(log: seq<Event>, more: seq<Event>) {
    log <= more && forall j :: |log| <= j < |more| ==> !more[j].ProvisionCall?
  }

  lemma ShutWorker(s: State, c: Choice)
    requires Inv(s) && Enabled(s, Work(c)) && Shut(s)
    ensures NotProvisioned(s.shared.log, WorkerStep(s, c).shared.log) && Shut(WorkerStep(s, c))
  {
    WorkerStepKeeps(s, c);
    WorkerLog(s.shared, s.worker, c);
    ShutNext(s.shared, s.worker, s.cache, c);
  }

  lemma ShutNext(g: Shared, w: Worker, cache: Option<nat>, c: Choice)
    requires !Adding(w) && InHeap(g, WorkerObject(w)) && InHeap(g, cache)
    requires cache.Some? ==> g.heap[cache.value].marked
    ensures !Adding(WorkerNext(g, w, cache, c)) && WorkerEffect(g, w, c).heap == g.heap
  {
  }

  lemma ShutStep(s: State, l: Label)
    requires Inv(s) && Enabled(s, l) && Shut(s) && !l.Refresh? && !l.Redeliver?
    ensures NotProvisioned(s.shared.log, Next(s, l).shared.log) && Shut(Next(s, l))
  {
    if l.Work? {
      ShutWorker(s, l.c);
    } else if l.Handle? {
      ShutHandler(s, l.h, l.c);
    } else {
      StepKeepsInv(s, l);
      ShutOthers(s, l);
    }
  }

  lemma ShutHandler(s: State, h: nat, c: Choice)
    requires Inv(s) && Enabled(s, Handle(h, c)) && Shut(s)
    ensures NotProvisioned(s.shared.log, HandlerStep(s, h, c).shared.log) && Shut(HandlerStep(s, h, c))
  {
    HandlerStepKeeps(s, h, c);
    HandlerLog(s.shared, s.handlers[h], s.kube, c);
    if s.cache.Some? {
      assert Grown(s.shared.heap[s.cache.value], HandlerStep(s, h, c).shared.heap[s.cache.value]);
    }
  }

  lemma ShutOthers(s: State, l: Label)
    requires Enabled(s, l) && Shut(s) && !l.Work? && !l.Handle? && !l.Refresh? && !l.Redeliver?
    ensures NotProvisioned(s.shared.log, Next(s, l).shared.log) && Shut(Next(s, l))
  {
  }

  lemma UndeliveredPrefix(run: seq<Label>, more: seq<Label>)
    requires Undelivered(run, more) && run != more
    ensures var front, l := more[..|more| - 1], more[|more| - 1];
      && Undelivered(run, front) && !l.Refresh? && !l.Redeliver?
      && Enabled(After(front), l) && After(more) == Next(After(front), l)
  {
    var front := more[..|more| - 1];
    assert forall k :: 0 <= k < |front| ==> front[k] == more[k];
  }

  lemma {:induction false} ShutStays(run: seq<Label>, more: seq<Label>)
    requires IsRun(run) && Undelivered(run, more) && Shut(After(run))
    ensures NotProvisioned(After(run).shared.log, After(more).shared.log) && Shut(After(more))
    decreases |more|
  {
    if run != more {
      UndeliveredPrefix(run, more);
      var front := more[..|more| - 1];
      ShutStays(run, front);
      RunKeepsInv(front);
      ShutStep(After(front), more[|more| - 1]);
      NotProvisionedTransitive(After(run).shared.log, After(front).shared.log, After(more).shared.log);
    }
  }

  lemma NotProvisionedTransitive(a: seq<Event>, b: seq<Event>, c: seq<Event>)
    requires NotProvisioned(a, b) && NotProvisioned(b, c)
    ensures NotProvisioned(a, c)
  {
    forall j | |a| <= j < |c| ensures !c[j].ProvisionCall? {
      if j < |b| { assert c[j] == b[j]; }
    }
  }

  lemma QuietIsUndelivered(run: seq<Label>, more: seq<Label>)
    requires Quiet(run, more)
    ensures Undelivered(run, more)
  {
    forall k | |run| <= k < |more| ensures !more[k].Refresh? && !more[k].Redeliver? {
      assert IsQuiet(more[k]);
    }
  }

  /** Exactly what breaks the order: after a removal, with no sync of an
      unmarked object under way and nothing more from the informer, users,
      controllers and faults can bring about a provision call if and only if
      the cache shows an unmarked version. */
  lemma OrderBreaksIffUnmarkedShown(run: seq<Label>)
    requires IsRun(run) && Removal(After(run).shared.log) && !Adding(After(run).worker)
    ensures (exists more :: Undelivered(run, more) && Breaks(run, more)) <==> ShowsUnmarked(After(run))
  {
    if ShowsUnmarked(After(run)) {
      var more := LosingTheMarkBreaksOrder(run);
      QuietIsUndelivered(run, more);
      assert Undelivered(run, more) && Breaks(run, more);
    } else {
      RunKeepsInv(run);
      forall more | Undelivered(run, more) ensures !Breaks(run, more) {
        ShutStays(run, more);
      }
    }
  }
}
