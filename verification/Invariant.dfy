/** The inductive invariant of the machine, and what one step may do to the
    store's versions, to the objects in memory and to the event log. */
module Invariant {
  import opened Objects
  import opened Machine

  // ---------- facts about one copy ----------

  ghost predicate RemovedOk(log: seq<Event>) {
    exists p :: RemoveCall(p, true) in log
  }

  ghost predicate ProvisionedOk(log: seq<Event>) {
    exists a, p :: ProvisionCall(a, p, true) in log
  }

  /** Some sync read `config` and its later provision call succeeded. */
  ghost predicate Justified(log: seq<Event>, config: string) {
    exists p :: ProvisionCall(config, p, true) in log
  }

  /** A copy with a Provisioned condition carries the finalizer, unless it is
      marked and the backend has been cleaned up. */
  ghost predicate Travels(c: Cluster, log: seq<Event>) {
    Touched(c) ==> PROVISIONER in c.finalizers || (c.marked && RemovedOk(log))
  }

  /** The applied config is the one at creation, or justified and recorded on
      a copy that has a Provisioned condition. */
  ghost predicate Sourced(c: Cluster, log: seq<Event>, first: Cluster) {
    c.applied == first.applied || (Touched(c) && Justified(log, c.applied))
  }

  /** Nothing a copy claims comes before its cause. */
  ghost predicate Caused(c: Cluster, log: seq<Event>) {
    && (IsTrue(c, Provisioned) ==> ProvisionedOk(log))
    && (GetStatus(c.conditions, Ready).Some? ==> SawProvisioned in log)
    && (GetStatus(c.conditions, Ready) == Some(True) ==> Checked(true) in log)
    && (GetStatus(c.conditions, Ready) == Some(False) ==> Checked(false) in log)
    && (Version(c) != "" ==> SawReady in log && SawKubeconfig in log)
  }

  ghost predicate NoDuplicate(c: Cluster, first: Cluster) {
    Occurs(c.finalizers, PROVISIONER) <= 1 || Occurs(c.finalizers, PROVISIONER) <= Occurs(first.finalizers, PROVISIONER)
  }

  ghost predicate Fact(c: Cluster, log: seq<Event>, first: Cluster) {
    Travels(c, log) && Sourced(c, log, first) && Caused(c, log) && NoDuplicate(c, first)
  }

  /** `c` was made from version `v` and lost nothing of it; a marked object is
      never given a Provisioned condition. */
  ghost predicate MadeFrom(v: Cluster, c: Cluster) {
    && c.rv == v.rv && c.marked == v.marked && c.path == v.path
    && (Touched(v) ==> Touched(c))
    && (c.marked && Touched(c) ==> Touched(v))
  }

  /** An object in memory, or a deep copy of one. */
  ghost predicate LiveCopy(hist: seq<Cluster>, log: seq<Event>, c: Cluster) {
    && c.rv < |hist|
    && MadeFrom(hist[c.rv], c)
    && (c.finalizers == hist[c.rv].finalizers ||
        (!c.marked && PROVISIONER !in hist[c.rv].finalizers && c.finalizers == hist[c.rv].finalizers + [PROVISIONER]))
    && Fact(c, log, hist[0])
  }

  /** The object `finalize` writes back. */
  ghost predicate StripCopy(hist: seq<Cluster>, log: seq<Event>, u: Cluster) {
    && u.rv < |hist|
    && hist[u.rv].marked
    && PROVISIONER in hist[u.rv].finalizers
    && u == WithoutKey(hist[u.rv])
    && RemovedOk(log)
  }

  // ---------- the invariant ----------

  /** Event `e` may follow the events `before`. */
  ghost predicate Explained(before: seq<Event>, e: Event) {
    match e
    case ProvisionCall(config, _, _) => ReadConfig(config) in before
    case SawProvisioned => ProvisionedOk(before)
    case SawReady => SawProvisioned in before && ProvisionedOk(before)
    case SawKubeconfig => SawProvisioned in before
    case Checked(_) => SawProvisioned in before
    case _ => true
  }

  ghost predicate LogOk(log: seq<Event>) {
    forall i :: 0 <= i < |log| ==> Explained(log[..i], log[i])
  }

  ghost predicate Versioned(hist: seq<Cluster>) {
    && (forall i :: 0 <= i < |hist| ==> hist[i].rv == i)
    && (forall i, j :: 0 <= i <= j < |hist| && hist[i].marked ==> hist[j].marked)
    && (forall i, j :: 0 <= i <= j < |hist| && Touched(hist[i]) ==> Touched(hist[j]))
  }

  ghost predicate FactsOk(hist: seq<Cluster>, log: seq<Event>) {
    forall i :: 0 <= i < |hist| ==> Fact(hist[i], log, hist[0])
  }

  ghost predicate HeapOk(hist: seq<Cluster>, heap: seq<Cluster>, log: seq<Event>) {
    forall o :: 0 <= o < |heap| ==> LiveCopy(hist, log, heap[o])
  }

  /** Cleanup precedes the end of a provisioned object, and a marked object
      that is still there has a finalizer left. */
  ghost predicate GoneOk(hist: seq<Cluster>, gone: bool, log: seq<Event>) {
    && (gone ==> hist != [] && (Touched(hist[|hist| - 1]) ==> RemovedOk(log)))
    && (!gone && hist != [] && hist[|hist| - 1].marked ==> hist[|hist| - 1].finalizers != [])
  }

  /** Store, memory and log are sound. */
  ghost predicate Ground(g: Shared) {
    && Versioned(g.hist)
    && FactsOk(g.hist, g.log)
    && HeapOk(g.hist, g.heap, g.log)
    && LogOk(g.log)
    && GoneOk(g.hist, g.gone, g.log)
  }

  /** The store does not hold the cluster with the provisioner's finalizer. */
  ghost predicate LacksKey(g: Shared) {
    !Live(g) || PROVISIONER !in Last(g).finalizers
  }

  ghost predicate Unmarked(g: Shared, o: nat) {
    o < |g.heap| && !g.heap[o].marked
  }

  ghost predicate Keyed(g: Shared, o: nat) {
    Unmarked(g, o) && PROVISIONER in g.heap[o].finalizers
  }

  ghost predicate IsMarked(g: Shared, o: nat) {
    o < |g.heap| && g.heap[o].marked
  }

  ghost predicate WorkerOk(g: Shared, w: Worker) {
    match w
    case Idle => true
    case Config(o) => Unmarked(g, o)
    case Init(o, config) => Unmarked(g, o) && ReadConfig(config) in g.log
    case InitPut(o, config, _) => Keyed(g, o) && ReadConfig(config) in g.log
    case DoBegin(o, config) => Keyed(g, o) && ReadConfig(config) in g.log
    case Backend(o, config) => Keyed(g, o) && ReadConfig(config) in g.log
    case DoEnd(o, config, ok) => Keyed(g, o) && (ok ==> Justified(g.log, config))
    case Record(o, config) => Keyed(g, o) && Touched(g.heap[o]) && Justified(g.log, config)
    case RecordPut(o, _, _) => Keyed(g, o) && Touched(g.heap[o])
    case Fetch(o) => IsMarked(g, o)
    case Remove(o, u) =>
      IsMarked(g, o) && u.rv < |g.hist| && u == g.hist[u.rv] && u.marked && PROVISIONER in u.finalizers
    case StripPut(o, u, _) => IsMarked(g, o) && StripCopy(g.hist, g.log, u)
    case Returned(from, failed) =>
      InHeap(g, from) && (from.Some? && IsMarked(g, from.value) && !failed ==> LacksKey(g))
  }

  ghost predicate HandlerOk(g: Shared, h: Handler) {
    match h
    case Finished => true
    case HealthBegin(o) => o < |g.heap| && SawProvisioned in g.log
    case HealthProbe(o) => o < |g.heap| && SawProvisioned in g.log
    case HealthEnd(o, ok) => o < |g.heap| && SawProvisioned in g.log && Checked(ok) in g.log
    case HealthPut(o, _) => o < |g.heap|
    case AnnotGet(o) => o < |g.heap| && SawReady in g.log
    case AnnotDiscover(o) => o < |g.heap| && SawReady in g.log && SawKubeconfig in g.log
    case AnnotCompare(o, version) =>
      o < |g.heap| && SawReady in g.log && (version != "" ==> SawKubeconfig in g.log)
    case AnnotPut(u, _) => LiveCopy(g.hist, g.log, u)
    case GenGet(o) => o < |g.heap| && SawProvisioned in g.log
    case GenCreate(_) => SawProvisioned in g.log
    case GenUpdate(_) => SawProvisioned in g.log
  }

  ghost predicate HandlersOk(g: Shared, hs: seq<Handler>) {
    forall h :: 0 <= h < |hs| ==> HandlerOk(g, hs[h])
  }

  /** The cache shows the deletion mark and the store still holds the key. */
  ghost predicate Doomed(g: Shared, cache: Option<nat>) {
    cache.Some? && IsMarked(g, cache.value) && !LacksKey(g)
  }

  /** The worker is on a marked object and has not given up on it. */
  ghost predicate Removing(g: Shared, w: Worker) {
    && WorkerObject(w).Some? && IsMarked(g, WorkerObject(w).value)
    && (w.Returned? ==> w.failed)
  }

  /** While a deletion is due, someone is going to look at it. */
  ghost predicate Pending(g: Shared, cache: Option<nat>, events: nat, dirty: bool, w: Worker) {
    Doomed(g, cache) ==> events > 0 || dirty || Removing(g, w)
  }

  ghost predicate Inv(s: State) {
    && Ground(s.shared)
    && WorkerOk(s.shared, s.worker)
    && HandlersOk(s.shared, s.handlers)
    && InHeap(s.shared, s.cache)
    && (s.kube.Some? ==> SawProvisioned in s.shared.log)
    && Pending(s.shared, s.cache, s.events, s.dirty, s.worker)
  }

  // ---------- what time does to a state ----------

  /** Object `c` became `d`: identity and everything the controllers may not
      touch in place stay; the finalizer and the condition do not go away. */
  ghost predicate Grown(c: Cluster, d: Cluster) {
    && d.rv == c.rv && d.marked == c.marked && d.path == c.path && d.annotations == c.annotations
    && (PROVISIONER in c.finalizers ==> PROVISIONER in d.finalizers)
    && (Touched(c) ==> Touched(d))
  }

  ghost predicate HeapGrown(h: seq<Cluster>, k: seq<Cluster>) {
    |h| <= |k| && forall o :: 0 <= o < |h| ==> Grown(h[o], k[o])
  }

  ghost predicate LogGrown(log: seq<Event>, more: seq<Event>) {
    && log <= more
    && (forall e :: e in log ==> e in more)
    && (RemovedOk(log) ==> RemovedOk(more))
    && (ProvisionedOk(log) ==> ProvisionedOk(more))
    && (forall config :: Justified(log, config) ==> Justified(more, config))
  }

  /** The store marked the object and no longer holds the key on it. */
  ghost predicate Stripped(g: Shared) {
    g.hist != [] && Last(g).marked && LacksKey(g)
  }

  ghost predicate HistGrown(g: Shared, k: Shared) {
    && g.hist <= k.hist
    && (g.gone ==> k.gone && k.hist == g.hist)
    && (Stripped(g) ==> Stripped(k))
    && (g.hist != [] && Last(g).marked ==> Last(k).marked)
  }

  /** `k` is later than `g` in some run. */
  ghost predicate Later(g: Shared, k: Shared) {
    HistGrown(g, k) && HeapGrown(g.heap, k.heap) && LogGrown(g.log, k.log)
  }

  lemma LaterReflexive(g: Shared)
    ensures Later(g, g)
  {
  }

  lemma LaterTransitive(g: Shared, k: Shared, m: Shared)
    requires Later(g, k) && Later(k, m)
    ensures Later(g, m)
  {
  }

  lemma EventsStay(log: seq<Event>, more: seq<Event>)
    requires log <= more
    ensures LogGrown(log, more)
  {
    forall e | e in log ensures e in more {
      var i :| 0 <= i < |log| && log[i] == e;
      assert more[i] == e;
    }
    forall config | Justified(log, config) ensures Justified(more, config) {
      var p :| ProvisionCall(config, p, true) in log;
      assert ProvisionCall(config, p, true) in more;
    }
    if RemovedOk(log) {
      var p :| RemoveCall(p, true) in log;
      assert RemoveCall(p, true) in more;
    }
    if ProvisionedOk(log) {
      var a, p :| ProvisionCall(a, p, true) in log;
      assert ProvisionCall(a, p, true) in more;
    }
  }

  lemma FactStays(c: Cluster, log: seq<Event>, more: seq<Event>, first: Cluster)
    requires LogGrown(log, more) && Fact(c, log, first)
    ensures Fact(c, more, first)
  {
  }

  lemma CopyStays(g: Shared, k: Shared, c: Cluster)
    requires g.hist <= k.hist && LogGrown(g.log, k.log) && LiveCopy(g.hist, g.log, c)
    ensures LiveCopy(k.hist, k.log, c)
  {
    FactStays(c, g.log, k.log, g.hist[0]);
  }

  /** Program counters of activations that did not move stay sound. */
  lemma HandlerStays(g: Shared, k: Shared, h: Handler)
    requires Later(g, k) && HandlerOk(g, h)
    ensures HandlerOk(k, h)
  {
    if h.AnnotPut? {
      CopyStays(g, k, h.u);
    }
  }

  lemma HandlersStay(g: Shared, k: Shared, hs: seq<Handler>)
    requires Later(g, k) && HandlersOk(g, hs)
    ensures HandlersOk(k, hs)
  {
    forall h | 0 <= h < |hs| ensures HandlerOk(k, hs[h]) {
      HandlerStays(g, k, hs[h]);
    }
  }

  /** A marked object in memory was marked in the store when it was made. */
  lemma MarkedInStore(g: Shared, o: nat)
    requires Ground(g) && IsMarked(g, o)
    ensures g.hist != [] && Last(g).marked
  {
    assert LiveCopy(g.hist, g.log, g.heap[o]);
  }

  lemma WorkerStays(g: Shared, k: Shared, w: Worker)
    requires Later(g, k) && Ground(g) && WorkerOk(g, w)
    ensures WorkerOk(k, w)
  {
    if w.Returned? && w.from.Some? && !w.failed && IsMarked(g, w.from.value) {
      MarkedInStore(g, w.from.value);
      assert Stripped(k);
    }
  }

  lemma DoomedBefore(g: Shared, k: Shared, cache: Option<nat>)
    requires Ground(g) && Later(g, k) && InHeap(g, cache) && Doomed(k, cache)
    ensures Doomed(g, cache)
  {
    assert Grown(g.heap[cache.value], k.heap[cache.value]);
    MarkedInStore(g, cache.value);
    assert LacksKey(g) ==> Stripped(g);
  }

  lemma PendingStays(g: Shared, k: Shared, cache: Option<nat>, events: nat, dirty: bool, w: Worker)
    requires Ground(g) && Later(g, k) && InHeap(g, cache) && Pending(g, cache, events, dirty, w)
    ensures Pending(k, cache, events, dirty, w)
  {
    if Doomed(k, cache) {
      DoomedBefore(g, k, cache);
      if Removing(g, w) {
        assert Grown(g.heap[WorkerObject(w).value], k.heap[WorkerObject(w).value]);
      }
    }
  }
}
