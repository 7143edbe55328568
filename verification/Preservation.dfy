/** Every step keeps the invariant and only moves the state forward. */
module Preservation {
  import opened Objects
  import opened Machine
  import opened Invariant

  // ---------- single effects ----------

  lemma InPlace(g: Shared, o: nat, d: Cluster)
    requires Ground(g) && o < |g.heap| && LiveCopy(g.hist, g.log, d) && Grown(g.heap[o], d)
    ensures Ground(SetObject(g, o, d)) && Later(g, SetObject(g, o, d))
  {
    EventsStay(g.log, g.log);
  }

  lemma LogSound(g: Shared, e: Event)
    requires Ground(g) && Explained(g.log, e)
    ensures Ground(Logged(g, e)) && Later(g, Logged(g, e))
    ensures e in Logged(g, e).log
  {
    var k := Logged(g, e);
    LogLater(g, e);
    LogExtends(g.log, e);
    FactsStay(g, k);
    assert GoneOk(k.hist, k.gone, k.log);
  }

  lemma LogLater(g: Shared, e: Event)
    ensures Later(g, Logged(g, e)) && LogGrown(g.log, Logged(g, e).log)
    ensures e in Logged(g, e).log
  {
    EventsStay(g.log, Logged(g, e).log);
    assert Logged(g, e).log[|g.log|] == e;
  }

  lemma FactsStay(g: Shared, k: Shared)
    requires FactsOk(g.hist, g.log) && HeapOk(g.hist, g.heap, g.log)
    requires k.hist == g.hist && k.heap == g.heap && LogGrown(g.log, k.log)
    ensures FactsOk(k.hist, k.log) && HeapOk(k.hist, k.heap, k.log)
  {
    forall i | 0 <= i < |g.hist| ensures Fact(g.hist[i], k.log, g.hist[0]) {
      FactStays(g.hist[i], g.log, k.log, g.hist[0]);
    }
    forall o | 0 <= o < |g.heap| ensures LiveCopy(k.hist, k.log, k.heap[o]) {
      CopyStays(g, k, g.heap[o]);
    }
  }

  lemma LogExtends(log: seq<Event>, e: Event)
    requires LogOk(log) && Explained(log, e)
    ensures LogOk(log + [e])
  {
    var more := log + [e];
    forall i | 0 <= i < |more| ensures Explained(more[..i], more[i]) {
      if i < |log| {
        assert more[..i] == log[..i];
      } else {
        assert more[..i] == log;
      }
    }
  }

  lemma VersionsExtend(hist: seq<Cluster>, d: Cluster)
    requires Versioned(hist) && hist != [] && d.rv == |hist|
    requires hist[|hist| - 1].marked ==> d.marked
    requires Touched(hist[|hist| - 1]) ==> Touched(d)
    ensures Versioned(hist + [d])
  {
    var more := hist + [d];
    assert more[|hist|] == d;
    assert forall i :: 0 <= i < |hist| ==> more[i] == hist[i];
  }

  lemma CopiesExtend(hist: seq<Cluster>, heap: seq<Cluster>, log: seq<Event>, d: Cluster)
    requires HeapOk(hist, heap, log)
    ensures HeapOk(hist + [d], heap, log)
  {
    var more := hist + [d];
    forall o | 0 <= o < |heap| ensures LiveCopy(more, log, heap[o]) {
      assert LiveCopy(hist, log, heap[o]);
    }
  }

  /** A new version that forgets neither the mark nor the condition, and does
      not bring a stripped key back, may be stored. */
  lemma StoreSound(g: Shared, c: Cluster)
    requires Ground(g) && Live(g) && Fact(c, g.log, g.hist[0])
    requires Last(g).marked ==> c.marked
    requires Touched(Last(g)) ==> Touched(c)
    requires Last(g).marked && PROVISIONER !in Last(g).finalizers ==> PROVISIONER !in c.finalizers
    ensures Ground(Store(g, c)) && Later(g, Store(g, c))
  {
    var k := Store(g, c);
    EventsStay(g.log, k.log);
    if !k.gone {
      var d := c.(rv := |g.hist|);
      VersionsExtend(g.hist, d);
      CopiesExtend(g.hist, g.heap, g.log, d);
    }
  }

  lemma StripFact(v: Cluster, log: seq<Event>, first: Cluster)
    requires Fact(v, log, first) && v.marked && RemovedOk(log)
    ensures Fact(WithoutKey(v), log, first)
  {
    StripCounts(v.finalizers, PROVISIONER);
  }

  /** A copy made from the current version forgets nothing of it. */
  lemma PutSound(g: Shared, c: Cluster, fate: Fate)
    requires Ground(g) && LiveCopy(g.hist, g.log, c)
    ensures Ground(Put(g, c, fate)) && Later(g, Put(g, c, fate))
  {
    LaterReflexive(g);
    if Current(g, c) && fate != Lost && c != Last(g) {
      StoreSound(g, c);
    }
  }

  lemma StripPutSound(g: Shared, u: Cluster, fate: Fate)
    requires Ground(g) && StripCopy(g.hist, g.log, u)
    ensures Ground(Put(g, u, fate)) && Later(g, Put(g, u, fate))
  {
    LaterReflexive(g);
    if Current(g, u) && fate != Lost {
      StripFact(g.hist[u.rv], g.log, g.hist[0]);
      StoreSound(g, u);
    }
  }

  // ---------- the provisioner ----------

  lemma AppendedKey(g: Shared, o: nat)
    requires Ground(g) && Unmarked(g, o) && PROVISIONER !in g.heap[o].finalizers
    ensures LiveCopy(g.hist, g.log, WithKey(g.heap[o]))
  {
    var c := g.heap[o];
    assert LiveCopy(g.hist, g.log, c);
    assert Occurs(c.finalizers + [PROVISIONER], PROVISIONER) == 1;
  }

  lemma BegunProvisioned(g: Shared, o: nat)
    requires Ground(g) && Keyed(g, o)
    ensures LiveCopy(g.hist, g.log, Begun(g.heap[o], Provisioned))
  {
    assert LiveCopy(g.hist, g.log, g.heap[o]);
  }

  lemma EndedProvisioned(g: Shared, o: nat, ok: bool)
    requires Ground(g) && Keyed(g, o) && (ok ==> ProvisionedOk(g.log))
    ensures LiveCopy(g.hist, g.log, Ended(g.heap[o], Provisioned, ok))
  {
    assert LiveCopy(g.hist, g.log, g.heap[o]);
  }

  lemma ReadyBegun(g: Shared, o: nat)
    requires Ground(g) && o < |g.heap| && SawProvisioned in g.log
    ensures LiveCopy(g.hist, g.log, Begun(g.heap[o], Ready))
  {
    assert LiveCopy(g.hist, g.log, g.heap[o]);
  }

  lemma ReadyEnded(g: Shared, o: nat, ok: bool)
    requires Ground(g) && o < |g.heap| && SawProvisioned in g.log && Checked(ok) in g.log
    ensures LiveCopy(g.hist, g.log, Ended(g.heap[o], Ready, ok))
  {
    assert LiveCopy(g.hist, g.log, g.heap[o]);
  }

  lemma AppliedSet(g: Shared, o: nat, config: string)
    requires Ground(g) && o < |g.heap| && Touched(g.heap[o]) && Justified(g.log, config)
    ensures LiveCopy(g.hist, g.log, g.heap[o].(applied := config))
  {
    assert LiveCopy(g.hist, g.log, g.heap[o]);
  }

  lemma WorkerGround(g: Shared, w: Worker, c: Choice)
    requires Ground(g) && WorkerOk(g, w)
    requires InHeap(g, WorkerObject(w))
    ensures Ground(WorkerEffect(g, w, c)) && Later(g, WorkerEffect(g, w, c))
  {
    LaterReflexive(g);
    match w
    case Config(o) =>
      if c.file.Some? { LogSound(g, ReadConfig(c.file.value)); }
    case Init(o, config) =>
      if PROVISIONER !in g.heap[o].finalizers {
        AppendedKey(g, o);
        InPlace(g, o, WithKey(g.heap[o]));
      }
    case InitPut(o, config, tries) =>
      assert LiveCopy(g.hist, g.log, g.heap[o]);
      PutSound(g, g.heap[o], c.fate);
    case DoBegin(o, config) =>
      BegunProvisioned(g, o);
      InPlace(g, o, Begun(g.heap[o], Provisioned));
    case Backend(o, config) =>
      LogSound(g, ProvisionCall(config, g.heap[o].path, c.ok));
    case DoEnd(o, config, ok) =>
      EndedProvisioned(g, o, ok);
      InPlace(g, o, Ended(g.heap[o], Provisioned, ok));
    case Record(o, config) =>
      AppliedSet(g, o, config);
      InPlace(g, o, g.heap[o].(applied := config));
    case RecordPut(o, config, tries) =>
      assert LiveCopy(g.hist, g.log, g.heap[o]);
      PutSound(g, g.heap[o], c.fate);
    case Remove(o, u) =>
      LogSound(g, RemoveCall(g.heap[o].path, c.ok));
    case StripPut(o, u, tries) =>
      StripPutSound(g, u, c.fate);
    case _ =>
  }

  lemma WorkerMoves(g: Shared, w: Worker, cache: Option<nat>, c: Choice)
    requires Ground(g) && WorkerOk(g, w)
    requires InHeap(g, WorkerObject(w)) && InHeap(g, cache)
    requires Later(g, WorkerEffect(g, w, c))
    ensures WorkerOk(WorkerEffect(g, w, c), WorkerNext(g, w, cache, c))
  {
    match w
    case Fetch(o) => FetchMoves(g, o, cache, c);
    case Remove(_, _) => CleanupMoves(g, w, cache, c);
    case StripPut(_, _, _) => CleanupMoves(g, w, cache, c);
    case Returned(_, _) =>
    case Idle =>
    case Config(_) => ConfigMoves(g, w, cache, c);
    case Init(_, _) => ConfigMoves(g, w, cache, c);
    case _ => AddMoves(g, w, cache, c);
  }

  lemma FetchMoves(g: Shared, o: nat, cache: Option<nat>, c: Choice)
    requires Ground(g) && WorkerOk(g, Fetch(o)) && InHeap(g, cache)
    ensures WorkerOk(g, WorkerNext(g, Fetch(o), cache, c))
  {
    MarkedInStore(g, o);
    var v := WorkerNext(g, Fetch(o), cache, c);
    if c.fate != Delivered {
      assert v == Returned(Some(o), true);
    } else if LacksKey(g) {
      assert v == Returned(Some(o), false);
    } else {
      assert v == Remove(o, Last(g));
      assert Last(g).rv == |g.hist| - 1;
    }
  }

  lemma ConfigMoves(g: Shared, w: Worker, cache: Option<nat>, c: Choice)
    requires Ground(g) && WorkerOk(g, w) && InHeap(g, cache) && (w.Config? || w.Init?)
    requires Later(g, WorkerEffect(g, w, c))
    ensures WorkerOk(WorkerEffect(g, w, c), WorkerNext(g, w, cache, c))
  {
    var k := WorkerEffect(g, w, c);
    assert Unmarked(k, w.o);
    if w.Config? && c.file.Some? {
      LogSound(g, ReadConfig(c.file.value));
    }
  }

  lemma AddMoves(g: Shared, w: Worker, cache: Option<nat>, c: Choice)
    requires Ground(g) && WorkerOk(g, w) && InHeap(g, cache)
    requires w.InitPut? || w.DoBegin? || w.Backend? || w.DoEnd? || w.Record? || w.RecordPut?
    requires Later(g, WorkerEffect(g, w, c))
    ensures WorkerOk(WorkerEffect(g, w, c), WorkerNext(g, w, cache, c))
  {
    assert Keyed(WorkerEffect(g, w, c), w.o);
    if w.Backend? {
      LogSound(g, ProvisionCall(w.config, g.heap[w.o].path, c.ok));
    }
  }

  lemma CleanupMoves(g: Shared, w: Worker, cache: Option<nat>, c: Choice)
    requires Ground(g) && WorkerOk(g, w) && InHeap(g, cache)
    requires w.Remove? || w.StripPut?
    requires Later(g, WorkerEffect(g, w, c))
    ensures WorkerOk(WorkerEffect(g, w, c), WorkerNext(g, w, cache, c))
  {
    var k := WorkerEffect(g, w, c);
    assert IsMarked(k, w.o);
    match w
    case Remove(o, u) =>
      LogSound(g, RemoveCall(g.heap[o].path, c.ok));
    case StripPut(o, u, _) =>
      StripPutMoves(g, u, c.fate);
      CopyOfStrip(g, k, u);
  }

  /** An acknowledged strip has taken the key off the store. */
  lemma StripPutMoves(g: Shared, u: Cluster, fate: Fate)
    requires Ground(g) && StripCopy(g.hist, g.log, u)
    ensures PutOk(g, u, fate) ==> LacksKey(Put(g, u, fate))
  {
    if Current(g, u) {
      assert PROVISIONER in Last(g).finalizers && PROVISIONER !in u.finalizers;
      assert u != Last(g);
    }
  }

  lemma CopyOfStrip(g: Shared, k: Shared, u: Cluster)
    requires Later(g, k) && StripCopy(g.hist, g.log, u)
    ensures StripCopy(k.hist, k.log, u)
  {
  }

  /** A removal goes on until it is given up for a requeue or the key is off. */
  lemma RemovingMoves(g: Shared, w: Worker, cache: Option<nat>, c: Choice)
    requires Removing(g, w) && !w.Returned?
    requires InHeap(g, WorkerObject(w)) && InHeap(g, cache)
    requires HeapGrown(g.heap, WorkerEffect(g, w, c).heap)
    requires WorkerOk(WorkerEffect(g, w, c), WorkerNext(g, w, cache, c)) && !LacksKey(WorkerEffect(g, w, c))
    ensures Removing(WorkerEffect(g, w, c), WorkerNext(g, w, cache, c))
  {
    var o := WorkerObject(w).value;
    assert Grown(g.heap[o], WorkerEffect(g, w, c).heap[o]);
    assert WorkerObject(WorkerNext(g, w, cache, c)) == Some(o);
  }

  lemma WorkerPending(g: Shared, w: Worker, cache: Option<nat>, events: nat, dirty: bool, c: Choice)
    requires Ground(g) && WorkerOk(g, w) && Pending(g, cache, events, dirty, w)
    requires InHeap(g, WorkerObject(w)) && InHeap(g, cache)
    requires Later(g, WorkerEffect(g, w, c)) && WorkerOk(WorkerEffect(g, w, c), WorkerNext(g, w, cache, c))
    ensures Pending(WorkerEffect(g, w, c), cache, events, DirtyNext(dirty, w), WorkerNext(g, w, cache, c))
  {
    if Doomed(WorkerEffect(g, w, c), cache) {
      DoomedBefore(g, WorkerEffect(g, w, c), cache);
      if Removing(g, w) && !w.Returned? {
        RemovingMoves(g, w, cache, c);
      }
    }
  }

  // ---------- the other controllers ----------

  lemma HandlerGround(g: Shared, h: Handler, kube: Option<Kubeconfig>, c: Choice)
    requires Ground(g) && HandlerOk(g, h) && (kube.Some? ==> SawProvisioned in g.log)
    requires InHeap(g, HandlerObject(h))
    ensures Ground(HandlerEffect(g, h, kube, c)) && Later(g, HandlerEffect(g, h, kube, c))
  {
    LaterReflexive(g);
    match h
    case HealthBegin(o) =>
      ReadyBegun(g, o);
      InPlace(g, o, Begun(g.heap[o], Ready));
    case HealthProbe(o) =>
      LogSound(g, Checked(Healthy(kube, c)));
    case HealthEnd(o, ok) =>
      ReadyEnded(g, o, ok);
      InPlace(g, o, Ended(g.heap[o], Ready, ok));
    case HealthPut(o, tries) =>
      assert LiveCopy(g.hist, g.log, g.heap[o]);
      PutSound(g, g.heap[o], c.fate);
    case AnnotGet(o) =>
      if c.fate == Delivered && kube.Some? { LogSound(g, SawKubeconfig); }
    case AnnotPut(u, tries) =>
      PutSound(g, u, c.fate);
    case _ =>
  }

  /** The annotator's deep copy, with the version written into it. */
  lemma CopyAnnotated(g: Shared, o: nat, version: string)
    requires Ground(g) && o < |g.heap| && SawReady in g.log && (version != "" ==> SawKubeconfig in g.log)
    ensures LiveCopy(g.hist, g.log, WithVersion(g.heap[o], version))
  {
    assert LiveCopy(g.hist, g.log, g.heap[o]);
  }

  lemma HandlerMoves(g: Shared, h: Handler, kube: Option<Kubeconfig>, c: Choice)
    requires Ground(g) && HandlerOk(g, h) && (kube.Some? ==> SawProvisioned in g.log)
    requires InHeap(g, HandlerObject(h))
    requires Later(g, HandlerEffect(g, h, kube, c))
    ensures HandlerOk(HandlerEffect(g, h, kube, c), HandlerNext(g, h, kube, c))
  {
    match h
    case HealthProbe(o) => LogSound(g, Checked(Healthy(kube, c)));
    case AnnotGet(o) => AnnotGetMoves(g, o, kube, c);
    case AnnotCompare(o, version) => CopyAnnotated(g, o, version);
    case AnnotPut(u, tries) => AnnotPutMoves(g, u, tries, kube, c);
    case _ =>
  }

  lemma AnnotGetMoves(g: Shared, o: nat, kube: Option<Kubeconfig>, c: Choice)
    requires Ground(g) && HandlerOk(g, AnnotGet(o))
    ensures HandlerOk(HandlerEffect(g, AnnotGet(o), kube, c), HandlerNext(g, AnnotGet(o), kube, c))
  {
    if c.fate == Delivered && kube.Some? { LogSound(g, SawKubeconfig); }
  }

  lemma AnnotPutMoves(g: Shared, u: Cluster, tries: nat, kube: Option<Kubeconfig>, c: Choice)
    requires Ground(g) && HandlerOk(g, AnnotPut(u, tries))
    requires Later(g, HandlerEffect(g, AnnotPut(u, tries), kube, c))
    ensures HandlerOk(HandlerEffect(g, AnnotPut(u, tries), kube, c), HandlerNext(g, AnnotPut(u, tries), kube, c))
  {
    CopyStays(g, HandlerEffect(g, AnnotPut(u, tries), kube, c), u);
  }

  lemma HandlerStepKeeps(s: State, h: nat, c: Choice)
    requires Inv(s) && Enabled(s, Handle(h, c))
    ensures Inv(HandlerStep(s, h, c)) && Later(s.shared, HandlerStep(s, h, c).shared)
  {
    var t, p := HandlerStep(s, h, c), s.handlers[h];
    assert HandlerOk(s.shared, p);
    HandlerGround(s.shared, p, s.kube, c);
    HandlerMoves(s.shared, p, s.kube, c);
    WorkerStays(s.shared, t.shared, s.worker);
    HandlersStay(s.shared, t.shared, s.handlers);
    PendingStays(s.shared, t.shared, s.cache, s.events, s.dirty, s.worker);
  }

  lemma WorkerStepKeeps(s: State, c: Choice)
    requires Inv(s) && Enabled(s, Work(c))
    ensures Inv(WorkerStep(s, c)) && Later(s.shared, WorkerStep(s, c).shared)
  {
    WorkerGround(s.shared, s.worker, c);
    WorkerMoves(s.shared, s.worker, s.cache, c);
    HandlersStay(s.shared, WorkerEffect(s.shared, s.worker, c), s.handlers);
    WorkerPending(s.shared, s.worker, s.cache, s.events, s.dirty, c);
  }

  // ---------- the environment ----------

  lemma StartKeeps(s: State, o: nat, e: Event, h: Handler)
    requires Inv(s) && Explained(s.shared.log, e)
    requires HandlerOk(Logged(s.shared, e), h)
    ensures Inv(Started(s, e, h)) && Later(s.shared, Started(s, e, h).shared)
  {
    var k := Logged(s.shared, e);
    LogSound(s.shared, e);
    WorkerStays(s.shared, k, s.worker);
    HandlersStay(s.shared, k, s.handlers);
    PendingStays(s.shared, k, s.cache, s.events, s.dirty, s.worker);
  }

  lemma StartsKeep(s: State, l: Label)
    requires Inv(s) && Enabled(s, l) && (l.StartHealth? || l.StartAnnot? || l.StartGen?)
    ensures Inv(Next(s, l)) && Later(s.shared, Next(s, l).shared)
  {
    var e := if l.StartAnnot? then SawReady else SawProvisioned;
    assert LiveCopy(s.shared.hist, s.shared.log, s.shared.heap[l.o]);
    LogSound(s.shared, e);
    match l
    case StartHealth(o) => StartKeeps(s, o, e, HealthBegin(o));
    case StartAnnot(o) => StartKeeps(s, o, e, AnnotGet(o));
    case StartGen(o) => StartKeeps(s, o, e, GenGet(o));
  }

  lemma SharedChanges(s: State, k: Shared)
    requires Inv(s) && Ground(k) && Later(s.shared, k)
    ensures Inv(s.(shared := k))
  {
    WorkerStays(s.shared, k, s.worker);
    HandlersStay(s.shared, k, s.handlers);
    PendingStays(s.shared, k, s.cache, s.events, s.dirty, s.worker);
  }

  lemma DroppedSound(g: Shared, f: string)
    requires Ground(g) && Live(g) && f != PROVISIONER
    ensures Ground(Dropped(g, f)) && Later(g, Dropped(g, f))
  {
    LaterReflexive(g);
    StripKeepsOccurs(Last(g).finalizers, f, PROVISIONER);
    StoreSound(g, Last(g).(finalizers := Strip(Last(g).finalizers, f)));
  }

  lemma EditedSound(g: Shared, path: string)
    requires Ground(g) && Live(g)
    ensures Ground(Edited(g, path)) && Later(g, Edited(g, path))
  {
    LaterReflexive(g);
    StoreSound(g, Last(g).(path := path));
  }

  lemma MarkedSound(g: Shared)
    requires Ground(g) && Live(g)
    ensures Ground(Marked(g)) && Later(g, Marked(g))
  {
    LaterReflexive(g);
    StoreSound(g, Last(g).(marked := true));
  }

  lemma CreatedSound(g: Shared, c: Cluster)
    requires Ground(g) && g.hist == [] && c.rv == 0 && !c.marked && c.conditions == [] && VERSION_KEY !in c.annotations
    ensures Ground(g.(hist := [c])) && Later(g, g.(hist := [c]))
  {
    EventsStay(g.log, g.log);
  }

  lemma UsersKeep(s: State, l: Label)
    requires Inv(s) && Enabled(s, l) && (l.Create? || l.EditSpec? || l.Delete? || l.DropForeign?)
    ensures Inv(Next(s, l)) && Later(s.shared, Next(s, l).shared)
  {
    match l {
      case Create(c) => CreatedSound(s.shared, c);
      case EditSpec(path) => EditedSound(s.shared, path);
      case Delete => MarkedSound(s.shared);
      case DropForeign(f) => DroppedSound(s.shared, f);
    }
    SharedChanges(s, Next(s, l).shared);
  }

  lemma RefreshKeeps(s: State, v: nat)
    requires Inv(s) && Enabled(s, Refresh(v))
    ensures Inv(Next(s, Refresh(v))) && Later(s.shared, Next(s, Refresh(v)).shared)
  {
    var g := s.shared;
    var k := g.(heap := g.heap + [g.hist[v]]);
    EventsStay(g.log, g.log);
    assert LiveCopy(g.hist, g.log, g.hist[v]);
    WorkerStays(g, k, s.worker);
    HandlersStay(g, k, s.handlers);
  }

  // ---------- one step ----------

  lemma StepKeepsInv(s: State, l: Label)
    requires Inv(s) && Enabled(s, l)
    ensures Inv(Next(s, l)) && Later(s.shared, Next(s, l).shared)
  {
    LaterReflexive(s.shared);
    match l
    case Work(c) => WorkerStepKeeps(s, c);
    case Handle(h, c) => HandlerStepKeeps(s, h, c);
    case StartHealth(_) => StartsKeep(s, l);
    case StartAnnot(_) => StartsKeep(s, l);
    case StartGen(_) => StartsKeep(s, l);
    case Refresh(v) => RefreshKeeps(s, v);
    case Create(_) => UsersKeep(s, l);
    case EditSpec(_) => UsersKeep(s, l);
    case Delete => UsersKeep(s, l);
    case DropForeign(_) => UsersKeep(s, l);
    case _ =>
  }

  // ---------- all runs ----------

  lemma {:induction false} RunKeepsInv(run: seq<Label>)
    requires IsRun(run)
    ensures Inv(After(run))
  {
    if run != [] {
      RunKeepsInv(run[..|run| - 1]);
      StepKeepsInv(After(run[..|run| - 1]), run[|run| - 1]);
    }
  }

  /** Along a run the state only moves forward. */
  lemma {:induction false} RunMovesForward(run: seq<Label>, i: nat)
    requires IsRun(run) && i <= |run|
    ensures IsRun(run[..i]) && Later(After(run[..i]).shared, After(run).shared)
  {
    RunPrefix(run, i);
    if i == |run| {
      assert run[..i] == run;
      LaterReflexive(After(run).shared);
    } else {
      var front := run[..|run| - 1];
      assert front[..i] == run[..i];
      RunMovesForward(front, i);
      RunKeepsInv(front);
      StepKeepsInv(After(front), run[|run| - 1]);
      LaterTransitive(After(run[..i]).shared, After(front).shared, After(run).shared);
    }
  }
}
