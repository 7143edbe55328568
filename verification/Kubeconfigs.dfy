/** What the config generator does to Kubeconfigs in every interleaving, with
    users who edit and delete them meanwhile. */
module Kubeconfigs {
  import opened Objects
  import opened Machine
  import opened Invariant
  import opened Preservation
  import KubeconfigPath

  /** The path is the one that belongs to the spec path of some version. */
  ghost predicate Computed(hist: seq<Cluster>, path: string) {
    exists v :: 0 <= v < |hist| && KubeconfigPath.Beside(hist[v].path, path)
  }

  /** A Kubeconfig about to be created is bare; one about to be updated is older
      than the next version, and if nobody wrote since it was read, it is the
      stored one with another path. */
  ghost predicate TaskOk(s: State, h: Handler) {
    match h
    case GenCreate(k) => k.owned && k.labels == map[] && Computed(s.shared.hist, k.path)
    case GenUpdate(k) =>
      && k.rv < s.krv && Computed(s.shared.hist, k.path)
      && (s.kube.Some? && s.kube.value.rv == k.rv ==> k == s.kube.value.(path := k.path))
    case _ => true
  }

  ghost predicate TasksOk(s: State) {
    forall h :: 0 <= h < |s.handlers| ==> TaskOk(s, s.handlers[h])
  }

  ghost predicate KubeOk(s: State) {
    TasksOk(s) && (s.kube.Some? ==> s.kube.value.rv < s.krv && s.kube.value.owned)
  }

  /** Every write of the Kubeconfig gets a version of its own. */
  ghost predicate KubeMoves(s: State, t: State) {
    && s.shared.hist <= t.shared.hist && s.krv <= t.krv
    && (t.kube == s.kube || t.kube.None? || t.kube.value.rv >= s.krv)
  }

  lemma TaskStays(s: State, t: State, h: Handler)
    requires TaskOk(s, h) && KubeMoves(s, t)
    ensures TaskOk(t, h)
  {
    if h.GenCreate? || h.GenUpdate? {
      var v :| 0 <= v < |s.shared.hist| && KubeconfigPath.Beside(s.shared.hist[v].path, h.k.path);
      assert t.shared.hist[v] == s.shared.hist[v];
    }
  }

  lemma TasksStay(s: State, t: State)
    requires TasksOk(s) && KubeMoves(s, t) && t.handlers == s.handlers
    ensures TasksOk(t)
  {
    forall h | 0 <= h < |t.handlers| ensures TaskOk(t, t.handlers[h]) {
      TaskStays(s, t, s.handlers[h]);
    }
  }

  // ---------- the steps of a handler ----------

  lemma WriteKeeps(s: State, h: nat, c: Choice)
    requires KubeOk(s) && h < |s.handlers|
    ensures var k := KubeWritten(s.handlers[h], s.kube, c); k.Some? ==>
      && k.value.owned && Computed(s.shared.hist, k.value.path)
      && (s.kube.Some? ==> k.value == s.kube.value.(path := k.value.path))
      && (s.kube.None? ==> k.value.labels == map[])
  {
    assert TaskOk(s, s.handlers[h]);
  }

  lemma NextTask(s: State, h: nat, c: Choice)
    requires Inv(s) && KubeOk(s) && Enabled(s, Handle(h, c))
    ensures TaskOk(s, HandlerNext(s.shared, s.handlers[h], s.kube, c))
  {
    var p := s.handlers[h];
    if p.GenGet? {
      assert LiveCopy(s.shared.hist, s.shared.log, s.shared.heap[p.o]);
      ComputedForCopy(s.shared, p.o);
    }
  }

  lemma ComputedForCopy(g: Shared, o: nat)
    requires Ground(g) && o < |g.heap|
    ensures Computed(g.hist, KubeconfigPath.GetKubeConfigPath(g.heap[o].path))
  {
    assert LiveCopy(g.hist, g.log, g.heap[o]);
    var path := g.heap[o].path;
    KubeconfigPath.ComputesBeside(path, KubeconfigPath.GetKubeConfigPath(path));
    assert g.hist[g.heap[o].rv].path == path;
  }

  lemma HandlerMovesKube(s: State, h: nat, c: Choice)
    requires Inv(s) && KubeOk(s) && Enabled(s, Handle(h, c))
    ensures KubeMoves(s, HandlerStep(s, h, c))
    ensures var t := HandlerStep(s, h, c); t.kube.Some? ==> t.kube.value.rv < t.krv && t.kube.value.owned
  {
    HandlerStepKeeps(s, h, c);
    WriteKeeps(s, h, c);
  }

  lemma HandlerKeepsKube(s: State, h: nat, c: Choice)
    requires Inv(s) && KubeOk(s) && Enabled(s, Handle(h, c))
    ensures KubeOk(HandlerStep(s, h, c))
  {
    var t := HandlerStep(s, h, c);
    HandlerMovesKube(s, h, c);
    NextTask(s, h, c);
    var next := HandlerNext(s.shared, s.handlers[h], s.kube, c);
    forall i | 0 <= i < |t.handlers| ensures TaskOk(t, t.handlers[i]) {
      if i == h {
        TaskStays(s, t, next);
      } else {
        TaskStays(s, t, s.handlers[i]);
      }
    }
  }

  // ---------- all steps and runs ----------

  lemma StartKeepsKube(s: State, e: Event, h: Handler)
    requires KubeOk(s) && (h.HealthBegin? || h.AnnotGet? || h.GenGet?)
    ensures KubeOk(Started(s, e, h))
  {
    var t := Started(s, e, h);
    forall i | 0 <= i < |t.handlers| ensures TaskOk(t, t.handlers[i]) {
      if i < |s.handlers| {
        TaskStays(s, t, s.handlers[i]);
      }
    }
  }

  lemma OthersKeepKube(s: State, l: Label)
    requires Inv(s) && KubeOk(s) && Enabled(s, l)
    requires !l.Handle? && !l.StartHealth? && !l.StartAnnot? && !l.StartGen?
    ensures KubeOk(Next(s, l))
  {
    StepKeepsInv(s, l);
    TasksStay(s, Next(s, l));
  }

  lemma StepKeepsKube(s: State, l: Label)
    requires Inv(s) && KubeOk(s) && Enabled(s, l)
    ensures KubeOk(Next(s, l))
  {
    match l
    case Handle(h, c) => HandlerKeepsKube(s, h, c);
    case StartHealth(o) => StartKeepsKube(s, SawProvisioned, HealthBegin(o));
    case StartAnnot(o) => StartKeepsKube(s, SawReady, AnnotGet(o));
    case StartGen(o) => StartKeepsKube(s, SawProvisioned, GenGet(o));
    case _ => OthersKeepKube(s, l);
  }

  lemma {:induction false} RunKeepsKube(run: seq<Label>)
    requires IsRun(run)
    ensures KubeOk(After(run))
  {
    if run != [] {
      var front := run[..|run| - 1];
      RunKeepsKube(front);
      RunKeepsInv(front);
      StepKeepsKube(After(front), run[|run| - 1]);
    }
  }

  /** No edit of a Kubeconfig is lost: whatever users do between the generator's
      read and its write, a handler's step leaves an existing Kubeconfig alone
      or changes nothing but its path, and only of the version that was read;
      one it creates is bare. The path is always one computed for a version of
      the cluster. */
  lemma GeneratorKeepsEdits(run: seq<Label>, h: nat, c: Choice)
    requires IsRun(run) && Enabled(After(run), Handle(h, c))
    ensures var s, t := After(run), Next(After(run), Handle(h, c));
      t.kube == s.kube || (
        && t.kube.Some? && Computed(s.shared.hist, t.kube.value.path)
        && (s.kube.Some? ==>
             && t.kube.value == s.kube.value.(path := t.kube.value.path, rv := s.krv)
             && s.handlers[h] == GenUpdate(s.kube.value.(path := t.kube.value.path)))
        && (s.kube.None? ==> t.kube.value == Kubeconfig(s.krv, t.kube.value.path, true, map[])))
  {
    RunKeepsInv(run);
    RunKeepsKube(run);
    WriteKeeps(After(run), h, c);
  }

  /** Every Kubeconfig that ever exists refers to its cluster as its owner. */
  lemma AlwaysOwned(run: seq<Label>)
    requires IsRun(run) && After(run).kube.Some?
    ensures After(run).kube.value.owned
  {
    RunKeepsKube(run);
  }
}
