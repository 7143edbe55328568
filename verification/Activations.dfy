/** What one undisturbed activation of each of the other controllers does with
    the stored cluster, for every answer it may get. */
module Activations {
  import opened Objects
  import opened Machine
  import KubeconfigPath

  /** Object `o` is the stored version; a marked one has a finalizer left. */
  ghost predicate IsStored(g: Shared, o: nat) {
    && o < |g.heap| && Live(g) && g.heap[o] == Last(g) && Last(g).rv == |g.hist| - 1
    && (Last(g).marked ==> Last(g).finalizers != [])
  }

  // ---------- the health checker ----------

  /** An activation on object `o`; `probe` is what its check meets. */
  ghost function CheckHealth(s: State, o: nat, probe: Choice): State
    requires Enabled(s, StartHealth(o))
  {
    HandlerStep(EndCheck(s, o, probe), |s.handlers|, Good(""))
  }

  ghost function CheckBegun(s: State, o: nat): (t: State)
    requires Enabled(s, StartHealth(o))
    ensures t.handlers == s.handlers + [HealthProbe(o)] && |t.shared.heap| == |s.shared.heap|
  {
    BeginStep(Next(s, StartHealth(o)), |s.handlers|, o, Good(""));
    HandlerStep(Next(s, StartHealth(o)), |s.handlers|, Good(""))
  }

  ghost function Probed(s: State, o: nat, probe: Choice): (t: State)
    requires Enabled(s, StartHealth(o))
    ensures t.handlers == s.handlers + [HealthEnd(o, Passes(s, probe))] && |t.shared.heap| == |s.shared.heap|
  {
    ProbeStep(CheckBegun(s, o), |s.handlers|, o, probe);
    HandlerStep(CheckBegun(s, o), |s.handlers|, probe)
  }

  /** The same up to the point where the object is to be written back. */
  ghost function EndCheck(s: State, o: nat, probe: Choice): (t: State)
    requires Enabled(s, StartHealth(o))
    ensures t.handlers == s.handlers + [HealthPut(o, 0)] && |t.shared.heap| == |s.shared.heap|
  {
    EndStep(Probed(s, o, probe), |s.handlers|, o, Passes(s, probe), Good(""));
    HandlerStep(Probed(s, o, probe), |s.handlers|, Good(""))
  }

  /** The check passes without a Kubeconfig or when the server answers. */
  predicate Passes(s: State, probe: Choice) {
    probe.fate == Delivered && (s.kube.None? || probe.ok)
  }

  lemma BeginStep(s: State, h: nat, o: nat, c: Choice)
    requires h < |s.handlers| && s.handlers[h] == HealthBegin(o) && o < |s.shared.heap|
    ensures HandlerStep(s, h, c) ==
      s.(shared := SetObject(s.shared, o, Begun(s.shared.heap[o], Ready)),
         handlers := s.handlers[h := HealthProbe(o)])
  {
  }

  lemma ProbeStep(s: State, h: nat, o: nat, c: Choice)
    requires h < |s.handlers| && s.handlers[h] == HealthProbe(o) && o < |s.shared.heap|
    ensures HandlerStep(s, h, c) ==
      s.(shared := Logged(s.shared, Checked(Passes(s, c))), handlers := s.handlers[h := HealthEnd(o, Passes(s, c))])
  {
  }

  lemma EndStep(s: State, h: nat, o: nat, ok: bool, c: Choice)
    requires h < |s.handlers| && s.handlers[h] == HealthEnd(o, ok) && o < |s.shared.heap|
    ensures HandlerStep(s, h, c) ==
      s.(shared := SetObject(s.shared, o, Ended(s.shared.heap[o], Ready, ok)),
         handlers := s.handlers[h := HealthPut(o, 0)])
  {
  }

  lemma CheckEnds(s: State, o: nat, probe: Choice)
    requires Enabled(s, StartHealth(o))
    ensures var t, v := EndCheck(s, o, probe), s.shared.heap[o];
      && t.kube == s.kube && t.shared.hist == s.shared.hist && t.shared.gone == s.shared.gone
      && t.shared.log == s.shared.log + [SawProvisioned] + [Checked(Passes(s, probe))]
      && t.shared.heap[o] ==
           v.(conditions := SetStatus(v.conditions, Ready, if Passes(s, probe) then True else False))
  {
    var h, v := |s.handlers|, s.shared.heap[o];
    BeginStep(Next(s, StartHealth(o)), h, o, Good(""));
    ProbeStep(CheckBegun(s, o), h, o, probe);
    EndStep(Probed(s, o, probe), h, o, Passes(s, probe), Good(""));
    DoSets(v.conditions, Ready, Passes(s, probe));
  }

  lemma PutStep(s: State, h: nat, o: nat)
    requires h < |s.handlers| && s.handlers[h] == HealthPut(o, 0) && o < |s.shared.heap|
    requires Current(s.shared, s.shared.heap[o])
    ensures HandlerStep(s, h, Good("")) ==
      s.(shared := Commit(s.shared, s.shared.heap[o]), handlers := s.handlers[h := Finished])
  {
  }

  /** On the stored version: Ready is stored True exactly when there is no
      Kubeconfig or the server answers, and False otherwise; everything else is
      kept, and nothing is written when Ready already said so. */
  lemma HealthIsStored(s: State, o: nat, probe: Choice)
    requires Enabled(s, StartHealth(o)) && IsStored(s.shared, o)
    ensures var t, v := CheckHealth(s, o, probe), Last(s.shared);
      var passed := probe.fate == Delivered && (s.kube.None? || probe.ok);
      && Live(t.shared) && t.handlers == s.handlers + [Finished] && t.kube == s.kube
      && GetStatus(Last(t.shared).conditions, Ready) == Some(if passed then True else False)
      && (forall k :: k != Ready ==> GetStatus(Last(t.shared).conditions, k) == GetStatus(v.conditions, k))
      && Last(t.shared).(conditions := v.conditions, rv := v.rv) == v
      && (t.shared.hist == s.shared.hist <==> GetStatus(v.conditions, Ready) == Some(if passed then True else False))
      && (t.shared.hist == s.shared.hist || t.shared.hist == s.shared.hist + [Last(t.shared)])
  {
    CheckEnds(s, o, probe);
    PutStep(EndCheck(s, o, probe), |s.handlers|, o);
    StatusIsStored(EndCheck(s, o, probe).shared, if Passes(s, probe) then True else False);
  }

  lemma StatusIsStored(g: Shared, status: Status)
    requires Live(g) && Last(g).rv == |g.hist| - 1 && (Last(g).marked ==> Last(g).finalizers != [])
    ensures var v := Last(g);
      var k := Commit(g, v.(conditions := SetStatus(v.conditions, Ready, status)));
      && Live(k) && GetStatus(Last(k).conditions, Ready) == Some(status)
      && (forall c :: c != Ready ==> GetStatus(Last(k).conditions, c) == GetStatus(v.conditions, c))
      && Last(k).(conditions := v.conditions, rv := v.rv) == v
      && (k.hist == g.hist <==> GetStatus(v.conditions, Ready) == Some(status))
      && (k.hist == g.hist || k.hist == g.hist + [Last(k)])
  {
    var v := Last(g);
    if GetStatus(v.conditions, Ready) == Some(status) {
      SetSame(v.conditions, Ready, status);
    }
  }

  // ---------- the annotator ----------

  /** An activation on object `o`; `fetch` and `ask` are what its two requests
      for the version meet. */
  ghost function Annotate(s: State, o: nat, fetch: Choice, ask: Choice): State
    requires Enabled(s, StartAnnot(o))
  {
    var t, h := Compared(s, o, fetch, ask), |s.handlers|;
    if t.handlers[h].AnnotPut? then HandlerStep(t, h, Good("")) else t
  }

  ghost function Fetched(s: State, o: nat, fetch: Choice): (t: State)
    requires Enabled(s, StartAnnot(o))
    ensures t.handlers == s.handlers +
      [if fetch.fate == Delivered && s.kube.Some? then AnnotDiscover(o) else AnnotCompare(o, "")]
    ensures t.kube == s.kube && SameObjects(s, t)
  {
    HandlerStep(Next(s, StartAnnot(o)), |s.handlers|, fetch)
  }

  ghost function Asked(s: State, o: nat, fetch: Choice, ask: Choice): (t: State)
    requires Enabled(s, StartAnnot(o))
    ensures t.handlers == s.handlers + [AnnotCompare(o, Answer(s.kube, fetch, ask))]
    ensures t.kube == s.kube && SameObjects(s, t)
  {
    var t, h := Fetched(s, o, fetch), |s.handlers|;
    if t.handlers[h].AnnotDiscover? then HandlerStep(t, h, ask) else t
  }

  ghost predicate SameObjects(s: State, t: State) {
    t.shared.heap == s.shared.heap && t.shared.hist == s.shared.hist && t.shared.gone == s.shared.gone
  }

  /** The same up to the comparison of the versions. */
  ghost function Compared(s: State, o: nat, fetch: Choice, ask: Choice): (t: State)
    requires Enabled(s, StartAnnot(o))
    ensures |t.handlers| == |s.handlers| + 1
  {
    HandlerStep(Asked(s, o, fetch, ask), |s.handlers|, Good(""))
  }

  /** The version an activation gets: the server's answer, or "" without a
      Kubeconfig or an answer. */
  function Answer(kube: Option<Kubeconfig>, fetch: Choice, ask: Choice): string {
    if fetch.fate == Delivered && kube.Some? && ask.ok then ask.text else ""
  }

  lemma ComparesAnswer(s: State, o: nat, fetch: Choice, ask: Choice)
    requires Enabled(s, StartAnnot(o))
    ensures var t, v, answer := Compared(s, o, fetch, ask), s.shared.heap[o], Answer(s.kube, fetch, ask);
      && t.kube == s.kube && SameObjects(s, t)
      && t.handlers == s.handlers +
           [if Version(v) == answer then Finished
            else AnnotPut(v.(annotations := v.annotations[VERSION_KEY := answer]), 0)]
  {
  }

  /** On the stored version: its annotation becomes the version obtained, every
      other annotation and every other field is kept, and nothing is written
      when the annotation already said so. */
  lemma VersionIsStored(s: State, o: nat, fetch: Choice, ask: Choice)
    requires Enabled(s, StartAnnot(o)) && IsStored(s.shared, o)
    ensures var t, v, answer := Annotate(s, o, fetch, ask), Last(s.shared), Answer(s.kube, fetch, ask);
      && t.handlers == s.handlers + [Finished] && t.kube == s.kube && t.shared.gone == s.shared.gone
      && Live(t.shared) && Version(Last(t.shared)) == answer
      && t.shared.hist == s.shared.hist +
           if Version(v) == answer then []
           else
             var annotations := v.annotations["clusterprovisioner.rke.io/kubernetes-version" := answer];
             [v.(annotations := annotations, rv := |s.shared.hist|)]
  {
    ComparesAnswer(s, o, fetch, ask);
  }

  /** The object the informer delivers after such an activation. */
  ghost function Redelivered(s: State): State
    requires Live(s.shared)
  {
    Next(s, Refresh(|s.shared.hist| - 1))
  }

  /** A second activation that gets the same answer writes nothing. */
  lemma AnnotatorSettles(s: State, o: nat, fetch: Choice, ask: Choice)
    requires Enabled(s, StartAnnot(o)) && IsStored(s.shared, o)
    ensures Live(Annotate(s, o, fetch, ask).shared)
    ensures var t := Redelivered(Annotate(s, o, fetch, ask));
      var again := |t.shared.heap| - 1;
      && Enabled(t, StartAnnot(again))
      && Annotate(t, again, fetch, ask).shared.hist == t.shared.hist
  {
    VersionIsStored(s, o, fetch, ask);
    var done := Annotate(s, o, fetch, ask);
    DeliversStored(s, done);
    VersionIsStored(Redelivered(done), |done.shared.heap|, fetch, ask);
  }

  lemma DeliversStored(s: State, done: State)
    requires Live(s.shared) && Live(done.shared) && Last(s.shared).rv == |s.shared.hist| - 1
    requires !Last(s.shared).marked && IsTrue(Last(s.shared), Provisioned) && IsTrue(Last(s.shared), Ready)
    requires var v, w := Last(s.shared), Last(done.shared);
      w.(annotations := v.annotations, rv := v.rv) == v && w.rv == |done.shared.hist| - 1
    ensures var t, again := Redelivered(done), |done.shared.heap|;
      && |t.shared.heap| == again + 1 && t.kube == done.kube && t.shared.hist == done.shared.hist
      && IsStored(t.shared, again) && Enabled(t, StartAnnot(again)) && Last(t.shared) == Last(done.shared)
  {
    assert Redelivered(done).shared.heap[|done.shared.heap|] == Last(done.shared);
  }

  // ---------- the config generator ----------

  /** An activation on object `o`, its requests answered. */
  ghost function Generate(s: State, o: nat): State
    requires Enabled(s, StartGen(o))
  {
    var h, c := |s.handlers|, Good("");
    HandlerStep(HandlerStep(Next(s, StartGen(o)), h, c), h, c)
  }

  /** One fault-free sync of a live provisioned cluster leaves a Kubeconfig in
      the place that belongs to its spec path, keeps everything else of an
      existing one, and a second sync of the cluster writes nothing. */
  lemma GeneratorConverges(s: State, o: nat)
    requires Enabled(s, StartGen(o))
    ensures var t := Generate(s, o);
      && t.kube.Some? && KubeconfigPath.Beside(s.shared.heap[o].path, t.kube.value.path)
      && (s.kube.Some? ==>
           t.kube.value == s.kube.value.(path := t.kube.value.path, rv := t.kube.value.rv))
      && (s.kube.None? ==> t.kube.value == Kubeconfig(s.krv, t.kube.value.path, true, map[]))
      && t.handlers == s.handlers + [Finished]
      && t.shared == Logged(s.shared, SawProvisioned)
      && Enabled(t, StartGen(o))
      && Generate(t, o).kube == t.kube && Generate(t, o).krv == t.krv
  {
    GeneratorWrites(s, o);
    GeneratorWrites(Generate(s, o), o);
    KubeconfigPath.ComputesBeside(s.shared.heap[o].path, Generate(s, o).kube.value.path);
  }

  lemma GeneratorWrites(s: State, o: nat)
    requires Enabled(s, StartGen(o))
    ensures var t, path := Generate(s, o), KubeconfigPath.GetKubeConfigPath(s.shared.heap[o].path);
      && t.handlers == s.handlers + [Finished]
      && t.shared == Logged(s.shared, SawProvisioned)
      && t.kube.Some? && t.kube.value.path == path
      && (s.kube.None? ==> t.kube.value == Kubeconfig(s.krv, path, true, map[]))
      && (s.kube.Some? && s.kube.value.path == path ==> t.kube == s.kube && t.krv == s.krv)
      && (s.kube.Some? && s.kube.value.path != path ==> t.kube.value == s.kube.value.(path := path, rv := s.krv))
  {
    var h, c := |s.handlers|, Good("");
    var s1 := Next(s, StartGen(o));
    var s2 := HandlerStep(s1, h, c);
    assert s1.handlers[h] == GenGet(o) && s1.shared.heap == s.shared.heap;
  }
}
