/** The config generator's code. */
module ConfigGenerator {
  import opened Objects
  import opened Machine
  import opened World
  import KubeconfigPath

  method Sync(w: World, o: nat)
    requires w.Valid() && o < |w.m.shared.heap|
    modifies w
    ensures w.Valid() && old(w.run) <= w.run
    ensures var c := old(w.m.shared.heap[o]);
      if !c.marked && IsTrue(c, Provisioned) then w.At(old(|w.m.handlers|), Finished) else w.m == old(w.m)
  {
    var cluster := w.m.shared.heap[o];
    if cluster.marked {
      return;
    }
    if !IsTrue(cluster, Provisioned) {
      return;
    }
    var h := |w.m.handlers|;
    w.Start(StartGen(o));
    w.me := TheHandler(h);

    var path, kubeconfig, err := Get(w, h, o);
    if err.Some? && err.value != NotFound {
      return;
    }
    if err.Some? {
      Create(w, h, path);
    } else if kubeconfig.value.path != path {
      Update(w, h, kubeconfig.value, path);
    }
  }

  method Get(w: World, h: nat, o: nat) returns (path: string, kubeconfig: Option<Kubeconfig>, err: Option<Error>)
    requires w.At(h, GenGet(o))
    modifies w
    ensures old(w.run) <= w.run
    ensures err.None? ==> kubeconfig.Some?
    ensures w.At(h, Task(path, kubeconfig, err))
    ensures o < |w.m.shared.heap| && KubeconfigPath.Beside(w.m.shared.heap[o].path, path)
    ensures var answer := w.answers(old(w.clock));
      && (answer.fate != Delivered ==> err.Some? && err != Some(NotFound))
      && (answer.fate == Delivered && w.m.kube.None? ==> err == Some(NotFound))
      && (answer.fate == Delivered && w.m.kube.Some? ==> err.None? && kubeconfig == w.m.kube)
  {
    var c := w.Answer();
    var before := w.m;
    path := KubeconfigPath.GetKubeConfigPath(w.m.shared.heap[o].path);
    kubeconfig, err := w.GetKubeconfig(c.fate);
    KubeconfigPath.ComputesBeside(w.m.shared.heap[o].path, path);
    GetStep(before, h, o, c);
    w.Did(before, Handle(h, c));
  }

  /** What the generator has to do for this path. */
  function Task(path: string, kubeconfig: Option<Kubeconfig>, err: Option<Error>): Handler
    requires err.None? ==> kubeconfig.Some?
  {
    if err == Some(NotFound) then GenCreate(Kubeconfig(0, path, true, map[]))
    else if err.None? && kubeconfig.value.path != path then GenUpdate(kubeconfig.value.(path := path))
    else Finished
  }

  lemma GetStep(s: State, h: nat, o: nat, c: Choice)
    requires Enabled(s, Handle(h, c)) && s.handlers[h] == GenGet(o)
    ensures var path := KubeconfigPath.GetKubeConfigPath(s.shared.heap[o].path);
      var err := if c.fate != Delivered then Some(Failed) else if s.kube.None? then Some(NotFound) else None;
      Next(s, Handle(h, c)) == s.(handlers := s.handlers[h := Task(path, s.kube, err)])
  {
  }

  method Create(w: World, h: nat, path: string)
    requires w.At(h, GenCreate(Kubeconfig(0, path, true, map[])))
    modifies w
    ensures w.At(h, Finished) && old(w.run) <= w.run
  {
    var c := w.Answer();
    var before := w.m;
    var _ := w.CreateKubeconfig(Kubeconfig(0, path, true, map[]), c.fate);
    w.Did(before, Handle(h, c));
  }

  method Update(w: World, h: nat, kubeconfig: Kubeconfig, path: string)
    requires w.At(h, GenUpdate(kubeconfig.(path := path)))
    modifies w
    ensures w.At(h, Finished) && old(w.run) <= w.run
  {
    var c := w.Answer();
    var before := w.m;
    var _ := w.UpdateKubeconfig(kubeconfig.(path := path), c.fate);
    w.Did(before, Handle(h, c));
  }
}
