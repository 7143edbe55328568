/** The annotator's code. It copies the object it was handed, writes into the
    copy's annotations and sends the copy. */
module Annotator {
  import opened Objects
  import opened Machine
  import opened Preservation
  import opened World

  method Sync(w: World, o: nat)
    requires w.Valid() && o < |w.m.shared.heap|
    modifies w
    ensures w.Valid() && old(w.run) <= w.run
    ensures var c := old(w.m.shared.heap[o]);
      if !c.marked && IsTrue(c, Provisioned) && IsTrue(c, Ready) then w.At(old(|w.m.handlers|), Finished)
      else w.m == old(w.m)
  {
    var cluster := w.m.shared.heap[o];
    if cluster.marked {
      return;
    }
    if !IsTrue(cluster, Provisioned) {
      return;
    }
    if !IsTrue(cluster, Ready) {
      return;
    }
    var h := Begin(w, o);
    var version := GetVersion(w, h, o);
    var toUpdate := Compare(w, h, o, version);
    if toUpdate.Some? {
      Write(w, h, toUpdate.value);
    }
  }

  method Begin(w: World, o: nat) returns (h: nat)
    requires w.Valid() && Enabled(w.m, StartAnnot(o))
    modifies w
    ensures h == old(|w.m.handlers|) && w.At(h, AnnotGet(o)) && old(w.run) <= w.run
  {
    h := |w.m.handlers|;
    w.Start(StartAnnot(o));
    w.me := TheHandler(h);
  }

  /** Nothing but "" without a Kubeconfig or when it cannot be fetched, in which
      case the server is not asked; otherwise what the server answered to the
      next request, or "" if that one failed. */
  method GetVersion(w: World, h: nat, o: nat) returns (version: string)
    requires w.At(h, AnnotGet(o))
    modifies w
    ensures w.At(h, AnnotCompare(o, version)) && old(w.run) <= w.run
    ensures var fetch, ask := w.answers(old(w.clock)), w.answers(old(w.clock) + 1);
      || (w.clock == old(w.clock) + 1 && version == "" && (fetch.fate == Delivered ==> w.m.kube.None?))
      || (w.clock == old(w.clock) + 2 && fetch.fate == Delivered && SawKubeconfig in w.m.shared.log
          && version == if ask.ok then ask.text else "")
  {
    var missing := FetchKubeconfig(w, h, o);
    if missing {
      return "";
    }
    version := ServerVersion(w, h, o);
  }

  method FetchKubeconfig(w: World, h: nat, o: nat) returns (missing: bool)
    requires w.At(h, AnnotGet(o))
    modifies w
    ensures w.At(h, if missing then AnnotCompare(o, "") else AnnotDiscover(o)) && old(w.run) <= w.run
    ensures w.clock == old(w.clock) + 1
    ensures missing <==> w.answers(old(w.clock)).fate != Delivered || w.m.kube.None?
  {
    var c := w.Answer();
    var before := w.m;
    var kubeConfig, err := w.GetKubeconfig(c.fate);
    if err.None? {
      w.Log(SawKubeconfig);
    }
    missing := err.Some?;
    w.Did(before, Handle(h, c));
  }

  lemma DiscoverySaw(run: seq<Label>, h: nat)
    requires IsRun(run) && h < |After(run).handlers| && After(run).handlers[h].AnnotDiscover?
    ensures SawKubeconfig in After(run).shared.log
  {
    RunKeepsInv(run);
  }

  method ServerVersion(w: World, h: nat, o: nat) returns (version: string)
    requires w.At(h, AnnotDiscover(o))
    modifies w
    ensures w.At(h, AnnotCompare(o, version)) && old(w.run) <= w.run
    ensures var ask := w.answers(old(w.clock));
      w.clock == old(w.clock) + 1 && version == if ask.ok then ask.text else ""
    ensures SawKubeconfig in w.m.shared.log
  {
    var c := w.Answer();
    DiscoverySaw(w.run, h);
    var before := w.m;
    version := if c.ok then c.text else "";
    w.Did(before, Handle(h, c));
  }

  method Compare(w: World, h: nat, o: nat, version: string) returns (toUpdate: Option<Cluster>)
    requires w.At(h, AnnotCompare(o, version))
    modifies w
    ensures w.At(h, if toUpdate.None? then Finished else AnnotPut(toUpdate.value, 0)) && old(w.run) <= w.run
    ensures o < |w.m.shared.heap|
    ensures var cluster := w.m.shared.heap[o];
      toUpdate == if Version(cluster) == version then None
        else Some(cluster.(annotations := cluster.annotations[VERSION_KEY := version]))
  {
    var c := w.Answer();
    var before := w.m;
    var cluster := w.m.shared.heap[o];
    var currentVersion := "";
    if VERSION_KEY in cluster.annotations {
      currentVersion := cluster.annotations[VERSION_KEY];
    }
    if currentVersion == version {
      toUpdate := None;
    } else {
      toUpdate := Some(cluster.(annotations := cluster.annotations[VERSION_KEY := version]));
    }
    w.Did(before, Handle(h, c));
  }

  method Write(w: World, h: nat, toUpdate: Cluster)
    requires w.At(h, AnnotPut(toUpdate, 0))
    modifies w
    ensures w.At(h, Finished) && old(w.run) <= w.run
    ensures w.clock == old(w.clock) + 3 || Holds(w.m.shared, toUpdate)
  {
    var i := 0;
    while i < 3
      invariant 0 <= i <= 3 && old(w.run) <= w.run
      invariant w.clock == old(w.clock) + i
      invariant w.At(h, if i < 3 then AnnotPut(toUpdate, i) else Finished)
    {
      var err := Update(w, h, toUpdate, i);
      if err.None? {
        break;
      }
      i := i + 1;
    }
  }

  method Update(w: World, h: nat, toUpdate: Cluster, ghost tries: nat) returns (err: Option<Error>)
    requires w.At(h, AnnotPut(toUpdate, tries)) && tries <= 2
    modifies w
    ensures w.At(h, if err.None? || tries == 2 then Finished else AnnotPut(toUpdate, tries + 1))
    ensures old(w.run) <= w.run && w.clock == old(w.clock) + 1
    ensures err.None? ==> Holds(w.m.shared, toUpdate)
  {
    var c := w.Answer();
    var before := w.m;
    err := w.UpdateCluster(toUpdate, c.fate);
    w.Did(before, Handle(h, c));
  }
}
