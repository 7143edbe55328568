/** The health checker's code. It works on the shared cached object itself and
    writes that object back. */
module HealthChecker {
  import opened Objects
  import opened Machine
  import opened World

  /** Either leaves the run alone, or works through its activation to the end. */
  method Sync(w: World, o: nat)
    requires w.Valid() && o < |w.m.shared.heap|
    modifies w
    ensures w.Valid() && old(w.run) <= w.run
    ensures old(IsTrue(w.m.shared.heap[o], Provisioned)) ==> w.At(old(|w.m.handlers|), Finished)
    ensures !old(IsTrue(w.m.shared.heap[o], Provisioned)) ==> w.m == old(w.m)
  {
    if !IsTrue(w.m.shared.heap[o], Provisioned) {
      return;
    }
    var h := Begin(w, o);
    BeginReady(w, h, o);
    var ok := ValidateHealthcheck(w, h, o);
    EndReady(w, h, o, ok);
    WriteBack(w, h, o);
  }

  method Begin(w: World, o: nat) returns (h: nat)
    requires w.Valid() && o < |w.m.shared.heap| && IsTrue(w.m.shared.heap[o], Provisioned)
    modifies w
    ensures h == old(|w.m.handlers|) && w.At(h, HealthBegin(o)) && old(w.run) <= w.run
  {
    h := |w.m.handlers|;
    w.Start(StartHealth(o));
    w.me := TheHandler(h);
  }

  method BeginReady(w: World, h: nat, o: nat)
    requires w.At(h, HealthBegin(o))
    modifies w
    ensures w.At(h, HealthProbe(o)) && old(w.run) <= w.run
    ensures o < |w.m.shared.heap| && !IsTrue(w.m.shared.heap[o], Ready)
  {
    var c := w.Answer();
    var before := w.m;
    var cluster := w.m.shared.heap[o];
    if GetStatus(cluster.conditions, Ready) != Some(False) {
      cluster := cluster.(conditions := SetStatus(cluster.conditions, Ready, Unknown));
    }
    w.Assign(o, cluster);
    w.Did(before, Handle(h, c));
  }

  /** A missing Kubeconfig passes; a failed fetch does not, and otherwise the
      remote check decides. */
  method ValidateHealthcheck(w: World, h: nat, o: nat) returns (ok: bool)
    requires w.At(h, HealthProbe(o))
    modifies w
    ensures w.At(h, HealthEnd(o, ok)) && old(w.run) <= w.run
    ensures var c := w.answers(old(w.clock)); ok <==> c.fate == Delivered && (w.m.kube.None? || c.ok)
  {
    var c := w.Answer();
    var before := w.m;
    var kubeConfig, err := w.GetKubeconfig(c.fate);
    if err.Some? {
      ok := err.value == NotFound;
    } else {
      ok := c.ok;
    }
    w.Log(Checked(ok));
    w.Did(before, Handle(h, c));
  }

  method EndReady(w: World, h: nat, o: nat, ok: bool)
    requires w.At(h, HealthEnd(o, ok))
    modifies w
    ensures w.At(h, HealthPut(o, 0)) && old(w.run) <= w.run
    ensures o < |w.m.shared.heap|
    ensures GetStatus(w.m.shared.heap[o].conditions, Ready) == Some(if ok then True else False)
  {
    var c := w.Answer();
    var before := w.m;
    var cluster := w.m.shared.heap[o];
    w.Assign(o, cluster.(conditions := SetStatus(cluster.conditions, Ready, if ok then True else False)));
    w.Did(before, Handle(h, c));
  }

  method WriteBack(w: World, h: nat, o: nat)
    requires w.At(h, HealthPut(o, 0))
    modifies w
    ensures w.At(h, Finished) && old(w.run) <= w.run
    ensures w.clock == old(w.clock) + 3 || (o < |w.m.shared.heap| && Holds(w.m.shared, w.m.shared.heap[o]))
  {
    var i := 0;
    while i < 3
      invariant 0 <= i <= 3 && old(w.run) <= w.run
      invariant w.clock == old(w.clock) + i
      invariant w.At(h, if i < 3 then HealthPut(o, i) else Finished)
    {
      var err := Update(w, h, o, i);
      if err.None? {
        break;
      }
      i := i + 1;
    }
  }

  /** One PUT of the cached object, as it is now. */
  method Update(w: World, h: nat, o: nat, ghost tries: nat) returns (err: Option<Error>)
    requires w.At(h, HealthPut(o, tries)) && tries <= 2
    modifies w
    ensures w.At(h, if err.None? || tries == 2 then Finished else HealthPut(o, tries + 1))
    ensures old(w.run) <= w.run && w.clock == old(w.clock) + 1
    ensures err.None? ==> o < |w.m.shared.heap| && Holds(w.m.shared, w.m.shared.heap[o])
  {
    var c := w.Answer();
    var before := w.m;
    err := w.UpdateCluster(w.m.shared.heap[o], c.fate);
    w.Did(before, Handle(h, c));
  }
}
