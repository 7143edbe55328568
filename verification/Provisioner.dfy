/** The provisioner's code, statement by statement, against a world in which
    everybody else acts between its atomic actions. Each method is proved to
    follow the machine; what the safety results say of all runs therefore holds
    of every execution of this code. */
module Provisioner {
  import opened Objects
  import opened Machine
  import opened Invariant
  import opened Preservation
  import opened World

  /** The worker runs in `w` and stands at `at`. */
  ghost predicate At(w: World, at: Worker)
    reads w
  {
    w.Valid() && w.me == TheWorker && w.m.worker == at
  }

  /** One turn of the worker loop: takes the key, syncs it, and puts it back
      when the sync failed. A sync of a marked object that is not put back
      leaves a store without the key. */
  method Turn(w: World) returns (from: Option<nat>, requeued: bool)
    requires At(w, Idle) && w.m.dirty
    modifies w
    ensures At(w, Idle) && old(w.run) <= w.run
    ensures requeued ==> w.m.dirty
    ensures !requeued ==> from.Some? && (IsMarked(w.m.shared, from.value) ==> LacksKey(w.m.shared))
  {
    from, requeued := Sync(w);
    var c := w.Answer();
    RunKeepsInv(w.run);
    var before := w.m;
    if requeued {
      w.Requeue();
    }
    w.Did(before, Work(c));
  }

  method Sync(w: World) returns (from: Option<nat>, failed: bool)
    requires At(w, Idle) && w.m.dirty
    modifies w
    ensures At(w, Returned(from, failed)) && old(w.run) <= w.run
    ensures !failed ==> from.Some?
  {
    var marked;
    from, marked := Lookup(w);
    if from.None? {
      return None, true;
    }
    if marked {
      failed := HandleClusterRemove(w, from.value);
    } else {
      failed := HandleClusterAdd(w, from.value);
    }
  }

  /** `queue.Get` and `clusterLister.Get`. */
  method Lookup(w: World) returns (o: Option<nat>, marked: bool)
    requires At(w, Idle) && w.m.dirty
    modifies w
    ensures old(w.run) <= w.run
    ensures At(w, if o.None? then Returned(None, true) else if marked then Fetch(o.value) else Config(o.value))
  {
    w.RunInRange();
    var before := w.m;
    w.TakeKey();
    o := w.m.cache;
    marked := o.Some? && w.m.shared.heap[o.value].marked;
    w.Did(before, Work(Choice(Delivered, None, true, "")));
  }

  /** No such cluster, one that is not marked, or one without the key. */
  predicate NothingToRemove(g: Shared) {
    !Live(g) || !Last(g).marked || PROVISIONER !in Last(g).finalizers
  }

  method HandleClusterRemove(w: World, o: nat) returns (failed: bool)
    requires At(w, Fetch(o))
    modifies w
    ensures At(w, Returned(Some(o), failed)) && old(w.run) <= w.run
  {
    failed := Finalize(w, o);
  }

  method HandleClusterAdd(w: World, o: nat) returns (failed: bool)
    requires At(w, Config(o))
    modifies w
    ensures At(w, Returned(Some(o), failed)) && old(w.run) <= w.run
  {
    var config, same := GetConfigStr(w, o);
    if config.None? {
      return true;
    }
    if same {
      return false;
    }
    Initialize(w, o, config.value);
    var err := DoProvision(w, o, config.value);
    if err {
      return true;
    }
    UpdateAppliedConfig(w, o, config.value);
    return false;
  }

  /** Reads the config file and compares it with what was applied. */
  method GetConfigStr(w: World, o: nat) returns (config: Option<string>, same: bool)
    requires At(w, Config(o))
    modifies w
    ensures old(w.run) <= w.run
    ensures At(w,
      if config.None? then Returned(Some(o), true)
      else if same then Returned(Some(o), false)
      else Init(o, config.value))
  {
    var c := w.Answer();
    var before := w.m;
    config := c.file;
    same := false;
    if config.Some? {
      w.Log(ReadConfig(config.value));
      same := config.value == w.m.shared.heap[o].applied;
    }
    w.Did(before, Work(c));
  }

  /** Where an attempt to write the cached object leads. */
  function AfterAttempt(at: Worker, err: bool): Worker
    requires at.InitPut? || at.RecordPut?
  {
    match at
    case InitPut(o, config, tries) =>
      if !err || tries >= 2 then DoBegin(o, config) else InitPut(o, config, tries + 1)
    case RecordPut(o, config, tries) =>
      if !err || tries >= 2 then Returned(Some(o), false) else RecordPut(o, config, tries + 1)
  }

  /** One PUT of the object the lister returned, as it is now. */
  method Update(w: World, o: nat, ghost at: Worker) returns (err: Option<Error>)
    requires (at.InitPut? || at.RecordPut?) && at.o == o && At(w, at)
    modifies w
    ensures At(w, AfterAttempt(at, err.Some?)) && old(w.run) <= w.run && w.clock == old(w.clock) + 1
    ensures err.None? ==> o < |w.m.shared.heap| && Holds(w.m.shared, w.m.shared.heap[o])
  {
    var c := w.Answer();
    var before := w.m;
    err := w.UpdateCluster(w.m.shared.heap[o], c.fate);
    w.Did(before, Work(c));
  }

  /** Always reports success. Unless the key was there already, it goes on with
      an object the store now holds, or after three requests. */
  method Initialize(w: World, o: nat, config: string)
    requires At(w, Init(o, config))
    modifies w
    ensures At(w, DoBegin(o, config)) && old(w.run) <= w.run
    ensures w.clock == old(w.clock) + 1 || w.clock == old(w.clock) + 4
      || (o < |w.m.shared.heap| && Holds(w.m.shared, w.m.shared.heap[o]))
  {
    var found := AppendFinalizer(w, o, config);
    if found {
      return;
    }
    var i := 0;
    while i < 3
      invariant 0 <= i <= 3 && old(w.run) <= w.run && w.clock == old(w.clock) + 1 + i
      invariant At(w, if i < 3 then InitPut(o, config, i) else DoBegin(o, config))
    {
      var err := Update(w, o, InitPut(o, config, i));
      if err.None? {
        return;
      }
      i := i + 1;
    }
  }

  /** Appends the key to the object the lister returned, unless it is there. */
  method AppendFinalizer(w: World, o: nat, config: string) returns (found: bool)
    requires At(w, Init(o, config))
    modifies w
    ensures At(w, if found then DoBegin(o, config) else InitPut(o, config, 0)) && old(w.run) <= w.run
    ensures w.clock == old(w.clock) + 1
  {
    var c := w.Answer();
    var before := w.m;
    found := ContainsString(w.m.shared.heap[o].finalizers, PROVISIONER);
    if !found {
      var cluster := w.m.shared.heap[o];
      w.Assign(o, cluster.(finalizers := cluster.finalizers + [PROVISIONER]));
    }
    w.Did(before, Work(c));
  }

  /** `ClusterConditionProvisioned.Do` around the backend call. */
  method DoProvision(w: World, o: nat, config: string) returns (err: bool)
    requires At(w, DoBegin(o, config))
    modifies w
    ensures At(w, if err then Returned(Some(o), true) else Record(o, config)) && old(w.run) <= w.run
  {
    BeginCondition(w, o, config);
    err := ProvisionCluster(w, o, config);
    EndCondition(w, o, config, err);
  }

  method BeginCondition(w: World, o: nat, config: string)
    requires At(w, DoBegin(o, config))
    modifies w
    ensures At(w, Backend(o, config)) && old(w.run) <= w.run
    ensures o < |w.m.shared.heap| && !IsTrue(w.m.shared.heap[o], Provisioned)
  {
    var c := w.Answer();
    var before := w.m;
    var cluster := w.m.shared.heap[o];
    if GetStatus(cluster.conditions, Provisioned) != Some(False) {
      cluster := cluster.(conditions := SetStatus(cluster.conditions, Provisioned, Unknown));
    }
    w.Assign(o, cluster);
    w.Did(before, Work(c));
  }

  method ProvisionCluster(w: World, o: nat, config: string) returns (err: bool)
    requires At(w, Backend(o, config))
    modifies w
    ensures At(w, DoEnd(o, config, !err)) && old(w.run) <= w.run
    ensures !err ==> Justified(w.m.shared.log, config)
  {
    var c := w.Answer();
    var before := w.m;
    w.Log(ProvisionCall(config, w.m.shared.heap[o].path, c.ok));
    err := !c.ok;
    assert w.m.shared.log[|before.shared.log|] == ProvisionCall(config, before.shared.heap[o].path, c.ok);
    w.Did(before, Work(c));
  }

  method EndCondition(w: World, o: nat, config: string, err: bool)
    requires At(w, DoEnd(o, config, !err))
    modifies w
    ensures At(w, if err then Returned(Some(o), true) else Record(o, config)) && old(w.run) <= w.run
    ensures o < |w.m.shared.heap|
    ensures GetStatus(w.m.shared.heap[o].conditions, Provisioned) == Some(if err then False else True)
  {
    var c := w.Answer();
    var before := w.m;
    var cluster := w.m.shared.heap[o];
    w.Assign(o, cluster.(conditions := SetStatus(cluster.conditions, Provisioned, if err then False else True)));
    w.Did(before, Work(c));
  }

  /** Always reports success: with an object the store now holds, or after three
      requests. */
  method UpdateAppliedConfig(w: World, o: nat, config: string)
    requires At(w, Record(o, config))
    modifies w
    ensures At(w, Returned(Some(o), false)) && old(w.run) <= w.run
    ensures w.clock == old(w.clock) + 4 || (o < |w.m.shared.heap| && Holds(w.m.shared, w.m.shared.heap[o]))
  {
    var c := w.Answer();
    var before := w.m;
    w.Assign(o, w.m.shared.heap[o].(applied := config));
    w.Did(before, Work(c));
    var i := 0;
    while i < 3
      invariant 0 <= i <= 3 && old(w.run) <= w.run && w.clock == old(w.clock) + 1 + i
      invariant At(w, if i < 3 then RecordPut(o, config, i) else Returned(Some(o), false))
    {
      var err := Update(w, o, RecordPut(o, config, i));
      if err.None? {
        return;
      }
      i := i + 1;
    }
  }

  /** Ends after the fetch without an error exactly when that was answered by a
      store without the key, and after the cleanup call with one exactly when
      that was refused; from then on, without an error exactly when the strip was
      answered within three requests. */
  method Finalize(w: World, o: nat) returns (failed: bool)
    requires At(w, Fetch(o))
    modifies w
    ensures At(w, Returned(Some(o), failed)) && old(w.run) <= w.run
    ensures var requests := w.clock - old(w.clock);
      var fetch, cleanup := w.answers(old(w.clock)), w.answers(old(w.clock) + 1);
      && 1 <= requests <= 5
      && (requests == 1 ==> (failed <==> fetch.fate != Delivered) && (!failed ==> NothingToRemove(w.m.shared)))
      && (requests > 1 ==> fetch.fate == Delivered)
      && (requests == 2 ==> failed && !cleanup.ok)
      && (requests > 2 ==> cleanup.ok && (failed ==> requests == 5) && (!failed ==> LacksKey(w.m.shared)))
  {
    var fetched, err := FetchCluster(w, o);
    if err.Some? {
      return err.value != NotFound;
    }
    var toUpdate := fetched.value;
    if !toUpdate.marked {
      return false;
    }
    var found := ContainsString(toUpdate.finalizers, PROVISIONER);
    if !found {
      return false;
    }
    var refused := RemoveCluster(w, o, toUpdate);
    if refused {
      return true;
    }
    var finalizers := FilterFinalizers(toUpdate.finalizers, PROVISIONER);
    failed := WriteBack(w, o, toUpdate.(finalizers := finalizers));
  }

  method FetchCluster(w: World, o: nat) returns (fetched: Option<Cluster>, err: Option<Error>)
    requires At(w, Fetch(o))
    modifies w
    ensures old(w.run) <= w.run && w.clock == old(w.clock) + 1
    ensures var fetch, g := w.answers(old(w.clock)), w.m.shared;
      && (fetch.fate != Delivered ==> err == Some(Failed))
      && (fetch.fate == Delivered && !Live(g) ==> err == Some(NotFound))
      && (fetch.fate == Delivered && Live(g) ==> err.None? && fetched == Some(Last(g)))
    ensures At(w,
      if err.Some? then Returned(Some(o), err.value != NotFound)
      else if NothingToRemove(w.m.shared) then Returned(Some(o), false)
      else Remove(o, fetched.value))
  {
    var c := w.Answer();
    var before := w.m;
    fetched, err := w.GetCluster(c.fate);
    w.Did(before, Work(c));
  }

  /** The cleanup call; only its success lets the key be taken off. */
  method RemoveCluster(w: World, o: nat, u: Cluster) returns (err: bool)
    requires At(w, Remove(o, u))
    modifies w
    ensures At(w, if err then Returned(Some(o), true) else StripPut(o, WithoutKey(u), 0)) && old(w.run) <= w.run
    ensures !err ==> RemovedOk(w.m.shared.log)
    ensures w.clock == old(w.clock) + 1 && (err <==> !w.answers(old(w.clock)).ok)
  {
    var c := w.Answer();
    var before := w.m;
    w.Log(RemoveCall(w.m.shared.heap[o].path, c.ok));
    err := !c.ok;
    assert w.m.shared.log[|before.shared.log|] == RemoveCall(before.shared.heap[o].path, c.ok);
    w.Did(before, Work(c));
  }

  /** The three attempts of `finalize`; the last error is returned. */
  method WriteBack(w: World, o: nat, toUpdate: Cluster) returns (failed: bool)
    requires At(w, StripPut(o, toUpdate, 0)) && PROVISIONER !in toUpdate.finalizers
    modifies w
    ensures At(w, Returned(Some(o), failed)) && old(w.run) <= w.run
    ensures old(w.clock) < w.clock <= old(w.clock) + 3 && (failed ==> w.clock == old(w.clock) + 3)
    ensures !failed ==> Holds(w.m.shared, toUpdate) && LacksKey(w.m.shared)
  {
    var i := 0;
    while i < 3
      invariant 0 <= i <= 3 && old(w.run) <= w.run && w.clock == old(w.clock) + i
      invariant At(w, if i < 3 then StripPut(o, toUpdate, i) else Returned(Some(o), true))
    {
      var c := w.Answer();
      var before := w.m;
      var err := w.UpdateCluster(toUpdate, c.fate);
      w.Did(before, Work(c));
      if err.None? {
        return false;
      }
      i := i + 1;
    }
    return true;
  }
}
