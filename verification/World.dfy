/** The world a controller's code runs in: the API server, the informer cache
    and the objects in memory, with everybody else acting between any two of
    its atomic actions. Every execution of code written against it is a run of
    the machine. */
module World {
  import opened Objects
  import opened Machine
  import opened Invariant
  import opened Preservation

  datatype Error = NotFound | Conflict | Failed

  /** Whose code is running; that one's program counter only moves with it. */
  datatype Me = Nobody | TheWorker | TheHandler(h: nat)

  /** The store holds `c` as its latest version, or is rid of it when `c` was
      marked and had no finalizer left. */
  predicate Holds(g: Shared, c: Cluster) {
    (Live(g) && Last(g) == c.(rv := Last(g).rv)) || (g.gone && c.marked && c.finalizers == [])
  }

  predicate Mine(me: Me, l: Label) {
    (me.TheWorker? && l.Work?) || (me.TheHandler? && l.Handle? && l.h == me.h)
  }

  class World {
    var m: State
    var me: Me
    var clock: nat
    ghost var run: seq<Label>

    /** What the others try to do before our n-th action, and what it meets. */
    const others: nat -> seq<Label>
    const answers: nat -> Choice

    ghost predicate Valid()
      reads this
    {
      IsRun(run) && After(run) == m
    }

    constructor (others: nat -> seq<Label>, answers: nat -> Choice)
      ensures Valid() && run == [] && me == Nobody
    {
      m := INITIAL;
      me := Nobody;
      clock := 0;
      run := [];
      this.others := others;
      this.answers := answers;
    }

    /** The running code is activation `h`, and it stands at `at`. */
    ghost predicate At(h: nat, at: Handler)
      reads this
    {
      Valid() && me == TheHandler(h) && h < |m.handlers| && m.handlers[h] == at
    }

    /** The references the running code holds are good. */
    ghost predicate InRange()
      reads this
    {
      && InHeap(m.shared, m.cache)
      && InHeap(m.shared, WorkerObject(m.worker))
      && (me.TheHandler? && me.h < |m.handlers| ==> InHeap(m.shared, HandlerObject(m.handlers[me.h])))
    }

    lemma RunInRange()
      requires Valid()
      ensures InRange()
    {
      RunKeepsInv(run);
      if me.TheHandler? && me.h < |m.handlers| {
        assert HandlerOk(m.shared, m.handlers[me.h]);
      }
    }

    /** What others may not change of the running code's own position. */
    twostate predicate Undisturbed()
      reads this
    {
      && me == old(me)
      && (me.TheWorker? ==> m.worker == old(m.worker))
      && |old(m.handlers)| <= |m.handlers|
      && |old(m.shared.heap)| <= |m.shared.heap|
      && (me.TheHandler? && me.h < |old(m.handlers)| ==> m.handlers[me.h] == old(m.handlers)[me.h])
    }

    /** Everybody else acts, then the next answer is drawn. */
    method Answer() returns (c: Choice)
      requires Valid()
      modifies this
      ensures Valid() && InRange() && Undisturbed()
      ensures old(run) <= run
      ensures c == answers(old(clock)) && clock == old(clock) + 1
    {
      c := answers(clock);
      var todo := others(clock);
      clock := clock + 1;
      var i := 0;
      while i < |todo|
        invariant 0 <= i <= |todo|
        invariant Valid() && Undisturbed() && old(run) <= run && clock == old(clock) + 1
      {
        if Enabled(m, todo[i]) && !Mine(me, todo[i]) {
          OtherStep(todo[i]);
        }
        i := i + 1;
      }
      RunInRange();
    }

    method OtherStep(l: Label)
      requires Valid() && Enabled(m, l) && !Mine(me, l)
      modifies this`m, this`run
      ensures Valid() && Undisturbed() && run == old(run) + [l]
    {
      RunStep(run, l);
      NextGrows(m, l);
      m := Next(m, l);
      run := run + [l];
    }

    static lemma NextGrows(s: State, l: Label)
      requires Enabled(s, l)
      ensures |s.shared.heap| <= |Next(s, l).shared.heap| && |s.handlers| <= |Next(s, l).handlers|
      ensures !l.Work? ==> Next(s, l).worker == s.worker
      ensures forall h :: 0 <= h < |s.handlers| && !(l.Handle? && l.h == h) ==> Next(s, l).handlers[h] == s.handlers[h]
    {
    }

    /** The action just performed on the data was step `l` of the machine:
        records it and moves the program counter. */
    method Did(before: State, l: Label)
      requires IsRun(run) && After(run) == before && Enabled(before, l)
      requires m == Next(before, l).(worker := before.worker, handlers := before.handlers)
      modifies this`m, this`run
      ensures Valid() && m == Next(before, l) && run == old(run) + [l]
    {
      RunStep(run, l);
      var after := Next(before, l);
      m := m.(worker := after.worker, handlers := after.handlers);
      run := run + [l];
    }

    /** A handler has passed its entry checks: its activation begins. */
    method Start(l: Label)
      requires Valid() && Enabled(m, l) && (l.StartHealth? || l.StartAnnot? || l.StartGen?)
      modifies this`m, this`run
      ensures Valid() && m == Next(old(m), l) && run == old(run) + [l]
    {
      RunStep(run, l);
      m := Next(m, l);
      run := run + [l];
    }

    // ---------- the API server ----------

    /** PUT of a whole cluster object. */
    method UpdateCluster(c: Cluster, fate: Fate) returns (err: Option<Error>)
      modifies this`m
      ensures m == old(m).(shared := Put(old(m).shared, c, fate))
      ensures err.None? <==> PutOk(old(m).shared, c, fate)
      ensures err.None? ==> Holds(m.shared, c)
    {
      if fate == Lost { return Some(Failed); }
      var g := m.shared;
      if g.hist == [] || g.gone { return Some(NotFound); }
      var stored := g.hist[|g.hist| - 1];
      if c.rv != |g.hist| - 1 { return Some(Conflict); }
      if c != stored {
        if c.marked && c.finalizers == [] {
          m := m.(shared := g.(gone := true));
        } else {
          m := m.(shared := g.(hist := g.hist + [c.(rv := |g.hist|)]));
        }
      }
      err := if fate == AckLost then Some(Failed) else None;
    }

    method GetCluster(fate: Fate) returns (c: Option<Cluster>, err: Option<Error>)
      ensures fate != Delivered ==> err == Some(Failed)
      ensures fate == Delivered && !Live(m.shared) ==> err == Some(NotFound)
      ensures fate == Delivered && Live(m.shared) ==> err.None? && c == Some(Last(m.shared))
    {
      if fate != Delivered { return None, Some(Failed); }
      if m.shared.hist == [] || m.shared.gone { return None, Some(NotFound); }
      return Some(m.shared.hist[|m.shared.hist| - 1]), None;
    }

    method GetKubeconfig(fate: Fate) returns (k: Option<Kubeconfig>, err: Option<Error>)
      ensures fate != Delivered ==> err == Some(Failed)
      ensures fate == Delivered && m.kube.None? ==> err == Some(NotFound)
      ensures fate == Delivered && m.kube.Some? ==> err.None? && k == m.kube
    {
      if fate != Delivered { return None, Some(Failed); }
      if m.kube.None? { return None, Some(NotFound); }
      return m.kube, None;
    }

    method CreateKubeconfig(k: Kubeconfig, fate: Fate) returns (err: Option<Error>)
      modifies this`m
      ensures m == if fate == Lost || old(m).kube.Some? then old(m) else StoreKube(old(m), k)
    {
      if fate == Lost { return Some(Failed); }
      if m.kube.Some? { return Some(Conflict); }
      m := m.(kube := Some(k.(rv := m.krv)), krv := m.krv + 1);
      err := if fate == AckLost then Some(Failed) else None;
    }

    method UpdateKubeconfig(k: Kubeconfig, fate: Fate) returns (err: Option<Error>)
      modifies this`m
      ensures m ==
        if fate == Lost || old(m).kube.None? || old(m).kube.value.rv != k.rv then old(m) else StoreKube(old(m), k)
    {
      if fate == Lost { return Some(Failed); }
      if m.kube.None? { return Some(NotFound); }
      if m.kube.value.rv != k.rv { return Some(Conflict); }
      m := m.(kube := Some(k.(rv := m.krv)), krv := m.krv + 1);
      err := if fate == AckLost then Some(Failed) else None;
    }

    // ---------- the work queue, as far as this key goes ----------

    /** The worker takes the key off the queue. */
    method TakeKey()
      modifies this`m
      ensures m == old(m).(dirty := false)
    {
      m := m.(dirty := false);
    }

    method Requeue()
      modifies this`m
      ensures m == old(m).(dirty := true)
    {
      m := m.(dirty := true);
    }

    // ---------- objects in memory ----------

    /** Writes one object in place; every holder of the reference sees it. */
    method Assign(o: nat, c: Cluster)
      requires o < |m.shared.heap|
      modifies this`m
      ensures m == old(m).(shared := SetObject(old(m).shared, o, c))
    {
      m := m.(shared := m.shared.(heap := m.shared.heap[o := c]));
    }

    /** Observations and backend calls. */
    method Log(e: Event)
      modifies this`m
      ensures m == old(m).(shared := Logged(old(m).shared, e))
    {
      m := m.(shared := m.shared.(log := m.shared.log + [e]));
    }
  }
}
