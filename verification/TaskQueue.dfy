/** The task queue of the provisioner: the dirty/processing contract of the
    work queue underneath, and the worker loop around it. */
module TaskQueue {
  import opened Objects
  import KubeconfigPath
  import M = Machine

  /** `queue` is the order of work, `dirty` what needs work, `processing` what
      is being worked on. */
  datatype Queue = Queue(queue: seq<string>, dirty: set<string>, processing: set<string>)

  datatype Op = Add(key: string) | Get | Done(key: string)

  const EMPTY := Queue([], {}, {})

  function Apply(q: Queue, op: Op): Queue {
    match op
    case Add(k) =>
      if k in q.dirty then q
      else if k in q.processing then q.(dirty := q.dirty + {k})
      else q.(dirty := q.dirty + {k}, queue := q.queue + [k])
    case Get =>
      if q.queue == [] then q
      else Queue(q.queue[1..], q.dirty - {q.queue[0]}, q.processing + {q.queue[0]})
    case Done(k) =>
      q.(processing := q.processing - {k}, queue := if k in q.dirty then q.queue + [k] else q.queue)
  }

  /** A caller finishes only what it was given. */
  predicate Legal(q: Queue, op: Op) {
    (op.Done? ==> op.key in q.processing) && (op.Get? ==> q.queue != [])
  }

  ghost predicate IsRun(ops: seq<Op>)
    decreases |ops|, 0
  {
    ops == [] || (IsRun(ops[..|ops| - 1]) && Legal(After(ops[..|ops| - 1]), ops[|ops| - 1]))
  }

  ghost function After(ops: seq<Op>): Queue
    requires IsRun(ops)
    decreases |ops|
  {
    if ops == [] then EMPTY else Apply(After(ops[..|ops| - 1]), ops[|ops| - 1])
  }

  lemma RunStep(ops: seq<Op>, op: Op)
    requires IsRun(ops) && Legal(After(ops), op)
    ensures IsRun(ops + [op]) && After(ops + [op]) == Apply(After(ops), op)
  {
    assert (ops + [op])[..|ops|] == ops;
  }

  lemma {:induction false} RunPrefix(ops: seq<Op>, i: nat)
    requires IsRun(ops) && i <= |ops|
    ensures IsRun(ops[..i])
  {
    if i < |ops| {
      RunPrefix(ops[..|ops| - 1], i);
      assert ops[..|ops| - 1][..i] == ops[..i];
    } else {
      assert ops[..i] == ops;
    }
  }

  /** The queue holds, once each, exactly the dirty keys nobody is processing. */
  ghost predicate Ok(q: Queue) {
    && (forall k :: k in q.queue <==> k in q.dirty && k !in q.processing)
    && (forall i, j :: 0 <= i < j < |q.queue| ==> q.queue[i] != q.queue[j])
  }

  lemma StepKeepsOk(q: Queue, op: Op)
    requires Ok(q) && Legal(q, op)
    ensures Ok(Apply(q, op))
  {
    var t := Apply(q, op);
    if op.Get? {
      forall k ensures k in t.queue <==> k in q.queue && k != q.queue[0] {
        if k in t.queue {
          var i :| 0 <= i < |t.queue| && t.queue[i] == k;
          assert q.queue[i + 1] == k;
        }
        if k in q.queue && k != q.queue[0] {
          var i :| 0 <= i < |q.queue| && q.queue[i] == k;
          assert t.queue[i - 1] == k;
        }
      }
    }
  }

  lemma {:induction false} RunKeepsOk(ops: seq<Op>)
    requires IsRun(ops)
    ensures Ok(After(ops))
  {
    if ops != [] {
      RunKeepsOk(ops[..|ops| - 1]);
      StepKeepsOk(After(ops[..|ops| - 1]), ops[|ops| - 1]);
    }
  }

  /** Step j of the run hands `k` to the worker: a sync of `k` begins. */
  ghost predicate Begins(ops: seq<Op>, j: nat, k: string) {
    && j < |ops| && ops[j].Get?
    && IsRun(ops[..j]) && After(ops[..j]).queue != [] && After(ops[..j]).queue[0] == k
  }

  /** No lost work: a key enqueued after its latest sync began is pending, and
      sits in the queue unless that sync is still running. */
  lemma {:induction false} NoLostWork(ops: seq<Op>, i: nat, k: string)
    requires IsRun(ops) && i < |ops| && ops[i] == Add(k)
    requires forall j :: i < j < |ops| ==> !Begins(ops, j, k)
    ensures k in After(ops).dirty
    ensures k in After(ops).queue || k in After(ops).processing
  {
    RunKeepsOk(ops);
    var front := ops[..|ops| - 1];
    if i < |front| {
      forall j | i < j < |front| ensures !Begins(front, j, k) {
        assert front[..j] == ops[..j];
        assert !Begins(ops, j, k);
      }
      NoLostWork(front, i, k);
      assert !Begins(ops, |front|, k);
    }
  }

  /** No two syncs of one key overlap. */
  lemma NoOverlap(ops: seq<Op>, j: nat, k: string)
    requires IsRun(ops) && Begins(ops, j, k)
    ensures k !in After(ops[..j]).processing
  {
    RunKeepsOk(ops[..j]);
    assert k in After(ops[..j]).queue;
  }

  ghost function Gets(ops: seq<Op>): nat {
    if ops == [] then 0 else Gets(ops[..|ops| - 1]) + if ops[|ops| - 1].Get? then 1 else 0
  }

  /** A key that is not handed out keeps its place, or moves up by one. */
  lemma PlaceMoves(q: Queue, op: Op, k: string, p: nat)
    requires Legal(q, op) && p < |q.queue| && q.queue[p] == k && (op.Get? ==> p > 0)
    ensures var place := if op.Get? then p - 1 else p; place < |Apply(q, op).queue| && Apply(q, op).queue[place] == k
  {
  }

  lemma {:induction false} Moves(ops: seq<Op>, i: nat, k: string, p: nat)
    requires IsRun(ops) && i <= |ops| && IsRun(ops[..i])
    requires p < |After(ops[..i]).queue| && After(ops[..i]).queue[p] == k
    requires forall j :: i <= j < |ops| ==> !Begins(ops, j, k)
    ensures Gets(ops[i..]) <= p
    ensures p - Gets(ops[i..]) < |After(ops).queue| && After(ops).queue[p - Gets(ops[i..])] == k
  {
    if i == |ops| {
      assert ops[..i] == ops;
    } else {
      var front := ops[..|ops| - 1];
      assert front[..i] == ops[..i];
      assert ops[i..][..|ops| - i - 1] == front[i..];
      forall j | i <= j < |front| ensures !Begins(front, j, k) {
        assert front[..j] == ops[..j];
        assert !Begins(ops, j, k);
      }
      Moves(front, i, k, p);
      assert !Begins(ops, |front|, k);
      PlaceMoves(After(front), ops[|front|], k, p - Gets(front[i..]));
      assert ops[i..][|ops| - i - 1] == ops[|front|];
    }
  }

  // ---------- one key, as the machine sees it ----------

  /** The machine's flags of its one key are the queue's of `k`. */
  ghost predicate SameFlags(q: Queue, k: string, s: M.State) {
    (k in q.dirty <==> s.dirty) && (k in q.processing <==> !s.worker.Idle?)
  }

  /** What the queue is asked to do when the machine takes step `l`; a sync
      that failed puts its key back before it is done with it. */
  function OpsOf(q: Queue, k: string, s: M.State, l: M.Label): seq<Op> {
    match l
    case Notify => [Add(k)]
    case Work(_) =>
      if s.worker.Idle? then [Get]
      else if s.worker.Returned? then (if s.worker.failed then [Add(k), Done(k)] else [Done(k)])
      else []
    case _ => []
  }

  /** The queue may do these operations, in this order, and ends in `t`. */
  ghost predicate Does(q: Queue, ops: seq<Op>, t: Queue)
    decreases |ops|
  {
    if ops == [] then t == q
    else Legal(q, ops[0]) && Does(Apply(q, ops[0]), ops[1..], t)
  }

  lemma DoesOne(q: Queue, op: Op)
    requires Legal(q, op)
    ensures Does(q, [op], Apply(q, op))
  {
  }

  lemma DoesTwo(q: Queue, a: Op, b: Op)
    requires Legal(q, a) && Legal(Apply(q, a), b)
    ensures Does(q, [a, b], Apply(Apply(q, a), b))
  {
    assert [a, b][1..] == [b];
    DoesOne(Apply(q, a), b);
  }

  /** Simulation: every step of the machine is what the queue underneath does
      to this key. The machine's worker can take the key exactly when the queue
      holds it; when it does, or takes any other step, the queue may do what
      belongs to it and the flags agree again. */
  lemma MachineIsQueue(q: Queue, k: string, s: M.State, l: M.Label) returns (t: Queue)
    requires Ok(q) && SameFlags(q, k, s) && M.Enabled(s, l)
    requires l.Work? && s.worker.Idle? ==> q.queue != [] && q.queue[0] == k
    ensures s.worker.Idle? && s.dirty <==> k in q.queue
    ensures Does(q, OpsOf(q, k, s, l), t) && SameFlags(t, k, M.Next(s, l))
  {
    t := q;
    if l.Notify? {
      t := Apply(q, Add(k));
      DoesOne(q, Add(k));
    } else if l.Work? && s.worker.Idle? {
      t := Apply(q, Get);
      DoesOne(q, Get);
    } else if l.Work? && s.worker.Returned? && s.worker.failed {
      t := Apply(Apply(q, Add(k)), Done(k));
      DoesTwo(q, Add(k), Done(k));
    } else if l.Work? && s.worker.Returned? {
      t := Apply(q, Done(k));
      DoesOne(q, Done(k));
    }
  }

  /** And what the queue does to other keys the machine does not see. */
  lemma OtherKeysUnseen(q: Queue, op: Op, k: string, s: M.State)
    requires Ok(q) && Legal(q, op) && SameFlags(q, k, s)
    requires match op case Add(other) => other != k case Get => q.queue[0] != k case Done(other) => other != k
    ensures SameFlags(Apply(q, op), k, s)
  {
  }

  /** First in, first out, without starvation: a key with p others before it
      is synced by the time p + 1 keys have been handed out. */
  lemma NoStarvation(ops: seq<Op>, i: nat, k: string, p: nat)
    requires IsRun(ops) && i <= |ops| && IsRun(ops[..i])
    requires p < |After(ops[..i]).queue| && After(ops[..i]).queue[p] == k
    requires Gets(ops[i..]) > p
    ensures exists j :: i <= j < |ops| && Begins(ops, j, k)
  {
    if forall j :: i <= j < |ops| ==> !Begins(ops, j, k) {
      Moves(ops, i, k, p);
    }
  }

  // ---------- the implementation ----------

  /** What event handlers pass to `Enqueue`. */
  datatype Item = Key(key: string) | Object(namespace: string, name: string) | Unkeyed

  function KeyOf(item: Item): Option<string> {
    match item
    case Key(k) => Some(k)
    case Object(namespace, name) => Some(if namespace != "" then namespace + "/" + name else name)
    case Unkeyed => None
  }

  /** Objects with slash-free namespaces and names share a key only if they are
      the same, so no sync is for two objects. */
  lemma KeysDistinguish(ns: string, name: string, ns': string, name': string)
    requires '/' !in ns + name && '/' !in ns' + name'
    requires KeyOf(Object(ns, name)) == KeyOf(Object(ns', name'))
    ensures ns == ns' && name == name'
  {
    SlashInside(ns, name);
    SlashInside(ns', name');
    if ns != "" && ns' != "" {
      KubeconfigPath.LastSlash(ns, name);
      KubeconfigPath.LastSlash(ns', name');
    }
  }

  lemma SlashInside(ns: string, name: string)
    ensures '/' in ns + "/" + name
  {
    assert (ns + "/" + name)[|ns|] == '/';
  }

  /** The keys of those items that have one. */
  function KeysOf(items: seq<Item>): set<string> {
    set item | item in items && KeyOf(item).Some? :: KeyOf(item).value
  }

  /** What happens around and during one sync: items that arrive before it,
      items that arrive while it runs, and whether it fails. */
  datatype Turn = Turn(before: seq<Item>, during: seq<Item>, fails: bool)

  class TaskQueue {
    var queue: seq<string>
    var dirty: set<string>
    var processing: set<string>
    ghost var ops: seq<Op>

    ghost predicate Valid()
      reads this
    {
      IsRun(ops) && After(ops) == Queue(queue, dirty, processing)
    }

    constructor ()
      ensures Valid() && ops == []
    {
      queue, dirty, processing, ops := [], {}, {}, [];
    }

    method Add(key: string)
      requires Valid()
      modifies this
      ensures Valid() && ops == old(ops) + [Op.Add(key)]
    {
      RunStep(ops, Op.Add(key));
      ops := ops + [Op.Add(key)];
      if key in dirty {
        return;
      }
      dirty := dirty + {key};
      if key in processing {
        return;
      }
      queue := queue + [key];
    }

    method Get() returns (key: string)
      requires Valid() && queue != []
      modifies this
      ensures Valid() && ops == old(ops) + [Op.Get]
      ensures key == old(queue)[0] && key !in old(processing) && key in processing && key !in dirty
    {
      RunKeepsOk(ops);
      RunStep(ops, Op.Get);
      ops := ops + [Op.Get];
      key, queue := queue[0], queue[1..];
      assert key in old(queue);
      processing := processing + {key};
      dirty := dirty - {key};
    }

    method Done(key: string)
      requires Valid() && key in processing
      modifies this
      ensures Valid() && ops == old(ops) + [Op.Done(key)]
      ensures key !in processing && dirty == old(dirty)
      ensures key in dirty ==> key in queue
    {
      RunStep(ops, Op.Done(key));
      ops := ops + [Op.Done(key)];
      processing := processing - {key};
      if key in dirty {
        queue := queue + [key];
      }
    }

    /** A key that cannot be computed is dropped; everything else is pending. */
    method Enqueue(item: Item)
      requires Valid()
      modifies this
      ensures Valid() && processing == old(processing)
      ensures ops == old(ops) + if KeyOf(item).Some? then [Op.Add(KeyOf(item).value)] else []
      ensures dirty == old(dirty) + if KeyOf(item).Some? then {KeyOf(item).value} else {}
    {
      var key := KeyOf(item);
      if key.None? {
        return;
      }
      Add(key.value);
    }

    method EnqueueAll(items: seq<Item>)
      requires Valid()
      modifies this
      ensures Valid() && old(ops) <= ops && processing == old(processing)
      ensures dirty == old(dirty) + KeysOf(items)
    {
      for i := 0 to |items|
        invariant Valid() && old(ops) <= ops && processing == old(processing)
        invariant dirty == old(dirty) + KeysOf(items[..i])
      {
        Enqueue(items[i]);
        assert items[..i + 1] == items[..i] + [items[i]];
      }
      assert items[..|items|] == items;
    }

    /** One iteration of the worker: the key it handed to `sync` is pending again
        exactly if the sync failed or the key arrived meanwhile; every other key
        is pending exactly if it was before or arrived meanwhile. */
    method WorkOnce(turn: Turn) returns (key: string)
      requires Valid() && queue != [] && processing == {}
      modifies this
      ensures Valid() && old(ops) <= ops && processing == {}
      ensures key == old(queue)[0]
      ensures key in queue <==> turn.fails || key in KeysOf(turn.during)
      ensures forall k :: k != key ==> (k in queue <==> k in old(dirty) || k in KeysOf(turn.during))
      ensures forall k :: k in queue <==> k in dirty
    {
      key := Get();
      EnqueueAll(turn.during);
      if turn.fails {
        Enqueue(Key(key));
      }
      Done(key);
      RunKeepsOk(ops);
    }

    /** The endless loop, for any number of turns; while the queue is empty the
        worker waits and only enqueues happen. No key that was pending or that
        arrived is lost: it is still pending, or it was handed out. */
    method Worker(turns: seq<Turn>) returns (synced: seq<string>)
      requires Valid() && processing == {}
      modifies this
      ensures Valid() && old(ops) <= ops && processing == {}
      ensures |synced| <= |turns|
      ensures forall k :: k in old(dirty) ==> k in dirty || k in synced
      ensures forall i, k :: 0 <= i < |turns| && k in KeysOf(turns[i].before) ==> k in dirty || k in synced
      ensures turns != [] && turns[|turns| - 1].fails && synced != [] && |synced| == |turns| ==>
        synced[|synced| - 1] in queue
    {
      synced := [];
      for n := 0 to |turns|
        invariant Valid() && old(ops) <= ops && processing == {}
        invariant |synced| <= n
        invariant forall k :: k in old(dirty) ==> k in dirty || k in synced
        invariant forall i, k :: 0 <= i < n && k in KeysOf(turns[i].before) ==> k in dirty || k in synced
        invariant n > 0 && turns[n - 1].fails && |synced| == n ==> synced[n - 1] in queue
      {
        EnqueueAll(turns[n].before);
        if queue != [] {
          var key := WorkOnce(turns[n]);
          synced := synced + [key];
        }
      }
    }
  }
}
