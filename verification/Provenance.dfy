/** Where a recorded config comes from: the sync that read it is the sync whose
    provision call succeeded. */
module Provenance {
  import opened Objects
  import opened Machine
  import opened Invariant
  import opened Preservation
  import opened Safety
  import opened BackendOrder

  /** The latest content of the config file anybody read. */
  ghost function LastRead(log: seq<Event>): Option<string> {
    if log == [] then None
    else if log[|log| - 1].ReadConfig? then Some(log[|log| - 1].config)
    else LastRead(log[..|log| - 1])
  }

  /** Every provision call names what was read last. */
  ghost predicate CallsNameRead(log: seq<Event>) {
    forall j :: 0 <= j < |log| && log[j].ProvisionCall? ==> LastRead(log[..j]) == Some(log[j].config)
  }

  /** On its way to the backend the worker holds what was read last. */
  ghost predicate HoldsRead(log: seq<Event>, w: Worker) {
    match w
    case Init(_, config) => LastRead(log) == Some(config)
    case InitPut(_, config, _) => LastRead(log) == Some(config)
    case DoBegin(_, config) => LastRead(log) == Some(config)
    case Backend(_, config) => LastRead(log) == Some(config)
    case _ => true
  }

  ghost predicate ReadsOk(s: State) {
    CallsNameRead(s.shared.log) && HoldsRead(s.shared.log, s.worker)
  }

  lemma AppendRead(log: seq<Event>, e: Event)
    requires CallsNameRead(log) && (e.ProvisionCall? ==> LastRead(log) == Some(e.config))
    ensures CallsNameRead(log + [e])
    ensures LastRead(log + [e]) == if e.ReadConfig? then Some(e.config) else LastRead(log)
  {
    var more := log + [e];
    assert more[..|log|] == log;
    forall j | 0 <= j < |more| && more[j].ProvisionCall? ensures LastRead(more[..j]) == Some(more[j].config) {
      if j < |log| { assert more[..j] == log[..j]; }
    }
  }

  lemma WorkerReads(g: Shared, w: Worker, cache: Option<nat>, c: Choice)
    requires InHeap(g, WorkerObject(w)) && InHeap(g, cache)
    requires CallsNameRead(g.log) && HoldsRead(g.log, w)
    ensures CallsNameRead(WorkerEffect(g, w, c).log)
    ensures HoldsRead(WorkerEffect(g, w, c).log, WorkerNext(g, w, cache, c))
  {
    match w
    case Config(_) => if c.file.Some? { AppendRead(g.log, ReadConfig(c.file.value)); }
    case Backend(o, config) => AppendRead(g.log, ProvisionCall(config, g.heap[o].path, c.ok));
    case Remove(o, _) => AppendRead(g.log, RemoveCall(g.heap[o].path, c.ok));
    case _ =>
  }

  lemma StepKeepsReads(s: State, l: Label)
    requires Inv(s) && Enabled(s, l) && ReadsOk(s)
    ensures ReadsOk(Next(s, l))
  {
    match l
    case Work(c) => WorkerReads(s.shared, s.worker, s.cache, c);
    case Handle(h, c) =>
      HandlerLog(s.shared, s.handlers[h], s.kube, c);
      var k := HandlerEffect(s.shared, s.handlers[h], s.kube, c);
      if k.log != s.shared.log {
        var e: Event :| IsSighting(e) && k.log == s.shared.log + [e];
        AppendRead(s.shared.log, e);
      }
    case StartHealth(_) => AppendRead(s.shared.log, SawProvisioned);
    case StartAnnot(_) => AppendRead(s.shared.log, SawReady);
    case StartGen(_) => AppendRead(s.shared.log, SawProvisioned);
    case _ =>
  }

  lemma {:induction false} RunKeepsReads(run: seq<Label>)
    requires IsRun(run)
    ensures ReadsOk(After(run))
  {
    if run != [] {
      var front := run[..|run| - 1];
      RunKeepsReads(front);
      RunKeepsInv(front);
      StepKeepsReads(After(front), run[|run| - 1]);
    }
  }

  /** `config` was read at step i of the log and passed to the backend with
      success at step j, and no other sync read the file in between. */
  ghost predicate OneSync(log: seq<Event>, i: nat, j: nat, config: string) {
    && i < j < |log| && log[i] == ReadConfig(config)
    && log[j].ProvisionCall? && log[j].config == config && log[j].ok
    && forall k :: i < k < j ==> !log[k].ReadConfig?
  }

  lemma {:induction false} LastReadAt(log: seq<Event>, config: string) returns (i: nat)
    requires LastRead(log) == Some(config)
    ensures i < |log| && log[i] == ReadConfig(config)
    ensures forall k :: i < k < |log| ==> !log[k].ReadConfig?
  {
    i := |log| - 1;
    if !log[i].ReadConfig? {
      var front := log[..i];
      i := LastReadAt(front, config);
      assert forall k :: 0 <= k < |front| ==> log[k] == front[k];
    }
  }

  /** AppliedConfig is the value at creation, or a string that one sync both
      read from the config file and provisioned with success, whoever it is
      that persists it. */
  lemma AppliedConfigProvenance(run: seq<Label>, c: Cluster)
    requires IsRun(run) && IsCopy(After(run), c)
    ensures After(run).shared.hist != []
    ensures var g := After(run).shared;
      c.applied == Origin(g).applied || exists i, j :: OneSync(g.log, i, j, c.applied)
  {
    CopyFacts(run, c);
    RunKeepsReads(run);
    var log := After(run).shared.log;
    if c.applied != Origin(After(run).shared).applied {
      var p :| ProvisionCall(c.applied, p, true) in log;
      var j :| 0 <= j < |log| && log[j] == ProvisionCall(c.applied, p, true);
      var i := LastReadAt(log[..j], c.applied);
      assert forall k :: 0 <= k < j ==> log[..j][k] == log[k];
      assert OneSync(log, i, j, c.applied);
    }
  }
}
