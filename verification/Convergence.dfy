/** What the provisioner reaches when nobody disturbs it, over rounds of refresh
    and sync, for clusters that stay and clusters that go. */
module Convergence {
  import opened Objects
  import opened Machine

  // ---------- the provisioner ----------

  function Attempts(tries: nat): nat {
    if tries < 3 then 3 - tries else 0
  }

  /** How far the worker is from the end of its sync. */
  function Distance(w: Worker): nat {
    match w
    case Config(_) => 16
    case Init(_, _) => 15
    case InitPut(_, _, tries) => 11 + Attempts(tries)
    case DoBegin(_, _) => 10
    case Backend(_, _) => 9
    case DoEnd(_, _, _) => 8
    case Fetch(_) => 7
    case Remove(_, _) => 6
    case Record(_, _) => 6
    case RecordPut(_, _, tries) => 2 + Attempts(tries)
    case StripPut(_, _, tries) => 2 + Attempts(tries)
    case Returned(_, _) => 1
    case Idle => 0
  }

  ghost predicate InRange(s: State) {
    InHeap(s.shared, WorkerObject(s.worker)) && InHeap(s.shared, s.cache)
  }

  lemma StepsAdvance(s: State, c: Choice)
    requires InRange(s) && !s.worker.Idle?
    ensures InRange(WorkerStep(s, c)) && Distance(WorkerStep(s, c).worker) < Distance(s.worker)
  {
  }

  /** Lets the worker finish its sync undisturbed. */
  ghost function Drive(s: State, config: string): State
    requires InRange(s)
    decreases Distance(s.worker)
  {
    DriveAdvances(s, config);
    if s.worker.Idle? then s else Drive(WorkerStep(s, Good(config)), config)
  }

  lemma DriveAdvances(s: State, config: string)
    requires InRange(s)
    ensures !s.worker.Idle? ==>
      var t := WorkerStep(s, Good(config)); InRange(t) && Distance(t.worker) < Distance(s.worker)
  {
    if !s.worker.Idle? {
      StepsAdvance(s, Good(config));
    }
  }

  /** The informer delivers version v and the worker takes the key. */
  ghost function BeginAt(s: State, v: nat): State
    requires s.worker.Idle? && v < |s.shared.hist|
  {
    WorkerStep(Next(Next(s, Refresh(v)), Notify), Good(""))
  }

  /** The same with the stored version. */
  ghost function Begin(s: State): State
    requires Resting(s)
  {
    BeginAt(s, |s.shared.hist| - 1)
  }

  /** One round: the cache is refreshed from the store and the key is synced. */
  ghost function Round(s: State, config: string): State
    requires Calm(s)
  {
    Drive(Begin(s), config)
  }

  /** The worker is idle and the store holds the cluster. */
  ghost predicate Resting(s: State) {
    s.worker.Idle? && Live(s.shared) && Last(s.shared).rv == |s.shared.hist| - 1
  }

  /** The same, and the cluster is not marked for deletion. */
  ghost predicate Calm(s: State) {
    Resting(s) && !Last(s.shared).marked
  }

  ghost function Rounds(s: State, config: string, n: nat): State
    requires Calm(s)
    ensures Calm(Rounds(s, config, n))
    decreases n
  {
    if n == 0 then s
    else
      RoundStaysCalm(Rounds(s, config, n - 1), config);
      Round(Rounds(s, config, n - 1), config)
  }

  lemma RoundStaysCalm(s: State, config: string)
    requires Calm(s)
    ensures Calm(Round(s, config))
  {
    RoundOutcome(s, config);
  }

  ghost predicate Converged(v: Cluster, config: string) {
    v.applied == config && IsTrue(v, Provisioned) && PROVISIONER in v.finalizers
  }

  /** The version a successful provisioning records. */
  function Recorded(v: Cluster, config: string): Cluster {
    Ended(Begun(v, Provisioned), Provisioned, true).(applied := config)
  }

  /** `w` is `v` with this config on record and Provisioned True. */
  ghost predicate Records(v: Cluster, w: Cluster, config: string) {
    && w.(conditions := v.conditions, rv := v.rv) == v.(applied := config)
    && GetStatus(w.conditions, Provisioned) == Some(True)
    && forall k :: k != Provisioned ==> GetStatus(w.conditions, k) == GetStatus(v.conditions, k)
  }

  /** What a sync of the fresh object `v` at index `o` ends in; it leaves the
      key off the queue. */
  ghost predicate SyncedTo(s: State, t: State, v: Cluster, config: string) {
    && t.worker == Idle && !t.dirty
    && t.shared.gone == s.shared.gone
    && (if v.applied == config then
          t.shared.hist == s.shared.hist && t.shared.log == s.shared.log + [ReadConfig(config)]
        else if PROVISIONER in v.finalizers then
          && t.shared.hist == s.shared.hist + [Recorded(v, config).(rv := |s.shared.hist|)]
          && Records(v, Last(t.shared), config)
          && t.shared.log == s.shared.log + [ReadConfig(config)] + [ProvisionCall(config, v.path, true)]
        else
          && t.shared.hist == s.shared.hist + [v.(finalizers := v.finalizers + [PROVISIONER], rv := |s.shared.hist|)]
          && t.shared.log == s.shared.log + [ReadConfig(config)] + [ProvisionCall(config, v.path, true)])
  }

  lemma RoundOutcome(s: State, config: string)
    requires Calm(s)
    ensures SyncedTo(s, Round(s, config), Last(s.shared), config)
    ensures Calm(Round(s, config))
  {
    var b := Begin(s);
    var o := |s.shared.heap|;
    assert b.worker == Config(o) && b.shared.heap[o] == Last(s.shared);
    ConfigDrives(b, o, config);
  }

  lemma ConfigDrives(b: State, o: nat, config: string)
    requires InRange(b) && b.worker == Config(o) && Fresh(b.shared, o) && !b.dirty
    ensures SyncedTo(b, Drive(b, config), b.shared.heap[o], config)
  {
    var t := WorkerStep(b, Good(config));
    if b.shared.heap[o].applied == config {
      assert Drive(t, config) == Drive(WorkerStep(t, Good(config)), config);
    } else {
      InitDrives(t, o, config);
    }
  }

  /** Object `o` is the stored, unmarked version, untouched so far. */
  ghost predicate Fresh(g: Shared, o: nat) {
    o < |g.heap| && Live(g) && g.heap[o] == Last(g) && !Last(g).marked && Last(g).rv == |g.hist| - 1
  }

  lemma InitDrives(s: State, o: nat, config: string)
    requires InRange(s) && s.worker == Init(o, config) && Fresh(s.shared, o) && s.shared.heap[o].applied != config
    ensures var t, v := Drive(s, config), s.shared.heap[o];
      && t.worker == Idle && t.dirty == s.dirty && t.shared.gone == s.shared.gone
      && t.shared.log == s.shared.log + [ProvisionCall(config, v.path, true)]
      && t.shared.hist == s.shared.hist +
           [(if PROVISIONER in v.finalizers then Recorded(v, config) else WithKey(v)).(rv := |s.shared.hist|)]
  {
    var v := s.shared.heap[o];
    var t := WorkerStep(s, Good(config));
    if PROVISIONER in v.finalizers {
      DoDrives(t, o, config);
    } else {
      var u := WorkerStep(t, Good(config));
      assert WithKey(v) != v by { assert |WithKey(v).finalizers| == |v.finalizers| + 1; }
      assert u.shared.hist == s.shared.hist + [WithKey(v).(rv := |s.shared.hist|)];
      DoDrives(u, o, config);
    }
  }

  /** From `Do` to the end: recorded if the object is still current, and
      otherwise refused three times. */
  lemma DoDrives(s: State, o: nat, config: string)
    requires InRange(s) && s.worker == DoBegin(o, config) && Live(s.shared)
    requires var v := s.shared.heap[o]; !v.marked && v.applied != config && v.rv < |s.shared.hist|
    requires Current(s.shared, s.shared.heap[o]) ==> Last(s.shared) == s.shared.heap[o]
    ensures var t, v := Drive(s, config), s.shared.heap[o];
      && t.worker == Idle && t.dirty == s.dirty && t.shared.gone == s.shared.gone
      && t.shared.log == s.shared.log + [ProvisionCall(config, v.path, true)]
      && t.shared.hist ==
           s.shared.hist + if Current(s.shared, v) then [Recorded(v, config).(rv := |s.shared.hist|)] else []
  {
    var c := Good(config);
    var s1 := WorkerStep(s, c);
    var s2 := WorkerStep(s1, c);
    var s3 := WorkerStep(s2, c);
    var s4 := WorkerStep(s3, c);
    assert s4.worker == RecordPut(o, config, 0) && s4.shared.heap[o] == Recorded(s.shared.heap[o], config);
    assert Drive(s, config) == Drive(s4, config) by {
      assert Drive(s, config) == Drive(s1, config);
      assert Drive(s1, config) == Drive(s2, config);
      assert Drive(s2, config) == Drive(s3, config);
      assert Drive(s3, config) == Drive(s4, config);
    }
    RecordDrives(s4, o, config);
  }

  lemma RecordDrives(s: State, o: nat, config: string)
    requires InRange(s) && s.worker == RecordPut(o, config, 0) && Live(s.shared)
    requires var v := s.shared.heap[o]; !v.marked && (Current(s.shared, v) ==> v != Last(s.shared))
    ensures var t, v := Drive(s, config), s.shared.heap[o];
      && t.worker == Idle && t.dirty == s.dirty && t.shared.gone == s.shared.gone && t.shared.log == s.shared.log
      && t.shared.hist == (if Current(s.shared, v) then s.shared.hist + [v.(rv := |s.shared.hist|)] else s.shared.hist)
  {
    var c := Good(config);
    var s1 := WorkerStep(s, c);
    assert Drive(s, config) == Drive(s1, config);
    if !Current(s.shared, s.shared.heap[o]) {
      var s2 := WorkerStep(s1, c);
      var s3 := WorkerStep(s2, c);
      assert Drive(s1, config) == Drive(s2, config);
      assert Drive(s2, config) == Drive(s3, config);
      assert Drive(s3, config) == Drive(WorkerStep(s3, c), config);
    } else {
      assert Drive(s1, config) == Drive(WorkerStep(s1, c), config);
    }
  }

  // ---------- the bound ----------

  /** What one round makes of the stored version, its number aside. */
  function Settled(v: Cluster, config: string): Cluster {
    if v.applied == config then v
    else if PROVISIONER in v.finalizers then Recorded(v, config)
    else WithKey(v)
  }

  lemma RoundSettles(s: State, config: string)
    requires Calm(s)
    ensures Calm(Round(s, config)) && !Round(s, config).dirty
    ensures Last(Round(s, config).shared).(rv := 0) == Settled(Last(s.shared), config).(rv := 0)
  {
    RoundOutcome(s, config);
  }

  lemma FirstRounds(s: State, config: string)
    requires Calm(s)
    ensures Rounds(s, config, 1) == Round(s, config)
    ensures Rounds(s, config, 2) == Round(Round(s, config), config)
  {
    assert Rounds(s, config, 0) == s;
  }

  /** Two rounds converge exactly when there is something to do or nothing
      left to do: a recorded config that equals the file on a cluster that is
      not provisioned is never looked at again. One round is enough if the
      finalizer was stored. */
  lemma TwoRoundsConverge(s: State, config: string)
    requires Calm(s)
    ensures var v := Last(s.shared);
      Converged(Last(Rounds(s, config, 2).shared), config) <==> v.applied != config || Converged(v, config)
    ensures var v := Last(s.shared);
      v.applied != config && PROVISIONER in v.finalizers ==> Converged(Last(Rounds(s, config, 1).shared), config)
    ensures !Rounds(s, config, 2).dirty
  {
    FirstRounds(s, config);
    RoundSettles(s, config);
    RoundSettles(Round(s, config), config);
  }

  /** A cluster whose finalizer was not stored yet is provisioned twice. */
  lemma FirstTimeProvisionsTwice(s: State, config: string)
    requires Calm(s) && Last(s.shared).applied != config && PROVISIONER !in Last(s.shared).finalizers
    ensures var sync := [ReadConfig(config)] + [ProvisionCall(config, Last(s.shared).path, true)];
      Rounds(s, config, 2).shared.log == s.shared.log + sync + sync
  {
    FirstRounds(s, config);
    RoundOutcome(s, config);
    var s1 := Round(s, config);
    assert Last(s1.shared).path == Last(s.shared).path && Last(s1.shared).applied != config;
    RoundOutcome(s1, config);
  }

  /** Only reads of the config file were logged since. */
  ghost predicate OnlyReads(log: seq<Event>, more: seq<Event>, config: string) {
    log <= more && forall k :: |log| <= k < |more| ==> more[k] == ReadConfig(config)
  }

  /** Nothing happened between `s` and `t` but reads of the config file. */
  ghost predicate Unchanged(s: State, t: State, config: string) {
    t.shared.hist == s.shared.hist && OnlyReads(s.shared.log, t.shared.log, config)
  }

  lemma SettledRound(s: State, t: State, config: string)
    requires Calm(s) && Calm(t) && Last(s.shared).applied == config && Unchanged(s, t, config)
    ensures Unchanged(s, Round(t, config), config)
  {
    RoundOutcome(t, config);
  }

  lemma SettledStart(s: State, config: string)
    requires Calm(s)
    ensures Unchanged(s, Rounds(s, config, 0), config)
  {
  }

  lemma SettledNext(s: State, config: string, n: nat)
    requires Calm(s) && Last(s.shared).applied == config && n > 0 && Unchanged(s, Rounds(s, config, n - 1), config)
    ensures Unchanged(s, Rounds(s, config, n), config)
  {
    SettledRound(s, Rounds(s, config, n - 1), config);
  }

  /** Once the recorded config equals the file, no round writes or calls the
      backend again, converged or not. */
  lemma SettledForever(s: State, config: string, n: nat)
    requires Calm(s) && Last(s.shared).applied == config
    ensures Unchanged(s, Rounds(s, config, n), config)
  {
    SettledStart(s, config);
    for k := 0 to n
      invariant Unchanged(s, Rounds(s, config, k), config)
    {
      SettledNext(s, config, k + 1);
    }
  }

  /** A record that equals the file keeps everything else from being reached. */
  lemma NeverConverges(s: State, config: string, n: nat)
    requires Calm(s) && Last(s.shared).applied == config && !Converged(Last(s.shared), config)
    ensures !Converged(Last(Rounds(s, config, n).shared), config)
  {
    SettledForever(s, config, n);
  }

  /** `more` goes on from `run` with deliveries, notifications and the worker,
      every request answered and every backend call a success. */
  ghost predicate Undisturbed(run: seq<Label>, more: seq<Label>) {
    && run <= more && IsRun(more)
    && forall k :: |run| <= k < |more| ==> IsUndisturbed(more[k])
  }

  predicate IsUndisturbed(l: Label) {
    l.Refresh? || l.Notify? || l.Evict? || (l.Work? && l.c.fate == Delivered && l.c.ok)
  }

  lemma UndisturbedTransitive(a: seq<Label>, b: seq<Label>, c: seq<Label>)
    requires Undisturbed(a, b) && Undisturbed(b, c)
    ensures Undisturbed(a, c)
  {
    forall k | |a| <= k < |c| ensures IsUndisturbed(c[k]) {
      if k < |b| { assert c[k] == b[k]; }
    }
  }

  /** The rounds are runs of the machine. */
  lemma RoundIsRun(run: seq<Label>, config: string) returns (more: seq<Label>)
    requires IsRun(run) && Calm(After(run))
    ensures Undisturbed(run, more) && After(more) == Round(After(run), config)
  {
    var begun := BeginIsRun(run);
    BeginInRange(After(run));
    more := DriveIsRun(begun, config);
    UndisturbedTransitive(run, begun, more);
  }

  lemma BeginInRange(s: State)
    requires Resting(s)
    ensures InRange(Begin(s))
  {
  }

  lemma BeginAtIsRun(run: seq<Label>, v: nat) returns (begun: seq<Label>)
    requires IsRun(run) && After(run).worker.Idle? && v < |After(run).shared.hist|
    ensures Undisturbed(run, begun) && After(begun) == BeginAt(After(run), v)
  {
    RunStep(run, Refresh(v));
    RunStep(run + [Refresh(v)], Notify);
    RunStep(run + [Refresh(v)] + [Notify], Work(Good("")));
    begun := run + [Refresh(v)] + [Notify] + [Work(Good(""))];
  }

  lemma BeginIsRun(run: seq<Label>) returns (begun: seq<Label>)
    requires IsRun(run) && Resting(After(run))
    ensures Undisturbed(run, begun) && After(begun) == Begin(After(run))
  {
    BeginTakesLast(After(run));
    begun := BeginAtIsRun(run, |After(run).shared.hist| - 1);
  }

  lemma BeginTakesLast(s: State)
    requires Resting(s)
    ensures Begin(s) == BeginAt(s, |s.shared.hist| - 1)
  {
  }

  lemma {:induction false} DriveIsRun(run: seq<Label>, config: string) returns (more: seq<Label>)
    requires IsRun(run) && InRange(After(run))
    ensures Undisturbed(run, more) && After(more) == Drive(After(run), config)
    decreases Distance(After(run).worker)
  {
    if After(run).worker.Idle? {
      more := run;
    } else {
      var l := Work(Good(config));
      RunStep(run, l);
      StepsAdvance(After(run), Good(config));
      more := DriveIsRun(run + [l], config);
      assert Undisturbed(run, run + [l]);
      UndisturbedTransitive(run, run + [l], more);
    }
  }

  // ---------- deletion ----------

  /** The worker is about to strip the key off the version it fetched, which
      is still the current one; `foreign` are the finalizers that stay. */
  ghost predicate AtStrip(s: State, foreign: seq<string>) {
    && s.worker.StripPut? && s.worker.tries == 0 && InRange(s)
    && Current(s.shared, s.worker.u) && s.worker.u == WithoutKey(Last(s.shared))
    && Last(s.shared).marked && PROVISIONER in Last(s.shared).finalizers
    && foreign == s.worker.u.finalizers
  }

  /** The store holds the cluster, marked and with the provisioner's key. */
  ghost predicate Condemned(s: State) {
    Resting(s) && Last(s.shared).marked && PROVISIONER in Last(s.shared).finalizers
  }

  /** Version v carries the mark. */
  ghost predicate MarkedVersion(g: Shared, v: nat) {
    v < |g.hist| && g.hist[v].marked
  }

  /** The worker has taken marked version v of the condemned cluster, fetched
      the stored one and called for cleanup. */
  ghost function Cleaned(s: State, v: nat, config: string): State
    requires Condemned(s) && MarkedVersion(s.shared, v)
  {
    BeginMarked(s, v);
    WorkerStep(WorkerStep(BeginAt(s, v), Good(config)), Good(config))
  }

  lemma BeginMarked(s: State, v: nat)
    requires Resting(s) && MarkedVersion(s.shared, v)
    ensures var b, o := BeginAt(s, v), |s.shared.heap|;
      && b.worker == Fetch(o) && InRange(b)
      && b.shared == s.shared.(heap := s.shared.heap + [s.shared.hist[v]]) && !b.dirty
      && InRange(WorkerStep(b, Good("")))
      && forall config :: WorkerStep(b, Good(config)) == WorkerStep(b, Good(""))
  {
    assert BeginAt(s, v).shared.heap[|s.shared.heap|] == s.shared.hist[v];
  }

  lemma ReachesStrip(s: State, v: nat, config: string)
    requires Condemned(s) && MarkedVersion(s.shared, v)
    ensures var t := Cleaned(s, v, config);
      && AtStrip(t, Strip(Last(s.shared).finalizers, PROVISIONER)) && !t.dirty
      && t.shared.hist == s.shared.hist && t.shared.gone == s.shared.gone
      && t.shared.log == s.shared.log + [RemoveCall(s.shared.hist[v].path, true)]
  {
    BeginMarked(s, v);
    var b := BeginAt(s, v);
    assert b.shared.heap[|s.shared.heap|] == s.shared.hist[v];
    assert WorkerStep(b, Good(config)).worker == Remove(|s.shared.heap|, Last(s.shared));
  }

  /** The strip is carried out; the object goes if no finalizer is left. */
  lemma StripLands(s: State, foreign: seq<string>, config: string)
    requires AtStrip(s, foreign)
    ensures var t := WorkerStep(s, Good(config));
      && t.worker == Returned(Some(s.worker.o), false) && InRange(t) && t.dirty == s.dirty
      && t.shared.log == s.shared.log
      && (t.shared.gone <==> foreign == [])
      && t.shared.hist == s.shared.hist +
           if foreign == [] then [] else [s.worker.u.(rv := |s.shared.hist|)]
  {
    assert s.worker.u != Last(s.shared);
  }

  /** The worker is idle and the cluster is on its way out, or gone. */
  ghost predicate Deleting(s: State) {
    s.worker.Idle? && s.shared.hist != [] && (s.shared.gone || (Resting(s) && Last(s.shared).marked))
  }

  /** One undisturbed round: the cache follows the store and the key, if it is
      queued, is synced. */
  ghost function DeletionRound(s: State, config: string): State
    requires Deleting(s)
  {
    if s.shared.gone then
      var t := Next(s, Evict);
      if t.dirty then Drive(WorkerStep(t, Good(config)), config) else t
    else
      BeginInRange(s);
      Drive(Begin(s), config)
  }

  ghost function DeletionRounds(s: State, config: string, n: nat): State
    requires Deleting(s)
    ensures Deleting(DeletionRounds(s, config, n))
    decreases n
  {
    if n == 0 then s
    else
      DeletionOutcome(DeletionRounds(s, config, n - 1), config);
      DeletionRound(DeletionRounds(s, config, n - 1), config)
  }

  /** Between `s` and `t`: nothing, if the key was off the store; otherwise one
      remove call and one write, which takes the key and nothing else off. */
  ghost predicate DeletedTo(s: State, t: State) {
    && s.shared.hist != []
    && if s.shared.gone || PROVISIONER !in Last(s.shared).finalizers then
         t.shared.hist == s.shared.hist && t.shared.gone == s.shared.gone && t.shared.log == s.shared.log
       else
         var v := WithoutKey(Last(s.shared)).(rv := |s.shared.hist|);
         && t.shared.log == s.shared.log + [RemoveCall(v.path, true)]
         && (t.shared.gone <==> v.finalizers == [])
         && t.shared.hist == s.shared.hist + if v.finalizers == [] then [] else [v]
  }

  lemma DeletionOutcome(s: State, config: string)
    requires Deleting(s)
    ensures DeletedTo(s, DeletionRound(s, config)) && Deleting(DeletionRound(s, config))
    ensures DeletionRound(s, config).dirty ==> s.shared.gone && s.dirty
  {
    if s.shared.gone {
      GoneRound(s, config);
    } else if PROVISIONER in Last(s.shared).finalizers {
      CondemnedRound(s, config);
    } else {
      KeylessRound(s, config);
    }
  }

  lemma GoneRound(s: State, config: string)
    requires Deleting(s) && s.shared.gone
    ensures DeletionRound(s, config).worker.Idle? && DeletionRound(s, config).shared == s.shared
    ensures DeletionRound(s, config).dirty ==> s.dirty
  {
    var t := Next(s, Evict);
    if t.dirty {
      ReturnDrives(WorkerStep(t, Good(config)), config);
    }
  }

  lemma ReturnDrives(s: State, config: string)
    requires InRange(s) && s.worker.Returned?
    ensures Drive(s, config).worker.Idle? && Drive(s, config).shared == s.shared
    ensures Drive(s, config).dirty == (s.dirty || s.worker.failed)
  {
    DriveAdvances(s, config);
    assert Drive(s, config) == Drive(WorkerStep(s, Good(config)), config);
  }

  lemma KeylessRound(s: State, config: string)
    requires Deleting(s) && !s.shared.gone && PROVISIONER !in Last(s.shared).finalizers
    ensures var t := DeletionRound(s, config);
      t.worker.Idle? && !t.dirty && t.shared == s.shared.(heap := s.shared.heap + [Last(s.shared)])
  {
    BeginMarked(s, |s.shared.hist| - 1);
    var b := Begin(s);
    DriveAdvances(b, config);
    assert Drive(b, config) == Drive(WorkerStep(b, Good(config)), config);
    ReturnDrives(WorkerStep(b, Good(config)), config);
  }

  lemma CondemnedRound(s: State, config: string)
    requires Condemned(s)
    ensures DeletedTo(s, DeletionRound(s, config)) && Deleting(DeletionRound(s, config))
    ensures !DeletionRound(s, config).dirty
  {
    var foreign := Strip(Last(s.shared).finalizers, PROVISIONER);
    var v := |s.shared.hist| - 1;
    BeginMarked(s, v);
    ReachesStrip(s, v, config);
    StripLands(Cleaned(s, v, config), foreign, config);
    CleanedDrives(s, config);
    var t := WorkerStep(Cleaned(s, v, config), Good(config));
    ReturnDrives(t, config);
    CleanedTo(s, Cleaned(s, v, config), t);
    SameDeleted(s, t, DeletionRound(s, config));
  }

  /** The strip lands after one remove call. */
  lemma CleanedTo(s: State, c: State, t: State)
    requires Condemned(s) && AtStrip(c, Strip(Last(s.shared).finalizers, PROVISIONER))
    requires c.shared.hist == s.shared.hist && c.shared.gone == s.shared.gone
    requires c.shared.log == s.shared.log + [RemoveCall(Last(s.shared).path, true)]
    requires t.shared.log == c.shared.log && (t.shared.gone <==> c.worker.u.finalizers == [])
    requires t.shared.hist ==
      c.shared.hist + if c.worker.u.finalizers == [] then [] else [c.worker.u.(rv := |c.shared.hist|)]
    ensures DeletedTo(s, t)
  {
  }

  lemma SameDeleted(s: State, t: State, r: State)
    requires Condemned(s) && DeletedTo(s, t) && r.worker.Idle? && r.shared == t.shared
    ensures DeletedTo(s, r) && Deleting(r)
  {
  }

  lemma CleanedDrives(s: State, config: string)
    requires Condemned(s)
    ensures var t := Cleaned(s, |s.shared.hist| - 1, config);
      && t.worker.StripPut? && InRange(t) && InRange(WorkerStep(t, Good(config)))
      && DeletionRound(s, config) == Drive(WorkerStep(t, Good(config)), config)
  {
    var v := |s.shared.hist| - 1;
    BeginMarked(s, v);
    ReachesStrip(s, v, config);
    StripLands(Cleaned(s, v, config), Strip(Last(s.shared).finalizers, PROVISIONER), config);
    BeginTakesLast(s);
    DriveOn(BeginAt(s, v), config);
    DriveOn(WorkerStep(BeginAt(s, v), Good(config)), config);
    DriveOn(Cleaned(s, v, config), config);
  }

  lemma DriveOn(s: State, config: string)
    requires InRange(s) && !s.worker.Idle? && InRange(WorkerStep(s, Good(config)))
    ensures Drive(s, config) == Drive(WorkerStep(s, Good(config)), config)
  {
    DriveAdvances(s, config);
  }

  /** Undisturbed rounds finish a deletion: the first calls for cleanup once and
      takes the key off, which ends the cluster exactly when no other finalizer
      is left; all later ones write nothing and call nothing. The key is off the
      queue after each of them. */
  lemma {:induction false} DeletionConverges(s: State, config: string, n: nat)
    requires Condemned(s) && n > 0
    ensures DeletedTo(s, DeletionRounds(s, config, n)) && !DeletionRounds(s, config, n).dirty
    decreases n
  {
    if n == 1 {
      assert DeletionRounds(s, config, 0) == s;
      DeletionOutcome(s, config);
    } else {
      var t := DeletionRounds(s, config, n - 1);
      DeletionConverges(s, config, n - 1);
      DeletionOutcome(t, config);
      DeletedLacksKey(s, t);
    }
  }

  /** A cluster that is gone while the cache still shows it marked: its sync
      does nothing and leaves the key off the queue. */
  lemma StaleEntryIsDone(s: State, o: nat, config: string)
    requires s.worker.Idle? && s.shared.gone && s.cache == Some(o) && o < |s.shared.heap| && s.shared.heap[o].marked
    ensures InRange(WorkerStep(s, Good(config)))
    ensures var t := Drive(WorkerStep(s, Good(config)), config); t.worker.Idle? && !t.dirty && t.shared == s.shared
  {
    var s1 := WorkerStep(s, Good(config));
    DriveOn(s1, config);
    ReturnDrives(WorkerStep(s1, Good(config)), config);
  }

  lemma DeletedLacksKey(s: State, t: State)
    requires Condemned(s) && DeletedTo(s, t)
    ensures t.shared.gone || PROVISIONER !in Last(t.shared).finalizers
  {
  }

  /** These rounds are runs of the machine, too. */
  lemma DeletionRoundIsRun(run: seq<Label>, config: string) returns (more: seq<Label>)
    requires IsRun(run) && Deleting(After(run))
    ensures Undisturbed(run, more) && After(more) == DeletionRound(After(run), config)
  {
    if After(run).shared.gone {
      more := GoneRoundIsRun(run, config);
    } else {
      var begun := BeginIsRun(run);
      BeginInRange(After(run));
      more := DriveIsRun(begun, config);
      UndisturbedTransitive(run, begun, more);
    }
  }

  lemma GoneRoundIsRun(run: seq<Label>, config: string) returns (more: seq<Label>)
    requires IsRun(run) && Deleting(After(run)) && After(run).shared.gone
    ensures Undisturbed(run, more) && After(more) == DeletionRound(After(run), config)
  {
    RunStep(run, Evict);
    more := run + [Evict];
    if After(more).dirty {
      RunStep(more, Work(Good(config)));
      var taken := more + [Work(Good(config))];
      more := DriveIsRun(taken, config);
      UndisturbedTransitive(run, taken, more);
    }
  }
}
