/** What is reached from every state the operator can get into, however the
    worker stands and whatever was lost before, once it is left undisturbed. */
module Recovery {
  import opened Objects
  import opened Machine
  import opened Invariant
  import opened Preservation
  import opened Safety
  import opened Cleanup
  import opened Convergence

  /** The store holds an unmarked cluster. */
  ghost predicate Open(g: Shared) {
    Live(g) && !Last(g).marked
  }

  lemma WorkKeepsOpen(s: State, c: Choice)
    requires Inv(s) && Enabled(s, Work(c)) && Open(s.shared)
    ensures Open(WorkerStep(s, c).shared)
  {
    if Commits(s, Work(c)) {
      CommitKeepsUpdates(s, Work(c));
    }
  }

  /** The worker finishes the sync it is in. */
  lemma {:induction false} Finish(run: seq<Label>, config: string) returns (more: seq<Label>)
    requires IsRun(run)
    ensures Undisturbed(run, more) && After(more).worker.Idle?
    ensures Open(After(run).shared) ==> Open(After(more).shared)
    decreases Distance(After(run).worker)
  {
    more := run;
    if !After(run).worker.Idle? {
      RunKeepsInv(run);
      var l := Work(Good(config));
      RunStep(run, l);
      StepsAdvance(After(run), Good(config));
      if Open(After(run).shared) {
        WorkKeepsOpen(After(run), Good(config));
      }
      more := Finish(run + [l], config);
      assert Undisturbed(run, run + [l]);
      UndisturbedTransitive(run, run + [l], more);
    }
  }

  lemma FinishCalm(run: seq<Label>, config: string) returns (more: seq<Label>)
    requires IsRun(run) && Open(After(run).shared)
    ensures Undisturbed(run, more) && Calm(After(more))
  {
    more := Finish(run, config);
    RunKeepsInv(more);
  }

  lemma TwoRoundsRun(run: seq<Label>, config: string) returns (more: seq<Label>)
    requires IsRun(run) && Calm(After(run))
    ensures Undisturbed(run, more) && After(more) == Rounds(After(run), config, 2)
  {
    var s := After(run);
    RoundStaysCalm(s, config);
    var one := RoundIsRun(run, config);
    more := RoundIsRun(one, config);
    UndisturbedTransitive(run, one, more);
    FirstRounds(s, config);
  }

  /** The bound from every reachable state: once the worker has finished the
      sync it is in, two rounds converge exactly when the record then differs
      from the file or all is reached already. */
  lemma TwoRoundsFromAnywhere(run: seq<Label>, config: string) returns (settled: seq<Label>, more: seq<Label>)
    requires IsRun(run) && Open(After(run).shared)
    ensures Undisturbed(run, settled) && Calm(After(settled))
    ensures Undisturbed(settled, more) && After(more) == Rounds(After(settled), config, 2)
    ensures var v := Last(After(settled).shared);
      Converged(Last(After(more).shared), config) <==> v.applied != config || Converged(v, config)
    ensures !After(more).dirty
  {
    settled := FinishCalm(run, config);
    more := TwoRoundsRun(settled, config);
    TwoRoundsConverge(After(settled), config);
  }

  /** And a cluster that is stuck can be got going: from every reachable state,
      two rounds with another file and two with the wanted one converge. */
  lemma ChangingTheFileRecovers(run: seq<Label>, config: string) returns (more: seq<Label>)
    requires IsRun(run) && Open(After(run).shared)
    ensures Undisturbed(run, more) && Calm(After(more)) && Converged(Last(After(more).shared), config)
  {
    var settled := FinishCalm(run, config);
    var other := Last(After(settled).shared).applied + config + "x";
    var changed := TwoRoundsRun(settled, other);
    TwoRoundsConverge(After(settled), other);
    more := TwoRoundsRun(changed, config);
    TwoRoundsConverge(After(changed), config);
    UndisturbedTransitive(run, settled, changed);
    UndisturbedTransitive(run, changed, more);
  }

  /** A deletion from every reachable state: once the worker has finished the
      sync it is in, one round leaves the store without the key, and if the
      cluster still had it, a cleanup has succeeded. */
  lemma DeletionFromAnywhere(run: seq<Label>, config: string) returns (settled: seq<Label>, more: seq<Label>)
    requires IsRun(run) && Live(After(run).shared) && Last(After(run).shared).marked
    ensures Undisturbed(run, settled) && Deleting(After(settled))
    ensures Undisturbed(settled, more) && After(more) == DeletionRound(After(settled), config)
    ensures DeletedTo(After(settled), After(more)) && LacksKey(After(more).shared)
    ensures PROVISIONER in Last(After(run).shared).finalizers ==> RemovedOk(After(more).shared.log)
  {
    settled := FinishDeleting(run, config);
    more := DeletionRoundIsRun(settled, config);
    DeletionOutcome(After(settled), config);
    DeletedTakesKey(After(settled), After(more));
    if PROVISIONER in Last(After(run).shared).finalizers {
      assert more[..|run|] == run;
      KeyStaysUntilCleanup(more, |run|);
    }
  }

  lemma FinishDeleting(run: seq<Label>, config: string) returns (settled: seq<Label>)
    requires IsRun(run) && Live(After(run).shared) && Last(After(run).shared).marked
    ensures Undisturbed(run, settled) && Deleting(After(settled))
  {
    settled := Finish(run, config);
    RunKeepsInv(settled);
    RunMovesForward(settled, |run|);
    assert settled[..|run|] == run;
  }

  lemma DeletedTakesKey(s: State, t: State)
    requires DeletedTo(s, t)
    ensures LacksKey(t.shared)
  {
  }
}
