# A verified model of the cluster provisioner operator

The operator watches `Cluster` objects and runs four controllers over one
shared informer cache and one API store: the provisioner (finalizer handshake,
backend calls, recorded config), the health checker, the config generator and
the annotator. This project models them together and proves what holds in
every interleaving.

## How it is built

- `Objects.dfy`, `KubeconfigPath.dfy`: the objects, condition lists, finalizer
  lists and the kubeconfig path, with their own laws.
- `Machine.dfy`: one state machine for one cluster. Store versions, the cache,
  the objects in memory, the worker, any number of activations of the other
  three controllers, users, and a log of observations and backend calls. Every
  API call, backend call and in-place update is one step. A request may be
  answered, carried out and reported as an error, or lost.
- `Invariant.dfy`, `Preservation.dfy`: the inductive invariant, step by step.
- `Safety.dfy`, `Provenance.dfy`, `Kubeconfigs.dfy`, `Cleanup.dfy`,
  `BackendOrder.dfy`: the results over all runs, and where one needs a
  condition, that the condition is exact.
- `Steps.dfy`, `Attempts.dfy`, `Outcomes.dfy`: the steps of one sync or
  activation picked out of any run, and what they come to: how often a retry
  loop tries and when it stops, exactly when a sync fails, what a Ready
  condition and an annotation stand for.
- `Convergence.dfy`, `Activations.dfy`, `Recovery.dfy`: what undisturbed rounds
  and activations reach, and exactly when, from an idle worker and from every
  reachable state.
- `Reach.dfy`: what any reachable state can be brought to do, for the converse
  halves of the exact conditions.
- `Witnesses.dfy`: concrete runs in which something one might expect fails.
- `World.dfy`, `Provisioner.dfy`, `HealthChecker.dfy`, `Annotator.dfy`,
  `ConfigGenerator.dfy`: the controllers' code as methods with the source's
  loops, early returns and in-place writes. Between any two atomic actions
  everybody else may act, except between the worker's taking the key off the
  queue and its lookup in the cache, which are one action: a notification that
  arrives in between queues the key again and may as well arrive after the
  lookup, and a delivery in between may as well come before. Each method is
  proved to be a run of the machine, so the results over all runs hold of every
  execution of this code.
- `TaskQueue.dfy`, `DeepCopy.dfy`, `InformerFactory.dfy`: the queue with its
  worker loop, deep copies on the heap, the memoised informers.

## What the code does that one might not expect

- The shared informer is set running by three controllers
  (controllers/annotator/annotator.go:36, controllers/healthchecker/healthcheck.go:39,
  controllers/configgenerator/config_generator.go:33), and `Run` does not guard
  against that (vendor/k8s.io/client-go/tools/cache/shared_informer.go:182-221).
  So handlers of one controller may overlap, a delivery may overwrite a newer
  cached version with an older one, a resync may put back an object that was
  replaced, with what was written into it in place, and a stale relist may drop
  a live object from the cache. The machine allows all of these, at any time.
  The update handlers that process the old object are covered too: a handler may
  start on any object the informer ever delivered.
- `Do` leaves a False condition False while its callback runs and sets Unknown
  otherwise (vendor/github.com/rancher/norman/condition/condition.go:144-169).
- A cluster deleted before its finalizer is stored can be provisioned and never
  removed (`Witnesses.BackendCanBeOrphaned`). Exactly the clusters that carried
  the finalizer when they were marked are cleaned up
  (`Cleanup.CleanedUpIffMarkedWithKey`).
- If the cache goes back behind the deletion mark, a removed backend can be
  provisioned again (`Witnesses.RegressingCacheBreaksOrder`); if it does not, it
  cannot (`BackendOrder.ProvisionsThenRemoves`). What the cache shows decides
  alone (`BackendOrder.OrderBreaksIffUnmarkedShown`).
- Cleanup uses the spec path of the cached marked object. After a spec edit the
  backend at the provisioned path can be left running
  (`Witnesses.CleanupCanMissThePath`). Exactly when cleanup is sure to reach a
  path, and exactly when every provisioned path is sure to be cleaned up, is
  `Cleanup.CleanupReachesIff` and `Cleanup.AllPathsCleanedIff`, and after the mark
  `Cleanup.EndingCleanupReachesIff` and `Cleanup.EndingAllPathsCleanedIff`: the
  conditions are about the stored versions and the paths users may still set.
- A new cluster whose finalizer is not stored yet is provisioned twice before
  its config is recorded (`Convergence.FirstTimeProvisionsTwice`).
- A cluster whose recorded config equals the file without being provisioned is
  never looked at again (`Convergence.TwoRoundsConverge`). It can be created so
  (`Witnesses.CreatedStuck`), and every converged cluster can get there: the
  health checker writes back the False that a failed upgrade left on the shared
  object, and then the file is restored (`Witnesses.FailedUpgradeSticks`). A
  change of the file gets such a cluster going again
  (`Recovery.ChangingTheFileRecovers`).

## Model

| member | source | states |
|---|---|---|
| Safety.NoOrphan | controllers/provisioner/provisioner.go:86-117 | in every run, a cluster any stored version of which carried a Provisioned condition or a recorded config is gone only after a remove call for it succeeded |
| Safety.FinalizerTravels | controllers/provisioner/provisioner.go:178-208 | every copy, stored, cached, deep-copied or in flight, with a Provisioned condition or a recorded config carries the finalizer, unless it is marked and cleanup succeeded |
| Safety.RecordedIsTouched | controllers/provisioner/provisioner.go:199-208 | whatever `updateAppliedConfig` gets committed carries a Provisioned condition and the finalizer, so it falls under the two results above |
| Cleanup.CleanedUpIffMarkedWithKey | controllers/provisioner/provisioner.go:210-256 | a vanished cluster was cleaned up if and only if some marked version of it carried the finalizer |
| Cleanup.ForgottenForever | controllers/provisioner/provisioner.go:184-197 | a cluster that vanished unmarked never gets a remove call, however the run continues |
| Witnesses.BackendCanBeOrphaned | controllers/provisioner/provisioner.go:190-196 | a run in which the swallowed write failures of `initialize` lead to a provisioned backend that no continuation removes |
| BackendOrder.ProvisionsThenRemoves | controllers/provisioner/provisioner.go:58-84 | provision calls, then remove calls, never a provision after a remove, while the informer does not take back the deletion mark |
| BackendOrder.MonotoneKeepsMark | vendor/k8s.io/client-go/tools/cache/shared_informer.go:337-366 | a cache that is monotone in resource version satisfies that hypothesis, however stale it is |
| BackendOrder.LastCallWasCleanup | controllers/provisioner/provisioner.go:233-255 | once a provisioned cluster is gone, or marked without the finalizer, the last backend call was a successful remove |
| BackendOrder.LosingTheMarkBreaksOrder | controllers/provisioner/provisioner.go:65-69 | any run that has called for a removal and whose cache shows an unmarked version can go on to provision after the remove, wherever the worker stands and without another delivery |
| BackendOrder.OrderBreaksIffUnmarkedShown | controllers/provisioner/provisioner.go:58-74 | after a removal, with no sync of an unmarked object under way and no further delivery, some continuation provisions after the remove if and only if the cache shows an unmarked version |
| Witnesses.RegressingCacheBreaksOrder | controllers/annotator/annotator.go:35-36 | a concrete run with a cache that goes back, in which a cluster is provisioned, removed and provisioned again, every call with success |
| Cleanup.CallsUseStoredPaths | controllers/provisioner/provisioner.go:119-146 | every provision call names the path of a version from before the mark, every remove call that of a marked version |
| Cleanup.UneditedSpecOnePath | controllers/provisioner/provisioner.go:119-146 | if all versions have one spec path, every backend call names it, and a cluster marked with the key that has lost it had that path removed |
| Cleanup.LaterPathIsCleaned | controllers/provisioner/provisioner.go:233-246 | from any point where the stored cluster carries the key, unmarked, at a path no later version leaves, every remove call names that path, and once the key is off the store one has succeeded |
| Cleanup.CleanupCanGoTo | controllers/provisioner/provisioner.go:210-256 | from any point with an idle worker and such a cluster, an edit to any path and a deletion can end with the key off and that path alone removed |
| Cleanup.CleanupReachesIff | controllers/provisioner/provisioner.go:233-246 | all continuations in which users set the spec only to given paths and the key comes off have path r removed, if and only if r is the stored path and no other path may be set |
| Cleanup.AllPathsCleanedIff | controllers/provisioner/provisioner.go:119-146 | all those continuations have every successfully provisioned path removed, if and only if all versions so far have the stored path and no other may be set |
| Cleanup.EndingCleanupReachesIff | controllers/provisioner/provisioner.go:233-246 | once the cluster is marked: all those continuations have path r removed, if and only if it is removed already, or all marked versions have path r and no other may be set |
| Cleanup.EndingAllPathsCleanedIff | controllers/provisioner/provisioner.go:119-146 | once the cluster is marked: all those continuations have every successfully provisioned path removed, if and only if the path of every unmarked version meets that condition |
| Witnesses.CleanupCanMissThePath | controllers/provisioner/provisioner.go:233-237 | a run with a spec edit in which the cluster is gone, the cleanup succeeded, and the provisioned path was never removed |
| Safety.NoLostUpdate | controllers/healthchecker/healthcheck.go:65-70 | a commit by any controller keeps the spec path, the mark and all foreign finalizers in order and number; only `finalize` drops the key or ends the object, after a successful cleanup |
| Safety.FinalizersShrink | controllers/provisioner/provisioner.go:222-246 | a controller step on a marked stored object leaves its finalizers as they are or strips the key |
| Safety.StrippedStays | controllers/provisioner/provisioner.go:238-253 | a key stripped from a marked object is never stored again |
| Safety.KeyOccursOnce | controllers/provisioner/provisioner.go:184-189 | no copy ever holds the key twice, unless the object was created with as many |
| Provenance.AppliedConfigProvenance | controllers/provisioner/provisioner.go:86-116 | every copy's applied config is the one at creation, or was read from the file and passed to a successful provision call with no other read in between, so by one sync |
| Safety.CausalPipeline | controllers/annotator/annotator.go:54-82 | Provisioned true, Ready and a version annotation on any copy each come after their causes, in order, back to a successful provision call |
| Safety.KubeconfigHasCause | controllers/configgenerator/config_generator.go:41-60 | a Kubeconfig exists only after a Provisioned copy was seen, after a successful provision call |
| Kubeconfigs.GeneratorKeepsEdits | controllers/configgenerator/config_generator.go:63-100 | in every run, whatever users edit meanwhile, a handler's step leaves an existing Kubeconfig alone or changes its path only, and only of the version it read; one it creates is bare; the path is always one computed for a version of the cluster |
| Kubeconfigs.AlwaysOwned | controllers/configgenerator/config_generator.go:63-83 | every Kubeconfig that ever exists has the cluster as its owner |
| Attempts.TriesUntilAnsweredOrThree | controllers/provisioner/provisioner.go:190-195 | for each of the five retry loops, in every run: at most three requests, none after an answered one, and a loop that has begun and does not go on has been answered or has sent all three |
| Attempts.ArrivedIsStored | controllers/provisioner/provisioner.go:201-206 | a request of any of these loops that arrives while its object is current makes the store hold what was sent |
| Attempts.ArrivedKeyIsHeld | controllers/provisioner/provisioner.go:190-195 | once a request for the finalizer has arrived, the store holds the finalizer for the rest of the sync, whatever others do |
| Attempts.KeyBeforeBackend | controllers/provisioner/provisioner.go:178-208 | a sync nobody interferes with that appended the finalizer calls the backend without it in the store only if all three requests were lost |
| Outcomes.PutBackIffFailed | controllers/provisioner/provisioner.go:58-74 | in every run the worker's last step queues the key if and only if the cache had no object, the file could not be read, the fetch was not answered, a backend call was refused or three strip requests went unanswered; otherwise it leaves the queue alone |
| Outcomes.NothingToCleanUp | controllers/provisioner/provisioner.go:210-231 | in every run a sync of a marked object whose fetch is answered by a store without the cluster or without the key ends with the next step, which does not queue the key |
| Outcomes.NotProvisionedMeanwhile | vendor/github.com/rancher/norman/condition/condition.go:144-169 | while a provision call is out, the object in memory does not say Provisioned True |
| Outcomes.ReadyHasCause | controllers/healthchecker/healthcheck.go:51-96 | Ready True on any copy comes after a check that found no Kubeconfig or a server that answered, Ready False after one that did not pass |
| Outcomes.AnnotationsChange | controllers/annotator/annotator.go:65-89 | nobody but the annotator changes annotations; it changes the version alone, to what this activation obtained, and whatever else its commit changes was on the object in memory when it compared |
| Outcomes.KubeconfigWritesAreTold | controllers/configgenerator/config_generator.go:41-61 | a Kubeconfig is created only after a fetch answered with none, updated only after one answered with another path, and without an answer nothing is written |
| Safety.RetriesCommitOnce | controllers/annotator/annotator.go:84-89 | after a commit or a conflict on some version, no submission made from that version changes the store, even if the commit was reported as an error |
| Safety.LoopCommitsOnce | controllers/provisioner/provisioner.go:190-195 | a retry loop around one cached object commits at most once, and not after a conflict, though others mutate the object between attempts |
| Safety.DeletionStaysPending | controllers/provisioner/provisioner.go:58-84 | while the cache shows the mark and the store holds the key, a notification is under way, the key is queued, or the worker is on a marked object and will requeue it |
| Safety.FinishedDeletionIsFinal | controllers/provisioner/provisioner.go:210-256 | a sync of a marked object that ends without a requeue leaves a store without the key, for ever |
| Safety.NeverStuck | controllers/provisioner/provisioner.go:58-74 | whatever the environment answers, the next step of every controller is defined |
| Preservation.RunKeepsInv | controllers/controller.go:15-28 | the invariant of store, cache, memory, log and all four controllers holds in every reachable state |
| Preservation.RunMovesForward | controllers/provisioner/provisioner.go:184-208 | along a run objects in memory keep identity, mark, path and annotations and never lose the finalizer or the condition |
| Convergence.TwoRoundsConverge | controllers/provisioner/provisioner.go:86-117 | two undisturbed rounds reach the recorded config, Provisioned true and the finalizer if and only if the recorded config differs from the file or all is reached already; one round if the finalizer was stored |
| Convergence.SettledForever | controllers/provisioner/provisioner.go:91-94 | once the recorded config equals the file no later round writes or calls the backend |
| Convergence.FirstTimeProvisionsTwice | controllers/provisioner/provisioner.go:96-116 | without a stored finalizer the first two rounds each call the backend |
| Convergence.RoundOutcome | controllers/provisioner/provisioner.go:86-117 | what one undisturbed round stores, field by field, and calls, in each of the three cases; it leaves the key off the queue |
| Convergence.RoundIsRun | controllers/provisioner/provisioner.go:58-74 | an undisturbed round is a run of the machine |
| Convergence.DeletionConverges | controllers/provisioner/provisioner.go:210-256 | after one or more undisturbed rounds a marked cluster with the key has had exactly one remove call and one write that takes off the key alone; it is gone if and only if no other finalizer was left, and the key is off the queue |
| Convergence.DeletionRoundIsRun | controllers/provisioner/provisioner.go:58-84 | these rounds are runs of the machine, also after the object is gone |
| Witnesses.CreatedStuck | controllers/provisioner/provisioner.go:91-94 | a cluster created with the file's content as its recorded config is not provisioned by any number of undisturbed rounds |
| Witnesses.FailedUpgradeSticks | controllers/healthchecker/healthcheck.go:51-74 | from every run that ends converged, without a spec edit, a refused upgrade and a health check of the same object store Provisioned False beside the old record, and no number of undisturbed rounds with the old file converges again |
| Witnesses.FaultsPreventConvergence | controllers/provisioner/provisioner.go:184-208 | from every run that ends idle with something to record, while writes are lost any number of syncs with a fresh cache calls the backend each time and stores nothing |
| Recovery.TwoRoundsFromAnywhere | controllers/provisioner/provisioner.go:86-117 | from every reachable state with an unmarked cluster, once the worker has finished its sync, two rounds converge if and only if the record then differs from the file or all is reached already |
| Recovery.ChangingTheFileRecovers | controllers/provisioner/provisioner.go:86-117 | from every reachable state with an unmarked cluster, undisturbed rounds with another file and then with the wanted one converge |
| Recovery.DeletionFromAnywhere | controllers/provisioner/provisioner.go:210-256 | from every reachable state with a marked cluster, once the worker has finished its sync, one round leaves the store without the key, and if the cluster still had it a remove call has succeeded |
| Convergence.StaleEntryIsDone | controllers/provisioner/provisioner.go:210-218 | a sync of a marked cache entry of a cluster that is gone changes nothing and leaves the key off the queue |
| Activations.HealthIsStored | controllers/healthchecker/healthcheck.go:51-74 | one undisturbed activation on the stored version stores Ready True if there is no Kubeconfig or the server answers and False otherwise, keeps everything else, and writes nothing exactly when Ready already said so |
| Activations.VersionIsStored | controllers/annotator/annotator.go:54-94 | one undisturbed activation on the stored version stores the server's answer, or "" without a Kubeconfig or an answer, as the version annotation, keeps everything else, and writes nothing when it already said so |
| Activations.AnnotatorSettles | controllers/annotator/annotator.go:70-76 | a second activation with the same answer writes nothing |
| Activations.GeneratorConverges | controllers/configgenerator/config_generator.go:41-100 | one undisturbed sync leaves a Kubeconfig at the directory of the spec path followed by "/kube_config_" and its file name, keeps the rest of an existing one, and a second sync writes nothing |
| Provisioner.Turn | util/util.go:47-58 | one worker turn is a run of the machine; a failed sync is queued again; a sync of a marked object that is not queued again leaves a store without the key |
| Provisioner.Sync | controllers/provisioner/provisioner.go:58-74 | the sync follows the machine to its end and succeeds only on an object the lister returned |
| Provisioner.HandleClusterAdd | controllers/provisioner/provisioner.go:86-117 | the add path follows the machine under interference and returns its error |
| Provisioner.Initialize | controllers/provisioner/provisioner.go:178-197 | goes on to provisioning whatever the writes met: with the finalizer there already, with an object the store holds, or after three requests |
| Provisioner.DoProvision | controllers/provisioner/provisioner.go:102-110 | the condition is set around the backend call; the config is recorded only if the call succeeded |
| Provisioner.ProvisionCluster | controllers/provisioner/provisioner.go:142-146 | a successful call justifies the config this sync read |
| Provisioner.UpdateAppliedConfig | controllers/provisioner/provisioner.go:199-208 | ends without an error whatever the writes met: with an object the store holds, or after three requests |
| Provisioner.Finalize | controllers/provisioner/provisioner.go:210-256 | ends after the fetch without an error exactly when a store without the key answered, after the cleanup with one exactly when that was refused, and after the strip with one only if three requests went unanswered; without one the store lacks the key |
| Provisioner.RemoveCluster | controllers/provisioner/provisioner.go:233-237 | only a successful cleanup leads to the strip |
| HealthChecker.Sync | controllers/healthchecker/healthcheck.go:51-74 | skips clusters that are not provisioned, otherwise works the shared object through its activation as a run of the machine |
| HealthChecker.EndReady | controllers/healthchecker/healthcheck.go:58-60 | the object in memory says Ready True if the check passed and False otherwise |
| HealthChecker.ValidateHealthcheck | controllers/healthchecker/healthcheck.go:76-96 | a missing Kubeconfig passes, a failed fetch does not, and otherwise the remote check decides |
| Annotator.Sync | controllers/annotator/annotator.go:54-94 | skips marked, unprovisioned and unready clusters, otherwise runs its activation to the end as a run of the machine |
| Annotator.GetVersion | controllers/annotator/annotator.go:96-119 | "" and no request to the server without a Kubeconfig or when fetching it fails; otherwise the server's answer, or "" if it fails |
| Annotator.Compare | controllers/annotator/annotator.go:70-82 | nothing to write if the annotation says so already; otherwise a copy of the object with the version written into it |
| ConfigGenerator.Sync | controllers/configgenerator/config_generator.go:41-61 | skips marked and unprovisioned clusters, otherwise creates, updates or leaves the Kubeconfig as a run of the machine |
| World.World.UpdateCluster | pkg/client/clientset/versioned/typed/clusterprovisioner/v1alpha1/cluster.go:102-112 | the server commits a full object only at the current resource version; an error may hide a commit |
| KubeconfigPath.PathIs | controllers/configgenerator/config_generator.go:102-109 | for every directory part, empty or closed by a slash, and slash-free file name, the result is the directory, "/kube_config_" and the file name |
| KubeconfigPath.ComputesBeside | controllers/configgenerator/config_generator.go:102-109 | for every spec path the result is that and nothing else |
| KubeconfigPath.PathParts | controllers/configgenerator/config_generator.go:102-106 | directory part plus slash-free file name is the input; the directory is empty or ends in a slash |
| KubeconfigPath.PathRoundTrip | controllers/configgenerator/config_generator.go:102-109 | an explicit inverse recovers every spec path from its kubeconfig path |
| KubeconfigPath.PathInjective | controllers/configgenerator/config_generator.go:102-109 | distinct spec paths never share a kubeconfig path |
| Objects.FinalizerRoundTrip | controllers/provisioner/provisioner.go:238-246 | the filter of `finalize` undoes the append of `initialize` on a list without the key; on any list it removes all copies of the key and keeps the number of every other finalizer |
| Objects.StripKeepsOrder | controllers/provisioner/provisioner.go:238-246 | the stripped list is the original read at strictly increasing places, exactly those that do not hold the key |
| Objects.StripCommutes | controllers/provisioner/provisioner.go:238-246 | stripping one key does not disturb what is left when another is stripped |
| Objects.ContainsString | controllers/provisioner/provisioner.go:169-176 | the loop decides membership |
| Objects.FilterFinalizers | controllers/provisioner/provisioner.go:238-245 | the loop computes the list without the key, in order |
| Objects.BeginDo | vendor/github.com/rancher/norman/condition/condition.go:144-147 | before its callback `Do` leaves False alone and turns any other status, or none, into Unknown |
| Objects.SetStatus | vendor/github.com/rancher/norman/condition/condition.go:197-227 | one condition type gets the status, every other type keeps its own |
| TaskQueue.NoLostWork | util/util.go:28-58 | in every run of the queue a key enqueued after its latest sync began is pending |
| TaskQueue.NoOverlap | util/util.go:47-58 | a key handed to the worker is not being processed, so no two syncs of one key overlap |
| TaskQueue.NoStarvation | util/util.go:47-58 | a key with p others before it is synced by the time p + 1 keys have been handed out |
| TaskQueue.MachineIsQueue | vendor/k8s.io/client-go/util/workqueue/queue.go:86-155 | simulation: every machine step is a legal sequence of queue operations that keeps the machine's dirty and busy flags equal to the queue's for this key; the worker can take the key exactly when the queue holds it |
| TaskQueue.OtherKeysUnseen | vendor/k8s.io/client-go/util/workqueue/queue.go:86-155 | queue operations on other keys leave this key's flags alone |
| TaskQueue.TaskQueue.WorkOnce | util/util.go:49-57 | after the iteration the key is in the queue if and only if its sync failed or it arrived meanwhile, and any other key if and only if it was pending or arrived meanwhile |
| TaskQueue.TaskQueue.Worker | util/util.go:47-58 | over any number of iterations every key that was pending or arrived is still pending or was handed to a sync |
| TaskQueue.KeysDistinguish | util/util.go:28-39 | objects with slash-free namespaces and names have one key only if they are the same |
| TaskQueue.TaskQueue.Enqueue | util/util.go:28-39 | the key of the object becomes pending; an object without a key is dropped |
| DeepCopy.ClusterObject.DeepCopyInto | pkg/apis/clusterprovisioner/v1alpha1/zz_generated.deepcopy.go:75-82 | equal value, nil told apart from empty, and no storage shared |
| DeepCopy.ClusterObject.DeepCopy | pkg/apis/clusterprovisioner/v1alpha1/zz_generated.deepcopy.go:85-92 | a new object of equal value in fresh storage |
| DeepCopy.ClusterList.DeepCopy | pkg/apis/clusterprovisioner/v1alpha1/zz_generated.deepcopy.go:120-142 | a new list of equal items, each in fresh storage of its own, nil staying nil |
| DeepCopy.CopyIsIndependent | pkg/apis/clusterprovisioner/v1alpha1/zz_generated.deepcopy.go:85-92 | no sequence of writes to the copy changes the source |
| DeepCopy.ListCopyIsIndependent | pkg/apis/clusterprovisioner/v1alpha1/zz_generated.deepcopy.go:135-142 | no sequence of writes to the items of the copied list and to its slots changes the source or any of its items |
| InformerFactory.Factory.InformerFor | pkg/client/informers/externalversions/factory.go:91-104 | one informer per type, made on the first request |
| InformerFactory.Factory.Start | pkg/client/informers/externalversions/factory.go:55-65 | every registered informer is running afterwards, each launched exactly once in total |
| InformerFactory.Factory.WaitForCacheSync | pkg/client/informers/externalversions/factory.go:68-87 | reports exactly the started types, with each informer's own answer |
| InformerFactory.Calls | pkg/client/informers/externalversions/factory.go:54-104 | over any sequence of calls informers are never replaced and never launched twice |

## Left out

- One cluster and one incarnation of it: other clusters share only the worker, which the machine lets run at any time; a name reused after deletion is not modelled.
- Process execution, log output and file reading: `provisionCluster`, `removeCluster` and `getConfigStr` are outcomes chosen by the environment and recorded in the log.
- Remote discovery and kubeconfig loading: an arbitrary version or an error.
- Condition timestamps, reasons and messages, and errors that ask to be forgotten, which no callback here returns.
- Kubeconfigs are created by the config generator alone: users may edit and delete them, not create them, which `Safety.KubeconfigHasCause` rests on.
- Users are assumed not to edit finalizers, status or annotations of a stored cluster; other parties may drop their own finalizers. A cluster is created without conditions and without the version annotation.
- Queue shutdown, metrics and the restart of the worker loop; nothing calls `Shutdown`.
- Owner references, initializers and grace periods in deep copies; KubeconfigList has the same shape as ClusterList.
- Generated clients, fakes, listers, schemes, registration, the command line and CRD creation.
- Liveness under faults: the queue need not drain, since a key missing from the lister is requeued every time.
- Convergence.RoundOutcome: stated for rounds in which the cache is refreshed first and nobody else writes, since lost writes alone admit runs of any length that never converge (`Witnesses.FaultsPreventConvergence`).
