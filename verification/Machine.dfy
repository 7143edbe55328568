/** The whole operator as one state machine: the API store, the informer cache
    with the objects it handed out, the provisioner's single worker with its
    queue flags, any number of handler activations of the other three
    controllers, and an environment of users, the API server and the informer.
    Every API call, backend call and in-place update is one step. */
module Machine {
  import opened Objects
  import KubeconfigPath

  /** What happens to a request: it is carried out and answered; it is carried
      out but the caller sees an error; it never arrives. */
  datatype Fate = Delivered | AckLost | Lost

  /** Everything a controller step does not decide itself. */
  datatype Choice = Choice(fate: Fate, file: Option<string>, ok: bool, text: string)

  /** Every request answered, the file holds `config`, the backend succeeds. */
  function Good(config: string): Choice {
    Choice(Delivered, Some(config), true, "")
  }

  /** Observations and backend calls, in the order they happened. */
  datatype Event =
    | ReadConfig(config: string)
    | ProvisionCall(config: string, path: string, ok: bool)
    | RemoveCall(path: string, ok: bool)
    | SawProvisioned
    | SawReady
    | SawKubeconfig
    | Checked(ok: bool)

  /** Where the provisioner's worker stands. `o` is the object the lister
      returned, `u` the private object `finalize` fetched. */
  datatype Worker =
    | Idle
    | Config(o: nat)
    | Init(o: nat, config: string)
    | InitPut(o: nat, config: string, tries: nat)
    | DoBegin(o: nat, config: string)
    | Backend(o: nat, config: string)
    | DoEnd(o: nat, config: string, ok: bool)
    | Record(o: nat, config: string)
    | RecordPut(o: nat, config: string, tries: nat)
    | Fetch(o: nat)
    | Remove(o: nat, u: Cluster)
    | StripPut(o: nat, u: Cluster, tries: nat)
    | Returned(from: Option<nat>, failed: bool)

  /** Where one activation of another controller stands. */
  datatype Handler =
    | Finished
    | HealthBegin(o: nat)
    | HealthProbe(o: nat)
    | HealthEnd(o: nat, ok: bool)
    | HealthPut(o: nat, tries: nat)
    | AnnotGet(o: nat)
    | AnnotDiscover(o: nat)
    | AnnotCompare(o: nat, version: string)
    | AnnotPut(u: Cluster, tries: nat)
    | GenGet(o: nat)
    | GenCreate(k: Kubeconfig)
    | GenUpdate(k: Kubeconfig)

  /** What every controller can see or write. `hist` holds every version the
      store ever had, `hist[i]` at resource version i; `gone` says the object
      has vanished. `heap` holds the objects the informer ever handed out;
      handlers refer to them by index and mutate them in place. */
  datatype Shared = Shared(hist: seq<Cluster>, gone: bool, heap: seq<Cluster>, log: seq<Event>)

  /** `cache` is the index of the object the informer cache holds. `shown` says
      that the object was dropped from the cache when it was marked or gone. */
  datatype State = State(
    shared: Shared,
    kube: Option<Kubeconfig>,
    krv: nat,
    cache: Option<nat>,
    shown: bool,
    events: nat,
    dirty: bool,
    worker: Worker,
    handlers: seq<Handler>)

  datatype Label =
    | Work(c: Choice)
    | Handle(h: nat, c: Choice)
    | StartHealth(o: nat)
    | StartAnnot(o: nat)
    | StartGen(o: nat)
    | Create(cluster: Cluster)
    | EditSpec(path: string)
    | Delete
    | DropForeign(finalizer: string)
    | KubeEdit(path: string, labels: map<string, string>)
    | KubeDelete
    | Refresh(v: nat)
    | Redeliver(o: nat)
    | Evict
    | Resync
    | Notify

  const INITIAL := State(Shared([], false, [], []), None, 0, None, false, 0, false, Idle, [])

  // ---------- the API store ----------

  predicate Live(g: Shared) {
    g.hist != [] && !g.gone
  }

  function Last(g: Shared): Cluster
    requires g.hist != []
  {
    g.hist[|g.hist| - 1]
  }

  /** The store still holds the object at the resource version of `c`. */
  predicate Current(g: Shared, c: Cluster) {
    Live(g) && c.rv == |g.hist| - 1
  }

  /** Stores a new version; a marked object without finalizers vanishes. */
  function Store(g: Shared, c: Cluster): Shared {
    if c.marked && c.finalizers == [] then g.(gone := true)
    else g.(hist := g.hist + [c.(rv := |g.hist|)])
  }

  /** A full-object PUT reaching the server: a conflict changes nothing, an
      identical object is not written again. */
  function Commit(g: Shared, c: Cluster): Shared {
    if !Current(g, c) || c == Last(g) then g else Store(g, c)
  }

  function Put(g: Shared, c: Cluster, fate: Fate): Shared {
    if fate == Lost then g else Commit(g, c)
  }

  predicate PutOk(g: Shared, c: Cluster, fate: Fate) {
    fate == Delivered && Current(g, c)
  }

  function Edited(g: Shared, path: string): Shared
    requires Live(g)
  {
    if path == Last(g).path then g else Store(g, Last(g).(path := path))
  }

  function Marked(g: Shared): Shared
    requires Live(g)
  {
    if Last(g).marked then g else Store(g, Last(g).(marked := true))
  }

  function Dropped(g: Shared, finalizer: string): Shared
    requires Live(g)
  {
    if finalizer !in Last(g).finalizers then g
    else Store(g, Last(g).(finalizers := Strip(Last(g).finalizers, finalizer)))
  }

  // ---------- objects in memory and the log ----------

  function SetObject(g: Shared, o: nat, c: Cluster): Shared
    requires o < |g.heap|
  {
    g.(heap := g.heap[o := c])
  }

  function Logged(g: Shared, e: Event): Shared {
    g.(log := g.log + [e])
  }

  function WithKey(c: Cluster): Cluster {
    c.(finalizers := c.finalizers + [PROVISIONER])
  }

  function WithoutKey(c: Cluster): Cluster {
    c.(finalizers := Strip(c.finalizers, PROVISIONER))
  }

  function Begun(c: Cluster, kind: Cond): Cluster {
    c.(conditions := BeginDo(c.conditions, kind))
  }

  function Ended(c: Cluster, kind: Cond, ok: bool): Cluster {
    c.(conditions := EndDo(c.conditions, kind, ok))
  }

  function WithVersion(c: Cluster, version: string): Cluster {
    c.(annotations := c.annotations[VERSION_KEY := version])
  }

  /** The object the worker works on. */
  function WorkerObject(w: Worker): Option<nat> {
    match w
    case Idle => None
    case Returned(from, _) => from
    case _ => Some(w.o)
  }

  function HandlerObject(h: Handler): Option<nat> {
    match h
    case HealthBegin(o) => Some(o)
    case HealthProbe(o) => Some(o)
    case HealthEnd(o, _) => Some(o)
    case HealthPut(o, _) => Some(o)
    case AnnotGet(o) => Some(o)
    case AnnotDiscover(o) => Some(o)
    case AnnotCompare(o, _) => Some(o)
    case GenGet(o) => Some(o)
    case _ => None
  }

  predicate InHeap(g: Shared, o: Option<nat>) {
    o.Some? ==> o.value < |g.heap|
  }

  // ---------- steps of the controllers ----------

  /** What one step of the provisioner does to the shared state. */
  function WorkerEffect(g: Shared, w: Worker, c: Choice): Shared
    requires InHeap(g, WorkerObject(w))
  {
    match w
    case Config(o) => if c.file.None? then g else Logged(g, ReadConfig(c.file.value))
    case Init(o, _) => if PROVISIONER in g.heap[o].finalizers then g else SetObject(g, o, WithKey(g.heap[o]))
    case InitPut(o, _, _) => Put(g, g.heap[o], c.fate)
    case DoBegin(o, _) => SetObject(g, o, Begun(g.heap[o], Provisioned))
    case Backend(o, config) => Logged(g, ProvisionCall(config, g.heap[o].path, c.ok))
    case DoEnd(o, _, ok) => SetObject(g, o, Ended(g.heap[o], Provisioned, ok))
    case Record(o, config) => SetObject(g, o, g.heap[o].(applied := config))
    case RecordPut(o, _, _) => Put(g, g.heap[o], c.fate)
    case Remove(o, _) => Logged(g, RemoveCall(g.heap[o].path, c.ok))
    case StripPut(_, u, _) => Put(g, u, c.fate)
    case _ => g
  }

  /** Where the provisioner stands after the step. */
  function WorkerNext(g: Shared, w: Worker, cache: Option<nat>, c: Choice): Worker
    requires InHeap(g, WorkerObject(w)) && InHeap(g, cache)
  {
    match w
    case Idle =>
      if cache.None? then Returned(None, true)
      else if g.heap[cache.value].marked then Fetch(cache.value)
      else Config(cache.value)
    case Config(o) =>
      if c.file.None? then Returned(Some(o), true)
      else if c.file.value == g.heap[o].applied then Returned(Some(o), false)
      else Init(o, c.file.value)
    case Init(o, config) =>
      if PROVISIONER in g.heap[o].finalizers then DoBegin(o, config) else InitPut(o, config, 0)
    case InitPut(o, config, tries) =>
      if PutOk(g, g.heap[o], c.fate) || tries >= 2 then DoBegin(o, config) else InitPut(o, config, tries + 1)
    case DoBegin(o, config) => Backend(o, config)
    case Backend(o, config) => DoEnd(o, config, c.ok)
    case DoEnd(o, config, ok) => if ok then Record(o, config) else Returned(Some(o), true)
    case Record(o, config) => RecordPut(o, config, 0)
    case RecordPut(o, config, tries) =>
      if PutOk(g, g.heap[o], c.fate) || tries >= 2 then Returned(Some(o), false) else RecordPut(o, config, tries + 1)
    case Fetch(o) =>
      if c.fate != Delivered then Returned(Some(o), true)
      else if !Live(g) || !Last(g).marked || PROVISIONER !in Last(g).finalizers then Returned(Some(o), false)
      else Remove(o, Last(g))
    case Remove(o, u) => if c.ok then StripPut(o, WithoutKey(u), 0) else Returned(Some(o), true)
    case StripPut(o, u, tries) =>
      if PutOk(g, u, c.fate) then Returned(Some(o), false)
      else if tries >= 2 then Returned(Some(o), true)
      else StripPut(o, u, tries + 1)
    case Returned(_, _) => Idle
  }

  /** Taking the key clears its dirty flag; a failed sync sets it again. */
  function DirtyNext(dirty: bool, w: Worker): bool {
    match w
    case Idle => false
    case Returned(_, failed) => dirty || failed
    case _ => dirty
  }

  function WorkerStep(s: State, c: Choice): State
    requires InHeap(s.shared, WorkerObject(s.worker)) && InHeap(s.shared, s.cache)
  {
    s.(
      shared := WorkerEffect(s.shared, s.worker, c),
      worker := WorkerNext(s.shared, s.worker, s.cache, c),
      dirty := DirtyNext(s.dirty, s.worker))
  }

  /** The health check: a missing Kubeconfig passes, a failed fetch does not,
      and otherwise the server has to answer. */
  predicate Healthy(kube: Option<Kubeconfig>, c: Choice) {
    c.fate == Delivered && (kube.None? || c.ok)
  }

  /** What one step of a handler activation does to the shared state. */
  function HandlerEffect(g: Shared, h: Handler, kube: Option<Kubeconfig>, c: Choice): Shared
    requires InHeap(g, HandlerObject(h))
  {
    match h
    case HealthBegin(o) => SetObject(g, o, Begun(g.heap[o], Ready))
    case HealthProbe(_) => Logged(g, Checked(Healthy(kube, c)))
    case HealthEnd(o, ok) => SetObject(g, o, Ended(g.heap[o], Ready, ok))
    case HealthPut(o, _) => Put(g, g.heap[o], c.fate)
    case AnnotGet(o) => if c.fate == Delivered && kube.Some? then Logged(g, SawKubeconfig) else g
    case AnnotPut(u, _) => Put(g, u, c.fate)
    case _ => g
  }

  function HandlerNext(g: Shared, h: Handler, kube: Option<Kubeconfig>, c: Choice): Handler
    requires InHeap(g, HandlerObject(h))
  {
    match h
    case Finished => Finished
    case HealthBegin(o) => HealthProbe(o)
    case HealthProbe(o) => HealthEnd(o, Healthy(kube, c))
    case HealthEnd(o, _) => HealthPut(o, 0)
    case HealthPut(o, tries) =>
      if PutOk(g, g.heap[o], c.fate) || tries >= 2 then Finished else HealthPut(o, tries + 1)
    case AnnotGet(o) =>
      if c.fate == Delivered && kube.Some? then AnnotDiscover(o) else AnnotCompare(o, "")
    case AnnotDiscover(o) => AnnotCompare(o, if c.ok then c.text else "")
    case AnnotCompare(o, version) =>
      if Version(g.heap[o]) == version then Finished else AnnotPut(WithVersion(g.heap[o], version), 0)
    case AnnotPut(u, tries) =>
      if PutOk(g, u, c.fate) || tries >= 2 then Finished else AnnotPut(u, tries + 1)
    case GenGet(o) =>
      var path := KubeconfigPath.GetKubeConfigPath(g.heap[o].path);
      if c.fate != Delivered then Finished
      else if kube.None? then GenCreate(Kubeconfig(0, path, true, map[]))
      else if kube.value.path != path then GenUpdate(kube.value.(path := path))
      else Finished
    case GenCreate(_) => Finished
    case GenUpdate(_) => Finished
  }

  /** The Kubeconfig a step writes, if it writes one. */
  function KubeWritten(h: Handler, kube: Option<Kubeconfig>, c: Choice): Option<Kubeconfig> {
    match h
    case GenCreate(k) => if c.fate == Lost || kube.Some? then None else Some(k)
    case GenUpdate(k) => if c.fate == Lost || kube.None? || kube.value.rv != k.rv then None else Some(k)
    case _ => None
  }

  function HandlerStep(s: State, h: nat, c: Choice): State
    requires h < |s.handlers| && InHeap(s.shared, HandlerObject(s.handlers[h]))
  {
    var p, k := s.handlers[h], KubeWritten(s.handlers[h], s.kube, c);
    (if k.Some? then StoreKube(s, k.value) else s).(
      shared := HandlerEffect(s.shared, p, s.kube, c),
      handlers := s.handlers[h := HandlerNext(s.shared, p, s.kube, c)])
  }

  function StoreKube(s: State, k: Kubeconfig): State {
    s.(kube := Some(k.(rv := s.krv)), krv := s.krv + 1)
  }

  // ---------- all steps ----------

  predicate Enabled(s: State, l: Label) {
    match l
    case Work(_) =>
      (s.worker.Idle? ==> s.dirty) && InHeap(s.shared, WorkerObject(s.worker)) && InHeap(s.shared, s.cache)
    case Handle(h, _) => h < |s.handlers| && InHeap(s.shared, HandlerObject(s.handlers[h]))
    case StartHealth(o) => o < |s.shared.heap| && IsTrue(s.shared.heap[o], Provisioned)
    case StartAnnot(o) =>
      && o < |s.shared.heap| && !s.shared.heap[o].marked
      && IsTrue(s.shared.heap[o], Provisioned) && IsTrue(s.shared.heap[o], Ready)
    case StartGen(o) => o < |s.shared.heap| && !s.shared.heap[o].marked && IsTrue(s.shared.heap[o], Provisioned)
    case Create(c) =>
      s.shared.hist == [] && c.rv == 0 && !c.marked && c.conditions == [] && VERSION_KEY !in c.annotations
    case EditSpec(_) => Live(s.shared)
    case Delete => Live(s.shared)
    case DropForeign(f) => Live(s.shared) && f != PROVISIONER
    case KubeEdit(_, _) => s.kube.Some?
    case KubeDelete => true
    case Refresh(v) => v < |s.shared.hist|
    case Redeliver(o) => o < |s.shared.heap|
    case Evict => true
    case Resync => s.cache.Some?
    case Notify => s.events > 0
  }

  function Next(s: State, l: Label): State
    requires Enabled(s, l)
  {
    match l
    case Work(c) => WorkerStep(s, c)
    case Handle(h, c) => HandlerStep(s, h, c)
    case StartHealth(o) => Started(s, SawProvisioned, HealthBegin(o))
    case StartAnnot(o) => Started(s, SawReady, AnnotGet(o))
    case StartGen(o) => Started(s, SawProvisioned, GenGet(o))
    case Create(c) => s.(shared := s.shared.(hist := [c]))
    case EditSpec(path) => s.(shared := Edited(s.shared, path))
    case Delete => s.(shared := Marked(s.shared))
    case DropForeign(f) => s.(shared := Dropped(s.shared, f))
    case KubeEdit(path, labels) => StoreKube(s, s.kube.value.(path := path, labels := labels))
    case KubeDelete => s.(kube := None)
    case Refresh(v) =>
      s.(
        shared := s.shared.(heap := s.shared.heap + [s.shared.hist[v]]),
        cache := Some(|s.shared.heap|),
        events := s.events + 1)
    case Redeliver(o) => s.(cache := Some(o), events := s.events + 1)
    case Evict => s.(cache := None, shown := s.shown || s.shared.gone || ShowsMark(s))
    case Resync => s.(events := s.events + 1)
    case Notify => s.(events := s.events - 1, dirty := true)
  }

  /** A handler passes its entry checks and gets to work. */
  function Started(s: State, e: Event, h: Handler): State {
    s.(shared := Logged(s.shared, e), handlers := s.handlers + [h])
  }

  /** The cache holds the object with its deletion mark. */
  predicate ShowsMark(s: State) {
    s.cache.Some? && s.cache.value < |s.shared.heap| && s.shared.heap[s.cache.value].marked
  }

  predicate ByController(l: Label) {
    l.Work? || l.Handle?
  }

  // ---------- runs ----------

  ghost predicate IsRun(run: seq<Label>)
    decreases |run|, 0
  {
    run == [] || (IsRun(run[..|run| - 1]) && Enabled(After(run[..|run| - 1]), run[|run| - 1]))
  }

  /** The state a run ends in. */
  ghost function After(run: seq<Label>): State
    requires IsRun(run)
    decreases |run|
  {
    if run == [] then INITIAL else Next(After(run[..|run| - 1]), run[|run| - 1])
  }

  lemma {:induction false} RunPrefix(run: seq<Label>, i: nat)
    requires IsRun(run) && i <= |run|
    ensures IsRun(run[..i])
  {
    if i < |run| {
      RunPrefix(run[..|run| - 1], i);
      assert run[..|run| - 1][..i] == run[..i];
    } else {
      assert run[..i] == run;
    }
  }

  lemma LastStepIs(front: seq<Label>, l: Label, run: seq<Label>)
    requires IsRun(run) && run == front + [l]
    ensures IsRun(front) && Enabled(After(front), l) && After(run) == Next(After(front), l)
  {
    assert run[..|run| - 1] == front;
    assert run[|run| - 1] == l;
  }

  lemma PrefixGrows<T>(s: seq<T>, i: nat)
    requires i < |s|
    ensures s[..i + 1] == s[..i] + [s[i]]
  {
  }

  lemma PrefixStep(run: seq<Label>, i: nat)
    requires IsRun(run) && i < |run|
    ensures IsRun(run[..i]) && Enabled(After(run[..i]), run[i])
    ensures IsRun(run[..i + 1]) && After(run[..i + 1]) == Next(After(run[..i]), run[i])
  {
    RunPrefix(run, i + 1);
    PrefixGrows(run, i);
    LastStepIs(run[..i], run[i], run[..i + 1]);
  }

  lemma RunStep(run: seq<Label>, l: Label)
    requires IsRun(run) && Enabled(After(run), l)
    ensures IsRun(run + [l]) && After(run + [l]) == Next(After(run), l)
  {
    assert (run + [l])[..|run|] == run;
  }
}
