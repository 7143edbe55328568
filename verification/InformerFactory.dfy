/** The shared informer factory: one informer per type, each started once. */
module InformerFactory {
  import opened Objects

  /** An informer object; `launches` counts how often it was set running by
      `Start`, `synced` is what its cache reports. */
  class Informer {
    const kind: string
    var launches: nat
    var synced: bool

    constructor (kind: string)
      ensures this.kind == kind && launches == 0 && !synced
    {
      this.kind := kind;
      launches, synced := 0, false;
    }

    method Run()
      modifies this`launches
      ensures launches == old(launches) + 1
    {
      launches := launches + 1;
    }
  }

  class Factory {
    var informers: map<string, Informer>
    var started: set<string>

    /** Each type has its own informer; what is started is registered, and has
        been launched exactly once; nothing else has been launched. */
    ghost predicate Valid()
      reads this, informers.Values
    {
      && started <= informers.Keys
      && (forall t, u :: t in informers && u in informers && t != u ==> informers[t] != informers[u])
      && (forall t :: t in informers ==> informers[t].kind == t)
      && (forall t :: t in informers ==> informers[t].launches == if t in started then 1 else 0)
    }

    constructor ()
      ensures Valid() && informers == map[] && started == {}
    {
      informers, started := map[], {};
    }

    /** The informer of a type, made on the first call and kept for ever. */
    method InformerFor(kind: string) returns (informer: Informer)
      requires Valid()
      modifies this`informers
      ensures Valid() && kind in informers && informer == informers[kind]
      ensures if kind in old(informers) then informers == old(informers)
              else fresh(informer) && informers == old(informers)[kind := informer]
    {
      if kind in informers {
        return informers[kind];
      }
      informer := new Informer(kind);
      informers := informers[kind := informer];
    }

    /** Launches what is registered and not yet running, in any order. */
    method Start()
      requires Valid()
      modifies this`started, informers.Values`launches
      ensures Valid() && started == informers.Keys
    {
      var todo := informers.Keys;
      while todo != {}
        invariant Valid() && todo <= informers.Keys && informers.Keys - todo <= started
        decreases |todo|
      {
        var kind :| kind in todo;
        todo := todo - {kind};
        if kind !in started {
          Launch(kind);
        }
      }
    }

    method Launch(kind: string)
      requires Valid() && kind in informers && kind !in started
      modifies this`started, informers.Values`launches
      ensures Valid() && started == old(started) + {kind}
    {
      informers[kind].Run();
      started := started + {kind};
    }

    /** Reports exactly the started types, each with its informer's answer. */
    method WaitForCacheSync() returns (res: map<string, bool>)
      requires Valid()
      ensures res.Keys == started
      ensures forall t :: t in res ==> res[t] == informers[t].synced
    {
      res := map[];
      var todo := informers.Keys;
      while todo != {}
        invariant todo <= informers.Keys
        invariant res.Keys == started - todo
        invariant forall t :: t in res ==> res[t] == informers[t].synced
        decreases |todo|
      {
        var kind :| kind in todo;
        todo := todo - {kind};
        if kind in started {
          res := res[kind := informers[kind].synced];
        }
      }
    }
  }

  datatype Call = For(kind: string) | StartAll | Wait

  /** Any sequence of calls: every type asked for keeps one informer from its
      first request on, and every informer runs once however often `Start` is
      called. */
  method Calls(f: Factory, calls: seq<Call>) returns (answers: seq<Option<Informer>>)
    requires f.Valid()
    modifies f, f.informers.Values
    ensures f.Valid() && |answers| == |calls|
    ensures forall t :: t in old(f.informers) ==> t in f.informers && f.informers[t] == old(f.informers)[t]
    ensures forall i :: 0 <= i < |calls| && calls[i].For? ==>
      calls[i].kind in f.informers && answers[i] == Some(f.informers[calls[i].kind])
    ensures calls != [] && calls[|calls| - 1].StartAll? ==>
      forall t :: t in f.informers ==> f.informers[t].launches == 1
  {
    answers := [];
    for i := 0 to |calls|
      invariant f.Valid() && |answers| == i
      invariant forall t :: t in old(f.informers) ==> t in f.informers && f.informers[t] == old(f.informers)[t]
      invariant forall t :: t in f.informers && t !in old(f.informers) ==> fresh(f.informers[t])
      invariant forall k :: 0 <= k < i && calls[k].For? ==>
        calls[k].kind in f.informers && answers[k] == Some(f.informers[calls[k].kind])
      invariant i > 0 && calls[i - 1].StartAll? ==> forall t :: t in f.informers ==> f.informers[t].launches == 1
    {
      match calls[i] {
        case For(kind) =>
          var informer := f.InformerFor(kind);
          answers := answers + [Some(informer)];
        case StartAll =>
          f.Start();
          answers := answers + [None];
        case Wait =>
          var _ := f.WaitForCacheSync();
          answers := answers + [None];
      }
    }
  }
}
