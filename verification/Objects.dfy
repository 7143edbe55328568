/** The API objects the controllers exchange, with the condition list and the
    finalizer list they carry. A `Cluster` here is a value: one content of one
    object at one moment. */
module Objects {

  datatype Option<+T> = None | Some(value: T)

  /** The finalizer key of the provisioner: its controller name. */
  const PROVISIONER := "provisioner"

  const VERSION_KEY := "clusterprovisioner.rke.io/kubernetes-version"

  /** The condition types of the repository, and any other a list may hold. */
  datatype Cond = Provisioned | Ready | Other(name: string)

  datatype Status = Unknown | True | False

  datatype Condition = Condition(kind: Cond, status: Status)

  datatype Cluster = Cluster(
    rv: nat,
    marked: bool,
    finalizers: seq<string>,
    path: string,
    conditions: seq<Condition>,
    applied: string,
    annotations: map<string, string>)

  datatype Kubeconfig = Kubeconfig(rv: nat, path: string, owned: bool, labels: map<string, string>)

  // ---------- conditions ----------

  /** The status of the first condition of the given type. */
  function GetStatus(cs: seq<Condition>, kind: Cond): Option<Status> {
    if cs == [] then None
    else if cs[0].kind == kind then Some(cs[0].status)
    else GetStatus(cs[1..], kind)
  }

  /** Overwrites the first condition of that type in place, or appends one. */
  function SetStatus(cs: seq<Condition>, kind: Cond, status: Status): (r: seq<Condition>)
    ensures forall k :: GetStatus(r, k) == if k == kind then Some(status) else GetStatus(cs, k)
  {
    if cs == [] then [Condition(kind, status)]
    else if cs[0].kind == kind then [Condition(kind, status)] + cs[1..]
    else [cs[0]] + SetStatus(cs[1..], kind, status)
  }

  lemma {:induction false} SetSame(cs: seq<Condition>, kind: Cond, status: Status)
    requires GetStatus(cs, kind) == Some(status)
    ensures SetStatus(cs, kind, status) == cs
  {
    if cs[0].kind != kind {
      SetSame(cs[1..], kind, status);
    }
  }

  lemma {:induction false} SetTwice(cs: seq<Condition>, kind: Cond, first: Status, second: Status)
    ensures SetStatus(SetStatus(cs, kind, first), kind, second) == SetStatus(cs, kind, second)
  {
    if cs != [] && cs[0].kind != kind {
      var rest := SetStatus(cs[1..], kind, first);
      assert ([cs[0]] + rest)[1..] == rest;
      SetTwice(cs[1..], kind, first, second);
    }
  }

  /** What `Do` does before its callback: False stays, anything else turns Unknown. */
  function BeginDo(cs: seq<Condition>, kind: Cond): (r: seq<Condition>)
    ensures GetStatus(r, kind) == Some(if GetStatus(cs, kind) == Some(False) then False else Unknown)
    ensures forall k :: k != kind ==> GetStatus(r, k) == GetStatus(cs, k)
  {
    if GetStatus(cs, kind) == Some(False) then cs else SetStatus(cs, kind, Unknown)
  }

  /** What `Do` does after its callback. */
  function EndDo(cs: seq<Condition>, kind: Cond, ok: bool): (r: seq<Condition>)
    ensures GetStatus(r, kind) == Some(if ok then True else False)
    ensures forall k :: k != kind ==> GetStatus(r, k) == GetStatus(cs, k)
  {
    SetStatus(cs, kind, if ok then True else False)
  }

  predicate IsTrue(c: Cluster, kind: Cond) {
    GetStatus(c.conditions, kind) == Some(True)
  }

  /** The object carries a Provisioned condition, whatever its status. */
  predicate Touched(c: Cluster) {
    GetStatus(c.conditions, Provisioned).Some?
  }

  function Version(c: Cluster): string {
    if VERSION_KEY in c.annotations then c.annotations[VERSION_KEY] else ""
  }

  /** What `Do` leaves does not depend on what it set meanwhile. */
  lemma DoSets(cs: seq<Condition>, kind: Cond, ok: bool)
    ensures EndDo(BeginDo(cs, kind), kind, ok) == SetStatus(cs, kind, if ok then True else False)
  {
    SetTwice(cs, kind, Unknown, if ok then True else False);
  }

  // ---------- finalizers ----------

  /** The list without any occurrence of `key`, in the original order. */
  function Strip(fs: seq<string>, key: string): (r: seq<string>)
    ensures key !in r
    ensures forall f :: f != key ==> (f in r <==> f in fs)
    ensures key !in fs ==> r == fs
  {
    if fs == [] then []
    else if fs[0] == key then Strip(fs[1..], key)
    else [fs[0]] + Strip(fs[1..], key)
  }

  function Occurs(fs: seq<string>, key: string): nat {
    multiset(fs)[key]
  }

  lemma {:induction false} StripConcat(a: seq<string>, b: seq<string>, key: string)
    ensures Strip(a + b, key) == Strip(a, key) + Strip(b, key)
  {
    if a == [] {
      assert a + b == b;
    } else {
      assert (a + b)[1..] == a[1..] + b;
      StripConcat(a[1..], b, key);
    }
  }

  /** Order and multiplicity: filtering by two keys commutes, so what one
      party strips never disturbs what remains for another. */
  lemma {:induction false} StripCommutes(fs: seq<string>, k1: string, k2: string)
    ensures Strip(Strip(fs, k1), k2) == Strip(Strip(fs, k2), k1)
  {
    if fs != [] {
      StripCommutes(fs[1..], k1, k2);
    }
  }

  /** Stripping removes all copies of the key and no copy of anything else. */
  lemma {:induction false} StripCounts(fs: seq<string>, key: string)
    ensures multiset(Strip(fs, key)) == multiset(fs)[key := 0]
  {
    if fs != [] {
      StripCounts(fs[1..], key);
      assert fs == [fs[0]] + fs[1..];
    }
  }

  /** `kept` is `fs` read at the increasing places `at`, which are exactly those
      that do not hold the key. */
  ghost predicate ReadAt(fs: seq<string>, kept: seq<string>, key: string, at: seq<nat>) {
    && |at| == |kept|
    && (forall i :: 0 <= i < |at| ==> at[i] < |fs| && fs[at[i]] == kept[i] && kept[i] != key)
    && (forall i, j :: 0 <= i < j < |at| ==> at[i] < at[j])
    && (forall k :: 0 <= k < |fs| && fs[k] != key ==> k in at)
  }

  lemma ReadNext(fs: seq<string>, kept: seq<string>, key: string, at: seq<nat>, f: string)
    requires ReadAt(fs, kept, key, at)
    ensures f == key ==> ReadAt(fs + [f], kept, key, at)
    ensures f != key ==> ReadAt(fs + [f], kept + [f], key, at + [|fs|])
  {
    var more := fs + [f];
    assert forall k :: 0 <= k < |fs| ==> more[k] == fs[k];
    forall k | 0 <= k < |more| && more[k] != key && k < |fs| ensures k in at + [|fs|] {
      assert k in at;
    }
    assert (at + [|fs|])[|at|] == |fs|;
  }

  lemma StripLast(front: seq<string>, f: string, key: string)
    ensures Strip(front + [f], key) == if f == key then Strip(front, key) else Strip(front, key) + [f]
  {
    StripConcat(front, [f], key);
  }

  /** Order: stripping takes the other finalizers over one by one, none of them
      twice and none before an earlier one. */
  lemma {:induction false} StripKeepsOrder(fs: seq<string>, key: string) returns (at: seq<nat>)
    ensures ReadAt(fs, Strip(fs, key), key, at)
    decreases |fs|
  {
    if fs == [] {
      at := [];
    } else {
      var n := |fs| - 1;
      var front, f := fs[..n], fs[n];
      at := StripKeepsOrder(front, key);
      assert fs == front + [f];
      StripLast(front, f, key);
      ReadNext(front, Strip(front, key), key, at, f);
      if f != key {
        at := at + [n];
      }
    }
  }

  /** The filter of `finalize` undoes the append of `initialize`; on a list
      that already held the key it still yields the other finalizers, in
      order and with their multiplicities, and no copy of the key. */
  lemma FinalizerRoundTrip(fs: seq<string>, key: string)
    ensures key !in fs ==> Strip(fs + [key], key) == fs
    ensures Strip(fs + [key], key) == Strip(fs, key)
    ensures multiset(Strip(fs, key)) == multiset(fs)[key := 0]
  {
    StripConcat(fs, [key], key);
    StripCounts(fs, key);
  }

  lemma StripKeepsOccurs(fs: seq<string>, f: string, key: string)
    requires f != key
    ensures Occurs(Strip(fs, f), key) == Occurs(fs, key)
  {
    StripCounts(fs, f);
  }

  /** The membership loop of the provisioner. */
  method ContainsString(slice: seq<string>, item: string) returns (found: bool)
    ensures found <==> item in slice
  {
    for k := 0 to |slice|
      invariant item !in slice[..k]
    {
      if slice[k] == item { return true; }
    }
    return false;
  }

  /** The filter loop of `finalize`. */
  method FilterFinalizers(fs: seq<string>, key: string) returns (kept: seq<string>)
    ensures kept == Strip(fs, key)
  {
    kept := [];
    for k := 0 to |fs|
      invariant kept == Strip(fs[..k], key)
    {
      StripConcat(fs[..k], [fs[k]], key);
      assert fs[..k + 1] == fs[..k] + [fs[k]];
      if fs[k] == key { continue; }
      kept := kept + [fs[k]];
    }
    assert fs[..|fs|] == fs;
  }
}
