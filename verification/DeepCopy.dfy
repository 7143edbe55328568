/** Deep copies on the heap: equal in value, disjoint in storage. Nil and empty
    slices and maps are told apart by null references. */
module DeepCopy {
  import opened Objects

  datatype ConditionValue = ConditionValue(
    kind: string, status: string, lastUpdateTime: string, lastTransitionTime: string, reason: string, message: string)

  /** The content of a cluster object, with None for nil. */
  datatype ClusterValue = ClusterValue(
    name: string, resourceVersion: string, path: string, applied: string,
    deletionTimestamp: Option<int>,
    labels: Option<map<string, string>>,
    annotations: Option<map<string, string>>,
    finalizers: Option<seq<string>>,
    conditions: Option<seq<ConditionValue>>)

  class Time {
    var seconds: int

    constructor (seconds: int)
      ensures this.seconds == seconds
    {
      this.seconds := seconds;
    }
  }

  class StringMap {
    var entries: map<string, string>

    constructor ()
      ensures entries == map[]
    {
      entries := map[];
    }
  }

  /** The content behind a reference, None for nil. */
  ghost function TimeOf(t: Time?): Option<int>
    reads t
  {
    if t == null then None else Some(t.seconds)
  }

  ghost function MapOf(m: StringMap?): Option<map<string, string>>
    reads m
  {
    if m == null then None else Some(m.entries)
  }

  ghost function SliceOf<T>(a: array?<T>): Option<seq<T>>
    reads a
  {
    if a == null then None else Some(a[..])
  }

  /** The reference is nil or belongs to `repr`. */
  ghost predicate Owned(o: object?, repr: set<object>) {
    o != null ==> o in repr
  }

  method CopyMap(source: StringMap) returns (copy: StringMap)
    ensures fresh(copy) && copy.entries == source.entries
  {
    copy := new StringMap();
    var todo := source.entries.Keys;
    while todo != {}
      invariant fresh(copy) && todo <= source.entries.Keys
      invariant copy.entries.Keys == source.entries.Keys - todo
      invariant forall k :: k in copy.entries ==> copy.entries[k] == source.entries[k]
      decreases |todo|
    {
      var key :| key in todo;
      copy.entries := copy.entries[key := source.entries[key]];
      todo := todo - {key};
    }
  }

  method CopySlice<T(0)>(source: array<T>) returns (copy: array<T>)
    ensures fresh(copy) && copy[..] == source[..]
  {
    copy := new T[source.Length];
    for i := 0 to source.Length
      invariant copy[..i] == source[..i]
    {
      copy[i] := source[i];
    }
  }

  class ClusterObject {
    var name: string
    var resourceVersion: string
    var path: string
    var applied: string
    var deletionTimestamp: Time?
    var labels: StringMap?
    var annotations: StringMap?
    var finalizers: array?<string>
    var conditions: array?<ConditionValue>
    /** The object and everything it refers to. */
    ghost var Repr: set<object>

    ghost predicate Valid()
      reads this
    {
      && this in Repr
      && Owned(deletionTimestamp, Repr) && Owned(labels, Repr) && Owned(annotations, Repr)
      && Owned(finalizers, Repr) && Owned(conditions, Repr)
    }

    ghost function Value(): ClusterValue
      requires Valid()
      reads this, Repr
    {
      ClusterValue(name, resourceVersion, path, applied,
        TimeOf(deletionTimestamp), MapOf(labels), MapOf(annotations), SliceOf(finalizers), SliceOf(conditions))
    }

    constructor ()
      ensures Valid() && fresh(Repr) && Repr == {this}
      ensures Value() == ClusterValue("", "", "", "", None, None, None, None, None)
    {
      name, resourceVersion, path, applied := "", "", "", "";
      deletionTimestamp, labels, annotations, finalizers, conditions := null, null, null, null, null;
      Repr := {this};
    }

    method DeepCopyInto(out: ClusterObject)
      requires Valid() && out !in Repr
      modifies out
      ensures out.Valid() && fresh(out.Repr - {out})
      ensures out.Value() == Value()
    {
      out.name, out.resourceVersion, out.path, out.applied := name, resourceVersion, path, applied;
      out.deletionTimestamp, out.labels, out.annotations := deletionTimestamp, labels, annotations;
      out.finalizers, out.conditions := finalizers, conditions;
      out.Repr := {out};
      CopyMeta(out);
      CopyStatus(out);
    }

    /** Replaces the shared condition slice by a copy. */
    method CopyStatus(out: ClusterObject)
      requires Valid() && out !in Repr && out in out.Repr
      requires out.conditions == conditions
      modifies out`conditions, out`Repr
      ensures old(out.Repr) <= out.Repr && fresh(out.Repr - old(out.Repr))
      ensures Owned(out.conditions, out.Repr) && SliceOf(out.conditions) == SliceOf(conditions)
    {
      if conditions != null {
        out.conditions := CopySlice(conditions);
        out.Repr := out.Repr + {out.conditions};
      }
    }

    /** Replaces the shared label and annotation maps by copies. */
    method CopyMaps(out: ClusterObject)
      requires Valid() && out !in Repr && out in out.Repr
      requires out.labels == labels && out.annotations == annotations
      modifies out`labels, out`annotations, out`Repr
      ensures old(out.Repr) <= out.Repr && fresh(out.Repr - old(out.Repr))
      ensures Owned(out.labels, out.Repr) && MapOf(out.labels) == MapOf(labels)
      ensures Owned(out.annotations, out.Repr) && MapOf(out.annotations) == MapOf(annotations)
    {
      if labels != null {
        out.labels := CopyMap(labels);
        out.Repr := out.Repr + {out.labels};
      }
      if annotations != null {
        out.annotations := CopyMap(annotations);
        out.Repr := out.Repr + {out.annotations};
      }
    }

    /** Replaces the shared references of the metadata by copies. */
    method CopyMeta(out: ClusterObject)
      requires Valid() && out !in Repr && out.Repr == {out}
      requires out.deletionTimestamp == deletionTimestamp && out.labels == labels
      requires out.annotations == annotations && out.finalizers == finalizers
      modifies out`deletionTimestamp, out`labels, out`annotations, out`finalizers, out`Repr
      ensures out in out.Repr && fresh(out.Repr - {out})
      ensures Owned(out.deletionTimestamp, out.Repr) && TimeOf(out.deletionTimestamp) == TimeOf(deletionTimestamp)
      ensures Owned(out.labels, out.Repr) && MapOf(out.labels) == MapOf(labels)
      ensures Owned(out.annotations, out.Repr) && MapOf(out.annotations) == MapOf(annotations)
      ensures Owned(out.finalizers, out.Repr) && SliceOf(out.finalizers) == SliceOf(finalizers)
    {
      if deletionTimestamp != null {
        out.deletionTimestamp := new Time(deletionTimestamp.seconds);
        out.Repr := out.Repr + {out.deletionTimestamp};
      }
      CopyMaps(out);
      if finalizers != null {
        out.finalizers := CopySlice(finalizers);
        out.Repr := out.Repr + {out.finalizers};
      }
    }

    /** A new object of equal value that shares no storage with this one. */
    method DeepCopy() returns (out: ClusterObject)
      requires Valid()
      ensures out.Valid() && fresh(out.Repr)
      ensures out.Value() == Value()
    {
      out := new ClusterObject();
      DeepCopyInto(out);
    }
  }

  // ---------- lists ----------

  ghost predicate AllValid(cs: seq<ClusterObject>)
    reads set c | c in cs
  {
    forall i :: 0 <= i < |cs| ==> cs[i].Valid()
  }

  class ClusterList {
    var resourceVersion: string
    var items: array?<ClusterObject>

    constructor (resourceVersion: string, items: array?<ClusterObject>)
      ensures this.resourceVersion == resourceVersion && this.items == items
    {
      this.resourceVersion, this.items := resourceVersion, items;
    }

    function Items(): seq<ClusterObject>
      reads this, items
    {
      if items == null then [] else items[..]
    }

    /** A new list of equal items, each in storage of its own; nil stays nil. */
    method DeepCopy() returns (out: ClusterList)
      requires AllValid(Items())
      ensures fresh(out) && out.resourceVersion == resourceVersion && out !in Storage(out.Items())
      ensures if items == null then out.items == null else fresh(out.items) && out.items !in Storage(out.Items())
      ensures Separate(out.Items()) && |out.Items()| == |Items()|
      ensures forall i :: 0 <= i < |Items()| ==>
        fresh(out.Items()[i].Repr) && out.Items()[i].Value() == Items()[i].Value()
    {
      if items == null {
        out := new ClusterList(resourceVersion, null);
      } else {
        var copies := CopyItems(items);
        out := new ClusterList(resourceVersion, copies);
      }
    }
  }

  /** Valid objects no two of which share storage. */
  ghost predicate Separate(cs: seq<ClusterObject>)
    reads set c | c in cs
  {
    && (forall i :: 0 <= i < |cs| ==> cs[i].Valid())
    && (forall i, j :: 0 <= i < j < |cs| ==> cs[i].Repr !! cs[j].Repr)
  }

  /** The storage behind the items. */
  ghost function Storage(cs: seq<ClusterObject>): set<object>
    reads set c | c in cs
  {
    set i, o | 0 <= i < |cs| && o in cs[i].Repr :: o
  }

  /** Copies element by element into newly made storage. */
  method CopyEach(items: seq<ClusterObject>) returns (copies: seq<ClusterObject>)
    requires AllValid(items)
    ensures |copies| == |items| && Separate(copies)
    ensures forall i :: 0 <= i < |items| ==> fresh(copies[i].Repr) && copies[i].Value() == items[i].Value()
  {
    copies := [];
    for i := 0 to |items|
      invariant |copies| == i && Separate(copies)
      invariant forall k :: 0 <= k < i ==> fresh(copies[k].Repr)
      invariant forall k :: 0 <= k < i ==> copies[k].Value() == items[k].Value()
    {
      var copy := items[i].DeepCopy();
      copies := copies + [copy];
    }
  }

  /** The copied `Items` slice. */
  method CopyItems(items: array<ClusterObject>) returns (copies: array<ClusterObject>)
    requires AllValid(items[..])
    ensures fresh(copies) && copies.Length == items.Length && Separate(copies[..])
    ensures copies !in Storage(copies[..])
    ensures forall i :: 0 <= i < items.Length ==> fresh(copies[i].Repr) && copies[i].Value() == items[i].Value()
  {
    var s := CopyEach(items[..]);
    copies := new ClusterObject[|s|](i requires 0 <= i < |s| => s[i]);
    assert copies[..] == s;
  }

  // ---------- independence ----------

  /** A write through an object, at any of its mutable parts. */
  datatype Write =
    | SetCondition(i: nat, condition: ConditionValue)
    | SetFinalizer(i: nat, finalizer: string)
    | SetFinalizers(finalizers: seq<string>)
    | Annotate(key: string, value: string)
    | Relabel(key: string, value: string)
    | SetApplied(config: string)
    | Touch(seconds: int)

  method WriteOnce(c: ClusterObject, w: Write)
    requires c.Valid()
    modifies c.Repr
    ensures c.Valid() && fresh(c.Repr - old(c.Repr))
  {
    match w
    case SetCondition(i, condition) =>
      if c.conditions != null && i < c.conditions.Length { c.conditions[i] := condition; }
    case SetFinalizer(i, finalizer) =>
      if c.finalizers != null && i < c.finalizers.Length { c.finalizers[i] := finalizer; }
    case SetFinalizers(finalizers) =>
      c.finalizers := new string[|finalizers|](i requires 0 <= i < |finalizers| => finalizers[i]);
      c.Repr := c.Repr + {c.finalizers};
    case Annotate(key, value) =>
      if c.annotations == null {
        c.annotations := new StringMap();
        c.Repr := c.Repr + {c.annotations};
      }
      c.annotations.entries := c.annotations.entries[key := value];
    case Relabel(key, value) =>
      if c.labels != null { c.labels.entries := c.labels.entries[key := value]; }
    case SetApplied(config) => c.applied := config;
    case Touch(seconds) =>
      if c.deletionTimestamp != null { c.deletionTimestamp.seconds := seconds; }
  }

  method WriteAll(c: ClusterObject, ws: seq<Write>)
    requires c.Valid()
    modifies c.Repr
    ensures c.Valid() && fresh(c.Repr - old(c.Repr))
  {
    for i := 0 to |ws|
      invariant c.Valid() && fresh(c.Repr - old(c.Repr))
    {
      WriteOnce(c, ws[i]);
    }
  }

  /** No sequence of writes to the copy changes the source. */
  method CopyIsIndependent(source: ClusterObject, ws: seq<Write>) returns (copy: ClusterObject)
    requires source.Valid()
    ensures unchanged(source.Repr) && source.Valid() && source.Value() == old(source.Value())
    ensures copy.Valid() && source.Repr !! copy.Repr
  {
    copy := source.DeepCopy();
    WriteAll(copy, ws);
  }

  /** A write through a list: through one of its items, or to one of its slots,
      which gets a new object or a deep copy of what another slot holds. */
  datatype ListWrite =
    | WriteItem(i: nat, write: Write)
    | NewItem(i: nat)
    | CopyItem(i: nat, j: nat)

  /** An item written through is the only one to change, and stays apart. */
  method WriteAt(items: array<ClusterObject>, i: nat, w: Write)
    requires Separate(items[..]) && i < items.Length && items !in Storage(items[..])
    modifies items[i].Repr
    ensures items[..] == old(items[..]) && Separate(items[..])
    ensures fresh(Storage(items[..]) - old(Storage(items[..]))) && items !in Storage(items[..])
  {
    ghost var cs := items[..];
    assert forall k :: 0 <= k < |cs| && k != i ==> cs[k].Repr !! cs[i].Repr && cs[k] in cs[k].Repr;
    assert items !in items[i].Repr;
    WriteOnce(items[i], w);
    assert items[..] == cs;
    assert forall k :: 0 <= k < |cs| && k != i ==> unchanged(cs[k]);
  }

  /** A new object put into a slot is apart from the other items. */
  method PutAt(items: array<ClusterObject>, i: nat, item: ClusterObject)
    requires Separate(items[..]) && i < items.Length && items !in Storage(items[..])
    requires item.Valid() && items !in item.Repr && item.Repr !! Storage(items[..])
    modifies items
    ensures items[..] == old(items[..])[i := item] && Separate(items[..])
    ensures Storage(items[..]) <= old(Storage(items[..])) + item.Repr && items !in Storage(items[..])
  {
    items[i] := item;
  }

  method WriteListOnce(items: array<ClusterObject>, w: ListWrite)
    requires Separate(items[..]) && items !in Storage(items[..])
    modifies items, Storage(items[..])
    ensures Separate(items[..]) && items !in Storage(items[..])
    ensures fresh(Storage(items[..]) - old(Storage(items[..])))
  {
    match w
    case WriteItem(i, write) =>
      if i < items.Length { WriteAt(items, i, write); }
    case NewItem(i) =>
      var item := new ClusterObject();
      if i < items.Length { PutAt(items, i, item); }
    case CopyItem(i, j) =>
      if i < items.Length && j < items.Length {
        var item := items[j].DeepCopy();
        PutAt(items, i, item);
      }
  }

  method WriteListAll(items: array<ClusterObject>, ws: seq<ListWrite>)
    requires Separate(items[..]) && items !in Storage(items[..])
    modifies items, Storage(items[..])
    ensures Separate(items[..]) && items !in Storage(items[..])
    ensures fresh(Storage(items[..]) - old(Storage(items[..])))
  {
    for k := 0 to |ws|
      invariant Separate(items[..]) && items !in Storage(items[..])
      invariant fresh(Storage(items[..]) - old(Storage(items[..])))
    {
      WriteListOnce(items, ws[k]);
    }
  }

  /** No sequence of writes to the items of a copied list, and to its slots,
      changes the source or any of its items. */
  method ListCopyIsIndependent(source: ClusterList, ws: seq<ListWrite>) returns (copy: ClusterList)
    requires AllValid(source.Items())
    ensures source.Items() == old(source.Items()) && AllValid(source.Items())
    ensures forall k :: 0 <= k < |source.Items()| ==> source.Items()[k].Value() == old(source.Items()[k].Value())
    ensures Separate(copy.Items()) && |copy.Items()| == |source.Items()|
  {
    copy := source.DeepCopy();
    if copy.items != null {
      WriteListAll(copy.items, ws);
    }
    ValuesStay(source.Items());
  }

  /** Objects whose storage was not written keep their values. */
  twostate lemma ValuesStay(cs: seq<ClusterObject>)
    requires old(AllValid(cs)) && forall i :: 0 <= i < |cs| ==> unchanged(old(cs[i].Repr))
    ensures AllValid(cs) && forall i :: 0 <= i < |cs| ==> cs[i].Value() == old(cs[i].Value())
  {
  }
}
