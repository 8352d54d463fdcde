// The generated deep copy of RancherManagerList: a nested struct with two
// pointers of its own, and a status with two slices.
module DeepCopyManager {
  import opened Bytes
  import opened DeepCopy

  // --------------------------------------------------------- shapes of structs

  datatype LetsEncrypt = LetsEncrypt(email: string, environment: string)
  datatype RancherTLS<E, R> = RancherTLS(source: string, letsEncrypt: E, secret: R)
  datatype ManagerSpec<R, T> = ManagerSpec(
    targetClusterRef: string, prerequisitesRef: R, version: string, hostname: string, tls: T,
    bootstrapPassword: (string, string), ingressClass: string, replicas: int)
  datatype ManagerStatus<U, A> = ManagerStatus(
    phase: string, installedVersion: string, availableUpgrades: U, url: string, observedGeneration: nat, conditions: A)

  // In memory.
  type TlsIn = RancherTLS<Cell?<LetsEncrypt>, Cell?<string>>
  type ManagerSpecIn = ManagerSpec<Cell?<string>, TlsIn>
  type ManagerStatusIn = ManagerStatus<array?<string>, array?<Condition>>
  type RancherManager = Item<MetaIn, ManagerSpecIn, ManagerStatusIn>
  type RancherManagerList = List<array?<RancherManager>>

  // As values.
  type TlsValue = RancherTLS<Option<LetsEncrypt>, Option<string>>
  type ManagerSpecValue = ManagerSpec<Option<string>, TlsValue>
  type ManagerStatusValue = ManagerStatus<Option<seq<string>>, Option<seq<Condition>>>
  type ManagerValue = Item<MetaValue, ManagerSpecValue, ManagerStatusValue>

  // -------------------------------------------------- reading, and footprints

  ghost function TlsCells(t: TlsIn): set<object> { CellOf(t.letsEncrypt) + CellOf(t.secret) }

  ghost function TlsOf(t: TlsIn): TlsValue
    reads TlsCells(t)
  {
    RancherTLS(t.source, Deref(t.letsEncrypt), Deref(t.secret))
  }

  ghost function ManagerSpecCells(s: ManagerSpecIn): set<object> { CellOf(s.prerequisitesRef) + TlsCells(s.tls) }

  ghost function ManagerSpecOf(s: ManagerSpecIn): ManagerSpecValue
    reads ManagerSpecCells(s)
  {
    ManagerSpec(s.targetClusterRef, Deref(s.prerequisitesRef), s.version, s.hostname, TlsOf(s.tls),
                s.bootstrapPassword, s.ingressClass, s.replicas)
  }

  ghost function ManagerStatusCells(s: ManagerStatusIn): set<object> { ArrayOf(s.availableUpgrades) + ArrayOf(s.conditions) }

  ghost function ManagerStatusOf(s: ManagerStatusIn): ManagerStatusValue
    reads ManagerStatusCells(s)
  {
    ManagerStatus(s.phase, s.installedVersion, SliceOf(s.availableUpgrades), s.url, s.observedGeneration, SliceOf(s.conditions))
  }

  ghost function ManagerCells(m: RancherManager): set<object> {
    CellOf(m.meta.labels) + ManagerSpecCells(m.spec) + ManagerStatusCells(m.status)
  }

  ghost function ManagerOf(m: RancherManager): ManagerValue
    reads ManagerCells(m)
  {
    Item(MetaOf(m.meta), ManagerSpecOf(m.spec), ManagerStatusOf(m.status))
  }

  // ------------------------------------------------------------ DeepCopyInto

  method CopyTls(t: TlsIn) returns (out: TlsIn)
    ensures TlsOf(out) == TlsOf(t) && fresh(TlsCells(out))
  {
    out := t;
    var letsEncrypt := CopyPointer(t.letsEncrypt);
    var secret := CopyPointer(t.secret);
    out := out.(letsEncrypt := letsEncrypt, secret := secret);
  }

  method CopyManagerSpec(s: ManagerSpecIn) returns (out: ManagerSpecIn)
    ensures ManagerSpecOf(out) == ManagerSpecOf(s) && fresh(ManagerSpecCells(out))
  {
    out := s;
    var prerequisitesRef := CopyPointer(s.prerequisitesRef);
    var tls := CopyTls(s.tls);
    out := out.(prerequisitesRef := prerequisitesRef, tls := tls);
  }

  method CopyManagerStatus(s: ManagerStatusIn) returns (out: ManagerStatusIn)
    ensures ManagerStatusOf(out) == ManagerStatusOf(s) && fresh(ManagerStatusCells(out))
  {
    out := s;
    var availableUpgrades := CopySlice(s.availableUpgrades);
    var conditions := CopySlice(s.conditions);
    out := out.(availableUpgrades := availableUpgrades, conditions := conditions);
  }

  method CopyManager(m: RancherManager) returns (out: RancherManager)
    ensures ManagerOf(out) == ManagerOf(m) && fresh(ManagerCells(out))
  {
    out := m;
    var meta := CopyMeta(m.meta);
    var spec := CopyManagerSpec(m.spec);
    var status := CopyManagerStatus(m.status);
    out := Item(meta, spec, status);
  }

  // Nil and empty slices are different, and items are compared through all
  // their pointers.
  ghost predicate SameManagers(a: RancherManagerList, b: RancherManagerList)
    reads *
  {
    && a.resourceVersion == b.resourceVersion
    && (a.items == null <==> b.items == null)
    && (a.items != null ==>
          && a.items.Length == b.items.Length
          && forall i :: 0 <= i < a.items.Length ==> ManagerOf(a.items[i]) == ManagerOf(b.items[i]))
  }

  // Every mutable cell a list can reach.
  ghost predicate ReachesManager(l: RancherManagerList, o: object)
    reads *
  {
    l.items != null && (o == l.items || exists i :: 0 <= i < l.items.Length && o in ManagerCells(l.items[i]))
  }

  // No item of a range of the array has `a` among its cells.
  ghost predicate ManagersApart(src: array<RancherManager>, n: nat, a: array<RancherManager>)
    requires n <= src.Length
    reads src
  {
    forall j :: 0 <= j < n ==> a !in ManagerCells(src[j])
  }

  // Whatever an item in an array reaches is allocated.
  lemma ManagersAllocated(a: array<RancherManager>, n: nat)
    requires n <= a.Length
    ensures forall j, o :: 0 <= j < n && o in ManagerCells(a[j]) ==> allocated(o)
    ensures forall j :: 0 <= j < n ==> allocated(a[j])
  {
  }

  // (*out)[i] = c
  method StoreManager(items: array<RancherManager>, i: nat, c: RancherManager, src: array<RancherManager>)
    requires i < items.Length <= src.Length && items != src && items !in ManagerCells(c)
    requires ManagersApart(items, i, items) && ManagersApart(src, src.Length, items)
    modifies items
    ensures ManagersApart(items, i + 1, items) && ManagersApart(src, src.Length, items)
    ensures items[i] == c && ManagerOf(items[i]) == old(ManagerOf(c))
    ensures forall j :: 0 <= j < i ==> items[j] == old(items[j]) && ManagerOf(items[j]) == old(ManagerOf(items[j]))
    ensures forall j :: 0 <= j < src.Length ==> ManagerOf(src[j]) == old(ManagerOf(src[j]))
  {
    hide ManagerOf, ManagerCells;
    items[i] := c;
  }

  method ManagerForSlot(items: array<RancherManager>, i: nat, src: array<RancherManager>) returns (c: RancherManager)
    requires i < items.Length == src.Length && ManagersApart(items, i, items) && ManagersApart(src, src.Length, items)
    ensures ManagerOf(c) == old(ManagerOf(src[i])) && fresh(ManagerCells(c)) && items !in ManagerCells(c)
    ensures forall j :: 0 <= j < i ==> ManagerOf(items[j]) == old(ManagerOf(items[j]))
    ensures forall j :: 0 <= j < src.Length ==> ManagerOf(src[j]) == old(ManagerOf(src[j]))
  {
    hide ManagerOf, ManagerCells;
    ManagersAllocated(items, i);
    ManagersAllocated(src, src.Length);
    c := CopyManager(src[i]);
  }

  // make([]T, len(src))
  method NewManagers(src: array<RancherManager>) returns (items: array<RancherManager>)
    ensures items.Length == src.Length && fresh(items) && ManagersApart(src, src.Length, items)
    ensures forall j :: 0 <= j < src.Length ==> ManagerOf(src[j]) == old(ManagerOf(src[j]))
  {
    hide ManagerOf, ManagerCells;
    ManagersAllocated(src, src.Length);
    items := new RancherManager[src.Length](_ => ZERO_MANAGER);
  }

  method CopyManagers(src: array<RancherManager>) returns (items: array<RancherManager>)
    ensures items.Length == src.Length && fresh(items)
    ensures forall j :: 0 <= j < src.Length ==> ManagerOf(items[j]) == ManagerOf(src[j]) && fresh(ManagerCells(items[j]))
  {
    hide ManagerOf, ManagerCells;
    items := NewManagers(src);
    for i := 0 to src.Length
      invariant items.Length == src.Length && fresh(items) && ManagersApart(items, i, items) && ManagersApart(src, src.Length, items)
      invariant forall j :: 0 <= j < src.Length ==> ManagerOf(src[j]) == old(ManagerOf(src[j]))
      invariant forall j :: 0 <= j < i ==> ManagerOf(items[j]) == old(ManagerOf(src[j])) && fresh(ManagerCells(items[j]))
    {
      var c := ManagerForSlot(items, i, src);
      StoreManager(items, i, c, src);
    }
  }

  // The copy is structurally equal to the source and shares no mutable cell
  // with it, for lists of any length.
  method CopyManagerList(l: RancherManagerList) returns (out: RancherManagerList)
    ensures SameManagers(l, out)
    ensures forall o :: ReachesManager(out, o) ==> fresh(o) && !ReachesManager(l, o)
  {
    hide ManagerOf, ManagerCells;
    out := l;
    if l.items != null {
      ManagersAllocated(l.items, l.items.Length);
      var items := CopyManagers(l.items);
      out := out.(items := items);
    }
  }

  const ZERO_MANAGER: RancherManager := Item(ObjectMeta("", 0, "", null),
    ManagerSpec("", null, "", "", RancherTLS("", null, null), ("", ""), "", 0), ManagerStatus("", "", null, "", 0, null))
}
