// The generated deep copies (api/v1alpha1/zz_generated.deepcopy.go) over the
// heap: pointers are cells, slices are arrays, nil is null.  A copy starts as
// `*out = *in`, sharing everything, and then replaces each pointer and slice.
module DeepCopy {
  import opened Bytes

  class Cell<T> {
    var v: T

    constructor (v: T)
      ensures this.v == v
    {
      this.v := v;
    }
  }

  // --------------------------------------------------------- shapes of structs

  // One shape serves both the struct in memory, whose pointer fields are
  // cells, and the value it stands for, whose pointer fields are options.
  datatype ObjectMeta<L> = ObjectMeta(name: string, generation: nat, resourceVersion: string, labels: L)
  datatype MetalLBConfig = MetalLBConfig(addressPool: string, version: string)
  datatype LoadBalancer<M> = LoadBalancer(kind: string, metallb: M)
  datatype CertManager = CertManager(enabled: bool, version: string)
  datatype Ingress = Ingress(enabled: bool, kind: string, useBundled: string, version: string)
  datatype Spec<C, M, I, L> = Spec(targetClusterRef: string, credentialsRef: C, certManager: M, ingress: I, loadBalancer: L)
  datatype ComponentStatus = ComponentStatus(ready: bool, skipped: bool, installedVersion: string, message: string)
  datatype Components = Components(certManager: ComponentStatus, ingress: ComponentStatus, loadBalancer: ComponentStatus)
  datatype Condition = Condition(kind: string, status: string, observedGeneration: nat, lastTransitionTime: nat, reason: string, message: string)
  datatype Status<A> = Status(ready: bool, components: Components, observedGeneration: nat, conditions: A)
  datatype Item<O, S, T> = Item(meta: O, spec: S, status: T)
  datatype List<I> = List(resourceVersion: string, items: I)

  type Labels = map<string, string>

  // In memory.
  type MetaIn = ObjectMeta<Cell?<Labels>>
  type LoadBalancerIn = LoadBalancer<Cell?<MetalLBConfig>>
  type SpecIn = Spec<Cell?<string>, Cell?<CertManager>, Cell?<Ingress>, Cell?<LoadBalancerIn>>
  type StatusIn = Status<array?<Condition>>
  type ClusterPrerequisites = Item<MetaIn, SpecIn, StatusIn>
  type ClusterPrerequisitesList = List<array?<ClusterPrerequisites>>

  // As values.
  type MetaValue = ObjectMeta<Option<Labels>>
  type LoadBalancerValue = LoadBalancer<Option<MetalLBConfig>>
  type SpecValue = Spec<Option<string>, Option<CertManager>, Option<Ingress>, Option<LoadBalancerValue>>
  type StatusValue = Status<Option<seq<Condition>>>
  type ItemValue = Item<MetaValue, SpecValue, StatusValue>
  type ListValue = List<Option<seq<ItemValue>>>

  // -------------------------------------------------- reading, and footprints

  function Deref<T>(p: Cell?<T>): Option<T>
    reads p
  {
    if p == null then None else Some(p.v)
  }

  ghost function CellOf<T>(p: Cell?<T>): set<object> { if p == null then {} else {p} }

  function MetaOf(m: MetaIn): MetaValue
    reads m.labels
  {
    ObjectMeta(m.name, m.generation, m.resourceVersion, Deref(m.labels))
  }

  ghost function LbCells(p: Cell?<LoadBalancerIn>): set<object>
    reads p
  {
    if p == null then {} else {p} + CellOf(p.v.metallb)
  }

  ghost function LbOf(p: Cell?<LoadBalancerIn>): Option<LoadBalancerValue>
    reads p, LbCells(p)
  {
    if p == null then None else Some(LoadBalancer(p.v.kind, Deref(p.v.metallb)))
  }

  ghost function SpecCells(s: SpecIn): set<object>
    reads s.loadBalancer
  {
    CellOf(s.credentialsRef) + CellOf(s.certManager) + CellOf(s.ingress) + LbCells(s.loadBalancer)
  }

  ghost function SpecOf(s: SpecIn): SpecValue
    reads s.loadBalancer, SpecCells(s)
  {
    Spec(s.targetClusterRef, Deref(s.credentialsRef), Deref(s.certManager), Deref(s.ingress), LbOf(s.loadBalancer))
  }

  ghost function ArrayOf<T>(a: array?<T>): set<object> { if a == null then {} else {a} }

  ghost function SliceOf<T>(a: array?<T>): Option<seq<T>>
    reads a
  {
    if a == null then None else Some(a[..])
  }

  ghost function StatusOf(s: StatusIn): StatusValue
    reads s.conditions
  {
    Status(s.ready, s.components, s.observedGeneration, SliceOf(s.conditions))
  }

  ghost function ItemCells(c: ClusterPrerequisites): set<object>
    reads c.spec.loadBalancer
  {
    CellOf(c.meta.labels) + SpecCells(c.spec) + ArrayOf(c.status.conditions)
  }

  ghost function ItemOf(c: ClusterPrerequisites): ItemValue
    reads c.spec.loadBalancer, ItemCells(c)
  {
    Item(MetaOf(c.meta), SpecOf(c.spec), StatusOf(c.status))
  }

  // ------------------------------------------------------------ DeepCopyInto

  // ObjectMeta's own deep copy, from the library: equal and fresh.
  method CopyMeta(m: MetaIn) returns (out: MetaIn)
    ensures MetaOf(out) == MetaOf(m) && fresh(CellOf(out.labels))
  {
    out := m;
    if m.labels != null {
      var c := new Cell(m.labels.v);
      out := out.(labels := c);
    }
  }

  // if in != nil { *out = new(T); **out = **in }
  method CopyPointer<T>(p: Cell?<T>) returns (out: Cell?<T>)
    ensures Deref(out) == Deref(p) && fresh(CellOf(out))
  {
    out := p;
    if p != null {
      out := new Cell(p.v);
    }
  }

  method CopyLoadBalancer(p: Cell?<LoadBalancerIn>) returns (out: Cell?<LoadBalancerIn>)
    ensures LbOf(out) == LbOf(p) && fresh(LbCells(out))
  {
    out := p;
    if p != null {
      var lb := p.v;
      var metallb := CopyPointer(lb.metallb);
      lb := lb.(metallb := metallb);
      out := new Cell(lb);
    }
  }

  method CopySpec(s: SpecIn) returns (out: SpecIn)
    ensures SpecOf(out) == SpecOf(s) && fresh(SpecCells(out))
  {
    out := s;
    var credentialsRef := CopyPointer(s.credentialsRef);
    var certManager := CopyPointer(s.certManager);
    var ingress := CopyPointer(s.ingress);
    var loadBalancer := CopyLoadBalancer(s.loadBalancer);
    out := out.(credentialsRef := credentialsRef, certManager := certManager, ingress := ingress, loadBalancer := loadBalancer);
  }

  // make, then element by element.
  method CopySlice<T(0)>(a: array?<T>) returns (out: array?<T>)
    ensures SliceOf(out) == SliceOf(a) && fresh(ArrayOf(out))
  {
    if a == null {
      return null;
    }
    out := new T[a.Length];
    for i := 0 to a.Length
      invariant out != null && fresh(out) && out.Length == a.Length && out[..i] == a[..i]
    {
      out[i] := a[i];
    }
    assert out[..] == out[..a.Length] == a[..a.Length] == a[..];
  }

  method CopyStatus(s: StatusIn) returns (out: StatusIn)
    ensures StatusOf(out) == StatusOf(s) && fresh(ArrayOf(out.conditions))
  {
    out := s;
    if s.conditions != null {
      var c := CopySlice(s.conditions);
      out := out.(conditions := c);
    }
  }

  method CopyItem(c: ClusterPrerequisites) returns (out: ClusterPrerequisites)
    ensures ItemOf(out) == ItemOf(c) && fresh(ItemCells(out))
  {
    hide StatusOf, SliceOf;
    out := c;
    var meta := CopyMeta(c.meta);
    assert MetaOf(meta) == MetaOf(c.meta);
    var spec := CopySpec(c.spec);
    assert SpecOf(spec) == SpecOf(c.spec) && fresh(SpecCells(spec));
    assert MetaOf(meta) == MetaOf(c.meta) && fresh(CellOf(meta.labels));
    var status := CopyStatus(c.status);
    assert SpecOf(spec) == SpecOf(c.spec) && fresh(SpecCells(spec));
    assert MetaOf(meta) == MetaOf(c.meta) && fresh(CellOf(meta.labels));
    out := Item(meta, spec, status);
  }

  // Structural equality of two lists at one moment: nil and empty slices are
  // different, and items are compared through all their pointers.
  ghost predicate SameList(a: ClusterPrerequisitesList, b: ClusterPrerequisitesList)
    reads *
  {
    && a.resourceVersion == b.resourceVersion
    && (a.items == null <==> b.items == null)
    && (a.items != null ==>
          && a.items.Length == b.items.Length
          && forall i :: 0 <= i < a.items.Length ==> ItemOf(a.items[i]) == ItemOf(b.items[i]))
  }

  // Every mutable cell a list can reach.
  ghost predicate Reaches(l: ClusterPrerequisitesList, o: object)
    reads *
  {
    l.items != null && (o == l.items || exists i :: 0 <= i < l.items.Length && o in ItemCells(l.items[i]))
  }

  // No item in a range of the array reaches `a`.
  ghost predicate Apart(src: array<ClusterPrerequisites>, n: nat, a: array<ClusterPrerequisites>)
    requires n <= src.Length
    reads *
  {
    forall j :: 0 <= j < n ==> a !in ItemCells(src[j])
  }

  // (*out)[i] = c: writing an array that no item can reach changes no item.
  method StoreAt(items: array<ClusterPrerequisites>, i: nat, c: ClusterPrerequisites, src: array<ClusterPrerequisites>)
    requires i < items.Length <= src.Length && items != src
    requires Apart(items, i, items) && Apart(src, src.Length, items) && items !in ItemCells(c)
    modifies items
    ensures Apart(items, i + 1, items) && Apart(src, src.Length, items)
    ensures items[i] == c && ItemOf(items[i]) == old(ItemOf(c)) && ItemCells(items[i]) == old(ItemCells(c))
    ensures forall j :: 0 <= j < i ==>
      ItemOf(items[j]) == old(ItemOf(items[j])) && ItemCells(items[j]) == old(ItemCells(items[j]))
    ensures forall j :: 0 <= j < src.Length ==> ItemOf(src[j]) == old(ItemOf(src[j])) && ItemCells(src[j]) == old(ItemCells(src[j]))
  {
    hide ItemOf;
    items[i] := c;
  }

  // Whatever an item in an array reaches is allocated.
  lemma CellsAllocated(a: array<ClusterPrerequisites>, n: nat)
    requires n <= a.Length
    ensures forall j, o :: 0 <= j < n && o in ItemCells(a[j]) ==> allocated(o)
    ensures forall j :: 0 <= j < n && a[j].spec.loadBalancer != null ==> allocated(a[j].spec.loadBalancer)
    ensures forall j :: 0 <= j < n ==> allocated(a[j])
  {
  }

  method CopyItems(src: array<ClusterPrerequisites>) returns (items: array<ClusterPrerequisites>)
    ensures items.Length == src.Length && fresh(items)
    ensures forall j :: 0 <= j < src.Length ==> ItemOf(items[j]) == ItemOf(src[j]) && fresh(ItemCells(items[j]))
    ensures forall j :: 0 <= j < src.Length ==> ItemCells(src[j]) == old(ItemCells(src[j]))
  {
    hide ItemOf, ItemCells;
    items := NewItems(src);
    for i := 0 to src.Length
      invariant items.Length == src.Length && fresh(items) && Apart(items, i, items) && Apart(src, src.Length, items)
      invariant forall j :: 0 <= j < src.Length ==> ItemOf(src[j]) == old(ItemOf(src[j])) && ItemCells(src[j]) == old(ItemCells(src[j]))
      invariant forall j :: 0 <= j < i ==> ItemOf(items[j]) == old(ItemOf(src[j])) && fresh(ItemCells(items[j]))
    {
      var c := CopyForSlot(items, i, src);
      StoreAt(items, i, c, src);
    }
  }

  // make([]T, len(src)): a new array that nothing reaches yet.
  method NewItems(src: array<ClusterPrerequisites>) returns (items: array<ClusterPrerequisites>)
    ensures items.Length == src.Length && fresh(items) && Apart(src, src.Length, items)
    ensures forall j :: 0 <= j < src.Length ==> ItemOf(src[j]) == old(ItemOf(src[j])) && ItemCells(src[j]) == old(ItemCells(src[j]))
  {
    hide ItemOf, ItemCells;
    CellsAllocated(src, src.Length);
    items := new ClusterPrerequisites[src.Length](_ => ZERO_ITEM);
  }

  method CopyForSlot(items: array<ClusterPrerequisites>, i: nat, src: array<ClusterPrerequisites>) returns (c: ClusterPrerequisites)
    requires i < items.Length == src.Length && Apart(items, i, items) && Apart(src, src.Length, items)
    ensures ItemOf(c) == old(ItemOf(src[i])) && fresh(ItemCells(c)) && items !in ItemCells(c)
    ensures Apart(items, i, items) && Apart(src, src.Length, items)
    ensures forall j :: 0 <= j < i ==>
      ItemOf(items[j]) == old(ItemOf(items[j])) && ItemCells(items[j]) == old(ItemCells(items[j]))
    ensures forall j :: 0 <= j < src.Length ==> ItemOf(src[j]) == old(ItemOf(src[j])) && ItemCells(src[j]) == old(ItemCells(src[j]))
  {
    hide ItemOf, ItemCells;
    CellsAllocated(items, i);
    CellsAllocated(src, src.Length);
    c := CopyItem(src[i]);
  }

  method CopyList(l: ClusterPrerequisitesList) returns (out: ClusterPrerequisitesList)
    ensures SameList(l, out)
    ensures forall o :: Reaches(out, o) ==> fresh(o) && !Reaches(l, o)
  {
    out := l;
    if l.items != null {
      CellsAllocated(l.items, l.items.Length);
      var items := CopyItems(l.items);
      out := out.(items := items);
    }
  }

  const ZERO_COMPONENT := ComponentStatus(false, false, "", "")
  const ZERO_ITEM: ClusterPrerequisites := Item(ObjectMeta("", 0, "", null), Spec("", null, null, null, null),
    Status(false, Components(ZERO_COMPONENT, ZERO_COMPONENT, ZERO_COMPONENT), 0, null))
}
