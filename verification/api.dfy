// The custom resources of the operator and the way their status is reported.
module Api {
  import opened Bytes

  datatype Key = Key(namespace: string, name: string)

  // The metadata the API server maintains: generation counts spec changes,
  // resourceVersion identifies one stored version.
  datatype Meta = Meta(key: Key, uid: nat, generation: nat, resourceVersion: nat)

  // ------------------------------------------------------------- conditions

  datatype ConditionType = Available | OtherType(name: string)
  datatype ConditionStatus = ConditionTrue | ConditionFalse | ConditionUnknown

  datatype Reason =
    | Reachable | MissingBYOSpec | UnsupportedType | MissingSecret | InvalidKubeconfig | ConnectionFailed
    | AllComponentsReady | ComponentsNotReady | MissingTargetCluster | TargetClusterNotReady | MissingKubeconfig
    | OtherReason(text: string)

  // An error: what was being done, and the cause reported by the callee.
  datatype Fault = Fault(doing: string, cause: string)

  // Message texts, each determined by the data it is formatted from.
  datatype Message =
    | NoMessage
    | TypeNotImplemented(kind: string) | ByoMustBeSet
    | SecretNotFound(key: Key) | SecretHasNoData(name: string, dataKey: string)
    | KubeconfigInvalid(cause: string) | CannotBuildClient(cause: string)
    | ServerVersionFailed(cause: string) | ListingNodesFailed(cause: string)
    | TargetReachable(nodes: nat, version: string)
    | TargetNotFound(key: Key) | TargetNotReady(name: string) | TargetNotByo(name: string)
    | KubeconfigUnreadable(name: string, cause: string)
    | EverythingInstalled | SomethingPending
    | ComponentNotSet | ComponentDisabled | MissingCreds
    | PullSecretFailed(fault: Fault) | LoadingChartFailed(cause: string) | HelmFailed(fault: Fault)
    | InstalledFromCollection | UsingBundledByRequest | UsingBundledTraefik(version: string)
    | LoadBalancerNone | LoadBalancerCloud | NotImplemented
    | OtherMessage(text: string)

  datatype Condition = Condition(kind: ConditionType, status: ConditionStatus, observedGeneration: nat,
                                 reason: Reason, message: Message, lastTransitionTime: nat)

  // meta.SetStatusCondition for a condition without a time of its own: the
  // first entry of that type is updated in place, its transition time moving
  // only with its status; a new type is appended.
  function SetStatusCondition(conditions: seq<Condition>, c: Condition, now: nat): seq<Condition> {
    if conditions == [] then [c.(lastTransitionTime := now)]
    else if conditions[0].kind == c.kind then
      [c.(lastTransitionTime := if conditions[0].status == c.status then conditions[0].lastTransitionTime else now)]
      + conditions[1..]
    else [conditions[0]] + SetStatusCondition(conditions[1..], c, now)
  }

  // -------------------------------------------------------------- resources

  // What TargetCluster and ClusterPrerequisites have in common; `extra` is
  // the rest of the status.
  datatype Status<X> = Status(ready: bool, observedGeneration: nat, conditions: seq<Condition>, extra: X)
  datatype Resource<S, X> = Resource(meta: Meta, spec: S, status: Status<X>)

  datatype TargetClusterType = BYO | OtherProvisioning(name: string)
  datatype KubeconfigSecretRef = KubeconfigSecretRef(name: string, key: string)
  datatype TargetClusterSpec = TargetClusterSpec(kind: TargetClusterType, byo: Option<KubeconfigSecretRef>)

  // kubernetesVersion and nodeCount, an int32.
  datatype Probe = Probe(kubernetesVersion: string, nodeCount: int)
  type TargetCluster = Resource<TargetClusterSpec, Probe>

  datatype CertManagerComponent = CertManagerComponent(enabled: bool, version: string)
  datatype IngressBundledMode = ModeUnset | ModeAuto | ModeUse | ModeInstall | ModeOther(name: string)
  datatype IngressComponent = IngressComponent(enabled: bool, useBundled: IngressBundledMode, version: string)
  datatype LoadBalancerType = LBCloud | LBMetalLB | LBNone | LBOther(name: string)
  datatype LoadBalancerComponent = LoadBalancerComponent(kind: LoadBalancerType)

  datatype ClusterPrerequisitesSpec = ClusterPrerequisitesSpec(
    targetClusterRef: string,
    credentialsSecretRef: Option<string>,
    certManager: Option<CertManagerComponent>,
    ingress: Option<IngressComponent>,
    loadBalancer: Option<LoadBalancerComponent>)

  datatype ComponentStatus = ComponentStatus(ready: bool, skipped: bool, installedVersion: string, message: Message)
  datatype Components = Components(certManager: ComponentStatus, ingress: ComponentStatus, loadBalancer: ComponentStatus)
  type ClusterPrerequisites = Resource<ClusterPrerequisitesSpec, Components>

  const NO_COMPONENT := ComponentStatus(false, false, "", NoMessage)
  const NO_COMPONENTS := Components(NO_COMPONENT, NO_COMPONENT, NO_COMPONENT)
  const NO_PROBE := Probe("", 0)

  // isComponentDone.
  predicate Done(s: ComponentStatus) { s.ready || s.skipped }

  // Secrets; data is None for a nil map.
  datatype SecretType = DockerConfigJson | OtherSecretType(name: string)
  datatype Secret = Secret(resourceVersion: nat, kind: SecretType, data: Option<map<string, Bytes>>)

  // secret.Data[key], where a missing key reads as no bytes.
  function DataAt(s: Secret, key: string): Bytes {
    if s.data.Some? && key in s.data.value then s.data.value[key] else []
  }

  datatype Credentials = Credentials(username: Bytes, password: Bytes)
  const NO_CREDENTIALS := Credentials([], [])

  predicate Usable(c: Credentials) { c.username != [] && c.password != [] }

  // int32(n).
  function Int32(n: int): (r: int)
    ensures -0x8000_0000 <= r < 0x8000_0000
    ensures 0 <= n < 0x8000_0000 ==> r == n
    ensures (n - r) % 0x1_0000_0000 == 0
  {
    (n + 0x8000_0000) % 0x1_0000_0000 - 0x8000_0000
  }

  // ------------------------------------------------------- reporting status

  function AvailableCondition(ready: bool, generation: nat, reason: Reason, message: Message): Condition {
    Condition(Available, if ready then ConditionTrue else ConditionFalse, generation, reason, message, 0)
  }

  // The fields every exit of both controllers assigns: ready, the observed
  // generation and the Available condition.
  function Report<S, X>(o: Resource<S, X>, ready: bool, reason: Reason, message: Message, now: nat): Resource<S, X> {
    o.(status := Status(ready, o.meta.generation,
      SetStatusCondition(o.status.conditions, AvailableCondition(ready, o.meta.generation, reason, message), now),
      o.status.extra))
  }

  // ---------------------------------------------------------- coherence law

  // The Available conditions of a list.
  function AvailableIn(cs: seq<Condition>): seq<Condition> {
    if cs == [] then []
    else (if cs[0].kind.Available? then [cs[0]] else []) + AvailableIn(cs[1..])
  }

  // Conditions of other types, which other actors own.
  function ForeignIn(cs: seq<Condition>): seq<Condition> {
    if cs == [] then []
    else (if cs[0].kind.Available? then [] else [cs[0]]) + ForeignIn(cs[1..])
  }

  // What a reader of a stored resource may rely on: at most one Available
  // condition; ready holds exactly when it is there and True; both speak of
  // the same generation, which is none the object has not reached.
  ghost predicate Coherent<S, X>(o: Resource<S, X>) {
    var available := AvailableIn(o.status.conditions);
    && |available| <= 1
    && (o.status.ready <==> |available| == 1 && available[0].status.ConditionTrue?)
    && (|available| == 1 ==> available[0].observedGeneration == o.status.observedGeneration)
    && o.status.observedGeneration <= o.meta.generation
  }

  // The reason stored with the Available condition, if there is one.
  function StoredReason(cs: seq<Condition>): Option<Reason> {
    if AvailableIn(cs) == [] then None else Some(AvailableIn(cs)[0].reason)
  }

  lemma Prepend(c: Condition, rest: seq<Condition>)
    ensures AvailableIn([c] + rest) == (if c.kind.Available? then [c] else []) + AvailableIn(rest)
    ensures ForeignIn([c] + rest) == (if c.kind.Available? then [] else [c]) + ForeignIn(rest)
  {
    assert ([c] + rest)[1..] == rest;
  }

  // Setting the Available condition replaces the first one of the list or
  // adds one, and leaves every other condition alone and in order.
  lemma {:induction false} SetStatusConditionLaws(cs: seq<Condition>, c: Condition, now: nat)
    requires c.kind.Available?
    ensures ForeignIn(SetStatusCondition(cs, c, now)) == ForeignIn(cs)
    ensures AvailableIn(SetStatusCondition(cs, c, now)) == Replaced(AvailableIn(cs), c, now)
  {
    if cs == [] {
      Prepend(c.(lastTransitionTime := now), []);
    } else if cs[0].kind == c.kind {
      Prepend(c.(lastTransitionTime := if cs[0].status == c.status then cs[0].lastTransitionTime else now), cs[1..]);
      assert AvailableIn(cs)[1..] == AvailableIn(cs[1..]);
    } else {
      SetStatusConditionLaws(cs[1..], c, now);
      Prepend(cs[0], SetStatusCondition(cs[1..], c, now));
    }
  }

  // The first of a list of conditions of one type, updated by c.
  function Replaced(was: seq<Condition>, c: Condition, now: nat): seq<Condition> {
    if was == [] then [c.(lastTransitionTime := now)]
    else [c.(lastTransitionTime := if was[0].status == c.status then was[0].lastTransitionTime else now)] + was[1..]
  }

  // Every report leaves a coherent status, touches no condition of another
  // type and no other part of the object.
  lemma ReportCoherent<S, X>(o: Resource<S, X>, ready: bool, reason: Reason, message: Message, now: nat)
    ensures var r := Report(o, ready, reason, message, now);
            && (Coherent(o) ==> Coherent(r))
            && StoredReason(r.status.conditions) == Some(reason)
            && ForeignIn(r.status.conditions) == ForeignIn(o.status.conditions)
  {
    SetStatusConditionLaws(o.status.conditions, AvailableCondition(ready, o.meta.generation, reason, message), now);
  }

  lemma {:induction false} SetTwice(cs: seq<Condition>, c: Condition, t1: nat, t2: nat)
    ensures SetStatusCondition(SetStatusCondition(cs, c, t1), c, t2) == SetStatusCondition(cs, c, t1)
  {
    var r := SetStatusCondition(cs, c, t1);
    if cs != [] && cs[0].kind != c.kind {
      SetTwice(cs[1..], c, t1, t2);
      assert r[1..] == SetStatusCondition(cs[1..], c, t1);
    }
  }

  // Reporting the same outcome again, however much later, changes nothing:
  // not even the transition time.
  lemma ReportTwice<S, X>(o: Resource<S, X>, ready: bool, reason: Reason, message: Message, t1: nat, t2: nat)
    ensures Report(Report(o, ready, reason, message, t1), ready, reason, message, t2) == Report(o, ready, reason, message, t1)
  {
    SetTwice(o.status.conditions, AvailableCondition(ready, o.meta.generation, reason, message), t1, t2);
  }
}
