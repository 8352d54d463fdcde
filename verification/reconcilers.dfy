// The reconcile code itself, step by step: it mutates its own copy of the
// object and talks to the world through a client that records every
// exchange.  Each method is proved to produce exactly the exchanges, and the
// result, of the machines in passes.dfy and pull_secret.dfy.
module Reconcilers {
  import opened Bytes
  import opened Api
  import opened Protocol
  import opened Passes
  import PullSecret
  import DockerConfig

  // The outside world, as an arbitrary function of everything said so far.
  class Client {
    const oracle: (Trace, Request) -> (Reply, nat)
    var trace: Trace

    constructor (oracle: (Trace, Request) -> (Reply, nat))
      ensures trace == []
    {
      this.oracle := oracle;
      trace := [];
    }

    method Do(request: Request) returns (reply: Reply, now: nat)
      modifies this
      ensures trace == old(trace) + [Exchange(request, reply, now)]
      ensures Fits(request, reply)
    {
      var (r, t) := oracle(trace, request);
      reply := if Fits(request, r) then r else Failed("malformed reply");
      now := t;
      trace := trace + [Exchange(request, reply, now)];
    }
  }

  // A pass's own copy of the object it reconciles.
  class Copy<S, X> {
    const meta: Meta
    const spec: S
    var ready: bool
    var observedGeneration: nat
    var conditions: seq<Condition>
    var extra: X

    constructor (o: Resource<S, X>)
      ensures Value() == o
    {
      meta, spec := o.meta, o.spec;
      ready, observedGeneration := o.status.ready, o.status.observedGeneration;
      conditions, extra := o.status.conditions, o.status.extra;
    }

    function Value(): Resource<S, X>
      reads this
    {
      Resource(meta, spec, Status(ready, observedGeneration, conditions, extra))
    }

    method MarkUnavailable(reason: Reason, message: Message, now: nat)
      modifies this
      ensures Value() == Report(old(Value()), false, reason, message, now)
    {
      ready := false;
      observedGeneration := meta.generation;
      conditions := SetStatusCondition(conditions,
        Condition(Available, ConditionFalse, meta.generation, reason, message, 0), now);
    }
  }

  // A Secret fetched from a target cluster, mutated before it is sent back.
  class SecretObject {
    const resourceVersion: nat
    var kind: SecretType
    var data: Option<map<string, Bytes>>

    constructor (s: Secret)
      ensures Value() == s
    {
      resourceVersion, kind, data := s.resourceVersion, s.kind, s.data;
    }

    function Value(): Secret
      reads this
    {
      Secret(resourceVersion, kind, data)
    }
  }

  // ------------------------------------------------- EnsureImagePullSecret

  method BytesEqual(a: Bytes, b: Bytes) returns (equal: bool)
    ensures equal <==> a == b
  {
    if |a| != |b| {
      return false;
    }
    for i := 0 to |a|
      invariant a[..i] == b[..i]
    {
      if a[i] != b[i] {
        return false;
      }
    }
    assert a == a[..|a|] && b == b[..|b|];
    return true;
  }

  // One more request of the pull-Secret code, tracked against its machine.
  method PullDo(client: Client, ghost start: nat, ghost job: PullSecret.Job, kubeconfig: Bytes, ghost pull: PullSecret.Pull,
                op: TargetRequest) returns (reply: Reply, now: nat)
    requires start <= |client.trace| && !pull.Ended? && op == PullSecret.Ask(job, pull)
    requires PullSecret.After(job, kubeconfig, client.trace[start..]) == Some(pull)
    modifies client
    ensures old(client.trace) < client.trace && now == client.trace[|client.trace| - 1].now
    ensures PullSecret.After(job, kubeconfig, client.trace[start..]) == Some(PullSecret.Continue(job, pull, reply))
  {
    ghost var seg := client.trace[start..];
    reply, now := client.Do(OnTarget(kubeconfig, op));
    ghost var e := Exchange(OnTarget(kubeconfig, op), reply, now);
    PullSecret.AfterAppend(job, kubeconfig, seg, e);
    assert client.trace[start..] == seg + [e];
  }

  method EnsureNamespace(client: Client, ghost start: nat, job: PullSecret.Job, kubeconfig: Bytes)
    returns (error: Option<Fault>, now: nat)
    requires start <= |client.trace|
    requires PullSecret.After(job, kubeconfig, client.trace[start..]) == Some(PullSecret.LookingUpNamespace)
    modifies client
    ensures old(client.trace) < client.trace && now == client.trace[|client.trace| - 1].now
    ensures PullSecret.After(job, kubeconfig, client.trace[start..])
         == Some(if error.None? then PullSecret.LookingUpSecret else PullSecret.Ended(error))
  {
    var reply;
    reply, now := PullDo(client, start, job, kubeconfig, PullSecret.LookingUpNamespace, GetNamespace(job.ns));
    if reply.OK? {
      return None, now;
    }
    if !reply.NotFound? {
      return Some(Fault("looking up namespace", Cause(reply))), now;
    }
    reply, now := PullDo(client, start, job, kubeconfig, PullSecret.CreatingNamespace, CreateNamespace(job.ns));
    if !reply.OK? && !reply.AlreadyExists? {
      return Some(Fault("creating namespace", Cause(reply))), now;
    }
    return None, now;
  }

  // The Secret exists but differs: overwrite its type and payload and send it
  // back.
  method UpdateExisting(client: Client, ghost start: nat, job: PullSecret.Job, kubeconfig: Bytes, existing: SecretObject)
    returns (error: Option<Fault>, now: nat)
    requires start <= |client.trace|
    requires PullSecret.After(job, kubeconfig, client.trace[start..])
          == Some(PullSecret.UpdatingSecret(PullSecret.WithPayload(existing.Value(), job.desired)))
    modifies client, existing
    ensures old(client.trace) < client.trace && now == client.trace[|client.trace| - 1].now
    ensures PullSecret.After(job, kubeconfig, client.trace[start..]) == Some(PullSecret.Ended(error))
    ensures existing.Value() == PullSecret.WithPayload(old(existing.Value()), job.desired)
  {
    existing.kind := DockerConfigJson;
    if existing.data.None? {
      existing.data := Some(map[]);
    }
    existing.data := Some(existing.data.value[PullSecret.PAYLOAD_KEY := job.desired]);
    var reply;
    reply, now := PullDo(client, start, job, kubeconfig, PullSecret.UpdatingSecret(existing.Value()),
                         UpdateTargetSecret(job.ns, job.secretName, existing.Value()));
    error := if reply.OK? then None else Some(Fault("updating image-pull Secret", Cause(reply)));
  }

  // Get, then create, skip or update.
  method UpsertSecret(client: Client, ghost start: nat, job: PullSecret.Job, kubeconfig: Bytes)
    returns (error: Option<Fault>, now: nat)
    requires start <= |client.trace|
    requires PullSecret.After(job, kubeconfig, client.trace[start..]) == Some(PullSecret.LookingUpSecret)
    modifies client
    ensures old(client.trace) < client.trace && now == client.trace[|client.trace| - 1].now
    ensures PullSecret.After(job, kubeconfig, client.trace[start..]) == Some(PullSecret.Ended(error))
  {
    hide PullSecret.After;
    var reply;
    reply, now := PullDo(client, start, job, kubeconfig, PullSecret.LookingUpSecret, GetTargetSecret(job.ns, job.secretName));
    if reply.NotFound? {
      reply, now := PullDo(client, start, job, kubeconfig, PullSecret.CreatingSecret,
        CreateTargetSecret(job.ns, job.secretName, Secret(0, DockerConfigJson, Some(map[PullSecret.PAYLOAD_KEY := job.desired]))));
      error := if reply.OK? then None else Some(Fault("creating image-pull Secret", Cause(reply)));
      return;
    }
    if !reply.FoundSecret? {
      return Some(Fault("looking up image-pull Secret", Cause(reply))), now;
    }
    var existing := new SecretObject(reply.secret);
    var same := BytesEqual(DataAt(existing.Value(), PullSecret.PAYLOAD_KEY), job.desired);
    if existing.kind.DockerConfigJson? && same {
      return None, now;
    }
    error, now := UpdateExisting(client, start, job, kubeconfig, existing);
  }

  method EnsureImagePullSecret(client: Client, kubeconfig: Bytes, ns: string, secretName: string, host: Bytes,
                               username: Bytes, password: Bytes) returns (error: Option<Fault>, now: nat)
    modifies client
    ensures old(client.trace) < client.trace && now == client.trace[|client.trace| - 1].now
    ensures PullSecret.After(PullSecret.Job(ns, secretName, DockerConfig.Dockerconfigjson(host, username, password)),
                             kubeconfig, client.trace[|old(client.trace)|..]) == Some(PullSecret.Ended(error))
  {
    var job := PullSecret.Job(ns, secretName, DockerConfig.Dockerconfigjson(host, username, password));
    error, now := EnsurePayload(client, job, kubeconfig);
  }

  method EnsurePayload(client: Client, job: PullSecret.Job, kubeconfig: Bytes) returns (error: Option<Fault>, now: nat)
    modifies client
    ensures old(client.trace) < client.trace && now == client.trace[|client.trace| - 1].now
    ensures PullSecret.After(job, kubeconfig, client.trace[|old(client.trace)|..]) == Some(PullSecret.Ended(error))
  {
    ghost var start := |client.trace|;
    var reply;
    reply, now := PullDo(client, start, job, kubeconfig, PullSecret.Connecting, Connect);
    if !reply.OK? {
      return Some(Fault("connecting", Cause(reply))), now;
    }
    error, now := EnsureNamespace(client, start, job, kubeconfig);
    if error.None? {
      error, now := UpsertSecret(client, start, job, kubeconfig);
    }
  }

  // ------------------------------------------------- installing a component

  // The installation machine run over a segment.
  function InstallAfter(plan: Plan, seg: Trace): Option<Install> {
    if seg == [] then Some(Pulling(PullSecret.Connecting))
    else
      match InstallAfter(plan, seg[..|seg| - 1])
      case None => None
      case Some(i) =>
        var e := seg[|seg| - 1];
        if !AtEnd(i) && e.request == InstallRequest(plan, i) then Some(InstallContinue(plan, i, e.reply)) else None
  }

  lemma InstallAfterAppend(plan: Plan, seg: Trace, e: Exchange)
    ensures InstallAfter(plan, seg + [e]) ==
      match InstallAfter(plan, seg)
      case None => None
      case Some(i) =>
        if !AtEnd(i) && e.request == InstallRequest(plan, i) then Some(InstallContinue(plan, i, e.reply)) else None
  {
    assert (seg + [e])[..|seg|] == seg;
  }

  lemma {:induction false} PullSegment(plan: Plan, seg: Trace)
    requires PullSecret.After(JobOf(plan), plan.kubeconfig, seg).Some?
    ensures InstallAfter(plan, seg) == Some(AfterPull(PullSecret.After(JobOf(plan), plan.kubeconfig, seg).value))
  {
    if seg != [] {
      PullSegment(plan, seg[..|seg| - 1]);
    }
  }

  method InstallDo(client: Client, ghost start: nat, plan: Plan, ghost i: Install, request: Request)
    returns (reply: Reply, now: nat)
    requires start <= |client.trace| && !AtEnd(i) && request == InstallRequest(plan, i)
    requires InstallAfter(plan, client.trace[start..]) == Some(i)
    modifies client
    ensures old(client.trace) < client.trace && now == client.trace[|client.trace| - 1].now
    ensures InstallAfter(plan, client.trace[start..]) == Some(InstallContinue(plan, i, reply))
  {
    ghost var seg := client.trace[start..];
    reply, now := client.Do(request);
    ghost var e := Exchange(request, reply, now);
    InstallAfterAppend(plan, seg, e);
    assert client.trace[start..] == seg + [e];
  }

  // The status of a finished Helm step.
  function HelmStatus(plan: Plan, release: Reply, error: Option<Fault>): ComponentStatus
    requires error.None? ==> release.ReleaseIs?
  {
    if error.Some? then Blocked(HelmFailed(error.value))
    else ComponentStatus(true, false, OrDefault(release.chartVersion, plan.version), InstalledFromCollection)
  }

  method RunUpgrade(client: Client, ghost start: nat, plan: Plan, chart: Chart)
    returns (release: Reply, error: Option<Fault>, now: nat)
    requires start <= |client.trace| && InstallAfter(plan, client.trace[start..]) == Some(Upgrading(chart))
    modifies client
    ensures old(client.trace) < client.trace && now == client.trace[|client.trace| - 1].now
    ensures error.None? ==> release.ReleaseIs?
    ensures InstallAfter(plan, client.trace[start..]) == Some(Finished(HelmStatus(plan, release, error)))
  {
    release, now := InstallDo(client, start, plan, Upgrading(chart),
      OnTarget(plan.kubeconfig, HelmUpgrade(NamespaceOf(plan.component), ReleaseOf(plan.component), chart, ValuesOf(plan.component))));
    error := if release.ReleaseIs? then None else Some(Fault("upgrading release", Cause(release)));
  }

  method RunInstall(client: Client, ghost start: nat, plan: Plan, chart: Chart)
    returns (release: Reply, error: Option<Fault>, now: nat)
    requires start <= |client.trace| && InstallAfter(plan, client.trace[start..]) == Some(Installing(chart))
    modifies client
    ensures old(client.trace) < client.trace && now == client.trace[|client.trace| - 1].now
    ensures error.None? ==> release.ReleaseIs?
    ensures InstallAfter(plan, client.trace[start..]) == Some(Finished(HelmStatus(plan, release, error)))
  {
    release, now := InstallDo(client, start, plan, Installing(chart),
      OnTarget(plan.kubeconfig, HelmInstall(NamespaceOf(plan.component), ReleaseOf(plan.component), chart, ValuesOf(plan.component))));
    error := if release.ReleaseIs? then None else Some(Fault("installing release", Cause(release)));
  }

  method InstallOrUpgrade(client: Client, ghost start: nat, plan: Plan, chart: Chart)
    returns (release: Reply, error: Option<Fault>, now: nat)
    requires start <= |client.trace| && InstallAfter(plan, client.trace[start..]) == Some(InitialisingHelm(chart))
    modifies client
    ensures old(client.trace) < client.trace && now == client.trace[|client.trace| - 1].now
    ensures error.None? ==> release.ReleaseIs?
    ensures InstallAfter(plan, client.trace[start..]) == Some(Finished(HelmStatus(plan, release, error)))
  {
    hide InstallAfter;
    release, now := InstallDo(client, start, plan, InitialisingHelm(chart),
      OnTarget(plan.kubeconfig, HelmInit(NamespaceOf(plan.component))));
    if !release.OK? {
      return release, Some(Fault("initialising helm configuration", Cause(release))), now;
    }
    release, now := InstallDo(client, start, plan, LookingUpRelease(chart),
      OnTarget(plan.kubeconfig, HelmLookup(NamespaceOf(plan.component), ReleaseOf(plan.component))));
    if release.OK? {
      release, error, now := RunUpgrade(client, start, plan, chart);
    } else if IsReleaseNotFound(Cause(release)) {
      release, error, now := RunInstall(client, start, plan, chart);
    } else {
      error := Some(Fault("looking up release", Cause(release)));
    }
  }

  method LoadAndRelease(client: Client, ghost start: nat, plan: Plan) returns (status: ComponentStatus, now: nat)
    requires start <= |client.trace| && InstallAfter(plan, client.trace[start..]) == Some(LoadingChart)
    modifies client
    ensures old(client.trace) < client.trace && now == client.trace[|client.trace| - 1].now
    ensures InstallAfter(plan, client.trace[start..]) == Some(Finished(status))
  {
    hide InstallAfter;
    var chart;
    chart, now := InstallDo(client, start, plan, LoadingChart, LoadChart(ChartRefOf(plan.component), plan.version, plan.creds));
    if !chart.ChartIs? {
      return Blocked(LoadingChartFailed(Cause(chart))), now;
    }
    var release, error;
    release, error, now := InstallOrUpgrade(client, start, plan, chart.chart);
    status := HelmStatus(plan, release, error);
  }

  // The common tail of reconcileCertManager and reconcileIngress.
  method InstallComponent(client: Client, plan: Plan) returns (status: ComponentStatus, now: nat)
    requires plan == PlanFor(plan.component, plan.version, plan.kubeconfig, plan.creds)
    modifies client
    ensures old(client.trace) < client.trace && now == client.trace[|client.trace| - 1].now
    ensures InstallAfter(plan, client.trace[|old(client.trace)|..]) == Some(Finished(status))
  {
    hide InstallAfter, PullSecret.After, DockerConfig.Dockerconfigjson;
    ghost var start := |client.trace|;
    var error;
    error, now := EnsureImagePullSecret(client, plan.kubeconfig, NamespaceOf(plan.component), PULL_SECRET, REGISTRY,
                                        plan.creds.username, plan.creds.password);
    PullSegment(plan, client.trace[start..]);
    if error.Some? {
      return Blocked(PullSecretFailed(error.value)), now;
    }
    status, now := LoadAndRelease(client, start, plan);
  }

  // What a component reconcile did to the trace, given its decision.
  ghost predicate Carried(decision: Decision, component: Component, kubeconfig: Bytes, creds: Credentials,
                          before: Trace, after: Trace, was: nat, status: ComponentStatus, now: nat) {
    match decision
    case Settled(s) => after == before && status == s && now == was
    case MustInstall(version) =>
      && before < after && now == after[|after| - 1].now
      && InstallAfter(PlanFor(component, version, kubeconfig, creds), after[|before|..]) == Some(Finished(status))
  }

  method ReconcileCertManager(client: Client, kubeconfig: Bytes, spec: Option<CertManagerComponent>, creds: Credentials, was: nat)
    returns (status: ComponentStatus, now: nat)
    modifies client
    ensures Carried(DecideCertManager(spec, creds), CertManager, kubeconfig, creds, old(client.trace), client.trace, was, status, now)
  {
    if spec.None? {
      return ComponentStatus(false, true, "", ComponentNotSet), was;
    }
    if !spec.value.enabled {
      return ComponentStatus(false, true, "", ComponentDisabled), was;
    }
    if creds.username == [] || creds.password == [] {
      return Blocked(MissingCreds), was;
    }
    var version := spec.value.version;
    if version == "" {
      version := DEFAULT_CERT_MANAGER_VERSION;
    }
    status, now := InstallComponent(client, PlanFor(CertManager, version, kubeconfig, creds));
  }

  method ReconcileIngress(client: Client, kubeconfig: Bytes, spec: Option<IngressComponent>, k8sVersion: string,
                          creds: Credentials, was: nat)
    returns (status: ComponentStatus, now: nat)
    modifies client
    ensures Carried(DecideIngress(spec, k8sVersion, creds), Ingress, kubeconfig, creds, old(client.trace), client.trace, was, status, now)
  {
    if spec.None? {
      return ComponentStatus(false, true, "", ComponentNotSet), was;
    }
    if !spec.value.enabled {
      return ComponentStatus(false, true, "", ComponentDisabled), was;
    }
    var mode := spec.value.useBundled;
    if mode.ModeUnset? {
      mode := ModeAuto;
    }
    if mode.ModeUse? {
      return ComponentStatus(true, true, "", UsingBundledByRequest), was;
    }
    if mode.ModeAuto? && HasBundledTraefik(k8sVersion) {
      return ComponentStatus(true, true, k8sVersion, UsingBundledTraefik(k8sVersion)), was;
    }
    if creds.username == [] || creds.password == [] {
      return Blocked(MissingCreds), was;
    }
    var version := spec.value.version;
    if version == "" {
      version := DEFAULT_TRAEFIK_VERSION;
    }
    status, now := InstallComponent(client, PlanFor(Ingress, version, kubeconfig, creds));
  }

  lemma ComponentExchange(key: Key, before: Trace, ctx: Context, plan: Plan, i: Install, e: Exchange)
    requires CpAfter(key, before) == Some(Working(InstallingComponent(ctx, plan, i))) && !AtEnd(i)
    requires e.request == InstallRequest(plan, i) && (e.request.OnTarget? || e.request.LoadChart?)
    ensures CpAfter(key, before + [e]) == Some(ComponentPhase(ctx, plan, InstallContinue(plan, i, e.reply), e.now))
  {
    CpAfterAppend(key, before, e);
  }

  function ComponentPhase(ctx: Context, plan: Plan, i: Install, now: nat): CpPhase {
    if i.Finished? then AfterComponent(ctx, plan.component, i.status, now) else Working(InstallingComponent(ctx, plan, i))
  }

  // A component's segment carries the pass's machine across.
  lemma {:induction false} ComponentSegment(key: Key, before: Trace, ctx: Context, plan: Plan, seg: Trace)
    requires CpAfter(key, before) == Some(Working(InstallingComponent(ctx, plan, Pulling(PullSecret.Connecting))))
    requires InstallAfter(plan, seg).Some? && seg != []
    requires forall i :: 0 <= i < |seg| ==> seg[i].request.OnTarget? || seg[i].request.LoadChart?
    ensures CpAfter(key, before + seg) == Some(ComponentPhase(ctx, plan, InstallAfter(plan, seg).value, seg[|seg| - 1].now))
  {
    hide CpAfter, InstallContinue, InstallRequest;
    var prefix, e := seg[..|seg| - 1], seg[|seg| - 1];
    assert before + seg == (before + prefix) + [e];
    if prefix == [] {
      assert before + prefix == before;
    } else {
      ComponentSegment(key, before, ctx, plan, prefix);
    }
    ComponentExchange(key, before + prefix, ctx, plan, InstallAfter(plan, prefix).value, e);
  }

  lemma {:induction false} SegmentRequests(plan: Plan, seg: Trace)
    requires InstallAfter(plan, seg).Some?
    ensures forall i :: 0 <= i < |seg| ==> seg[i].request.OnTarget? || seg[i].request.LoadChart?
  {
    if seg != [] {
      SegmentRequests(plan, seg[..|seg| - 1]);
    }
  }

  lemma InstalledSegment(key: Key, before: Trace, ctx: Context, plan: Plan, after: Trace, status: ComponentStatus)
    requires CpAfter(key, before) == Some(Working(InstallingComponent(ctx, plan, Pulling(PullSecret.Connecting))))
    requires before < after && InstallAfter(plan, after[|before|..]) == Some(Finished(status))
    ensures CpAfter(key, after) == Some(AfterComponent(ctx, plan.component, status, after[|after| - 1].now))
  {
    hide CpAfter, DockerConfig.Dockerconfigjson, Contains;
    var seg := after[|before|..];
    assert after == before + seg;
    SegmentRequests(plan, seg);
    ComponentSegment(key, before, ctx, plan, seg);
  }

  // ----------------------------------------------------- the two Reconciles

  method TcDo(client: Client, key: Key, ghost phase: TcPhase, request: Request) returns (reply: Reply, now: nat)
    requires !phase.Returned? && TcAfter(key, client.trace) == Some(phase) && request == TcRequest(key, phase)
    modifies client
    ensures TcAfter(key, client.trace) == Some(TcContinue(phase, reply, now))
    ensures Fits(request, reply)
  {
    ghost var before := client.trace;
    reply, now := client.Do(request);
    TcAfterAppend(key, before, Exchange(request, reply, now));
  }

  // Write the status back and hand over the requeue choice.
  method WriteStatus(client: Client, key: Key, tc: Copy<TargetClusterSpec, Probe>, onSuccess: Requeue, onFailure: Requeue)
    returns (requeue: Requeue, error: Option<Fault>)
    requires TcAfter(key, client.trace) == Some(Writing(tc.Value(), onSuccess, onFailure))
    modifies client
    ensures TcAfter(key, client.trace) == Some(Returned(requeue, error))
  {
    var reply, now := TcDo(client, key, Writing(tc.Value(), onSuccess, onFailure), UpdateTargetClusterStatus(tc.Value()));
    if reply.OK? {
      return onSuccess, None;
    }
    return onFailure, Some(Fault("updating status", Cause(reply)));
  }

  method ReconcileTargetCluster(client: Client, key: Key) returns (requeue: Requeue, error: Option<Fault>)
    requires client.trace == []
    modifies client
    ensures TcAfter(key, client.trace) == Some(Returned(requeue, error))
  {
    var reply, now := TcDo(client, key, Fetching, GetTargetCluster(key));
    if reply.NotFound? {
      return NoRequeue, None;
    }
    if !reply.FoundTargetCluster? {
      return NoRequeue, Some(Fault("fetching TargetCluster", Cause(reply)));
    }
    ghost var read := reply.tc;
    var tc := new Copy(reply.tc);
    if !tc.spec.kind.BYO? {
      tc.MarkUnavailable(UnsupportedType, TypeNotImplemented(tc.spec.kind.name), now);
      requeue, error := WriteStatus(client, key, tc, NoRequeue, NoRequeue);
      return;
    }
    if tc.spec.byo.None? {
      tc.MarkUnavailable(MissingBYOSpec, ByoMustBeSet, now);
      requeue, error := WriteStatus(client, key, tc, NoRequeue, NoRequeue);
      return;
    }
    var ref := tc.spec.byo.value;
    var dataKey := ref.key;
    if dataKey == "" {
      dataKey := DEFAULT_KUBECONFIG_KEY;
    }
    reply, now := TcDo(client, key, Working(ReadingSecret(read, ref)), GetSecret(Key(tc.meta.key.namespace, ref.name)));
    if reply.NotFound? {
      tc.MarkUnavailable(MissingSecret, SecretNotFound(Key(tc.meta.key.namespace, ref.name)), now);
      requeue, error := WriteStatus(client, key, tc, AfterError, AfterError);
      return;
    }
    if !reply.FoundSecret? {
      return NoRequeue, Some(Fault("fetching kubeconfig Secret", Cause(reply)));
    }
    var kubeconfig := DataAt(reply.secret, dataKey);
    if kubeconfig == [] {
      tc.MarkUnavailable(InvalidKubeconfig, SecretHasNoData(ref.name, dataKey), now);
      requeue, error := WriteStatus(client, key, tc, AfterError, AfterError);
      return;
    }
    requeue, error := ProbeTarget(client, key, tc, kubeconfig);
  }

  // The probe: parse the kubeconfig, build a client, ask for the version and
  // the nodes.
  method ProbeTarget(client: Client, key: Key, tc: Copy<TargetClusterSpec, Probe>, kubeconfig: Bytes)
    returns (requeue: Requeue, error: Option<Fault>)
    requires TcAfter(key, client.trace) == Some(Working(Parsing(tc.Value(), kubeconfig)))
    modifies client, tc
    ensures TcAfter(key, client.trace) == Some(Returned(requeue, error))
  {
    ghost var read := tc.Value();
    var reply, now := TcDo(client, key, Working(Parsing(read, kubeconfig)), ParseKubeconfig(kubeconfig));
    if !reply.OK? {
      tc.MarkUnavailable(InvalidKubeconfig, KubeconfigInvalid(Cause(reply)), now);
      requeue, error := WriteStatus(client, key, tc, NoRequeue, NoRequeue);
      return;
    }
    reply, now := TcDo(client, key, Working(Building(read, kubeconfig)), BuildClient(kubeconfig));
    if !reply.OK? {
      tc.MarkUnavailable(InvalidKubeconfig, CannotBuildClient(Cause(reply)), now);
      requeue, error := WriteStatus(client, key, tc, NoRequeue, NoRequeue);
      return;
    }
    reply, now := TcDo(client, key, Working(AskingVersion(read, kubeconfig)), ServerVersion(kubeconfig));
    if !reply.VersionIs? {
      tc.MarkUnavailable(ConnectionFailed, ServerVersionFailed(Cause(reply)), now);
      requeue, error := WriteStatus(client, key, tc, AfterError, AfterError);
      return;
    }
    var version := reply.version;
    reply, now := TcDo(client, key, Working(CountingNodes(read, kubeconfig, version)), ListNodes(kubeconfig));
    if !reply.NodesAre? {
      tc.MarkUnavailable(ConnectionFailed, ListingNodesFailed(Cause(reply)), now);
      requeue, error := WriteStatus(client, key, tc, AfterError, AfterError);
      return;
    }
    tc.ready := true;
    tc.extra := Probe(version, Int32(reply.count));
    tc.observedGeneration := tc.meta.generation;
    tc.conditions := SetStatusCondition(tc.conditions,
      Condition(Available, ConditionTrue, tc.meta.generation, Reachable, TargetReachable(reply.count, version), 0), now);
    requeue, error := WriteStatus(client, key, tc, AfterSuccess, NoRequeue);
  }

  method CpDo(client: Client, key: Key, ghost phase: CpPhase, request: Request) returns (reply: Reply, now: nat)
    requires !phase.Returned? && Proper(phase) && CpAfter(key, client.trace) == Some(phase) && request == CpRequest(key, phase)
    modifies client
    ensures CpAfter(key, client.trace) == Some(CpContinue(phase, reply, now))
    ensures Fits(request, reply)
  {
    ghost var before := client.trace;
    reply, now := client.Do(request);
    CpAfterAppend(key, before, Exchange(request, reply, now));
  }

  method WritePrereqStatus(client: Client, key: Key, cp: Copy<ClusterPrerequisitesSpec, Components>,
                           onSuccess: Requeue, onFailure: Requeue)
    returns (requeue: Requeue, error: Option<Fault>)
    requires CpAfter(key, client.trace) == Some(Writing(cp.Value(), onSuccess, onFailure))
    modifies client
    ensures CpAfter(key, client.trace) == Some(Returned(requeue, error))
  {
    var reply, now := CpDo(client, key, Writing(cp.Value(), onSuccess, onFailure), UpdatePrerequisitesStatus(cp.Value()));
    if reply.OK? {
      return onSuccess, None;
    }
    return onFailure, Some(Fault("updating status", Cause(reply)));
  }

  method ReconcileClusterPrerequisites(client: Client, key: Key) returns (requeue: Requeue, error: Option<Fault>)
    requires client.trace == []
    modifies client
    ensures CpAfter(key, client.trace) == Some(Returned(requeue, error))
  {
    var reply, now := CpDo(client, key, Fetching, GetClusterPrerequisites(key));
    if reply.NotFound? {
      return NoRequeue, None;
    }
    if !reply.FoundPrerequisites? {
      return NoRequeue, Some(Fault("fetching ClusterPrerequisites", Cause(reply)));
    }
    ghost var read := reply.cp;
    var cp := new Copy(reply.cp);
    var tcKey := Key(cp.meta.key.namespace, cp.spec.targetClusterRef);
    reply, now := CpDo(client, key, Working(ReadingTarget(read)), GetTargetCluster(tcKey));
    if reply.NotFound? {
      cp.MarkUnavailable(MissingTargetCluster, TargetNotFound(tcKey), now);
      requeue, error := WritePrereqStatus(client, key, cp, AfterError, AfterError);
      return;
    }
    if !reply.FoundTargetCluster? {
      return NoRequeue, Some(Fault("fetching TargetCluster", Cause(reply)));
    }
    var tc := reply.tc;
    if !tc.status.ready {
      cp.MarkUnavailable(TargetClusterNotReady, TargetNotReady(tc.meta.key.name), now);
      requeue, error := WritePrereqStatus(client, key, cp, AfterError, AfterError);
      return;
    }
    if !tc.spec.kind.BYO? || tc.spec.byo.None? {
      cp.MarkUnavailable(MissingKubeconfig, TargetNotByo(tc.meta.key.name), now);
      requeue, error := WritePrereqStatus(client, key, cp, AfterError, AfterError);
      return;
    }
    var ref := tc.spec.byo.value;
    var dataKey := ref.key;
    if dataKey == "" {
      dataKey := DEFAULT_KUBECONFIG_KEY;
    }
    reply, now := CpDo(client, key, Working(ReadingKubeconfig(read, tc, ref)), GetSecret(Key(tc.meta.key.namespace, ref.name)));
    if !reply.FoundSecret? {
      cp.MarkUnavailable(MissingKubeconfig, KubeconfigUnreadable(ref.name, Cause(reply)), now);
      requeue, error := WritePrereqStatus(client, key, cp, AfterError, AfterError);
      return;
    }
    var kubeconfig := DataAt(reply.secret, dataKey);
    if kubeconfig == [] {
      cp.MarkUnavailable(MissingKubeconfig, SecretHasNoData(ref.name, dataKey), now);
      requeue, error := WritePrereqStatus(client, key, cp, AfterError, AfterError);
      return;
    }
    var creds;
    creds, now := LoadCredentials(client, key, cp, tc, kubeconfig, now);
    requeue, error := ReconcileComponents(client, key, cp, tc, kubeconfig, creds, now);
  }

  method LoadCredentials(client: Client, key: Key, cp: Copy<ClusterPrerequisitesSpec, Components>, ghost tc: TargetCluster,
                         ghost kubeconfig: Bytes, was: nat)
    returns (creds: Credentials, now: nat)
    requires CpAfter(key, client.trace) == Some(CpKubeconfigFound(cp.Value(), tc, kubeconfig, was))
    modifies client
    ensures CpAfter(key, client.trace) == Some(CertManagerTurn(Context(cp.Value(), tc, kubeconfig, creds), now))
  {
    if cp.spec.credentialsSecretRef.None? {
      return NO_CREDENTIALS, was;
    }
    var name := cp.spec.credentialsSecretRef.value;
    var reply;
    reply, now := CpDo(client, key, Working(ReadingCredentials(cp.Value(), tc, kubeconfig, name)), GetSecret(Key(cp.meta.key.namespace, name)));
    if !reply.FoundSecret? {
      return NO_CREDENTIALS, now;
    }
    var username, password := DataAt(reply.secret, "username"), DataAt(reply.secret, "password");
    if username == [] || password == [] {
      return NO_CREDENTIALS, now;
    }
    return Credentials(username, password), now;
  }

  // From the credentials on: both components, the load balancer, the verdict.
  method ReconcileComponents(client: Client, key: Key, cp: Copy<ClusterPrerequisitesSpec, Components>, tc: TargetCluster,
                             kubeconfig: Bytes, creds: Credentials, was: nat)
    returns (requeue: Requeue, error: Option<Fault>)
    requires CpAfter(key, client.trace) == Some(CertManagerTurn(Context(cp.Value(), tc, kubeconfig, creds), was))
    modifies client, cp
    ensures CpAfter(key, client.trace) == Some(Returned(requeue, error))
  {
    ghost var before, ctx := client.trace, Context(cp.Value(), tc, kubeconfig, creds);
    var status, now := ReconcileCertManager(client, kubeconfig, cp.spec.certManager, creds, was);
    cp.extra := cp.extra.(certManager := status);
    CarriedCertManager(key, before, client.trace, ctx, was, status, now);
    assert cp.Value() == Recorded(ctx, CertManager, status).cp;
    requeue, error := ReconcileRest(client, key, cp, tc, kubeconfig, creds, now);
  }

  lemma CarriedCertManager(key: Key, before: Trace, after: Trace, ctx: Context, was: nat, status: ComponentStatus, now: nat)
    requires CpAfter(key, before) == Some(CertManagerTurn(ctx, was))
    requires Carried(DecideCertManager(ctx.cp.spec.certManager, ctx.creds), CertManager, ctx.kubeconfig, ctx.creds, before, after, was, status, now)
    ensures CpAfter(key, after) == Some(IngressTurn(Recorded(ctx, CertManager, status), now))
  {
    match DecideCertManager(ctx.cp.spec.certManager, ctx.creds)
    case Settled(_) =>
    case MustInstall(version) =>
      InstalledSegment(key, before, ctx, PlanFor(CertManager, version, ctx.kubeconfig, ctx.creds), after, status);
  }

  lemma CarriedIngress(key: Key, before: Trace, after: Trace, ctx: Context, was: nat, status: ComponentStatus, now: nat)
    requires CpAfter(key, before) == Some(IngressTurn(ctx, was))
    requires Carried(DecideIngress(ctx.cp.spec.ingress, ctx.tc.status.extra.kubernetesVersion, ctx.creds), Ingress,
                     ctx.kubeconfig, ctx.creds, before, after, was, status, now)
    ensures CpAfter(key, after) == Some(Completion(Recorded(ctx, Ingress, status), now))
  {
    match DecideIngress(ctx.cp.spec.ingress, ctx.tc.status.extra.kubernetesVersion, ctx.creds)
    case Settled(_) =>
    case MustInstall(version) =>
      InstalledSegment(key, before, ctx, PlanFor(Ingress, version, ctx.kubeconfig, ctx.creds), after, status);
  }

  method ReconcileRest(client: Client, key: Key, cp: Copy<ClusterPrerequisitesSpec, Components>, tc: TargetCluster,
                       kubeconfig: Bytes, creds: Credentials, was: nat)
    returns (requeue: Requeue, error: Option<Fault>)
    requires CpAfter(key, client.trace) == Some(IngressTurn(Context(cp.Value(), tc, kubeconfig, creds), was))
    modifies client, cp
    ensures CpAfter(key, client.trace) == Some(Returned(requeue, error))
  {
    ghost var before, ctx := client.trace, Context(cp.Value(), tc, kubeconfig, creds);
    var status, now := ReconcileIngress(client, kubeconfig, cp.spec.ingress, tc.status.extra.kubernetesVersion, creds, was);
    cp.extra := cp.extra.(ingress := status);
    CarriedIngress(key, before, client.trace, ctx, was, status, now);
    ghost var ctx' := Recorded(ctx, Ingress, status);
    assert cp.Value() == ctx'.cp;

    cp.extra := cp.extra.(loadBalancer := LoadBalancerStatus(cp.spec.loadBalancer));
    var allReady := Done(cp.extra.certManager) && Done(cp.extra.ingress) && Done(cp.extra.loadBalancer);
    cp.ready := allReady;
    cp.observedGeneration := cp.meta.generation;
    var condition := Condition(Available, ConditionFalse, cp.meta.generation, ComponentsNotReady, SomethingPending, 0);
    if allReady {
      condition := condition.(status := ConditionTrue, reason := AllComponentsReady, message := EverythingInstalled);
    }
    cp.conditions := SetStatusCondition(cp.conditions, condition, now);
    requeue, error := WritePrereqStatus(client, key, cp, AfterSuccess, NoRequeue);
  }
}
