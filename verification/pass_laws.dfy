// What one pass can claim, whatever the outside world answered: everything a
// phase asserts is witnessed by exchanges earlier in the same pass.
module PassLaws {
  import opened Bytes
  import opened Api
  import opened Protocol
  import opened Passes
  import PullSecret
  import DockerConfig

  // -------------------------------------------------------- TargetCluster

  // The reasons after which a TargetCluster is not requeued.
  predicate Terminal<X>(status: Status<X>) {
    && !status.ready
    && StoredReason(status.conditions) in {Some(UnsupportedType), Some(MissingBYOSpec), Some(InvalidKubeconfig)}
  }

  ghost predicate TcFetched(key: Key, trace: Trace, tc: TargetCluster) {
    |trace| >= 1 && trace[0].request == GetTargetCluster(key) && trace[0].reply == FoundTargetCluster(tc) && tc.meta.key == key
  }

  // The Secret request a TargetCluster spec gives rise to.
  function SecretRequest(tc: TargetCluster): Request
    requires tc.spec.byo.Some?
  {
    GetSecret(Key(tc.meta.key.namespace, tc.spec.byo.value.name))
  }

  // The kubeconfig that a Secret holds for a TargetCluster spec.
  function KubeconfigIn(tc: TargetCluster, s: Secret): Bytes
    requires tc.spec.byo.Some?
  {
    DataAt(s, KubeconfigKey(tc.spec.byo.value))
  }

  ghost predicate ReadKubeconfig(trace: Trace, at: nat, tc: TargetCluster, kubeconfig: Bytes) {
    && |trace| > at && tc.spec.kind.BYO? && tc.spec.byo.Some?
    && trace[at].request == SecretRequest(tc) && trace[at].reply.FoundSecret?
    && kubeconfig == KubeconfigIn(tc, trace[at].reply.secret) && kubeconfig != []
  }

  ghost predicate Probed(trace: Trace, tc: TargetCluster, kubeconfig: Bytes, probe: Probe) {
    && |trace| >= 6 && ReadKubeconfig(trace, 1, tc, kubeconfig)
    && trace[2].request == ParseKubeconfig(kubeconfig) && trace[2].reply.OK?
    && trace[3].request == BuildClient(kubeconfig) && trace[3].reply.OK?
    && trace[4].request == ServerVersion(kubeconfig) && trace[4].reply == VersionIs(probe.kubernetesVersion)
    && trace[5].request == ListNodes(kubeconfig) && trace[5].reply.NodesAre?
    && probe.nodeCount == Int32(trace[5].reply.count)
  }

  // How the status a pass writes relates to the object it fetched.
  ghost predicate Rewrites<S, X>(o: Resource<S, X>, written: Resource<S, X>) {
    && written.meta == o.meta && written.spec == o.spec
    && written.status.observedGeneration == o.meta.generation
    && (Coherent(o) ==> Coherent(written))
    && ForeignIn(written.status.conditions) == ForeignIn(o.status.conditions)
  }

  // A Ready verdict rests on a complete probe of the kubeconfig named by the
  // very spec fetched; any other verdict keeps the stored probe.
  ghost predicate TcVerdict(trace: Trace, tc: TargetCluster, written: TargetCluster, onSuccess: Requeue) {
    && Rewrites(tc, written)
    && (written.status.ready ==>
          && onSuccess == AfterSuccess && |trace| == 6 && tc.spec.byo.Some? && trace[1].reply.FoundSecret?
          && Probed(trace, tc, KubeconfigIn(tc, trace[1].reply.secret), written.status.extra))
    && (!written.status.ready ==>
          && written.status.extra == tc.status.extra
          && (onSuccess == NoRequeue ==> Terminal(written.status)))
  }

  ghost predicate TcKnows(key: Key, trace: Trace, phase: TcPhase) {
    match phase
    case Fetching => trace == []
    case Working(work) =>
      && TcFetched(key, trace, work.tc) && work.tc.spec.kind.BYO? && work.tc.spec.byo.Some?
      && (match work
          case ReadingSecret(tc, ref) => |trace| == 1 && tc.spec.byo.value == ref
          case Parsing(tc, kc) => |trace| == 2 && ReadKubeconfig(trace, 1, tc, kc)
          case Building(tc, kc) =>
            |trace| == 3 && ReadKubeconfig(trace, 1, tc, kc) && trace[2].request == ParseKubeconfig(kc) && trace[2].reply.OK?
          case AskingVersion(tc, kc) =>
            && |trace| == 4 && ReadKubeconfig(trace, 1, tc, kc)
            && trace[2].request == ParseKubeconfig(kc) && trace[2].reply.OK?
            && trace[3].request == BuildClient(kc) && trace[3].reply.OK?
          case CountingNodes(tc, kc, version) =>
            && |trace| == 5 && ReadKubeconfig(trace, 1, tc, kc)
            && trace[2].request == ParseKubeconfig(kc) && trace[2].reply.OK?
            && trace[3].request == BuildClient(kc) && trace[3].reply.OK?
            && trace[4].request == ServerVersion(kc) && trace[4].reply == VersionIs(version))
    case Writing(written, onSuccess, _) =>
      && |trace| >= 1 && trace[0].reply.FoundTargetCluster?
      && TcFetched(key, trace, trace[0].reply.tc)
      && TcVerdict(trace, trace[0].reply.tc, written, onSuccess)
    case Returned(_, _) => |trace| >= 1
  }

  lemma UnavailableVerdict(tc: TargetCluster, reason: Reason, message: Message, requeue: Requeue, now: nat, trace: Trace)
    requires requeue == NoRequeue ==> reason in {UnsupportedType, MissingBYOSpec, InvalidKubeconfig}
    ensures TcVerdict(trace, tc, Report(tc, false, reason, message, now), requeue)
  {
    ReportCoherent(tc, false, reason, message, now);
  }

  lemma ReachedVerdict(tc: TargetCluster, version: string, nodes: nat, now: nat, trace: Trace, kubeconfig: Bytes)
    requires |trace| == 6 && Probed(trace, tc, kubeconfig, Probe(version, Int32(nodes)))
    ensures TcVerdict(trace, tc, Reached(tc, version, nodes, now), AfterSuccess)
  {
    ReportCoherent(tc.(status := tc.status.(extra := Probe(version, Int32(nodes)))), true, Reachable,
                   TargetReachable(nodes, version), now);
  }

  lemma TcWorkKnown(key: Key, trace: Trace, work: TcWork, e: Exchange)
    requires TcKnows(key, trace, Working(work)) && e.request == TcRequest(key, Working(work))
    ensures TcKnows(key, trace + [e], TcWorkOn(work, e.reply, e.now))
  {
    var t := trace + [e];
    assert forall i :: 0 <= i < |trace| ==> t[i] == trace[i];
    match work
    case ReadingSecret(tc, ref) =>
      UnavailableVerdict(tc, MissingSecret, SecretNotFound(Key(tc.meta.key.namespace, ref.name)), AfterError, e.now, t);
      UnavailableVerdict(tc, InvalidKubeconfig, SecretHasNoData(ref.name, KubeconfigKey(ref)), AfterError, e.now, t);
    case Parsing(tc, kc) =>
      UnavailableVerdict(tc, InvalidKubeconfig, KubeconfigInvalid(Cause(e.reply)), NoRequeue, e.now, t);
    case Building(tc, kc) =>
      UnavailableVerdict(tc, InvalidKubeconfig, CannotBuildClient(Cause(e.reply)), NoRequeue, e.now, t);
    case AskingVersion(tc, kc) =>
      UnavailableVerdict(tc, ConnectionFailed, ServerVersionFailed(Cause(e.reply)), AfterError, e.now, t);
    case CountingNodes(tc, kc, version) =>
      UnavailableVerdict(tc, ConnectionFailed, ListingNodesFailed(Cause(e.reply)), AfterError, e.now, t);
      if e.reply.NodesAre? {
        ReachedVerdict(tc, version, e.reply.count, e.now, t, kc);
      }
  }

  lemma TcStartKnown(key: Key, e: Exchange)
    requires e.request == GetTargetCluster(key) && e.reply.FoundTargetCluster? && e.reply.tc.meta.key == key
    ensures TcKnows(key, [e], TcStart(e.reply.tc, e.now))
  {
    var tc := e.reply.tc;
    if !tc.spec.kind.BYO? {
      UnavailableVerdict(tc, UnsupportedType, TypeNotImplemented(tc.spec.kind.name), NoRequeue, e.now, [e]);
    } else {
      UnavailableVerdict(tc, MissingBYOSpec, ByoMustBeSet, NoRequeue, e.now, [e]);
    }
  }

  lemma TcStepKnown(key: Key, trace: Trace, phase: TcPhase, e: Exchange)
    requires TcKnows(key, trace, phase) && TcStep(key, phase, e).Some?
    ensures TcKnows(key, trace + [e], TcStep(key, phase, e).value)
  {
    match phase
    case Fetching =>
      if e.reply.FoundTargetCluster? { TcStartKnown(key, e); }
    case Working(work) => TcWorkKnown(key, trace, work, e);
    case Writing(_, _, _) =>
  }

  // Main law of the TargetCluster pass: on every trace the pass can produce,
  // its phase is justified by that trace.
  lemma {:induction false} TcPassJustified(key: Key, trace: Trace)
    requires TcAfter(key, trace).Some?
    ensures TcKnows(key, trace, TcAfter(key, trace).value)
  {
    hide TcStep, TcVerdict, Probed, ReadKubeconfig;
    if trace != [] {
      var before, e := trace[..|trace| - 1], trace[|trace| - 1];
      TcPassJustified(key, before);
      assert trace == before + [e];
      TcStepKnown(key, before, TcAfter(key, before).value, e);
    }
  }

  // --------------------------------------------------- ClusterPrerequisites

  ghost predicate CpFetched(key: Key, trace: Trace, cp: ClusterPrerequisites) {
    |trace| >= 1 && trace[0].request == GetClusterPrerequisites(key) && trace[0].reply == FoundPrerequisites(cp) && cp.meta.key == key
  }

  ghost predicate ReadTarget(trace: Trace, cp: ClusterPrerequisites, tc: TargetCluster) {
    && |trace| >= 2 && trace[1].request == GetTargetCluster(Key(cp.meta.key.namespace, cp.spec.targetClusterRef))
    && trace[1].reply == FoundTargetCluster(tc) && tc.meta.key == trace[1].request.key
  }

  ghost predicate ReadCredentials(trace: Trace, cp: ClusterPrerequisites, creds: Credentials) {
    match cp.spec.credentialsSecretRef
    case None => creds == NO_CREDENTIALS
    case Some(name) =>
      && |trace| >= 4 && trace[3].request == GetSecret(Key(cp.meta.key.namespace, name))
      && creds == CredentialsFrom(trace[3].reply)
  }

  // Everything read before the first component is looked at.
  ghost predicate Gated(key: Key, trace: Trace, cp: ClusterPrerequisites, tc: TargetCluster, kubeconfig: Bytes, creds: Credentials) {
    && CpFetched(key, trace, cp) && ReadTarget(trace, cp, tc) && tc.status.ready
    && ReadKubeconfig(trace, 2, tc, kubeconfig) && ReadCredentials(trace, cp, creds)
  }

  // A successful Helm install or upgrade of a component.
  ghost predicate Releases(e: Exchange, c: Component) {
    && e.request.OnTarget? && e.reply.ReleaseIs?
    && (e.request.op.HelmInstall? || e.request.op.HelmUpgrade?) && e.request.op.release == ReleaseOf(c)
  }

  ghost predicate Released(trace: Trace, c: Component) {
    exists i :: 0 <= i < |trace| && Releases(trace[i], c)
  }

  lemma ReleasedAppend(trace: Trace, e: Exchange, c: Component)
    ensures Released(trace + [e], c) <==> Released(trace, c) || Releases(e, c)
  {
    var t := trace + [e];
    assert t[|trace|] == e;
    if Released(trace, c) {
      var i :| 0 <= i < |trace| && Releases(trace[i], c);
      assert t[i] == trace[i];
    }
    if Released(t, c) && !Releases(e, c) {
      var i :| 0 <= i < |t| && Releases(t[i], c);
      assert trace[i] == t[i];
    }
  }

  // The pull Secret was found with the desired payload, or written with it.
  ghost predicate Confirms(e: Exchange, kubeconfig: Bytes, job: PullSecret.Job) {
    && e.request.OnTarget? && e.request.kubeconfig == kubeconfig
    && match e.request.op
       case GetTargetSecret(ns, name) =>
         ns == job.ns && name == job.secretName && e.reply.FoundSecret? && PullSecret.Holds(e.reply.secret, job.desired)
       case CreateTargetSecret(ns, name, s) =>
         ns == job.ns && name == job.secretName && e.reply.OK? && PullSecret.Holds(s, job.desired)
       case UpdateTargetSecret(ns, name, s) =>
         ns == job.ns && name == job.secretName && e.reply.OK? && PullSecret.Holds(s, job.desired)
       case _ => false
  }

  ghost predicate PullConfirmed(trace: Trace, kubeconfig: Bytes, job: PullSecret.Job) {
    exists i :: 0 <= i < |trace| && Confirms(trace[i], kubeconfig, job)
  }

  lemma PullConfirmedAppend(trace: Trace, e: Exchange, kubeconfig: Bytes, job: PullSecret.Job)
    requires PullConfirmed(trace, kubeconfig, job) || Confirms(e, kubeconfig, job)
    ensures PullConfirmed(trace + [e], kubeconfig, job)
  {
    var t := trace + [e];
    assert t[|trace|] == e;
    if PullConfirmed(trace, kubeconfig, job) {
      var i :| 0 <= i < |trace| && Confirms(trace[i], kubeconfig, job);
      assert t[i] == trace[i];
    }
  }

  // Readiness of each component, from the spec, what was read, and whether
  // Helm succeeded for it in this pass.
  predicate CertManagerDone(spec: ClusterPrerequisitesSpec, creds: Credentials, released: bool) {
    spec.certManager.None? || !spec.certManager.value.enabled || (Usable(creds) && released)
  }

  predicate IngressBundled(spec: IngressComponent, k8sVersion: string) {
    spec.useBundled.ModeUse? || ((spec.useBundled.ModeAuto? || spec.useBundled.ModeUnset?) && HasBundledTraefik(k8sVersion))
  }

  predicate IngressDone(spec: ClusterPrerequisitesSpec, k8sVersion: string, creds: Credentials, released: bool) {
    || spec.ingress.None? || !spec.ingress.value.enabled || IngressBundled(spec.ingress.value, k8sVersion)
    || (Usable(creds) && released)
  }

  predicate LoadBalancerDone(spec: ClusterPrerequisitesSpec) {
    spec.loadBalancer.None? || spec.loadBalancer.value.kind.LBNone? || spec.loadBalancer.value.kind.LBCloud?
  }

  // The component must be installed by this operator.
  predicate Wanted(spec: ClusterPrerequisitesSpec, k8sVersion: string, c: Component) {
    match c
    case CertManager => spec.certManager.Some? && spec.certManager.value.enabled
    case Ingress =>
      spec.ingress.Some? && spec.ingress.value.enabled && !IngressBundled(spec.ingress.value, k8sVersion)
  }

  function WantedVersion(spec: ClusterPrerequisitesSpec, c: Component): string
    requires if c.CertManager? then spec.certManager.Some? else spec.ingress.Some?
  {
    if c.CertManager? then OrDefault(spec.certManager.value.version, DEFAULT_CERT_MANAGER_VERSION)
    else OrDefault(spec.ingress.value.version, DEFAULT_TRAEFIK_VERSION)
  }

  ghost predicate Base(cp: ClusterPrerequisites, copy: ClusterPrerequisites) {
    copy == WithComponents(cp, copy.status.extra)
  }

  ghost predicate Fetched(key: Key, trace: Trace) {
    |trace| >= 1 && trace[0].reply.FoundPrerequisites? && CpFetched(key, trace, trace[0].reply.cp)
  }

  ghost predicate CtxKnown(key: Key, trace: Trace, ctx: Context) {
    && Fetched(key, trace)
    && Gated(key, trace, trace[0].reply.cp, ctx.tc, ctx.kubeconfig, ctx.creds) && Base(trace[0].reply.cp, ctx.cp)
  }

  // What an installation may report: success after a successful Helm run, or
  // the step that failed.
  predicate InstallReport(s: ComponentStatus, released: bool) {
    && !s.skipped && (s.ready <==> released)
    && (if released then s.message.InstalledFromCollection?
        else s.message.PullSecretFailed? || s.message.LoadingChartFailed? || s.message.HelmFailed?)
  }

  // The status recorded for a component follows from its decision and from
  // whether Helm succeeded for it in this pass.
  predicate Outcome(d: Decision, s: ComponentStatus, released: bool) {
    match d
    case Settled(t) => s == t
    case MustInstall(_) => InstallReport(s, released)
  }

  ghost predicate CertManagerSettled(trace: Trace, ctx: Context) {
    Outcome(DecideCertManager(ctx.cp.spec.certManager, ctx.creds), ctx.cp.status.extra.certManager, Released(trace, CertManager))
  }

  ghost predicate IngressSettled(trace: Trace, ctx: Context) {
    Outcome(DecideIngress(ctx.cp.spec.ingress, ctx.tc.status.extra.kubernetesVersion, ctx.creds),
            ctx.cp.status.extra.ingress, Released(trace, Ingress))
  }

  // A component is done for the reasons it may be.
  lemma OutcomeDone(spec: ClusterPrerequisitesSpec, k8sVersion: string, creds: Credentials, s: ComponentStatus, released: bool)
    ensures Outcome(DecideCertManager(spec.certManager, creds), s, released) ==>
              (Done(s) <==> CertManagerDone(spec, creds, released))
    ensures Outcome(DecideIngress(spec.ingress, k8sVersion, creds), s, released) ==>
              (Done(s) <==> IngressDone(spec, k8sVersion, creds, released))
  {
  }

  lemma LoadBalancerSettled(spec: ClusterPrerequisitesSpec)
    ensures Done(LoadBalancerStatus(spec.loadBalancer)) <==> LoadBalancerDone(spec)
  {
  }

  // The credentials a pass worked with.
  function CredsOf(trace: Trace): Credentials
    requires |trace| >= 1 && trace[0].reply.FoundPrerequisites?
  {
    if trace[0].reply.cp.spec.credentialsSecretRef.None? || |trace| < 4 then NO_CREDENTIALS
    else CredentialsFrom(trace[3].reply)
  }

  ghost predicate ChartLoaded(trace: Trace, plan: Plan, chart: Chart) {
    Has(trace, LoadChart(ChartRefOf(plan.component), plan.version, plan.creds), ChartIs(chart))
  }

  // The last exchange was the release lookup.
  ghost predicate LookedUp(trace: Trace, plan: Plan, found: bool) {
    && |trace| >= 1
    && trace[|trace| - 1].request == OnTarget(plan.kubeconfig, HelmLookup(NamespaceOf(plan.component), ReleaseOf(plan.component)))
    && (if found then trace[|trace| - 1].reply.OK?
        else !trace[|trace| - 1].reply.OK? && IsReleaseNotFound(Cause(trace[|trace| - 1].reply)))
  }

  // The last exchange found the Secret that is about to be written back with
  // nothing but its type and payload changed.
  ghost predicate LastFound(trace: Trace, job: PullSecret.Job, kubeconfig: Bytes, s: Secret) {
    && |trace| >= 1 && trace[|trace| - 1].request == OnTarget(kubeconfig, GetTargetSecret(job.ns, job.secretName))
    && trace[|trace| - 1].reply.FoundSecret?
    && s == PullSecret.WithPayload(trace[|trace| - 1].reply.secret, job.desired)
  }

  ghost predicate InstallKnown(trace: Trace, plan: Plan, i: Install) {
    match i
    case Pulling(pull) =>
      !pull.Ended? && (pull.UpdatingSecret? ==> LastFound(trace, JobOf(plan), plan.kubeconfig, pull.secret))
    case LoadingChart => PullConfirmed(trace, plan.kubeconfig, JobOf(plan))
    case InitialisingHelm(chart) =>
      PullConfirmed(trace, plan.kubeconfig, JobOf(plan)) && ChartLoaded(trace, plan, chart)
    case LookingUpRelease(chart) =>
      PullConfirmed(trace, plan.kubeconfig, JobOf(plan)) && ChartLoaded(trace, plan, chart)
    case Installing(chart) =>
      PullConfirmed(trace, plan.kubeconfig, JobOf(plan)) && ChartLoaded(trace, plan, chart) && LookedUp(trace, plan, false)
    case Upgrading(chart) =>
      PullConfirmed(trace, plan.kubeconfig, JobOf(plan)) && ChartLoaded(trace, plan, chart) && LookedUp(trace, plan, true)
    case Finished(_) => false
  }

  ghost predicate PlanKnown(ctx: Context, plan: Plan) {
    && plan == PlanFor(plan.component, plan.version, ctx.kubeconfig, ctx.creds) && Usable(ctx.creds)
    && Wanted(ctx.cp.spec, ctx.tc.status.extra.kubernetesVersion, plan.component)
    && plan.version == WantedVersion(ctx.cp.spec, plan.component)
  }

  // A finished pass: its verdict is exactly the conjunction of the three
  // components, each component's status is the outcome of its decision, and
  // each is done for the reasons it may be.
  ghost predicate CompletedVerdict(key: Key, trace: Trace, written: ClusterPrerequisites) {
    && Fetched(key, trace) && |trace| >= 3
    && var cp := trace[0].reply.cp;
    && trace[1].reply.FoundTargetCluster? && trace[2].reply.FoundSecret?
    && var tc := trace[1].reply.tc;
    && tc.spec.byo.Some? && Rewrites(cp, written)
    && var creds := CredsOf(trace);
    && Gated(key, trace, cp, tc, KubeconfigIn(tc, trace[2].reply.secret), creds)
    && Outcome(DecideCertManager(cp.spec.certManager, creds), written.status.extra.certManager, Released(trace, CertManager))
    && Outcome(DecideIngress(cp.spec.ingress, tc.status.extra.kubernetesVersion, creds),
               written.status.extra.ingress, Released(trace, Ingress))
    && written.status.extra.loadBalancer == LoadBalancerStatus(cp.spec.loadBalancer)
    && (Done(written.status.extra.certManager) <==> CertManagerDone(cp.spec, creds, Released(trace, CertManager)))
    && (Done(written.status.extra.ingress)
        <==> IngressDone(cp.spec, tc.status.extra.kubernetesVersion, creds, Released(trace, Ingress)))
    && (Done(written.status.extra.loadBalancer) <==> LoadBalancerDone(cp.spec))
    && (written.status.ready <==> AllDone(written.status.extra))
  }

  ghost predicate CpKnows(key: Key, trace: Trace, phase: CpPhase) {
    match phase
    case Fetching => trace == []
    case Working(ReadingTarget(cp)) => |trace| == 1 && CpFetched(key, trace, cp)
    case Working(ReadingKubeconfig(cp, tc, ref)) =>
      && |trace| == 2 && CpFetched(key, trace, cp) && ReadTarget(trace, cp, tc) && tc.status.ready
      && tc.spec.kind.BYO? && tc.spec.byo == Some(ref)
    case Working(ReadingCredentials(cp, tc, kc, name)) =>
      && |trace| == 3 && CpFetched(key, trace, cp) && ReadTarget(trace, cp, tc) && tc.status.ready
      && ReadKubeconfig(trace, 2, tc, kc) && cp.spec.credentialsSecretRef == Some(name)
    case Working(InstallingComponent(ctx, plan, install)) =>
      && CtxKnown(key, trace, ctx) && PlanKnown(ctx, plan) && InstallKnown(trace, plan, install)
      && !Released(trace, Ingress)
      && (if plan.component.CertManager? then !Released(trace, CertManager) else CertManagerSettled(trace, ctx))
    case Writing(written, onSuccess, _) =>
      && Fetched(key, trace) && Rewrites(trace[0].reply.cp, written) && onSuccess != NoRequeue
      && (onSuccess == AfterError ==> !written.status.ready && written.status.extra == trace[0].reply.cp.status.extra)
      && (onSuccess == AfterSuccess ==> CompletedVerdict(key, trace, written))
    case Returned(_, _) => |trace| >= 1
  }

  lemma CtxAppend(key: Key, trace: Trace, ctx: Context, e: Exchange)
    requires CtxKnown(key, trace, ctx)
    ensures CtxKnown(key, trace + [e], ctx)
  {
    assert forall i :: 0 <= i < |trace| ==> (trace + [e])[i] == trace[i];
  }

  lemma CpUnavailableKnown(key: Key, trace: Trace, reason: Reason, message: Message, now: nat)
    requires Fetched(key, trace)
    ensures CpKnows(key, trace, Unavailable(trace[0].reply.cp, reason, message, AfterError, now))
  {
    ReportCoherent(trace[0].reply.cp, false, reason, message, now);
  }

  lemma CompletionKnown(key: Key, trace: Trace, ctx: Context, now: nat)
    requires CtxKnown(key, trace, ctx) && CertManagerSettled(trace, ctx) && IngressSettled(trace, ctx)
    ensures CpKnows(key, trace, Completion(ctx, now))
  {
    hide DockerConfig.Dockerconfigjson, DecideCertManager, DecideIngress, CertManagerDone, IngressDone, Released, SetStatusCondition, LoadBalancerStatus, LoadBalancerDone;
    OutcomeDone(ctx.cp.spec, ctx.tc.status.extra.kubernetesVersion, ctx.creds, ctx.cp.status.extra.certManager, Released(trace, CertManager));
    OutcomeDone(ctx.cp.spec, ctx.tc.status.extra.kubernetesVersion, ctx.creds, ctx.cp.status.extra.ingress, Released(trace, Ingress));
    LoadBalancerSettled(ctx.cp.spec);
    var cs := ctx.cp.status.extra.(loadBalancer := LoadBalancerStatus(ctx.cp.spec.loadBalancer));
    var cp, ready := trace[0].reply.cp, AllDone(cs);
    assert WithComponents(ctx.cp, cs) == WithComponents(cp, cs);
    ReportCoherent(WithComponents(cp, cs), ready, if ready then AllComponentsReady else ComponentsNotReady,
                   if ready then EverythingInstalled else SomethingPending, now);
  }

  lemma IngressTurnKnown(key: Key, trace: Trace, ctx: Context, now: nat)
    requires CtxKnown(key, trace, ctx) && CertManagerSettled(trace, ctx) && !Released(trace, Ingress)
    ensures CpKnows(key, trace, IngressTurn(ctx, now))
  {
    hide DockerConfig.Dockerconfigjson;
    match DecideIngress(ctx.cp.spec.ingress, ctx.tc.status.extra.kubernetesVersion, ctx.creds)
    case Settled(s) => CompletionKnown(key, trace, Recorded(ctx, Ingress, s), now);
    case MustInstall(_) =>
  }

  lemma CertManagerTurnKnown(key: Key, trace: Trace, ctx: Context, now: nat)
    requires CtxKnown(key, trace, ctx) && !Released(trace, CertManager) && !Released(trace, Ingress)
    ensures CpKnows(key, trace, CertManagerTurn(ctx, now))
  {
    hide DockerConfig.Dockerconfigjson;
    match DecideCertManager(ctx.cp.spec.certManager, ctx.creds)
    case Settled(s) => IngressTurnKnown(key, trace, Recorded(ctx, CertManager, s), now);
    case MustInstall(_) =>
  }

  lemma ReleaseNamesDiffer()
    ensures ReleaseOf(CertManager) != ReleaseOf(Ingress)
  {
    assert |ReleaseOf(CertManager)| != |ReleaseOf(Ingress)|;
  }

  lemma ComponentDoneKnown(key: Key, trace: Trace, ctx: Context, plan: Plan, s: ComponentStatus, now: nat)
    requires CtxKnown(key, trace, ctx) && PlanKnown(ctx, plan) && InstallReport(s, Released(trace, plan.component))
    requires plan.component.CertManager? ==> !Released(trace, Ingress)
    requires plan.component.Ingress? ==> CertManagerSettled(trace, ctx)
    ensures CpKnows(key, trace, AfterComponent(ctx, plan.component, s, now))
  {
    hide DockerConfig.Dockerconfigjson;
    var ctx' := Recorded(ctx, plan.component, s);
    if plan.component.CertManager? {
      IngressTurnKnown(key, trace, ctx', now);
    } else {
      CompletionKnown(key, trace, ctx', now);
    }
  }

  // The pull step ends without error only after confirming the Secret.
  lemma PullStep(job: PullSecret.Job, kubeconfig: Bytes, trace: Trace, pull: PullSecret.Pull, e: Exchange)
    requires !pull.Ended? && e.request == OnTarget(kubeconfig, PullSecret.Ask(job, pull))
    requires pull.UpdatingSecret? ==> LastFound(trace, job, kubeconfig, pull.secret)
    ensures var next := PullSecret.Continue(job, pull, e.reply);
            && (next == PullSecret.Ended(None) ==> PullConfirmed(trace + [e], kubeconfig, job))
            && (next.UpdatingSecret? ==> LastFound(trace + [e], job, kubeconfig, next.secret))
  {
    if PullSecret.Continue(job, pull, e.reply) == PullSecret.Ended(None) {
      assert Confirms(e, kubeconfig, job);
      PullConfirmedAppend(trace, e, kubeconfig, job);
    }
  }

  lemma HelmStep(trace: Trace, plan: Plan, i: Install, e: Exchange)
    requires !AtEnd(i) && !i.Pulling? && InstallKnown(trace, plan, i) && e.request == InstallRequest(plan, i)
    ensures var i' := InstallContinue(plan, i, e.reply);
            !i'.Finished? ==> InstallKnown(trace + [e], plan, i')
  {
    hide DockerConfig.Dockerconfigjson, Contains, PullSecret.Continue, PullSecret.Ask, PullConfirmed, ValuesOf;
    HasAppend(trace, e);
    PullConfirmedAppend(trace, e, plan.kubeconfig, JobOf(plan));
    assert (trace + [e])[|trace|] == e;
  }

  lemma InstallKnownStep(trace: Trace, plan: Plan, i: Install, e: Exchange)
    requires !AtEnd(i) && InstallKnown(trace, plan, i) && e.request == InstallRequest(plan, i)
    ensures var i' := InstallContinue(plan, i, e.reply);
            !i'.Finished? ==> InstallKnown(trace + [e], plan, i')
  {
    if i.Pulling? {
      PullStep(JobOf(plan), plan.kubeconfig, trace, i.pull, e);
    } else {
      HelmStep(trace, plan, i, e);
    }
  }

  // Only the Helm step of a component releases it, and then it is ready.
  lemma InstallOutcome(plan: Plan, i: Install, e: Exchange)
    requires !AtEnd(i) && e.request == InstallRequest(plan, i)
    ensures var i' := InstallContinue(plan, i, e.reply);
            && (i'.Finished? ==> InstallReport(i'.status, Releases(e, plan.component)))
            && (!i'.Finished? ==> !Releases(e, plan.component))
            && (forall c :: c != plan.component ==> !Releases(e, c))
  {
    ReleaseNamesDiffer();
  }

  lemma CpInstallKnown(key: Key, trace: Trace, ctx: Context, plan: Plan, i: Install, e: Exchange)
    requires CpKnows(key, trace, Working(InstallingComponent(ctx, plan, i))) && !AtEnd(i)
    requires e.request == InstallRequest(plan, i)
    ensures CpKnows(key, trace + [e], CpWorkOn(InstallingComponent(ctx, plan, i), e.reply, e.now))
  {
    hide DockerConfig.Dockerconfigjson;
    var t := trace + [e];
    var i' := InstallContinue(plan, i, e.reply);
    CtxAppend(key, trace, ctx, e);
    ReleasedAppend(trace, e, CertManager);
    ReleasedAppend(trace, e, Ingress);
    InstallOutcome(plan, i, e);
    InstallKnownStep(trace, plan, i, e);
    if i'.Finished? {
      ComponentDoneKnown(key, t, ctx, plan, i'.status, e.now);
    }
  }

  lemma CpTargetKnown(key: Key, trace: Trace, cp: ClusterPrerequisites, e: Exchange)
    requires CpKnows(key, trace, Working(ReadingTarget(cp)))
    requires e.request == CpRequest(key, Working(ReadingTarget(cp))) && Fits(e.request, e.reply)
    ensures CpKnows(key, trace + [e], CpWorkOn(ReadingTarget(cp), e.reply, e.now))
  {
    hide DockerConfig.Dockerconfigjson;
    var t := trace + [e];
    assert t[0] == trace[0] && t[1] == e;
    CpUnavailableKnown(key, t, MissingTargetCluster, TargetNotFound(Key(cp.meta.key.namespace, cp.spec.targetClusterRef)), e.now);
    if e.reply.FoundTargetCluster? {
      CpUnavailableKnown(key, t, TargetClusterNotReady, TargetNotReady(e.reply.tc.meta.key.name), e.now);
      CpUnavailableKnown(key, t, MissingKubeconfig, TargetNotByo(e.reply.tc.meta.key.name), e.now);
    }
  }

  lemma CpKubeconfigKnown(key: Key, trace: Trace, cp: ClusterPrerequisites, tc: TargetCluster, ref: KubeconfigSecretRef, e: Exchange)
    requires CpKnows(key, trace, Working(ReadingKubeconfig(cp, tc, ref)))
    requires e.request == CpRequest(key, Working(ReadingKubeconfig(cp, tc, ref)))
    ensures CpKnows(key, trace + [e], CpWorkOn(ReadingKubeconfig(cp, tc, ref), e.reply, e.now))
  {
    hide DockerConfig.Dockerconfigjson;
    var t := trace + [e];
    assert t[0] == trace[0] && t[1] == trace[1] && t[2] == e;
    CpUnavailableKnown(key, t, MissingKubeconfig, KubeconfigUnreadable(ref.name, Cause(e.reply)), e.now);
    CpUnavailableKnown(key, t, MissingKubeconfig, SecretHasNoData(ref.name, KubeconfigKey(ref)), e.now);
    if e.reply.FoundSecret? && cp.spec.credentialsSecretRef.None? && DataAt(e.reply.secret, KubeconfigKey(ref)) != [] {
      NothingReleasedYet(t);
      CertManagerTurnKnown(key, t, Context(cp, tc, DataAt(e.reply.secret, KubeconfigKey(ref)), NO_CREDENTIALS), e.now);
    }
  }

  lemma CpCredentialsKnown(key: Key, trace: Trace, cp: ClusterPrerequisites, tc: TargetCluster, kc: Bytes, name: string, e: Exchange)
    requires CpKnows(key, trace, Working(ReadingCredentials(cp, tc, kc, name)))
    requires e.request == CpRequest(key, Working(ReadingCredentials(cp, tc, kc, name)))
    ensures CpKnows(key, trace + [e], CpWorkOn(ReadingCredentials(cp, tc, kc, name), e.reply, e.now))
  {
    hide DockerConfig.Dockerconfigjson;
    var t := trace + [e];
    assert t[0] == trace[0] && t[1] == trace[1] && t[2] == trace[2] && t[3] == e;
    NothingReleasedYet(t);
    CertManagerTurnKnown(key, t, Context(cp, tc, kc, CredentialsFrom(e.reply)), e.now);
  }

  lemma NothingReleasedYet(trace: Trace)
    requires |trace| <= 4 && forall i :: 0 <= i < |trace| ==> !trace[i].request.OnTarget?
    ensures !Released(trace, CertManager) && !Released(trace, Ingress)
  {
  }

  lemma CpWorkKnown(key: Key, trace: Trace, work: CpWork, e: Exchange)
    requires CpKnows(key, trace, Working(work)) && Proper(Working(work))
    requires e.request == CpRequest(key, Working(work)) && Fits(e.request, e.reply)
    ensures CpKnows(key, trace + [e], CpWorkOn(work, e.reply, e.now))
  {
    hide DockerConfig.Dockerconfigjson;
    match work
    case ReadingTarget(cp) => CpTargetKnown(key, trace, cp, e);
    case ReadingKubeconfig(cp, tc, ref) => CpKubeconfigKnown(key, trace, cp, tc, ref, e);
    case ReadingCredentials(cp, tc, kc, name) => CpCredentialsKnown(key, trace, cp, tc, kc, name, e);
    case InstallingComponent(ctx, plan, i) => CpInstallKnown(key, trace, ctx, plan, i, e);
  }

  lemma CpStepKnown(key: Key, trace: Trace, phase: CpPhase, e: Exchange)
    requires CpKnows(key, trace, phase) && Proper(phase) && CpStep(key, phase, e).Some?
    ensures CpKnows(key, trace + [e], CpStep(key, phase, e).value)
  {
    hide DockerConfig.Dockerconfigjson;
    match phase
    case Fetching =>
    case Working(work) => CpWorkKnown(key, trace, work, e);
    case Writing(_, _, _) =>
  }

  // Main law of the ClusterPrerequisites pass.
  lemma {:induction false} CpPassJustified(key: Key, trace: Trace)
    requires CpAfter(key, trace).Some?
    ensures CpKnows(key, trace, CpAfter(key, trace).value)
  {
    hide DockerConfig.Dockerconfigjson;
    if trace != [] {
      var before, e := trace[..|trace| - 1], trace[|trace| - 1];
      CpPassJustified(key, before);
      assert trace == before + [e];
      CpStepKnown(key, before, CpAfter(key, before).value, e);
    }
  }
}
