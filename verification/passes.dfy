// One reconcile pass of each controller, as a machine that alternates a
// request with its reply (internal/controller/*.go).  The imperative code in
// reconcilers.dfy is proved to be exactly this machine.
module Passes {
  import opened Bytes
  import opened Api
  import opened Protocol
  import PullSecret
  import DockerConfig

  const DEFAULT_KUBECONFIG_KEY := "kubeconfig"
  const REGISTRY := Ascii("dp.apps.rancher.io")
  const PULL_SECRET := "application-collection"
  const DEFAULT_CERT_MANAGER_VERSION := "v1.18.2"
  const DEFAULT_TRAEFIK_VERSION := "37.0.0"

  // ------------------------------------------------------------ both passes

  function Unavailable<S, X, W>(o: Resource<S, X>, reason: Reason, message: Message, requeue: Requeue, now: nat): Phase<S, X, W> {
    Writing(Report(o, false, reason, message, now), requeue, requeue)
  }

  function Abort<S, X, W>(doing: string, reply: Reply): Phase<S, X, W> {
    Returned(NoRequeue, Some(Fault(doing, Cause(reply))))
  }

  // After the status update: its error, if any, is the error of the pass.
  function AfterWrite<S, X, W>(onSuccess: Requeue, onFailure: Requeue, reply: Reply): Phase<S, X, W> {
    if reply.OK? then Returned(onSuccess, None)
    else Returned(onFailure, Some(Fault("updating status", Cause(reply))))
  }

  function KubeconfigKey(ref: KubeconfigSecretRef): string {
    if ref.key == "" then DEFAULT_KUBECONFIG_KEY else ref.key
  }

  // ---------------------------------------------------- the TargetCluster pass

  datatype TcWork =
    | ReadingSecret(tc: TargetCluster, ref: KubeconfigSecretRef)
    | Parsing(tc: TargetCluster, kubeconfig: Bytes)
    | Building(tc: TargetCluster, kubeconfig: Bytes)
    | AskingVersion(tc: TargetCluster, kubeconfig: Bytes)
    | CountingNodes(tc: TargetCluster, kubeconfig: Bytes, version: string)

  type TcPhase = Phase<TargetClusterSpec, Probe, TcWork>

  function TcStart(tc: TargetCluster, now: nat): TcPhase {
    if !tc.spec.kind.BYO? then
      Unavailable(tc, UnsupportedType, TypeNotImplemented(tc.spec.kind.name), NoRequeue, now)
    else if tc.spec.byo.None? then Unavailable(tc, MissingBYOSpec, ByoMustBeSet, NoRequeue, now)
    else Working(ReadingSecret(tc, tc.spec.byo.value))
  }

  // The status of a successful probe.
  function Reached(tc: TargetCluster, version: string, nodes: nat, now: nat): TargetCluster {
    Report(tc.(status := tc.status.(extra := Probe(version, Int32(nodes)))), true, Reachable,
           TargetReachable(nodes, version), now)
  }

  function TcRequest(key: Key, phase: TcPhase): Request
    requires !phase.Returned?
  {
    match phase
    case Fetching => GetTargetCluster(key)
    case Working(ReadingSecret(tc, ref)) => GetSecret(Key(tc.meta.key.namespace, ref.name))
    case Working(Parsing(_, kc)) => ParseKubeconfig(kc)
    case Working(Building(_, kc)) => BuildClient(kc)
    case Working(AskingVersion(_, kc)) => ServerVersion(kc)
    case Working(CountingNodes(_, kc, _)) => ListNodes(kc)
    case Writing(tc, _, _) => UpdateTargetClusterStatus(tc)
  }

  function TcWorkOn(work: TcWork, reply: Reply, now: nat): TcPhase {
    match work
    case ReadingSecret(tc, ref) =>
      if reply.NotFound? then
        Unavailable(tc, MissingSecret, SecretNotFound(Key(tc.meta.key.namespace, ref.name)), AfterError, now)
      else if !reply.FoundSecret? then Abort("fetching kubeconfig Secret", reply)
      else
        var kc := DataAt(reply.secret, KubeconfigKey(ref));
        if kc == [] then
          Unavailable(tc, InvalidKubeconfig, SecretHasNoData(ref.name, KubeconfigKey(ref)), AfterError, now)
        else Working(Parsing(tc, kc))
    case Parsing(tc, kc) =>
      if reply.OK? then Working(Building(tc, kc))
      else Unavailable(tc, InvalidKubeconfig, KubeconfigInvalid(Cause(reply)), NoRequeue, now)
    case Building(tc, kc) =>
      if reply.OK? then Working(AskingVersion(tc, kc))
      else Unavailable(tc, InvalidKubeconfig, CannotBuildClient(Cause(reply)), NoRequeue, now)
    case AskingVersion(tc, kc) =>
      if reply.VersionIs? then Working(CountingNodes(tc, kc, reply.version))
      else Unavailable(tc, ConnectionFailed, ServerVersionFailed(Cause(reply)), AfterError, now)
    case CountingNodes(tc, kc, version) =>
      if reply.NodesAre? then Writing(Reached(tc, version, reply.count, now), AfterSuccess, NoRequeue)
      else Unavailable(tc, ConnectionFailed, ListingNodesFailed(Cause(reply)), AfterError, now)
  }

  function TcContinue(phase: TcPhase, reply: Reply, now: nat): TcPhase
    requires !phase.Returned?
  {
    match phase
    case Fetching =>
      if reply.FoundTargetCluster? then TcStart(reply.tc, now)
      else if reply.NotFound? then Returned(NoRequeue, None)
      else Abort("fetching TargetCluster", reply)
    case Working(work) => TcWorkOn(work, reply, now)
    case Writing(_, onSuccess, onFailure) => AfterWrite(onSuccess, onFailure, reply)
  }

  // The phase of the pass on `key` after a trace, if that trace is one the
  // pass can produce.
  function TcAfter(key: Key, trace: Trace): Option<TcPhase> {
    if trace == [] then Some(Fetching)
    else
      match TcAfter(key, trace[..|trace| - 1])
      case None => None
      case Some(phase) => TcStep(key, phase, trace[|trace| - 1])
  }

  function TcStep(key: Key, phase: TcPhase, e: Exchange): Option<TcPhase> {
    if !phase.Returned? && e.request == TcRequest(key, phase) && Fits(e.request, e.reply)
    then Some(TcContinue(phase, e.reply, e.now)) else None
  }

  lemma TcAfterAppend(key: Key, trace: Trace, e: Exchange)
    ensures TcAfter(key, trace + [e]) ==
      if TcAfter(key, trace).None? then None else TcStep(key, TcAfter(key, trace).value, e)
  {
    assert (trace + [e])[..|trace|] == trace;
  }

  // --------------------------------------------- the ClusterPrerequisites pass

  // strings.Contains on the version suffixes of the two distributions.
  predicate HasBundledTraefik(k8sVersion: string) {
    Contains(k8sVersion, "+k3s") || Contains(k8sVersion, "+rke2")
  }

  predicate IsReleaseNotFound(cause: string) { Contains(cause, "release: not found") }

  datatype Component = CertManager | Ingress

  function NamespaceOf(c: Component): string { if c.CertManager? then "cert-manager" else "traefik" }
  function ReleaseOf(c: Component): string { if c.CertManager? then "cert-manager" else "traefik" }
  function ChartRefOf(c: Component): string {
    if c.CertManager? then "oci://dp.apps.rancher.io/charts/cert-manager" else "oci://dp.apps.rancher.io/charts/traefik"
  }
  function ValuesOf(c: Component): HelmValues { HelmValues([PULL_SECRET], c.CertManager?) }

  datatype Decision = Settled(status: ComponentStatus) | MustInstall(version: string)

  function Skipped(message: Message): Decision { Settled(ComponentStatus(false, true, "", message)) }
  function Blocked(message: Message): ComponentStatus { ComponentStatus(false, false, "", message) }
  function OrDefault(version: string, default: string): string { if version == "" then default else version }

  // reconcileCertManager up to its first request.
  function DecideCertManager(spec: Option<CertManagerComponent>, creds: Credentials): Decision {
    if spec.None? then Skipped(ComponentNotSet)
    else if !spec.value.enabled then Skipped(ComponentDisabled)
    else if !Usable(creds) then Settled(Blocked(MissingCreds))
    else MustInstall(OrDefault(spec.value.version, DEFAULT_CERT_MANAGER_VERSION))
  }

  // reconcileIngress up to its first request.  An unknown mode installs.
  function DecideIngress(spec: Option<IngressComponent>, k8sVersion: string, creds: Credentials): Decision {
    if spec.None? then Skipped(ComponentNotSet)
    else if !spec.value.enabled then Skipped(ComponentDisabled)
    else
      var mode := if spec.value.useBundled.ModeUnset? then ModeAuto else spec.value.useBundled;
      if mode.ModeUse? then Settled(ComponentStatus(true, true, "", UsingBundledByRequest))
      else if mode.ModeAuto? && HasBundledTraefik(k8sVersion) then
        Settled(ComponentStatus(true, true, k8sVersion, UsingBundledTraefik(k8sVersion)))
      else if !Usable(creds) then Settled(Blocked(MissingCreds))
      else MustInstall(OrDefault(spec.value.version, DEFAULT_TRAEFIK_VERSION))
  }

  function LoadBalancerStatus(spec: Option<LoadBalancerComponent>): ComponentStatus {
    if spec.None? then ComponentStatus(false, true, "", ComponentNotSet)
    else match spec.value.kind
      case LBNone => ComponentStatus(false, true, "", LoadBalancerNone)
      case LBCloud => ComponentStatus(true, false, "", LoadBalancerCloud)
      case _ => Blocked(NotImplemented)
  }

  // The installation of one component: pull Secret, chart, Helm.
  datatype Install =
    | Pulling(pull: PullSecret.Pull)
    | LoadingChart
    | InitialisingHelm(chart: Chart)
    | LookingUpRelease(chart: Chart)
    | Installing(chart: Chart)
    | Upgrading(chart: Chart)
    | Finished(status: ComponentStatus)

  // What an installation needs to know; `payload` is what the pull Secret
  // has to hold.
  datatype Plan = Plan(component: Component, version: string, kubeconfig: Bytes, creds: Credentials, payload: Bytes)

  function PlanFor(component: Component, version: string, kubeconfig: Bytes, creds: Credentials): Plan {
    Plan(component, version, kubeconfig, creds, DockerConfig.Dockerconfigjson(REGISTRY, creds.username, creds.password))
  }

  function JobOf(plan: Plan): PullSecret.Job {
    PullSecret.Job(NamespaceOf(plan.component), PULL_SECRET, plan.payload)
  }

  predicate AtEnd(i: Install) { i.Finished? || (i.Pulling? && i.pull.Ended?) }

  function InstallRequest(plan: Plan, i: Install): Request
    requires !AtEnd(i)
  {
    var ns, release := NamespaceOf(plan.component), ReleaseOf(plan.component);
    match i
    case Pulling(pull) => OnTarget(plan.kubeconfig, PullSecret.Ask(JobOf(plan), pull))
    case LoadingChart => LoadChart(ChartRefOf(plan.component), plan.version, plan.creds)
    case InitialisingHelm(_) => OnTarget(plan.kubeconfig, HelmInit(ns))
    case LookingUpRelease(_) => OnTarget(plan.kubeconfig, HelmLookup(ns, release))
    case Installing(chart) => OnTarget(plan.kubeconfig, HelmInstall(ns, release, chart, ValuesOf(plan.component)))
    case Upgrading(chart) => OnTarget(plan.kubeconfig, HelmUpgrade(ns, release, chart, ValuesOf(plan.component)))
  }

  function HelmFault(doing: string, reply: Reply): Install {
    Finished(Blocked(HelmFailed(Fault(doing, Cause(reply)))))
  }

  function AfterPull(pull: PullSecret.Pull): Install {
    match pull
    case Ended(None) => LoadingChart
    case Ended(Some(fault)) => Finished(Blocked(PullSecretFailed(fault)))
    case _ => Pulling(pull)
  }

  function AfterHelm(plan: Plan, doing: string, reply: Reply): Install {
    if reply.ReleaseIs? then
      Finished(ComponentStatus(true, false, OrDefault(reply.chartVersion, plan.version), InstalledFromCollection))
    else HelmFault(doing, reply)
  }

  function InstallContinue(plan: Plan, i: Install, reply: Reply): Install
    requires !AtEnd(i)
  {
    match i
    case Pulling(pull) => AfterPull(PullSecret.Continue(JobOf(plan), pull, reply))
    case LoadingChart =>
      if reply.ChartIs? then InitialisingHelm(reply.chart) else Finished(Blocked(LoadingChartFailed(Cause(reply))))
    case InitialisingHelm(chart) =>
      if reply.OK? then LookingUpRelease(chart) else HelmFault("initialising helm configuration", reply)
    case LookingUpRelease(chart) =>
      if reply.OK? then Upgrading(chart)
      else if IsReleaseNotFound(Cause(reply)) then Installing(chart)
      else HelmFault("looking up release", reply)
    case Installing(_) => AfterHelm(plan, "installing release", reply)
    case Upgrading(_) => AfterHelm(plan, "upgrading release", reply)
  }

  // `cp` is the pass's own copy, whose status it is filling in.
  datatype Context = Context(cp: ClusterPrerequisites, tc: TargetCluster, kubeconfig: Bytes, creds: Credentials)

  datatype CpWork =
    | ReadingTarget(cp: ClusterPrerequisites)
    | ReadingKubeconfig(cp: ClusterPrerequisites, tc: TargetCluster, ref: KubeconfigSecretRef)
    | ReadingCredentials(cp: ClusterPrerequisites, tc: TargetCluster, kubeconfig: Bytes, secretName: string)
    | InstallingComponent(ctx: Context, plan: Plan, install: Install)

  type CpPhase = Phase<ClusterPrerequisitesSpec, Components, CpWork>

  // resolveTargetKubeconfig, up to reading the Secret.
  function CpTargetFound(cp: ClusterPrerequisites, tc: TargetCluster, now: nat): CpPhase {
    if !tc.status.ready then
      Unavailable(cp, TargetClusterNotReady, TargetNotReady(tc.meta.key.name), AfterError, now)
    else if !tc.spec.kind.BYO? || tc.spec.byo.None? then
      Unavailable(cp, MissingKubeconfig, TargetNotByo(tc.meta.key.name), AfterError, now)
    else Working(ReadingKubeconfig(cp, tc, tc.spec.byo.value))
  }

  function CpKubeconfigFound(cp: ClusterPrerequisites, tc: TargetCluster, kubeconfig: Bytes, now: nat): CpPhase {
    match cp.spec.credentialsSecretRef
    case None => CertManagerTurn(Context(cp, tc, kubeconfig, NO_CREDENTIALS), now)
    case Some(name) => Working(ReadingCredentials(cp, tc, kubeconfig, name))
  }

  // Any problem with the credentials Secret reads as no credentials.
  function CredentialsFrom(reply: Reply): Credentials {
    if reply.FoundSecret? && DataAt(reply.secret, "username") != [] && DataAt(reply.secret, "password") != []
    then Credentials(DataAt(reply.secret, "username"), DataAt(reply.secret, "password"))
    else NO_CREDENTIALS
  }

  function Begin(ctx: Context, component: Component, version: string): CpPhase {
    Working(InstallingComponent(ctx, PlanFor(component, version, ctx.kubeconfig, ctx.creds), Pulling(PullSecret.Connecting)))
  }

  function CertManagerTurn(ctx: Context, now: nat): CpPhase {
    match DecideCertManager(ctx.cp.spec.certManager, ctx.creds)
    case Settled(s) => IngressTurn(Recorded(ctx, CertManager, s), now)
    case MustInstall(version) => Begin(ctx, CertManager, version)
  }

  function IngressTurn(ctx: Context, now: nat): CpPhase {
    match DecideIngress(ctx.cp.spec.ingress, ctx.tc.status.extra.kubernetesVersion, ctx.creds)
    case Settled(s) => Completion(Recorded(ctx, Ingress, s), now)
    case MustInstall(version) => Begin(ctx, Ingress, version)
  }

  // cp.Status.Components.<component> = s
  function Recorded(ctx: Context, component: Component, s: ComponentStatus): Context {
    ctx.(cp := WithComponents(ctx.cp,
      if component.CertManager? then ctx.cp.status.extra.(certManager := s) else ctx.cp.status.extra.(ingress := s)))
  }

  function WithComponents(cp: ClusterPrerequisites, cs: Components): ClusterPrerequisites {
    cp.(status := cp.status.(extra := cs))
  }

  predicate AllDone(cs: Components) { Done(cs.certManager) && Done(cs.ingress) && Done(cs.loadBalancer) }

  function Completed(cp: ClusterPrerequisites, cs: Components, now: nat): ClusterPrerequisites {
    var ready := AllDone(cs);
    Report(WithComponents(cp, cs), ready, if ready then AllComponentsReady else ComponentsNotReady,
           if ready then EverythingInstalled else SomethingPending, now)
  }

  function Completion(ctx: Context, now: nat): CpPhase {
    Writing(Completed(ctx.cp, ctx.cp.status.extra.(loadBalancer := LoadBalancerStatus(ctx.cp.spec.loadBalancer)), now),
            AfterSuccess, NoRequeue)
  }

  function AfterComponent(ctx: Context, component: Component, s: ComponentStatus, now: nat): CpPhase {
    if component.CertManager? then IngressTurn(Recorded(ctx, component, s), now)
    else Completion(Recorded(ctx, component, s), now)
  }

  predicate Proper(phase: CpPhase) {
    phase.Working? && phase.work.InstallingComponent? ==> !AtEnd(phase.work.install)
  }

  function CpRequest(key: Key, phase: CpPhase): Request
    requires !phase.Returned? && Proper(phase)
  {
    match phase
    case Fetching => GetClusterPrerequisites(key)
    case Working(ReadingTarget(cp)) => GetTargetCluster(Key(cp.meta.key.namespace, cp.spec.targetClusterRef))
    case Working(ReadingKubeconfig(_, tc, ref)) => GetSecret(Key(tc.meta.key.namespace, ref.name))
    case Working(ReadingCredentials(cp, _, _, name)) => GetSecret(Key(cp.meta.key.namespace, name))
    case Working(InstallingComponent(_, plan, i)) => InstallRequest(plan, i)
    case Writing(cp, _, _) => UpdatePrerequisitesStatus(cp)
  }

  function CpWorkOn(work: CpWork, reply: Reply, now: nat): (phase: CpPhase)
    requires Proper(Working(work))
    ensures Proper(phase)
  {
    match work
    case ReadingTarget(cp) =>
      if reply.FoundTargetCluster? then CpTargetFound(cp, reply.tc, now)
      else if reply.NotFound? then
        Unavailable(cp, MissingTargetCluster, TargetNotFound(Key(cp.meta.key.namespace, cp.spec.targetClusterRef)), AfterError, now)
      else Abort("fetching TargetCluster", reply)
    case ReadingKubeconfig(cp, tc, ref) =>
      if !reply.FoundSecret? then
        Unavailable(cp, MissingKubeconfig, KubeconfigUnreadable(ref.name, Cause(reply)), AfterError, now)
      else
        var kc := DataAt(reply.secret, KubeconfigKey(ref));
        if kc == [] then
          Unavailable(cp, MissingKubeconfig, SecretHasNoData(ref.name, KubeconfigKey(ref)), AfterError, now)
        else CpKubeconfigFound(cp, tc, kc, now)
    case ReadingCredentials(cp, tc, kc, _) => CertManagerTurn(Context(cp, tc, kc, CredentialsFrom(reply)), now)
    case InstallingComponent(ctx, plan, i) =>
      var i' := InstallContinue(plan, i, reply);
      if i'.Finished? then AfterComponent(ctx, plan.component, i'.status, now)
      else Working(InstallingComponent(ctx, plan, i'))
  }

  function CpContinue(phase: CpPhase, reply: Reply, now: nat): (next: CpPhase)
    requires !phase.Returned? && Proper(phase)
    ensures Proper(next)
  {
    match phase
    case Fetching =>
      if reply.FoundPrerequisites? then Working(ReadingTarget(reply.cp))
      else if reply.NotFound? then Returned(NoRequeue, None)
      else Abort("fetching ClusterPrerequisites", reply)
    case Working(work) => CpWorkOn(work, reply, now)
    case Writing(_, onSuccess, onFailure) => AfterWrite(onSuccess, onFailure, reply)
  }

  function CpAfter(key: Key, trace: Trace): (r: Option<CpPhase>)
    ensures r.Some? ==> Proper(r.value)
  {
    if trace == [] then Some(Fetching)
    else
      match CpAfter(key, trace[..|trace| - 1])
      case None => None
      case Some(phase) => CpStep(key, phase, trace[|trace| - 1])
  }

  function CpStep(key: Key, phase: CpPhase, e: Exchange): (r: Option<CpPhase>)
    requires Proper(phase)
    ensures r.Some? ==> Proper(r.value)
  {
    if !phase.Returned? && e.request == CpRequest(key, phase) && Fits(e.request, e.reply)
    then Some(CpContinue(phase, e.reply, e.now)) else None
  }

  lemma CpAfterAppend(key: Key, trace: Trace, e: Exchange)
    ensures CpAfter(key, trace + [e]) ==
      if CpAfter(key, trace).None? then None else CpStep(key, CpAfter(key, trace).value, e)
  {
    assert (trace + [e])[..|trace|] == trace;
  }
}
