// The account of the whole ClusterPrerequisites pass.
module PassAccount {
  import opened Bytes
  import opened Api
  import opened Protocol
  import opened Passes
  import opened PassLaws
  import opened Account
  import opened InstallAccount
  import PullSecret
  import DockerConfig

  // ------------------------------------------------------- the way in

  // The credentials Secret was read and has both of these.
  predicate Supplied(trace: Trace, cp: ClusterPrerequisites, c: Credentials) {
    && cp.spec.credentialsSecretRef.Some? && |trace| >= 4
    && trace[3].request == GetSecret(Key(cp.meta.key.namespace, cp.spec.credentialsSecretRef.value)) && trace[3].reply.FoundSecret?
    && HasBytes(trace[3].reply.secret, "username", c.username) && HasBytes(trace[3].reply.secret, "password", c.password)
  }

  // There is no such Secret, or it lacks one of them.
  predicate NotSupplied(trace: Trace, cp: ClusterPrerequisites) {
    || cp.spec.credentialsSecretRef.None?
    || (|trace| >= 4 && trace[3].request == GetSecret(Key(cp.meta.key.namespace, cp.spec.credentialsSecretRef.value))
        && (trace[3].reply.FoundSecret? ==>
              Lacks(trace[3].reply.secret, "username") || Lacks(trace[3].reply.secret, "password")))
  }

  // The objects and the kubeconfig that were read before any component.
  predicate Entered(key: Key, trace: Trace, cp: ClusterPrerequisites, tc: TargetCluster, kc: Bytes) {
    && |trace| >= 3
    && trace[0].request == GetClusterPrerequisites(key) && trace[0].reply == FoundPrerequisites(cp)
    && trace[1].request == GetTargetCluster(Key(cp.meta.key.namespace, cp.spec.targetClusterRef))
    && trace[1].reply == FoundTargetCluster(tc) && tc.status.ready && tc.spec.kind.BYO? && tc.spec.byo.Some?
    && trace[2].request == GetSecret(Key(tc.meta.key.namespace, tc.spec.byo.value.name)) && trace[2].reply.FoundSecret?
    && Gives(trace[2].reply.secret, tc.spec.byo.value, kc)
    && (cp.spec.credentialsSecretRef.Some? ==> |trace| >= 4)
  }

  // How many exchanges that takes.
  function Entry(cp: ClusterPrerequisites): nat { if cp.spec.credentialsSecretRef.Some? then 4 else 3 }

  // The status written when the way in is closed.
  ghost predicate TurnedAway(key: Key, trace: Trace, written: ClusterPrerequisites) {
    && 2 <= |trace| <= 3 && trace[0].request == GetClusterPrerequisites(key) && trace[0].reply.FoundPrerequisites?
    && var cp := trace[0].reply.cp;
    var target := Key(cp.meta.key.namespace, cp.spec.targetClusterRef);
    && trace[1].request == GetTargetCluster(target)
    && match trace[1].reply
       case NotFound => |trace| == 2 && Unready(cp, written, MissingTargetCluster, TargetNotFound(target))
       case FoundTargetCluster(tc) =>
         if !tc.status.ready then |trace| == 2 && Unready(cp, written, TargetClusterNotReady, TargetNotReady(target.name))
         else if !tc.spec.kind.BYO? || tc.spec.byo.None? then
           |trace| == 2 && Unready(cp, written, MissingKubeconfig, TargetNotByo(target.name))
         else
           var ref := tc.spec.byo.value;
           && |trace| == 3 && trace[2].request == GetSecret(Key(target.namespace, ref.name))
           && (match trace[2].reply
               case FoundSecret(s) =>
                 exists k :: GivesNothing(s, ref, k) && Unready(cp, written, MissingKubeconfig, SecretHasNoData(ref.name, k))
               case reply => Unready(cp, written, MissingKubeconfig, KubeconfigUnreadable(ref.name, Cause(reply))))
       case _ => false
  }

  // ------------------------------------------------------- the components

  // Kubernetes versions of distributions that bring their own Traefik.
  ghost predicate BringsTraefik(v: string) { Mentions(v, "+k3s") || Mentions(v, "+rke2") }

  function SkippedFor(message: Message): ComponentStatus { ComponentStatus(false, true, "", message) }

  // An enabled component that is to be installed.
  ghost predicate InstallingTold(trace: Trace, seg: Trace, cp: ClusterPrerequisites, w: Words, kc: Bytes, s: ComponentStatus) {
    || (NotSupplied(trace, cp) && seg == [] && s == Failure(MissingCreds))
    || (exists c :: Supplied(trace, cp, c) && InstallTold(seg, w, kc, c, s))
  }

  ghost predicate CertManagerTold(trace: Trace, seg: Trace, cp: ClusterPrerequisites, kc: Bytes, s: ComponentStatus) {
    match cp.spec.certManager
    case None => seg == [] && s == SkippedFor(ComponentNotSet)
    case Some(spec) =>
      if !spec.enabled then seg == [] && s == SkippedFor(ComponentDisabled)
      else InstallingTold(trace, seg, cp, CertManagerWords(spec.version), kc, s)
  }

  ghost predicate IngressTold(trace: Trace, seg: Trace, cp: ClusterPrerequisites, k8sVersion: string, kc: Bytes, s: ComponentStatus) {
    match cp.spec.ingress
    case None => seg == [] && s == SkippedFor(ComponentNotSet)
    case Some(spec) =>
      if !spec.enabled then seg == [] && s == SkippedFor(ComponentDisabled)
      else if spec.useBundled.ModeUse? then seg == [] && s == ComponentStatus(true, true, "", UsingBundledByRequest)
      else if (spec.useBundled.ModeAuto? || spec.useBundled.ModeUnset?) && BringsTraefik(k8sVersion) then
        seg == [] && s == ComponentStatus(true, true, k8sVersion, UsingBundledTraefik(k8sVersion))
      else InstallingTold(trace, seg, cp, TraefikWords(spec.version), kc, s)
  }

  predicate LoadBalancerTold(spec: Option<LoadBalancerComponent>, s: ComponentStatus) {
    match spec
    case None => s == SkippedFor(ComponentNotSet)
    case Some(lb) =>
      match lb.kind
      case LBNone => s == SkippedFor(LoadBalancerNone)
      case LBCloud => s == ComponentStatus(true, false, "", LoadBalancerCloud)
      case _ => s == Failure(NotImplemented)
  }

  predicate ReadyOrSkipped(s: ComponentStatus) { s.ready || s.skipped }

  // A finished pass: the way in, cert-manager up to the m-th exchange, then
  // the ingress, and the verdict on all three components.
  ghost predicate FinishedAt(key: Key, trace: Trace, written: ClusterPrerequisites, kc: Bytes, m: nat) {
    && |trace| >= 3 && trace[0].reply.FoundPrerequisites? && trace[1].reply.FoundTargetCluster?
    && var cp, tc, cs := trace[0].reply.cp, trace[1].reply.tc, written.status.extra;
    && Entered(key, trace, cp, tc, kc) && Entry(cp) <= m <= |trace|
    && CertManagerTold(trace, trace[Entry(cp)..m], cp, kc, cs.certManager)
    && IngressTold(trace, trace[m..], cp, tc.status.extra.kubernetesVersion, kc, cs.ingress)
    && LoadBalancerTold(cp.spec.loadBalancer, cs.loadBalancer)
    && if ReadyOrSkipped(cs.certManager) && ReadyOrSkipped(cs.ingress) && ReadyOrSkipped(cs.loadBalancer)
       then Says(cp, written, true, AllComponentsReady, EverythingInstalled, cs)
       else Says(cp, written, false, ComponentsNotReady, SomethingPending, cs)
  }

  ghost predicate CpTold(key: Key, trace: Trace, written: ClusterPrerequisites, end: Ending) {
    || (end == SAME_TIMER && TurnedAway(key, trace, written))
    || (end == DONE && exists kc, m :: FinishedAt(key, trace, written, kc, m))
  }

  ghost predicate CpReturnTold(key: Key, trace: Trace, requeue: Requeue, error: Option<Fault>) {
    && trace != []
    && var e := trace[|trace| - 1];
    || (|trace| == 1 && e.request == GetClusterPrerequisites(key) && e.reply.NotFound? && requeue == NoRequeue && error == None)
    || (|trace| == 1 && e.request == GetClusterPrerequisites(key) && !e.reply.NotFound? && !e.reply.FoundPrerequisites?
        && requeue == NoRequeue && error == Some(Fault("fetching ClusterPrerequisites", Cause(e.reply))))
    || (|trace| == 2 && e.request.GetTargetCluster? && !e.reply.NotFound? && !e.reply.FoundTargetCluster?
        && requeue == NoRequeue && error == Some(Fault("fetching TargetCluster", Cause(e.reply))))
    || (e.request.UpdatePrerequisitesStatus?
        && exists end :: CpTold(key, trace[..|trace| - 1], e.request.cp, end) && WriteTold(e, end, requeue, error))
  }

  // An installation under way: cert-manager's right behind the way in, the
  // ingress's behind what cert-manager took.
  ghost predicate Underway(trace: Trace, cp: ClusterPrerequisites, ctx: Context, plan: Plan, i: Install, m: nat) {
    && Entry(cp) <= m <= |trace| && Supplied(trace, cp, plan.creds)
    && match plan.component
       case CertManager =>
         && m == Entry(cp) && cp.spec.certManager.Some? && cp.spec.certManager.value.enabled
         && var w := CertManagerWords(cp.spec.certManager.value.version);
         Worded(plan, w, ctx.kubeconfig, plan.creds) && InstallAt(trace[m..], w, ctx.kubeconfig, plan.creds, i)
       case Ingress =>
         && CertManagerTold(trace, trace[Entry(cp)..m], cp, ctx.kubeconfig, ctx.cp.status.extra.certManager)
         && cp.spec.ingress.Some? && WantsTraefik(cp.spec.ingress.value, ctx.tc.status.extra.kubernetesVersion)
         && var w := TraefikWords(cp.spec.ingress.value.version);
         Worded(plan, w, ctx.kubeconfig, plan.creds) && InstallAt(trace[m..], w, ctx.kubeconfig, plan.creds, i)
  }

  ghost predicate WantsTraefik(spec: IngressComponent, k8sVersion: string) {
    && spec.enabled && !spec.useBundled.ModeUse?
    && !((spec.useBundled.ModeAuto? || spec.useBundled.ModeUnset?) && BringsTraefik(k8sVersion))
  }

  ghost predicate CpPassTold(key: Key, trace: Trace, phase: CpPhase) {
    match phase
    case Working(InstallingComponent(ctx, plan, i)) =>
      |trace| >= 1 && trace[0].reply.FoundPrerequisites? && exists m :: Underway(trace, trace[0].reply.cp, ctx, plan, i, m)
    case Working(_) => true
    case Fetching => true
    case Writing(written, onSuccess, onFailure) => CpTold(key, trace, written, Ending(onSuccess, onFailure))
    case Returned(requeue, error) => CpReturnTold(key, trace, requeue, error)
  }

  // ----------------------------------------------------------- the way in

  predicate CredsAre(trace: Trace, cp: ClusterPrerequisites, c: Credentials) {
    if Usable(c) then Supplied(trace, cp, c) else NotSupplied(trace, cp)
  }

  lemma GatedIsEntered(key: Key, trace: Trace, cp: ClusterPrerequisites, tc: TargetCluster, kc: Bytes, creds: Credentials)
    requires Gated(key, trace, cp, tc, kc, creds)
    ensures Entered(key, trace, cp, tc, kc) && CredsAre(trace, cp, creds)
  {
    KubeconfigKeyIs(trace[2].reply.secret, tc.spec.byo.value);
  }

  lemma TurnedAwayTold(key: Key, t: Trace, reason: Reason, message: Message, now: nat)
    requires |t| >= 1 && t[0].reply.FoundPrerequisites?
    ensures var phase: CpPhase := Unavailable(t[0].reply.cp, reason, message, AfterError, now);
            && Unready(t[0].reply.cp, phase.obj, reason, message)
            && (TurnedAway(key, t, phase.obj) ==> CpPassTold(key, t, phase))
  {
    hide Says, TurnedAway;
    var cp := t[0].reply.cp;
    ReportSays(cp, cp.status.extra, false, reason, message, now);
  }

  // ----------------------------------------------------- turn by turn

  // What the context of a pass is known to be.
  ghost predicate Knows(key: Key, trace: Trace, ctx: Context) {
    && CtxKnown(key, trace, ctx)
    && Entered(key, trace, trace[0].reply.cp, ctx.tc, ctx.kubeconfig) && CredsAre(trace, trace[0].reply.cp, ctx.creds)
  }

  lemma CompletionTold(key: Key, trace: Trace, ctx: Context, m: nat, now: nat)
    requires Knows(key, trace, ctx) && Entry(trace[0].reply.cp) <= m <= |trace|
    requires var cp := trace[0].reply.cp;
             && CertManagerTold(trace, trace[Entry(cp)..m], cp, ctx.kubeconfig, ctx.cp.status.extra.certManager)
             && IngressTold(trace, trace[m..], cp, ctx.tc.status.extra.kubernetesVersion, ctx.kubeconfig, ctx.cp.status.extra.ingress)
    ensures CpPassTold(key, trace, Completion(ctx, now))
  {
    hide CertManagerTold, IngressTold, Gated, DockerConfig.Dockerconfigjson, Says;
    var cp := trace[0].reply.cp;
    var cs := ctx.cp.status.extra.(loadBalancer := LoadBalancerStatus(ctx.cp.spec.loadBalancer));
    var ready := AllDone(cs);
    assert WithComponents(ctx.cp, cs) == cp.(status := cp.status.(extra := cs));
    ReportSays(cp, cs, ready, if ready then AllComponentsReady else ComponentsNotReady,
               if ready then EverythingInstalled else SomethingPending, now);
    var phase: CpPhase := Completion(ctx, now);
    assert FinishedAt(key, trace, phase.obj, ctx.kubeconfig, m);
  }

  // Why a component is not installed, and that the words of the plan are
  // those of the account.
  lemma CertManagerDecision(spec: CertManagerComponent, creds: Credentials, kc: Bytes)
    requires spec.enabled
    ensures var d := DecideCertManager(Some(spec), creds);
            if Usable(creds) then
              && d.MustInstall?
              && Worded(PlanFor(CertManager, d.version, kc, creds), CertManagerWords(spec.version), kc, creds)
            else d == Settled(Failure(MissingCreds))
  {
    hide DockerConfig.Dockerconfigjson;
  }

  lemma IngressDecision(spec: IngressComponent, v: string, creds: Credentials, kc: Bytes)
    requires WantsTraefik(spec, v)
    ensures var d := DecideIngress(Some(spec), v, creds);
            if Usable(creds) then
              && d.MustInstall?
              && Worded(PlanFor(Ingress, d.version, kc, creds), TraefikWords(spec.version), kc, creds)
            else d == Settled(Failure(MissingCreds))
  {
    hide DockerConfig.Dockerconfigjson, Contains, Mentions;
    ContainsIsMentions(v, "+k3s");
    ContainsIsMentions(v, "+rke2");
  }

  lemma BundledDecision(spec: IngressComponent, v: string, creds: Credentials)
    requires spec.enabled && !WantsTraefik(spec, v)
    ensures DecideIngress(Some(spec), v, creds)
         == Settled(if spec.useBundled.ModeUse? then ComponentStatus(true, true, "", UsingBundledByRequest)
                    else ComponentStatus(true, true, v, UsingBundledTraefik(v)))
  {
    hide Contains, Mentions;
    ContainsIsMentions(v, "+k3s");
    ContainsIsMentions(v, "+rke2");
  }

  lemma IngressTurnTold(key: Key, trace: Trace, ctx: Context, now: nat)
    requires Knows(key, trace, ctx) && Entry(trace[0].reply.cp) <= |trace|
    requires var cp := trace[0].reply.cp;
             CertManagerTold(trace, trace[Entry(cp)..], cp, ctx.kubeconfig, ctx.cp.status.extra.certManager)
    ensures CpPassTold(key, trace, IngressTurn(ctx, now))
  {
    hide CertManagerTold, Gated, DockerConfig.Dockerconfigjson, DecideIngress, WantsTraefik, CpTold, InstallTold, Worded;
    var cp, v, m := trace[0].reply.cp, ctx.tc.status.extra.kubernetesVersion, |trace|;
    assert trace[Entry(cp)..m] == trace[Entry(cp)..] && trace[m..] == [];
    IngressSettles(key, trace, ctx);
    var d := DecideIngress(ctx.cp.spec.ingress, v, ctx.creds);
    if d.Settled? {
      CompletionTold(key, trace, Recorded(ctx, Ingress, d.status), m, now);
    } else {
      var phase: CpPhase := IngressTurn(ctx, now);
      assert Underway(trace, cp, ctx, phase.work.plan, phase.work.install, m);
    }
  }

  // The decision on the ingress, as the account has it.
  lemma IngressSettles(key: Key, trace: Trace, ctx: Context)
    requires Knows(key, trace, ctx)
    ensures var cp, v := trace[0].reply.cp, ctx.tc.status.extra.kubernetesVersion;
            var d := DecideIngress(ctx.cp.spec.ingress, v, ctx.creds);
            if d.Settled? then IngressTold(trace, [], cp, v, ctx.kubeconfig, d.status)
            else
              && cp.spec.ingress.Some? && WantsTraefik(cp.spec.ingress.value, v) && Supplied(trace, cp, ctx.creds)
              && Worded(PlanFor(Ingress, d.version, ctx.kubeconfig, ctx.creds), TraefikWords(cp.spec.ingress.value.version),
                        ctx.kubeconfig, ctx.creds)
  {
    hide Gated, InstallTold, Supplied, NotSupplied, Worded, Mentions, Contains, DockerConfig.Dockerconfigjson, HasBundledTraefik;
    var cp, v := trace[0].reply.cp, ctx.tc.status.extra.kubernetesVersion;
    if cp.spec.ingress.Some? && cp.spec.ingress.value.enabled {
      if WantsTraefik(cp.spec.ingress.value, v) {
        IngressDecision(cp.spec.ingress.value, v, ctx.creds, ctx.kubeconfig);
      } else {
        BundledDecision(cp.spec.ingress.value, v, ctx.creds);
      }
    }
  }

  lemma CertManagerSettles(key: Key, trace: Trace, ctx: Context)
    requires Knows(key, trace, ctx)
    ensures var cp := trace[0].reply.cp;
            var d := DecideCertManager(ctx.cp.spec.certManager, ctx.creds);
            if d.Settled? then CertManagerTold(trace, [], cp, ctx.kubeconfig, d.status)
            else
              && cp.spec.certManager.Some? && cp.spec.certManager.value.enabled && Supplied(trace, cp, ctx.creds)
              && Worded(PlanFor(CertManager, d.version, ctx.kubeconfig, ctx.creds), CertManagerWords(cp.spec.certManager.value.version),
                        ctx.kubeconfig, ctx.creds)
  {
    hide Gated, InstallTold, Supplied, NotSupplied, Worded, DockerConfig.Dockerconfigjson;
    var cp := trace[0].reply.cp;
    if cp.spec.certManager.Some? && cp.spec.certManager.value.enabled {
      CertManagerDecision(cp.spec.certManager.value, ctx.creds, ctx.kubeconfig);
    }
  }

  lemma CertManagerTurnTold(key: Key, trace: Trace, ctx: Context, now: nat)
    requires Knows(key, trace, ctx) && Entry(trace[0].reply.cp) == |trace|
    ensures CpPassTold(key, trace, CertManagerTurn(ctx, now))
  {
    hide Gated, DockerConfig.Dockerconfigjson, DecideCertManager, CertManagerTold, CpTold, InstallTold, Worded, IngressTurn;
    var cp, m := trace[0].reply.cp, |trace|;
    assert trace[m..] == [] && trace[Entry(cp)..] == [];
    CertManagerSettles(key, trace, ctx);
    var d := DecideCertManager(ctx.cp.spec.certManager, ctx.creds);
    if d.Settled? {
      IngressTurnTold(key, trace, Recorded(ctx, CertManager, d.status), now);
    } else {
      var phase: CpPhase := CertManagerTurn(ctx, now);
      assert Underway(trace, cp, ctx, phase.work.plan, phase.work.install, m);
    }
  }

  // ------------------------------------------------------- step by step

  lemma SuppliedStays(trace: Trace, e: Exchange, cp: ClusterPrerequisites, kc: Bytes, seg: Trace, s: ComponentStatus)
    requires cp.spec.credentialsSecretRef.Some? ==> |trace| >= 4
    ensures forall c :: Supplied(trace, cp, c) ==> Supplied(trace + [e], cp, c)
    ensures CertManagerTold(trace, seg, cp, kc, s) ==> CertManagerTold(trace + [e], seg, cp, kc, s)
  {
    hide InstallTold;
    assert |trace| >= 4 ==> (trace + [e])[3] == trace[3];
  }

  lemma CertManagerDoneTold(key: Key, t: Trace, ctx: Context, creds: Credentials, s: ComponentStatus, now: nat)
    requires Knows(key, t, ctx) && Entry(t[0].reply.cp) <= |t| && Supplied(t, t[0].reply.cp, creds)
    requires var cp := t[0].reply.cp;
             && cp.spec.certManager.Some? && cp.spec.certManager.value.enabled
             && InstallTold(t[Entry(cp)..], CertManagerWords(cp.spec.certManager.value.version), ctx.kubeconfig, creds, s)
    ensures CpPassTold(key, t, AfterComponent(ctx, CertManager, s, now))
  {
    hide InstallTold, Gated, CpTold, IngressTurn, DockerConfig.Dockerconfigjson;
    IngressTurnTold(key, t, Recorded(ctx, CertManager, s), now);
  }

  lemma IngressDoneTold(key: Key, t: Trace, ctx: Context, creds: Credentials, m: nat, s: ComponentStatus, now: nat)
    requires Knows(key, t, ctx) && Entry(t[0].reply.cp) <= m <= |t| && Supplied(t, t[0].reply.cp, creds)
    requires var cp := t[0].reply.cp;
             && CertManagerTold(t, t[Entry(cp)..m], cp, ctx.kubeconfig, ctx.cp.status.extra.certManager)
             && cp.spec.ingress.Some? && WantsTraefik(cp.spec.ingress.value, ctx.tc.status.extra.kubernetesVersion)
             && InstallTold(t[m..], TraefikWords(cp.spec.ingress.value.version), ctx.kubeconfig, creds, s)
    ensures CpPassTold(key, t, AfterComponent(ctx, Ingress, s, now))
  {
    hide InstallTold, Gated, CpTold, Completion, CertManagerTold, DockerConfig.Dockerconfigjson;
    CompletionTold(key, t, Recorded(ctx, Ingress, s), m, now);
  }

  lemma CpInstallTold(key: Key, trace: Trace, ctx: Context, plan: Plan, i: Install, m: nat, e: Exchange)
    requires !AtEnd(i) && e.request == InstallRequest(plan, i)
    requires CtxKnown(key, trace, ctx) && Underway(trace, trace[0].reply.cp, ctx, plan, i, m)
    ensures CpPassTold(key, trace + [e], CpWorkOn(InstallingComponent(ctx, plan, i), e.reply, e.now))
  {
    hide InstallAt, InstallTold, Worded, Gated, InstallContinue, AfterComponent, CpTold, CertManagerTold, WantsTraefik,
         DockerConfig.Dockerconfigjson, CtxKnown, Knows;
    KnowsStays(key, trace, ctx, e);
    var t, cp := trace + [e], trace[0].reply.cp;
    var i' := InstallContinue(plan, i, e.reply);
    assert t[0] == trace[0] && t[m..] == trace[m..] + [e] && t[Entry(cp)..m] == trace[Entry(cp)..m];
    SuppliedStays(trace, e, cp, ctx.kubeconfig, trace[Entry(cp)..m], ctx.cp.status.extra.certManager);
    var w := WordsOf(cp, plan.component);
    InstallStepTold(plan, w, ctx.kubeconfig, plan.creds, trace[m..], i, e);
    if i'.Finished? {
      FinishedIsTold(t[m..], w, ctx.kubeconfig, plan.creds, i');
      if plan.component.CertManager? {
        CertManagerDoneTold(key, t, ctx, plan.creds, i'.status, e.now);
      } else {
        IngressDoneTold(key, t, ctx, plan.creds, m, i'.status, e.now);
      }
    } else {
      assert Underway(t, cp, ctx, plan, i', m);
    }
  }

  lemma FinishedIsTold(seg: Trace, w: Words, kc: Bytes, c: Credentials, i: Install)
    requires InstallAt(seg, w, kc, c, i) && i.Finished?
    ensures InstallTold(seg, w, kc, c, i.status)
  {
  }

  lemma KnowsStays(key: Key, trace: Trace, ctx: Context, e: Exchange)
    requires CtxKnown(key, trace, ctx)
    ensures Fetched(key, trace) && Knows(key, trace + [e], ctx)
    ensures trace[0].reply.cp.spec.credentialsSecretRef.Some? ==> |trace| >= 4
  {
    CtxAppend(key, trace, ctx, e);
    GatedIsEntered(key, trace + [e], trace[0].reply.cp, ctx.tc, ctx.kubeconfig, ctx.creds);
  }

  function WordsOf(cp: ClusterPrerequisites, c: Component): Words {
    match c
    case CertManager => CertManagerWords(if cp.spec.certManager.Some? then cp.spec.certManager.value.version else "")
    case Ingress => TraefikWords(if cp.spec.ingress.Some? then cp.spec.ingress.value.version else "")
  }

  lemma CpTargetTold(key: Key, trace: Trace, cp: ClusterPrerequisites, e: Exchange)
    requires CpKnows(key, trace, Working(ReadingTarget(cp)))
    requires e.request == CpRequest(key, Working(ReadingTarget(cp))) && Fits(e.request, e.reply)
    ensures CpPassTold(key, trace + [e], CpWorkOn(ReadingTarget(cp), e.reply, e.now))
  {
    hide Says, CpTold;
    var t := trace + [e];
    assert t[0] == trace[0] && t[1] == e;
    var target := Key(cp.meta.key.namespace, cp.spec.targetClusterRef);
    TurnedAwayTold(key, t, MissingTargetCluster, TargetNotFound(target), e.now);
    TurnedAwayTold(key, t, TargetClusterNotReady, TargetNotReady(target.name), e.now);
    TurnedAwayTold(key, t, MissingKubeconfig, TargetNotByo(target.name), e.now);
  }

  lemma CpKubeconfigTold(key: Key, trace: Trace, cp: ClusterPrerequisites, tc: TargetCluster, ref: KubeconfigSecretRef, e: Exchange)
    requires CpKnows(key, trace, Working(ReadingKubeconfig(cp, tc, ref)))
    requires e.request == CpRequest(key, Working(ReadingKubeconfig(cp, tc, ref)))
    ensures CpPassTold(key, trace + [e], CpWorkOn(ReadingKubeconfig(cp, tc, ref), e.reply, e.now))
  {
    hide Says, CpTold, CertManagerTurn, DockerConfig.Dockerconfigjson;
    var t := trace + [e];
    assert t[0] == trace[0] && t[1] == trace[1] && t[2] == e;
    TurnedAwayTold(key, t, MissingKubeconfig, KubeconfigUnreadable(ref.name, Cause(e.reply)), e.now);
    TurnedAwayTold(key, t, MissingKubeconfig, SecretHasNoData(ref.name, KubeconfigKey(ref)), e.now);
    if e.reply.FoundSecret? {
      var kc := DataAt(e.reply.secret, KubeconfigKey(ref));
      KubeconfigKeyIs(e.reply.secret, ref);
      if kc != [] && cp.spec.credentialsSecretRef.None? {
        var ctx := Context(cp, tc, kc, NO_CREDENTIALS);
        GatedIsEntered(key, t, cp, tc, kc, NO_CREDENTIALS);
        CertManagerTurnTold(key, t, ctx, e.now);
      }
    }
  }

  lemma CpCredentialsTold(key: Key, trace: Trace, cp: ClusterPrerequisites, tc: TargetCluster, kc: Bytes, name: string, e: Exchange)
    requires CpKnows(key, trace, Working(ReadingCredentials(cp, tc, kc, name)))
    requires e.request == CpRequest(key, Working(ReadingCredentials(cp, tc, kc, name)))
    ensures CpPassTold(key, trace + [e], CpWorkOn(ReadingCredentials(cp, tc, kc, name), e.reply, e.now))
  {
    hide CpTold, CertManagerTurn, CertManagerTold, DockerConfig.Dockerconfigjson;
    var t := trace + [e];
    assert t[0] == trace[0] && t[1] == trace[1] && t[2] == trace[2] && t[3] == e;
    var ctx := Context(cp, tc, kc, CredentialsFrom(e.reply));
    GatedIsEntered(key, t, cp, tc, kc, ctx.creds);
    CertManagerTurnTold(key, t, ctx, e.now);
  }

  lemma CpStepTold(key: Key, trace: Trace, phase: CpPhase, e: Exchange)
    requires CpKnows(key, trace, phase) && CpPassTold(key, trace, phase) && Proper(phase) && CpStep(key, phase, e).Some?
    ensures CpPassTold(key, trace + [e], CpStep(key, phase, e).value)
  {
    hide CpTold, CpWorkOn, Underway, CompletedVerdict;
    match phase
    case Fetching => assert trace + [e] == [e];
    case Working(ReadingTarget(cp)) => CpTargetTold(key, trace, cp, e);
    case Working(ReadingKubeconfig(cp, tc, ref)) => CpKubeconfigTold(key, trace, cp, tc, ref, e);
    case Working(ReadingCredentials(cp, tc, kc, name)) => CpCredentialsTold(key, trace, cp, tc, kc, name, e);
    case Working(InstallingComponent(ctx, plan, i)) =>
      var m :| Underway(trace, trace[0].reply.cp, ctx, plan, i, m);
      CpInstallTold(key, trace, ctx, plan, i, m, e);
    case Writing(written, onSuccess, onFailure) => CpWriteTold(key, trace, written, onSuccess, onFailure, e);
  }

  lemma CpWriteTold(key: Key, before: Trace, written: ClusterPrerequisites, onSuccess: Requeue, onFailure: Requeue, e: Exchange)
    requires CpTold(key, before, written, Ending(onSuccess, onFailure)) && e.request == UpdatePrerequisitesStatus(written)
    ensures CpPassTold(key, before + [e], AfterWrite(onSuccess, onFailure, e.reply))
  {
    hide CpTold;
    var trace := before + [e];
    assert trace[..|trace| - 1] == before && trace[|trace| - 1] == e;
    var end, phase: CpPhase := Ending(onSuccess, onFailure), AfterWrite(onSuccess, onFailure, e.reply);
    assert CpTold(key, trace[..|trace| - 1], e.request.cp, end);
    assert WriteTold(e, end, phase.requeue, phase.error);
    assert CpReturnTold(key, trace, phase.requeue, phase.error);
  }

  // Main law: every ClusterPrerequisites pass, whatever it is answered, is as
  // told.
  lemma {:induction false} CpPassIsTold(key: Key, trace: Trace)
    requires CpAfter(key, trace).Some?
    ensures CpPassTold(key, trace, CpAfter(key, trace).value)
  {
    hide CpPassTold, CpKnows, CpStep;
    if trace == [] {
      NothingTold(key);
    } else {
      var before, e := trace[..|trace| - 1], trace[|trace| - 1];
      CpPassJustified(key, before);
      CpPassIsTold(key, before);
      assert trace == before + [e];
      CpStepTold(key, before, CpAfter(key, before).value, e);
    }
  }

  lemma NothingTold(key: Key)
    ensures CpPassTold(key, [], Fetching)
  {
  }
}
