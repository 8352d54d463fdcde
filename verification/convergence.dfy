// Whole passes in a quiet period, and where they settle.
module Convergence {
  import opened Bytes
  import opened Api
  import opened Protocol
  import opened Passes
  import opened Quiet
  import PullSecret
  import DockerConfig

  // The two stored objects and the target; `counter` numbers versions.
  datatype Calm = Calm(tc: Option<TargetCluster>, cp: Option<ClusterPrerequisites>, target: Target, counter: nat)

  // A status update of an unchanged status changes nothing, not even the
  // resourceVersion.
  function Stored<S(==), X(==)>(o: Resource<S, X>, written: Resource<S, X>, counter: nat): Resource<S, X> {
    if o.status == written.status then o
    else o.(meta := o.meta.(resourceVersion := counter), status := written.status)
  }

  // ------------------------------------------------------ the two passes

  function TcRank(work: TcWork): nat {
    match work
    case ReadingSecret(_, _) => 5
    case Parsing(_, _) => 4
    case Building(_, _) => 3
    case AskingVersion(_, _) => 2
    case CountingNodes(_, _, _) => 1
  }

  function TcReply(out: Outside, work: TcWork): Reply {
    match work
    case ReadingSecret(tc, ref) => out.secret(Key(tc.meta.key.namespace, ref.name))
    case Parsing(_, kc) => out.parse(kc)
    case Building(_, kc) => out.client(kc)
    case AskingVersion(_, kc) => out.version(kc)
    case CountingNodes(_, kc, _) => out.nodes(kc)
  }

  function RunTc(out: Outside, phase: TcPhase, now: nat): TcPhase
    decreases if phase.Working? then TcRank(phase.work) else 0
  {
    if phase.Working? then RunTc(out, TcWorkOn(phase.work, TcReply(out, phase.work), now), now) else phase
  }

  function TcPass(out: Outside, w: Calm, now: nat): Calm {
    if w.tc.None? then w
    else
      var phase := RunTc(out, TcStart(w.tc.value, now), now);
      if phase.Writing? then w.(tc := Some(Stored(w.tc.value, phase.obj, w.counter)), counter := w.counter + 1) else w
  }

  function CpRank(work: CpWork): nat {
    match work
    case ReadingTarget(_) => 50
    case ReadingKubeconfig(_, _, _) => 49
    case ReadingCredentials(_, _, _, _) => 48
    case InstallingComponent(_, plan, i) => (if plan.component.CertManager? then 20 else 1) + Rank(i)
  }

  function TargetReply(tc: Option<TargetCluster>, key: Key): Reply {
    if tc.Some? && tc.value.meta.key == key then FoundTargetCluster(tc.value) else NotFound
  }

  function CpReply(out: Outside, tc: Option<TargetCluster>, t: Target, work: CpWork): Reply
    requires Proper(Working(work))
  {
    match work
    case ReadingTarget(cp) => TargetReply(tc, Key(cp.meta.key.namespace, cp.spec.targetClusterRef))
    case ReadingKubeconfig(_, tc, ref) => out.secret(Key(tc.meta.key.namespace, ref.name))
    case ReadingCredentials(cp, _, _, name) => out.secret(Key(cp.meta.key.namespace, name))
    case InstallingComponent(_, plan, i) => InstallReply(out, plan, t, i)
  }

  function CpEffect(out: Outside, t: Target, work: CpWork): Target
    requires Proper(Working(work))
  {
    if work.InstallingComponent? then InstallEffect(out, work.plan, t, work.install) else t
  }

  lemma TurnRank(ctx: Context, now: nat)
    ensures var p: CpPhase := IngressTurn(ctx, now); p.Working? ==> CpRank(p.work) == 12
    ensures var p: CpPhase := CertManagerTurn(ctx, now); p.Working? ==> CpRank(p.work) <= 31
  {
    hide DockerConfig.Dockerconfigjson, Contains;
  }

  lemma CpRankDrops(work: CpWork, reply: Reply, now: nat)
    requires Proper(Working(work))
    ensures var p := CpWorkOn(work, reply, now); p.Working? ==> CpRank(p.work) < CpRank(work)
    ensures CpRank(work) > 0
  {
    hide DockerConfig.Dockerconfigjson, Contains, InstallContinue, CertManagerTurn, IngressTurn;
    match work
    case ReadingTarget(_) =>
    case ReadingKubeconfig(cp, tc, ref) =>
      if reply.FoundSecret? {
        TurnRank(Context(cp, tc, DataAt(reply.secret, KubeconfigKey(ref)), NO_CREDENTIALS), now);
      }
    case ReadingCredentials(cp, tc, kc, _) => TurnRank(Context(cp, tc, kc, CredentialsFrom(reply)), now);
    case InstallingComponent(ctx, plan, i) =>
      RankDrops(plan, i, reply);
      var i' := InstallContinue(plan, i, reply);
      if i'.Finished? {
        InstallLasts(plan, i, reply);
        TurnRank(Recorded(ctx, plan.component, i'.status), now);
      }
  }

  lemma InstallLasts(plan: Plan, i: Install, reply: Reply)
    requires !AtEnd(i)
    ensures Rank(i) >= 3
  {
  }

  function RunCp(out: Outside, tc: Option<TargetCluster>, t: Target, phase: CpPhase, now: nat): (CpPhase, Target)
    requires Proper(phase)
    decreases if phase.Working? then CpRank(phase.work) else 0
  {
    if phase.Working? then
      hide CpWorkOn, CpReply, CpEffect, CpRank;
      CpRankDrops(phase.work, CpReply(out, tc, t, phase.work), now);
      RunCp(out, tc, CpEffect(out, t, phase.work), CpWorkOn(phase.work, CpReply(out, tc, t, phase.work), now), now)
    else (phase, t)
  }

  function CpPass(out: Outside, w: Calm, now: nat): Calm {
    if w.cp.None? then w
    else
      var (phase, t) := RunCp(out, w.tc, w.target, Working(ReadingTarget(w.cp.value)), now);
      if phase.Writing? then w.(cp := Some(Stored(w.cp.value, phase.obj, w.counter)), target := t, counter := w.counter + 1)
      else w.(target := t)
  }

  datatype Pass = OfTc(at: nat) | OfCp(at: nat)

  function RunPass(out: Outside, w: Calm, pass: Pass): Calm {
    match pass
    case OfTc(now) => TcPass(out, w, now)
    case OfCp(now) => CpPass(out, w, now)
  }

  function RunPasses(out: Outside, w: Calm, passes: seq<Pass>): Calm
    decreases |passes|
  {
    if passes == [] then w else RunPasses(out, RunPass(out, w, passes[0]), passes[1..])
  }

  // ------------------------------------------------- TargetCluster verdicts

  // What a pass concludes, apart from the object's previous status.
  datatype TcVerdict = TcSilent(error: Option<Fault>) | TcDown(reason: Reason, message: Message, requeue: Requeue) | TcUp(version: string, nodes: nat)

  function TcVerdictPhase(tc: TargetCluster, v: TcVerdict, now: nat): TcPhase {
    match v
    case TcSilent(error) => Returned(NoRequeue, error)
    case TcDown(reason, message, requeue) => Unavailable(tc, reason, message, requeue, now)
    case TcUp(version, nodes) => Writing(Reached(tc, version, nodes, now), AfterSuccess, NoRequeue)
  }

  function TcVerdictOf(out: Outside, key: Key, spec: TargetClusterSpec): TcVerdict {
    if !spec.kind.BYO? then TcDown(UnsupportedType, TypeNotImplemented(spec.kind.name), NoRequeue)
    else if spec.byo.None? then TcDown(MissingBYOSpec, ByoMustBeSet, NoRequeue)
    else
      var ref := spec.byo.value;
      var reply := out.secret(Key(key.namespace, ref.name));
      if reply.NotFound? then TcDown(MissingSecret, SecretNotFound(Key(key.namespace, ref.name)), AfterError)
      else if !reply.FoundSecret? then TcSilent(Some(Fault("fetching kubeconfig Secret", Cause(reply))))
      else
        var kc := DataAt(reply.secret, KubeconfigKey(ref));
        if kc == [] then TcDown(InvalidKubeconfig, SecretHasNoData(ref.name, KubeconfigKey(ref)), AfterError)
        else if !out.parse(kc).OK? then TcDown(InvalidKubeconfig, KubeconfigInvalid(Cause(out.parse(kc))), NoRequeue)
        else if !out.client(kc).OK? then TcDown(InvalidKubeconfig, CannotBuildClient(Cause(out.client(kc))), NoRequeue)
        else if !out.version(kc).VersionIs? then TcDown(ConnectionFailed, ServerVersionFailed(Cause(out.version(kc))), AfterError)
        else if !out.nodes(kc).NodesAre? then TcDown(ConnectionFailed, ListingNodesFailed(Cause(out.nodes(kc))), AfterError)
        else TcUp(out.version(kc).version, out.nodes(kc).count)
  }

  lemma RunTcEnds(out: Outside, now: nat)
    ensures forall phase: TcPhase :: !phase.Working? ==> RunTc(out, phase, now) == phase
  {
  }

  lemma ProbeIsVerdict(out: Outside, tc: TargetCluster, kc: Bytes, now: nat)
    ensures RunTc(out, Working(Parsing(tc, kc)), now) ==
      if !out.parse(kc).OK? then Unavailable(tc, InvalidKubeconfig, KubeconfigInvalid(Cause(out.parse(kc))), NoRequeue, now)
      else if !out.client(kc).OK? then Unavailable(tc, InvalidKubeconfig, CannotBuildClient(Cause(out.client(kc))), NoRequeue, now)
      else if !out.version(kc).VersionIs? then Unavailable(tc, ConnectionFailed, ServerVersionFailed(Cause(out.version(kc))), AfterError, now)
      else if !out.nodes(kc).NodesAre? then Unavailable(tc, ConnectionFailed, ListingNodesFailed(Cause(out.nodes(kc))), AfterError, now)
      else Writing(Reached(tc, out.version(kc).version, out.nodes(kc).count, now), AfterSuccess, NoRequeue)
  {
    hide Report, Cause;
    RunTcEnds(out, now);
    var p := RunTc(out, Working(Parsing(tc, kc)), now);
    if out.parse(kc).OK? {
      assert p == RunTc(out, Working(Building(tc, kc)), now);
      if out.client(kc).OK? {
        assert p == RunTc(out, Working(AskingVersion(tc, kc)), now);
        if out.version(kc).VersionIs? {
          assert p == RunTc(out, Working(CountingNodes(tc, kc, out.version(kc).version)), now);
        }
      }
    }
  }

  lemma RunTcIsVerdict(out: Outside, tc: TargetCluster, now: nat)
    ensures RunTc(out, TcStart(tc, now), now) == TcVerdictPhase(tc, TcVerdictOf(out, tc.meta.key, tc.spec), now)
  {
    hide Report, Cause;
    RunTcEnds(out, now);
    if tc.spec.kind.BYO? && tc.spec.byo.Some? {
      var ref := tc.spec.byo.value;
      var reply := out.secret(Key(tc.meta.key.namespace, ref.name));
      if reply.FoundSecret? {
        ProbeIsVerdict(out, tc, DataAt(reply.secret, KubeconfigKey(ref)), now);
      }
    }
  }

  // The same status reported again on a stored version changes nothing.
  lemma StoredAgain<S, X>(o: Resource<S, X>, base: Resource<S, X>, ready: bool, reason: Reason, message: Message,
                          t1: nat, t2: nat, counter: nat)
    requires base.meta == o.meta && base.spec == o.spec && base.status.conditions == o.status.conditions
    ensures var o1 := Stored(o, Report(base, ready, reason, message, t1), counter);
            && o1.status == Report(base, ready, reason, message, t1).status
            && Report(o1, ready, reason, message, t2).status == o1.status
            && o1.spec == o.spec && o1.meta.key == o.meta.key
  {
    SetTwice(o.status.conditions, AvailableCondition(ready, o.meta.generation, reason, message), t1, t2);
  }

  // A TargetCluster pass is idempotent, at any two times.
  lemma TcPassSettles(out: Outside, w: Calm, t1: nat, t2: nat)
    ensures var w1 := TcPass(out, w, t1); TcPass(out, w1, t2).tc == w1.tc
  {
    if w.tc.Some? {
      var tc := w.tc.value;
      RunTcIsVerdict(out, tc, t1);
      var w1 := TcPass(out, w, t1);
      RunTcIsVerdict(out, w1.tc.value, t2);
      match TcVerdictOf(out, tc.meta.key, tc.spec)
      case TcSilent(_) =>
      case TcDown(reason, message, _) => StoredAgain(tc, tc, false, reason, message, t1, t2, w.counter);
      case TcUp(version, nodes) =>
        StoredAgain(tc, tc.(status := tc.status.(extra := Probe(version, Int32(nodes)))), true, Reachable,
                    TargetReachable(nodes, version), t1, t2, w.counter);
    }
  }

  // ------------------------------------------ ClusterPrerequisites verdicts

  datatype CpVerdict = Down(reason: Reason, message: Message) | Up(certManager: ComponentStatus, ingress: ComponentStatus)

  function CpVerdictPhase(cp: ClusterPrerequisites, v: CpVerdict, now: nat): CpPhase {
    match v
    case Down(reason, message) => Unavailable(cp, reason, message, AfterError, now)
    case Up(cm, ing) =>
      Writing(Completed(cp, Components(cm, ing, LoadBalancerStatus(cp.spec.loadBalancer)), now), AfterSuccess, NoRequeue)
  }

  // One component, from its decision.
  function ComponentStep(out: Outside, decision: Decision, component: Component, kc: Bytes, creds: Credentials, t: Target): (ComponentStatus, Target)
    requires Tracks(t)
  {
    match decision
    case Settled(s) => (s, t)
    case MustInstall(version) =>
      var ns := NamespaceOf(component);
      var (s, spot) := InstallStep(out, PlanFor(component, version, kc, creds), t[ns]);
      (s, t[ns := spot])
  }

  function BothSteps(out: Outside, spec: ClusterPrerequisitesSpec, k8sVersion: string, kc: Bytes, creds: Credentials, t: Target): (CpVerdict, Target)
    requires Tracks(t)
  {
    var (cm, t1) := ComponentStep(out, DecideCertManager(spec.certManager, creds), CertManager, kc, creds, t);
    var (ing, t2) := ComponentStep(out, DecideIngress(spec.ingress, k8sVersion, creds), Ingress, kc, creds, t1);
    (Up(cm, ing), t2)
  }

  function CredsIn(out: Outside, ns: string, spec: ClusterPrerequisitesSpec): Credentials {
    match spec.credentialsSecretRef
    case None => NO_CREDENTIALS
    case Some(name) => CredentialsFrom(out.secret(Key(ns, name)))
  }

  // Either what keeps the pass from the components, or the kubeconfig.
  datatype Gate = Closed(reason: Reason, message: Message) | Open(tc: TargetCluster, kubeconfig: Bytes)

  function GateOf(out: Outside, tc: Option<TargetCluster>, ns: string, spec: ClusterPrerequisitesSpec): Gate {
    var key := Key(ns, spec.targetClusterRef);
    if tc.None? || tc.value.meta.key != key then Closed(MissingTargetCluster, TargetNotFound(key))
    else
      var tc := tc.value;
      if !tc.status.ready then Closed(TargetClusterNotReady, TargetNotReady(key.name))
      else if !tc.spec.kind.BYO? || tc.spec.byo.None? then Closed(MissingKubeconfig, TargetNotByo(key.name))
      else
        var ref := tc.spec.byo.value;
        var reply := out.secret(Key(ns, ref.name));
        if !reply.FoundSecret? then Closed(MissingKubeconfig, KubeconfigUnreadable(ref.name, Cause(reply)))
        else
          var kc := DataAt(reply.secret, KubeconfigKey(ref));
          if kc == [] then Closed(MissingKubeconfig, SecretHasNoData(ref.name, KubeconfigKey(ref))) else Open(tc, kc)
  }

  function CpVerdictOf(out: Outside, tc: Option<TargetCluster>, ns: string, spec: ClusterPrerequisitesSpec, t: Target): (CpVerdict, Target)
    requires Tracks(t)
  {
    match GateOf(out, tc, ns, spec)
    case Closed(reason, message) => (Down(reason, message), t)
    case Open(tc, kc) => BothSteps(out, spec, tc.status.extra.kubernetesVersion, kc, CredsIn(out, ns, spec), t)
  }

  // Running a component's machine inside the pass.
  lemma {:induction false} RunComponent(out: Outside, tc: Option<TargetCluster>, t: Target, ctx: Context, plan: Plan, i: Install, now: nat)
    requires !AtEnd(i)
    ensures var (s, t') := Drive(out, plan, t, i);
            RunCp(out, tc, t, Working(InstallingComponent(ctx, plan, i)), now)
            == RunCp(out, tc, t', AfterComponent(ctx, plan.component, s, now), now)
    decreases Rank(i)
  {
    hide InstallContinue, InstallReply, InstallEffect, AfterComponent, Rank;
    var reply, t1 := InstallReply(out, plan, t, i), InstallEffect(out, plan, t, i);
    var i' := InstallContinue(plan, i, reply);
    RankDrops(plan, i, reply);
    assert Drive(out, plan, t, i) == Drive(out, plan, t1, i');
    if !i'.Finished? {
      RunComponent(out, tc, t1, ctx, plan, i', now);
    }
  }

  lemma IngressTurnRuns(out: Outside, tc: Option<TargetCluster>, t: Target, ctx: Context, now: nat)
    requires Tracks(t)
    ensures var (s, t') := ComponentStep(out, DecideIngress(ctx.cp.spec.ingress, ctx.tc.status.extra.kubernetesVersion, ctx.creds),
                                         Ingress, ctx.kubeconfig, ctx.creds, t);
            RunCp(out, tc, t, IngressTurn(ctx, now), now) == (Completion(Recorded(ctx, Ingress, s), now), t')
  {
    hide DockerConfig.Dockerconfigjson, DecideIngress, InstallStep, Report;
    match DecideIngress(ctx.cp.spec.ingress, ctx.tc.status.extra.kubernetesVersion, ctx.creds)
    case Settled(_) =>
    case MustInstall(version) =>
      var plan := PlanFor(Ingress, version, ctx.kubeconfig, ctx.creds);
      RunComponent(out, tc, t, ctx, plan, Pulling(PullSecret.Connecting), now);
      DriveIsInstallStep(out, plan, t);
  }

  lemma CertManagerTurnRuns(out: Outside, tc: Option<TargetCluster>, t: Target, ctx: Context, now: nat)
    requires Tracks(t)
    ensures var (s, t') := ComponentStep(out, DecideCertManager(ctx.cp.spec.certManager, ctx.creds),
                                         CertManager, ctx.kubeconfig, ctx.creds, t);
            RunCp(out, tc, t, CertManagerTurn(ctx, now), now) == RunCp(out, tc, t', IngressTurn(Recorded(ctx, CertManager, s), now), now)
  {
    hide DockerConfig.Dockerconfigjson, DecideCertManager, InstallStep, IngressTurn;
    match DecideCertManager(ctx.cp.spec.certManager, ctx.creds)
    case Settled(_) =>
    case MustInstall(version) =>
      var plan := PlanFor(CertManager, version, ctx.kubeconfig, ctx.creds);
      RunComponent(out, tc, t, ctx, plan, Pulling(PullSecret.Connecting), now);
      DriveIsInstallStep(out, plan, t);
  }

  // Both turns amount to the two steps and the verdict.
  lemma TurnsAreSteps(out: Outside, tc: Option<TargetCluster>, t: Target, ctx: Context, now: nat)
    requires Tracks(t)
    ensures var (v, t') := BothSteps(out, ctx.cp.spec, ctx.tc.status.extra.kubernetesVersion, ctx.kubeconfig, ctx.creds, t);
            RunCp(out, tc, t, CertManagerTurn(ctx, now), now) == (CpVerdictPhase(ctx.cp, v, now), t')
  {
    hide DockerConfig.Dockerconfigjson, DecideCertManager, DecideIngress, InstallStep, IngressTurn, CertManagerTurn, Report, RunCp;
    CertManagerTurnRuns(out, tc, t, ctx, now);
    var (cm, t1) := ComponentStep(out, DecideCertManager(ctx.cp.spec.certManager, ctx.creds), CertManager, ctx.kubeconfig, ctx.creds, t);
    IngressTurnRuns(out, tc, t1, Recorded(ctx, CertManager, cm), now);
    var (ing, _) := ComponentStep(out, DecideIngress(ctx.cp.spec.ingress, ctx.tc.status.extra.kubernetesVersion, ctx.creds),
                                  Ingress, ctx.kubeconfig, ctx.creds, t1);
    var ctx2 := Recorded(Recorded(ctx, CertManager, cm), Ingress, ing);
    var cs := Components(cm, ing, LoadBalancerStatus(ctx.cp.spec.loadBalancer));
    assert WithComponents(ctx2.cp, cs) == WithComponents(ctx.cp, cs);
  }

  // From the kubeconfig on.
  lemma OpenGateRuns(out: Outside, t: Target, cp: ClusterPrerequisites, tc: TargetCluster, kc: Bytes, now: nat)
    requires Tracks(t)
    ensures var (v, t') := BothSteps(out, cp.spec, tc.status.extra.kubernetesVersion, kc, CredsIn(out, cp.meta.key.namespace, cp.spec), t);
            RunCp(out, Some(tc), t, CpKubeconfigFound(cp, tc, kc, now), now) == (CpVerdictPhase(cp, v, now), t')
  {
    hide BothSteps, CertManagerTurn, CpVerdictPhase;
    var creds := CredsIn(out, cp.meta.key.namespace, cp.spec);
    TurnsAreSteps(out, Some(tc), t, Context(cp, tc, kc, creds), now);
    match cp.spec.credentialsSecretRef
    case None =>
    case Some(name) =>
      assert RunCp(out, Some(tc), t, CpKubeconfigFound(cp, tc, kc, now), now)
          == RunCp(out, Some(tc), t, CertManagerTurn(Context(cp, tc, kc, creds), now), now);
  }

  lemma RunCpIsVerdict(out: Outside, tc: Option<TargetCluster>, t: Target, cp: ClusterPrerequisites, now: nat)
    requires Tracks(t)
    ensures var (v, t') := CpVerdictOf(out, tc, cp.meta.key.namespace, cp.spec, t);
            RunCp(out, tc, t, Working(ReadingTarget(cp)), now) == (CpVerdictPhase(cp, v, now), t')
  {
    hide BothSteps, CertManagerTurn, CpKubeconfigFound, Report, Cause;
    var ns := cp.meta.key.namespace;
    var key := Key(ns, cp.spec.targetClusterRef);
    if tc.Some? && tc.value.meta.key == key {
      var o := tc.value;
      var r := RunCp(out, tc, t, Working(ReadingTarget(cp)), now);
      assert r == RunCp(out, tc, t, CpTargetFound(cp, o, now), now);
      if o.status.ready && o.spec.kind.BYO? && o.spec.byo.Some? {
        var ref := o.spec.byo.value;
        var reply := out.secret(Key(ns, ref.name));
        assert r == RunCp(out, tc, t, Working(ReadingKubeconfig(cp, o, ref)), now);
        if reply.FoundSecret? && DataAt(reply.secret, KubeconfigKey(ref)) != [] {
          assert r == RunCp(out, tc, t, CpKubeconfigFound(cp, o, DataAt(reply.secret, KubeconfigKey(ref)), now), now);
          OpenGateRuns(out, t, cp, o, DataAt(reply.secret, KubeconfigKey(ref)), now);
        } else {
          assert r == RunCp(out, tc, t, CpWorkOn(ReadingKubeconfig(cp, o, ref), reply, now), now);
        }
      }
    }
  }

  // --------------------------------------------------------------- settling

  // A component installed for the first time, whose upgrade is reported
  // otherwise.
  predicate StepUnsettled(out: Outside, decision: Decision, component: Component, kc: Bytes, creds: Credentials, t: Target)
    requires Tracks(t)
  {
    decision.MustInstall? && InstallUnsettled(out, PlanFor(component, decision.version, kc, creds), t[NamespaceOf(component)])
  }

  // The pass installs such a component.
  predicate PassUnsettled(out: Outside, tc: Option<TargetCluster>, ns: string, spec: ClusterPrerequisitesSpec, t: Target)
    requires Tracks(t)
  {
    var gate := GateOf(out, tc, ns, spec);
    gate.Open? &&
    var creds := CredsIn(out, ns, spec);
    || StepUnsettled(out, DecideCertManager(spec.certManager, creds), CertManager, gate.kubeconfig, creds, t)
    || StepUnsettled(out, DecideIngress(spec.ingress, gate.tc.status.extra.kubernetesVersion, creds), Ingress, gate.kubeconfig, creds, t)
  }

  lemma ComponentStepRepeats(out: Outside, decision: Decision, component: Component, kc: Bytes, creds: Credentials, t: Target, t1: Target)
    requires Tracks(t) && Tracks(t1)
    requires t1[NamespaceOf(component)] == ComponentStep(out, decision, component, kc, creds, t).1[NamespaceOf(component)]
    ensures ComponentStep(out, decision, component, kc, creds, t1).0 == ComponentStep(out, decision, component, kc, creds, t).0
            <==> !StepUnsettled(out, decision, component, kc, creds, t)
    ensures !StepUnsettled(out, decision, component, kc, creds, t1)
  {
    hide DockerConfig.Dockerconfigjson, InstallStep, InstallUnsettled;
    if decision.MustInstall? {
      InstallStepRepeats(out, PlanFor(component, decision.version, kc, creds), t[NamespaceOf(component)]);
    }
  }

  // A second pass reaches the same verdict exactly unless the first installed
  // such a component, and it never does so itself.
  lemma VerdictRepeats(out: Outside, tc: Option<TargetCluster>, ns: string, spec: ClusterPrerequisitesSpec, t: Target)
    requires Tracks(t)
    ensures var (v, t1) := CpVerdictOf(out, tc, ns, spec, t);
            && Tracks(t1) && !PassUnsettled(out, tc, ns, spec, t1)
            && (CpVerdictOf(out, tc, ns, spec, t1).0 == v <==> !PassUnsettled(out, tc, ns, spec, t))
  {
    hide ComponentStep, StepUnsettled, DecideCertManager, DecideIngress;
    var gate := GateOf(out, tc, ns, spec);
    if gate.Open? {
      var creds, kc := CredsIn(out, ns, spec), gate.kubeconfig;
      var dc, di := DecideCertManager(spec.certManager, creds), DecideIngress(spec.ingress, gate.tc.status.extra.kubernetesVersion, creds);
      StepsApart(out, dc, di, kc, creds, t);
      var t1 := ComponentStep(out, dc, CertManager, kc, creds, t).1;
      var t2 := ComponentStep(out, di, Ingress, kc, creds, t1).1;
      StepsApart(out, dc, di, kc, creds, t2);
      var t3 := ComponentStep(out, dc, CertManager, kc, creds, t2).1;
      ComponentStepRepeats(out, dc, CertManager, kc, creds, t, t2);
      ComponentStepRepeats(out, di, Ingress, kc, creds, t1, t3);
      ComponentStepRepeats(out, di, Ingress, kc, creds, t1, t2);
      StepUnsettledLocal(out, di, kc, creds, t, t1);
    }
  }

  // Each step leaves the other component's namespace alone.
  lemma StepsApart(out: Outside, dc: Decision, di: Decision, kc: Bytes, creds: Credentials, t: Target)
    requires Tracks(t)
    ensures var t1 := ComponentStep(out, dc, CertManager, kc, creds, t).1;
            Tracks(t1) && t1[NamespaceOf(Ingress)] == t[NamespaceOf(Ingress)]
            && var t2 := ComponentStep(out, di, Ingress, kc, creds, t1).1;
            Tracks(t2) && t2[NamespaceOf(CertManager)] == t1[NamespaceOf(CertManager)]
  {
    hide DockerConfig.Dockerconfigjson, InstallStep;
    NamespacesDiffer();
  }

  lemma StepUnsettledLocal(out: Outside, d: Decision, kc: Bytes, creds: Credentials, t: Target, t1: Target)
    requires Tracks(t) && Tracks(t1) && t1[NamespaceOf(Ingress)] == t[NamespaceOf(Ingress)]
    ensures StepUnsettled(out, d, Ingress, kc, creds, t1) == StepUnsettled(out, d, Ingress, kc, creds, t)
  {
    hide DockerConfig.Dockerconfigjson, InstallUnsettled;
  }

  // What a verdict makes of an object, and that making it again changes
  // nothing.
  function CpWritten(cp: ClusterPrerequisites, v: CpVerdict, now: nat): ClusterPrerequisites {
    match v
    case Down(reason, message) => Report(cp, false, reason, message, now)
    case Up(cm, ing) => Completed(cp, Components(cm, ing, LoadBalancerStatus(cp.spec.loadBalancer)), now)
  }

  lemma WrittenAgain(cp: ClusterPrerequisites, v: CpVerdict, t1: nat, t2: nat, counter: nat)
    ensures var cp1 := Stored(cp, CpWritten(cp, v, t1), counter);
            && CpWritten(cp1, v, t2).status == cp1.status
            && cp1.spec == cp.spec && cp1.meta.key == cp.meta.key
  {
    match v
    case Down(reason, message) => StoredAgain(cp, cp, false, reason, message, t1, t2, counter);
    case Up(cm, ing) =>
      var cs := Components(cm, ing, LoadBalancerStatus(cp.spec.loadBalancer));
      var ready := AllDone(cs);
      StoredAgain(cp, WithComponents(cp, cs), ready, if ready then AllComponentsReady else ComponentsNotReady,
                  if ready then EverythingInstalled else SomethingPending, t1, t2, counter);
      var cp1 := Stored(cp, CpWritten(cp, v, t1), counter);
      assert WithComponents(cp1, cs) == cp1;
  }

  // Different verdicts are told apart by the status they write.
  lemma VerdictVisible(cp: ClusterPrerequisites, v: CpVerdict, cm: ComponentStatus, ing: ComponentStatus, now: nat)
    requires cp.status.extra.certManager == cm && cp.status.extra.ingress == ing && v.Up?
    requires CpWritten(cp, v, now).status == cp.status
    ensures v == Up(cm, ing)
  {
  }

  lemma CpPassIsVerdict(out: Outside, w: Calm, now: nat)
    requires w.cp.Some? && Tracks(w.target)
    ensures var cp := w.cp.value;
            var (v, t) := CpVerdictOf(out, w.tc, cp.meta.key.namespace, cp.spec, w.target);
            CpPass(out, w, now) == w.(cp := Some(Stored(cp, CpWritten(cp, v, now), w.counter)), target := t, counter := w.counter + 1)
  {
    hide CpVerdictOf, Report, RunCp;
    RunCpIsVerdict(out, w.tc, w.target, w.cp.value, now);
  }

  // Whether the next ClusterPrerequisites pass on w leaves its successor
  // something else to report.
  predicate Unsettled(out: Outside, w: Calm)
    requires Tracks(w.target)
  {
    w.cp.Some? && PassUnsettled(out, w.tc, w.cp.value.meta.key.namespace, w.cp.value.spec, w.target)
  }

  // One pass after another, the stored object is the same, to the last
  // transition time, exactly unless the first installed a component whose
  // upgrade is reported otherwise.
  lemma CpPassSettles(out: Outside, w: Calm, t1: nat, t2: nat)
    requires Tracks(w.target)
    ensures var w1 := CpPass(out, w, t1);
            && Tracks(w1.target) && w1.tc == w.tc && !Unsettled(out, w1)
            && (CpPass(out, w1, t2).cp == w1.cp <==> !Unsettled(out, w))
  {
    hide CpVerdictOf, PassUnsettled, CpPass, CpWritten;
    var w1 := CpPass(out, w, t1);
    if w.cp.Some? {
      var cp := w.cp.value;
      var ns := cp.meta.key.namespace;
      CpPassIsVerdict(out, w, t1);
      VerdictRepeats(out, w.tc, ns, cp.spec, w.target);
      var v := CpVerdictOf(out, w.tc, ns, cp.spec, w.target).0;
      WrittenAgain(cp, v, t1, t2, w.counter);
      CpPassIsVerdict(out, w1, t2);
      var v2 := CpVerdictOf(out, w1.tc, ns, cp.spec, w1.target).0;
      if v2 != v {
        DifferentVerdictShows(out, w.tc, ns, cp.spec, w.target, cp, w.counter, t1, t2);
      }
    } else {
      assert w1 == w by { NothingToPass(out, w, t1); }
      assert CpPass(out, w, t2) == w by { NothingToPass(out, w, t2); }
    }
  }

  lemma NothingToPass(out: Outside, w: Calm, now: nat)
    requires w.cp.None?
    ensures CpPass(out, w, now) == w
  {
  }

  // If the second verdict differs, the second pass writes a different status.
  lemma DifferentVerdictShows(out: Outside, tc: Option<TargetCluster>, ns: string, spec: ClusterPrerequisitesSpec, t: Target,
                              cp: ClusterPrerequisites, counter: nat, t1: nat, t2: nat)
    requires Tracks(t)
    requires var (v, u) := CpVerdictOf(out, tc, ns, spec, t);
             Tracks(u) && CpVerdictOf(out, tc, ns, spec, u).0 != v
    ensures var (v, u) := CpVerdictOf(out, tc, ns, spec, t);
            var v2, cp1 := CpVerdictOf(out, tc, ns, spec, u).0, Stored(cp, CpWritten(cp, v, t1), counter);
            CpWritten(cp1, v2, t2).status != cp1.status
  {
    hide BothSteps, GateOf, SetStatusCondition;
    var (v, u) := CpVerdictOf(out, tc, ns, spec, t);
    var v2 := CpVerdictOf(out, tc, ns, spec, u).0;
    BothAreUp(out, tc, ns, spec, t);
    var certManager, ingress := v.certManager, v.ingress;
    var cp1 := Stored(cp, CpWritten(cp, v, t1), counter);
    if CpWritten(cp1, v2, t2).status == cp1.status {
      VerdictVisible(cp1, v2, certManager, ingress, t2);
    }
  }

  lemma BothAreUp(out: Outside, tc: Option<TargetCluster>, ns: string, spec: ClusterPrerequisitesSpec, t: Target)
    requires Tracks(t) && Tracks(CpVerdictOf(out, tc, ns, spec, t).1)
    requires CpVerdictOf(out, tc, ns, spec, CpVerdictOf(out, tc, ns, spec, t).1).0 != CpVerdictOf(out, tc, ns, spec, t).0
    ensures CpVerdictOf(out, tc, ns, spec, t).0.Up?
    ensures CpVerdictOf(out, tc, ns, spec, CpVerdictOf(out, tc, ns, spec, t).1).0.Up?
  {
    hide ComponentStep;
  }

  // ---------------------------------------------------------- main results

  // Every later pass leaves both stored objects as they are.
  ghost predicate AtRest(out: Outside, w: Calm) {
    && Tracks(w.target) && !Unsettled(out, w)
    && (forall now :: TcPass(out, w, now).tc == w.tc)
    && (forall now :: CpPass(out, w, now).cp == w.cp)
  }

  lemma AtRestStays(out: Outside, w: Calm, pass: Pass)
    requires AtRest(out, w)
    ensures var w1 := RunPass(out, w, pass); AtRest(out, w1) && w1.tc == w.tc && w1.cp == w.cp
  {
    hide PassUnsettled, CpPass, TcPass;
    var w1 := RunPass(out, w, pass);
    match pass
    case OfTc(at) =>
      TcPassFrame(out, w, at);
      forall now ensures TcPass(out, w1, now).tc == w1.tc { TcPassSettles(out, w, at, now); }
      forall now ensures CpPass(out, w1, now).cp == w1.cp {
        CpPassCounter(out, w, w1, now);
      }
    case OfCp(at) =>
      CpPassSettles(out, w, at, 0);
      forall now ensures CpPass(out, w1, now).cp == w1.cp { CpPassSettles(out, w, at, now); }
      forall now ensures TcPass(out, w1, now).tc == w1.tc { TcPassCounter(out, w, w1, now); }
  }

  lemma TcPassFrame(out: Outside, w: Calm, now: nat)
    ensures var w1 := TcPass(out, w, now); w1.cp == w.cp && w1.target == w.target
  {
  }

  // Whether a pass changes an object does not depend on version numbers.
  lemma CpPassCounter(out: Outside, w: Calm, w1: Calm, now: nat)
    requires w1.tc == w.tc && w1.cp == w.cp && w1.target == w.target && CpPass(out, w, now).cp == w.cp
    ensures CpPass(out, w1, now).cp == w1.cp
  {
    hide RunCp;
  }

  lemma TcPassCounter(out: Outside, w: Calm, w1: Calm, now: nat)
    requires w1.tc == w.tc && TcPass(out, w, now).tc == w.tc
    ensures TcPass(out, w1, now).tc == w1.tc
  {
    hide RunTc;
  }

  lemma {:induction false} AtRestForever(out: Outside, w: Calm, later: seq<Pass>)
    requires AtRest(out, w)
    ensures RunPasses(out, w, later).tc == w.tc && RunPasses(out, w, later).cp == w.cp
    decreases |later|
  {
    if later != [] {
      AtRestStays(out, w, later[0]);
      AtRestForever(out, RunPass(out, w, later[0]), later[1..]);
    }
  }

  lemma RestAfterCpPass(out: Outside, w: Calm, t1: nat, t2: nat)
    requires Tracks(w.target)
    ensures var w1 := TcPass(out, w, t1);
            Tracks(w1.target) && (!Unsettled(out, w1) ==> AtRest(out, CpPass(out, w1, t2)))
  {
    hide PassUnsettled, CpPass, TcPass;
    TcPassFrame(out, w, t1);
    var w1 := TcPass(out, w, t1);
    var w2 := CpPass(out, w1, t2);
    CpPassSettles(out, w1, t2, 0);
    if !Unsettled(out, w1) {
      forall now ensures CpPass(out, w2, now).cp == w2.cp { CpPassSettles(out, w1, t2, now); }
      forall now ensures TcPass(out, w2, now).tc == w2.tc {
        TcPassSettles(out, w, t1, now);
        TcPassCounter(out, w1, w2, now);
      }
    }
  }

  // In a quiet period a TargetCluster pass and two ClusterPrerequisites
  // passes bring both stored objects to rest: whatever passes follow, at
  // whatever times, rewrite them identically.
  lemma QuietPeriodSettles(out: Outside, w: Calm, t1: nat, t2: nat, t3: nat, later: seq<Pass>)
    requires Tracks(w.target)
    ensures var w3 := CpPass(out, CpPass(out, TcPass(out, w, t1), t2), t3);
            RunPasses(out, w3, later).tc == w3.tc && RunPasses(out, w3, later).cp == w3.cp
  {
    hide PassUnsettled, CpPass, TcPass, AtRest;
    RestAfterCpPass(out, w, t1, t2);
    var w1 := TcPass(out, w, t1);
    var w2 := CpPass(out, w1, t2);
    CpPassSettles(out, w1, t2, t3);
    AgainThenRest(out, w, w1, w2, t1, t2, t3);
    AtRestForever(out, CpPass(out, w2, t3), later);
  }

  lemma AgainThenRest(out: Outside, w: Calm, w1: Calm, w2: Calm, t1: nat, t2: nat, t3: nat)
    requires Tracks(w1.target) && w1 == TcPass(out, w, t1) && w2 == CpPass(out, w1, t2)
    requires Tracks(w2.target) && w2.tc == w1.tc && !Unsettled(out, w2)
    ensures AtRest(out, CpPass(out, w2, t3))
  {
    hide PassUnsettled, CpPass, TcPass;
    var w3 := CpPass(out, w2, t3);
    CpPassSettles(out, w2, t3, 0);
    forall now ensures CpPass(out, w3, now).cp == w3.cp { CpPassSettles(out, w2, t3, now); }
    forall now ensures TcPass(out, w3, now).tc == w3.tc {
      TcPassSettles(out, w, t1, now);
      TcPassCounter(out, w1, w3, now);
    }
  }

  lemma OnePass(out: Outside, w: Calm, pass: Pass)
    ensures RunPasses(out, w, [pass]) == RunPass(out, w, pass)
  {
    hide RunPass;
    assert [pass][1..] == [];
    assert RunPasses(out, RunPass(out, w, pass), []) == RunPass(out, w, pass);
  }

  // No sequence of later passes changes either stored object.
  ghost predicate NeverChanges(out: Outside, w: Calm) {
    forall later: seq<Pass> :: RunPasses(out, w, later).tc == w.tc && RunPasses(out, w, later).cp == w.cp
  }

  // One ClusterPrerequisites pass after the TargetCluster pass is enough
  // exactly when that pass does not leave behind a first release whose upgrade
  // by the next pass is reported otherwise.
  lemma OnePassSettlesIff(out: Outside, w: Calm, t1: nat, t2: nat)
    requires Tracks(w.target)
    ensures var w1 := TcPass(out, w, t1);
            var w2 := CpPass(out, w1, t2);
            Tracks(w1.target) && (NeverChanges(out, w2) <==> !Unsettled(out, w1))
  {
    hide PassUnsettled, CpPass, TcPass, AtRest;
    RestAfterCpPass(out, w, t1, t2);
    var w1 := TcPass(out, w, t1);
    var w2 := CpPass(out, w1, t2);
    if !Unsettled(out, w1) {
      forall later ensures RunPasses(out, w2, later).tc == w2.tc && RunPasses(out, w2, later).cp == w2.cp {
        AtRestForever(out, w2, later);
      }
    } else {
      CpPassSettles(out, w1, t2, t2);
      OnePass(out, w2, OfCp(t2));
      assert RunPasses(out, w2, [OfCp(t2)]).cp != w2.cp;
    }
  }

  // A world with one prerequisite to install and all credentials in place, in
  // which Helm answers i to the install and u to the upgrade, and a failed
  // install leaves its release behind.
  function Answering(i: Reply, u: Reply): Outside {
    var s := Secret(0, OtherSecretType("Opaque"), Some(map["kubeconfig" := [1], "username" := [1], "password" := [1]]));
    Outside(k => FoundSecret(s), k => OK, k => OK, k => VersionIs("v1.30.0"), k => NodesAre(1),
            (r, v, c) => ChartIs(Chart("1.0.0", 0)), (ns, verb) => None,
            (ns, r, c, v) => i, (ns, r, c, v) => u, ns => true)
  }

  function Fresh(): Calm {
    var tc := Resource(Meta(Key("default", "target"), 0, 1, 0),
                       TargetClusterSpec(BYO, Some(KubeconfigSecretRef("kube", ""))), Status(false, 0, [], NO_PROBE));
    var cp := Resource(Meta(Key("default", "prereqs"), 1, 1, 1),
                       ClusterPrerequisitesSpec("target", Some("creds"), Some(CertManagerComponent(true, "v1.18.2")), None, None),
                       Status(false, 0, [], NO_COMPONENTS));
    Calm(Some(tc), Some(cp), map[NamespaceOf(CertManager) := NOWHERE, NamespaceOf(Ingress) := NOWHERE], 2)
  }

  const CREDS := Credentials([1], [1])
  const CERT_MANAGER := PlanFor(CertManager, "v1.18.2", [1], CREDS)

  // There the pass goes through every gate and installs cert-manager.
  lemma FreshPassInstalls(i: Reply, u: Reply)
    ensures var out, w1 := Answering(i, u), TcPass(Answering(i, u), Fresh(), 0);
            && w1.tc.Some? && w1.cp == Fresh().cp && w1.target == Fresh().target
            && GateOf(out, w1.tc, "default", Fresh().cp.value.spec) == Open(w1.tc.value, [1])
            && CredsIn(out, "default", Fresh().cp.value.spec) == CREDS
            && DecideCertManager(Fresh().cp.value.spec.certManager, CREDS) == MustInstall("v1.18.2")
  {
    hide DockerConfig.Dockerconfigjson, RunTc, SetStatusCondition;
    var out, w := Answering(i, u), Fresh();
    RunTcIsVerdict(out, w.tc.value, 0);
    assert TcVerdictOf(out, w.tc.value.meta.key, w.tc.value.spec) == TcUp("v1.30.0", 1);
    assert TcPass(out, w, 0).tc.value.status.ready;
  }

  lemma FreshIsUnsettled(i: Reply, u: Reply)
    requires !(i.ReleaseIs? && u.ReleaseIs?)
    ensures Tracks(Fresh().target) && Tracks(TcPass(Answering(i, u), Fresh(), 0).target)
    ensures Unsettled(Answering(i, u), TcPass(Answering(i, u), Fresh(), 0))
  {
    hide DockerConfig.Dockerconfigjson, InstallUnsettled, TcPass, DecideIngress, GateOf, CredsIn, DecideCertManager;
    var out, w1 := Answering(i, u), TcPass(Answering(i, u), Fresh(), 0);
    FreshPassInstalls(i, u);
    UnsettledOnEmptySpot(out, CERT_MANAGER);
    assert StepUnsettled(out, MustInstall("v1.18.2"), CertManager, [1], CREDS, w1.target);
  }

  lemma UnsettledOnEmptySpot(out: Outside, plan: Plan)
    requires forall ns, verb :: out.fault(ns, verb).None?
    requires forall r, v, c :: out.chart(r, v, c).ChartIs?
    requires forall ns, r, c, v :: !(out.install(ns, r, c, v).ReleaseIs? && out.upgrade(ns, r, c, v).ReleaseIs?)
    requires forall ns :: out.failureLeavesRelease(ns)
    ensures InstallUnsettled(out, plan, NOWHERE)
  {
  }

  // Such a failure is possible: Helm times out on a first installation but
  // has already recorded the release, and the text of the error changes.
  lemma TimedOutInstall()
    ensures var out, w := Answering(Failed("timed out"), Failed("timed out")), Fresh();
            Tracks(w.target) && !NeverChanges(out, CpPass(out, TcPass(out, w, 0), 1))
  {
    hide Answering, Fresh, NeverChanges, CpPass, TcPass;
    FreshIsUnsettled(Failed("timed out"), Failed("timed out"));
    OnePassSettlesIff(Answering(Failed("timed out"), Failed("timed out")), Fresh(), 0, 1);
  }

  // With no other fault, the first run is ready if the install succeeds, and
  // the second if the upgrade does.
  lemma InstallThenUpgrade(i: Reply, u: Reply)
    ensures var out := Answering(i, u);
            var (s1, spot1) := InstallStep(out, CERT_MANAGER, NOWHERE);
            var s2 := InstallStep(out, CERT_MANAGER, spot1).0;
            !s1.skipped && !s2.skipped && s1.ready == i.ReleaseIs? && s2.ready == u.ReleaseIs?
  {
    hide DockerConfig.Dockerconfigjson, Contains, PullSecret.Holds, PullSecret.NewSecret;
    var out := Answering(i, u);
    PullStepRepeats(out, JobOf(CERT_MANAGER), NOWHERE);
  }

  // A pass that wants nothing but cert-manager is ready iff that is.
  lemma OnlyCertManagerCounts(out: Outside, w: Calm, now: nat)
    requires w.cp.Some? && Tracks(w.target) && w.cp.value.meta.key.namespace == "default"
    requires w.cp.value.spec == Fresh().cp.value.spec && CredsIn(out, "default", w.cp.value.spec) == CREDS
    requires var gate := GateOf(out, w.tc, "default", w.cp.value.spec); gate.Open? && gate.kubeconfig == [1]
    ensures var w1 := CpPass(out, w, now);
            var (s, spot) := InstallStep(out, CERT_MANAGER, w.target[NamespaceOf(CertManager)]);
            && w1.cp.Some? && w1.cp.value.meta.key == w.cp.value.meta.key && w1.cp.value.spec == w.cp.value.spec
            && w1.cp.value.status.ready == Done(s)
            && w1.tc == w.tc && w1.target == w.target[NamespaceOf(CertManager) := spot]
  {
    hide DockerConfig.Dockerconfigjson, CpPass, InstallStep, GateOf, CredsIn, SetStatusCondition;
    CpPassIsVerdict(out, w, now);
  }

  // And readiness itself may be lost that way: an install that succeeds, and
  // an upgrade of the same release that is refused.
  lemma RefusedUpgrade()
    ensures var out, w := Answering(ReleaseIs("1"), Failed("cannot patch")), Fresh();
            var w2 := CpPass(out, TcPass(out, w, 0), 1);
            && Tracks(w.target) && w2.cp.Some? && w2.cp.value.status.ready
            && var w3 := CpPass(out, w2, 2);
            w3.cp.Some? && !w3.cp.value.status.ready
  {
    hide Answering, CpPass, TcPass, InstallStep, GateOf, CredsIn, DecideCertManager;
    var i, u := ReleaseIs("1"), Failed("cannot patch");
    var out, w1 := Answering(i, u), TcPass(Answering(i, u), Fresh(), 0);
    FreshPassInstalls(i, u);
    InstallThenUpgrade(i, u);
    OnlyCertManagerCounts(out, w1, 1);
    OnlyCertManagerCounts(out, CpPass(out, w1, 1), 2);
  }

  // -------------------------------------------------- effects on the target

  // Nothing has been taken away.
  ghost predicate Grown(a: Spot, b: Spot) {
    (a.present ==> b.present) && (a.secret.Some? ==> b.secret.Some?) && a.revision <= b.revision
  }

  ghost predicate TargetGrown(a: Target, b: Target) { forall ns :: Grown(SpotOf(a, ns), SpotOf(b, ns)) }

  function AfterRequests(out: Outside, t: Target, ops: seq<TargetRequest>): Target
    decreases |ops|
  {
    if ops == [] then t else AfterRequests(out, OpAfter(out, t, ops[0]), ops[1..])
  }

  // Whatever requests the operator sends, in whatever order and however they
  // are answered, no namespace, Secret or release disappears, and namespaces
  // that no request names stay as they are.
  lemma {:induction false} RequestsOnlyAdd(out: Outside, t: Target, ops: seq<TargetRequest>)
    ensures TargetGrown(t, AfterRequests(out, t, ops))
    ensures forall ns :: (forall i :: 0 <= i < |ops| ==> ops[i].Connect? || ops[i].ns != ns) ==>
              SpotOf(AfterRequests(out, t, ops), ns) == SpotOf(t, ns)
    decreases |ops|
  {
    if ops != [] {
      var t1 := OpAfter(out, t, ops[0]);
      RequestsOnlyAdd(out, t1, ops[1..]);
      forall ns | forall i :: 0 <= i < |ops| ==> ops[i].Connect? || ops[i].ns != ns
        ensures SpotOf(AfterRequests(out, t, ops), ns) == SpotOf(t, ns)
      {
        assert ops[0].Connect? || ops[0].ns != ns;
        assert forall i :: 0 <= i < |ops[1..]| ==> ops[1..][i] == ops[i + 1];
      }
    }
  }

  // The next pass on w installs this component.
  predicate Installs(out: Outside, w: Calm, c: Component) {
    w.cp.Some? &&
    var ns, spec := w.cp.value.meta.key.namespace, w.cp.value.spec;
    var gate := GateOf(out, w.tc, ns, spec);
    gate.Open? &&
    (if c.CertManager? then DecideCertManager(spec.certManager, CredsIn(out, ns, spec)).MustInstall?
     else DecideIngress(spec.ingress, gate.tc.status.extra.kubernetesVersion, CredsIn(out, ns, spec)).MustInstall?)
  }

  // A pass leaves the namespace of a component it does not install exactly
  // as it was: disabling a component changes its status, not the target.
  lemma UninstalledUntouched(out: Outside, w: Calm, now: nat, c: Component)
    requires Tracks(w.target) && !Installs(out, w, c)
    ensures Tracks(CpPass(out, w, now).target)
    ensures CpPass(out, w, now).target[NamespaceOf(c)] == w.target[NamespaceOf(c)]
  {
    hide CpPass, CpWritten, InstallStep, DockerConfig.Dockerconfigjson;
    NamespacesDiffer();
    CpPassSettles(out, w, now, now);
    if w.cp.None? {
      NothingToPass(out, w, now);
    } else {
      CpPassIsVerdict(out, w, now);
    }
  }
}
