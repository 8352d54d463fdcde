// What holds after every behaviour of the interleaved system.
module Guarantees {
  import opened Bytes
  import opened Api
  import opened Protocol
  import opened Passes
  import opened PassLaws
  import opened Store
  import opened StoreLaws
  import opened System
  import opened SystemLaws
  import PullSecret
  import DockerConfig

  // ------------------------------------------------------ stored statuses

  // Every version ever stored, of either kind, has a coherent status.
  lemma StoredStatusesCoherent(steps: seq<Step>, key: Key)
    requires After(steps).Some?
    ensures forall o :: InLog(ChanOf(After(steps).value.tc, key), o) ==> Coherent(o)
    ensures forall o :: InLog(ChanOf(After(steps).value.cp, key), o) ==> Coherent(o)
  {
    AlwaysInv(steps);
    var w := After(steps).value;
    forall o | InLog(ChanOf(w.tc, key), o) ensures Coherent(o) {
      ChanOfOK(w.tc, key, w.counter);
    }
    forall o | InLog(ChanOf(w.cp, key), o) ensures Coherent(o) {
      ChanOfOK(w.cp, key, w.counter);
    }
  }

  // One uid at one generation has one spec.
  lemma OneSpecPerGeneration<S, X, W>(side: Side<S, X, W>, key: Key, counter: nat, a: Resource<S, X>, b: Resource<S, X>)
    requires ChansOK(side, counter) && InLog(ChanOf(side, key), a) && InLog(ChanOf(side, key), b)
    requires a.meta.uid == b.meta.uid && a.meta.generation == b.meta.generation
    ensures a.spec == b.spec
  {
    var c := ChanOf(side, key);
    ChanOfOK(side, key, counter);
    var i :| 0 <= i < |c.log| && c.log[i] == Some(a);
    var j :| 0 <= j < |c.log| && c.log[j] == Some(b);
    if i < j {
      assert Successive(a, b);
    } else if j < i {
      assert Successive(b, a);
    }
  }

  // The write c took effect and is what v carries.  Its pass fetched a stored
  // version of v's object at the generation v reports, went through every
  // gate, and had all three components done for the spec of that generation.
  ghost predicate InstalledBy(w: World, c: Issued<ClusterPrerequisitesSpec, Components, CpWork>, v: ClusterPrerequisites) {
    && c.landed && c.phase.Writing? && c.phase.obj.status.ready && c.phase.obj.status.extra == v.status.extra
    && c.key == v.meta.key && |c.trace| >= 3
    && c.trace[0].reply.FoundPrerequisites? && c.trace[1].reply.FoundTargetCluster? && c.trace[2].reply.FoundSecret?
    && var cp, tc, creds := c.trace[0].reply.cp, c.trace[1].reply.tc, CredsOf(c.trace);
    && InLog(ChanOf(w.cp, c.key), cp) && cp.meta.uid == v.meta.uid && cp.meta.generation == v.status.observedGeneration
    && (v.status.observedGeneration == v.meta.generation ==> cp.spec == v.spec)
    && tc.spec.byo.Some? && Gated(c.key, c.trace, cp, tc, KubeconfigIn(tc, c.trace[2].reply.secret), creds)
    && CertManagerDone(cp.spec, creds, Released(c.trace, CertManager))
    && IngressDone(cp.spec, tc.status.extra.kubernetesVersion, creds, Released(c.trace, Ingress))
    && LoadBalancerDone(cp.spec)
  }

  lemma ExplainedIsInstalled(w: World, e: Issued<ClusterPrerequisitesSpec, Components, CpWork>, v: ClusterPrerequisites)
    requires Inv(w) && CpGrounded(w.tc, w.cp, e.key, e.trace, e.phase) && Explains(e, v)
    requires InLog(ChanOf(w.cp, v.meta.key), v) && v.status.ready
    ensures InstalledBy(w, e, v)
  {
    hide DockerConfig.Dockerconfigjson, CpAfter, CpContinue, Contains, Released, Wakes, LatchOK, TcRunsOK, CpRunsOK, ReadyExplained;
    CpPassJustified(e.key, e.trace);
    var cp := e.trace[0].reply.cp;
    if v.status.observedGeneration == v.meta.generation {
      OneSpecPerGeneration(w.cp, v.meta.key, w.counter, cp, v);
    }
  }

  // A stored Ready was earned by such a pass.
  lemma ReadyMeansInstalled(steps: seq<Step>, v: ClusterPrerequisites)
    requires After(steps).Some? && InLog(ChanOf(After(steps).value.cp, v.meta.key), v) && v.status.ready
    ensures var w := After(steps).value;
            exists i :: 0 <= i < |w.cp.issued| && InstalledBy(w, w.cp.issued[i], v)
  {
    hide CpAfter, InstalledBy;
    AlwaysInv(steps);
    var w := After(steps).value;
    var c := ChanOf(w.cp, v.meta.key);
    var j :| 0 <= j < |c.log| && c.log[j] == Some(v);
    assert IsReady(c.log[j]);
    assert Explained(w.cp, c.log[j].value);
    var i :| 0 <= i < |w.cp.issued| && Explains(w.cp.issued[i], v);
    ExplainedIsInstalled(w, w.cp.issued[i], v);
  }

  // No behaviour ever reports a metallb spec Ready at its own generation.
  lemma MetalLBNeverReady(steps: seq<Step>, v: ClusterPrerequisites)
    requires After(steps).Some? && InLog(ChanOf(After(steps).value.cp, v.meta.key), v)
    requires v.spec.loadBalancer.Some? && v.spec.loadBalancer.value.kind.LBMetalLB?
    requires v.status.observedGeneration == v.meta.generation
    ensures !v.status.ready
  {
    if v.status.ready {
      ReadyMeansInstalled(steps, v);
    }
  }

  // -------------------------------------------------------- gated installs

  // Everything that must have happened earlier in the same pass before Helm
  // is asked to install or upgrade.
  ghost predicate EarnedBy(key: Key, trace: Trace, kubeconfig: Bytes, op: TargetRequest, c: Component, plan: Plan) {
    && |trace| >= 3 && trace[0].reply.FoundPrerequisites? && trace[1].reply.FoundTargetCluster?
    && (op.HelmInstall? || op.HelmUpgrade?)
    && op.ns == NamespaceOf(c) && op.release == ReleaseOf(c) && op.values == ValuesOf(c)
    && var cp, tc := trace[0].reply.cp, trace[1].reply.tc;
    && cp.meta.key == key && tc.meta.key.namespace == key.namespace
    && Gated(key, trace, cp, tc, kubeconfig, plan.creds) && Usable(plan.creds)
    && Wanted(cp.spec, tc.status.extra.kubernetesVersion, c)
    && plan == PlanFor(c, WantedVersion(cp.spec, c), kubeconfig, plan.creds)
    && PullConfirmed(trace, kubeconfig, JobOf(plan)) && ChartLoaded(trace, plan, op.chart)
    && LookedUp(trace, plan, op.HelmUpgrade?)
  }

  predicate IsHelmWrite(q: Request) { q.OnTarget? && (q.op.HelmInstall? || q.op.HelmUpgrade?) }

  lemma HelmWriteEarned(key: Key, trace: Trace, ctx: Context, plan: Plan, i: Install)
    requires CpKnows(key, trace, Working(InstallingComponent(ctx, plan, i))) && !AtEnd(i)
    requires IsHelmWrite(InstallRequest(plan, i))
    ensures var q := InstallRequest(plan, i);
            EarnedBy(key, trace, q.kubeconfig, q.op, plan.component, plan)
  {
    hide DockerConfig.Dockerconfigjson, Contains, Wanted, WantedVersion, PullConfirmed, ChartLoaded, LookedUp;
  }

  // Over whole runs: no Helm install or upgrade without its gates, in order.
  lemma HelmRequestsGated(steps: seq<Step>, i: nat)
    requires After(steps).Some? && i < |After(steps).value.cp.issued|
    ensures var c := After(steps).value.cp.issued[i];
            && !c.phase.Returned? && Proper(c.phase)
            && var q := CpRequest(c.key, c.phase);
            IsHelmWrite(q) ==> exists component, plan :: EarnedBy(c.key, c.trace, q.kubeconfig, q.op, component, plan)
  {
    hide DockerConfig.Dockerconfigjson;
    AlwaysInv(steps);
    var w := After(steps).value;
    var c := w.cp.issued[i];
    assert CpGrounded(w.tc, w.cp, c.key, c.trace, c.phase);
    CpPassJustified(c.key, c.trace);
    if IsHelmWrite(CpRequest(c.key, c.phase)) {
      HelmWriteEarned(c.key, c.trace, c.phase.work.ctx, c.phase.work.plan, c.phase.work.install);
    }
  }

  // -------------------------------------------------------- framed effects

  // A request stays inside one component's namespace, Secret and release.
  ghost predicate Framed(op: TargetRequest, c: Component) {
    match op
    case Connect => true
    case GetNamespace(ns) => ns == NamespaceOf(c)
    case CreateNamespace(ns) => ns == NamespaceOf(c)
    case GetTargetSecret(ns, name) => ns == NamespaceOf(c) && name == PULL_SECRET
    case CreateTargetSecret(ns, name, _) => ns == NamespaceOf(c) && name == PULL_SECRET
    case UpdateTargetSecret(ns, name, _) => ns == NamespaceOf(c) && name == PULL_SECRET
    case HelmInit(ns) => ns == NamespaceOf(c)
    case HelmLookup(ns, release) => ns == NamespaceOf(c) && release == ReleaseOf(c)
    case HelmInstall(ns, release, _, _) => ns == NamespaceOf(c) && release == ReleaseOf(c)
    case HelmUpgrade(ns, release, _, _) => ns == NamespaceOf(c) && release == ReleaseOf(c)
  }

  // The Secret written back is the one just read, at the resourceVersion just
  // read, with every other data key kept.
  ghost predicate KeepsTheRest(trace: Trace, op: TargetRequest) {
    op.UpdateTargetSecret? ==>
      && |trace| >= 1 && trace[|trace| - 1].reply.FoundSecret?
      && var found := trace[|trace| - 1].reply.secret;
      && op.secret.resourceVersion == found.resourceVersion && op.secret.kind.DockerConfigJson? && op.secret.data.Some?
      && forall k :: k != PullSecret.PAYLOAD_KEY ==>
           (k in op.secret.data.value <==> found.data.Some? && k in found.data.value) && DataAt(op.secret, k) == DataAt(found, k)
  }

  // A request to a target cluster serves a component that the spec just read
  // wants installed there.
  ghost predicate ServesWantedComponent(trace: Trace, op: TargetRequest, c: Component) {
    && Framed(op, c) && KeepsTheRest(trace, op)
    && |trace| >= 2 && trace[0].reply.FoundPrerequisites? && trace[1].reply.FoundTargetCluster?
    && Wanted(trace[0].reply.cp.spec, trace[1].reply.tc.status.extra.kubernetesVersion, c)
  }

  lemma InstallServesComponent(key: Key, trace: Trace, ctx: Context, plan: Plan, i: Install)
    requires CpKnows(key, trace, Working(InstallingComponent(ctx, plan, i))) && !AtEnd(i)
    requires InstallRequest(plan, i).OnTarget?
    ensures ServesWantedComponent(trace, InstallRequest(plan, i).op, plan.component)
  {
    hide DockerConfig.Dockerconfigjson, Contains, PullConfirmed, ChartLoaded, LookedUp, Wanted, WantedVersion;
  }

  // Over whole runs: TargetCluster passes never touch a target cluster, and
  // ClusterPrerequisites passes only inside one wanted component's frame.
  // (No request removes anything: TargetRequest has no such constructor.)
  lemma TargetEffectsFramed(steps: seq<Step>)
    requires After(steps).Some?
    ensures var w := After(steps).value;
            forall i :: 0 <= i < |w.tc.issued| ==>
              !w.tc.issued[i].phase.Returned? && !TcRequest(w.tc.issued[i].key, w.tc.issued[i].phase).OnTarget?
    ensures var w := After(steps).value;
            forall i :: 0 <= i < |w.cp.issued| ==> IssuedInFrame(w.cp.issued[i])
  {
    hide DockerConfig.Dockerconfigjson, CpAfter, TcAfter, CpContinue, TcContinue, ReadyExplained, LatchOK, Wakes, ChansOK;
    AlwaysInv(steps);
    var w := After(steps).value;
    forall i | 0 <= i < |w.cp.issued| ensures IssuedInFrame(w.cp.issued[i]) {
      var c := w.cp.issued[i];
      assert CpGrounded(w.tc, w.cp, c.key, c.trace, c.phase);
      CpPassJustified(c.key, c.trace);
      if CpRequest(c.key, c.phase).OnTarget? {
        var work := c.phase.work;
        InstallServesComponent(c.key, c.trace, work.ctx, work.plan, work.install);
      }
    }
  }

  ghost predicate IssuedInFrame(c: Issued<ClusterPrerequisitesSpec, Components, CpWork>) {
    && !c.phase.Returned? && Proper(c.phase)
    && var q := CpRequest(c.key, c.phase);
    q.OnTarget? ==> exists component :: ServesWantedComponent(c.trace, q.op, component)
  }

  // --------------------------------------------------------------- wakeups

  // Every existing ClusterPrerequisites will be looked at again; so will
  // every TargetCluster, unless it stores a terminal verdict.
  lemma NoLostWakeups(steps: seq<Step>, key: Key)
    requires After(steps).Some?
    ensures var w := After(steps).value;
            Current(ChanOf(w.cp, key)).Some? ==> Pending(w.cp, key)
    ensures var w := After(steps).value;
            Current(ChanOf(w.tc, key)).Some? ==>
              Pending(w.tc, key) || Terminal(Current(ChanOf(w.tc, key)).value.status)
  {
    AlwaysInv(steps);
  }

  // --------------------------------------------------------------- history

  // A stored Ready TargetCluster carries what some pass was told by the
  // cluster behind the kubeconfig its spec named at the observed generation.
  ghost predicate ProbedBy(w: World, c: Issued<TargetClusterSpec, Probe, TcWork>, v: TargetCluster) {
    && c.landed && c.phase.Writing? && c.phase.obj.status.ready && c.phase.obj.status.extra == v.status.extra
    && c.key == v.meta.key && |c.trace| == 6 && c.trace[0].reply.FoundTargetCluster? && c.trace[1].reply.FoundSecret?
    && var tc := c.trace[0].reply.tc;
    && InLog(ChanOf(w.tc, c.key), tc) && tc.meta.uid == v.meta.uid && tc.meta.generation == v.status.observedGeneration
    && (v.status.observedGeneration == v.meta.generation ==> tc.spec == v.spec)
    && tc.spec.byo.Some? && Probed(c.trace, tc, KubeconfigIn(tc, c.trace[1].reply.secret), v.status.extra)
  }

  lemma ReadyMeansProbed(steps: seq<Step>, v: TargetCluster)
    requires After(steps).Some? && InLog(ChanOf(After(steps).value.tc, v.meta.key), v) && v.status.ready
    ensures var w := After(steps).value;
            exists i :: 0 <= i < |w.tc.issued| && ProbedBy(w, w.tc.issued[i], v)
  {
    AlwaysInv(steps);
    var w := After(steps).value;
    var c := ChanOf(w.tc, v.meta.key);
    var j :| 0 <= j < |c.log| && c.log[j] == Some(v);
    assert IsReady(c.log[j]);
    assert Explained(w.tc, c.log[j].value);
    var i :| 0 <= i < |w.tc.issued| && Explains(w.tc.issued[i], v);
    var e := w.tc.issued[i];
    assert TcGrounded(w.tc, e.key, e.trace, e.phase);
    TcPassJustified(e.key, e.trace);
    if v.status.observedGeneration == v.meta.generation {
      OneSpecPerGeneration(w.tc, v.meta.key, w.counter, e.trace[0].reply.tc, v);
    }
    assert ProbedBy(w, e, v);
  }

  // Every stored version carries the probe of the most recent Ready version
  // of the same object, through unavailable passes, spec edits and all.
  lemma ProbeSurvives(steps: seq<Step>, key: Key, i: nat)
    requires After(steps).Some? && i < |ChanOf(After(steps).value.tc, key).log|
    requires ChanOf(After(steps).value.tc, key).log[i].Some?
    ensures var log := ChanOf(After(steps).value.tc, key).log;
            log[i].value.status.extra == Latched(log, i)
  {
    AlwaysInv(steps);
  }

  // Bundling is only ever decided from a version read together with Ready:
  // whenever a stored ClusterPrerequisites says that it uses the Traefik of
  // some Kubernetes version, through later unavailable passes, spec edits and
  // all, that is the version of a stored Ready TargetCluster that the same
  // object referred to, and it is one that bundles Traefik.
  lemma IngressDecidedOnReadyTarget(steps: seq<Step>, v: ClusterPrerequisites)
    requires After(steps).Some? && InLog(ChanOf(After(steps).value.cp, v.meta.key), v)
    requires v.status.extra.ingress.message.UsingBundledTraefik?
    ensures var k8s := v.status.extra.ingress.message.version;
            && v.status.extra.ingress == ComponentStatus(true, true, k8s, UsingBundledTraefik(k8s)) && HasBundledTraefik(k8s)
            && exists cp: ClusterPrerequisites, tc: TargetCluster ::
                 && InLog(ChanOf(After(steps).value.cp, v.meta.key), cp) && InLog(ChanOf(After(steps).value.tc, tc.meta.key), tc)
                 && BundledFor(v, cp, tc)
  {
    hide After, HasBundledTraefik, InLog;
    AlwaysInv(steps);
    var w := After(steps).value;
    StoredBundling(w, v);
    var cp: ClusterPrerequisites, tc: TargetCluster :|
      InLog(ChanOf(w.cp, v.meta.key), cp) && InLog(ChanOf(w.tc, tc.meta.key), tc) && DecidedFrom(v, cp, tc);
    StoredKey(w, v.meta.key, cp);
    assert BundledFor(v, cp, tc);
  }

  // One version of v's object asked for the bundled Traefik where there is
  // one and referred to tc, which was Ready with the version v speaks of.
  predicate BundledFor(v: ClusterPrerequisites, cp: ClusterPrerequisites, tc: TargetCluster) {
    && cp.meta.uid == v.meta.uid && cp.meta.key == v.meta.key
    && cp.spec.ingress.Some? && cp.spec.ingress.value.enabled
    && (cp.spec.ingress.value.useBundled.ModeAuto? || cp.spec.ingress.value.useBundled.ModeUnset?)
    && tc.meta.key == Key(v.meta.key.namespace, cp.spec.targetClusterRef) && tc.status.ready
    && v.status.extra.ingress.message == UsingBundledTraefik(tc.status.extra.kubernetesVersion)
  }

  lemma StoredBundling(w: World, v: ClusterPrerequisites)
    requires Inv(w) && InLog(ChanOf(w.cp, v.meta.key), v) && v.status.extra.ingress.message.UsingBundledTraefik?
    ensures Decided(w.tc, w.cp, v.meta.key, v)
  {
    hide ChansOK, TcRunsOK, CpRunsOK, ReadyExplained, LatchOK, Wakes, DecidedFrom;
    var c := ChanOf(w.cp, v.meta.key);
    var i :| 0 <= i < |c.log| && c.log[i] == Some(v);
    assert BundlingRead(w.tc, w.cp, v.meta.key, c.log[i]);
  }

  lemma StoredKey(w: World, key: Key, cp: ClusterPrerequisites)
    requires ChansOK(w.cp, w.counter) && InLog(ChanOf(w.cp, key), cp)
    ensures cp.meta.key == key
  {
    ChanOfOK(w.cp, key, w.counter);
  }

  // ------------------------------------------------- kubeconfig agreement

  // A pass that has read v asks for the Secret `asked`, and given s for it
  // goes on with the kubeconfig `probed`.
  predicate Resolves(cp: ClusterPrerequisites, v: TargetCluster, s: Secret, t1: nat, t2: nat, asked: Request, probed: Bytes) {
    var phase := CpTargetFound(cp, v, t1);
    && phase.Working? && phase.work.ReadingKubeconfig? && CpRequest(cp.meta.key, phase) == asked
    && CpContinue(phase, FoundSecret(s), t2) == CpKubeconfigFound(cp, v, probed, t2)
  }

  // Every pass that reads v asks for the Secret that the probe c asked for,
  // and as long as that still has the data c found, resolves exactly the
  // bytes that c parsed.
  ghost predicate Agrees(c: Issued<TargetClusterSpec, Probe, TcWork>, v: TargetCluster) {
    && |c.trace| >= 3 && c.trace[1].reply.FoundSecret? && c.trace[2].request.ParseKubeconfig?
    && forall cp: ClusterPrerequisites, s: Secret, t1: nat, t2: nat :: s.data == c.trace[1].reply.secret.data ==>
         Resolves(cp, v, s, t1, t2, c.trace[1].request, c.trace[2].request.kubeconfig)
  }

  // v's spec names the Secret the probe c read, and its data key has the bytes
  // that c found there under its own.
  predicate NamesProbed(c: Issued<TargetClusterSpec, Probe, TcWork>, v: TargetCluster) {
    && |c.trace| >= 2 && c.trace[0].reply.FoundTargetCluster? && c.trace[1].reply.FoundSecret?
    && c.trace[0].reply.tc.spec.byo.Some? && v.spec.kind.BYO? && v.spec.byo.Some?
    && SecretRequest(v) == c.trace[1].request
    && KubeconfigIn(v, c.trace[1].reply.secret) == KubeconfigIn(c.trace[0].reply.tc, c.trace[1].reply.secret)
  }

  // For a stored Ready version, that is exactly when the two agree.
  lemma AgreesIff(w: World, c: Issued<TargetClusterSpec, Probe, TcWork>, v: TargetCluster)
    requires ProbedBy(w, c, v) && v.status.ready
    ensures Agrees(c, v) <==> NamesProbed(c, v)
  {
    hide DockerConfig.Dockerconfigjson, CertManagerTurn, InLog;
    var s := c.trace[1].reply.secret;
    if Agrees(c, v) {
      var asking := ClusterPrerequisitesSpec("", Some(""), None, None, None);
      var cp := Resource(Meta(v.meta.key, 0, 0, 0), asking, Status(false, 0, [], NO_COMPONENTS));
      assert Resolves(cp, v, s, 0, 0, c.trace[1].request, c.trace[2].request.kubeconfig);
    }
  }

  // At equal generations the two always agree: some TargetCluster pass probed
  // what the ClusterPrerequisites pass resolves.
  lemma KubeconfigAgreement(steps: seq<Step>, key: Key)
    requires After(steps).Some? && key in After(steps).value.cp.active
    requires var trace := After(steps).value.cp.active[key].trace;
             && |trace| >= 2 && trace[1].reply.FoundTargetCluster?
             && trace[1].reply.tc.status.ready
             && trace[1].reply.tc.status.observedGeneration == trace[1].reply.tc.meta.generation
    ensures var w := After(steps).value;
            exists i :: 0 <= i < |w.tc.issued| && Agrees(w.tc.issued[i], w.cp.active[key].trace[1].reply.tc)
  {
    hide Agrees, TcAfter, CpAfter;
    AlwaysInv(steps);
    var w := After(steps).value;
    var run := w.cp.active[key];
    assert CpGrounded(w.tc, w.cp, key, run.trace, run.phase);
    CpPassJustified(key, run.trace);
    var tc := run.trace[1].reply.tc;
    ReadyMeansProbed(steps, tc);
    var i :| 0 <= i < |w.tc.issued| && ProbedBy(w, w.tc.issued[i], tc);
    var c := w.tc.issued[i];
    assert TcGrounded(w.tc, c.key, c.trace, c.phase);
    TcPassJustified(c.key, c.trace);
    TcTraceFetched(c.key, c.trace);
    AgreesIff(w, c, tc);
  }

  lemma {:induction false} TcTraceFetched(key: Key, trace: Trace)
    requires TcAfter(key, trace).Some? && |trace| >= 1 && trace[0].reply.FoundTargetCluster?
    ensures TcFetched(key, trace, trace[0].reply.tc)
  {
    if |trace| > 1 {
      TcTraceFetched(key, trace[..|trace| - 1]);
    } else {
      assert TcAfter(key, trace[..0]) == Some(Fetching);
    }
  }

  // Only Ready is checked, so an edit outruns it: whatever the new spec, the
  // object is still Ready, for an older generation, on the strength of a probe
  // for that generation; and passes that read it agree with that probe exactly
  // if the new spec still names the Secret probed and a data key with the
  // same bytes.
  lemma SpecEditOutrunsReady(steps: seq<Step>, key: Key, spec: TargetClusterSpec)
    requires After(steps).Some? && IsReady(Current(ChanOf(After(steps).value.tc, key)))
    ensures var edited := steps + [OfTc(key, Change(ChangeSpec(spec)))];
            && After(edited).Some?
            && var w, current := After(edited).value, Current(ChanOf(After(edited).value.tc, key));
            && IsReady(current) && current.value.spec == spec
            && current.value.status.observedGeneration < current.value.meta.generation
            && (exists i :: 0 <= i < |w.tc.issued| && ProbedBy(w, w.tc.issued[i], current.value))
            && (forall i :: 0 <= i < |w.tc.issued| && ProbedBy(w, w.tc.issued[i], current.value) ==>
                  (Agrees(w.tc.issued[i], current.value) <==> NamesProbed(w.tc.issued[i], current.value)))
  {
    hide TcAfter, CpAfter, ProbedBy, Agrees, NamesProbed;
    var edited := steps + [OfTc(key, Change(ChangeSpec(spec)))];
    EditKeepsReady(steps, key, spec);
    var w := After(edited).value;
    var tc := Current(ChanOf(w.tc, key)).value;
    ReadyMeansProbed(edited, tc);
    forall i | 0 <= i < |w.tc.issued| && ProbedBy(w, w.tc.issued[i], tc)
      ensures Agrees(w.tc.issued[i], tc) <==> NamesProbed(w.tc.issued[i], tc)
    {
      AgreesIff(w, w.tc.issued[i], tc);
    }
  }

  lemma EditKeepsReady(steps: seq<Step>, key: Key, spec: TargetClusterSpec)
    requires After(steps).Some? && IsReady(Current(ChanOf(After(steps).value.tc, key)))
    ensures var edited := steps + [OfTc(key, Change(ChangeSpec(spec)))];
            && After(edited).Some?
            && var c := ChanOf(After(edited).value.tc, key);
            && IsReady(Current(c)) && Current(c).value.spec == spec && Current(c).value.meta.key == key && InLog(c, Current(c).value)
            && Current(c).value.status.observedGeneration < Current(c).value.meta.generation
  {
    hide TcAfter, CpAfter;
    AlwaysInv(steps);
    var w := After(steps).value;
    var edited := steps + [OfTc(key, Change(ChangeSpec(spec)))];
    assert edited[..|steps|] == steps;
    ChanOfOK(w.tc, key, w.counter);
    var c := ChanOf(w.tc, key);
    assert VersionOK(c.log[|c.log| - 1].value, key, w.counter);
  }
}
