// What the requests of every behaviour carry, in the words of the objects and
// Secrets that their own pass has read.
module Carried {
  import opened Bytes
  import opened Api
  import opened Protocol
  import opened Passes
  import opened PassLaws
  import opened Store
  import opened StoreLaws
  import opened System
  import opened SystemLaws
  import opened Account
  import opened InstallAccount
  import opened PassAccount
  import PullSecret
  import DockerConfig
  import JsonString
  import Base64

  // ------------------------------------------------------- the kubeconfig

  // The kubeconfig a request of a TargetCluster pass is about.
  function ProbedWith(q: Request): Option<Bytes> {
    match q
    case ParseKubeconfig(kc) => Some(kc)
    case BuildClient(kc) => Some(kc)
    case ServerVersion(kc) => Some(kc)
    case ListNodes(kc) => Some(kc)
    case _ => None
  }

  // It is what the Secret named by the spec has under the key the spec names,
  // or under "kubeconfig" if it names none.
  lemma ProbesUseTheNamedKey(steps: seq<Step>, i: nat)
    requires After(steps).Some? && i < |After(steps).value.tc.issued|
    ensures var c := After(steps).value.tc.issued[i];
            && !c.phase.Returned?
            && var kc := ProbedWith(TcRequest(c.key, c.phase));
            kc.Some? ==>
              && |c.trace| >= 2 && c.trace[0].reply.FoundTargetCluster?
              && var tc := c.trace[0].reply.tc;
              && tc.spec.byo.Some? && c.trace[1].reply.FoundSecret?
              && var ref, s := tc.spec.byo.value, c.trace[1].reply.secret;
              && c.trace[1].request == GetSecret(Key(tc.meta.key.namespace, ref.name))
              && (ref.key != "" ==> HasBytes(s, ref.key, kc.value))
              && (ref.key == "" ==> HasBytes(s, "kubeconfig", kc.value))
  {
    hide After, TcAfter, CpAfter, TcVerdict, ReadyExplained, LatchOK, BundlingOK, Wakes, ChansOK, CpRunsOK;
    AlwaysInv(steps);
    var w := After(steps).value;
    var c := w.tc.issued[i];
    assert TcGrounded(w.tc, c.key, c.trace, c.phase);
    TcPassJustified(c.key, c.trace);
    if c.phase.Working? && !c.phase.work.ReadingSecret? {
      KubeconfigKeyIs(c.trace[1].reply.secret, c.phase.work.tc.spec.byo.value);
    }
  }

  // ------------------------------------------------ requests of an installation

  // The component is to be installed, with these words.
  ghost predicate Wants(cp: ClusterPrerequisites, tc: TargetCluster, w: Words) {
    || (cp.spec.certManager.Some? && cp.spec.certManager.value.enabled && w == CertManagerWords(cp.spec.certManager.value.version))
    || (cp.spec.ingress.Some? && WantsTraefik(cp.spec.ingress.value, tc.status.extra.kubernetesVersion)
        && w == TraefikWords(cp.spec.ingress.value.version))
  }

  // What a container runtime makes of the Secret for the registry's host.
  predicate Tells(s: Secret, c: Credentials) {
    && s.kind == DockerConfigJson && s.data.Some? && ".dockerconfigjson" in s.data.value
    && var entry := DockerConfig.EntryFor(s.data.value[".dockerconfigjson"], Ascii("dp.apps.rancher.io"));
    && entry.Some? && entry.value.username == JsonString.Sanitize(c.username) && entry.value.password == JsonString.Sanitize(c.password)
    && Base64.Decode(entry.value.auth) == Some(c.username + [':' as int] + c.password)
  }

  ghost predicate Carries(op: TargetRequest, w: Words, c: Credentials) {
    match op
    case Connect => true
    case GetNamespace(ns) => ns == w.ns
    case CreateNamespace(ns) => ns == w.ns
    case GetTargetSecret(ns, name) => ns == w.ns && name == "application-collection"
    case CreateTargetSecret(ns, name, s) => ns == w.ns && name == "application-collection" && Tells(s, c)
    case UpdateTargetSecret(ns, name, s) => ns == w.ns && name == "application-collection" && Tells(s, c)
    case HelmInit(ns) => ns == w.ns
    case HelmLookup(ns, release) => ns == w.ns && release == w.release
    case HelmInstall(ns, release, _, values) => ns == w.ns && release == w.release && values == HelmValues(["application-collection"], w.crds)
    case HelmUpgrade(ns, release, _, values) => ns == w.ns && release == w.release && values == HelmValues(["application-collection"], w.crds)
  }

  // A request to a registry or a target, after these exchanges.
  ghost predicate RequestTold(key: Key, trace: Trace, q: Request, w: Words, c: Credentials) {
    && |trace| >= 3 && trace[0].reply.FoundPrerequisites? && trace[1].reply.FoundTargetCluster?
    && var cp, tc := trace[0].reply.cp, trace[1].reply.tc;
    && Wants(cp, tc, w) && Supplied(trace, cp, c)
    && (q.LoadChart? ==> q.chartRef == w.chartRef && q.chartVersion == w.version && q.creds == c)
    && (q.OnTarget? ==> Entered(key, trace, cp, tc, q.kubeconfig) && Carries(q.op, w, c))
  }

  lemma HostIsClean()
    ensures JsonString.Sanitize(Ascii("dp.apps.rancher.io")) == Ascii("dp.apps.rancher.io")
  {
    JsonString.SanitizeAscii(Ascii("dp.apps.rancher.io"));
  }

  lemma PayloadTells(s: Secret, c: Credentials)
    requires InPlace(s, c)
    ensures Tells(s, c)
  {
    hide DockerConfig.Dockerconfigjson, DockerConfig.EntryFor, JsonString.Sanitize, Ascii;
    HostIsClean();
    DockerConfig.ParseDockerconfigjson(Ascii("dp.apps.rancher.io"), c.username, c.password);
  }

  lemma InstallCarries(plan: Plan, w: Words, kc: Bytes, c: Credentials, seg: Trace, i: Install)
    requires Worded(plan, w, kc, c) && InstallAt(seg, w, kc, c, i) && !AtEnd(i)
    ensures var q := InstallRequest(plan, i);
            && (q.LoadChart? ==> q == LoadChart(w.chartRef, w.version, c))
            && (q.OnTarget? ==> q.kubeconfig == kc && Carries(q.op, w, c))
  {
    hide PayloadFor, HelmAt, HelmRun, Tells, NamespaceTold, InstallTold, PullTold;
    var q := InstallRequest(plan, i);
    if q.OnTarget? && q.op.CreateTargetSecret? {
      PayloadTells(q.op.secret, c);
    } else if q.OnTarget? && q.op.UpdateTargetSecret? {
      PayloadTells(q.op.secret, c);
    }
  }

  lemma UnderwayCarries(key: Key, trace: Trace, ctx: Context, plan: Plan, i: Install)
    requires CpKnows(key, trace, Working(InstallingComponent(ctx, plan, i))) && !AtEnd(i)
    requires CpPassTold(key, trace, Working(InstallingComponent(ctx, plan, i)))
    ensures RequestTold(key, trace, InstallRequest(plan, i), WordsOf(trace[0].reply.cp, plan.component), plan.creds)
  {
    hide Worded, InstallAt, Carries, CertManagerTold, Supplied, WantsTraefik, Gated, PlanKnown, InstallKnown, Released, Entered;
    var cp := trace[0].reply.cp;
    GatedIsEntered(key, trace, cp, ctx.tc, ctx.kubeconfig, ctx.creds);
    var m: nat :| Underway(trace, cp, ctx, plan, i, m);
    InstallCarries(plan, WordsOf(cp, plan.component), ctx.kubeconfig, plan.creds, trace[m..], i);
    GatedIsRead(key, trace, cp, ctx.tc, ctx.kubeconfig, ctx.creds);
  }

  lemma GatedIsRead(key: Key, trace: Trace, cp: ClusterPrerequisites, tc: TargetCluster, kc: Bytes, creds: Credentials)
    requires Gated(key, trace, cp, tc, kc, creds)
    ensures |trace| >= 3 && trace[1].reply == FoundTargetCluster(tc)
  {
  }

  // Over whole runs: every request of a ClusterPrerequisites pass to a
  // registry or a target cluster serves a component wanted by the spec read,
  // with the version, credentials and kubeconfig that the objects and Secrets
  // read in the same pass name.
  lemma RequestsCarry(steps: seq<Step>, i: nat)
    requires After(steps).Some? && i < |After(steps).value.cp.issued|
    ensures var c := After(steps).value.cp.issued[i];
            && !c.phase.Returned? && Proper(c.phase)
            && var q := CpRequest(c.key, c.phase);
            q.LoadChart? || q.OnTarget? ==> exists w, creds :: RequestTold(c.key, c.trace, q, w, creds)
  {
    hide RequestTold, CpAfter, CompletedVerdict, DockerConfig.Dockerconfigjson, ReadyExplained, LatchOK, BundlingOK, Wakes, ChansOK, TcRunsOK;
    AlwaysInv(steps);
    var w := After(steps).value;
    var c := w.cp.issued[i];
    assert CpGrounded(w.tc, w.cp, c.key, c.trace, c.phase);
    CpPassJustified(c.key, c.trace);
    CpPassIsTold(c.key, c.trace);
    var q := CpRequest(c.key, c.phase);
    if q.LoadChart? || q.OnTarget? {
      var work := c.phase.work;
      UnderwayCarries(c.key, c.trace, work.ctx, work.plan, work.install);
    }
  }

  // ------------------------------------------------------- single promises

  // The user name and the password of the credentials Secret go to the
  // registry, and into the pull Secret, each as what it is.
  lemma CredentialsAreCarried(steps: seq<Step>, i: nat)
    requires After(steps).Some? && i < |After(steps).value.cp.issued|
    ensures var c := After(steps).value.cp.issued[i];
            && !c.phase.Returned? && Proper(c.phase)
            && var q := CpRequest(c.key, c.phase);
            && (q.LoadChart? || (q.OnTarget? && (q.op.CreateTargetSecret? || q.op.UpdateTargetSecret?)) ==>
                  && |c.trace| >= 4 && c.trace[0].reply.FoundPrerequisites? && c.trace[0].reply.cp.spec.credentialsSecretRef.Some?
                  && c.trace[3].request == GetSecret(Key(c.trace[0].reply.cp.meta.key.namespace, c.trace[0].reply.cp.spec.credentialsSecretRef.value))
                  && c.trace[3].reply.FoundSecret?
                  && var s := c.trace[3].reply.secret;
                  && var creds := Credentials(DataAt(s, "username"), DataAt(s, "password"));
                  && (q.LoadChart? ==> q.creds == creds)
                  && (q.OnTarget? ==> Tells(q.op.secret, creds)))
  {
    hide Tells, After, CpRequest;
    RequestsCarry(steps, i);
  }

  // The chart asked for is the wanted component's, in the version its spec
  // names or, if it names none, in the default one.
  lemma VersionsAreCarried(steps: seq<Step>, i: nat)
    requires After(steps).Some? && i < |After(steps).value.cp.issued|
    ensures var c := After(steps).value.cp.issued[i];
            && !c.phase.Returned? && Proper(c.phase)
            && var q := CpRequest(c.key, c.phase);
            q.LoadChart? ==>
              && |c.trace| >= 1 && c.trace[0].reply.FoundPrerequisites?
              && var spec := c.trace[0].reply.cp.spec;
              || (spec.certManager.Some? && spec.certManager.value.enabled
                  && q.chartRef == "oci://dp.apps.rancher.io/charts/cert-manager"
                  && (spec.certManager.value.version != "" ==> q.chartVersion == spec.certManager.value.version)
                  && (spec.certManager.value.version == "" ==> q.chartVersion == "v1.18.2"))
              || (spec.ingress.Some? && spec.ingress.value.enabled
                  && q.chartRef == "oci://dp.apps.rancher.io/charts/traefik"
                  && (spec.ingress.value.version != "" ==> q.chartVersion == spec.ingress.value.version)
                  && (spec.ingress.value.version == "" ==> q.chartVersion == "37.0.0"))
  {
    hide After, CpRequest, Supplied;
    RequestsCarry(steps, i);
  }

  // Which Kubernetes versions bring their own Traefik.
  lemma BundledVersions(v: string)
    ensures HasBundledTraefik(v) <==> exists a, b :: (Spelled(v, a, "+k3s", b) || Spelled(v, a, "+rke2", b))
  {
    ContainsIsMentions(v, "+k3s");
    ContainsIsMentions(v, "+rke2");
  }

  // On such a version, unless the spec says otherwise, nothing is asked of a
  // target or a registry on Traefik's behalf: every request is cert-manager's.
  lemma NoSecondTraefik(steps: seq<Step>, i: nat, a: string, b: string)
    requires After(steps).Some? && i < |After(steps).value.cp.issued|
    requires var trace := After(steps).value.cp.issued[i].trace;
             && |trace| >= 2 && trace[0].reply.FoundPrerequisites? && trace[1].reply.FoundTargetCluster?
             && var v, ingress := trace[1].reply.tc.status.extra.kubernetesVersion, trace[0].reply.cp.spec.ingress;
             && (v == a + "+k3s" + b || v == a + "+rke2" + b)
             && (ingress.Some? ==> ingress.value.useBundled.ModeAuto? || ingress.value.useBundled.ModeUnset?)
    ensures var c := After(steps).value.cp.issued[i];
            && !c.phase.Returned? && Proper(c.phase)
            && var q := CpRequest(c.key, c.phase);
            && (q.LoadChart? ==> q.chartRef == "oci://dp.apps.rancher.io/charts/cert-manager")
            && (q.OnTarget? && !q.op.Connect? ==> q.op.ns == "cert-manager")
  {
    hide After, CpRequest, Supplied, Tells;
    RequestsCarry(steps, i);
    var v := After(steps).value.cp.issued[i].trace[1].reply.tc.status.extra.kubernetesVersion;
    assert Spelled(v, a, "+k3s", b) || Spelled(v, a, "+rke2", b);
    assert BringsTraefik(v);
  }
}
