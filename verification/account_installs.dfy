// The account of a component's installation: the image-pull Secret, the chart
// and the Helm run.
module InstallAccount {
  import opened Bytes
  import opened Api
  import opened Protocol
  import opened Passes
  import opened PassLaws
  import opened Account
  import PullSecret
  import DockerConfig

  // -------------------------------------------------------------- the names

  datatype Words = Words(ns: string, release: string, chartRef: string, version: string, crds: bool)

  function CertManagerWords(version: string): Words {
    Words("cert-manager", "cert-manager", "oci://dp.apps.rancher.io/charts/cert-manager",
          if version != "" then version else "v1.18.2", true)
  }

  function TraefikWords(version: string): Words {
    Words("traefik", "traefik", "oci://dp.apps.rancher.io/charts/traefik", if version != "" then version else "37.0.0", false)
  }

  // The payload for these credentials.
  function PayloadFor(c: Credentials): Bytes {
    DockerConfig.Dockerconfigjson(Ascii("dp.apps.rancher.io"), c.username, c.password)
  }

  // The plan uses these words and credentials.
  predicate Worded(plan: Plan, w: Words, kc: Bytes, c: Credentials) {
    && NamespaceOf(plan.component) == w.ns && ReleaseOf(plan.component) == w.release
    && ChartRefOf(plan.component) == w.chartRef && plan.version == w.version
    && ValuesOf(plan.component) == HelmValues(["application-collection"], w.crds)
    && JobOf(plan) == PullSecret.Job(w.ns, "application-collection", PayloadFor(c))
    && plan.kubeconfig == kc && plan.creds == c
  }

  // v contains part.
  predicate Spelled(v: string, a: string, part: string, b: string) { v == a + part + b }

  ghost predicate Mentions(v: string, part: string) { exists a, b :: Spelled(v, a, part, b) }

  lemma ContainsIsMentions(v: string, part: string)
    ensures Contains(v, part) <==> Mentions(v, part)
  {
    if Contains(v, part) {
      var i :| 0 <= i <= |v| && OccursAt(v, part, i);
      assert v == v[..i] + v[i..i + |part|] + v[i + |part|..];
      assert Spelled(v, v[..i], part, v[i + |part|..]);
    }
    if Mentions(v, part) {
      var a, b :| Spelled(v, a, part, b);
      assert v[|a|..|a| + |part|] == part;
      assert OccursAt(v, part, |a|);
    }
  }

  // ------------------------------------------------------ the pull Secret

  predicate Asks(e: Exchange, kc: Bytes, op: TargetRequest) { e.request == OnTarget(kc, op) }

  // The Secret found is of the right type and has the payload.
  predicate InPlace(s: Secret, c: Credentials) {
    s.kind == DockerConfigJson && s.data.Some? && ".dockerconfigjson" in s.data.value
    && s.data.value[".dockerconfigjson"] == PayloadFor(c)
  }

  // The Secret written back: the one found with type and payload overwritten.
  predicate Overwrites(found: Secret, s: Secret, c: Credentials) {
    && s.resourceVersion == found.resourceVersion && s.kind == DockerConfigJson && s.data.Some?
    && s.data.value == (if found.data.Some? then found.data.value else map[])[".dockerconfigjson" := PayloadFor(c)]
  }

  // The namespace is there after the first n exchanges, 2 or 3.
  predicate NamespaceTold(seg: Trace, w: Words, kc: Bytes, n: nat) {
    && 2 <= n <= |seg| && Asks(seg[0], kc, Connect) && seg[0].reply.OK? && Asks(seg[1], kc, GetNamespace(w.ns))
    && if n == 2 then seg[1].reply.OK?
       else
         && n == 3 && seg[1].reply.NotFound? && Asks(seg[2], kc, CreateNamespace(w.ns))
         && (seg[2].reply.OK? || seg[2].reply.AlreadyExists?)
  }

  // It never comes to that.
  predicate NamespaceFails(seg: Trace, w: Words, kc: Bytes, fault: Fault) {
    && seg != [] && Asks(seg[0], kc, Connect)
    && if |seg| == 1 then !seg[0].reply.OK? && fault == Fault("connecting", Cause(seg[0].reply))
       else
         && seg[0].reply.OK? && Asks(seg[1], kc, GetNamespace(w.ns)) && !seg[1].reply.OK?
         && if |seg| == 2 then !seg[1].reply.NotFound? && fault == Fault("looking up namespace", Cause(seg[1].reply))
            else
              && |seg| == 3 && seg[1].reply.NotFound? && Asks(seg[2], kc, CreateNamespace(w.ns))
              && !seg[2].reply.OK? && !seg[2].reply.AlreadyExists?
              && fault == Fault("creating namespace", Cause(seg[2].reply))
  }

  // The last exchange asks for the Secret, right after the namespace.
  predicate LooksUp(seg: Trace, w: Words, kc: Bytes) {
    && seg != [] && NamespaceTold(seg, w, kc, |seg| - 1)
    && Asks(seg[|seg| - 1], kc, GetTargetSecret(w.ns, "application-collection"))
  }

  function Result(e: Exchange, doing: string): Option<Fault> {
    if e.reply.OK? then None else Some(Fault(doing, Cause(e.reply)))
  }

  // The Secret step as a whole, and its error.
  predicate SecretTold(seg: Trace, w: Words, kc: Bytes, c: Credentials, error: Option<Fault>) {
    && seg != []
    && var e := seg[|seg| - 1];
    var before := seg[..|seg| - 1];
    || (LooksUp(seg, w, kc) && e.reply.FoundSecret? && InPlace(e.reply.secret, c) && error == None)
    || (LooksUp(seg, w, kc) && !e.reply.FoundSecret? && !e.reply.NotFound?
        && error == Some(Fault("looking up image-pull Secret", Cause(e.reply))))
    || (LooksUp(before, w, kc) && before[|before| - 1].reply.NotFound?
        && Asks(e, kc, CreateTargetSecret(w.ns, "application-collection",
                         Secret(0, DockerConfigJson, Some(map[".dockerconfigjson" := PayloadFor(c)]))))
        && error == Result(e, "creating image-pull Secret"))
    || (LooksUp(before, w, kc) && before[|before| - 1].reply.FoundSecret?
        && var found := before[|before| - 1].reply.secret;
        && !InPlace(found, c) && e.request.OnTarget? && e.request.op.UpdateTargetSecret?
        && Asks(e, kc, UpdateTargetSecret(w.ns, "application-collection", e.request.op.secret))
        && Overwrites(found, e.request.op.secret, c)
        && error == Result(e, "updating image-pull Secret"))
  }

  predicate PullTold(seg: Trace, w: Words, kc: Bytes, c: Credentials, error: Option<Fault>) {
    SecretTold(seg, w, kc, c, error) || (error.Some? && NamespaceFails(seg, w, kc, error.value))
  }

  // The same on the way.
  predicate PullAt(seg: Trace, w: Words, kc: Bytes, c: Credentials, pull: PullSecret.Pull) {
    match pull
    case Connecting => seg == []
    case LookingUpNamespace => |seg| == 1 && Asks(seg[0], kc, Connect) && seg[0].reply.OK?
    case CreatingNamespace =>
      && |seg| == 2 && Asks(seg[0], kc, Connect) && seg[0].reply.OK?
      && Asks(seg[1], kc, GetNamespace(w.ns)) && seg[1].reply.NotFound?
    case LookingUpSecret => NamespaceTold(seg, w, kc, |seg|)
    case CreatingSecret => LooksUp(seg, w, kc) && seg[|seg| - 1].reply.NotFound?
    case UpdatingSecret(s) =>
      && LooksUp(seg, w, kc) && seg[|seg| - 1].reply.FoundSecret?
      && !InPlace(seg[|seg| - 1].reply.secret, c) && Overwrites(seg[|seg| - 1].reply.secret, s, c)
    case Ended(error) => PullTold(seg, w, kc, c, error)
  }

  lemma NamespaceStays(seg: Trace, e: Exchange, w: Words, kc: Bytes, n: nat)
    requires NamespaceTold(seg, w, kc, n)
    ensures NamespaceTold(seg + [e], w, kc, n)
  {
    assert forall i :: 0 <= i < |seg| ==> (seg + [e])[i] == seg[i];
  }

  lemma PayloadIsThere(c: Credentials)
    ensures PayloadFor(c) != []
  {
  }

  lemma PullStepTold(job: PullSecret.Job, w: Words, kc: Bytes, c: Credentials, seg: Trace, pull: PullSecret.Pull, e: Exchange)
    requires job == PullSecret.Job(w.ns, "application-collection", PayloadFor(c)) && PullAt(seg, w, kc, c, pull)
    requires !pull.Ended? && e.request == OnTarget(kc, PullSecret.Ask(job, pull))
    ensures PullAt(seg + [e], w, kc, c, PullSecret.Continue(job, pull, e.reply))
  {
    hide PayloadFor;
    PayloadIsThere(c);
    var t := seg + [e];
    assert t[|t| - 1] == e && t[..|t| - 1] == seg;
    assert forall i :: 0 <= i < |seg| ==> t[i] == seg[i];
    if pull.LookingUpSecret? { NamespaceStays(seg, e, w, kc, |seg|); }
  }

  // -------------------------------------------------------- the installation

  predicate ChartTold(e: Exchange, w: Words, c: Credentials) { e.request == LoadChart(w.chartRef, w.version, c) }

  // The chart, the Helm configuration, the lookup: k exchanges after the pull
  // Secret was put in place, all of them successful but for a release that is
  // not found.
  ghost predicate HelmAt(seg: Trace, w: Words, kc: Bytes, c: Credentials, k: nat) {
    && k <= 3 && k <= |seg|
    && var n := |seg| - k;
    && PullTold(seg[..n], w, kc, c, None)
    && (k >= 1 ==> ChartTold(seg[n], w, c) && seg[n].reply.ChartIs?)
    && (k >= 2 ==> Asks(seg[n + 1], kc, HelmInit(w.ns)) && seg[n + 1].reply.OK?)
    && (k >= 3 ==> Asks(seg[n + 2], kc, HelmLookup(w.ns, w.release)))
  }

  // The Helm run after the lookup: an upgrade if it found the release, an
  // install if its error says that there is none.
  ghost predicate HelmRun(seg: Trace, w: Words, kc: Bytes, chart: Chart, upgrade: bool) {
    && |seg| >= 3 && seg[|seg| - 3].reply == ChartIs(chart)
    && var lookup := seg[|seg| - 1].reply;
    if upgrade then lookup.OK? else !lookup.OK? && Mentions(Cause(lookup), "release: not found")
  }

  function Failure(message: Message): ComponentStatus { ComponentStatus(false, false, "", message) }

  function HelmFailure(doing: string, e: Exchange): ComponentStatus { Failure(HelmFailed(Fault(doing, Cause(e.reply)))) }

  // A finished installation and the status it reports.
  ghost predicate InstallTold(seg: Trace, w: Words, kc: Bytes, c: Credentials, s: ComponentStatus) {
    || (exists fault :: PullTold(seg, w, kc, c, Some(fault)) && s == Failure(PullSecretFailed(fault)))
    || (seg != [] &&
        var e := seg[|seg| - 1];
        var before := seg[..|seg| - 1];
        || (HelmAt(before, w, kc, c, 0) && ChartTold(e, w, c) && !e.reply.ChartIs? && s == Failure(LoadingChartFailed(Cause(e.reply))))
        || (HelmAt(before, w, kc, c, 1) && Asks(e, kc, HelmInit(w.ns)) && !e.reply.OK?
            && s == HelmFailure("initialising helm configuration", e))
        || (HelmAt(before, w, kc, c, 2) && Asks(e, kc, HelmLookup(w.ns, w.release)) && !e.reply.OK?
            && !Mentions(Cause(e.reply), "release: not found") && s == HelmFailure("looking up release", e))
        || (HelmAt(before, w, kc, c, 3)
            && exists chart, upgrade :: (HelmRun(before, w, kc, chart, upgrade) && HelmTold(e, w, kc, chart, upgrade, s))))
  }

  // What the Helm run carries, and the status it leads to.
  predicate HelmTold(e: Exchange, w: Words, kc: Bytes, chart: Chart, upgrade: bool, s: ComponentStatus) {
    var values := HelmValues(["application-collection"], w.crds);
    && Asks(e, kc, if upgrade then HelmUpgrade(w.ns, w.release, chart, values) else HelmInstall(w.ns, w.release, chart, values))
    && if e.reply.ReleaseIs? then
         && s.ready && !s.skipped && s.message == InstalledFromCollection
         && (e.reply.chartVersion != "" ==> s.installedVersion == e.reply.chartVersion)
         && (e.reply.chartVersion == "" ==> s.installedVersion == w.version)
       else s == HelmFailure(if upgrade then "upgrading release" else "installing release", e)
  }

  // The same on the way.
  ghost predicate InstallAt(seg: Trace, w: Words, kc: Bytes, c: Credentials, i: Install) {
    match i
    case Pulling(pull) => PullAt(seg, w, kc, c, pull) && !pull.Ended?
    case LoadingChart => HelmAt(seg, w, kc, c, 0)
    case InitialisingHelm(chart) => HelmAt(seg, w, kc, c, 1) && seg[|seg| - 1].reply == ChartIs(chart)
    case LookingUpRelease(chart) => HelmAt(seg, w, kc, c, 2) && seg[|seg| - 2].reply == ChartIs(chart)
    case Installing(chart) => HelmAt(seg, w, kc, c, 3) && HelmRun(seg, w, kc, chart, false)
    case Upgrading(chart) => HelmAt(seg, w, kc, c, 3) && HelmRun(seg, w, kc, chart, true)
    case Finished(s) => InstallTold(seg, w, kc, c, s)
  }

  lemma HelmStays(seg: Trace, e: Exchange, w: Words, kc: Bytes, c: Credentials, k: nat)
    requires HelmAt(seg, w, kc, c, k) && k < 3
    requires k == 0 ==> ChartTold(e, w, c) && e.reply.ChartIs?
    requires k == 1 ==> Asks(e, kc, HelmInit(w.ns)) && e.reply.OK?
    requires k == 2 ==> Asks(e, kc, HelmLookup(w.ns, w.release))
    ensures HelmAt(seg + [e], w, kc, c, k + 1)
  {
    hide PullTold;
    var t := seg + [e];
    var n := |seg| - k;
    assert t[..n] == seg[..n];
    assert forall i :: 0 <= i < |seg| ==> t[i] == seg[i];
  }

  lemma PullingTold(plan: Plan, w: Words, kc: Bytes, c: Credentials, seg: Trace, pull: PullSecret.Pull, e: Exchange)
    requires Worded(plan, w, kc, c) && PullAt(seg, w, kc, c, pull) && !pull.Ended?
    requires e.request == InstallRequest(plan, Pulling(pull))
    ensures InstallAt(seg + [e], w, kc, c, InstallContinue(plan, Pulling(pull), e.reply))
  {
    hide PayloadFor, PullTold, PullSecret.Continue, PullSecret.Ask;
    PullStepTold(JobOf(plan), w, kc, c, seg, pull, e);
    var t := seg + [e];
    assert t[..|t|] == t;
  }

  lemma RunTold(plan: Plan, w: Words, kc: Bytes, c: Credentials, seg: Trace, chart: Chart, upgrade: bool, e: Exchange)
    requires Worded(plan, w, kc, c) && HelmAt(seg, w, kc, c, 3) && HelmRun(seg, w, kc, chart, upgrade)
    requires e.request == InstallRequest(plan, if upgrade then Upgrading(chart) else Installing(chart))
    ensures InstallAt(seg + [e], w, kc, c, InstallContinue(plan, if upgrade then Upgrading(chart) else Installing(chart), e.reply))
  {
    hide PayloadFor, HelmAt, PullTold, HelmRun;
    var t := seg + [e];
    assert t[..|t| - 1] == seg && t[|t| - 1] == e;
    var s := InstallContinue(plan, if upgrade then Upgrading(chart) else Installing(chart), e.reply).status;
    assert HelmTold(e, w, kc, chart, upgrade, s);
  }

  lemma LookupTold(plan: Plan, w: Words, kc: Bytes, c: Credentials, seg: Trace, i: Install, e: Exchange)
    requires Worded(plan, w, kc, c) && InstallAt(seg, w, kc, c, i) && i.LookingUpRelease? && e.request == InstallRequest(plan, i)
    ensures InstallAt(seg + [e], w, kc, c, InstallContinue(plan, i, e.reply))
  {
    hide PayloadFor, PullTold, Mentions, Contains, PullAt, ValuesOf;
    var t := seg + [e];
    assert t[..|t| - 1] == seg && t[|t| - 1] == e;
    assert |seg| >= 2 && t[|t| - 3] == seg[|seg| - 2];
    ContainsIsMentions(Cause(e.reply), "release: not found");
    HelmStays(seg, e, w, kc, c, 2);
  }

  lemma InstallStepTold(plan: Plan, w: Words, kc: Bytes, c: Credentials, seg: Trace, i: Install, e: Exchange)
    requires Worded(plan, w, kc, c) && InstallAt(seg, w, kc, c, i) && !AtEnd(i) && e.request == InstallRequest(plan, i)
    ensures InstallAt(seg + [e], w, kc, c, InstallContinue(plan, i, e.reply))
  {
    hide PayloadFor, PullTold, HelmAt, Mentions, Contains, PullAt, HelmRun, ValuesOf;
    var t := seg + [e];
    assert t[..|t| - 1] == seg && t[|t| - 1] == e;
    ContainsIsMentions(Cause(e.reply), "release: not found");
    match i
    case Pulling(pull) => PullingTold(plan, w, kc, c, seg, pull, e);
    case LoadingChart => if e.reply.ChartIs? { HelmStays(seg, e, w, kc, c, 0); }
    case InitialisingHelm(_) =>
      if e.reply.OK? { HelmStays(seg, e, w, kc, c, 1); }
    case LookingUpRelease(_) => LookupTold(plan, w, kc, c, seg, i, e);
    case Installing(chart) => RunTold(plan, w, kc, c, seg, chart, false, e);
    case Upgrading(chart) => RunTold(plan, w, kc, c, seg, chart, true, e);
  }
}
