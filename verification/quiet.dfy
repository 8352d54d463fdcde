// A quiet period: specs, Secrets and every external answer are held fixed,
// while the target cluster keeps what the operator does to it.  Passes then
// settle.
module Quiet {
  import opened Bytes
  import opened Api
  import opened Protocol
  import opened Passes
  import PullSecret
  import DockerConfig

  datatype Verb =
    | AtConnect | AtGetNamespace | AtCreateNamespace | AtGetSecret | AtCreateSecret | AtUpdateSecret
    | AtHelmInit | AtHelmLookup

  // The fixed answers.  A request to the target that is not at fault is
  // answered from the target's state; one at fault has no effect.  Helm's
  // install and its upgrade of a release each have an outcome of their own.
  datatype Outside = Outside(
    secret: Key -> Reply,
    parse: Bytes -> Reply,
    client: Bytes -> Reply,
    version: Bytes -> Reply,
    nodes: Bytes -> Reply,
    chart: (string, string, Credentials) -> Reply,
    fault: (string, Verb) -> Option<string>,
    install: (string, string, Chart, HelmValues) -> Reply,
    upgrade: (string, string, Chart, HelmValues) -> Reply,
    failureLeavesRelease: string -> bool)

  // One namespace of the target: whether it exists, its pull Secret, and the
  // revision of its release (0 for none).
  datatype Spot = Spot(present: bool, secret: Option<Secret>, revision: nat, counter: nat)

  type Target = map<string, Spot>

  // Both component namespaces are tracked (absent ones as not present).
  predicate Tracks(t: Target) { forall c: Component :: NamespaceOf(c) in t }

  // ------------------------------------------------- answers of the target

  function OnFault(out: Outside, ns: string, verb: Verb, reply: Reply): Reply {
    match out.fault(ns, verb)
    case Some(cause) => Failed(cause)
    case None => reply
  }

  function StoreSecret(spot: Spot, s: Secret): Spot {
    spot.(secret := Some(s.(resourceVersion := spot.counter)), counter := spot.counter + 1)
  }

  // The API server never changes the type of a stored Secret.
  const TYPE_IS_IMMUTABLE := "field is immutable"

  function NsOf(op: TargetRequest): string { if op.Connect? then "" else op.ns }

  function SpotReply(out: Outside, spot: Spot, op: TargetRequest): Reply {
    var ns := NsOf(op);
    match op
    case Connect => OnFault(out, ns, AtConnect, OK)
    case GetNamespace(_) => OnFault(out, ns, AtGetNamespace, if spot.present then OK else NotFound)
    case CreateNamespace(_) => OnFault(out, ns, AtCreateNamespace, if spot.present then AlreadyExists else OK)
    case GetTargetSecret(_, _) =>
      OnFault(out, ns, AtGetSecret, if spot.secret.None? then NotFound else FoundSecret(spot.secret.value))
    case CreateTargetSecret(_, _, _) => OnFault(out, ns, AtCreateSecret, if spot.secret.Some? then AlreadyExists else OK)
    case UpdateTargetSecret(_, _, s) =>
      OnFault(out, ns, AtUpdateSecret,
              if spot.secret.None? || spot.secret.value.resourceVersion != s.resourceVersion then Failed("conflict")
              else if spot.secret.value.kind != s.kind then Failed(TYPE_IS_IMMUTABLE)
              else OK)
    case HelmInit(_) => OnFault(out, ns, AtHelmInit, OK)
    case HelmLookup(_, _) => OnFault(out, ns, AtHelmLookup, if spot.revision > 0 then OK else Failed("release: not found"))
    case HelmInstall(_, release, chart, values) => out.install(ns, release, chart, values)
    case HelmUpgrade(_, release, chart, values) => out.upgrade(ns, release, chart, values)
  }

  function SpotAfter(out: Outside, spot: Spot, op: TargetRequest): Spot {
    var reply := SpotReply(out, spot, op);
    match op
    case CreateNamespace(_) => if reply.OK? then spot.(present := true) else spot
    case CreateTargetSecret(_, _, s) => if reply.OK? then StoreSecret(spot, s) else spot
    case UpdateTargetSecret(_, _, s) => if reply.OK? then StoreSecret(spot, s) else spot
    case HelmInstall(ns, _, _, _) =>
      if reply.ReleaseIs? || out.failureLeavesRelease(ns) then spot.(revision := spot.revision + 1) else spot
    case HelmUpgrade(ns, _, _, _) => spot.(revision := spot.revision + 1)
    case _ => spot
  }

  const NOWHERE := Spot(false, None, 0, 0)

  function SpotOf(t: Target, ns: string): Spot { if ns in t then t[ns] else NOWHERE }

  function OpReply(out: Outside, t: Target, op: TargetRequest): Reply { SpotReply(out, SpotOf(t, NsOf(op)), op) }

  function OpAfter(out: Outside, t: Target, op: TargetRequest): Target {
    if op.Connect? then t else t[op.ns := SpotAfter(out, SpotOf(t, op.ns), op)]
  }

  // --------------------------------------------------- running an install

  function PullRank(p: PullSecret.Pull): nat {
    match p
    case Connecting => 11
    case LookingUpNamespace => 10
    case CreatingNamespace => 9
    case LookingUpSecret => 8
    case CreatingSecret => 7
    case UpdatingSecret(_) => 7
    case Ended(_) => 0
  }

  function Rank(i: Install): nat {
    match i
    case Pulling(p) => PullRank(p)
    case LoadingChart => 6
    case InitialisingHelm(_) => 5
    case LookingUpRelease(_) => 4
    case Installing(_) => 3
    case Upgrading(_) => 3
    case Finished(_) => 0
  }

  function InstallReply(out: Outside, plan: Plan, t: Target, i: Install): Reply
    requires !AtEnd(i)
  {
    var q := InstallRequest(plan, i);
    if q.OnTarget? then OpReply(out, t, q.op) else out.chart(ChartRefOf(plan.component), plan.version, plan.creds)
  }

  function InstallEffect(out: Outside, plan: Plan, t: Target, i: Install): Target
    requires !AtEnd(i)
  {
    var q := InstallRequest(plan, i);
    if q.OnTarget? then OpAfter(out, t, q.op) else t
  }

  lemma PullRankDrops(job: PullSecret.Job, pull: PullSecret.Pull, reply: Reply)
    requires !pull.Ended?
    ensures PullRank(PullSecret.Continue(job, pull, reply)) < PullRank(pull)
  {
  }

  lemma RankDrops(plan: Plan, i: Install, reply: Reply)
    requires !AtEnd(i)
    ensures var i' := InstallContinue(plan, i, reply); Rank(i') < Rank(i) && !(i'.Pulling? && i'.pull.Ended?)
  {
    hide PullSecret.Continue, Contains, Cause;
    if i.Pulling? {
      PullRankDrops(JobOf(plan), i.pull, reply);
    }
  }

  function Drive(out: Outside, plan: Plan, t: Target, i: Install): (ComponentStatus, Target)
    requires !(i.Pulling? && i.pull.Ended?)
    decreases Rank(i)
  {
    if i.Finished? then (i.status, t)
    else
      hide InstallContinue, InstallEffect, InstallReply;
      RankDrops(plan, i, InstallReply(out, plan, t, i));
      Drive(out, plan, InstallEffect(out, plan, t, i), InstallContinue(plan, i, InstallReply(out, plan, t, i)))
  }

  // The same installation read as one big step on the spot of its namespace.
  function NamespaceStep(out: Outside, ns: string, spot: Spot): (Option<Fault>, Spot) {
    match out.fault(ns, AtGetNamespace)
    case Some(c) => (Some(Fault("looking up namespace", c)), spot)
    case None =>
      if spot.present then (None, spot)
      else match out.fault(ns, AtCreateNamespace)
        case Some(c) => (Some(Fault("creating namespace", c)), spot)
        case None => (None, spot.(present := true))
  }

  function SecretStep(out: Outside, ns: string, desired: Bytes, spot: Spot): (Option<Fault>, Spot) {
    match out.fault(ns, AtGetSecret)
    case Some(c) => (Some(Fault("looking up image-pull Secret", c)), spot)
    case None =>
      match spot.secret
      case None =>
        (match out.fault(ns, AtCreateSecret)
         case Some(c) => (Some(Fault("creating image-pull Secret", c)), spot)
         case None => (None, StoreSecret(spot, PullSecret.NewSecret(desired))))
      case Some(s) =>
        if PullSecret.Holds(s, desired) then (None, spot)
        else match out.fault(ns, AtUpdateSecret)
          case Some(c) => (Some(Fault("updating image-pull Secret", c)), spot)
          case None =>
            if !s.kind.DockerConfigJson? then (Some(Fault("updating image-pull Secret", TYPE_IS_IMMUTABLE)), spot)
            else (None, StoreSecret(spot, PullSecret.WithPayload(s, desired)))
  }

  function PullStep(out: Outside, job: PullSecret.Job, spot: Spot): (Option<Fault>, Spot) {
    match out.fault("", AtConnect)
    case Some(c) => (Some(Fault("connecting", c)), spot)
    case None =>
      var (e, spot1) := NamespaceStep(out, job.ns, spot);
      if e.Some? then (e, spot1) else SecretStep(out, job.ns, job.desired, spot1)
  }

  function ReleaseStep(out: Outside, plan: Plan, chart: Chart, spot: Spot): (ComponentStatus, Spot) {
    var ns, release := NamespaceOf(plan.component), ReleaseOf(plan.component);
    match out.fault(ns, AtHelmInit)
    case Some(c) => (HelmFault("initialising helm configuration", Failed(c)).status, spot)
    case None =>
      match out.fault(ns, AtHelmLookup)
      case Some(c) =>
        if IsReleaseNotFound(c) then RunStep(out, plan, HelmInstall(ns, release, chart, ValuesOf(plan.component)), "installing release", spot)
        else (HelmFault("looking up release", Failed(c)).status, spot)
      case None =>
        if spot.revision > 0 then RunStep(out, plan, HelmUpgrade(ns, release, chart, ValuesOf(plan.component)), "upgrading release", spot)
        else RunStep(out, plan, HelmInstall(ns, release, chart, ValuesOf(plan.component)), "installing release", spot)
  }

  function RunStep(out: Outside, plan: Plan, op: TargetRequest, doing: string, spot: Spot): (ComponentStatus, Spot) {
    (AfterHelm(plan, doing, SpotReply(out, spot, op)).status, SpotAfter(out, spot, op))
  }

  function InstallStep(out: Outside, plan: Plan, spot: Spot): (ComponentStatus, Spot) {
    var (e, spot1) := PullStep(out, JobOf(plan), spot);
    if e.Some? then (Blocked(PullSecretFailed(e.value)), spot1)
    else
      var chart := out.chart(ChartRefOf(plan.component), plan.version, plan.creds);
      if chart.ChartIs? then ReleaseStep(out, plan, chart.chart, spot1)
      else (Blocked(LoadingChartFailed(Cause(chart))), spot1)
  }

  lemma NamespaceDrive(out: Outside, plan: Plan, t: Target)
    requires NamespaceOf(plan.component) in t
    ensures var ns := NamespaceOf(plan.component);
            var (e, spot) := NamespaceStep(out, ns, t[ns]);
            Drive(out, plan, t, Pulling(PullSecret.LookingUpNamespace))
            == Drive(out, plan, t[ns := spot], AfterPull(if e.Some? then PullSecret.Ended(e) else PullSecret.LookingUpSecret))
  {
    hide Contains, IsReleaseNotFound, RunStep, AfterHelm, HelmFault;
    var ns := NamespaceOf(plan.component);
    assert t[ns := t[ns]] == t;
    if out.fault(ns, AtGetNamespace).None? && !t[ns].present {
      var d := Drive(out, plan, t, Pulling(PullSecret.LookingUpNamespace));
      assert d == Drive(out, plan, t, Pulling(PullSecret.CreatingNamespace));
    }
  }

  lemma WriteDrive(out: Outside, plan: Plan, t: Target)
    requires NamespaceOf(plan.component) in t
    ensures var ns := NamespaceOf(plan.component);
            t[ns].secret.None? ==>
              var e := out.fault(ns, AtCreateSecret);
              Drive(out, plan, t, Pulling(PullSecret.CreatingSecret)) ==
              if e.Some? then Drive(out, plan, t, AfterPull(PullSecret.Ended(Some(Fault("creating image-pull Secret", e.value)))))
              else Drive(out, plan, t[ns := StoreSecret(t[ns], PullSecret.NewSecret(plan.payload))], LoadingChart)
    ensures var ns := NamespaceOf(plan.component);
            t[ns].secret.Some? ==>
              var s := PullSecret.WithPayload(t[ns].secret.value, plan.payload);
              var fault := out.fault(ns, AtUpdateSecret);
              var e := if fault.None? && !t[ns].secret.value.kind.DockerConfigJson? then Some(TYPE_IS_IMMUTABLE) else fault;
              Drive(out, plan, t, Pulling(PullSecret.UpdatingSecret(s))) ==
              if e.Some? then Drive(out, plan, t, AfterPull(PullSecret.Ended(Some(Fault("updating image-pull Secret", e.value)))))
              else Drive(out, plan, t[ns := StoreSecret(t[ns], s)], LoadingChart)
  {
    hide Contains, IsReleaseNotFound, RunStep, AfterHelm, HelmFault;
    var ns := NamespaceOf(plan.component);
    assert t[ns := t[ns]] == t;
  }

  lemma LookUpDrive(out: Outside, plan: Plan, t: Target)
    requires NamespaceOf(plan.component) in t
    ensures var ns := NamespaceOf(plan.component);
            var e := out.fault(ns, AtGetSecret);
            Drive(out, plan, t, Pulling(PullSecret.LookingUpSecret)) ==
            if e.Some? then Drive(out, plan, t, AfterPull(PullSecret.Ended(Some(Fault("looking up image-pull Secret", e.value)))))
            else if t[ns].secret.None? then Drive(out, plan, t, Pulling(PullSecret.CreatingSecret))
            else if PullSecret.Holds(t[ns].secret.value, plan.payload) then Drive(out, plan, t, LoadingChart)
            else Drive(out, plan, t, Pulling(PullSecret.UpdatingSecret(PullSecret.WithPayload(t[ns].secret.value, plan.payload))))
  {
    hide Contains, IsReleaseNotFound, RunStep, AfterHelm, HelmFault, StoreSecret, PullSecret.WithPayload, PullSecret.Holds,
         ValuesOf, ReleaseOf, NamespaceOf;
    var ns := NamespaceOf(plan.component);
    assert t[ns := t[ns]] == t;
  }

  lemma SecretDrive(out: Outside, plan: Plan, t: Target)
    requires NamespaceOf(plan.component) in t
    ensures var ns := NamespaceOf(plan.component);
            var (e, spot) := SecretStep(out, ns, plan.payload, t[ns]);
            Drive(out, plan, t, Pulling(PullSecret.LookingUpSecret))
            == Drive(out, plan, t[ns := spot], AfterPull(PullSecret.Ended(e)))
  {
    hide Contains, Drive, StoreSecret, PullSecret.WithPayload, PullSecret.Holds, NamespaceOf;
    var ns := NamespaceOf(plan.component);
    assert t[ns := t[ns]] == t;
    LookUpDrive(out, plan, t);
    WriteDrive(out, plan, t);
  }

  lemma ConnectDrive(out: Outside, plan: Plan, t: Target)
    ensures var e := out.fault("", AtConnect);
            Drive(out, plan, t, Pulling(PullSecret.Connecting)) ==
            if e.Some? then Drive(out, plan, t, AfterPull(PullSecret.Ended(Some(Fault("connecting", e.value)))))
            else Drive(out, plan, t, Pulling(PullSecret.LookingUpNamespace))
  {
    hide Contains, IsReleaseNotFound, RunStep, AfterHelm, HelmFault;
  }

  lemma PullDrive(out: Outside, plan: Plan, t: Target)
    requires NamespaceOf(plan.component) in t
    ensures var ns := NamespaceOf(plan.component);
            var (e, spot) := PullStep(out, JobOf(plan), t[ns]);
            Drive(out, plan, t, Pulling(PullSecret.Connecting)) == Drive(out, plan, t[ns := spot], AfterPull(PullSecret.Ended(e)))
  {
    hide Drive, Contains, NamespaceStep, SecretStep;
    var ns := NamespaceOf(plan.component);
    assert t[ns := t[ns]] == t;
    ConnectDrive(out, plan, t);
    if out.fault("", AtConnect).None? {
      NamespaceDrive(out, plan, t);
      var (e, spot1) := NamespaceStep(out, ns, t[ns]);
      if e.None? {
        SecretDrive(out, plan, t[ns := spot1]);
        assert t[ns := spot1][ns] == spot1;
        var (_, spot2) := SecretStep(out, ns, plan.payload, spot1);
        assert t[ns := spot1][ns := spot2] == t[ns := spot2];
      }
    }
  }

  lemma RunDrive(out: Outside, plan: Plan, chart: Chart, t: Target)
    requires NamespaceOf(plan.component) in t
    ensures var ns, release := NamespaceOf(plan.component), ReleaseOf(plan.component);
            var (s, spot) := RunStep(out, plan, HelmInstall(ns, release, chart, ValuesOf(plan.component)), "installing release", t[ns]);
            var (u, spot') := RunStep(out, plan, HelmUpgrade(ns, release, chart, ValuesOf(plan.component)), "upgrading release", t[ns]);
            && Drive(out, plan, t, Installing(chart)) == (s, t[ns := spot])
            && Drive(out, plan, t, Upgrading(chart)) == (u, t[ns := spot'])
  {
    hide PullSecret.Continue, PullSecret.Ask, Contains;
  }

  lemma LookUpReleaseDrive(out: Outside, plan: Plan, chart: Chart, t: Target)
    requires NamespaceOf(plan.component) in t
    ensures var ns := NamespaceOf(plan.component);
            var init, found := out.fault(ns, AtHelmInit), out.fault(ns, AtHelmLookup);
            Drive(out, plan, t, InitialisingHelm(chart)) ==
            if init.Some? then (HelmFault("initialising helm configuration", Failed(init.value)).status, t)
            else if found.Some? && !IsReleaseNotFound(found.value) then (HelmFault("looking up release", Failed(found.value)).status, t)
            else if found.None? && t[ns].revision > 0 then Drive(out, plan, t, Upgrading(chart))
            else Drive(out, plan, t, Installing(chart))
  {
    hide PullSecret.Continue, PullSecret.Ask, IsReleaseNotFound, RunStep, ValuesOf, ReleaseOf;
    var ns := NamespaceOf(plan.component);
    assert t[ns := t[ns]] == t;
    NotFoundText();
    if out.fault(ns, AtHelmInit).None? {
      var d := Drive(out, plan, t, InitialisingHelm(chart));
      assert d == Drive(out, plan, t, LookingUpRelease(chart));
      if out.fault(ns, AtHelmLookup).Some? && !IsReleaseNotFound(out.fault(ns, AtHelmLookup).value) {
        assert d == Drive(out, plan, t, HelmFault("looking up release", Failed(out.fault(ns, AtHelmLookup).value)));
      }
    }
  }

  lemma ReleaseDrive(out: Outside, plan: Plan, chart: Chart, t: Target)
    requires NamespaceOf(plan.component) in t
    ensures var ns := NamespaceOf(plan.component);
            var (s, spot) := ReleaseStep(out, plan, chart, t[ns]);
            Drive(out, plan, t, InitialisingHelm(chart)) == (s, t[ns := spot])
  {
    hide Drive, IsReleaseNotFound, RunStep, ValuesOf, HelmFault;
    var ns := NamespaceOf(plan.component);
    assert t[ns := t[ns]] == t;
    RunDrive(out, plan, chart, t);
    LookUpReleaseDrive(out, plan, chart, t);
  }

  lemma NotFoundText()
    ensures IsReleaseNotFound("release: not found")
  {
    var text := "release: not found";
    assert text[0..0 + |text|] == text;
    assert OccursAt(text, text, 0);
  }

  // The installation machine computes exactly the big step, and touches only
  // its own namespace.
  lemma DriveIsInstallStep(out: Outside, plan: Plan, t: Target)
    requires NamespaceOf(plan.component) in t
    ensures var ns := NamespaceOf(plan.component);
            Drive(out, plan, t, Pulling(PullSecret.Connecting))
            == (InstallStep(out, plan, t[ns]).0, t[ns := InstallStep(out, plan, t[ns]).1])
  {
    hide Contains, PullSecret.Continue, PullSecret.Ask, PullStep, ReleaseStep;
    var ns := NamespaceOf(plan.component);
    PullDrive(out, plan, t);
    var (e, spot1) := PullStep(out, JobOf(plan), t[ns]);
    var t1 := t[ns := spot1];
    if e.None? {
      assert Drive(out, plan, t, Pulling(PullSecret.Connecting)) == Drive(out, plan, t1, LoadingChart);
      var chart := out.chart(ChartRefOf(plan.component), plan.version, plan.creds);
      if chart.ChartIs? {
        assert Drive(out, plan, t1, LoadingChart) == Drive(out, plan, t1, InitialisingHelm(chart.chart));
        ReleaseDrive(out, plan, chart.chart, t1);
        var (_, spot2) := ReleaseStep(out, plan, chart.chart, spot1);
        assert t1[ns := spot2] == t[ns := spot2];
      }
    }
  }

  // ------------------------------------------------------ settling, commuting

  lemma PullStepRepeats(out: Outside, job: PullSecret.Job, spot: Spot)
    ensures var (e, spot1) := PullStep(out, job, spot);
            && PullStep(out, job, spot1).0 == e
            && (forall spot2: Spot :: e.None? && spot2 == spot1.(revision := spot2.revision) ==> PullStep(out, job, spot2) == (None, spot2))
            && spot1.revision == spot.revision
  {
  }

  // Helm is reached, and its install leaves a release behind whose upgrade
  // would be reported otherwise: only two successes that name one version
  // read the same.
  predicate UpgradeDiffers(out: Outside, plan: Plan, chart: Chart) {
    var ns := NamespaceOf(plan.component);
    var i := out.install(ns, ReleaseOf(plan.component), chart, ValuesOf(plan.component));
    var u := out.upgrade(ns, ReleaseOf(plan.component), chart, ValuesOf(plan.component));
    && out.fault(ns, AtHelmInit).None? && out.fault(ns, AtHelmLookup).None?
    && (i.ReleaseIs? || out.failureLeavesRelease(ns))
    && !(i.ReleaseIs? && u.ReleaseIs? && OrDefault(i.chartVersion, plan.version) == OrDefault(u.chartVersion, plan.version))
  }

  // This pass installs a release for the first time, and the upgrade of the
  // next pass will be reported otherwise.
  predicate InstallUnsettled(out: Outside, plan: Plan, spot: Spot) {
    var chart := out.chart(ChartRefOf(plan.component), plan.version, plan.creds);
    && spot.revision == 0 && PullStep(out, JobOf(plan), spot).0.None? && chart.ChartIs?
    && UpgradeDiffers(out, plan, chart.chart)
  }

  lemma ReleaseStepRepeats(out: Outside, plan: Plan, chart: Chart, spot: Spot)
    ensures var (s, spot1) := ReleaseStep(out, plan, chart, spot);
            && spot1 == spot.(revision := spot1.revision) && spot1.revision >= spot.revision
            && (ReleaseStep(out, plan, chart, spot1).0 != s <==> spot.revision == 0 && UpgradeDiffers(out, plan, chart))
            && (UpgradeDiffers(out, plan, chart) ==> spot1.revision > 0)
  {
    assert |"installing release"| != |"upgrading release"|;
  }

  // Installing again after an installation reports the same status, however
  // far the first one got, exactly unless the first left a release behind
  // whose upgrade is reported otherwise; after the second run nothing changes
  // any more.
  lemma InstallStepRepeats(out: Outside, plan: Plan, spot: Spot)
    ensures var (s, spot1) := InstallStep(out, plan, spot);
            && (InstallStep(out, plan, spot1).0 == s <==> !InstallUnsettled(out, plan, spot))
            && !InstallUnsettled(out, plan, spot1)
  {
    hide PullStep, ReleaseStep;
    PullStepRepeats(out, JobOf(plan), spot);
    var (e, spot1) := PullStep(out, JobOf(plan), spot);
    var chart := out.chart(ChartRefOf(plan.component), plan.version, plan.creds);
    if e.None? && chart.ChartIs? {
      ReleaseStepRepeats(out, plan, chart.chart, spot1);
      var (_, spot2) := ReleaseStep(out, plan, chart.chart, spot1);
      assert PullStep(out, JobOf(plan), spot2) == (None, spot2);
    }
  }

  lemma NamespacesDiffer()
    ensures NamespaceOf(CertManager) != NamespaceOf(Ingress)
  {
    assert |NamespaceOf(CertManager)| != |NamespaceOf(Ingress)|;
  }

  // The two component installations do not interfere: run in either order
  // they end with the same two statuses and the same target, and neither
  // status depends on whether the other ran, failed or succeeded.
  lemma InstallsCommute(out: Outside, p: Plan, q: Plan, t: Target)
    requires p.component.CertManager? && q.component.Ingress? && Tracks(t)
    ensures var (s1, t1) := Drive(out, p, t, Pulling(PullSecret.Connecting));
            var (s2, t2) := Drive(out, q, t1, Pulling(PullSecret.Connecting));
            var (r2, u1) := Drive(out, q, t, Pulling(PullSecret.Connecting));
            var (r1, u2) := Drive(out, p, u1, Pulling(PullSecret.Connecting));
            s1 == r1 && s2 == r2 && t2 == u2
  {
    NamespacesDiffer();
    DriveIsInstallStep(out, p, t);
    DriveIsInstallStep(out, q, t);
    var np, nq := NamespaceOf(CertManager), NamespaceOf(Ingress);
    var t1 := t[np := InstallStep(out, p, t[np]).1];
    var u1 := t[nq := InstallStep(out, q, t[nq]).1];
    DriveIsInstallStep(out, q, t1);
    DriveIsInstallStep(out, p, u1);
    assert t1[nq] == t[nq] && u1[np] == t[np];
    assert t1[nq := InstallStep(out, q, t[nq]).1] == u1[np := InstallStep(out, p, t[np]).1];
  }
}
