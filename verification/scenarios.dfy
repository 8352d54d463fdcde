// Concrete behaviours of the interleaved system.
module Scenarios {
  import opened Bytes
  import opened Api
  import opened Protocol
  import opened Passes
  import opened PassLaws
  import opened Store
  import opened StoreLaws
  import opened System

  const TARGET := Key("default", "target")
  const NO_BYO := TargetClusterSpec(BYO, None)

  lemma OneMore(steps: seq<Step>, w: World, step: Step)
    requires After(steps) == Some(w) && Enabled(w, step)
    ensures After(steps + [step]) == Some(Take(w, step))
  {
    assert (steps + [step])[..|steps|] == steps;
  }

  lemma AtStart()
    ensures After([]) == Some(Init())
  {
  }

  function Created(): TargetCluster { Resource(Meta(TARGET, 0, 1, 0), NO_BYO, Status(false, 0, [], NO_PROBE)) }

  // The verdict a pass at time 0 stores.
  function Judged(): TargetCluster {
    var o := Report(Created(), false, MissingBYOSpec, ByoMustBeSet, 0);
    o.(meta := o.meta.(resourceVersion := 4))
  }

  // Only this object, with its cache, work queue and passes.
  ghost predicate Shows(w: World, log: Log<TargetClusterSpec, Probe>, seen: nat, queued: bool,
                        active: map<Key, Run<TargetClusterSpec, Probe, TcWork>>) {
    && w.clock == 0 && w.counter > 0
    && w.tc.chans == map[TARGET := Chan(log, seen)]
    && w.tc.queue == (if queued then {TARGET} else {}) && w.tc.timers == {} && w.tc.active == active
  }

  // A pass that has reached its verdict on version `v`.
  function Deciding(v: TargetCluster): Run<TargetClusterSpec, Probe, TcWork> {
    Run(Writing(Report(v, false, MissingBYOSpec, ByoMustBeSet, 0), NoRequeue, NoRequeue),
        [Exchange(GetTargetCluster(TARGET), FoundTargetCluster(v), 0)])
  }

  // From a delivered event to the verdict of the pass it triggers.
  lemma JudgingPass(steps: seq<Step>, w: World, log: Log<TargetClusterSpec, Probe>, seen: nat, v: TargetCluster)
    returns (more: seq<Step>, w': World)
    requires After(steps) == Some(w) && Shows(w, log, seen, true, map[])
    requires seen < |log| && log[seen] == Some(v) && v.meta.key == TARGET && v.spec == NO_BYO
    ensures After(more) == Some(w') && w'.counter == w.counter + 2
    ensures Shows(w', log, seen, false, map[TARGET := Deciding(v)])
  {
    hide After, SetStatusCondition;
    OneMore(steps, w, OfTc(TARGET, BeginReconcile));
    var r1, w1 := steps + [OfTc(TARGET, BeginReconcile)], Take(w, OfTc(TARGET, BeginReconcile));
    assert w1.tc.active == map[TARGET := Run(Fetching, [])];
    var found := OfTc(TARGET, Answer(FoundTargetCluster(v), false));
    OneMore(r1, w1, found);
    more, w' := r1 + [found], Take(w1, found);
    assert [] + Deciding(v).trace == Deciding(v).trace;
    assert w'.tc.active == map[TARGET := Deciding(v)];
  }

  // The pass writes its verdict back and ends.
  lemma EndOfPass(steps: seq<Step>, w: World, log: Log<TargetClusterSpec, Probe>, seen: nat, v: TargetCluster)
    returns (more: seq<Step>, w': World)
    requires After(steps) == Some(w) && Shows(w, log, seen, false, map[TARGET := Deciding(v)])
    requires log != [] && log[|log| - 1] == Some(v) && v.meta.key == TARGET
    ensures After(more) == Some(w')
    ensures var o := Report(v, false, MissingBYOSpec, ByoMustBeSet, 0);
            Shows(w', if o.status == v.status then log else log + [Some(o.(meta := o.meta.(resourceVersion := w.counter)))],
                  seen, false, map[])
  {
    hide After, SetStatusCondition;
    var ok := OfTc(TARGET, Answer(OK, true));
    OneMore(steps, w, ok);
    var r1, w1 := steps + [ok], Take(w, ok);
    assert w1.tc.active[TARGET].phase == Returned(NoRequeue, None);
    OneMore(r1, w1, OfTc(TARGET, FinishReconcile));
    more, w' := r1 + [OfTc(TARGET, FinishReconcile)], Take(w1, OfTc(TARGET, FinishReconcile));
  }

  // The first pass stores the verdict.
  lemma FirstPass() returns (steps: seq<Step>, w: World)
    ensures After(steps) == Some(w) && Shows(w, [None, Some(Created()), Some(Judged())], 1, false, map[])
  {
    hide After, Report;
    var create := OfTc(TARGET, Change(Create(NO_BYO)));
    AtStart();
    OneMore([], Init(), create);
    var w1 := Take(Init(), create);
    assert [None] + [Some(Created())] == [None, Some(Created())];
    assert w1.tc.chans == map[TARGET := Chan([None, Some(Created())], 0)];
    var deliver := OfTc(TARGET, DeliverEvents(1));
    OneMore([] + [create], w1, deliver);
    var w2 := Take(w1, deliver);
    assert w2.tc.chans == map[TARGET := Chan([None, Some(Created())], 1)];
    var log := [None, Some(Created())];
    steps, w := JudgingPass([] + [create] + [deliver], w2, log, 1, Created());
    VerdictStored();
    steps, w := EndOfPass(steps, w, log, 1, Created());
    assert log + [Some(Judged())] == [None, Some(Created()), Some(Judged())];
  }

  lemma VerdictStored()
    ensures Report(Created(), false, MissingBYOSpec, ByoMustBeSet, 0).status != Created().status
    ensures Report(Judged(), false, MissingBYOSpec, ByoMustBeSet, 0).status == Judged().status
    ensures Terminal(Judged().status) && Judged().meta.key == TARGET && Judged().spec == NO_BYO
  {
    ReportCoherent(Created(), false, MissingBYOSpec, ByoMustBeSet, 0);
    ReportTwice(Created(), false, MissingBYOSpec, ByoMustBeSet, 0, 0);
  }

  // The exception in NoLostWakeups is real: some behaviour leaves an existing
  // TargetCluster with a terminal verdict and nothing to wake its controller.
  lemma TerminalTargetMayBeIdle() returns (steps: seq<Step>)
    ensures After(steps).Some?
    ensures var w := After(steps).value;
            && Current(ChanOf(w.tc, TARGET)).Some? && !Pending(w.tc, TARGET)
            && Terminal(Current(ChanOf(w.tc, TARGET)).value.status)
  {
    hide After, Report, Terminal;
    var log := [None, Some(Created()), Some(Judged())];
    var w;
    steps, w := FirstPass();
    steps, w := Woken(steps, w, log);
    VerdictStored();
    steps, w := JudgingPass(steps, w, log, 2, Judged());
    steps, w := EndOfPass(steps, w, log, 2, Judged());
  }

  // The status event wakes the controller once more.
  lemma Woken(steps: seq<Step>, w: World, log: Log<TargetClusterSpec, Probe>) returns (more: seq<Step>, w': World)
    requires After(steps) == Some(w) && |log| == 3 && Shows(w, log, 1, false, map[])
    ensures After(more) == Some(w') && Shows(w', log, 2, true, map[])
  {
    hide After;
    var deliver := OfTc(TARGET, DeliverEvents(2));
    OneMore(steps, w, deliver);
    more, w' := steps + [deliver], Take(w, deliver);
  }

  // ------------------------------------------------------- a probed target

  const WITH_REF := TargetClusterSpec(BYO, Some(KubeconfigSecretRef("first", "")))
  const OTHER_REF := TargetClusterSpec(BYO, Some(KubeconfigSecretRef("second", "")))
  const KUBE := Secret(0, OtherSecretType("Opaque"), Some(map[DEFAULT_KUBECONFIG_KEY := [1]]))

  function Probable(): TargetCluster { Resource(Meta(TARGET, 0, 1, 0), WITH_REF, Status(false, 0, [], NO_PROBE)) }

  const UNPROBED := GetSecret(Key("default", "second"))

  // No pass has asked for the second Secret.
  ghost predicate NeverAsked(w: World) {
    forall i :: 0 <= i < |w.tc.issued| ==>
      !w.tc.issued[i].phase.Returned? && TcRequest(w.tc.issued[i].key, w.tc.issued[i].phase) != UNPROBED
  }

  // A world in which the pass on TARGET is in a given phase and nothing but
  // the created object is stored.
  ghost predicate InPhase(w: World, phase: TcPhase, seen: nat) {
    && w.clock == 0 && ChanOf(w.tc, TARGET) == Chan([None, Some(Probable())], seen)
    && TARGET in w.tc.active && w.tc.active[TARGET].phase == phase && NeverAsked(w)
  }

  lemma Replied(steps: seq<Step>, w: World, phase: TcPhase, reply: Reply) returns (more: seq<Step>, w': World)
    requires After(steps) == Some(w) && InPhase(w, phase, 1) && phase.Working?
    requires Fits(TcRequest(TARGET, phase), reply) && TcRequest(TARGET, phase) != UNPROBED
    ensures After(more) == Some(w') && InPhase(w', TcContinue(phase, reply, 0), 1)
  {
    hide After, TcContinue;
    var step := OfTc(TARGET, Answer(reply, false));
    OneMore(steps, w, step);
    more, w' := steps + [step], Take(w, step);
  }

  lemma StartProbe() returns (steps: seq<Step>, w: World)
    ensures After(steps) == Some(w) && InPhase(w, Working(ReadingSecret(Probable(), WITH_REF.byo.value)), 1)
  {
    hide After;
    var create := OfTc(TARGET, Change(Create(WITH_REF)));
    AtStart();
    OneMore([], Init(), create);
    var r1, w1 := [] + [create], Take(Init(), create);
    assert [None] + [Some(Probable())] == [None, Some(Probable())];
    assert ChanOf(w1.tc, TARGET) == Chan([None, Some(Probable())], 0);
    var deliver := OfTc(TARGET, DeliverEvents(1));
    OneMore(r1, w1, deliver);
    var r2, w2 := r1 + [deliver], Take(w1, deliver);
    OneMore(r2, w2, OfTc(TARGET, BeginReconcile));
    var r3, w3 := r2 + [OfTc(TARGET, BeginReconcile)], Take(w2, OfTc(TARGET, BeginReconcile));
    var found := OfTc(TARGET, Answer(FoundTargetCluster(Probable()), false));
    OneMore(r3, w3, found);
    steps, w := r3 + [found], Take(w3, found);
  }

  // A probe with every answer it needs reaches the Ready verdict.
  lemma CompleteProbe(steps: seq<Step>, w: World) returns (more: seq<Step>, w': World)
    requires After(steps) == Some(w) && InPhase(w, Working(ReadingSecret(Probable(), WITH_REF.byo.value)), 1)
    ensures After(more) == Some(w')
    ensures InPhase(w', Writing(Reached(Probable(), "v1.30.0", 1, 0), AfterSuccess, NoRequeue), 1)
  {
    hide After, Reached, InPhase;
    assert |"first"| != |"second"|;
    var tc := Probable();
    more, w' := Replied(steps, w, Working(ReadingSecret(tc, WITH_REF.byo.value)), FoundSecret(KUBE));
    more, w' := Replied(more, w', Working(Parsing(tc, [1])), OK);
    more, w' := Replied(more, w', Working(Building(tc, [1])), OK);
    more, w' := Replied(more, w', Working(AskingVersion(tc, [1])), VersionIs("v1.30.0"));
    more, w' := Replied(more, w', Working(CountingNodes(tc, [1], "v1.30.0")), NodesAre(1));
  }

  // A probe can succeed, and a spec edit can then outrun the stored Ready: a
  // behaviour at whose end the TargetCluster is stored Ready although its
  // spec names a Secret that was never probed.
  lemma ReadyForAnotherSecret() returns (steps: seq<Step>)
    ensures After(steps).Some?
    ensures var tc := Current(ChanOf(After(steps).value.tc, TARGET));
            && IsReady(tc) && tc.value.spec == OTHER_REF
            && tc.value.status.observedGeneration < tc.value.meta.generation
            && SecretRequest(tc.value) == UNPROBED
    ensures NeverAsked(After(steps).value)
  {
    hide After;
    var r, w := StartProbe();
    r, w := CompleteProbe(r, w);
    var ok := OfTc(TARGET, Answer(OK, true));
    OneMore(r, w, ok);
    var r1, w1 := r + [ok], Take(w, ok);
    var edit := OfTc(TARGET, Change(ChangeSpec(OTHER_REF)));
    OneMore(r1, w1, edit);
    steps := r1 + [edit];
  }
}
