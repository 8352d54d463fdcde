// An account of every pass over its whole trace: which requests it makes in
// which order, what they carry, and what it writes, in the words of the specs
// and Secrets it reads and with every name spelled out.  The passes of the
// controllers are proved to follow it.
module Account {
  import opened Bytes
  import opened Api
  import opened Protocol
  import opened Passes
  import opened PassLaws
  import PullSecret
  import DockerConfig

  // ------------------------------------------------------ reading Secrets

  predicate HasBytes(s: Secret, k: string, b: Bytes) {
    s.data.Some? && k in s.data.value && s.data.value[k] == b && b != []
  }

  predicate Lacks(s: Secret, k: string) { s.data.None? || k !in s.data.value || s.data.value[k] == [] }

  // The Secret has this kubeconfig for the reference, under the key it names
  // or, if it names none, under "kubeconfig".
  predicate Gives(s: Secret, ref: KubeconfigSecretRef, kc: Bytes) {
    && (ref.key != "" ==> HasBytes(s, ref.key, kc))
    && (ref.key == "" ==> HasBytes(s, "kubeconfig", kc))
  }

  // The same when there is nothing, k being the key looked at.
  predicate GivesNothing(s: Secret, ref: KubeconfigSecretRef, k: string) {
    && (ref.key != "" ==> k == ref.key)
    && (ref.key == "" ==> k == "kubeconfig")
    && Lacks(s, k)
  }

  lemma KubeconfigKeyIs(s: Secret, ref: KubeconfigSecretRef)
    ensures var kc := DataAt(s, KubeconfigKey(ref));
            (kc != [] ==> Gives(s, ref, kc)) && (kc == [] ==> GivesNothing(s, ref, KubeconfigKey(ref)))
  {
  }

  // --------------------------------------------------------- what is stored

  // The report on o: readiness, the generation looked at, the Available
  // condition with its text, and nothing else of o changed but the rest of
  // the status as given.
  ghost predicate Says<S, X>(o: Resource<S, X>, written: Resource<S, X>, ready: bool, reason: Reason, message: Message, extra: X) {
    && written.meta == o.meta && written.spec == o.spec
    && written.status.ready == ready && written.status.observedGeneration == o.meta.generation && written.status.extra == extra
    && ForeignIn(written.status.conditions) == ForeignIn(o.status.conditions)
    && var available := AvailableIn(written.status.conditions);
    && available != [] && available[0].kind == Available && available[0].observedGeneration == o.meta.generation
    && available[0].status == (if ready then ConditionTrue else ConditionFalse)
    && available[0].reason == reason && available[0].message == message
  }

  lemma ReportSays<S, X>(o: Resource<S, X>, extra: X, ready: bool, reason: Reason, message: Message, now: nat)
    ensures Says(o, Report(o.(status := o.status.(extra := extra)), ready, reason, message, now), ready, reason, message, extra)
    ensures extra == o.status.extra ==> Says(o, Report(o, ready, reason, message, now), ready, reason, message, extra)
  {
    SetStatusConditionLaws(o.status.conditions, AvailableCondition(ready, o.meta.generation, reason, message), now);
    assert extra == o.status.extra ==> o.(status := o.status.(extra := extra)) == o;
  }

  // The object written, unless something stands in the way.
  ghost predicate Unready<S, X>(o: Resource<S, X>, written: Resource<S, X>, reason: Reason, message: Message) {
    Says(o, written, false, reason, message, o.status.extra)
  }

  // ------------------------------------------------------ the TargetCluster pass

  datatype Ending = Ending(onSuccess: Requeue, onFailure: Requeue)

  const SAME_TIMER := Ending(AfterError, AfterError)
  const NO_TIMER := Ending(NoRequeue, NoRequeue)
  const DONE := Ending(AfterSuccess, NoRequeue)

  // The probe of a kubeconfig, from the third exchange on.
  ghost predicate ProbeTold(trace: Trace, tc: TargetCluster, kc: Bytes, written: TargetCluster, end: Ending) {
    && |trace| >= 3 && trace[2].request == ParseKubeconfig(kc)
    && if |trace| == 3 then
         !trace[2].reply.OK? && end == NO_TIMER && Unready(tc, written, InvalidKubeconfig, KubeconfigInvalid(Cause(trace[2].reply)))
       else
         && trace[2].reply.OK? && trace[3].request == BuildClient(kc)
         && if |trace| == 4 then
              !trace[3].reply.OK? && end == NO_TIMER && Unready(tc, written, InvalidKubeconfig, CannotBuildClient(Cause(trace[3].reply)))
            else
              && trace[3].reply.OK? && trace[4].request == ServerVersion(kc)
              && if |trace| == 5 then
                   && !trace[4].reply.VersionIs? && end == SAME_TIMER
                   && Unready(tc, written, ConnectionFailed, ServerVersionFailed(Cause(trace[4].reply)))
                 else
                   && |trace| == 6 && trace[4].reply.VersionIs? && trace[5].request == ListNodes(kc)
                   && var version := trace[4].reply.version;
                   if trace[5].reply.NodesAre? then
                     var n := trace[5].reply.count;
                     end == DONE && Says(tc, written, true, Reachable, TargetReachable(n, version), Probe(version, Int32(n)))
                   else
                     end == SAME_TIMER && Unready(tc, written, ConnectionFailed, ListingNodesFailed(Cause(trace[5].reply)))
  }

  // From the object fetched to the status written.
  ghost predicate TcTold(key: Key, trace: Trace, written: TargetCluster, end: Ending) {
    && |trace| >= 1 && trace[0].request == GetTargetCluster(key) && trace[0].reply.FoundTargetCluster?
    && var tc := trace[0].reply.tc;
    if !tc.spec.kind.BYO? then
      |trace| == 1 && end == NO_TIMER && Unready(tc, written, UnsupportedType, TypeNotImplemented(tc.spec.kind.name))
    else if tc.spec.byo.None? then
      |trace| == 1 && end == NO_TIMER && Unready(tc, written, MissingBYOSpec, ByoMustBeSet)
    else
      var ref := tc.spec.byo.value;
      && |trace| >= 2 && trace[1].request == GetSecret(Key(tc.meta.key.namespace, ref.name))
      && match trace[1].reply
         case NotFound =>
           && |trace| == 2 && end == SAME_TIMER
           && Unready(tc, written, MissingSecret, SecretNotFound(Key(tc.meta.key.namespace, ref.name)))
         case FoundSecret(s) =>
           || (|trace| == 2 && end == SAME_TIMER
               && exists k :: (GivesNothing(s, ref, k) && Unready(tc, written, InvalidKubeconfig, SecretHasNoData(ref.name, k))))
           || (exists kc :: Gives(s, ref, kc) && ProbeTold(trace, tc, kc, written, end))
         case _ => false
  }

  // How a pass returns: without anything to do, or on an error of a read, or
  // with its status write, whose error is then the pass's.
  ghost predicate WriteTold(e: Exchange, end: Ending, requeue: Requeue, error: Option<Fault>) {
    if e.reply.OK? then requeue == end.onSuccess && error == None
    else requeue == end.onFailure && error == Some(Fault("updating status", Cause(e.reply)))
  }

  ghost predicate TcReturnTold(key: Key, trace: Trace, requeue: Requeue, error: Option<Fault>) {
    && trace != []
    && var e := trace[|trace| - 1];
    || (|trace| == 1 && e.request == GetTargetCluster(key) && e.reply.NotFound? && requeue == NoRequeue && error == None)
    || (|trace| == 1 && e.request == GetTargetCluster(key) && !e.reply.NotFound? && !e.reply.FoundTargetCluster?
        && requeue == NoRequeue && error == Some(Fault("fetching TargetCluster", Cause(e.reply))))
    || (|trace| == 2 && e.request.GetSecret? && !e.reply.NotFound? && !e.reply.FoundSecret?
        && requeue == NoRequeue && error == Some(Fault("fetching kubeconfig Secret", Cause(e.reply))))
    || (e.request.UpdateTargetClusterStatus?
        && exists end :: TcTold(key, trace[..|trace| - 1], e.request.tc, end) && WriteTold(e, end, requeue, error))
  }

  ghost predicate TcPassTold(key: Key, trace: Trace, phase: TcPhase) {
    match phase
    case Writing(written, onSuccess, onFailure) => TcTold(key, trace, written, Ending(onSuccess, onFailure))
    case Returned(requeue, error) => TcReturnTold(key, trace, requeue, error)
    case _ => true
  }

  lemma TcStartTold(key: Key, e: Exchange)
    requires e.request == GetTargetCluster(key) && e.reply.FoundTargetCluster?
    ensures TcPassTold(key, [e], TcStart(e.reply.tc, e.now))
  {
    var tc := e.reply.tc;
    if !tc.spec.kind.BYO? {
      ReportSays(tc, tc.status.extra, false, UnsupportedType, TypeNotImplemented(tc.spec.kind.name), e.now);
    } else if tc.spec.byo.None? {
      ReportSays(tc, tc.status.extra, false, MissingBYOSpec, ByoMustBeSet, e.now);
    }
  }

  lemma TcSecretTold(key: Key, trace: Trace, tc: TargetCluster, ref: KubeconfigSecretRef, e: Exchange)
    requires TcKnows(key, trace, Working(ReadingSecret(tc, ref)))
    requires e.request == TcRequest(key, Working(ReadingSecret(tc, ref)))
    ensures TcPassTold(key, trace + [e], TcWorkOn(ReadingSecret(tc, ref), e.reply, e.now))
  {
    hide Says, ProbeTold;
    var t := trace + [e];
    assert t[0] == trace[0] && t[1] == e;
    if e.reply.NotFound? {
      ReportSays(tc, tc.status.extra, false, MissingSecret, SecretNotFound(Key(tc.meta.key.namespace, ref.name)), e.now);
    } else if e.reply.FoundSecret? {
      KubeconfigKeyIs(e.reply.secret, ref);
      ReportSays(tc, tc.status.extra, false, InvalidKubeconfig, SecretHasNoData(ref.name, KubeconfigKey(ref)), e.now);
    }
  }

  lemma TcProbeTold(key: Key, trace: Trace, work: TcWork, e: Exchange)
    requires TcKnows(key, trace, Working(work)) && !work.ReadingSecret? && e.request == TcRequest(key, Working(work))
    ensures var phase := TcWorkOn(work, e.reply, e.now);
            phase.Writing? ==> ProbeTold(trace + [e], work.tc, work.kubeconfig, phase.obj, Ending(phase.onSuccess, phase.onFailure))
  {
    hide Says;
    var t := trace + [e];
    var tc := work.tc;
    assert forall i :: 0 <= i < |trace| ==> t[i] == trace[i];
    match work
    case Parsing(_, _) => ReportSays(tc, tc.status.extra, false, InvalidKubeconfig, KubeconfigInvalid(Cause(e.reply)), e.now);
    case Building(_, _) => ReportSays(tc, tc.status.extra, false, InvalidKubeconfig, CannotBuildClient(Cause(e.reply)), e.now);
    case AskingVersion(_, _) => ReportSays(tc, tc.status.extra, false, ConnectionFailed, ServerVersionFailed(Cause(e.reply)), e.now);
    case CountingNodes(_, _, version) =>
      ReportSays(tc, tc.status.extra, false, ConnectionFailed, ListingNodesFailed(Cause(e.reply)), e.now);
      if e.reply.NodesAre? {
        ReportSays(tc, Probe(version, Int32(e.reply.count)), true, Reachable, TargetReachable(e.reply.count, version), e.now);
      }
  }

  lemma TcWorkTold(key: Key, trace: Trace, work: TcWork, e: Exchange)
    requires TcKnows(key, trace, Working(work)) && e.request == TcRequest(key, Working(work))
    ensures TcPassTold(key, trace + [e], TcWorkOn(work, e.reply, e.now))
  {
    hide ProbeTold, Says;
    if work.ReadingSecret? {
      TcSecretTold(key, trace, work.tc, work.ref, e);
    } else {
      TcProbeTold(key, trace, work, e);
      var t := trace + [e];
      assert t[0] == trace[0] && t[1] == trace[1];
      KubeconfigKeyIs(trace[1].reply.secret, work.tc.spec.byo.value);
    }
  }

  // Main law: every TargetCluster pass, whatever it is answered, is as told.
  lemma TcPassIsTold(key: Key, trace: Trace)
    requires TcAfter(key, trace).Some?
    ensures TcPassTold(key, trace, TcAfter(key, trace).value)
    decreases |trace|
  {
    hide TcTold, TcKnows;
    if trace != [] {
      var before, e := trace[..|trace| - 1], trace[|trace| - 1];
      var phase := TcAfter(key, before).value;
      assert trace == before + [e];
      TcPassJustified(key, before);
      TcPassIsTold(key, before);
      match phase
      case Fetching =>
        FetchingIsFirst(key, before);
        assert trace == [e];
        if e.reply.FoundTargetCluster? { TcStartTold(key, e); }
      case Working(work) => TcWorkTold(key, before, work, e);
      case Writing(written, onSuccess, onFailure) =>
        TcWriteTold(key, before, written, onSuccess, onFailure, e);
    }
  }

  lemma TcWriteTold(key: Key, before: Trace, written: TargetCluster, onSuccess: Requeue, onFailure: Requeue, e: Exchange)
    requires TcTold(key, before, written, Ending(onSuccess, onFailure)) && e.request == UpdateTargetClusterStatus(written)
    ensures TcPassTold(key, before + [e], AfterWrite(onSuccess, onFailure, e.reply))
  {
    hide TcTold;
    var trace := before + [e];
    assert trace[..|trace| - 1] == before && trace[|trace| - 1] == e;
    var end, phase: TcPhase := Ending(onSuccess, onFailure), AfterWrite(onSuccess, onFailure, e.reply);
    assert TcTold(key, trace[..|trace| - 1], e.request.tc, end);
    assert WriteTold(e, end, phase.requeue, phase.error);
    assert TcReturnTold(key, trace, phase.requeue, phase.error);
  }

  lemma FetchingIsFirst(key: Key, trace: Trace)
    requires TcKnows(key, trace, Fetching)
    ensures trace == []
  {
  }
}
