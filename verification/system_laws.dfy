// The invariant of the interleaved system, kept by every step.
module SystemLaws {
  import opened Bytes
  import opened Api
  import opened Protocol
  import opened Passes
  import opened PassLaws
  import opened Store
  import opened StoreLaws
  import opened System
  import DockerConfig

  // A pass's phase follows from its trace, and what it fetched through the
  // caches are versions that were really stored.
  ghost predicate TcGrounded(side: TcSide, key: Key, trace: Trace, phase: TcPhase) {
    && TcAfter(key, trace) == Some(phase)
    && (|trace| >= 1 && trace[0].reply.FoundTargetCluster? ==> InLog(ChanOf(side, key), trace[0].reply.tc))
  }

  ghost predicate CpGrounded(tcs: TcSide, side: CpSide, key: Key, trace: Trace, phase: CpPhase) {
    && CpAfter(key, trace) == Some(phase)
    && (|trace| >= 1 && trace[0].reply.FoundPrerequisites? ==> InLog(ChanOf(side, key), trace[0].reply.cp))
    && (|trace| >= 2 && trace[1].reply.FoundTargetCluster? && phase != Fetching ==>
          InLog(ChanOf(tcs, trace[1].reply.tc.meta.key), trace[1].reply.tc))
  }

  ghost predicate TcRunsOK(side: TcSide) {
    && (forall k :: k in side.active ==> TcGrounded(side, k, side.active[k].trace, side.active[k].phase))
    && (forall i :: 0 <= i < |side.issued| ==>
          var c := side.issued[i]; !c.phase.Returned? && TcGrounded(side, c.key, c.trace, c.phase))
  }

  ghost predicate CpRunsOK(tcs: TcSide, side: CpSide) {
    && (forall k :: k in side.active ==> CpGrounded(tcs, side, k, side.active[k].trace, side.active[k].phase))
    && (forall i :: 0 <= i < |side.issued| ==>
          var c := side.issued[i]; !c.phase.Returned? && CpGrounded(tcs, side, c.key, c.trace, c.phase))
  }

  // The probe of the latest Ready version at or before i of this object's
  // life, or none.
  function Latched(log: Log<TargetClusterSpec, Probe>, i: nat): Probe
    requires i < |log|
  {
    if log[i].None? then NO_PROBE
    else if log[i].value.status.ready then log[i].value.status.extra
    else if i == 0 then NO_PROBE
    else Latched(log, i - 1)
  }

  ghost predicate LatchOK(side: TcSide) {
    forall k, i :: k in side.chans && 0 <= i < |side.chans[k].log| && side.chans[k].log[i].Some? ==>
      side.chans[k].log[i].value.status.extra == Latched(side.chans[k].log, i)
  }

  // v's ingress status is what the spec of one stored version and the
  // Kubernetes version of a Ready TargetCluster it refers to decide.
  predicate DecidedFrom(v: ClusterPrerequisites, cp: ClusterPrerequisites, tc: TargetCluster) {
    && cp.meta.uid == v.meta.uid
    && tc.meta.key == Key(cp.meta.key.namespace, cp.spec.targetClusterRef) && tc.status.ready
    && DecideIngress(cp.spec.ingress, tc.status.extra.kubernetesVersion, NO_CREDENTIALS) == Settled(v.status.extra.ingress)
  }

  ghost predicate Decided(tcs: TcSide, side: CpSide, key: Key, v: ClusterPrerequisites) {
    exists cp: ClusterPrerequisites, tc: TargetCluster :: InLog(ChanOf(side, key), cp) && InLog(ChanOf(tcs, tc.meta.key), tc) && DecidedFrom(v, cp, tc)
  }

  // A stored version that speaks of a bundled Traefik was decided that way.
  ghost predicate BundlingRead(tcs: TcSide, side: CpSide, key: Key, v: Option<ClusterPrerequisites>) {
    v.Some? && v.value.status.extra.ingress.message.UsingBundledTraefik? ==> Decided(tcs, side, key, v.value)
  }

  ghost predicate BundlingOK(tcs: TcSide, side: CpSide) {
    forall k, i :: k in side.chans && 0 <= i < |side.chans[k].log| ==> BundlingRead(tcs, side, k, side.chans[k].log[i])
  }

  ghost predicate Inv(w: World) {
    && ChansOK(w.tc, w.counter) && ChansOK(w.cp, w.counter)
    && TcRunsOK(w.tc) && CpRunsOK(w.tc, w.cp)
    && ReadyExplained(w.tc) && ReadyExplained(w.cp)
    && LatchOK(w.tc) && BundlingOK(w.tc, w.cp)
    && Wakes(w.tc, true) && Wakes(w.cp, false)
  }

  // ------------------------------------------------------- growing the logs

  lemma TcGroundedGrows(a: TcSide, b: TcSide, key: Key, trace: Trace, phase: TcPhase)
    requires LogsGrow(a, b) && TcGrounded(a, key, trace, phase)
    ensures TcGrounded(b, key, trace, phase)
  {
    if |trace| >= 1 && trace[0].reply.FoundTargetCluster? {
      InLogGrows(ChanOf(a, key), ChanOf(b, key), trace[0].reply.tc);
    }
  }

  lemma CpGroundedGrows(ta: TcSide, tb: TcSide, a: CpSide, b: CpSide, key: Key, trace: Trace, phase: CpPhase)
    requires LogsGrow(ta, tb) && LogsGrow(a, b) && CpGrounded(ta, a, key, trace, phase)
    ensures CpGrounded(tb, b, key, trace, phase)
  {
    if |trace| >= 1 && trace[0].reply.FoundPrerequisites? {
      InLogGrows(ChanOf(a, key), ChanOf(b, key), trace[0].reply.cp);
    }
    if |trace| >= 2 && trace[1].reply.FoundTargetCluster? && phase != Fetching {
      var k := trace[1].reply.tc.meta.key;
      InLogGrows(ChanOf(ta, k), ChanOf(tb, k), trace[1].reply.tc);
    }
  }

  lemma TcRunsGrow(a: TcSide, b: TcSide)
    requires TcRunsOK(a) && LogsGrow(a, b) && b.issued == a.issued
    requires forall k :: k in b.active ==> (k in a.active && b.active[k] == a.active[k]) || b.active[k] == Run(Fetching, [])
    ensures TcRunsOK(b)
  {
    forall k | k in b.active ensures TcGrounded(b, k, b.active[k].trace, b.active[k].phase) {
      if k in a.active && b.active[k] == a.active[k] {
        TcGroundedGrows(a, b, k, a.active[k].trace, a.active[k].phase);
      }
    }
    forall i | 0 <= i < |b.issued| ensures TcGrounded(b, b.issued[i].key, b.issued[i].trace, b.issued[i].phase) {
      TcGroundedGrows(a, b, a.issued[i].key, a.issued[i].trace, a.issued[i].phase);
    }
  }

  lemma CpRunsGrow(ta: TcSide, tb: TcSide, a: CpSide, b: CpSide)
    requires CpRunsOK(ta, a) && LogsGrow(ta, tb) && LogsGrow(a, b) && b.issued == a.issued
    requires forall k :: k in b.active ==> (k in a.active && b.active[k] == a.active[k]) || b.active[k] == Run(Fetching, [])
    ensures CpRunsOK(tb, b)
  {
    forall k | k in b.active ensures CpGrounded(tb, b, k, b.active[k].trace, b.active[k].phase) {
      if k in a.active && b.active[k] == a.active[k] {
        CpGroundedGrows(ta, tb, a, b, k, a.active[k].trace, a.active[k].phase);
      }
    }
    forall i | 0 <= i < |b.issued| ensures CpGrounded(tb, b, b.issued[i].key, b.issued[i].trace, b.issued[i].phase) {
      CpGroundedGrows(ta, tb, a, b, a.issued[i].key, a.issued[i].trace, a.issued[i].phase);
    }
  }

  // ------------------------------------------------------------ the latch

  lemma {:induction false} LatchedPrefix(log: Log<TargetClusterSpec, Probe>, v: Option<TargetCluster>, i: nat)
    requires i < |log|
    ensures Latched(log + [v], i) == Latched(log, i)
  {
    if i > 0 {
      LatchedPrefix(log, v, i - 1);
    }
  }

  // A version whose status is not a new Ready probe must carry the probe of
  // the version it replaces.
  lemma AppendLatch(side: TcSide, key: Key, v: Option<TargetCluster>)
    requires LatchOK(side) && ChanOf(side, key).log != []
    requires v.Some? && !v.value.status.ready ==>
      v.value.status.extra == (if Current(ChanOf(side, key)).None? then NO_PROBE else Current(ChanOf(side, key)).value.status.extra)
    ensures LatchOK(Append(side, key, v))
  {
    var b := Append(side, key, v);
    var log := ChanOf(side, key).log;
    forall k, i | k in b.chans && 0 <= i < |b.chans[k].log| && b.chans[k].log[i].Some?
      ensures b.chans[k].log[i].value.status.extra == Latched(b.chans[k].log, i)
    {
      if k == key {
        if i < |log| {
          LatchedPrefix(log, v, i);
        } else {
          LatchedPrefix(log, v, |log| - 1);
        }
      }
    }
  }

  // ---------------------------------------------------------- the bundling

  lemma BundlingGrows(ta: TcSide, tb: TcSide, a: CpSide, b: CpSide, key: Key, v: Option<ClusterPrerequisites>)
    requires LogsGrow(ta, tb) && LogsGrow(a, b) && BundlingRead(ta, a, key, v)
    ensures BundlingRead(tb, b, key, v)
  {
    hide DecidedFrom;
    if v.Some? && v.value.status.extra.ingress.message.UsingBundledTraefik? {
      var cp: ClusterPrerequisites, tc: TargetCluster :| InLog(ChanOf(a, key), cp) && InLog(ChanOf(ta, tc.meta.key), tc) && DecidedFrom(v.value, cp, tc);
      InLogGrows(ChanOf(a, key), ChanOf(b, key), cp);
      InLogGrows(ChanOf(ta, tc.meta.key), ChanOf(tb, tc.meta.key), tc);
    }
  }

  // It survives when every log entry is old or decided like that.
  lemma BundlingKept(ta: TcSide, tb: TcSide, a: CpSide, b: CpSide)
    requires BundlingOK(ta, a) && LogsGrow(ta, tb) && LogsGrow(a, b)
    requires forall k, i :: k in b.chans && 0 <= i < |b.chans[k].log| ==>
               || (k in a.chans && i < |a.chans[k].log| && b.chans[k].log[i] == a.chans[k].log[i])
               || BundlingRead(tb, b, k, b.chans[k].log[i])
    ensures BundlingOK(tb, b)
  {
    hide BundlingRead;
    forall k, i | k in b.chans && 0 <= i < |b.chans[k].log| ensures BundlingRead(tb, b, k, b.chans[k].log[i]) {
      if k in a.chans && i < |a.chans[k].log| && b.chans[k].log[i] == a.chans[k].log[i] {
        BundlingGrows(ta, tb, a, b, k, a.chans[k].log[i]);
      }
    }
  }

  lemma AppendBundling(tcs: TcSide, side: CpSide, key: Key, v: Option<ClusterPrerequisites>)
    requires BundlingOK(tcs, side) && BundlingRead(tcs, side, key, v) && BundlingRead(tcs, side, key, None)
    ensures BundlingOK(tcs, Append(side, key, v))
  {
    hide BundlingRead;
    var b := Append(side, key, v);
    BundlingGrows(tcs, tcs, side, b, key, v);
    BundlingGrows(tcs, tcs, side, b, key, None);
    BundlingKept(tcs, tcs, side, b);
  }

  // An edit keeps the status of the current version, or starts without one.
  lemma EditBundling(tcs: TcSide, side: CpSide, key: Key, edit: Edit<ClusterPrerequisitesSpec>, counter: nat)
    requires BundlingOK(tcs, side) && ChansOK(side, counter) && EditEnabled(side, key, edit)
    ensures BundlingOK(tcs, Append(side, key, Edited(side, key, edit, counter, NO_COMPONENTS)))
  {
    hide DecideIngress, ChansOK;
    var v := Edited(side, key, edit, counter, NO_COMPONENTS);
    var c := ChanOf(side, key);
    ChanOfOK(side, key, counter);
    if v.Some? && !edit.Create? {
      SameBundling(tcs, side, key, Current(c).value, v.value);
    }
    AppendBundling(tcs, side, key, v);
  }

  lemma SameBundling(tcs: TcSide, side: CpSide, key: Key, a: ClusterPrerequisites, b: ClusterPrerequisites)
    requires BundlingOK(tcs, side) && InLog(ChanOf(side, key), a)
    requires a.meta.uid == b.meta.uid && a.status.extra == b.status.extra
    ensures BundlingRead(tcs, side, key, Some(b))
  {
    hide DecideIngress;
    var c := ChanOf(side, key);
    var i :| 0 <= i < |c.log| && c.log[i] == Some(a);
    assert BundlingRead(tcs, side, key, Some(a));
    if b.status.extra.ingress.message.UsingBundledTraefik? {
      var cp: ClusterPrerequisites, tc: TargetCluster :| InLog(ChanOf(side, key), cp) && InLog(ChanOf(tcs, tc.meta.key), tc) && DecidedFrom(a, cp, tc);
      assert DecidedFrom(b, cp, tc);
    }
  }

  // What a pass writes over the version it fetched.
  lemma WrittenBundling(tcs: TcSide, side: CpSide, key: Key, trace: Trace, phase: CpPhase, v: ClusterPrerequisites)
    requires BundlingOK(tcs, side) && CpGrounded(tcs, side, key, trace, phase) && phase.Writing?
    requires v.meta.uid == phase.obj.meta.uid && v.status == phase.obj.status
    ensures BundlingRead(tcs, side, key, Some(v))
  {
    hide CpAfter, HasBundledTraefik, Released, DockerConfig.Dockerconfigjson, Coherent;
    CpPassJustified(key, trace);
    var base := trace[0].reply.cp;
    if phase.onSuccess == AfterError {
      SameBundling(tcs, side, key, base, v);
    } else if v.status.extra.ingress.message.UsingBundledTraefik? {
      assert DecidedFrom(v, base, trace[1].reply.tc);
    }
  }

  lemma LandBundling(tcs: TcSide, side: CpSide, key: Key, trace: Trace, phase: CpPhase, counter: nat)
    requires BundlingOK(tcs, side) && CpGrounded(tcs, side, key, trace, phase) && phase.Writing?
    requires Accepts(side, phase.obj) && phase.obj.meta.key == key
    requires Current(ChanOf(side, key)).value.meta.uid == phase.obj.meta.uid
    ensures BundlingOK(tcs, Land(side, phase.obj, counter))
  {
    hide BundlingOK, CpGrounded;
    var cur := Current(ChanOf(side, key)).value;
    var v := cur.(meta := cur.meta.(resourceVersion := counter), status := phase.obj.status);
    WrittenBundling(tcs, side, key, trace, phase, v);
    AppendBundling(tcs, side, key, Some(v));
  }

  lemma SameBundles(tcs: TcSide, a: CpSide, b: CpSide)
    requires BundlingOK(tcs, a) && b.chans == a.chans
    ensures BundlingOK(tcs, b)
  {
    BundlingKept(tcs, tcs, a, b);
  }

  lemma TargetsBundling(ta: TcSide, tb: TcSide, side: CpSide)
    requires BundlingOK(ta, side) && LogsGrow(ta, tb)
    ensures BundlingOK(tb, side)
  {
    BundlingKept(ta, tb, side, side);
  }

  lemma MovedBundling(tcs: TcSide, side: CpSide, key: Key, move: Move<ClusterPrerequisitesSpec>, counter: nat)
    requires BundlingOK(tcs, side) && ChansOK(side, counter) && MoveEnabled(side, key, move) && !move.Answer?
    ensures BundlingOK(tcs, Moved(side, key, move, counter, NO_COMPONENTS))
  {
    hide BundlingRead;
    var b := Moved(side, key, move, counter, NO_COMPONENTS);
    match move
    case Change(edit) => EditBundling(tcs, side, key, edit, counter);
    case DeliverEvents(_) =>
      ChanOfOK(side, key, counter);
      NoneRead(tcs, b, key);
      BundlingKept(tcs, tcs, side, b);
    case _ => SameBundles(tcs, side, b);
  }

  lemma NoneRead(tcs: TcSide, side: CpSide, key: Key)
    ensures BundlingRead(tcs, side, key, None)
  {
  }

  lemma RestartBundling(tcs: TcSide, side: CpSide)
    requires BundlingOK(tcs, side)
    ensures BundlingOK(Restarted(tcs), Restarted(side))
  {
    hide BundlingRead;
    assert forall k :: k in side.chans ==> Restarted(side).chans[k].log == side.chans[k].log;
    BundlingKept(tcs, Restarted(tcs), side, Restarted(side));
  }

  // ------------------------------------------------- moves but answering

  lemma MovedKeeps<S, X, W>(side: Side<S, X, W>, key: Key, move: Move<S>, counter: nat, blank: X, mayIdle: bool)
    requires MoveEnabled(side, key, move) && !move.Answer?
    requires ChansOK(side, counter) && ReadyExplained(side) && Wakes(side, mayIdle)
    ensures var b := Moved(side, key, move, counter, blank);
            && ChansOK(b, counter + 1) && ReadyExplained(b) && Wakes(b, mayIdle)
            && LogsGrow(side, b) && b.issued == side.issued
            && (forall k :: k in b.active ==> (k in side.active && b.active[k] == side.active[k]) || b.active[k] == Run(Fetching, []))
  {
    var b := Moved(side, key, move, counter, blank);
    match move
    case Change(edit) =>
      EditIsNext(side, key, edit, counter, blank);
      AppendKeepsChans(side, key, Edited(side, key, edit, counter, blank), counter);
      EditExplained(side, key, edit, counter, blank);
      AppendWakes(side, key, Edited(side, key, edit, counter, blank), counter, mayIdle);
    case DeliverEvents(upTo) =>
      ChanOfOK(side, key, counter);
      DeliverWakes(side, key, upTo, counter, mayIdle);
      EvidenceKept(side, b);
      LaterCounter(b, counter);
    case TimerFires =>
      QueueMovesWake(side, key, mayIdle);
      EvidenceKept(side, b);
      LaterCounter(b, counter);
    case BeginReconcile =>
      QueueMovesWake(side, key, mayIdle);
      EvidenceKept(side, b);
      LaterCounter(b, counter);
    case FinishReconcile =>
      EndPassWakes(side, key, counter, mayIdle);
      EvidenceKept(side, b);
      LaterCounter(b, counter);
  }

  lemma LaterCounter<S, X, W>(side: Side<S, X, W>, counter: nat)
    requires ChansOK(side, counter)
    ensures ChansOK(side, counter + 1)
  {
    forall k | k in side.chans ensures ChanOK(side.chans[k], k, counter + 1) {
      var c := side.chans[k];
      assert ChanOK(c, k, counter);
    }
  }

  lemma MovedLatch(side: TcSide, key: Key, move: Move<TargetClusterSpec>, counter: nat)
    requires MoveEnabled(side, key, move) && !move.Answer? && LatchOK(side) && ChansOK(side, counter)
    ensures LatchOK(Moved(side, key, move, counter, NO_PROBE))
  {
    ChanOfOK(side, key, counter);
    if move.Change? {
      AppendLatch(side, key, Edited(side, key, move.edit, counter, NO_PROBE));
    }
  }

  lemma TcMoveKeeps(w: World, key: Key, move: Move<TargetClusterSpec>)
    requires Inv(w) && TcEnabled(w, key, move) && !move.Answer?
    ensures Inv(Take(w, OfTc(key, move)))
  {
    hide ChansOK, TcRunsOK, CpRunsOK, ReadyExplained, LatchOK, BundlingOK, Wakes, TcAfter, CpAfter, TcContinue, CpContinue, Moved;
    var b := Moved(w.tc, key, move, w.counter, NO_PROBE);
    MovedKeeps(w.tc, key, move, w.counter, NO_PROBE, true);
    MovedLatch(w.tc, key, move, w.counter);
    TcRunsGrow(w.tc, b);
    CpRunsGrow(w.tc, b, w.cp, w.cp);
    TargetsBundling(w.tc, b, w.cp);
    LaterCounter(w.cp, w.counter);
  }

  lemma CpMoveKeeps(w: World, key: Key, move: Move<ClusterPrerequisitesSpec>)
    requires Inv(w) && CpEnabled(w, key, move) && !move.Answer?
    ensures Inv(Take(w, OfCp(key, move)))
  {
    hide ChansOK, TcRunsOK, CpRunsOK, ReadyExplained, LatchOK, BundlingOK, Wakes, TcAfter, CpAfter, TcContinue, CpContinue, Moved;
    var b := Moved(w.cp, key, move, w.counter, NO_COMPONENTS);
    MovedKeeps(w.cp, key, move, w.counter, NO_COMPONENTS, false);
    CpRunsGrow(w.tc, w.tc, w.cp, b);
    MovedBundling(w.tc, w.cp, key, move, w.counter);
    LaterCounter(w.tc, w.counter);
  }

  // ------------------------------------------------------------- answering

  // Landing a status that a pass computed from a stored version.
  lemma LandKeeps<S, X, W>(side: Side<S, X, W>, key: Key, run: Run<S, X, W>, base: Resource<S, X>, next: Phase<S, X, W>,
                           e: Exchange, counter: nat)
    requires ChansOK(side, counter) && ReadyExplained(side) && key in side.active && side.active[key] == run
    requires run.phase.Writing? && Accepts(side, run.phase.obj)
    requires InLog(ChanOf(side, key), base) && base.meta.key == key && Rewrites(base, run.phase.obj)
    ensures Current(ChanOf(side, key)) == Some(base)
    ensures var b := Advance(Land(side, run.phase.obj, counter), key, next, e, true);
            ChansOK(b, counter + 1) && ReadyExplained(b) && LogsGrow(side, b)
  {
    hide Report, AvailableIn, ForeignIn, SetStatusCondition, StoredReason, ReadyExplained;
    var o := run.phase.obj;
    LandIsNext(side, base, o, counter);
    var b := Advance(Land(side, o, counter), key, next, e, true);
    assert b.issued[|side.issued|] == Issued(key, run.trace, run.phase, true);
    if base.status == o.status {
      LaterCounter(side, counter);
      EvidenceKept(side, b);
    } else {
      var v := base.(meta := base.meta.(resourceVersion := counter), status := o.status);
      AppendKeepsChans(side, key, Some(v), counter);
      assert Explains(b.issued[|side.issued|], v);
      AppendExplained(side, b, key, v);
    }
  }

  // Appending one explained version, with the evidence for the others kept.
  lemma AppendExplained<S, X, W>(side: Side<S, X, W>, b: Side<S, X, W>, key: Key, v: Resource<S, X>)
    requires ReadyExplained(side) && IssuedGrows(side, b) && b.chans == Append(side, key, Some(v)).chans
    requires Explained(b, v)
    ensures ReadyExplained(b)
  {
    hide ReadyExplained;
    EvidenceKept(side, b);
  }

  lemma NoLandKeeps<S, X, W>(side: Side<S, X, W>, key: Key, next: Phase<S, X, W>, e: Exchange, counter: nat)
    requires ChansOK(side, counter) && ReadyExplained(side) && key in side.active
    ensures var b := Advance(side, key, next, e, false);
            ChansOK(b, counter + 1) && ReadyExplained(b) && LogsGrow(side, b)
  {
    EvidenceKept(side, Advance(side, key, next, e, false));
    LaterCounter(side, counter);
  }

  // Growing runs by one exchange.
  lemma TcRunsAdvance(side: TcSide, side1: TcSide, key: Key, e: Exchange, next: TcPhase, lands: bool)
    requires TcRunsOK(side) && key in side.active && LogsGrow(side, side1)
    requires side1.active == side.active && side1.issued == side.issued
    requires !side.active[key].phase.Returned? && TcStep(key, side.active[key].phase, e) == Some(next)
    requires side.active[key].trace == [] && e.reply.FoundTargetCluster? ==> InLog(ChanOf(side, key), e.reply.tc)
    ensures TcRunsOK(Advance(side1, key, next, e, lands))
  {
    hide TcAfter, CpAfter, TcContinue, CpContinue;
    var b := Advance(side1, key, next, e, lands);
    var run := side.active[key];
    assert forall k :: ChanOf(b, k) == ChanOf(side1, k);
    TcAfterAppend(key, run.trace, e);
    forall k | k in b.active ensures TcGrounded(b, k, b.active[k].trace, b.active[k].phase) {
      if k == key {
        TcGroundedGrows(side, b, key, run.trace, run.phase);
        if run.trace == [] && e.reply.FoundTargetCluster? {
          InLogGrows(ChanOf(side, key), ChanOf(b, key), e.reply.tc);
        }
      } else {
        TcGroundedGrows(side, b, k, side.active[k].trace, side.active[k].phase);
      }
    }
    forall i | 0 <= i < |b.issued|
      ensures !b.issued[i].phase.Returned? && TcGrounded(b, b.issued[i].key, b.issued[i].trace, b.issued[i].phase)
    {
      if i < |side.issued| {
        assert b.issued[i] == side.issued[i];
        TcGroundedGrows(side, b, b.issued[i].key, b.issued[i].trace, b.issued[i].phase);
      } else {
        TcGroundedGrows(side, b, key, run.trace, run.phase);
      }
    }
  }

  lemma CpRunAdvances(tcs: TcSide, side: CpSide, b: CpSide, key: Key, e: Exchange, next: CpPhase)
    requires key in side.active && LogsGrow(side, b)
    requires var run := side.active[key];
             && CpGrounded(tcs, side, key, run.trace, run.phase)
             && !run.phase.Returned? && Proper(run.phase) && CpStep(key, run.phase, e) == Some(next)
             && (run.trace == [] && e.reply.FoundPrerequisites? ==> InLog(ChanOf(side, key), e.reply.cp))
             && (|run.trace| == 1 && e.reply.FoundTargetCluster? ==> InLog(ChanOf(tcs, e.reply.tc.meta.key), e.reply.tc))
    ensures CpGrounded(tcs, b, key, side.active[key].trace + [e], next)
  {
    hide CpAfter, CpContinue;
    var run := side.active[key];
    CpAfterAppend(key, run.trace, e);
    CpPassJustified(key, run.trace);
    CpGroundedGrows(tcs, tcs, side, b, key, run.trace, run.phase);
    if run.trace == [] && e.reply.FoundPrerequisites? {
      InLogGrows(ChanOf(side, key), ChanOf(b, key), e.reply.cp);
    }
  }

  lemma CpRunsAdvance(tcs: TcSide, side: CpSide, side1: CpSide, key: Key, e: Exchange, next: CpPhase, lands: bool)
    requires CpRunsOK(tcs, side) && key in side.active && LogsGrow(side, side1)
    requires side1.active == side.active && side1.issued == side.issued
    requires var run := side.active[key];
             && !run.phase.Returned? && Proper(run.phase) && CpStep(key, run.phase, e) == Some(next)
             && (run.trace == [] && e.reply.FoundPrerequisites? ==> InLog(ChanOf(side, key), e.reply.cp))
             && (|run.trace| == 1 && e.reply.FoundTargetCluster? ==> InLog(ChanOf(tcs, e.reply.tc.meta.key), e.reply.tc))
    ensures CpRunsOK(tcs, Advance(side1, key, next, e, lands))
  {
    hide CpGrounded, CpStep, Proper;
    var b := Advance(side1, key, next, e, lands);
    var run := side.active[key];
    assert forall k :: ChanOf(b, k) == ChanOf(side1, k);
    forall k | k in b.active ensures CpGrounded(tcs, b, k, b.active[k].trace, b.active[k].phase) {
      if k == key {
        CpRunAdvances(tcs, side, b, key, e, next);
      } else {
        CpGroundedGrows(tcs, tcs, side, b, k, side.active[k].trace, side.active[k].phase);
      }
    }
    forall i | 0 <= i < |b.issued|
      ensures !b.issued[i].phase.Returned? && CpGrounded(tcs, b, b.issued[i].key, b.issued[i].trace, b.issued[i].phase)
    {
      if i < |side.issued| {
        assert b.issued[i] == side.issued[i];
        CpGroundedGrows(tcs, tcs, side, b, b.issued[i].key, b.issued[i].trace, b.issued[i].phase);
      } else {
        CpGroundedGrows(tcs, tcs, side, b, key, run.trace, run.phase);
      }
    }
  }

  lemma CachedInLog<S, X, W>(side: Side<S, X, W>, key: Key, counter: nat)
    requires ChansOK(side, counter) && Cached(ChanOf(side, key)).Some?
    ensures InLog(ChanOf(side, key), Cached(ChanOf(side, key)).value)
    ensures Cached(ChanOf(side, key)).value.meta.key == key
  {
    ChanOfOK(side, key, counter);
  }

  // What the landing of a TargetCluster status does to the latch.
  lemma LandLatch(side: TcSide, key: Key, base: TargetCluster, o: TargetCluster, counter: nat)
    requires LatchOK(side) && ChansOK(side, counter) && o.meta.key == key && Accepts(side, o)
    requires Current(ChanOf(side, key)) == Some(base) && o.meta == base.meta
    requires !o.status.ready ==> o.status.extra == base.status.extra
    ensures LatchOK(Land(side, o, counter))
  {
    ChanOfOK(side, key, counter);
    if base.status != o.status {
      AppendLatch(side, key, Some(base.(meta := base.meta.(resourceVersion := counter), status := o.status)));
    }
  }

  lemma SameLatch(a: TcSide, b: TcSide)
    requires LatchOK(a) && b.chans == a.chans
    ensures LatchOK(b)
  {
  }

  // A pass writes a status computed from the object it fetched.
  lemma TcWritesBase(key: Key, trace: Trace, phase: TcPhase)
    requires TcAfter(key, trace) == Some(phase) && phase.Writing?
    ensures |trace| >= 1 && trace[0].reply.FoundTargetCluster?
    ensures var base := trace[0].reply.tc;
            && base.meta.key == key && Rewrites(base, phase.obj)
            && (!phase.obj.status.ready ==> phase.obj.status.extra == base.status.extra)
  {
    TcPassJustified(key, trace);
  }

  lemma CpWritesBase(key: Key, trace: Trace, phase: CpPhase)
    requires CpAfter(key, trace) == Some(phase) && phase.Writing?
    ensures |trace| >= 1 && trace[0].reply.FoundPrerequisites?
    ensures trace[0].reply.cp.meta.key == key && Rewrites(trace[0].reply.cp, phase.obj)
  {
    CpPassJustified(key, trace);
  }

  // An answered TargetCluster request, as far as the stored objects go.
  lemma TcAnswerStore(w: World, key: Key, reply: Reply, lands: bool)
    requires Inv(w) && TcEnabled(w, key, Answer(reply, lands))
    ensures var b := AnsweredTc(w, key, reply, lands);
            ChansOK(b, w.counter + 1) && ReadyExplained(b) && LatchOK(b) && LogsGrow(w.tc, b)
  {
    hide TcAfter, CpAfter, TcContinue, CpContinue, Coherent, Report, ReadyExplained, LatchOK, Wakes, CpRunsOK, ChansOK;
    var run := w.tc.active[key];
    var phase, trace := run.phase, run.trace;
    var e := Exchange(TcRequest(key, phase), reply, w.clock);
    var next := TcContinue(phase, reply, w.clock);
    if lands {
      assert TcGrounded(w.tc, key, trace, phase);
      TcWritesBase(key, trace, phase);
      var base := trace[0].reply.tc;
      LandKeeps(w.tc, key, run, base, next, e, w.counter);
      LandLatch(w.tc, key, base, phase.obj, w.counter);
    } else {
      NoLandKeeps(w.tc, key, next, e, w.counter);
    }
    SameLatch(Landed(w.tc, phase, lands, w.counter), AnsweredTc(w, key, reply, lands));
  }

  lemma TcAnswerWakes(w: World, key: Key, reply: Reply, lands: bool)
    requires Inv(w) && TcEnabled(w, key, Answer(reply, lands))
    ensures Wakes(AnsweredTc(w, key, reply, lands), true)
  {
    hide CpAfter, TcAfter;
    var run := w.tc.active[key];
    var phase := run.phase;
    var e := Exchange(TcRequest(key, phase), reply, w.clock);
    assert TcGrounded(w.tc, key, run.trace, phase);
    TcPassJustified(key, run.trace);
    AdvanceWakes(w.tc, Landed(w.tc, phase, lands, w.counter), key, TcContinue(phase, reply, w.clock), e, lands, w.counter, true);
  }

  lemma TcAnswerRuns(w: World, key: Key, reply: Reply, lands: bool)
    requires Inv(w) && TcEnabled(w, key, Answer(reply, lands))
    requires LogsGrow(w.tc, AnsweredTc(w, key, reply, lands))
    ensures TcRunsOK(AnsweredTc(w, key, reply, lands))
  {
    hide CpAfter, TcContinue, CpContinue, ReadyExplained, LatchOK, Wakes;
    var run := w.tc.active[key];
    var phase := run.phase;
    var e := Exchange(TcRequest(key, phase), reply, w.clock);
    var side1, b := Landed(w.tc, phase, lands, w.counter), AnsweredTc(w, key, reply, lands);
    assert forall k :: ChanOf(b, k) == ChanOf(side1, k);
    assert TcGrounded(w.tc, key, run.trace, phase);
    if run.trace == [] && reply.FoundTargetCluster? {
      CachedInLog(w.tc, key, w.counter);
    }
    TcRunsAdvance(w.tc, side1, key, e, TcContinue(phase, reply, w.clock), lands);
  }

  lemma TcAnswerKeeps(w: World, key: Key, reply: Reply, lands: bool)
    requires Inv(w) && TcEnabled(w, key, Answer(reply, lands))
    ensures Inv(Take(w, OfTc(key, Answer(reply, lands))))
  {
    hide ChansOK, TcRunsOK, CpRunsOK, ReadyExplained, LatchOK, BundlingOK, Wakes, TcAfter, CpAfter, TcContinue, CpContinue;
    TcAnswerStore(w, key, reply, lands);
    TcAnswerWakes(w, key, reply, lands);
    TcAnswerRuns(w, key, reply, lands);
    CpRunsGrow(w.tc, AnsweredTc(w, key, reply, lands), w.cp, w.cp);
    TargetsBundling(w.tc, AnsweredTc(w, key, reply, lands), w.cp);
    LaterCounter(w.cp, w.counter);
  }

  lemma CpAnswerStore(w: World, key: Key, reply: Reply, lands: bool)
    requires Inv(w) && CpEnabled(w, key, Answer(reply, lands))
    ensures var b := AnsweredCp(w, key, reply, lands);
            ChansOK(b, w.counter + 1) && ReadyExplained(b) && BundlingOK(w.tc, b) && LogsGrow(w.cp, b)
  {
    hide TcAfter, CpAfter, TcContinue, CpContinue, Coherent, Report, ReadyExplained, LatchOK, Wakes, TcRunsOK, ChansOK, BundlingOK;
    var run := w.cp.active[key];
    var phase, trace := run.phase, run.trace;
    var e := Exchange(CpRequest(key, phase), reply, w.clock);
    var next := CpContinue(phase, reply, w.clock);
    if lands {
      assert CpGrounded(w.tc, w.cp, key, trace, phase);
      CpWritesBase(key, trace, phase);
      LandKeeps(w.cp, key, run, trace[0].reply.cp, next, e, w.counter);
      LandBundling(w.tc, w.cp, key, trace, phase, w.counter);
    } else {
      NoLandKeeps(w.cp, key, next, e, w.counter);
    }
    SameBundles(w.tc, Landed(w.cp, phase, lands, w.counter), AnsweredCp(w, key, reply, lands));
  }

  lemma CpWorkNeverEndsSilently(work: CpWork, reply: Reply, now: nat)
    requires Proper(Working(work))
    ensures CpWorkOn(work, reply, now) != Returned(NoRequeue, None)
  {
    hide DockerConfig.Dockerconfigjson, Contains, Report;
  }

  // A ClusterPrerequisites pass never ends silently on an existing object.
  lemma CpEndsSilentlyOnlyOnMiss(key: Key, trace: Trace, phase: CpPhase, reply: Reply, now: nat)
    requires CpAfter(key, trace) == Some(phase) && !phase.Returned?
    requires CpContinue(phase, reply, now) == Returned(NoRequeue, None)
    ensures trace == [] && reply.NotFound?
  {
    hide CpAfter, CpWorkOn, CompletedVerdict, Rewrites;
    CpPassJustified(key, trace);
    if phase.Working? {
      CpWorkNeverEndsSilently(phase.work, reply, now);
    }
  }

  lemma CpAnswerWakes(w: World, key: Key, reply: Reply, lands: bool)
    requires Inv(w) && CpEnabled(w, key, Answer(reply, lands))
    ensures Wakes(AnsweredCp(w, key, reply, lands), false)
  {
    hide CpContinue, TcContinue, TcAfter;
    var run := w.cp.active[key];
    var phase := run.phase;
    var e := Exchange(CpRequest(key, phase), reply, w.clock);
    var next := CpContinue(phase, reply, w.clock);
    assert CpGrounded(w.tc, w.cp, key, run.trace, phase);
    if next == Returned(NoRequeue, None) {
      CpEndsSilentlyOnlyOnMiss(key, run.trace, phase, reply, w.clock);
    }
    if lands {
      CpWritesBase(key, run.trace, phase);
    }
    AdvanceWakes(w.cp, Landed(w.cp, phase, lands, w.counter), key, next, e, lands, w.counter, false);
  }

  lemma CpAnswerRuns(w: World, key: Key, reply: Reply, lands: bool)
    requires Inv(w) && CpEnabled(w, key, Answer(reply, lands))
    requires LogsGrow(w.cp, AnsweredCp(w, key, reply, lands))
    ensures CpRunsOK(w.tc, AnsweredCp(w, key, reply, lands))
  {
    hide TcAfter, TcContinue, CpContinue, ReadyExplained, LatchOK, BundlingOK, Wakes, TcRunsOK;
    var run := w.cp.active[key];
    var phase, trace := run.phase, run.trace;
    var e := Exchange(CpRequest(key, phase), reply, w.clock);
    var side1, b := Landed(w.cp, phase, lands, w.counter), AnsweredCp(w, key, reply, lands);
    assert forall k :: ChanOf(b, k) == ChanOf(side1, k);
    assert CpGrounded(w.tc, w.cp, key, trace, phase);
    if trace == [] && reply.FoundPrerequisites? {
      CachedInLog(w.cp, key, w.counter);
    }
    if |trace| == 1 && reply.FoundTargetCluster? {
      CpReadsTargetSecond(key, trace, phase);
      CachedInLog(w.tc, CpRequest(key, phase).key, w.counter);
    }
    CpRunsAdvance(w.tc, w.cp, side1, key, e, CpContinue(phase, reply, w.clock), lands);
  }

  lemma CpAnswerKeeps(w: World, key: Key, reply: Reply, lands: bool)
    requires Inv(w) && CpEnabled(w, key, Answer(reply, lands))
    ensures Inv(Take(w, OfCp(key, Answer(reply, lands))))
  {
    hide ChansOK, TcRunsOK, CpRunsOK, ReadyExplained, LatchOK, BundlingOK, Wakes, TcAfter, CpAfter, TcContinue, CpContinue;
    CpAnswerStore(w, key, reply, lands);
    CpAnswerWakes(w, key, reply, lands);
    CpAnswerRuns(w, key, reply, lands);
    LaterCounter(w.tc, w.counter);
  }

  // The second exchange of a pass, if it gets a TargetCluster, is the read
  // of the referenced one.
  lemma CpReadsTargetSecond(key: Key, trace: Trace, phase: CpPhase)
    requires CpAfter(key, trace) == Some(phase) && |trace| == 1 && !phase.Returned?
    ensures phase.Working? && phase.work.ReadingTarget?
  {
    assert CpAfter(key, trace[..0]) == Some(Fetching);
  }

  // ------------------------------------------------------------ all steps

  lemma RestartLatch(side: TcSide)
    requires LatchOK(side)
    ensures LatchOK(Restarted(side))
  {
    var t := Restarted(side);
    forall k, i | k in t.chans && 0 <= i < |t.chans[k].log| && t.chans[k].log[i].Some?
      ensures t.chans[k].log[i].value.status.extra == Latched(t.chans[k].log, i)
    {
      assert t.chans[k].log == side.chans[k].log;
    }
  }

  lemma RestartKeeps(w: World)
    requires Inv(w)
    ensures Inv(Take(w, Restart))
  {
    hide TcAfter, CpAfter, TcContinue, CpContinue, ReadyExplained, LatchOK, BundlingOK, TcGrounded, CpGrounded;
    var t, c := Restarted(w.tc), Restarted(w.cp);
    RestartWakes(w.tc, w.counter, true);
    RestartWakes(w.cp, w.counter, false);
    EvidenceKept(w.tc, t);
    EvidenceKept(w.cp, c);
    TcRunsGrow(w.tc, t);
    CpRunsGrow(w.tc, t, w.cp, c);
    RestartLatch(w.tc);
    RestartBundling(w.tc, w.cp);
  }

  lemma StepKeeps(w: World, step: Step)
    requires Inv(w) && Enabled(w, step)
    ensures Inv(Take(w, step))
  {
    match step
    case OfTc(key, Answer(reply, lands)) => TcAnswerKeeps(w, key, reply, lands);
    case OfTc(key, move) => TcMoveKeeps(w, key, move);
    case OfCp(key, Answer(reply, lands)) => CpAnswerKeeps(w, key, reply, lands);
    case OfCp(key, move) => CpMoveKeeps(w, key, move);
    case Tick(_) =>
    case Restart => RestartKeeps(w);
  }

  // The invariant holds after every behaviour.
  lemma {:induction false} AlwaysInv(steps: seq<Step>)
    requires After(steps).Some?
    ensures Inv(After(steps).value)
  {
    if steps != [] {
      AlwaysInv(steps[..|steps| - 1]);
      StepKeeps(After(steps[..|steps| - 1]).value, steps[|steps| - 1]);
    }
  }
}
