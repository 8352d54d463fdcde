// What every transition of one controller's side keeps, for both kinds of
// object alike.
module StoreLaws {
  import opened Bytes
  import opened Api
  import opened Protocol
  import opened Store
  import opened PassLaws

  ghost predicate LogsGrow<S, X, W>(a: Side<S, X, W>, b: Side<S, X, W>) {
    forall k :: ChanOf(a, k).log <= ChanOf(b, k).log
  }

  ghost predicate IssuedGrows<S, X, W>(a: Side<S, X, W>, b: Side<S, X, W>) { a.issued <= b.issued }

  lemma InLogGrows<S, X>(a: Chan<S, X>, b: Chan<S, X>, o: Resource<S, X>)
    requires a.log <= b.log && InLog(a, o)
    ensures InLog(b, o)
  {
    var i :| 0 <= i < |a.log| && a.log[i] == Some(o);
    assert b.log[i] == Some(o);
  }

  // ------------------------------------------------------------- evidence

  // A status write of some pass that took effect and explains a stored
  // version: the version still carries what it wrote.
  ghost predicate Explains<S, X, W>(c: Issued<S, X, W>, v: Resource<S, X>) {
    && c.landed && c.phase.Writing? && c.key == v.meta.key
    && c.phase.obj.meta.uid == v.meta.uid && c.phase.obj.meta.generation == v.status.observedGeneration
    && c.phase.obj.status.ready == v.status.ready && c.phase.obj.status.extra == v.status.extra
  }

  ghost predicate Explained<S, X, W>(side: Side<S, X, W>, v: Resource<S, X>) {
    exists i :: 0 <= i < |side.issued| && Explains(side.issued[i], v)
  }

  predicate IsReady<S, X>(v: Option<Resource<S, X>>) { v.Some? && v.value.status.ready }

  ghost predicate ReadyExplained<S, X, W>(side: Side<S, X, W>) {
    forall k, i :: k in side.chans && 0 <= i < |side.chans[k].log| && IsReady(side.chans[k].log[i]) ==>
      Explained(side, side.chans[k].log[i].value)
  }

  lemma ExplainedGrows<S, X, W>(a: Side<S, X, W>, b: Side<S, X, W>, v: Resource<S, X>)
    requires IssuedGrows(a, b) && Explained(a, v)
    ensures Explained(b, v)
  {
    var i :| 0 <= i < |a.issued| && Explains(a.issued[i], v);
    assert b.issued[i] == a.issued[i];
  }

  // Evidence survives when every log entry is old or explained.
  lemma EvidenceKept<S, X, W>(a: Side<S, X, W>, b: Side<S, X, W>)
    requires ReadyExplained(a) && IssuedGrows(a, b)
    requires forall k, i :: k in b.chans && 0 <= i < |b.chans[k].log| && IsReady(b.chans[k].log[i]) ==>
               || (k in a.chans && i < |a.chans[k].log| && b.chans[k].log[i] == a.chans[k].log[i])
               || Explained(b, b.chans[k].log[i].value)
    ensures ReadyExplained(b)
  {
    forall k, i | k in b.chans && 0 <= i < |b.chans[k].log| && IsReady(b.chans[k].log[i])
      ensures Explained(b, b.chans[k].log[i].value)
    {
      if k in a.chans && i < |a.chans[k].log| && b.chans[k].log[i] == a.chans[k].log[i] {
        ExplainedGrows(a, b, a.chans[k].log[i].value);
      }
    }
  }

  lemma EditExplained<S, X, W>(side: Side<S, X, W>, key: Key, edit: Edit<S>, counter: nat, blank: X)
    requires ReadyExplained(side) && ChansOK(side, counter) && EditEnabled(side, key, edit)
    ensures ReadyExplained(Append(side, key, Edited(side, key, edit, counter, blank)))
  {
    var v := Edited(side, key, edit, counter, blank);
    var b := Append(side, key, v);
    var c := ChanOf(side, key);
    ChanOfOK(side, key, counter);
    if v.Some? && v.value.status.ready {
      var o := Current(c).value;
      assert Explained(side, c.log[|c.log| - 1].value);
      var i :| 0 <= i < |side.issued| && Explains(side.issued[i], o);
      assert VersionOK(o, key, counter);
      assert Explains(b.issued[i], v.value);
    }
    EvidenceKept(side, b);
  }

  // -------------------------------------------------------------- wakeups

  // Something will make the controller look at the key again: it is queued,
  // a timer or retry is due, a pass is under way, or an event is still to be
  // delivered.
  ghost predicate Pending<S, X, W>(side: Side<S, X, W>, key: Key) {
    || key in side.queue || key in side.timers || key in side.active
    || ChanOf(side, key).seen + 1 < |ChanOf(side, key).log|
  }

  ghost predicate MissedRead(trace: Trace) { |trace| >= 1 && trace[0].reply.NotFound? }

  ghost predicate Idle<S, X>(c: Chan<S, X>, mayIdle: bool) {
    Current(c).Some? ==> mayIdle && Terminal(Current(c).value.status)
  }

  ghost predicate RunWakes<S, X, W>(side: Side<S, X, W>, key: Key, run: Run<S, X, W>, mayIdle: bool) {
    var c := ChanOf(side, key);
    && (MissedRead(run.trace) && key !in side.queue ==> Cached(c).None?)
    && (run.phase == Returned(NoRequeue, None) ==>
          MissedRead(run.trace) || key in side.queue || c.seen + 1 < |c.log| || Idle(c, mayIdle))
  }

  ghost predicate Wakes<S, X, W>(side: Side<S, X, W>, mayIdle: bool) {
    && (forall k :: k in side.active ==> RunWakes(side, k, side.active[k], mayIdle))
    && (forall k :: k in side.chans ==> Pending(side, k) || Idle(side.chans[k], mayIdle))
  }

  lemma AppendWakes<S, X, W>(side: Side<S, X, W>, key: Key, v: Option<Resource<S, X>>, counter: nat, mayIdle: bool)
    requires Wakes(side, mayIdle) && ChansOK(side, counter)
    ensures Wakes(Append(side, key, v), mayIdle)
  {
    var b := Append(side, key, v);
    ChanOfOK(side, key, counter);
    assert forall k :: k != key ==> ChanOf(b, k) == ChanOf(side, k);
    assert Cached(ChanOf(b, key)) == Cached(ChanOf(side, key));
  }

  lemma DeliverWakes<S, X, W>(side: Side<S, X, W>, key: Key, upTo: nat, counter: nat, mayIdle: bool)
    requires Wakes(side, mayIdle) && ChansOK(side, counter) && upTo < |ChanOf(side, key).log|
    ensures Wakes(Deliver(side, key, upTo), mayIdle) && ChansOK(Deliver(side, key, upTo), counter)
  {
    var b := Deliver(side, key, upTo);
    assert forall k :: k != key ==> ChanOf(b, k) == ChanOf(side, k);
  }

  lemma QueueMovesWake<S, X, W>(side: Side<S, X, W>, key: Key, mayIdle: bool)
    requires Wakes(side, mayIdle)
    ensures key in side.timers ==> Wakes(Fire(side, key), mayIdle)
    ensures key in side.queue && key !in side.active ==> Wakes(BeginPass(side, key), mayIdle)
  {
    var f := Fire(side, key);
    assert forall k :: ChanOf(f, k) == ChanOf(side, k);
    var g := BeginPass(side, key);
    assert forall k :: ChanOf(g, k) == ChanOf(side, k);
  }

  // Ending a pass never strands a key: either it leaves a timer, or what it
  // missed is on its way, or there is nothing left to do.
  lemma EndPassWakes<S, X, W>(side: Side<S, X, W>, key: Key, counter: nat, mayIdle: bool)
    requires Wakes(side, mayIdle) && ChansOK(side, counter)
    requires key in side.active && side.active[key].phase.Returned?
    ensures Wakes(EndPass(side, key), mayIdle)
  {
    var b := EndPass(side, key);
    assert forall k :: ChanOf(b, k) == ChanOf(side, k);
    ChanOfOK(side, key, counter);
    assert RunWakes(side, key, side.active[key], mayIdle);
  }

  lemma RestartWakes<S, X, W>(side: Side<S, X, W>, counter: nat, mayIdle: bool)
    requires ChansOK(side, counter)
    ensures Wakes(Restarted(side), mayIdle) && ChansOK(Restarted(side), counter)
  {
    var b := Restarted(side);
    forall k | k in b.chans ensures Pending(b, k) || Idle(b.chans[k], mayIdle) {
      assert b.chans[k].log == side.chans[k].log;
    }
  }

  // The conditions under which one more exchange keeps the wakeups: a pass
  // ends silently only after a miss, or after storing a terminal status.
  ghost predicate QuietEnd<S, X, W>(side: Side<S, X, W>, run: Run<S, X, W>, e: Exchange, lands: bool, mayIdle: bool) {
    || (run.trace == [] && e.reply.NotFound?)
    || (run.phase.Writing? && lands && mayIdle && Terminal(run.phase.obj.status))
  }

  lemma LandWakes<S, X, W>(side: Side<S, X, W>, key: Key, o: Resource<S, X>, counter: nat, mayIdle: bool)
    requires Wakes(side, mayIdle) && ChansOK(side, counter) && o.meta.key == key && Accepts(side, o)
    ensures var b := Land(side, o, counter);
            Wakes(b, mayIdle) && Cached(ChanOf(b, key)) == Cached(ChanOf(side, key))
  {
    hide Wakes;
    ChanOfOK(side, key, counter);
    var cur := Current(ChanOf(side, key)).value;
    AppendWakes(side, key, Some(cur.(meta := cur.meta.(resourceVersion := counter), status := o.status)), counter, mayIdle);
  }

  lemma AdvanceWakes<S, X, W>(side: Side<S, X, W>, side1: Side<S, X, W>, key: Key, next: Phase<S, X, W>, e: Exchange,
                              lands: bool, counter: nat, mayIdle: bool)
    requires Wakes(side, mayIdle) && ChansOK(side, counter) && key in side.active
    requires var run := side.active[key];
             && (run.trace == [] && e.reply.NotFound? ==> Cached(ChanOf(side, key)).None?)
             && (next == Returned(NoRequeue, None) ==> QuietEnd(side, run, e, lands, mayIdle))
             && (lands ==> run.phase.Writing? && run.phase.obj.meta.key == key && Accepts(side, run.phase.obj)
                           && side1 == Land(side, run.phase.obj, counter))
             && (!lands ==> side1 == side)
    ensures Wakes(Advance(side1, key, next, e, lands), mayIdle)
  {
    var run := side.active[key];
    ChanOfOK(side, key, counter);
    if lands { LandWakes(side, key, run.phase.obj, counter, mayIdle); }
    var b := Advance(side1, key, next, e, lands);
    assert forall k :: ChanOf(b, k) == ChanOf(side1, k);
    assert Cached(ChanOf(side1, key)) == Cached(ChanOf(side, key));
    if run.trace != [] {
      assert (run.trace + [e])[0] == run.trace[0];
    }
    assert RunWakes(side1, key, run, mayIdle);
    assert RunWakes(b, key, b.active[key], mayIdle);
  }
}
