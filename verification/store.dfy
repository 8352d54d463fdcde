// The API server and the work queue of one controller: for every key the
// log of stored versions, how far the informer cache has followed it, and
// which keys are queued, waiting for a timer, or being reconciled.
module Store {
  import opened Bytes
  import opened Api
  import opened Protocol

  // log[0] is None; None also stands for "deleted".
  type Log<S, X> = seq<Option<Resource<S, X>>>

  datatype Chan<S, X> = Chan(log: Log<S, X>, seen: nat)

  datatype Run<S, X, W> = Run(phase: Phase<S, X, W>, trace: Trace)

  // A request that was issued, with everything its pass had done before, and
  // whether it was a status update that took effect.
  datatype Issued<S, X, W> = Issued(key: Key, trace: Trace, phase: Phase<S, X, W>, landed: bool)

  datatype Side<S, X, W> = Side(
    chans: map<Key, Chan<S, X>>,
    queue: set<Key>,
    timers: set<Key>,
    active: map<Key, Run<S, X, W>>,
    issued: seq<Issued<S, X, W>>)

  function EmptySide<S, X, W>(): Side<S, X, W> { Side(map[], {}, {}, map[], []) }

  function ChanOf<S, X, W>(side: Side<S, X, W>, key: Key): Chan<S, X> {
    if key in side.chans then side.chans[key] else Chan([None], 0)
  }

  predicate Sized<S, X>(c: Chan<S, X>) { c.seen < |c.log| }

  function Current<S, X>(c: Chan<S, X>): Option<Resource<S, X>> {
    if |c.log| == 0 then None else c.log[|c.log| - 1]
  }

  // What a Get through the informer cache returns.
  function Cached<S, X>(c: Chan<S, X>): Option<Resource<S, X>> {
    if c.seen < |c.log| then c.log[c.seen] else None
  }

  // ------------------------------------------------------------ transitions

  function Append<S, X, W>(side: Side<S, X, W>, key: Key, v: Option<Resource<S, X>>): Side<S, X, W> {
    var c := ChanOf(side, key);
    side.(chans := side.chans[key := Chan(c.log + [v], c.seen)])
  }

  // What users and other actors may do to the stored objects.
  datatype Edit<S> =
    | Create(spec: S)
    | ChangeSpec(spec: S)
    | ChangeMetadata
    | ChangeForeignConditions(conditions: seq<Condition>)
    | Delete

  predicate EditEnabled<S, X, W>(side: Side<S, X, W>, key: Key, edit: Edit<S>) {
    match edit
    case Create(_) => Current(ChanOf(side, key)).None?
    case ChangeForeignConditions(cs) =>
      // another status writer keeps the Available condition as it is
      && Current(ChanOf(side, key)).Some?
      && AvailableIn(cs) == AvailableIn(Current(ChanOf(side, key)).value.status.conditions)
    case _ => Current(ChanOf(side, key)).Some?
  }

  // The version an edit stores.  A spec change bumps the generation, every
  // change gets a fresh resourceVersion, and a created object starts without
  // status because status is a subresource.
  function Edited<S, X, W>(side: Side<S, X, W>, key: Key, edit: Edit<S>, counter: nat, blank: X): Option<Resource<S, X>>
    requires EditEnabled(side, key, edit)
  {
    match edit
    case Create(spec) => Some(Resource(Meta(key, counter, 1, counter), spec, Status(false, 0, [], blank)))
    case ChangeSpec(spec) =>
      var o := Current(ChanOf(side, key)).value;
      Some(Resource(o.meta.(generation := o.meta.generation + 1, resourceVersion := counter), spec, o.status))
    case ChangeMetadata =>
      var o := Current(ChanOf(side, key)).value;
      Some(o.(meta := o.meta.(resourceVersion := counter)))
    case ChangeForeignConditions(cs) =>
      var o := Current(ChanOf(side, key)).value;
      Some(o.(meta := o.meta.(resourceVersion := counter), status := o.status.(conditions := cs)))
    case Delete => None
  }

  // A status update is accepted only at the current resourceVersion ...
  predicate Accepts<S, X, W>(side: Side<S, X, W>, o: Resource<S, X>) {
    var cur := Current(ChanOf(side, o.meta.key));
    cur.Some? && cur.value.meta.resourceVersion == o.meta.resourceVersion
  }

  // ... and then replaces the status alone; an identical status is no change.
  function Land<S, X(==), W>(side: Side<S, X, W>, o: Resource<S, X>, counter: nat): Side<S, X, W>
    requires Accepts(side, o)
  {
    var cur := Current(ChanOf(side, o.meta.key)).value;
    if cur.status == o.status then side
    else Append(side, o.meta.key, Some(cur.(meta := cur.meta.(resourceVersion := counter), status := o.status)))
  }

  // The informer catches up and enqueues the key.
  function Deliver<S, X, W>(side: Side<S, X, W>, key: Key, upTo: nat): Side<S, X, W> {
    side.(chans := side.chans[key := ChanOf(side, key).(seen := upTo)], queue := side.queue + {key})
  }

  function Fire<S, X, W>(side: Side<S, X, W>, key: Key): Side<S, X, W> {
    side.(timers := side.timers - {key}, queue := side.queue + {key})
  }

  function BeginPass<S, X, W>(side: Side<S, X, W>, key: Key): Side<S, X, W> {
    side.(queue := side.queue - {key}, active := side.active[key := Run(Fetching, [])])
  }

  function Advance<S, X, W>(side: Side<S, X, W>, key: Key, phase: Phase<S, X, W>, e: Exchange, lands: bool): Side<S, X, W>
    requires key in side.active
  {
    var run := side.active[key];
    side.(active := side.active[key := Run(phase, run.trace + [e])],
          issued := side.issued + [Issued(key, run.trace, run.phase, lands)])
  }

  // A finished pass leaves a timer behind if it returned an error (rate
  // limited retry) or asked for a requeue.
  function EndPass<S, X, W>(side: Side<S, X, W>, key: Key): Side<S, X, W>
    requires key in side.active && side.active[key].phase.Returned?
  {
    var phase := side.active[key].phase;
    side.(active := side.active - {key},
          timers := if phase.error.Some? || phase.requeue != NoRequeue then side.timers + {key} else side.timers)
  }

  // The operator process restarts: passes and timers are lost, the caches
  // are listed afresh and every existing object is enqueued.
  function Restarted<S, X, W>(side: Side<S, X, W>): Side<S, X, W> {
    side.(chans := (map k | k in side.chans :: RelistedChan(side.chans[k])),
          queue := (set k | k in side.chans && Current(side.chans[k]).Some?),
          timers := {}, active := map[])
  }

  function RelistedChan<S, X>(c: Chan<S, X>): Chan<S, X> {
    c.(seen := if |c.log| == 0 then 0 else |c.log| - 1)
  }

  // ----------------------------------------------------- what the logs keep

  ghost predicate InLog<S, X>(c: Chan<S, X>, o: Resource<S, X>) { Some(o) in c.log }

  ghost predicate VersionOK<S, X>(o: Resource<S, X>, key: Key, counter: nat) {
    && o.meta.key == key && o.meta.resourceVersion < counter && o.meta.uid < counter
    && Coherent(o)
  }

  // Two stored versions, the first older: resource versions grow, a uid is
  // never reused, and one generation has one spec.
  ghost predicate Successive<S, X>(a: Resource<S, X>, b: Resource<S, X>) {
    && a.meta.resourceVersion < b.meta.resourceVersion
    && a.meta.uid <= b.meta.uid
    && (a.meta.uid == b.meta.uid ==>
          && a.meta.generation <= b.meta.generation
          && (a.meta.generation == b.meta.generation ==> a.spec == b.spec))
  }

  ghost predicate ChanOK<S, X>(c: Chan<S, X>, key: Key, counter: nat) {
    && Sized(c) && c.log[0].None?
    && (forall i :: 0 <= i < |c.log| && c.log[i].Some? ==> VersionOK(c.log[i].value, key, counter))
    && (forall i, j :: 0 <= i < j < |c.log| && c.log[i].Some? && c.log[j].Some? ==>
          Successive(c.log[i].value, c.log[j].value))
  }

  ghost predicate ChansOK<S, X, W>(side: Side<S, X, W>, counter: nat) {
    forall k :: k in side.chans ==> ChanOK(side.chans[k], k, counter)
  }

  // A version that may follow the current one.
  ghost predicate Next<S, X>(c: Chan<S, X>, key: Key, v: Option<Resource<S, X>>, counter: nat) {
    v.Some? ==>
      && v.value.meta.key == key && v.value.meta.resourceVersion == counter && v.value.meta.uid <= counter
      && Coherent(v.value)
      && (v.value.meta.uid == counter || (Current(c).Some? && Follows(Current(c).value, v.value)))
  }

  ghost predicate Follows<S, X>(a: Resource<S, X>, b: Resource<S, X>) {
    && a.meta.uid == b.meta.uid && a.meta.generation <= b.meta.generation
    && (a.meta.generation == b.meta.generation ==> a.spec == b.spec)
  }

  lemma AppendKeepsChan<S, X>(c: Chan<S, X>, key: Key, v: Option<Resource<S, X>>, counter: nat)
    requires ChanOK(c, key, counter) && Next(c, key, v, counter)
    ensures ChanOK(Chan(c.log + [v], c.seen), key, counter + 1)
  {
    var log := c.log + [v];
    var last := |c.log| - 1;
    forall i, j | 0 <= i < j < |log| && log[i].Some? && log[j].Some?
      ensures Successive(log[i].value, log[j].value)
    {
      if j == |c.log| {
        assert VersionOK(c.log[i].value, key, counter);
        if v.value.meta.uid != counter && i < last {
          assert Successive(c.log[i].value, c.log[last].value);
        }
      }
    }
  }

  lemma AppendKeepsChans<S, X, W>(side: Side<S, X, W>, key: Key, v: Option<Resource<S, X>>, counter: nat)
    requires ChansOK(side, counter) && Next(ChanOf(side, key), key, v, counter)
    ensures ChansOK(Append(side, key, v), counter + 1)
  {
    AppendKeepsChan(ChanOf(side, key), key, v, counter);
  }

  lemma ChanOfOK<S, X, W>(side: Side<S, X, W>, key: Key, counter: nat)
    requires ChansOK(side, counter)
    ensures ChanOK(ChanOf(side, key), key, counter)
  {
  }

  lemma EditIsNext<S, X, W>(side: Side<S, X, W>, key: Key, edit: Edit<S>, counter: nat, blank: X)
    requires ChansOK(side, counter) && EditEnabled(side, key, edit)
    ensures Next(ChanOf(side, key), key, Edited(side, key, edit, counter, blank), counter)
  {
    var c := ChanOf(side, key);
    ChanOfOK(side, key, counter);
    if Current(c).Some? {
      assert VersionOK(c.log[|c.log| - 1].value, key, counter);
    }
  }

  // What lands is the status of some version of the object rewritten; the
  // object it was computed from is, by its resourceVersion, the current one.
  lemma LandIsNext<S, X, W>(side: Side<S, X, W>, base: Resource<S, X>, o: Resource<S, X>, counter: nat)
    requires ChansOK(side, counter) && Accepts(side, o)
    requires InLog(ChanOf(side, o.meta.key), base)
    requires o.meta == base.meta && o.spec == base.spec && (Coherent(base) ==> Coherent(o))
    ensures Current(ChanOf(side, o.meta.key)) == Some(base)
    ensures var cur := base.(meta := base.meta.(resourceVersion := counter), status := o.status);
            && Next(ChanOf(side, o.meta.key), o.meta.key, Some(cur), counter)
            && Land(side, o, counter) == if base.status == o.status then side else Append(side, o.meta.key, Some(cur))
  {
    var c := ChanOf(side, o.meta.key);
    ChanOfOK(side, o.meta.key, counter);
    var i :| 0 <= i < |c.log| && c.log[i] == Some(base);
    var last := |c.log| - 1;
    assert i == last;
    assert VersionOK(base, o.meta.key, counter);
  }
}
