// Both controllers, users, other actors and the outside world, interleaved
// one request at a time.  A behaviour is a list of labelled steps; every
// label says what the environment chose.
module System {
  import opened Bytes
  import opened Api
  import opened Protocol
  import opened Passes
  import opened Store

  type TcSide = Side<TargetClusterSpec, Probe, TcWork>
  type CpSide = Side<ClusterPrerequisitesSpec, Components, CpWork>

  // `counter` numbers resource versions and uids; `clock` is wall time.
  datatype World = World(counter: nat, clock: nat, tc: TcSide, cp: CpSide)

  function Init(): World { World(0, 0, EmptySide(), EmptySide()) }

  // Steps of one controller and its objects.
  datatype Move<S> =
    | Change(edit: Edit<S>)
    | DeliverEvents(upTo: nat)
    | TimerFires
    | BeginReconcile
    | Answer(reply: Reply, lands: bool)
    | FinishReconcile

  datatype Step =
    | OfTc(key: Key, tcMove: Move<TargetClusterSpec>)
    | OfCp(key: Key, cpMove: Move<ClusterPrerequisitesSpec>)
    | Tick(later: nat)
    | Restart

  // The reply to a status update: OK only if it landed; it may land and
  // still be reported as failed; a stale resourceVersion never lands.
  predicate WriteReply(accepted: bool, reply: Reply, lands: bool) {
    && (reply.OK? || reply.NotFound? || reply.Failed?)
    && (lands ==> accepted) && (reply.OK? ==> lands)
  }

  // A cached read of an object: what the cache holds, or an error.
  predicate ReadReply<S(==), X(==)>(cached: Option<Resource<S, X>>, found: bool, value: Option<Resource<S, X>>, reply: Reply) {
    reply.Failed? || (cached.None? && reply.NotFound?) || (cached.Some? && found && value == cached)
  }

  predicate ReadsTc(w: World, key: Key, reply: Reply) {
    ReadReply(Cached(ChanOf(w.tc, key)), reply.FoundTargetCluster?,
              if reply.FoundTargetCluster? then Some(reply.tc) else None, reply)
  }

  predicate ReadsCp(w: World, key: Key, reply: Reply) {
    ReadReply(Cached(ChanOf(w.cp, key)), reply.FoundPrerequisites?,
              if reply.FoundPrerequisites? then Some(reply.cp) else None, reply)
  }

  // Which replies the world may give.  Everything outside the API server's
  // custom resources (Secrets, target clusters, registries) may answer
  // anything at any time.
  predicate TcReplyAllowed(w: World, key: Key, phase: TcPhase, reply: Reply, lands: bool)
    requires !phase.Returned?
  {
    match phase
    case Fetching => !lands && ReadsTc(w, key, reply)
    case Writing(o, _, _) => WriteReply(Accepts(w.tc, o), reply, lands)
    case _ => !lands
  }

  predicate CpReplyAllowed(w: World, key: Key, phase: CpPhase, reply: Reply, lands: bool)
    requires !phase.Returned? && Proper(phase)
  {
    match phase
    case Fetching => !lands && ReadsCp(w, key, reply)
    case Working(ReadingTarget(_)) => !lands && ReadsTc(w, CpRequest(key, phase).key, reply)
    case Writing(o, _, _) => WriteReply(Accepts(w.cp, o), reply, lands)
    case _ => !lands
  }

  predicate MoveEnabled<S, X, W>(side: Side<S, X, W>, key: Key, move: Move<S>) {
    match move
    case Change(edit) => EditEnabled(side, key, edit)
    case DeliverEvents(upTo) => ChanOf(side, key).seen < upTo < |ChanOf(side, key).log|
    case TimerFires => key in side.timers
    case BeginReconcile => key in side.queue && key !in side.active
    case Answer(_, _) => key in side.active && !side.active[key].phase.Returned?
    case FinishReconcile => key in side.active && side.active[key].phase.Returned?
  }

  predicate TcEnabled(w: World, key: Key, move: Move<TargetClusterSpec>) {
    && MoveEnabled(w.tc, key, move)
    && (move.Answer? ==>
          var phase := w.tc.active[key].phase;
          TcReplyAllowed(w, key, phase, move.reply, move.lands) && Fits(TcRequest(key, phase), move.reply))
  }

  predicate CpEnabled(w: World, key: Key, move: Move<ClusterPrerequisitesSpec>) {
    && MoveEnabled(w.cp, key, move)
    && (move.Answer? ==>
          var phase := w.cp.active[key].phase;
          Proper(phase) && CpReplyAllowed(w, key, phase, move.reply, move.lands) && Fits(CpRequest(key, phase), move.reply))
  }

  // Everything but answering is the same for both kinds.
  function Moved<S, X(==), W>(side: Side<S, X, W>, key: Key, move: Move<S>, counter: nat, blank: X): Side<S, X, W>
    requires MoveEnabled(side, key, move)
  {
    match move
    case Change(edit) => Append(side, key, Edited(side, key, edit, counter, blank))
    case DeliverEvents(upTo) => Deliver(side, key, upTo)
    case TimerFires => Fire(side, key)
    case BeginReconcile => BeginPass(side, key)
    case Answer(_, _) => side
    case FinishReconcile => EndPass(side, key)
  }

  function Landed<S, X(==), W>(side: Side<S, X, W>, phase: Phase<S, X, W>, lands: bool, counter: nat): Side<S, X, W>
    requires lands ==> phase.Writing? && Accepts(side, phase.obj)
  {
    if lands then Land(side, phase.obj, counter) else side
  }

  function AnsweredTc(w: World, key: Key, reply: Reply, lands: bool): TcSide
    requires TcEnabled(w, key, Answer(reply, lands))
  {
    var phase := w.tc.active[key].phase;
    Advance(Landed(w.tc, phase, lands, w.counter), key, TcContinue(phase, reply, w.clock),
            Exchange(TcRequest(key, phase), reply, w.clock), lands)
  }

  function AnsweredCp(w: World, key: Key, reply: Reply, lands: bool): CpSide
    requires CpEnabled(w, key, Answer(reply, lands))
  {
    var phase := w.cp.active[key].phase;
    Advance(Landed(w.cp, phase, lands, w.counter), key, CpContinue(phase, reply, w.clock),
            Exchange(CpRequest(key, phase), reply, w.clock), lands)
  }

  predicate Enabled(w: World, step: Step) {
    match step
    case OfTc(key, move) => TcEnabled(w, key, move)
    case OfCp(key, move) => CpEnabled(w, key, move)
    case _ => true
  }

  function Take(w: World, step: Step): World
    requires Enabled(w, step)
  {
    match step
    case OfTc(key, Answer(reply, lands)) => w.(tc := AnsweredTc(w, key, reply, lands), counter := w.counter + 1)
    case OfTc(key, move) => w.(tc := Moved(w.tc, key, move, w.counter, NO_PROBE), counter := w.counter + 1)
    case OfCp(key, Answer(reply, lands)) => w.(cp := AnsweredCp(w, key, reply, lands), counter := w.counter + 1)
    case OfCp(key, move) => w.(cp := Moved(w.cp, key, move, w.counter, NO_COMPONENTS), counter := w.counter + 1)
    case Tick(later) => w.(clock := w.clock + later)
    case Restart => w.(tc := Restarted(w.tc), cp := Restarted(w.cp))
  }

  // The world after a behaviour, if every step of it was possible.
  function After(steps: seq<Step>): Option<World> {
    if steps == [] then Some(Init())
    else
      match After(steps[..|steps| - 1])
      case None => None
      case Some(w) => if Enabled(w, steps[|steps| - 1]) then Some(Take(w, steps[|steps| - 1])) else None
  }
}
