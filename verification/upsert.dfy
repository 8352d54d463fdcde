// Any number of EnsureImagePullSecret callers working on one Secret of one
// target cluster, interleaved at every API call, with other actors editing
// the same Secret.  Nobody deletes anything.
module Upsert {
  import opened Bytes
  import opened Api
  import opened Protocol
  import opened PullSecret
  import Base64
  import DockerConfig
  import JsonString

  // `creates` counts the Create calls that took effect.
  datatype Shared = Shared(namespaceExists: bool, secret: Option<Secret>, counter: nat, creates: nat, callers: map<nat, Pull>)

  datatype Turn =
    | Join(caller: nat)
    | Call(caller: nat, reply: Reply, lands: bool)
    | Foreign(edited: Secret)

  ghost predicate Start(w: Shared) {
    w.creates == 0 && w.callers == map[] && (w.secret.Some? ==> w.secret.value.resourceVersion < w.counter)
  }

  // What the API server may answer; `faulty` admits spurious errors, and
  // writes that land although an error is reported.  A write that takes
  // effect and is acknowledged is OK.  A stale update is rejected, and so is
  // one that changes the type of the Secret, which is immutable.
  predicate Serves(w: Shared, pull: Pull, reply: Reply, lands: bool, faulty: bool)
    requires !pull.Ended?
  {
    match pull
    case Connecting => !lands && (reply.OK? || (faulty && reply.Failed?))
    case LookingUpNamespace =>
      !lands && ((if w.namespaceExists then reply.OK? else reply.NotFound?) || (faulty && reply.Failed?))
    case CreatingNamespace =>
      if w.namespaceExists then !lands && (reply.AlreadyExists? || (faulty && reply.Failed?))
      else (lands && reply.OK?) || (faulty && reply.Failed?)
    case LookingUpSecret =>
      !lands && ((if w.secret.None? then reply.NotFound? else reply == FoundSecret(w.secret.value)) || (faulty && reply.Failed?))
    case CreatingSecret =>
      if w.secret.Some? then !lands && (reply.AlreadyExists? || (faulty && reply.Failed?))
      else (lands && reply.OK?) || (faulty && reply.Failed?)
    case UpdatingSecret(s) =>
      if w.secret.Some? && w.secret.value.resourceVersion == s.resourceVersion && w.secret.value.kind == s.kind
      then (lands && reply.OK?) || (faulty && reply.Failed?)
      else !lands && reply.Failed?
  }

  predicate Possible(w: Shared, turn: Turn, job: Job, faulty: bool) {
    match turn
    case Join(i) => i !in w.callers
    case Call(i, reply, lands) => i in w.callers && !w.callers[i].Ended? && Serves(w, w.callers[i], reply, lands, faulty)
    case Foreign(s) =>
      // another actor edits the Secret but leaves a valid payload alone
      && faulty && w.secret.Some? && w.secret.value.kind == s.kind
      && (Holds(w.secret.value, job.desired) ==> Holds(s, job.desired))
  }

  function Played(w: Shared, turn: Turn, job: Job, faulty: bool): Shared
    requires Possible(w, turn, job, faulty)
  {
    match turn
    case Join(i) => w.(callers := w.callers[i := Connecting])
    case Foreign(s) => w.(secret := Some(s.(resourceVersion := w.counter)), counter := w.counter + 1)
    case Call(i, reply, lands) =>
      var pull := w.callers[i];
      var w1 := w.(callers := w.callers[i := Continue(job, pull, reply)]);
      if !lands then w1
      else match pull
        case CreatingNamespace => w1.(namespaceExists := true)
        case CreatingSecret =>
          w1.(secret := Some(NewSecret(job.desired).(resourceVersion := w.counter)), counter := w.counter + 1, creates := w.creates + 1)
        case UpdatingSecret(s) => w1.(secret := Some(s.(resourceVersion := w.counter)), counter := w.counter + 1)
        case _ => w1
  }

  function Play(w: Shared, turns: seq<Turn>, job: Job, faulty: bool): Option<Shared> {
    if turns == [] then Some(w)
    else
      match Play(w, turns[..|turns| - 1], job, faulty)
      case None => None
      case Some(w1) =>
        var turn := turns[|turns| - 1];
        if Possible(w1, turn, job, faulty) then Some(Played(w1, turn, job, faulty)) else None
  }

  // ------------------------------------------------------------- invariant

  ghost predicate Present(w: Shared, job: Job) { w.secret.Some? && Holds(w.secret.value, job.desired) }

  // The Secret is absent or of the type that a pull Secret has.
  predicate RightType(w: Shared) { w.secret.Some? ==> w.secret.value.kind.DockerConfigJson? }

  // What a caller's state says about the Secret.
  ghost predicate CallerOK(w: Shared, pull: Pull, job: Job, faulty: bool) {
    match pull
    case UpdatingSecret(s) =>
      && s.resourceVersion < w.counter && Holds(s, job.desired) && w.secret.Some?
      && (w.secret.value.resourceVersion == s.resourceVersion ==> s == WithPayload(w.secret.value, job.desired))
      && (!faulty && RightType(w) ==> w.secret.value.resourceVersion == s.resourceVersion || Present(w, job))
    case CreatingSecret => !faulty && RightType(w) ==> w.secret.None? || Present(w, job)
    case Ended(error) => error.None? || (!faulty && RightType(w)) ==> Present(w, job)
    case _ => true
  }

  ghost predicate SharedOK(w: Shared, job: Job, faulty: bool) {
    && (w.secret.Some? ==> w.secret.value.resourceVersion < w.counter)
    && w.creates <= (if w.secret.Some? then 1 else 0)
    && (forall i :: i in w.callers ==> CallerOK(w, w.callers[i], job, faulty))
  }

  lemma CallKeeps(w: Shared, i: nat, reply: Reply, lands: bool, job: Job, faulty: bool)
    requires SharedOK(w, job, faulty) && Possible(w, Call(i, reply, lands), job, faulty)
    ensures SharedOK(Played(w, Call(i, reply, lands), job, faulty), job, faulty)
    ensures Present(w, job) ==> Present(Played(w, Call(i, reply, lands), job, faulty), job)
    ensures RightType(Played(w, Call(i, reply, lands), job, faulty)) == RightType(w)
  {
    var w' := Played(w, Call(i, reply, lands), job, faulty);
    assert CallerOK(w, w.callers[i], job, faulty);
    forall k | k in w'.callers ensures CallerOK(w', w'.callers[k], job, faulty) {
      if k != i {
        assert CallerOK(w, w.callers[k], job, faulty);
      }
    }
  }

  lemma TurnKeeps(w: Shared, turn: Turn, job: Job, faulty: bool)
    requires SharedOK(w, job, faulty) && Possible(w, turn, job, faulty)
    ensures SharedOK(Played(w, turn, job, faulty), job, faulty)
    ensures Present(w, job) ==> Present(Played(w, turn, job, faulty), job)
    ensures RightType(Played(w, turn, job, faulty)) == RightType(w)
  {
    match turn
    case Call(i, reply, lands) => CallKeeps(w, i, reply, lands, job, faulty);
    case Join(_) =>
      forall k | k in w.callers ensures CallerOK(Played(w, turn, job, faulty), w.callers[k], job, faulty) {
        assert CallerOK(w, w.callers[k], job, faulty);
      }
    case Foreign(s) =>
      forall k | k in w.callers ensures CallerOK(Played(w, turn, job, faulty), w.callers[k], job, faulty) {
        assert CallerOK(w, w.callers[k], job, faulty);
      }
  }

  lemma {:induction false} PlayKeeps(w: Shared, turns: seq<Turn>, job: Job, faulty: bool)
    requires SharedOK(w, job, faulty) && Play(w, turns, job, faulty).Some?
    ensures SharedOK(Play(w, turns, job, faulty).value, job, faulty)
    ensures Present(w, job) ==> Present(Play(w, turns, job, faulty).value, job)
    ensures RightType(Play(w, turns, job, faulty).value) == RightType(w)
  {
    if turns != [] {
      PlayKeeps(w, turns[..|turns| - 1], job, faulty);
      TurnKeeps(Play(w, turns[..|turns| - 1], job, faulty).value, turns[|turns| - 1], job, faulty);
    }
  }

  lemma {:induction false} PlaySplits(w: Shared, turns: seq<Turn>, more: seq<Turn>, job: Job, faulty: bool)
    requires Play(w, turns + more, job, faulty).Some?
    ensures Play(w, turns, job, faulty).Some?
    ensures Play(w, turns + more, job, faulty) == Play(Play(w, turns, job, faulty).value, more, job, faulty)
    decreases |more|
  {
    if more == [] {
      assert turns + more == turns;
    } else {
      var before := more[..|more| - 1];
      assert (turns + more)[..|turns + more| - 1] == turns + before;
      PlaySplits(w, turns, before, job, faulty);
    }
  }

  // ---------------------------------------------------------- main results

  // However the callers interleave, whatever fails and whoever else edits:
  // at most one Create takes effect, and once any caller has returned
  // without error the Secret holds the payload, then and ever after.
  lemma NilMeansPresentForever(w: Shared, turns: seq<Turn>, more: seq<Turn>, job: Job, i: nat)
    requires Start(w) && Play(w, turns + more, job, true).Some?
    ensures Play(w, turns + more, job, true).value.creates <= 1
    ensures Play(w, turns, job, true).Some?
    ensures i in Play(w, turns, job, true).value.callers && Play(w, turns, job, true).value.callers[i] == Ended(None) ==>
              Present(Play(w, turns, job, true).value, job) && Present(Play(w, turns + more, job, true).value, job)
  {
    PlaySplits(w, turns, more, job, true);
    PlayKeeps(w, turns, job, true);
    var w1 := Play(w, turns, job, true).value;
    PlayKeeps(w1, more, job, true);
    assert i in w1.callers ==> CallerOK(w1, w1.callers[i], job, true);
  }

  // Starting from no Secret or one of the right type, with a server that never
  // fails by itself and no other actor, losing a race is the only possible
  // error, and it is harmless: whenever any caller has ended, with or without
  // error, the Secret holds the payload; and the namespace race is not an
  // error at all.
  lemma LosersFindItPresent(w: Shared, turns: seq<Turn>, job: Job, i: nat)
    requires Start(w) && RightType(w) && Play(w, turns, job, false).Some?
    requires i in Play(w, turns, job, false).value.callers && Play(w, turns, job, false).value.callers[i].Ended?
    ensures Present(Play(w, turns, job, false).value, job)
    ensures var error := Play(w, turns, job, false).value.callers[i].error;
            error.Some? ==> error.value.doing in {"creating image-pull Secret", "updating image-pull Secret"}
  {
    PlayKeeps(w, turns, job, false);
    var w1 := Play(w, turns, job, false).value;
    assert CallerOK(w1, w1.callers[i], job, false);
    OnlySecretErrors(w, turns, job, i);
  }

  lemma {:induction false} OnlySecretErrors(w: Shared, turns: seq<Turn>, job: Job, i: nat)
    requires Start(w) && Play(w, turns, job, false).Some?
    requires i in Play(w, turns, job, false).value.callers
    ensures var pull := Play(w, turns, job, false).value.callers[i];
            pull.Ended? && pull.error.Some? ==> pull.error.value.doing in {"creating image-pull Secret", "updating image-pull Secret"}
  {
    if turns != [] {
      var before := Play(w, turns[..|turns| - 1], job, false).value;
      if i in before.callers {
        OnlySecretErrors(w, turns[..|turns| - 1], job, i);
      }
    }
  }

  // A Secret of any other type is never repaired: whatever the callers and
  // other actors do, it keeps that type, no caller returns without error, and
  // without faults every caller that has ended was refused the update.
  lemma OtherTypeIsNeverRepaired(w: Shared, turns: seq<Turn>, job: Job, faulty: bool, i: nat)
    requires Start(w) && !RightType(w) && Play(w, turns, job, faulty).Some?
    ensures var w1 := Play(w, turns, job, faulty).value;
            && !RightType(w1) && !Present(w1, job)
            && (i in w1.callers && w1.callers[i].Ended? ==>
                  && w1.callers[i].error.Some?
                  && (!faulty ==> w1.callers[i].error.value.doing == "updating image-pull Secret" && w1.secret == w.secret))
  {
    PlayKeeps(w, turns, job, faulty);
    var w1 := Play(w, turns, job, faulty).value;
    assert i in w1.callers ==> CallerOK(w1, w1.callers[i], job, faulty);
    if !faulty {
      UpdateIsRefused(w, turns, job, i);
    }
  }

  lemma {:induction false} UpdateIsRefused(w: Shared, turns: seq<Turn>, job: Job, i: nat)
    requires Start(w) && !RightType(w) && Play(w, turns, job, false).Some?
    ensures var w1 := Play(w, turns, job, false).value;
            && w1.secret == w.secret && (i in w1.callers ==> !w1.callers[i].CreatingSecret?)
            && (i in w1.callers && w1.callers[i].Ended? ==>
                  w1.callers[i].error.Some? && w1.callers[i].error.value.doing == "updating image-pull Secret")
  {
    if turns != [] {
      var last := |turns| - 1;
      UpdateIsRefused(w, turns[..last], job, i);
      PlayKeeps(w, turns[..last], job, false);
      var before := Play(w, turns[..last], job, false).value;
      var turn := turns[last];
      if turn.Call? {
        UpdateIsRefused(w, turns[..last], job, turn.caller);
        assert CallerOK(before, before.callers[turn.caller], job, false);
      }
    }
  }

  predicate HasKey(s: Secret, k: string) { s.data.Some? && k in s.data.value }

  // An update never loses another actor's change: whatever a caller's step
  // does to an existing Secret, every other data key keeps its value.
  lemma UpdatesLoseNothing(w: Shared, turns: seq<Turn>, job: Job, turn: Turn, k: string)
    requires Start(w) && Play(w, turns, job, true).Some? && turn.Call?
    requires Possible(Play(w, turns, job, true).value, turn, job, true)
    requires k != PAYLOAD_KEY && Play(w, turns, job, true).value.secret.Some?
    ensures var before := Play(w, turns, job, true).value;
            var after := Played(before, turn, job, true);
            && after.secret.Some? && DataAt(after.secret.value, k) == DataAt(before.secret.value, k)
            && (HasKey(after.secret.value, k) <==> HasKey(before.secret.value, k))
  {
    PlayKeeps(w, turns, job, true);
    var before := Play(w, turns, job, true).value;
    assert CallerOK(before, before.callers[turn.caller], job, true);
  }

  // ------------------------------------------------------- the skip test

  function JobFor(ns: string, name: string, host: Bytes, c: Credentials): Job {
    Job(ns, name, DockerConfig.Dockerconfigjson(host, c.username, c.password))
  }

  // A Secret written by an earlier call, freshly or over something else, is
  // skipped exactly when the credentials are the same.
  lemma SkipIsExact(ns: string, name: string, host: Bytes, earlier: Credentials, now: Credentials, s: Secret)
    ensures Holds(NewSecret(JobFor(ns, name, host, earlier).desired), JobFor(ns, name, host, now).desired) <==> earlier == now
    ensures Holds(WithPayload(s, JobFor(ns, name, host, earlier).desired), JobFor(ns, name, host, now).desired) <==> earlier == now
  {
    hide DockerConfig.Dockerconfigjson;
    DockerConfig.PayloadInjective(host, earlier.username, earlier.password, now.username, now.password);
  }

  // What a Secret in place tells a container runtime: the sanitized fields,
  // and exactly the credentials as the basic-auth pair.
  lemma PresentDecodes(ns: string, name: string, host: Bytes, c: Credentials, s: Secret)
    requires Holds(s, JobFor(ns, name, host, c).desired)
    ensures s.kind.DockerConfigJson?
    ensures var entry := DockerConfig.EntryFor(DataAt(s, ".dockerconfigjson"), JsonString.Sanitize(host));
            && entry.Some?
            && entry.value.username == JsonString.Sanitize(c.username)
            && entry.value.password == JsonString.Sanitize(c.password)
            && Base64.Decode(entry.value.auth) == Some(DockerConfig.UserPass(c.username, c.password))
  {
    DockerConfig.ParseDockerconfigjson(host, c.username, c.password);
  }

  predicate IsSecretWrite(q: Request) { q.OnTarget? && (q.op.CreateTargetSecret? || q.op.UpdateTargetSecret?) }

  // A call that finds the payload in place writes nothing and succeeds or
  // fails for another reason.
  lemma {:induction false} SecondCallWritesNothing(job: Job, kubeconfig: Bytes, seg: Trace)
    requires After(job, kubeconfig, seg).Some?
    requires forall i :: 0 <= i < |seg| && seg[i].request == OnTarget(kubeconfig, GetTargetSecret(job.ns, job.secretName)) ==>
               !seg[i].reply.NotFound? && (seg[i].reply.FoundSecret? ==> Holds(seg[i].reply.secret, job.desired))
    ensures forall i :: 0 <= i < |seg| ==> !IsSecretWrite(seg[i].request)
    ensures !After(job, kubeconfig, seg).value.CreatingSecret? && !After(job, kubeconfig, seg).value.UpdatingSecret?
  {
    if seg != [] {
      SecondCallWritesNothing(job, kubeconfig, seg[..|seg| - 1]);
    }
  }
}
