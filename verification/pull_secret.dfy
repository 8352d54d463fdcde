// EnsureImagePullSecret (internal/helm/pullsecret.go) as the sequence of
// requests it makes, for interleaving with other callers.
module PullSecret {
  import opened Bytes
  import opened Api
  import opened Protocol

  const PAYLOAD_KEY := ".dockerconfigjson"

  datatype Job = Job(ns: string, secretName: string, desired: Bytes)

  datatype Pull =
    | Connecting
    | LookingUpNamespace
    | CreatingNamespace
    | LookingUpSecret
    | CreatingSecret
    | UpdatingSecret(secret: Secret)
    | Ended(error: Option<Fault>)

  // The Secret of a fresh creation.
  function NewSecret(desired: Bytes): Secret {
    Secret(0, DockerConfigJson, Some(map[PAYLOAD_KEY := desired]))
  }

  // The fetched Secret with type and payload overwritten.
  function WithPayload(existing: Secret, desired: Bytes): Secret {
    existing.(kind := DockerConfigJson,
              data := Some((if existing.data.Some? then existing.data.value else map[])[PAYLOAD_KEY := desired]))
  }

  // The skip test.
  predicate Holds(s: Secret, desired: Bytes) {
    s.kind.DockerConfigJson? && DataAt(s, PAYLOAD_KEY) == desired
  }

  function Ask(job: Job, pull: Pull): TargetRequest
    requires !pull.Ended?
  {
    match pull
    case Connecting => Connect
    case LookingUpNamespace => GetNamespace(job.ns)
    case CreatingNamespace => CreateNamespace(job.ns)
    case LookingUpSecret => GetTargetSecret(job.ns, job.secretName)
    case CreatingSecret => CreateTargetSecret(job.ns, job.secretName, NewSecret(job.desired))
    case UpdatingSecret(s) => UpdateTargetSecret(job.ns, job.secretName, s)
  }

  function Fail(doing: string, reply: Reply): Pull { Ended(Some(Fault(doing, Cause(reply)))) }

  function Continue(job: Job, pull: Pull, reply: Reply): Pull
    requires !pull.Ended?
  {
    match pull
    case Connecting =>
      if reply.OK? then LookingUpNamespace else Fail("connecting", reply)
    case LookingUpNamespace =>
      if reply.OK? then LookingUpSecret
      else if reply.NotFound? then CreatingNamespace
      else Fail("looking up namespace", reply)
    case CreatingNamespace =>
      if reply.OK? || reply.AlreadyExists? then LookingUpSecret else Fail("creating namespace", reply)
    case LookingUpSecret =>
      if reply.NotFound? then CreatingSecret
      else if !reply.FoundSecret? then Fail("looking up image-pull Secret", reply)
      else if Holds(reply.secret, job.desired) then Ended(None)
      else UpdatingSecret(WithPayload(reply.secret, job.desired))
    case CreatingSecret =>
      if reply.OK? then Ended(None) else Fail("creating image-pull Secret", reply)
    case UpdatingSecret(_) =>
      if reply.OK? then Ended(None) else Fail("updating image-pull Secret", reply)
  }

  // The state after a segment of exchanges with one target, if the segment
  // is one this code can produce.
  function After(job: Job, kubeconfig: Bytes, seg: Trace): Option<Pull> {
    if seg == [] then Some(Connecting)
    else
      var last := seg[|seg| - 1];
      match After(job, kubeconfig, seg[..|seg| - 1])
      case None => None
      case Some(pull) =>
        if !pull.Ended? && last.request == OnTarget(kubeconfig, Ask(job, pull))
        then Some(Continue(job, pull, last.reply)) else None
  }

  lemma AfterAppend(job: Job, kubeconfig: Bytes, seg: Trace, e: Exchange)
    ensures After(job, kubeconfig, seg + [e]) ==
      match After(job, kubeconfig, seg)
      case None => None
      case Some(pull) =>
        if !pull.Ended? && e.request == OnTarget(kubeconfig, Ask(job, pull))
        then Some(Continue(job, pull, e.reply)) else None
  {
    assert (seg + [e])[..|seg|] == seg;
  }
}
