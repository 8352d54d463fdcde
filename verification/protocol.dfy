// Every request the controllers make of something outside their own code,
// and every reply they tell apart.  A controller pass is a sequence of
// exchanges; what the outside world answers is left open.
module Protocol {
  import opened Bytes
  import opened Api

  datatype Chart = Chart(version: string, content: nat)
  datatype HelmValues = HelmValues(imagePullSecrets: seq<string>, crdsEnabled: bool)

  // Requests to a target cluster.  There is no delete request.
  datatype TargetRequest =
    | Connect
    | GetNamespace(ns: string)
    | CreateNamespace(ns: string)
    | GetTargetSecret(ns: string, name: string)
    | CreateTargetSecret(ns: string, name: string, secret: Secret)
    | UpdateTargetSecret(ns: string, name: string, secret: Secret)
    | HelmInit(ns: string)
    | HelmLookup(ns: string, release: string)
    | HelmInstall(ns: string, release: string, chart: Chart, values: HelmValues)
    | HelmUpgrade(ns: string, release: string, chart: Chart, values: HelmValues)

  datatype Request =
    | GetTargetCluster(key: Key)
    | GetClusterPrerequisites(key: Key)
    | GetSecret(key: Key)
    | ParseKubeconfig(kubeconfig: Bytes)
    | BuildClient(kubeconfig: Bytes)
    | ServerVersion(kubeconfig: Bytes)
    | ListNodes(kubeconfig: Bytes)
    | OnTarget(kubeconfig: Bytes, op: TargetRequest)
    | LoadChart(chartRef: string, chartVersion: string, creds: Credentials)
    | UpdateTargetClusterStatus(tc: TargetCluster)
    | UpdatePrerequisitesStatus(cp: ClusterPrerequisites)

  datatype Reply =
    | OK
    | NotFound
    | AlreadyExists
    | Failed(cause: string)
    | FoundTargetCluster(tc: TargetCluster)
    | FoundPrerequisites(cp: ClusterPrerequisites)
    | FoundSecret(secret: Secret)
    | VersionIs(version: string)
    | NodesAre(count: nat)
    | ChartIs(chart: Chart)
    | ReleaseIs(chartVersion: string)

  // A Get by key returns the object of that key.
  predicate Fits(request: Request, reply: Reply) {
    && (request.GetTargetCluster? && reply.FoundTargetCluster? ==> reply.tc.meta.key == request.key)
    && (request.GetClusterPrerequisites? && reply.FoundPrerequisites? ==> reply.cp.meta.key == request.key)
  }

  // The error text of a reply that is not the one hoped for.
  function Cause(reply: Reply): string {
    match reply
    case Failed(cause) => cause
    case NotFound => "not found"
    case AlreadyExists => "already exists"
    case _ => "unexpected reply"
  }

  // A request, its reply, and the time at which the pass went on.
  datatype Exchange = Exchange(request: Request, reply: Reply, now: nat)

  type Trace = seq<Exchange>

  ghost predicate Has(trace: Trace, request: Request, reply: Reply) {
    exists i :: 0 <= i < |trace| && trace[i].request == request && trace[i].reply == reply
  }

  lemma HasAppend(trace: Trace, e: Exchange)
    ensures Has(trace + [e], e.request, e.reply)
    ensures forall q, a :: Has(trace, q, a) ==> Has(trace + [e], q, a)
  {
    var t := trace + [e];
    assert t[|trace|] == e;
    forall q, a | Has(trace, q, a) ensures Has(t, q, a) {
      var i :| 0 <= i < |trace| && trace[i].request == q && trace[i].reply == a;
      assert t[i] == trace[i];
    }
  }

  // What a controller run by controller-runtime hands back.
  datatype Requeue = NoRequeue | AfterError | AfterSuccess

  // A pass fetches its object, works, writes the status and returns.
  datatype Phase<S, X, W> =
    | Fetching
    | Working(work: W)
    | Writing(obj: Resource<S, X>, onSuccess: Requeue, onFailure: Requeue)
    | Returned(requeue: Requeue, error: Option<Fault>)
}
