# Verification of the rancher-operator controllers

This project models the two working controllers of the operator, the
image-pull Secret code they share, the API types' deep copies and the line
handling of the test utilities, and proves properties of the model with Dafny
4.11 (`dafny verify dfyconfig.toml`).

## How the model is built

- **Resources and status** (`api.dfy`). TargetCluster and ClusterPrerequisites
  are one generic resource: metadata with uid, generation and resourceVersion,
  a spec, and a status with `ready`, `observedGeneration`, a condition list and
  a kind-specific rest. Messages are values determined by what they are
  formatted from.
- **Passes as machines** (`protocol.dfy`, `pull_secret.dfy`, `passes.dfy`). A
  reconcile pass alternates a request to the outside world with its reply;
  `TcAfter` and `CpAfter` give the phase of a pass after a trace of exchanges.
- **The code itself** (`reconcilers.dfy`). The controllers, `InstallOrUpgrade`
  and `EnsureImagePullSecret` as imperative methods over mutable copies and a
  client whose answers are an arbitrary function of everything said before.
  Each is proved to produce exactly the traces and results of the machines.
- **One pass** (`pass_laws.dfy`). Everything a phase asserts is witnessed by
  earlier exchanges of the same pass.
- **The account of a pass** (`account.dfy`, `account_installs.dfy`,
  `account_passes.dfy`). An independent description of both passes over whole
  traces, with every name, version and data key spelled out: which requests are
  made in which order, what they carry, what is written for each outcome, and how
  the pass returns. Both machines are proved to follow it, and `carried.dfy`
  draws from it what requests carry in every behaviour.
- **The interleaved system** (`store.dfy`, `store_laws.dfy`, `system.dfy`,
  `system_laws.dfy`, `guarantees.dfy`, `scenarios.dfy`). Any number of objects
  and passes, interleaved at every request, with stale informer caches, spec,
  metadata and foreign-condition edits, deletion and re-creation, conflicting
  and unacknowledged status writes, work queues, timers, error retries and
  operator restarts. Secrets, target clusters and registries may answer
  anything at any time. Behaviours are lists of labelled steps, and results
  hold after every one of them.
- **Concurrent callers of the pull Secret** (`upsert.dfy`) and its payload:
  base64 (section 4 of RFC 4648, `base64.dfy`), JSON strings (section 7 of RFC
  8259, `json_string.dfy`), the `user:pass` pair (section 2 of RFC 7617,
  `docker_config.dfy`), read back by a JSON reader that knows nothing of the
  writer (`json.dfy`).
- **Quiet periods** (`quiet.dfy`, `convergence.dfy`). External answers are held
  fixed while the target keeps what the operator does to it.
- **Text and heap code** (`text.dfy`, `deep_copy.dfy`, `deep_copy_manager.dfy`).
- **Chart URLs** (`chart_url.dfy`). References are taken apart, resolved and put
  together by sections 3, 5.2 and 5.3 of RFC 3986.

## What the proofs found

- **One ClusterPrerequisites pass need not settle.** A first Helm install that
  leaves a release behind, by succeeding or by failing, is followed by an
  upgrade in the next pass. Unless both succeed with one version, the status is
  rewritten: another error text (`Convergence.TimedOutInstall`), or even Ready
  turning into not Ready (`Convergence.RefusedUpgrade`).
  `Convergence.OnePassSettlesIff` says exactly when one pass is enough, and
  `QuietPeriodSettles` shows that two passes always are.
- **Only `ready` is checked on the TargetCluster.** After any spec edit the
  stored object is still Ready, on the strength of a probe for an older
  generation. What the next ClusterPrerequisites pass resolves agrees with that
  probe exactly if the edited spec still names the Secret probed, under a data
  key with the same bytes (`Guarantees.AgreesIff`,
  `Guarantees.SpecEditOutrunsReady`); `Scenarios.ReadyForAnotherSecret` is a
  behaviour in which it does not. With `observedGeneration` equal to the
  generation the two always agree.
- **A Secret of another type is never repaired.** `EnsureImagePullSecret`
  overwrites the type, which the API server holds immutable, so a Secret that
  was there under another type makes every call fail for ever
  (`Upsert.OtherTypeIsNeverRepaired`).
- **Terminal verdicts can strand a TargetCluster.** The three reasons without
  requeue are the only way for an existing object to have no wakeup pending,
  and they do occur (`Scenarios.TerminalTargetMayBeIdle`).
- **`UncommentCode` has two silent limits**: a commented line of 65536 bytes or
  more, and a carriage return at the end of a line
  (`Text.CarriageReturnIsLost`).
- **A chart entry is not always appended to the repository's root.** If the
  repository URL has a query or a fragment, `resolveChartURL` adds its slash
  there, and a relative entry replaces the last path segment instead
  (`ChartUrl.PlainEntryIsAppendedIff`, `ChartUrl.QueryIsDropped`).
- The comment on `IngressBundledModeAuto`
  (api/v1alpha1/clusterprerequisites_types.go:59-60) says the version "ends in"
  the distribution suffix; the code tests containment, and so does the model.

## Model

| member | source | states |
|---|---|---|
| Reconcilers.BytesEqual | internal/helm/pullsecret.go:131-141 | the index loop decides equality of byte strings |
| Reconcilers.EnsureNamespace | internal/helm/pullsecret.go:90-105 | get, create on not-found, tolerate already-exists: exactly the namespace phases of the machine |
| Reconcilers.UpdateExisting | internal/helm/pullsecret.go:79-87 | overwrites type and payload of the fetched Secret in place, keeping the rest, and ends with the update's outcome |
| Reconcilers.EnsureImagePullSecret | internal/helm/pullsecret.go:36-88 | its exchanges with the target are a complete run of the pull machine for the payload of these credentials, ending in the error it returns |
| Reconcilers.RunInstall | internal/helm/installer.go:213-225 | one install request and the resulting release or fault |
| Reconcilers.RunUpgrade | internal/helm/installer.go:227-237 | one upgrade request and the resulting release or fault |
| Reconcilers.InstallOrUpgrade | internal/helm/installer.go:189-211 | upgrade if the lookup succeeds, install if its error text says the release is not found, else fail |
| Reconcilers.ReconcileCertManager | internal/controller/clusterprerequisites_controller.go:160-216 | settles without any request, or runs the complete installation machine for the wanted version |
| Reconcilers.ReconcileIngress | internal/controller/clusterprerequisites_controller.go:222-299 | the same for the ingress, including bundled modes |
| Reconcilers.LoadCredentials | internal/controller/clusterprerequisites_controller.go:312-330 | any problem with the credentials Secret reads as no credentials |
| Reconcilers.ReconcileClusterPrerequisites | internal/controller/clusterprerequisites_controller.go:79-154 | against any outside world, the whole pass is a complete run of the machine and returns its requeue choice and error |
| Reconcilers.ProbeTarget | internal/controller/targetcluster_controller.go:111-153 | parse, build, version, nodes, and the status of each exit |
| Reconcilers.ReconcileTargetCluster | internal/controller/targetcluster_controller.go:67-153 | against any outside world, the whole pass is a complete run of the machine and returns its requeue choice and error |
| Reconcilers.Copy.MarkUnavailable | internal/controller/targetcluster_controller.go:155-165 | ready, observed generation and the Available condition are reported; nothing else changes |
| Reconcilers.WriteStatus | internal/controller/targetcluster_controller.go:167-169 | the error of the status update is the error of the pass |
| Reconcilers.WritePrereqStatus | internal/controller/clusterprerequisites_controller.go:388-390 | the error of the status update is the error of the pass |
| Api.SetStatusConditionLaws | internal/controller/clusterprerequisites_controller.go:376-386 | setting Available replaces the one entry or adds it, and leaves all other conditions alone and in order |
| Api.ReportCoherent | internal/controller/targetcluster_controller.go:155-165 | every report keeps the status coherent and other actors' conditions untouched |
| Api.ReportTwice | internal/controller/targetcluster_controller.go:136-146 | reporting the same outcome at a later time changes nothing, transition time included |
| PassLaws.TcPassJustified | internal/controller/targetcluster_controller.go:67-153 | on every trace: Ready is written only after a complete probe of the kubeconfig the fetched spec names; any other verdict keeps the stored probe; no requeue only for the three terminal reasons |
| PassLaws.CpPassJustified | internal/controller/clusterprerequisites_controller.go:79-154 | on every trace: a finished pass went through every gate, each component status is the outcome of its decision and of Helm, and the pass is Ready iff each component is done for a reason given by spec, version, credentials and Helm outcomes |
| Account.TcPassIsTold | internal/controller/targetcluster_controller.go:67-169 | every pass, whatever it is answered, asks in the order told, for the Secret and data key named, and writes and returns what is told for each outcome: reason, message, probe, requeue choice and error |
| InstallAccount.InstallStepTold | internal/helm/pullsecret.go:36-105 | an installation is at every step as told: namespace before Secret, skip, create or overwrite by what was found, then chart, configuration, lookup, and upgrade or install by the lookup, with the status of each way it can end |
| PassAccount.CpPassIsTold | internal/controller/clusterprerequisites_controller.go:79-368 | every pass is as told: the reads and what each refusal writes, cert-manager then ingress then load balancer with the exact status of each case, and the verdict, reason, requeue choice and error |
| Carried.ProbesUseTheNamedKey | internal/controller/targetcluster_controller.go:88-116 | over all behaviours, what is parsed and probed is the data of the named Secret under the named key, or under "kubeconfig" if none is named |
| Carried.RequestsCarry | internal/controller/clusterprerequisites_controller.go:160-299 | over all behaviours, every request to a registry or target serves a wanted component with its own names, and with the version, credentials and kubeconfig that the objects and Secrets read in that pass give |
| Carried.CredentialsAreCarried | internal/controller/clusterprerequisites_controller.go:312-330 | user name and password of the credentials Secret go to the registry, and into every pull Secret written, each as what it is |
| Carried.VersionsAreCarried | internal/controller/clusterprerequisites_controller.go:176-179 | the chart asked for is the wanted component's, in the version its spec names, or the default if it names none |
| Carried.BundledVersions | internal/controller/clusterprerequisites_controller.go:304-306 | exactly the versions that contain "+k3s" or "+rke2" bring their own Traefik |
| Carried.NoSecondTraefik | internal/controller/clusterprerequisites_controller.go:236-251 | on such a version, in auto or unset mode, no request is made on Traefik's behalf |
| SystemLaws.AlwaysInv | internal/controller/clusterprerequisites_controller.go:79-154 | the system invariant (logs, groundedness of passes, evidence, latch, bundling, wakeups) holds after every behaviour |
| Guarantees.StoredStatusesCoherent | internal/controller/clusterprerequisites_controller.go:127-153 | every version ever stored has at most one Available condition, agrees with it on ready and observed generation, and observes no generation not yet reached |
| Guarantees.ReadyMeansInstalled | internal/controller/clusterprerequisites_controller.go:79-153 | a stored Ready was written by a status update that took effect, of a pass that fetched the object at the observed generation, passed every gate and had all three components done for that spec |
| Guarantees.MetalLBNeverReady | internal/controller/clusterprerequisites_controller.go:355-368 | no behaviour reports a metallb spec Ready at its own generation |
| Guarantees.HelmRequestsGated | internal/controller/clusterprerequisites_controller.go:90-124 | every Helm install or upgrade ever issued was preceded in its pass by the Ready target in the same namespace, kubeconfig, enabled spec, usable credentials, confirmed pull Secret, loaded chart and matching lookup |
| Guarantees.TargetEffectsFramed | internal/controller/clusterprerequisites_controller.go:57-65 | every request to a target stays in one wanted component's namespace, Secret and release, and a Secret update keeps all other keys |
| Guarantees.NoLostWakeups | internal/controller/targetcluster_controller.go:78-134 | an existing ClusterPrerequisites always has a wakeup pending, and so has a TargetCluster unless it stores a terminal verdict |
| Guarantees.ReadyMeansProbed | internal/controller/targetcluster_controller.go:124-152 | a stored Ready TargetCluster was written by a status update that took effect, of a pass with a complete probe for the spec of the observed generation |
| Guarantees.ProbeSurvives | internal/controller/targetcluster_controller.go:136-165 | version and node count are those of the most recent Ready version of the object, through later unavailable passes and edits |
| Guarantees.IngressDecidedOnReadyTarget | internal/controller/clusterprerequisites_controller.go:101-124 | whenever a stored status says it uses the Traefik of a Kubernetes version, that version is of a stored Ready TargetCluster the object referred to, bundles Traefik, and was decided for a spec in auto mode, through later unavailable passes and edits |
| Guarantees.KubeconfigAgreement | internal/controller/clusterprerequisites_controller.go:334-353 | for a target Ready at its own generation, every pass asks for the Secret some probe read, and while its data is unchanged resolves exactly the bytes probed |
| Guarantees.AgreesIff | internal/controller/clusterprerequisites_controller.go:334-353 | at any generation, what passes resolve for a stored Ready target agrees with its probe iff the spec names the Secret probed, under a key with the same bytes |
| Guarantees.SpecEditOutrunsReady | internal/controller/clusterprerequisites_controller.go:101-115 | after any edit of a Ready target it is still Ready for an older generation, its probe exists, and passes agree with each such probe iff the new spec names what it read |
| Scenarios.TerminalTargetMayBeIdle | internal/controller/targetcluster_controller.go:78-86 | a behaviour that leaves an existing TargetCluster with a terminal verdict and no wakeup |
| Scenarios.ReadyForAnotherSecret | internal/controller/clusterprerequisites_controller.go:101-115 | a behaviour that ends with a stored Ready for a Secret no pass ever asked for |
| Base64.DecodeEncode | internal/helm/pullsecret.go:120-120 | base64 with padding loses nothing, at any length |
| Base64.TestVectors | internal/helm/pullsecret.go:120-120 | the test vectors of RFC 4648 |
| JsonString.ReadEscape | internal/helm/pullsecret.go:125-125 | a reader gets back the UTF-8-sanitized text and stops exactly at the closing quote |
| JsonString.SanitizeSplitsAtAscii | internal/helm/pullsecret.go:125-125 | replacing ill-formed bytes never reaches across an ASCII byte |
| JsonString.SanitizeByCodePoints | internal/helm/pullsecret.go:125-125 | what a string denotes keeps each UTF-8 form of a code point and replaces each byte that begins none by U+FFFD |
| JsonString.EscapeIsSafe | internal/helm/pullsecret.go:125-125 | nothing written is a control byte or has a meaning in HTML |
| Json.ReadWrite | internal/helm/pullsecret.go:107-129 | a general reader gets back every marshalled value of objects and strings, whatever the nesting, names and texts |
| DockerConfig.ParseDockerconfigjson | internal/helm/pullsecret.go:107-129 | looking up "auths", the host, then "username", "password" and "auth" in the payload as read by a general JSON reader yields the sanitized user name, the sanitized password, and a text that decodes to exactly user, colon, password |
| DockerConfig.SplitIsUnique | internal/helm/pullsecret.go:118-120 | the user-pass text and the sanitized username together determine both fields |
| DockerConfig.PayloadInjective | internal/helm/pullsecret.go:107-129 | for one host, over all byte strings, payloads are equal iff username and password are |
| DockerConfig.FieldsAloneAreAmbiguous | internal/helm/pullsecret.go:118-120 | neither the username field nor the auth field would do alone |
| Upsert.NilMeansPresentForever | internal/helm/pullsecret.go:50-88 | for any number of interleaved callers, faults and other editors that leave a valid payload alone: at most one Create takes effect, and once a caller returns nil the Secret holds the payload for ever |
| Upsert.LosersFindItPresent | internal/helm/pullsecret.go:50-104 | from no Secret or one of the right type, without faults: losing a Secret race is the only error, the namespace race is none, and whenever a caller has ended the payload is there |
| Upsert.OtherTypeIsNeverRepaired | internal/helm/pullsecret.go:79-87 | a Secret of another type keeps it, no caller ever succeeds, and without faults each is refused the update |
| Upsert.UpdatesLoseNothing | internal/helm/pullsecret.go:75-87 | no caller's step changes any other data key of the Secret, however others edit it meanwhile |
| Upsert.SkipIsExact | internal/helm/pullsecret.go:75-77 | a Secret written by an earlier call is skipped iff the credentials are equal |
| Upsert.PresentDecodes | internal/helm/pullsecret.go:107-129 | a Secret that passes the skip test has the right type and decodes to the given credentials |
| Upsert.SecondCallWritesNothing | internal/helm/pullsecret.go:59-77 | a call that finds the payload in place sends no create and no update |
| Quiet.DriveIsInstallStep | internal/controller/clusterprerequisites_controller.go:181-215 | the request-by-request installation equals one step on its own namespace and touches nothing else |
| Quiet.InstallStepRepeats | internal/controller/clusterprerequisites_controller.go:181-215 | a second installation reports the same status iff the first did not leave a release whose upgrade is reported otherwise; a third always repeats the second |
| Quiet.InstallsCommute | internal/controller/clusterprerequisites_controller.go:123-124 | both orders of the two installations give the same two statuses and the same target |
| Convergence.TcPassSettles | internal/controller/targetcluster_controller.go:136-165 | a second TargetCluster pass rewrites the stored object identically |
| Convergence.CpPassSettles | internal/controller/clusterprerequisites_controller.go:123-153 | a second ClusterPrerequisites pass rewrites the stored object identically iff the first installed nothing whose upgrade is reported otherwise |
| Convergence.QuietPeriodSettles | internal/controller/clusterprerequisites_controller.go:123-153 | after a TargetCluster pass and two ClusterPrerequisites passes no later pass ever changes either object |
| Convergence.OnePassSettlesIff | internal/controller/clusterprerequisites_controller.go:123-153 | one ClusterPrerequisites pass is enough iff it leaves no first release behind whose upgrade is reported otherwise |
| Convergence.TimedOutInstall | internal/helm/installer.go:202-211 | one such input: a first install times out after recording the release |
| Convergence.RefusedUpgrade | internal/helm/installer.go:202-211 | another: the install succeeds, the upgrade is refused, and a Ready object becomes not Ready with nothing changed outside |
| Convergence.RequestsOnlyAdd | internal/helm/pullsecret.go:59-87 | no sequence of operator requests removes a namespace, Secret or release (no request the code sends can) or touches an unnamed namespace |
| Convergence.UninstalledUntouched | internal/controller/clusterprerequisites_controller.go:166-174 | a pass leaves the namespace of a component it does not install exactly as it was |
| Text.JoinSplit | test/utils/utils.go:154-164 | splitting at newlines gives newline-free parts that join back to the text |
| Text.SplitJoin | test/utils/utils.go:154-164 | newline-free parts are recovered from their join |
| Text.GetNonEmptyLines | test/utils/utils.go:154-164 | the append loop returns the non-empty parts in order |
| Text.LinesAreStable | test/utils/utils.go:154-164 | the result is exactly the non-empty segments, and joining and splitting it again changes nothing |
| Text.OccursInSomeLine | test/utils/utils.go:124-131 | a newline-free text occurs in the whole iff it occurs in some line |
| Text.IsCertManagerCRDsInstalled | test/utils/utils.go:105-134 | the nested scan answers whether any CRD name occurs anywhere in the output |
| Text.UncommentCode | test/utils/utils.go:178-226 | the scanner loop computes text before, trimmed tokens joined by newlines, text after |
| Text.UncommentUndoesComment | test/utils/utils.go:178-226 | the file ends up with the original block iff no commented line reaches the token limit or loses a carriage return of its own |
| Text.UncommentLineByLine | test/utils/utils.go:178-226 | in any target of clean lines, those with the prefix lose it once, the others stay, and nothing else changes |
| Text.CarriageReturnIsLost | test/utils/utils.go:199-214 | one input that fails: a one-line block ending in a carriage return |
| ChartUrl.ComposeParse | internal/helm/installer.go:148-156 | taking any text apart and composing it again gives the text |
| ChartUrl.UrlParts | internal/helm/installer.go:124-150 | a full URL, written out, is taken apart where a reader would expect it |
| ChartUrl.ParseCompose | internal/helm/installer.go:148-156 | well-formed components are read back exactly |
| ChartUrl.RemoveDotsClean | internal/helm/installer.go:153-155 | no dot segment survives resolution, at any length |
| ChartUrl.RemoveDotsKeeps | internal/helm/installer.go:153-155 | a path without dot segments is left alone |
| ChartUrl.DotDotCancels | internal/helm/installer.go:153-155 | a dot-dot segment takes back exactly the segment before it, anywhere in a path |
| ChartUrl.DotVanishes | internal/helm/installer.go:153-155 | a dot segment changes nothing, and dot-dot at the root stays there |
| ChartUrl.TrailingSlashesDoNotMatter | internal/helm/installer.go:125-156 | every result and every error is the same however many slashes end the repository URL |
| ChartUrl.FoundIsAbsolute | internal/helm/installer.go:124-157 | for a repository URL with a scheme, whatever is returned has a scheme |
| ChartUrl.ResolvedIsAbsolute | internal/helm/installer.go:148-156 | the scheme is the entry's own, or else the repository's, in lower case |
| ChartUrl.AbsoluteEntryStands | internal/helm/installer.go:152-156 | an entry with a scheme does not depend on the repository; in characters that need no escaping, it is returned byte for byte iff its scheme is in lower case and no empty fragment ends it |
| ChartUrl.RelativeEntryStaysHome | internal/helm/installer.go:153-156 | an entry without scheme and host keeps the repository's scheme and host and has no dot segments left |
| ChartUrl.RelativeEntryParts | internal/helm/installer.go:153-156 | an entry with a host, without a path, or with a path from the root takes each part from itself or the repository as section 5.2.2 of RFC 3986 has it |
| ChartUrl.PlainEntryIsAppendedIff | internal/helm/installer.go:125-156 | in characters that need no escaping, a plain relative entry gives repository root plus entry iff the repository URL has no query, fragment or dot segments, its scheme is in lower case, and no empty fragment ends the entry |
| ChartUrl.FirstUrlDecides | internal/helm/installer.go:124-157 | from end to end: of the URLs listed for the chart the first decides the result or the error |
| ChartUrl.ErrorsAreTold | internal/helm/installer.go:124-144 | a repository URL that is refused, an unreachable or unreadable index and a missing chart are each told apart |
| ChartUrl.QueryIsDropped | internal/helm/installer.go:125-156 | one input that fails: a repository URL with a query |
| DeepCopy.CopyPointer | api/v1alpha1/zz_generated.deepcopy.go:137-151 | a pointer field is replaced by a fresh cell with the same value, nil staying nil |
| DeepCopy.CopyLoadBalancer | api/v1alpha1/zz_generated.deepcopy.go:271-278 | the nested pointer is copied too |
| DeepCopy.CopySpec | api/v1alpha1/zz_generated.deepcopy.go:134-157 | equal through all pointers, every reachable cell fresh |
| DeepCopy.CopySlice | api/v1alpha1/zz_generated.deepcopy.go:173-179 | a fresh slice with the same elements, nil and empty kept apart |
| DeepCopy.CopyStatus | api/v1alpha1/zz_generated.deepcopy.go:170-180 | equal, with its own condition slice |
| DeepCopy.CopyItem | api/v1alpha1/zz_generated.deepcopy.go:75-81 | equal through all pointers, every reachable cell fresh |
| DeepCopy.CopyItems | api/v1alpha1/zz_generated.deepcopy.go:106-112 | the element loop copies every item, for lists of any length, without disturbing the source |
| DeepCopy.CopyList | api/v1alpha1/zz_generated.deepcopy.go:102-113 | structurally equal to the source, nil and empty kept apart, and sharing no mutable cell with it |
| DeepCopyManager.CopyTls | api/v1alpha1/zz_generated.deepcopy.go:430-442 | both nested pointers are replaced by fresh cells with the same values |
| DeepCopyManager.CopyManagerStatus | api/v1alpha1/zz_generated.deepcopy.go:403-417 | two slices of its own, equal, nil and empty kept apart |
| DeepCopyManager.CopyManagerList | api/v1alpha1/zz_generated.deepcopy.go:348-359 | structurally equal to the source and sharing no mutable cell with it |

## Left out

- ChartUrl.ResolveChartURL: which texts `url.Parse` refuses and what the index at a repository says are parameters; beyond RFC 3986 only lower-case schemes and dropped empty fragments are modelled, so percent-encoding of other characters, an authority that is empty, a doubled leading slash and an empty entry inheriting a fragment are not captured. No controller calls it.
- LoadChartFromRepo, httpGet: fetch and unpack, with no decisions of their own.
- LoadChartFromOCI, the REST client getter and Helm itself: one request each, with an open reply.
- The RancherManager controller: an empty scaffold that decides nothing.
- Manager start-up, flags, metrics, manifests and scripts: configuration.
- Wall-clock durations: a timer is pending or not, and the clock only dates transition times.
- DeepCopy.CopyList: with DeepCopyManager.CopyManagerList covers two of the three lists; the generated copies of TargetCluster repeat the same pointer, slice and struct steps on fewer fields. `ObjectMeta` stands with one mutable field for the library's own deep copy, and writing through the `out` pointer is returning the struct and storing it.
- Reconcilers.EnsureImagePullSecret: building the REST config and the client set are one request, because both fail the same way.
- Text.UncommentCode: reading and writing the file are the argument and the result.
- Quiet.DriveIsInstallStep: in a quiet period each kind of request has one fixed answer, install and upgrade apart; a namespace or Secret request that fails has no effect, and answers do not change with the number of revisions.
- Spec fields no code reads (the ingress type, the MetalLB configuration) appear only in the deep copies.
- Several target clusters at once: in the interleaved system a target may answer anything, so nothing depends on how many there are; the quiet period has one.
