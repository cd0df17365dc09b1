# Kubeflow control plane: a verified model

This project models the parts of a vendored Kubeflow tree whose behaviour is hardest to see from one body, and proves
what they promise. `dafny verify dfyconfig.toml` checks it. All modelled files lie under
`kubeflow-deployments/label-issues-0409/.cache/master/`.

* `IamPolicy`, `IamRewrite`, `IamApply`: three implementations (deployment server and kfctl in Go, a Python script) edit
  a project's IAM policy through role-keyed maps. A policy means a set of grants, (role, member) pairs; every loop is
  proved against it, then the implementations are compared, and the get/modify/set protocol is proved exact under every
  schedule of failures, including sets that landed but were reported as failed.
* `ServerLocks`: the server's project locks and its server mutex as interleaved steps of any number of requests, over a
  policy store that other people write too.
* `ProfileController`, `NotebookController`: two Kubernetes reconcilers against a small API server whose calls can fail
  or lose their acknowledgement: convergence, a measure, silence afterwards.
* `PatchOrCreate`, `FanOut`, `ComponentApply`, `DeployAccounting`: create-or-patch among concurrent writers, the
  goroutine fan-out that calls it, the component retry loop, and the metrics of concurrent deployments.
* `DeepCopy`, `ConfigCopy`: generated deep copies of module trees and configurations, on the heap.
* `Gatekeeper`: the login server and its cookie store, over whole runs.
* `SpawnerForm`, `VolumeNumbers`: the merge of administrator defaults with a submitted notebook form, and the numbered
  volume list of the page that fills it in.
* `TagMove`: moving a release tag in the image list. `Text`, `Sequences`, `ApiCalls` and `Wrappers` are shared helpers.

Code that changes objects step by step is modelled by classes and methods whose postconditions tie the new state to a
function or relation on values; the properties are lemmas about these. Protocols with several actors are step relations.

## Where the code does not do what it seems to promise

Each point is proved, with the exact condition under which the promise holds.

* `ReadIamBindingsYAML` drops the result of `Union`, so a role listed twice keeps its first members only
  (`IamPolicy.FirstGrantsExact`). The shipped template lists `roles/source.admin` twice
  (`IamRewrite.ShippedTemplateLosesAGrant`).
* `BindRole` appends a second binding for its role, and the next `UpdatePolicy` or `RewriteIamPolicy` keeps only the
  last one (`IamRewrite.BindRoleShadowsAdmins`, `IamApply.OthersKeepTheirGrantsUnlessShadowed`; failing policy
  `IamApply.BindRoleThenApplyTakesARole`, failing run `IamApply.AdministratorLosesTheRole`).
* The server and kfctl classify the e-mail of a support group differently, so they grant IAP access to different members
  (`IamRewrite.MappingsAgree`, `IamRewrite.ImplementationsAgree`; failing input `IamRewrite.SupportGroupBreaksAgreement`).
* `ApplyIamPolicy` returns nil when its second phase fails (`IamApply.ServerReportsSuccessTooEarly`; failing run
  `IamApply.RefusedUpdateIsReportedAsSuccess`).
* The reasons that `patchOrCreate` looks for are hidden by the error wrappers, so its retries never run
  (`PatchOrCreate.HiddenReasonsDisableRetries`; when this matters: `PatchOrCreate.HiddenReasonsMatterExactly`; failing
  run `PatchOrCreate.OneConflictTellsThemApart`). The model takes the wrapping as a switch and proves both worlds.
* `patchResource` sends its patch without the resource's name. Whether a server accepts that is a switch of the model
  (`PatchOrCreate.NilWithoutPatches`).
* All documents of a file are decoded into one map, so a document inherits the fields it lacks
  (`FanOut.DocumentsStandAlone`; failing input `FanOut.FieldsAreInherited`).
* A repeated component name can never be applied successfully (`ComponentApply.SizeTest`,
  `ComponentApply.RepeatedNameNeverSucceeds`).
* A wait that runs out of polls with a nil error counts the request as failed and lets it go on
  (`DeployAccounting.CountedOnce`; failing input `DeployAccounting.PendingClusterIsCountedTwice`).
* An empty, non-nil port list makes the notebook controller panic (`NotebookController.CleanPassConverges`; failing
  input `NotebookController.EmptyPortListPanics`).
* The form merge fails on every form when the workspace volume has no default value (`SpawnerForm.UselessConfigurations`;
  failing input `SpawnerForm.NoWorkspaceDefaultRejectsEveryForm`).
* A data-volume field that is read-only on its own is disabled on the page (script.js:245-311) and taken from the form
  by the spawner all the same (`SpawnerForm.DataVolumeFlagsAreIgnored`; failing input
  `SpawnerForm.ReadOnlyNameIsOverridden`).
* A name or path that the administrator fixed on the page is overwritten when a free volume of the same number is fading
  before it (`VolumeNumbers.TextsSurviveExactly`, `VolumeNumbers.FixedTextsSurvive`; failing run
  `VolumeNumbers.FadingVolumeUnfixesAName`).
* A second click on a volume that is already fading out breaks the numbering or, within the guard that keeps the
  numbering, silently removes a neighbour (`VolumeNumbers.StepKeepsNumbers`, `VolumeNumbers.ClickTakesOne`,
  `VolumeNumbers.SecondClicksHarm`; failing runs `VolumeNumbers.DoubleClickBreaksTheNumbers` and
  `VolumeNumbers.DoubleClickTakesTheNeighbour`). `VolumeNumbers.EveryRunIsReadWhole` is about the volumes left on the page.
* Moving a tag twice fails when the pattern matches the tag itself (`TagMove.MoveAgain`; failing input
  `TagMove.SecondMoveFails`). The error for several matches is a `TypeError` from its own message; the model counts it
  as the error it means to be.

## Model

| member | source | states |
|---|---|---|
| `IamPolicy.LastGrantsExact` | kubeflow-deployments/label-issues-0409/.cache/master/bootstrap/pkg/utils/iamutils.go:148-153 | indexing a policy by role keeps all its grants if and only if no grant sits only in an earlier binding of a repeated role |
| `IamPolicy.FirstGrantsExact` | kubeflow-deployments/label-issues-0409/.cache/master/bootstrap/pkg/utils/iamutils.go:122-132 | reading a template keeps all its grants if and only if every grant is also given by the first binding that lists its role; a template that lists no role twice is read whole |
| `IamPolicy.ClearedGrants` | kubeflow-deployments/label-issues-0409/.cache/master/bootstrap/pkg/utils/iamutils.go:68-89 | clearing removes exactly the grants of the named members, for the plain reading of a policy and for the reading by last binding, and shadows nothing new |
| `IamPolicy.EditedAgain` | kubeflow-deployments/label-issues-0409/.cache/master/bootstrap/pkg/utils/iamutils.go:146-175 | an edit applied to the result of the same edit grants the same as applied once |
| `IamRewrite.ClearIamPolicy` | kubeflow-deployments/label-issues-0409/.cache/master/bootstrap/pkg/utils/iamutils.go:68-89 | the policy object ends as the old bindings, in order, less the three service accounts of the deployment (the server's `ClearServiceAccountPolicy` is the same loop) |
| `IamRewrite.RemoveServiceAccounts` | kubeflow-deployments/label-issues-0409/.cache/master/bootstrap/pkg/kfapp/gcp/gcp.go:967-981 | delete's in-place loop leaves the same bindings as the loop that builds new ones |
| `IamRewrite.RewriteIamPolicy` | kubeflow-deployments/label-issues-0409/.cache/master/bootstrap/pkg/utils/iamutils.go:146-175 | the policy ends with one binding per role, no member twice, granting what the last bindings granted and all that the added policy grants |
| `IamRewrite.UpdatePolicy` | kubeflow-deployments/label-issues-0409/.cache/master/bootstrap/cmd/bootstrap/app/gcpUtils.go:179-227 | the same for the server's loop over the raw template: the substituted template's grants are added, or removed for any action but `add` |
| `IamRewrite.WriteIamBindings` | kubeflow-deployments/label-issues-0409/.cache/master/bootstrap/pkg/kfapp/gcp/gcp.go:1068-1106 | placeholders are replaced by accounts, everything else is kept; fails exactly without a `bindings` entry or with a binding without `members` |
| `IamRewrite.ReadIamBindings` | kubeflow-deployments/label-issues-0409/.cache/master/bootstrap/pkg/utils/iamutils.go:122-142 | the policy read has one binding per role and grants, for every role, what the first binding listing it gives: later listings are dropped with the unused result of the union |
| `IamRewrite.PolicyToDict` | kubeflow-deployments/label-issues-0409/.cache/master/scripts/gke/iam_patch.py:52-61 | the dictionary grants what the last binding of every role grants |
| `IamRewrite.ApplyIamBindingsPatch` | kubeflow-deployments/label-issues-0409/.cache/master/scripts/gke/iam_patch.py:76-91 | the dictionary gains the patch's grants, or loses them for any action but `add` |
| `IamRewrite.DictToPolicy` | kubeflow-deployments/label-issues-0409/.cache/master/scripts/gke/iam_patch.py:64-73 | the bindings written back are one per role and grant exactly what the dictionary holds |
| `IamRewrite.PatchPolicy` | kubeflow-deployments/label-issues-0409/.cache/master/scripts/gke/iam_patch.py:100-107 | the three steps of the script together: what the last bindings granted, plus the patch or less it, one binding per role |
| `IamRewrite.MappingsAgree` | kubeflow-deployments/label-issues-0409/.cache/master/bootstrap/pkg/kfapp/gcp/gcp.go:1076-1081 | the server's and kfctl's placeholder tables coincide if and only if the e-mail is classified alike |
| `IamRewrite.AccountsWrittenOut` | kubeflow-deployments/label-issues-0409/.cache/master/bootstrap/pkg/utils/iamutils.go:69-73 | the members that clearing removes are exactly the deployment's admin, user and vm accounts, as strings |
| `IamRewrite.PlaceholdersWrittenOut` | kubeflow-deployments/label-issues-0409/.cache/master/bootstrap/pkg/kfapp/gcp/gcp.go:1076-1080 | both placeholder tables send each of the three service-account placeholders to its own one of these accounts |
| `IamRewrite.EmailsClassified` | kubeflow-deployments/label-issues-0409/.cache/master/bootstrap/cmd/bootstrap/app/gcpUtils.go:168-177 | what the IAP placeholder becomes in each table, by what the e-mail contains |
| `IamRewrite.SubstitutedGrants` | kubeflow-deployments/label-issues-0409/.cache/master/bootstrap/cmd/bootstrap/app/gcpUtils.go:199-213 | the grants of a substituted template are those of the template with exactly the known placeholders replaced |
| `IamRewrite.ImplementationsAgree` | kubeflow-deployments/label-issues-0409/.cache/master/bootstrap/cmd/bootstrap/app/gcpUtils.go:199-227 | one template applied to any policy, for any e-mail: server and script grant the same if and only if the grants on which the two substitutions differ make no difference to the policy, and these are none when the e-mail is classified alike; kfctl grants what the script grants if and only if every grant its reader dropped was already held, and always when no role is listed twice |
| `IamRewrite.SupportGroupBreaksAgreement` | kubeflow-deployments/label-issues-0409/.cache/master/bootstrap/cmd/bootstrap/app/gcpUtils.go:168-177 | the failing input: an e-mail of a support group and the shipped template; on an empty policy the server grants IAP access to the group, the other path to a user of that name |
| `IamRewrite.RepeatedRoleLoses` | kubeflow-deployments/label-issues-0409/.cache/master/bootstrap/pkg/utils/iamutils.go:126-127 | a grant given only by a later listing of a role is in the template but not in what is read from it |
| `IamRewrite.ShippedTemplateLosesAGrant` | kubeflow-deployments/label-issues-0409/.cache/master/deployment/gke/deployment_manager_configs/iam_bindings_template.yaml:7-27 | for every deployment, the file kfctl writes from the shipped template lists `roles/source.admin` twice, and the reader loses it for the user account |
| `IamRewrite.BindRoleShadowsAdmins` | kubeflow-deployments/label-issues-0409/.cache/master/bootstrap/cmd/bootstrap/app/initHandler.go:57-61 | appending a binding adds exactly its grant; the next indexing by role keeps every grant of the policy if and only if nobody else was an IAM admin and no other role was shadowed already, and loses none the former indexing kept if and only if nobody else was an IAM admin |
| `IamApply.ClearWithRetry` | kubeflow-deployments/label-issues-0409/.cache/master/bootstrap/pkg/kfapp/gcp/gcp.go:593-620 | for every schedule of failures: no error if and only if some set was acknowledged, and the policy is cleared exactly when some set landed |
| `IamApply.RewriteWithRetry` | kubeflow-deployments/label-issues-0409/.cache/master/bootstrap/pkg/kfapp/gcp/gcp.go:634-657 | the same for the second phase: edited exactly when some set landed, however often |
| `IamApply.UpdateDM` | kubeflow-deployments/label-issues-0409/.cache/master/bootstrap/pkg/kfapp/gcp/gcp.go:555-660 | the outcome and the stored policy at every point where the deployment update can stop |
| `IamApply.DeleteIamStep` | kubeflow-deployments/label-issues-0409/.cache/master/bootstrap/pkg/kfapp/gcp/gcp.go:960-987 | one get and one set: cleared exactly when the set landed |
| `IamApply.AcknowledgedDeleteFreesTheAccounts` | kubeflow-deployments/label-issues-0409/.cache/master/bootstrap/pkg/kfapp/gcp/gcp.go:967-982 | after an acknowledged delete or clearing, a grant is left if and only if it was there and its member is none of the three accounts, as strings |
| `IamApply.ApplyIamPolicy` | kubeflow-deployments/label-issues-0409/.cache/master/bootstrap/cmd/bootstrap/app/gcpUtils.go:229-310 | the server's version; an error if and only if the template does not load, no client can be made, or the clearing was never acknowledged, and the policy left in each case |
| `IamApply.ApplyExact` | kubeflow-deployments/label-issues-0409/.cache/master/bootstrap/pkg/kfapp/gcp/gcp.go:593-657 | a successful apply ends with one binding per role and (old grants less the deployment's accounts) plus the template, exactly if and only if no foreign grant was shadowed by a repeated role |
| `IamApply.OthersKeepTheirGrantsUnlessShadowed` | kubeflow-deployments/label-issues-0409/.cache/master/bootstrap/pkg/kfapp/gcp/gcp.go:593-657 | wherever the apply stops only template grants are gained; before the second phase has landed nobody outside the deployment has lost a grant, and after it nobody has if and only if no shadowed binding held a foreign grant that the template does not restore |
| `IamApply.BindRoleThenApplyTakesARole` | kubeflow-deployments/label-issues-0409/.cache/master/bootstrap/cmd/bootstrap/app/initHandler.go:57-61 | one administrator, BindRole for another account, then a successful apply of any deployment whose bindings file does not grant the role back: the first administrator, who is none of the deployment's accounts, has lost it |
| `IamApply.AdministratorLosesTheRole` | kubeflow-deployments/label-issues-0409/.cache/master/bootstrap/pkg/kfapp/gcp/gcp.go:593-657 | the failing run: such an apply with the shipped template, for every deployment, succeeds and leaves the first administrator without the role |
| `IamApply.ApplyAgainThenDelete` | kubeflow-deployments/label-issues-0409/.cache/master/bootstrap/pkg/kfapp/gcp/gcp.go:593-657 | for every policy: with L what the last binding of every role grants, an apply ends with (L less the deployment's accounts) plus the template, a second apply changes no grant, and a delete after it leaves exactly (L plus template) less the deployment's accounts; L is all that was granted if and only if nothing was shadowed |
| `IamApply.ServerReportsSuccessTooEarly` | kubeflow-deployments/label-issues-0409/.cache/master/bootstrap/cmd/bootstrap/app/gcpUtils.go:229-310 | for every policy and either action, from the reported error: after a call without error the policy is the intended one if and only if an update landed and shadowing lost nothing, or none landed and none was needed; with an error it is cleared or untouched |
| `IamApply.RefusedUpdateIsReportedAsSuccess` | kubeflow-deployments/label-issues-0409/.cache/master/bootstrap/cmd/bootstrap/app/gcpUtils.go:285-309 | the failing run: clearing acknowledged, only update refused; no error is reported and only the cleared bindings are left |
| `ServerLocks.RunInv` | kubeflow-deployments/label-issues-0409/.cache/master/bootstrap/cmd/bootstrap/app/ksServer.go:384-392 | the invariant of locks and policies in every state of every interleaving of any number of apply, bind, key and create requests |
| `ServerLocks.NoLostUpdate` | kubeflow-deployments/label-issues-0409/.cache/master/bootstrap/cmd/bootstrap/app/gcpUtils.go:248-308 | in every state at most one thread per project holds its lock, and every stored policy is the result of applying the accepted edits one after another, each to the outcome of the one before |
| `ServerLocks.OnlyOutsidersMakeAWriteStale` | kubeflow-deployments/label-issues-0409/.cache/master/bootstrap/cmd/bootstrap/app/initHandler.go:43-66 | a policy read under the lock is out of date if and only if someone outside the server wrote meanwhile; otherwise the pending write is the request's edit of the current policy |
| `ServerLocks.OneMutexPerProject` | kubeflow-deployments/label-issues-0409/.cache/master/bootstrap/cmd/bootstrap/app/ksServer.go:384-392 | over every run the registry keeps giving one project the same mutex, and never the same to two projects |
| `ServerLocks.DeadlockFree` | kubeflow-deployments/label-issues-0409/.cache/master/bootstrap/cmd/bootstrap/app/ksServer.go:384-392 | in no reachable state is every unfinished thread blocked, with the server mutex taken alone, under a project lock (registry download), and by the lock registry |
| `ServerLocks.EnabledUnlessBlocked` | kubeflow-deployments/label-issues-0409/.cache/master/bootstrap/cmd/bootstrap/app/ksServer.go:441-444 | a thread can always move unless the one lock it asks for is held by another |
| `ServerLocks.StepsLowerRank` | kubeflow-deployments/label-issues-0409/.cache/master/bootstrap/cmd/bootstrap/app/gcpUtils.go:258-308 | every step of a request lowers a measure that no other actor raises |
| `ServerLocks.RunsAreBounded` | kubeflow-deployments/label-issues-0409/.cache/master/bootstrap/cmd/bootstrap/app/gcpUtils.go:258-308 | the number of request steps of a run plus the remaining measure is at most the measure at the start |
| `ServerLocks.EveryRequestFinishes` | kubeflow-deployments/label-issues-0409/.cache/master/bootstrap/cmd/bootstrap/app/ksServer.go:384-392 | a run in which no request can move has finished every request and released every lock |
| `ServerLocks.RequestsActAlone` | kubeflow-deployments/label-issues-0409/.cache/master/bootstrap/cmd/bootstrap/app/gcpUtils.go:248-309 | in every interleaving, while a request holds its project's lock and nobody outside the server writes that policy, the stored policy is the one it found, edited by this request alone as far as the step it has reached |
| `ServerLocks.InterleavedRequestsMatchTheirCode` | kubeflow-deployments/label-issues-0409/.cache/master/bootstrap/cmd/bootstrap/app/initHandler.go:45-66 | so an interleaved apply leaves what its code leaves alone under some schedule of its two phases, each no longer than its tries, the clearing unacknowledged during the first and acknowledged during the second; and a bind request leaves the policy with or without its binding |
| `ServerLocks.NoApplyGivesUpEarly` | kubeflow-deployments/label-issues-0409/.cache/master/bootstrap/cmd/bootstrap/app/gcpUtils.go:258-309 | while it holds its lock undisturbed an apply begins at most one attempt more than its retries in each phase, and when it is about to leave, the policy is the cleared one with the patch applied or one of the phases has used up all its attempts |
| `ServerLocks.AnsweredRequestsAreWhole` | kubeflow-deployments/label-issues-0409/.cache/master/bootstrap/cmd/bootstrap/app/gcpUtils.go:258-308 | an apply whose calls are all answered can bring the cleared and patched policy to the store in two reads and two writes, a bind its binding in one of each |
| `ServerLocks.AnsweredCreatesVisitEveryRegistry` | kubeflow-deployments/label-issues-0409/.cache/master/bootstrap/cmd/bootstrap/app/ksServer.go:532-565 | a create request whose work succeeds visits every registry in turn and takes the server mutex once for each remote one |
| `ServerLocks.RemoteRegistriesNeedTheServerMutex` | kubeflow-deployments/label-issues-0409/.cache/master/bootstrap/cmd/bootstrap/app/ksServer.go:631-661 | a remote registry is entered only by taking the free server mutex, held until the download is over |
| `ProfileController.Reconcile` | kubeflow-deployments/label-issues-0409/.cache/master/components/profile-controller/pkg/controller/profile/profile_controller.go:108-205 | one call equals a pass over the cluster value, for every placement of failures and lost acknowledgements, counting its writes |
| `ProfileController.ReconcileRole` | kubeflow-deployments/label-issues-0409/.cache/master/components/profile-controller/pkg/controller/profile/profile_controller.go:143-165 | the role section, including the update of an empty, unnamed object after a create |
| `ProfileController.PassNeverHarms` | kubeflow-deployments/label-issues-0409/.cache/master/components/profile-controller/pkg/controller/profile/profile_controller.go:108-205 | under any faults a pass raises neither the number of missing nor of wrong objects, and leaves other profiles and unowned fields alone |
| `ProfileController.NilMeansConverged` | kubeflow-deployments/label-issues-0409/.cache/master/components/profile-controller/pkg/controller/profile/profile_controller.go:108-205 | a pass without error has put everything right, and wrote nothing if and only if nothing was wrong |
| `ProfileController.NilGivesTheOwnerAccess` | kubeflow-deployments/label-issues-0409/.cache/master/components/profile-controller/pkg/controller/profile/profile_controller.go:167-204 | under any faults, a pass without error leaves the role with its rules and a binding of exactly the owner to the role `edit` |
| `ProfileController.ObjectsAreTheWantedOnes` | kubeflow-deployments/label-issues-0409/.cache/master/components/profile-controller/pkg/controller/profile/profile_controller.go:143-203 | under any faults, a role or binding that appears is named `edit` or `default` with the wanted contents; one that was there keeps its name and all else, and has its former contents or the wanted ones |
| `ProfileController.ConvergedPassIsQuiet` | kubeflow-deployments/label-issues-0409/.cache/master/components/profile-controller/pkg/controller/profile/profile_controller.go:108-205 | on a converged or deleted profile a pass returns nil and writes nothing |
| `ProfileController.CleanPassProgress` | kubeflow-deployments/label-issues-0409/.cache/master/components/profile-controller/pkg/controller/profile/profile_controller.go:149-203 | a clean pass fails if and only if a role or role binding was missing, and creates exactly one of them |
| `ProfileController.ProfileConverges` | kubeflow-deployments/label-issues-0409/.cache/master/components/profile-controller/pkg/controller/profile/profile_controller.go:108-205 | from any cluster, after any faulty passes, clean passes fail exactly as often as objects are missing (at most twice); then every later pass is silent |
| `ProfileController.FreshProfileTakesThreePasses` | kubeflow-deployments/label-issues-0409/.cache/master/components/profile-controller/pkg/controller/profile/profile_controller.go:108-205 | the bound of three passes is met from an empty cluster |
| `NotebookController.GenerateStatefulSet` | kubeflow-deployments/label-issues-0409/.cache/master/components/notebook-controller/pkg/controller/notebook/notebook_controller.go:266-330 | the generated set as a value, and the notebook in memory, which shares its containers and so receives the injection too |
| `NotebookController.AddPodLabels` | kubeflow-deployments/label-issues-0409/.cache/master/components/notebook-controller/pkg/controller/notebook/notebook_controller.go:289-303 | the labels equal the base overlaid with the well-formed entries of POD_LABELS |
| `NotebookController.WithEntriesAt` | kubeflow-deployments/label-issues-0409/.cache/master/components/notebook-controller/pkg/controller/notebook/notebook_controller.go:289-303 | a label has the value of the last well-formed entry that sets it, or its base value |
| `NotebookController.GenerateService` | kubeflow-deployments/label-issues-0409/.cache/master/components/notebook-controller/pkg/controller/notebook/notebook_controller.go:332-371 | the service for the notebook after injection, or the index panic |
| `NotebookController.CopyStatefulSetFields` | kubeflow-deployments/label-issues-0409/.cache/master/components/notebook-controller/pkg/util/util.go:27-49 | whether an update is asked for, and the repaired set |
| `NotebookController.CopyServiceFields` | kubeflow-deployments/label-issues-0409/.cache/master/components/notebook-controller/pkg/util/util.go:52-81 | the same for services |
| `NotebookController.UnseenDrift` | kubeflow-deployments/label-issues-0409/.cache/master/components/notebook-controller/pkg/util/util.go:29-41 | two label maps count as alike if and only if every stored key has the generated value, or an empty one where none is generated; what is missed is exactly deleted keys and extra empty ones |
| `NotebookController.Reconcile` | kubeflow-deployments/label-issues-0409/.cache/master/components/notebook-controller/pkg/controller/notebook/notebook_controller.go:149-264 | one call equals a pass over the cluster value, for every placement of faults |
| `NotebookController.StoredSpecNeverChanges` | kubeflow-deployments/label-issues-0409/.cache/master/components/notebook-controller/pkg/controller/notebook/notebook_controller.go:149-264 | under any faults nothing of the stored notebook changes but its status |
| `NotebookController.CleanPassConverges` | kubeflow-deployments/label-issues-0409/.cache/master/components/notebook-controller/pkg/controller/notebook/notebook_controller.go:149-264 | a clean pass panics if and only if the notebook has no container or an empty port list; otherwise pod spec, selector and ports are the generated ones, and so are labels and annotations up to the drift that cannot be seen |
| `NotebookController.DoneMeansConverged` | kubeflow-deployments/label-issues-0409/.cache/master/components/notebook-controller/pkg/controller/notebook/notebook_controller.go:149-264 | whatever its calls met, a pass without error over an existing notebook has converged, status included |
| `NotebookController.ConvergedSetIsFilledIn` | kubeflow-deployments/label-issues-0409/.cache/master/components/notebook-controller/pkg/controller/notebook/notebook_controller.go:305-328 | written out: the converged pod spec keeps all the user wrote, gets `/home/jovyan`, port 8888 and fsGroup 100 where something is missing, and gains the variable NB_PREFIX with `/notebook/<namespace>/<name>` |
| `NotebookController.ConvergedServiceForwards` | kubeflow-deployments/label-issues-0409/.cache/master/components/notebook-controller/pkg/controller/notebook/notebook_controller.go:334-369 | written out: the converged service forwards port 80 to the converged set's first container port and selects by the notebook's name |
| `NotebookController.MappingRoutesThePrefix` | kubeflow-deployments/label-issues-0409/.cache/master/components/notebook-controller/pkg/controller/notebook/notebook_controller.go:343-356 | split into lines, the mapping annotation routes and rewrites the very path that NB_PREFIX holds, to the notebook's service |
| `NotebookController.StatusAfterCleanPass` | kubeflow-deployments/label-issues-0409/.cache/master/components/notebook-controller/pkg/controller/notebook/notebook_controller.go:219-261 | the conditions, ready replicas and container state after a clean pass |
| `NotebookController.ObjectsKeepWhatIsNotOwned` | kubeflow-deployments/label-issues-0409/.cache/master/components/notebook-controller/pkg/controller/notebook/notebook_controller.go:163-217 | under any faults, a set that was there keeps selector, pod labels and replicas, and a service its cluster address; a set that appears has the generated selector and labels |
| `NotebookController.EmptyPortListPanics` | kubeflow-deployments/label-issues-0409/.cache/master/components/notebook-controller/pkg/controller/notebook/notebook_controller.go:335-338 | the failing input: an empty port list that is not nil; the set is created, and this pass and every later one panic on the service |
| `NotebookController.SecondPassChangesNothing` | kubeflow-deployments/label-issues-0409/.cache/master/components/notebook-controller/pkg/controller/notebook/notebook_controller.go:149-264 | a second clean pass leaves the whole cluster unchanged |
| `NotebookController.ConvergesAfterFaults` | kubeflow-deployments/label-issues-0409/.cache/master/components/notebook-controller/pkg/controller/notebook/notebook_controller.go:149-264 | after any number of faulty passes one clean pass reaches what the original spec asks for: what the user wrote is kept, what is missing filled in, and NB_PREFIX with its path appended once |
| `NotebookController.GeneratedPairAgrees` | kubeflow-deployments/label-issues-0409/.cache/master/components/notebook-controller/pkg/controller/notebook/notebook_controller.go:266-371 | the service targets the first container port and uses the set's selector, which selects the pods if and only if POD_LABELS does not finally set `statefulset` to another value |
| `PatchOrCreate.ApiServer.Request` | kubeflow-deployments/label-issues-0409/.cache/master/bootstrap/pkg/utils/k8utils.go:98-196 | an answer without error means the request took effect last, among any other writers; after an error the resource is as the others left it, unless only the acknowledgement was lost; a server may refuse every patch sent without a name |
| `PatchOrCreate.PatchOrCreate` | kubeflow-deployments/label-issues-0409/.cache/master/bootstrap/pkg/utils/k8utils.go:199-231 | every request the call sends is the one the protocol machine asks for, and nil means the resource holds the data |
| `PatchOrCreate.DeleteResource` | kubeflow-deployments/label-issues-0409/.cache/master/bootstrap/pkg/utils/k8utils.go:124-170 | delete, then poll until the resource is gone; `not found` on the delete counts as success |
| `PatchOrCreate.RecreatesOnlyWhatIsGone` | kubeflow-deployments/label-issues-0409/.cache/master/bootstrap/pkg/utils/k8utils.go:224-229 | the last resort creates only after the server has answered that the resource is not found |
| `PatchOrCreate.FailedLooksEndTheCall` | kubeflow-deployments/label-issues-0409/.cache/master/bootstrap/pkg/utils/k8utils.go:211-227 | a failing look in a retry, or a failing deletion, ends the call with its error |
| `PatchOrCreate.BoundedWrites` | kubeflow-deployments/label-issues-0409/.cache/master/bootstrap/pkg/utils/k8utils.go:199-231 | no call sends more than five writes before its deletion, one deletion, and one creation after it |
| `PatchOrCreate.WritesCarryTheData` | kubeflow-deployments/label-issues-0409/.cache/master/bootstrap/pkg/utils/k8utils.go:199-231 | all that is ever written is the data |
| `PatchOrCreate.NilMeansLastWriteAccepted` | kubeflow-deployments/label-issues-0409/.cache/master/bootstrap/pkg/utils/k8utils.go:199-231 | nil if and only if the last request was an accepted create or patch with the data |
| `PatchOrCreate.HiddenReasonsDisableRetries` | kubeflow-deployments/label-issues-0409/.cache/master/bootstrap/pkg/utils/k8utils.go:172-196 | with errors wrapped as they are, a call is always one get and one write: conflict retries and delete-then-create never happen |
| `PatchOrCreate.KeptReasonsRetryConflicts` | kubeflow-deployments/label-issues-0409/.cache/master/bootstrap/pkg/utils/k8utils.go:211-229 | with reasons kept, every write that meets a conflict is followed by a new look, four times, and the fifth by the deletion |
| `PatchOrCreate.ConflictsReturned` | kubeflow-deployments/label-issues-0409/.cache/master/bootstrap/pkg/utils/k8utils.go:211-229 | so with reasons kept a conflict is only returned by a look, by the deletion, or by the creation after it |
| `PatchOrCreate.HiddenReasonsMatterExactly` | kubeflow-deployments/label-issues-0409/.cache/master/bootstrap/pkg/utils/k8utils.go:211-229 | a call of the code as it stands ends where the intended protocol would, with nil or an error alike, if and only if its one write was not answered with a conflict, an invalid object or an unsupported method |
| `PatchOrCreate.NilWithoutPatches` | kubeflow-deployments/label-issues-0409/.cache/master/bootstrap/pkg/utils/k8utils.go:98-122 | on a server that refuses patches without a name, nil means an accepted create, and with reasons hidden a resource that was found is never updated |
| `PatchOrCreate.OneConflictTellsThemApart` | kubeflow-deployments/label-issues-0409/.cache/master/bootstrap/pkg/utils/k8utils.go:211-220 | one conflict: retried and cured with reasons kept, reported as failure as the code stands |
| `ComponentApply.SizeTest` | kubeflow-deployments/label-issues-0409/.cache/master/bootstrap/pkg/kfapp/ksonnet/ksonnet.go:177-179 | the size test holds if and only if the names are distinct and all have succeeded (a cardinality argument) |
| `ComponentApply.Apply` | kubeflow-deployments/label-issues-0409/.cache/master/bootstrap/pkg/kfapp/ksonnet/ksonnet.go:161-195 | at most seven rounds; nil if and only if the names are distinct and each succeeded in one of them; stops in the first such round; attempts are exactly those of names not yet done, in order (the server's loop is the same) |
| `ComponentApply.AppliedAtMostOnce` | kubeflow-deployments/label-issues-0409/.cache/master/bootstrap/cmd/bootstrap/app/ksServer.go:1104-1112 | after a name succeeded it is never applied again |
| `ComponentApply.RepeatedNameNeverSucceeds` | kubeflow-deployments/label-issues-0409/.cache/master/bootstrap/cmd/bootstrap/app/ksServer.go:1117-1120 | a repeated name makes the call fail whatever the outcomes |
| `DeployAccounting.CheckDeploymentFinished` | kubeflow-deployments/label-issues-0409/.cache/master/bootstrap/cmd/bootstrap/app/ksServer.go:1188-1222 | the counters raised and the error, for all sequences of sixty polls |
| `DeployAccounting.VerdictFromIsVerdict` | kubeflow-deployments/label-issues-0409/.cache/master/bootstrap/cmd/bootstrap/app/ksServer.go:1195-1220 | polling is decided by the first poll that reports done, else by the last; an exhausted wait is an error if and only if the last poll failed |
| `DeployAccounting.FinishDeployment` | kubeflow-deployments/label-issues-0409/.cache/master/bootstrap/cmd/bootstrap/app/ksServer.go:1224-1287 | the counters of the background half of a request |
| `DeployAccounting.Deploy` | kubeflow-deployments/label-issues-0409/.cache/master/bootstrap/cmd/bootstrap/app/ksServer.go:1297-1342 | a request raises exactly the counters of its trace, in order |
| `DeployAccounting.CountedOnce` | kubeflow-deployments/label-issues-0409/.cache/master/bootstrap/cmd/bootstrap/app/ksServer.go:1188-1287 | a finished request adds one to deployReqCounter plus one for every exhausted wait without an error, and its OK if and only if every stage passed |
| `DeployAccounting.LabelsWrittenOut` | kubeflow-deployments/label-issues-0409/.cache/master/bootstrap/cmd/bootstrap/app/ksServer.go:1188-1342 | how often a request raises each label of deployReqCounter, and deploymentFailure, written out by what happened to it |
| `DeployAccounting.OtherCountersWrittenOut` | kubeflow-deployments/label-issues-0409/.cache/master/bootstrap/cmd/bootstrap/app/gcpUtils.go:119 | written out: started once for each accepted insert, requested unless it is the prober, done if in addition every stage passed |
| `DeployAccounting.PendingClusterIsCountedTwice` | kubeflow-deployments/label-issues-0409/.cache/master/bootstrap/cmd/bootstrap/app/ksServer.go:1195-1221 | the failing input: sixty pending polls and stages that pass; one request is counted INTERNAL and then OK |
| `DeployAccounting.CountersAreTotals` | kubeflow-deployments/label-issues-0409/.cache/master/bootstrap/cmd/bootstrap/app/ksServer.go:1188-1342 | in every interleaving of any number of requests a counter is the sum over the requests of what each has raised so far |
| `DeployAccounting.AccountsBalance` | kubeflow-deployments/label-issues-0409/.cache/master/bootstrap/cmd/bootstrap/app/ksServer.go:1216-1218 | at every moment the two INTERNAL counters differ by the requests between their two increments, and done never exceeds requested |
| `DeployAccounting.FinalAccounts` | kubeflow-deployments/label-issues-0409/.cache/master/bootstrap/cmd/bootstrap/app/ksServer.go:1188-1342 | when all decoded requests are over the INTERNAL counters are equal, OK counts the requests whose every stage passed, and all labels together count every request once plus the exhausted waits without an error |
| `FanOut.DocumentStandsAlone` | kubeflow-deployments/label-issues-0409/.cache/master/bootstrap/pkg/utils/k8utils.go:257-318 | one document is decided as if alone in its file if and only if it inherits nothing that matters: no version, metadata or kind that it lacks and that the shared map gives it in a way that changes the decision |
| `FanOut.OneDocument` | kubeflow-deployments/label-issues-0409/.cache/master/bootstrap/pkg/utils/k8utils.go:269-318 | what a file of one document leads to, written out from its fields: the resource with its namespace or `default`, a skip, or a panic |
| `FanOut.DocumentsStandAlone` | kubeflow-deployments/label-issues-0409/.cache/master/bootstrap/pkg/utils/k8utils.go:257-318 | all decisions of a file are those of its documents alone if and only if none inherits anything that matters from the documents before it |
| `FanOut.FieldsAreInherited` | kubeflow-deployments/label-issues-0409/.cache/master/bootstrap/pkg/utils/k8utils.go:257-285 | two documents for which the shared map sends the second under the name of the first, where alone it would crash |
| `FanOut.RunInv` | kubeflow-deployments/label-issues-0409/.cache/master/bootstrap/pkg/utils/k8utils.go:256-362 | the invariant of counter, slots and goroutines in every state of every interleaving |
| `FanOut.CounterIsExact` | kubeflow-deployments/label-issues-0409/.cache/master/bootstrap/pkg/utils/k8utils.go:259-351 | in every state the WaitGroup counter is the number of documents not yet over, and each slot is written and signalled at most once, in this order |
| `FanOut.JoinIsExact` | kubeflow-deployments/label-issues-0409/.cache/master/bootstrap/pkg/utils/k8utils.go:353-362 | once the call has returned every document is over, written and signalled exactly once, and the result is nil if and only if every spawned resource ended without error, else the error of the first that did not |
| `FanOut.NeverStuck` | kubeflow-deployments/label-issues-0409/.cache/master/bootstrap/pkg/utils/k8utils.go:262-362 | until the call returns or panics something can move |
| `FanOut.EveryMoveCounts` | kubeflow-deployments/label-issues-0409/.cache/master/bootstrap/pkg/utils/k8utils.go:262-362 | every move lowers a measure, so every interleaving ends |
| `DeepCopy.CopySlots` | kubeflow-deployments/label-issues-0409/.cache/master/bootstrap/pkg/apis/apps/kfdef/v1alpha1/zz_generated.deepcopy.go:31-38 | a slice of pointers is copied slot by slot: nil stays nil, every other slot gets a cell of its own with the same contents |
| `DeepCopy.DeepCopyInto` | kubeflow-deployments/label-issues-0409/.cache/master/bootstrap/pkg/apis/apps/kfdef/v1alpha1/zz_generated.deepcopy.go:224-249 | for every module tree: the copy shows the same module with nil where it was nil, reaches only cells allocated by the call, none of them twice, and nothing but `out` was written |
| `DeepCopy.DeepCopyModule` | kubeflow-deployments/label-issues-0409/.cache/master/bootstrap/pkg/apis/apps/kfdef/v1alpha1/zz_generated.deepcopy.go:252-259 | nil copies to nil, and every other module to a fresh one |
| `DeepCopy.ShowsOneValue` | kubeflow-deployments/label-issues-0409/.cache/master/bootstrap/pkg/apis/apps/kfdef/v1alpha1/zz_generated.deepcopy.go:224-249 | the value a module shows and the cells it reaches are unique, so the copy's contract determines it |
| `DeepCopy.ShowsExactlyWithoutCycles` | kubeflow-deployments/label-issues-0409/.cache/master/bootstrap/pkg/apis/apps/kfdef/v1alpha1/zz_generated.deepcopy.go:224-249 | a module meets the copy's precondition if and only if neither it nor any module below it lies below itself; so the contract covers all finite acyclic module trees, shared cells included |
| `ConfigCopy.AppConfig.DeepCopyInto` | kubeflow-deployments/label-issues-0409/.cache/master/bootstrap/pkg/apis/apps/kfdef/v1alpha1/zz_generated.deepcopy.go:26-60 | registries behind fresh pointers, four slices with fresh storage, the same contents, nil kept |
| `ConfigCopy.CopyParameters` | kubeflow-deployments/label-issues-0409/.cache/master/bootstrap/config/zz_generated.deepcopy.go:32-48 | the map is fresh, has the same keys and lists, no list is shared with the original or between keys, nil lists stay nil |
| `ConfigCopy.ComponentConfig.DeepCopyInto` | kubeflow-deployments/label-issues-0409/.cache/master/bootstrap/config/zz_generated.deepcopy.go:22-50 | all fields, both slices and the map of lists are copied; nothing but `out` was written |
| `Text.SplitJoin` | kubeflow-deployments/label-issues-0409/.cache/master/components/gatekeeper/auth/AuthServer.go:129 | joining the parts of a split text gives the text back, and no part holds the separator |
| `Text.JoinSplit` | kubeflow-deployments/label-issues-0409/.cache/master/components/notebook-controller/pkg/controller/notebook/notebook_controller.go:344-355 | splitting a joined text gives the parts back when none holds the separator |
| `Gatekeeper.SchemeIgnoresCase` | kubeflow-deployments/label-issues-0409/.cache/master/components/gatekeeper/auth/AuthServer.go:119-122 | the scheme is recognised exactly as the letters of `basic` in any case, and a space |
| `Gatekeeper.AcceptedCredentials` | kubeflow-deployments/label-issues-0409/.cache/master/components/gatekeeper/auth/AuthServer.go:118-140 | credentials are accepted if and only if they are basic ones and decode to the user name, a colon and a matching password without a colon, and the user name has no colon either |
| `Gatekeeper.AuthServer.ServeHTTP` | kubeflow-deployments/label-issues-0409/.cache/master/components/gatekeeper/auth/AuthServer.go:62-115 | the status and the next cookie store, for every request and store, also written out: the two open paths, the redirect of plain http, the lifetime of a new cookie |
| `Gatekeeper.StoreHoldsLatestIssues` | kubeflow-deployments/label-issues-0409/.cache/master/components/gatekeeper/auth/AuthServer.go:174-180 | the store holds exactly the cookies issued, each with twelve hours from its latest issue |
| `Gatekeeper.CookieIsGranted` | kubeflow-deployments/label-issues-0409/.cache/master/components/gatekeeper/auth/AuthServer.go:83-107 | over every run a cookie is stored if and only if some secure request from the login page with correct credentials was issued it, and expires twelve hours after the latest |
| `Gatekeeper.OnlyJustifiedRequestsEnter` | kubeflow-deployments/label-issues-0409/.cache/master/components/gatekeeper/auth/AuthServer.go:62-115 | over every run, past health check and scheme, a request is let in if and only if it asks for the login page, carries correct credentials, or a cookie granted less than twelve hours before |
| `Gatekeeper.CookiesSurvive` | kubeflow-deployments/label-issues-0409/.cache/master/components/gatekeeper/auth/AuthServer.go:174-180 | on a clock that never goes back a cookie once stored stays, and its expiry never moves back |
| `SpawnerForm.MergeImage` | kubeflow-deployments/label-issues-0409/.cache/master/kubeflow/jupyter/ui/default/spawner.py:85-98 | the image: default, form, or form if listed; fails exactly when a read-only image has no list and the form gives one |
| `SpawnerForm.MergeWorkspace` | kubeflow-deployments/label-issues-0409/.cache/master/kubeflow/jupyter/ui/default/spawner.py:116-190 | the workspace volume field by field; fails exactly when it has no default value |
| `SpawnerForm.MergeDataVolumes` | kubeflow-deployments/label-issues-0409/.cache/master/kubeflow/jupyter/ui/default/spawner.py:192-239 | read-only volumes are the defaults with `Gi`, failing exactly when a field is missing; otherwise one volume per counted type key, from the fields numbered 1, 2, … |
| `SpawnerForm.OptionsFromForm` | kubeflow-deployments/label-issues-0409/.cache/master/kubeflow/jupyter/ui/default/spawner.py:80-252 | the whole merge equals the rule: read-only keeps the default, otherwise the form wins where it gives something; with every error in its order |
| `SpawnerForm.BlankKeysKeepTheConfiguredValues` | kubeflow-deployments/label-issues-0409/.cache/master/kubeflow/jupyter/ui/default/spawner.py:85-190 | written out: where the form leaves a key out or blank, every option and workspace field is what is configured, read-only or not, and absent when nothing is |
| `SpawnerForm.FilledKeysWinUnlessReadOnly` | kubeflow-deployments/label-issues-0409/.cache/master/kubeflow/jupyter/ui/default/spawner.py:85-190 | written out: where the form fills a key in, the stripped text wins over a writable or missing value and loses to a read-only one; a read-only image gives way to a listed one |
| `SpawnerForm.DataVolumesWrittenOut` | kubeflow-deployments/label-issues-0409/.cache/master/kubeflow/jupyter/ui/default/spawner.py:192-239 | written out: the fields of every data volume and their number |
| `SpawnerForm.ErrorsWrittenOut` | kubeflow-deployments/label-issues-0409/.cache/master/kubeflow/jupyter/ui/default/spawner.py:80-206 | written out: exactly when a call ends in which error |
| `SpawnerForm.StripTakesBlanks` | kubeflow-deployments/label-issues-0409/.cache/master/kubeflow/jupyter/ui/default/spawner.py:91 | stripping takes blanks off both ends and nothing else |
| `SpawnerForm.OnlyOpenKeysMatter` | kubeflow-deployments/label-issues-0409/.cache/master/kubeflow/jupyter/ui/default/spawner.py:80-252 | two forms that agree on the keys left to the user have the same outcome, errors included |
| `SpawnerForm.ReadOnlyFieldsIgnoreTheForm` | kubeflow-deployments/label-issues-0409/.cache/master/kubeflow/jupyter/ui/default/spawner.py:100-206 | any two accepted forms agree on every read-only option, every workspace field that is read-only on its own or through its volume, and a read-only list of data volumes, and the values are the defaults |
| `SpawnerForm.DataVolumeFlagsAreIgnored` | kubeflow-deployments/label-issues-0409/.cache/master/kubeflow/jupyter/ui/default/spawner.py:207-239 | a field of a default data volume that is read-only on its own keeps its default in every accepted form, or is even only agreed on by all, if and only if the whole list is read-only; for every configuration that accepts some form |
| `SpawnerForm.ReadOnlyNameIsOverridden` | kubeflow-deployments/label-issues-0409/.cache/master/kubeflow/jupyter/ui/default/spawner.py:223-225 | the failing input: a writable list whose only volume has a read-only name; two forms are accepted with two names |
| `SpawnerForm.OpenKeysReachTheOptions` | kubeflow-deployments/label-issues-0409/.cache/master/kubeflow/jupyter/ui/default/spawner.py:80-252 | what a form gives for a writable option is what the options hold |
| `SpawnerForm.ReadOnlyImageIsStandard` | kubeflow-deployments/label-issues-0409/.cache/master/kubeflow/jupyter/ui/default/spawner.py:90-95 | a read-only image is the default or one of those listed |
| `SpawnerForm.UselessConfigurations` | kubeflow-deployments/label-issues-0409/.cache/master/kubeflow/jupyter/ui/default/spawner.py:120-169 | every form fails if and only if the configuration has no defaults key, no default workspace volume, or an incomplete read-only data volume |
| `SpawnerForm.NoWorkspaceDefaultRejectsEveryForm` | kubeflow-deployments/label-issues-0409/.cache/master/kubeflow/jupyter/ui/default/spawner.py:116-169 | the failing input: defaults for an image only, or no configuration at all; every form ends in the unbound variable |
| `VolumeNumbers.VolumeForm.AddVolume` | kubeflow-deployments/label-issues-0409/.cache/master/kubeflow/jupyter/ui/default/script.js:433-585 | a new element carries the next number in class, inputs and button |
| `VolumeNumbers.VolumeForm.RemoveVolume` | kubeflow-deployments/label-issues-0409/.cache/master/kubeflow/jupyter/ui/default/script.js:588-623 | elements with the number start to fade, later ones up to the old counter move up by one in all their parts, including the fading ones; name and path texts are rewritten unless the first element of the number has them fixed (the other page's loop is the same) |
| `VolumeNumbers.RemovalKeepsNumbers` | kubeflow-deployments/label-issues-0409/.cache/master/kubeflow/jupyter/ui/default/script.js:588-623 | from a numbered page a removal keeps the live volumes numbered 1 to the counter if and only if its number lies between 1 and the counter |
| `VolumeNumbers.StepKeepsNumbers` | kubeflow-deployments/label-issues-0409/.cache/master/components/jupyter-web-app/kubeflow_jupyter/default/static/js/add_notebook.js:479-752 | adding, typing and finished fades always keep the numbering; a click keeps it if and only if the clicked button's number is at most the counter |
| `VolumeNumbers.LiveButtonsAreGuarded` | kubeflow-deployments/label-issues-0409/.cache/master/components/jupyter-web-app/kubeflow_jupyter/default/static/js/add_notebook.js:651-656 | the button of a volume that is not fading always passes this guard |
| `VolumeNumbers.RunsKeepNumbers` | kubeflow-deployments/label-issues-0409/.cache/master/kubeflow/jupyter/ui/default/script.js:427-623 | over every guarded run, whatever fades overlap, the live volumes are numbered 1 to the counter |
| `VolumeNumbers.DoubleClickBreaksTheNumbers` | kubeflow-deployments/label-issues-0409/.cache/master/kubeflow/jupyter/ui/default/script.js:588-592 | a double click on the only volume takes the counter to -1, and the next volume gets number 0 |
| `VolumeNumbers.ClickTakesOne` | kubeflow-deployments/label-issues-0409/.cache/master/kubeflow/jupyter/ui/default/script.js:588-603 | a click takes its own volume off the page and no other if and only if that volume was live, or was fading under a number above the counter |
| `VolumeNumbers.SecondClicksHarm` | kubeflow-deployments/label-issues-0409/.cache/master/kubeflow/jupyter/ui/default/script.js:588-603 | every click on a fading volume does harm: it takes a live neighbour, or else it breaks the numbering |
| `VolumeNumbers.DoubleClickTakesTheNeighbour` | kubeflow-deployments/label-issues-0409/.cache/master/kubeflow/jupyter/ui/default/script.js:588-603 | the failing run: two volumes and a double click on the first; the numbering holds and the second volume is gone too |
| `VolumeNumbers.ClickKeepsTheRest` | kubeflow-deployments/label-issues-0409/.cache/master/kubeflow/jupyter/ui/default/script.js:588-623 | a click moves no element and changes no volume's type, size or access mode |
| `VolumeNumbers.TextsSurviveExactly` | kubeflow-deployments/label-issues-0409/.cache/master/kubeflow/jupyter/ui/default/script.js:613-622 | whatever texts the page gives, a click leaves an element's name (or path) if and only if the element is not moved up or the first element of its number has that text fixed |
| `VolumeNumbers.FixedTextsSurvive` | kubeflow-deployments/label-issues-0409/.cache/master/kubeflow/jupyter/ui/default/script.js:613-622 | while nothing fades, no click changes a name or path that the administrator fixed |
| `VolumeNumbers.FadingVolumeUnfixesAName` | kubeflow-deployments/label-issues-0409/.cache/master/kubeflow/jupyter/ui/default/script.js:613-622 | the failing run: two free volumes and a fixed one; removing the second and then the first before the fade ends overwrites the fixed name of the third |
| `VolumeNumbers.FadesOver` | kubeflow-deployments/label-issues-0409/.cache/master/kubeflow/jupyter/ui/default/script.js:589-591 | once the fades are over the elements stand at their numbers |
| `VolumeNumbers.SubmittedAt` | kubeflow-deployments/label-issues-0409/.cache/master/kubeflow/jupyter/ui/default/script.js:449-489 | the form the page submits has, for every number in range, exactly that volume's texts, and no other volume key |
| `VolumeNumbers.SpawnerReadsEveryVolume` | kubeflow-deployments/label-issues-0409/.cache/master/kubeflow/jupyter/ui/default/spawner.py:207-239 | the count-then-range loop reads every volume of the page once, in page order, with its texts |
| `VolumeNumbers.PostDataVolumes` | kubeflow-deployments/label-issues-0409/.cache/master/components/jupyter-web-app/kubeflow_jupyter/default/app.py:71-89 | the while-present loop: mounts, claims and how it ends, for every form |
| `VolumeNumbers.BackendReadsEveryVolume` | kubeflow-deployments/label-issues-0409/.cache/master/components/jupyter-web-app/kubeflow_jupyter/default/app.py:71-89 | on a submitted page that loop mounts the volumes once each in page order and claims storage for exactly the new ones, up to the first it cannot take; it ends well if and only if there is none, else with a bad request or a failed claim |
| `VolumeNumbers.EveryRunIsReadWhole` | kubeflow-deployments/label-issues-0409/.cache/master/kubeflow/jupyter/ui/default/script.js:427-623 | end to end: after any guarded run, once the fades are over, the spawner's loop and the web app's loop both read exactly the volumes on the page, as many as the counter, in page order |
| `TagMove.FindIndices` | kubeflow-deployments/label-issues-0409/.cache/master/releasing/add_image_tag.py:65-73 | both index lists name a version once per matching tag |
| `TagMove.RemoveTag` | kubeflow-deployments/label-issues-0409/.cache/master/releasing/add_image_tag.py:83-84 | removing first occurrences along the index list takes every occurrence of the tag off every version and nothing else |
| `TagMove.MoveTag` | kubeflow-deployments/label-issues-0409/.cache/master/releasing/add_image_tag.py:65-96 | one image: unchanged without a match, retagged with one, an error with more |
| `TagMove.PatternHasTwoHalves` | kubeflow-deployments/label-issues-0409/.cache/master/releasing/add_image_tag.py:53-55 | a pattern is accepted if and only if it is two expressions that compile with one colon between them |
| `TagMove.PatternHalves` | kubeflow-deployments/label-issues-0409/.cache/master/releasing/add_image_tag.py:53-72 | its first half selects images by name, its second versions by tag |
| `TagMove.ImagesFile.AddImageTag` | kubeflow-deployments/label-issues-0409/.cache/master/releasing/add_image_tag.py:48-99 | the file is written if and only if it lists images, the pattern splits and compiles, and no selected image has more than one match; otherwise it is unchanged; every image becomes what its move says |
| `TagMove.OnlyMatchesMove` | kubeflow-deployments/label-issues-0409/.cache/master/releasing/add_image_tag.py:72-82 | an image counts as unmatched if and only if none of its tags matches, and then stays as it is |
| `TagMove.MoveConserves` | kubeflow-deployments/label-issues-0409/.cache/master/releasing/add_image_tag.py:83-96 | after a move the tag stands exactly once, on the version that matched; digests and, with multiplicity, all other tags are kept |
| `TagMove.MoveAgain` | kubeflow-deployments/label-issues-0409/.cache/master/releasing/add_image_tag.py:65-96 | a second move changes nothing, unless the pattern matches the tag itself and the version lacked it: then it fails |
| `TagMove.SecondMoveFails` | kubeflow-deployments/label-issues-0409/.cache/master/releasing/add_image_tag.py:65-96 | the failing input: one version with one other tag and a pattern that matches everything; the second move fails |

## Left out

- Cloud, Kubernetes, ksonnet and git calls: replaced by small stores and by schedules of outcomes, which the lemmas quantify over.
- Assumptions on the servers: the policy store refuses a set whose policy was read before the last change; reads are current; objects are stored as sent; status writes touch the status only; updates of unnamed or absent objects are refused.
- YAML and JSON parsing, base64, bcrypt, regular expressions, random cookie values and clock readings: parameters or parsed data.
- IamRewrite.ClearIamPolicy: bindings are values, so pointers to one binding shared by two policies are not modelled; the code never shares any.
- IamRewrite.EmitBindings: Go's map order is any order, so results are stated on grants, one binding per role, and no member twice.
- IamRewrite.DictToPolicy: a role left without members keeps an empty binding in all three implementations; whether the cloud accepts it is not modelled.
- IamApply.UpdateDM: nobody else writes the policy between the two phases. For the server this is what its lock gives, people outside apart (`ServerLocks.RequestsActAlone`); for kfctl it is an assumption.
- ServerLocks.RunInv: the work of a request is reduced to its edit and its number of tries; credentials and cluster configuration are not modelled. Fairness is not needed, as every run is bounded.
- ProfileController.Reconcile: the rules of the generated role are a non-empty parameter; owner references are not modelled.
- NotebookController.CopyStatefulSetFields: pod template labels and replicas are not owned by the copy, so their drift is not repaired; the model keeps them as they are, like the code.
- NotebookController.Reconcile: container states are opaque; two with contents never compare equal, as the code compares pointers inside them.
- PatchOrCreate.PatchOrCreate: client construction errors and backoff times are not modelled.
- FanOut.JoinIsExact: a document whose decoding fails after changing part of the shared map, and explicit nulls, are not modelled; the retry around each resource is one result per document.
- FanOut.DocumentsStandAlone: decisions are compared for every document, also behind one that panics, where the loop no longer gets.
- DeployAccounting.Deploy: latency histograms and heartbeats are left out; a failure to load the deployment configuration is overwritten by the next error in the code, and so has no outcome of its own.
- DeployAccounting.FinalAccounts: requests whose body does not decode raise deployReqCounter{INVALID_ARGUMENT} before the endpoint (ksServer.go:1364-1371); the totals are about decoded requests.
- DeployAccounting.InsertDeployment: building and submitting the deployment is one outcome of three.
- DeepCopy.DeepCopyInto: a slice is its elements; capacity and offsets into a larger array are not modelled.
- Gatekeeper.AuthServer.ServeHTTP: requests are handled one at a time; the cookie map is read without its lock in the code, and that race is not modelled.
- SpawnerForm.OptionsFromForm: configured values are strings and settings are mappings; numbers, nulls and nested values in their place are not modelled. Only the first value of a form key is read, and every key has one. Blanks are the ASCII ones.
- VolumeNumbers.VolumeForm.AddVolume: default texts and autofill by existing claims come in as a parameter. Submitting while a volume is still fading is not modelled.
- TagMove.ImagesFile.AddImageTag: images, versions and tags are present and not shared by YAML aliases.
- The registry cache download, `ConfigCluster` and the key secrets: reduced to stages that succeed or fail, and to holders of the project lock.
- The remaining generated copies, list generators, kpt and kustomize scripts: repeats or plumbing that would add easy members only.
