# Verified model of the kcp integration controllers

This project models the controllers of kcp-integration in Dafny and proves what they promise
together. The repository is a chain of level-triggered controllers:

- an organization workspace that is Ready gets a hub controller (`orgworkspace.go`);
- a hub workspace that is Ready gets five objects on the management cluster, among them a
  ClusterManager and two NodePort services (`hubworkspace.go`, `helpers.go`);
- once an operator reports on the ClusterManager, four webhook configurations are applied inside the
  workspace, and the workspace is told so (`clustermanager.go`);
- then the CSR and cluster controllers of the workspace start, and the first of them signs client
  certificates (`signer.go`, `ca.go`).

## How the model is laid out

| file | what it holds |
|---|---|
| `KeyUsages.dfy` | usage strings to key usage mask and extended key usages, with the in-place sort |
| `Signing.dfy` | lifetime, validity window, certificate template, `Sign` |
| `CsrObjects.dfy` | signing requests, the gate, gate and translator together |
| `CsrProtocol.dfy` | the signing controller as a state machine over a lagging cache and conditional writes |
| `CsrSafety.dfy` | what holds over every run of that state machine |
| `CsrFailures.dfy` | how many failures a request with bad usages collects, attempt by attempt and round by round |
| `CsrProgress.dfy` | a request that can be signed can always get its certificate |
| `CsrController.dfy` | the signing controller as a class, tied to the state machine |
| `Conditions.dfy` | the condition upsert, and the condition derived from a cluster manager |
| `Naming.dfy` | manager names and the workspace annotation |
| `ObjectStore.dfy` | API server objects, `ApplyObjects` |
| `Manifests.dfy` | the rendered hub objects and webhook configurations |
| `NodePorts.dfy` | retrying until both services hold a port |
| `Workspaces.dfy` | the two workspace controllers as classes, and the ports they propose |
| `ClusterManagers.dfy` | the cluster manager controller as a class |
| `Pipeline.dfy` | all controllers and the outside world as one state machine, each sync cut into its API calls |
| `Causality.dfy` | what must have happened before the controllers of a workspace run |
| `Agreement.dfy` | webhooks call the ports their services hold; the informed workspace is the manager's creator; what each needs others to leave alone |
| `Clashes.dfy` | what a shared manager name means for whole runs |
| `Deliveries.dfy` | which CA bundle and port a webhook carries |
| `Retries.dfy` | retrying inside whole runs, with everything else going on in between |
| `Convergence.dfy` | what is started depends on the final objects, not on the order of events |
| `Progress.dfy` | from every prepared state the run can go on to launch the controllers |
| `Syncs.dfy` | an undisturbed pass of the state machine is what the classes' methods do |

Objects that the code updates in place are classes whose methods are proved against specification
functions; the state machines and the lemmas use the same functions. A run is a sequence of states
and labels. A lagging informer is modelled by letting a controller see the version of any earlier state
(`Pipeline.dfy`), or by delivering any stored version at any time (`CsrProtocol.dfy`).

## Assumptions

- The API server refuses a status write whose resource version is stale, resource versions are never
  reused, a request's spec is immutable, and only this controller writes certificates. Everyone else may
  create, relabel, approve, deny and delete requests at any moment, and any write may fail.
- The API promises at most one condition of a type on a signing request
  (`vendor/k8s.io/api/certificates/v1/types.go:246`). Whether the server enforces that is a parameter of
  `CsrProtocol.dfy`: a strict server refuses a status write or an edit that breaks it, a lax one takes it. All
  results hold for both unless they say otherwise.
- The outside world of `Pipeline.dfy` changes workspaces, objects and clusters at will, and the process may start
  when all of them are there already. Results about one workspace ask others to leave alone what they are about,
  and nothing else: that nobody else sets this workspace's ClusterManagerApplied condition to True (`MarkLeft`),
  annotates a manager with it (`IdLeft`), deletes one of its services or changes its port (`ServiceLeft`),
  configures one of its webhooks (`HookLeft`), or deletes its manager (`ManagerLeft`).
- In `NodePorts.dfy` all other applies succeed, and no one else takes ports in between; the bound there also
  assumes that the proposals stay within the NodePort range. `Retries.dfy` drops the first two: there any step may
  come between two offers, services of others coming and going included, as long as the workspace's own two,
  once there, are left alone.
- Clocks, random numbers, key files, client construction and the outcome of each API call are parameters.

## What turned out different from the expectation

- A longer request does not always get a longer certificate: `EndInversion` gives the exact condition.
- The workspace is told True as soon as the operator reports any Applied condition, even False. The branch
  for a False status (`clustermanager.go:118`) is dead. See `AppliedConditionNeverFalse` and `FailedReportToldTrue`.
- A request with bad usages may end up with several Failed conditions, because a landed rejection does not stop
  the next one: on a lax server every delivery of the new version brings one more, without any refused write.
  `RoundsAdd` counts them: they grow exactly while the gate rejects the request, so at most one failure in every
  run is what a strict server gives and a lax one does not (`AtMostOneFailedIffStrict`). On a strict server a
  refused write has its price: the object in memory is stuck until it is delivered anew (`StuckOnceRefused`).
- Organization and workspace names with dashes can share a manager name: workspace `c` of `a-b`, and `b-c` of `a`
  (`ManagerNameClashWitness`; `ManagerNameClash` says exactly which pairs do). The later workspace then replaces
  the kubeconfig of the earlier one (`ClashTakesKubeconfig`), and its own controllers never start
  (`OthersNeverStart`).
- The port counters only grow, so the retry for the two services need not end. It ends exactly when two ports are
  left above the registration counter, one of them above the work counter (`RetryEndsIff`); ten ports before the
  counter itself runs out nothing helps (`ExhaustedForever`).
- Applying can lose an object: a secret that is immutable, or of another type, is deleted before it is created
  anew, and the create may fail (`ApplyAllKeeps`, `KubeconfigLost`).
- A clean pass does not bring every object up to date: it does exactly for those that were missing or that it does
  not leave alone (`CleanPassRendersIff`). A webhook configuration that exists is never rewritten, so it keeps the
  CA bundle and the port read by the pass that created it (`PassDeliversIff`, `WebhookCarriesItsRead`); that the
  ports agree all the same rests on the services keeping theirs.

## Model

| member | source | states |
|---|---|---|
| KeyUsages.TranslateMeaning | pkg/controllers/workspace/csr/ca.go:186-211 | Translation fails exactly on a list with a usage in neither dictionary; otherwise it is the only value whose bits, and whose strictly ascending codes, are those the list asks for |
| KeyUsages.TranslateCanonical | pkg/controllers/workspace/csr/ca.go:186-211 | Lists with the same set of usages fail together or give identical results |
| KeyUsages.MaskBits | pkg/controllers/workspace/csr/ca.go:154-165 | A key usage bit is set exactly when some usage of the list maps to it, and no bit outside the nine is ever set |
| KeyUsages.KeyUsageRows | pkg/controllers/workspace/csr/ca.go:154-165 | The dictionary gives every key usage the bit of section 4.2.1.3 of RFC 5280 |
| KeyUsages.ExtUsageRows | pkg/controllers/workspace/csr/ca.go:167-181 | The thirteen extended key usages and their codes; S/MIME shares that of email protection |
| KeyUsages.UnrecognizedInOrder | pkg/controllers/workspace/csr/ca.go:186-209 | The usages that are in neither dictionary are reported in the order of the list |
| KeyUsages.SortExtUsages | pkg/controllers/workspace/csr/ca.go:213-225 | The in-place sort by swaps leaves a sorted permutation |
| KeyUsages.CollectUsages | pkg/controllers/workspace/csr/ca.go:186-198 | One pass collects the bits, the set of codes, and the unknown usages in order |
| KeyUsages.KeyUsagesFromStrings | pkg/controllers/workspace/csr/ca.go:186-211 | The algorithm returns the translation whatever order the code set is iterated in |
| Signing.GrantedTtlRange | pkg/controllers/workspace/csr/signer.go:208-226 | In nanoseconds: a request between 10 minutes and 30 days is granted as asked, a smaller or larger one the nearer end, none 30 days |
| Signing.ValidityWindow | pkg/controllers/workspace/csr/ca.go:108-152 | The policy accepts exactly while now precedes the CA expiry, says which expiry error otherwise, and what it accepts is valid from five minutes before now, ends after now and by the CA expiry, lives at most 30 days, and at least 15 minutes unless cut short |
| Signing.EndExactly | pkg/controllers/workspace/csr/ca.go:130-141 | The granted lifetime ends the certificate, five minutes early from eight hours on, unless the CA ends it first |
| Signing.EndInversion | pkg/controllers/workspace/csr/ca.go:130-141 | A longer request ends earlier exactly when it crosses eight hours by less than the backdate and the CA does not cut it off |
| Signing.EndInversionWitness | pkg/controllers/workspace/csr/ca.go:132-137 | One second more than 7:59:59 costs all but a second of five minutes |
| Signing.EndNearMonotone | pkg/controllers/workspace/csr/signer.go:208-226 | A longer request ends at most the backdate earlier; within one regime, or against no request at all, never earlier |
| Signing.Apply | pkg/controllers/workspace/csr/ca.go:108-152 | Overwriting the template field by field ends in the policy's outcome, error or template |
| Signing.Sign | pkg/controllers/workspace/csr/ca.go:31-66 | Checks, template, policy and creation succeed or fail as specified, in that order |
| Signing.SignMeaning | pkg/controllers/workspace/csr/ca.go:31-66 | Which error signing ends in, from the first check that does not hold; what is signed means the policy's usages, keeps the identity, and carries no extension of the request's |
| CsrObjects.IsApproved | pkg/controllers/workspace/csr/signer.go:241-251 | True exactly when some condition approves and none denies, in any order |
| CsrObjects.ValidateClientUsages | pkg/controllers/workspace/csr/signer.go:278-294 | No complaint exactly for client usages that include client authentication; else the first foreign usage, or the missing one |
| CsrObjects.GatedUsagesTranslate | pkg/controllers/workspace/csr/signer.go:278-294 | Whatever the gate accepts translates to client authentication alone, with no bit but digital signature and key encipherment, each exactly when asked for |
| CsrObjects.GatedCertificate | pkg/controllers/workspace/csr/ca.go:45-59 | Behind the gate signing succeeds exactly for a valid request under an unexpired CA, and yields a non-CA client certificate with the request's identity, no copied extension, each of the two key usage bits exactly when asked for and no other, and the policy's window |
| CsrObjects.ComplaintSays | pkg/controllers/workspace/csr/signer.go:278-294 | The complaint names the first foreign usage, or client authentication when only that is missing |
| CsrProtocol.StepKeepsInv | pkg/controllers/workspace/csr/signer.go:69-148 | Every step of the server, the informer and the controller keeps the protocol's invariant |
| CsrProtocol.SpoiledSameVerdict | pkg/controllers/workspace/csr/signer.go:106-113 | Failures appended in place change neither the approval nor the verdict |
| CsrProtocol.AcceptSigns | pkg/controllers/workspace/csr/signer.go:125-140 | The signed copy differs from the server's version in the certificate alone |
| CsrSafety.SigningWriteIsGated | pkg/controllers/workspace/csr/signer.go:81-143 | In every run a certificate changes only by a landed write, on a server copy that at that moment has the cluster label, an approval, no denial, no certificate, the API server client signer and client usages; nothing else of it changes, and what is written is what the CA issued for it at the instant of an earlier decision |
| CsrSafety.SignedAtMostOnce | pkg/controllers/workspace/csr/signer.go:94-98 | In every run the certificate of one request is written at most once |
| CsrSafety.EveryCertificateIsIssued | pkg/controllers/workspace/csr/signer.go:134-140 | Every certificate on the server is a client certificate issued by the CA the controller holds, for its own spec, at the instant its validity counts from |
| CsrSafety.CaKept | pkg/controllers/workspace/csr/signer.go:150-185 | Once loaded, the CA is the same for the rest of the run |
| CsrSafety.FailingWrite | pkg/controllers/workspace/csr/signer.go:106-119 | The controller changes conditions only by appending failures, with their reason and complaint, and only to a request that all but its usages would let it sign |
| CsrSafety.NeverFailedAndSigned | pkg/controllers/workspace/csr/signer.go:106-123 | No request is both failed and signed by the controller, in either order |
| CsrSafety.RequestContinues | pkg/controllers/workspace/csr/signer.go:94-98 | What a state shows of a request, its spec and a certificate once there, every later state continues |
| CsrSafety.MemoryDecidesAsServerVersion | pkg/controllers/workspace/csr/signer.go:72-107 | Every cached object is an earlier server version plus failures for bad usages, and decides as that version |
| CsrSafety.UndisturbedSync | pkg/controllers/workspace/csr/signer.go:69-148 | An undisturbed sync signs exactly the signable request it has read at the server's version, when the CA it holds, or else the one it can load, can issue the certificate |
| CsrSafety.UndisturbedCertificate | pkg/controllers/workspace/csr/signer.go:134-140 | It then carries a client certificate of that CA for its own spec at that instant |
| CsrProgress.SignableGetsSigned | pkg/controllers/workspace/csr/signer.go:69-148 | From every reachable state a live signable request that the held CA, or else the one that can be loaded, can issue a certificate for can get it in what follows, whatever the controller is in the middle of |
| CsrProgress.FirstCertificate | pkg/controllers/workspace/csr/signer.go:125-185 | From the very start, with no CA loaded, a well-formed request that is created and approved can get its certificate |
| CsrFailures.RejectionLandsIff | pkg/controllers/workspace/csr/signer.go:106-119 | A rejection of the current version lands exactly when the server takes one more failure on the object in memory, and brings everything that object has gathered |
| CsrFailures.LandedBringsRefused | pkg/controllers/workspace/csr/signer.go:106-119 | On a lax server the landed write brings one failure for each refused one before it, and one more |
| CsrFailures.StuckOnceRefused | pkg/controllers/workspace/csr/signer.go:106-119 | On a strict server, after one refused write no later write of that object lands until it is delivered anew |
| CsrFailures.RoundsAdd | pkg/controllers/workspace/csr/signer.go:69-123 | Any number of rounds of delivery and sync add failures exactly if the gate rejects the request: one a round on a lax server, one in all on a strict one, none if there was one |
| CsrFailures.StrictFailsOnce | vendor/k8s.io/api/certificates/v1/types.go:243-246 | On a strict server no run ever shows two failures on one request |
| CsrFailures.ManyFailures | pkg/controllers/workspace/csr/signer.go:106-123 | On a lax server there are runs, without a refused write, in which one request shows any number of failures |
| CsrFailures.AtMostOneFailedIffStrict | pkg/controllers/workspace/csr/signer.go:106-123 | At most one failure on a request in every run, if and only if the server is strict |
| CsrController.CsrApiServer.UpdateStatus | pkg/controllers/workspace/csr/signer.go:140-143 | A status write lands exactly when accepted at the current version with conditions the server may store, and stores the status alone |
| CsrController.CsrSigningController.Examine | pkg/controllers/workspace/csr/signer.go:81-106 | The checks in their order, two of them loops, accept exactly the signable requests and reject exactly the misused ones, with their complaint |
| CsrController.CsrSigningController.Fail | pkg/controllers/workspace/csr/signer.go:107-119 | The failure goes onto the shared object itself, and its status is written |
| CsrController.CsrSigningController.Store | pkg/controllers/workspace/csr/signer.go:138-143 | The certificate goes onto a copy; the shared object stays as it was |
| CsrController.CsrSigningController.InitCA | pkg/controllers/workspace/csr/signer.go:150-185 | A CA that is there stays; when there is none, the one in the files is loaded |
| CsrController.CsrSigningController.Sync | pkg/controllers/workspace/csr/signer.go:69-148 | One sync does to server, CA field and shared object what an undisturbed pass of the protocol does, with its error |
| CsrController.ResultMeaning | pkg/controllers/workspace/csr/signer.go:69-148 | What the queue is told: nothing for requests that are none of the controller's business and for status writes that landed, else an error that says what failed |
| Conditions.UpsertMeaning | vendor/k8s.io/apimachinery/pkg/api/meta/conditions.go:30-55 | The upsert touches one position, keeps types unique, reports the new condition there, and moves the transition time only with the status |
| Conditions.FirstCounts | vendor/k8s.io/apimachinery/pkg/api/meta/conditions.go:70-95 | A type is true when the first condition of that type is, whatever later ones say |
| Conditions.UpsertChangesIff | pkg/controllers/clustermanager/clustermanager.go:161-168 | The list changes exactly when the first condition of the type is missing or reports something else |
| Conditions.UpsertFixpoint | pkg/controllers/clustermanager/clustermanager.go:161-168 | A second upsert of the same report changes nothing, at any later time |
| Conditions.AppliedConditionNeverFalse | pkg/controllers/clustermanager/clustermanager.go:240-282 | A condition results exactly when the operator reported Applied; it is always True, and which reason and message it has |
| Conditions.FailedReportToldTrue | pkg/controllers/clustermanager/clustermanager.go:249-257 | A report that Applied is False becomes a condition that is True |
| Conditions.SetStatusCondition | pkg/controllers/clustermanager/clustermanager.go:163-164 | The array algorithm revises in place or grows a fresh list, as the upsert says |
| Conditions.IsClusterManagerApplied | pkg/controllers/clustermanager/clustermanager.go:240-282 | Filling the condition along the branches gives the derived condition |
| Naming.SplitMeaning | pkg/controllers/clustermanager/clustermanager.go:107 | The parts contain no separator and join back to the string |
| Naming.AnnotationRoundTrip | pkg/controllers/workspace/manifests/hub/cluster-manager.yaml:6 | Splitting the rendered annotation gives back the two names exactly when neither holds a colon |
| Naming.ManagerNameClash | pkg/controllers/workspace/hubworkspace.go:148 | Two different pairs share a manager name exactly when one organization is the other, a dash and more, and the other's workspace is that more, a dash and its own; never under dash-free organizations |
| Naming.ManagerNameClashWitness | pkg/controllers/workspace/hubworkspace.go:148 | Workspace c of a-b and workspace b-c of a share one |
| Naming.ManagerNamePrefixed | pkg/controllers/clustermanager/clustermanager.go:78-82 | Every generated name passes the event filter |
| ObjectStore.ApplyAllKeeps | pkg/helpers/helpers.go:193-223 | Applying, however it fails, takes no kind, port, URL, annotation or reported condition from any object; it loses an object exactly when that is a secret it has to replace and the server takes the delete but not the create |
| ObjectStore.ApplyOutcome | pkg/helpers/helpers.go:193-223 | When one apply succeeds, and that one which fails changes nothing, but for the secret it may lose |
| ObjectStore.PortsStayInOrder | vendor/github.com/openshift/library-go/pkg/operator/resource/resourceapply/core.go:130-145 | No apply makes two services hold one port, or one outside the node port range |
| ObjectStore.ServiceCreatedIff | vendor/github.com/openshift/library-go/pkg/operator/resource/resourceapply/core.go:130-138 | A missing service is created exactly when its port lies in the node port range and no service holds it |
| Manifests.KubeconfigLost | vendor/github.com/openshift/library-go/pkg/operator/resource/resourceapply/core.go:419-437 | An immutable kubeconfig secret with another kubeconfig is gone after such a pass |
| ObjectStore.CleanPassReachesAll | pkg/helpers/helpers.go:174-226 | After a pass without failures every object is there, of its kind, with the rendered data, selector or spec |
| ObjectStore.CleanPassRendersIff | pkg/helpers/helpers.go:174-226 | After such a pass an object is the rendered one exactly if it was missing before, or nothing that an apply leaves alone stood otherwise |
| ObjectStore.SettledPassWritesNothing | pkg/helpers/helpers.go:247-272 | After a clean pass a further one, though rendered with other ports, writes nothing and reports only failing reads |
| ObjectStore.ApplyObjects | pkg/helpers/helpers.go:174-226 | Every manifest is attempted once, in order; exactly the failed ones are reported, and none means success |
| ObjectStore.ApplyClusterManager | pkg/helpers/helpers.go:247-272 | Creates the manager, or replaces its spec alone |
| ObjectStore.ApplySecret | vendor/github.com/openshift/library-go/pkg/operator/resource/resourceapply/core.go:339-437 | Creates or updates a secret, or deletes it and creates it anew when its type or its immutability stands in the way, and fails as the server does |
| ObjectStore.ApplyResource | vendor/github.com/openshift/library-go/pkg/operator/resource/resourceapply/core.go:130-177 | Creates an object that is no secret unless refused; an existing service gets the rendered selector, if the write succeeds, and keeps its port |
| Manifests.ClashTakesKubeconfig | pkg/controllers/workspace/hubworkspace.go:140-164 | Under a name clash the later sync replaces the earlier workspace's kubeconfig, and the manager keeps naming the earlier one and what was reported on it |
| Manifests.HubManifestsRendered | pkg/controllers/workspace/manifests/hub/external-hub-kubeconfig-secret.yaml:1-8 | The five rendered objects of a hub, with their names, namespaces, ports, selectors and annotation |
| Manifests.WebhookRows | pkg/controllers/clustermanager/manifests/cluster-manager-work-webhook-validatingconfiguration.yaml:1-10 | The four webhook configurations; only the one for manifest works calls the work service |
| Manifests.InputKeys | pkg/controllers/clustermanager/clustermanager.go:188-207 | Which config map and which two services a webhook pass reads |
| NodePorts.AttemptEffect | pkg/controllers/workspace/hubworkspace.go:137-164 | What an attempt does to the two services and the taken ports, each service decided on its own |
| NodePorts.ServedExactly | pkg/controllers/workspace/hubworkspace.go:137-164 | After any number of attempts the work service holds the least port that was free among those offered to it, the registration service the least that is then left among its own, and neither is there otherwise |
| NodePorts.RetryEndsIff | pkg/controllers/workspace/hubworkspace.go:137-164 | Some number of attempts gives a workspace both services exactly when two free ports are left above the registration counter, one of them above the work counter |
| NodePorts.BothServicesWithinBound | pkg/controllers/workspace/hubworkspace.go:137-164 | A workspace without services has both within the number of taken ports plus two attempts |
| NodePorts.BoundIsTight | pkg/controllers/workspace/hubworkspace.go:137-154 | One attempt fewer is not enough when exactly the next ten ports are taken |
| NodePorts.ExhaustedForever | pkg/controllers/workspace/hubworkspace.go:137-138 | Once the work counter has reached the last node port no number of attempts yields both services |
| Retries.OffersIncrease | pkg/controllers/workspace/hubworkspace.go:137-154 | In every run each offer of a port to a service is above all earlier ones, whatever its controller syncs in between |
| Retries.DeclinedIsTaken | pkg/controllers/workspace/hubworkspace.go:140-164 | A healthy offer within the range leaves a service missing only when that very port is taken |
| Retries.ServiceGranted | pkg/controllers/workspace/hubworkspace.go:137-164 | In every run, one healthy offer more than others hold ports, and one of the offers was good |
| Retries.BothServicesGranted | pkg/controllers/workspace/hubworkspace.go:137-164 | In every run in which the workspace's own two services, once there, are neither deleted nor given another port, both are there after as many healthy offers as others ever hold ports plus two, whatever comes between the offers |
| Workspaces.ConsecutiveProposals | pkg/controllers/workspace/hubworkspace.go:137-138 | Consecutive calls propose all different ports exactly up to ten of them |
| Workspaces.HubWorkspaceController.constructor | pkg/controllers/workspace/hubworkspace.go:60-81 | The counters start at 30442 and 30452, nothing is started |
| Workspaces.HubWorkspaceController.PrepareClusterManager | pkg/controllers/workspace/hubworkspace.go:129-165 | Without a kubeconfig does nothing; else takes the next two ports whatever happens, and applies the five objects |
| Workspaces.HubWorkspaceController.StartHubControllers | pkg/controllers/workspace/hubworkspace.go:167-214 | Starts each workspace at most once; a failing client leaves the map unchanged |
| Workspaces.HubWorkspaceController.Sync | pkg/controllers/workspace/hubworkspace.go:95-127 | Applies first, starts only when every apply succeeded and the workspace's copy says applied |
| Workspaces.OrgWorkspaceController.StartHubWorkspaceController | pkg/controllers/workspace/orgworkspace.go:98-140 | Starts each organization at most once; a failing client leaves the map unchanged |
| Workspaces.OrgWorkspaceController.Sync | pkg/controllers/workspace/orgworkspace.go:69-96 | Starts exactly for a ready organization |
| ClusterManagers.PlanMeaning | pkg/controllers/clustermanager/clustermanager.go:101-116 | A sync proceeds exactly for a manager annotated with two colon-free names on which Applied was reported, for that pair and with the derived condition; an annotation of another form is an error, all else is left alone |
| ClusterManagers.SecondUpdateWritesNothing | pkg/controllers/clustermanager/clustermanager.go:142-183 | An update succeeds unless a client, the read or a needed write fails, and writes exactly when the workspace does not show this report yet; then it shows it, and is otherwise as before; repeating it writes nothing |
| ClusterManagers.ClusterManagerController.UpdateWorkspaceStatus | pkg/controllers/clustermanager/clustermanager.go:130-183 | The copy is upserted and written only when it differs |
| ClusterManagers.ClusterManagerController.ApplyWebhooks | pkg/controllers/clustermanager/clustermanager.go:185-238 | With the CA bundle in its config map, both services and the logical cluster there, the four webhooks are applied with the services' ports; else it fails and applies nothing |
| ClusterManagers.ClusterManagerController.Sync | pkg/controllers/clustermanager/clustermanager.go:86-128 | The workspace is told nothing before every webhook is applied |
| Pipeline.StartOnce | pkg/controllers/workspace/hubworkspace.go:167-185 | In every run the recorded names are exactly the started ones, none started twice, at both levels |
| Pipeline.StartedStays | pkg/controllers/workspace/orgworkspace.go:98-114 | What was started stays started, in every later state |
| Pipeline.CountersExactly | pkg/controllers/workspace/hubworkspace.go:78-138 | In every run the two counters of a controller stand exactly as many ports above their start as it has made proposing syncs |
| Pipeline.RunProposalsMeet | pkg/controllers/workspace/hubworkspace.go:137-138 | In every run no two syncs of a controller propose the same registration port, and one's registration port is the other's work port exactly ten syncs later |
| Causality.LaunchedByFinish | pkg/controllers/workspace/hubworkspace.go:116-126 | Controllers start only at the end of a sync that applied everything and whose copy said applied |
| Causality.WorkBegan | pkg/controllers/workspace/hubworkspace.go:99-117 | Such a sync began on a labelled, ready workspace, and what every manifest it has passed without failure asks for was in the store since |
| Causality.ConditionInformed | pkg/controllers/clustermanager/clustermanager.go:175-178 | A True condition goes back to the controller's own update of that workspace |
| Causality.UpdatingHooked | pkg/controllers/clustermanager/clustermanager.go:118-127 | An update goes back to a webhook pass without failure |
| Causality.HookingRead | pkg/controllers/clustermanager/clustermanager.go:188-237 | A webhook pass goes back to three reads, of the CA bundle, the registration and the work service, in this order; it applies what is rendered from them, and every webhook it has passed was in the cluster since |
| Causality.ReadingReported | pkg/controllers/clustermanager/clustermanager.go:90-207 | A sync that is reading goes back to a manager, as some state had it, annotated with the pair and reported on, and to each read it has made, in order |
| Causality.ControllerStarted | pkg/controllers/workspace/orgworkspace.go:73-95 | A hub controller goes back to a sync that saw its organization ready |
| Causality.LaunchExplained | pkg/controllers/workspace/hubworkspace.go:95-127 | Every launch in every run has the whole chain behind it, in order, with the manifests that were applied |
| Agreement.WebhooksCallTheirServices | pkg/controllers/clustermanager/clustermanager.go:199-227 | The URL of every webhook found in a workspace names the port its service holds, then and in every later state |
| Agreement.AgreementHolds | pkg/controllers/clustermanager/clustermanager.go:199-237 | In every reachable state a pair's managers carry its own name and its webhooks agree with its services, if they did when the process started |
| Agreement.ServiceKeptInRun | vendor/github.com/openshift/library-go/pkg/operator/resource/resourceapply/core.go:148-164 | A service that nobody else deletes or re-ports keeps its port through the run, whatever is rendered |
| Agreement.OwnManagersHold | pkg/helpers/helpers.go:247-272 | Where nobody else annotates managers with a pair, those annotated with it bear the name rendered for it in every state |
| Agreement.AnnotationCreated | pkg/helpers/helpers.go:247-259 | There, a manager annotated since the process started was created by its own workspace's sync, under the name rendered for it |
| Agreement.InformedIsCreator | pkg/controllers/clustermanager/clustermanager.go:101-127 | Where nobody else annotates managers with a pair, the workspace whose status is updated is the one whose sync created the manager |
| Agreement.OwnLaunchExplained | pkg/controllers/workspace/hubworkspace.go:95-127 | There, the chain behind a launch goes through the manager rendered for the very workspace |
| Clashes.OneInformedPerName | pkg/controllers/clustermanager/clustermanager.go:101-127 | Of two workspaces that share a manager name, which nobody else deletes or annotates with them, at most one is ever informed |
| Clashes.OthersNeverStart | pkg/controllers/workspace/hubworkspace.go:148-151 | Once a sync has created a manager that nobody else deletes, no other workspace of that name ever gets its controllers, unless others annotate or mark it |
| Deliveries.PassDeliversIff | vendor/github.com/openshift/library-go/pkg/operator/resource/resourceapply/admissionregistration.go:95-133 | In every run a pass brings the CA bundle and port it has read into a webhook exactly if that was missing or already the same |
| Deliveries.WebhookOrigin | pkg/controllers/clustermanager/clustermanager.go:217-237 | A webhook that nobody else configures was there as it is when the process started, or a pass that found none created it as it is |
| Deliveries.WebhookCarriesItsRead | pkg/controllers/clustermanager/clustermanager.go:188-227 | Such a webhook carries, at any time, the CA bundle and the port of its own service, registration or work, that the pass which created it had read |
| Convergence.StartedIsWanted | pkg/controllers/workspace/hubworkspace.go:109-126 | If readiness never goes backwards, nothing is started that the final objects do not call for |
| Convergence.WantedIsStarted | pkg/controllers/workspace/hubworkspace.go:109-126 | After a failure-free sync of every final object, everything called for is started |
| Convergence.OrderIndependence | pkg/controllers/workspace/orgworkspace.go:69-96 | Two such runs with the same final wishes start the same controllers, whatever the order of events |
| Progress.PreparedLaunches | pkg/controllers/workspace/hubworkspace.go:95-127 | From every reachable state with a ready organization, a labelled ready workspace, its logical cluster, a manager reported on and its inputs, the run can go on, by one healthy sync of each, to launch the controllers |
| Syncs.UndisturbedHubSync | pkg/controllers/workspace/hubworkspace.go:95-165 | Undisturbed, the state machine's hub sync ends in the ports, objects and launches of the method |
| Syncs.UndisturbedManagerSync | pkg/controllers/clustermanager/clustermanager.go:118-127 | Undisturbed, the state machine's manager sync ends in the webhooks and the status of the method, and in neither when the logical cluster does not exist |

## Left out

- Parsing and checking of X.509, PEM and key files, and serial numbers: library cryptography, treated as parameters that may fail.
- Client construction, informer factories, goroutines, leader election and flags: wiring.
- The cancel functions in the start-once maps: nothing ever calls them, so the maps are modelled by their keys.
- YAML templating and JSON conversion: objects are datatypes, and a condition's time keeps its full precision.
- `managedcluster.go`: a thin apply wrapper; its bindings do not name the cluster, so the last synced cluster replaces the others.
- ConfigMap, ClusterRole and ClusterRoleBinding applies, and label or annotation merging by the apply library: no controller modelled here relies on them.
- A created namespace as a condition for creating objects inside it: covered by writes that may fail.
- Deletion of workspaces and cluster managers by the controllers: not implemented by the code.
- A workspace changing between the read and the update of its status: the update is then refused, which is one of its failures, so both are one step.
- A condition's `status` on a signing request: the code looks at the type alone.
- Overflow of instants: instants are unbounded; that 32-bit seconds fit a 64-bit duration is proved.
- ObjectStore.ApplySecret: a secret is rendered with a type other than that of service account tokens, as the only one here is.
- ObjectStore.ApplyResource: a service is of type NodePort; one of another type under the same name, and merging of labels and annotations, are not part of this model.
- Failing of an apply because an object under the rendered name is of another kind: cannot happen on an API server, and counts as a failure here.
