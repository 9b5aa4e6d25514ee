# Verified model of the Cluster API provider for Vultr

The provider reconciles `VultrMachine`, `VultrBareMetalMachine` and `VultrCluster` objects against the Vultr API: it finds,
adopts, creates, registers and deletes servers, over an API that can fail after it has acted, answer 404 or an empty 200,
and go on listing servers that are gone. This project models that behaviour in Dafny and proves what holds of it in every
run. `dafny verify dfyconfig.toml` checks everything.

## How the model is laid out

| file | what it holds |
|---|---|
| `Options.dfy`, `Strings.dfy`, `ProviderID.dfy`, `Tags.dfy`, `Search.dfy` | the strings that identify servers and the paged ownership search |
| `Machines.dfy` | one reconcile pass as an automaton: the code between one API call and the next |
| `Protocol.dfy` | the world: stored objects, servers of the account, passes under way; events, runs, reachable states |
| `Invariants.dfy`, `Uniqueness.dfy`, `Isolation.dfy`, `Orphans.dfy`, `Lifecycle.dfy`, `Readiness.dfy`, `Provisioning.dfy` | safety in every run |
| `Progress.dfy`, `Reports.dfy`, `Removals.dfy` | what passes report and why: readiness, every reason of the Ready condition, the end of a deletion |
| `Convergence.dfy`, `Interleaving.dfy`, `Cleanup.dfy` | deletion comes to an end and leaves nothing behind |
| `Sessions.dfy`, `VultrMachineController.dfy`, `VultrBareMetalMachineController.dfy` | the controllers as imperative code, proved to take the world exactly where the automaton says |
| `LoadBalancers.dfy`, `Membership.dfy`, `Leaving.dfy`, `ControlPlaneRuns.dfy`, `VultrClusterController.dfy` | load balancer membership, alone and over runs of the protocol, who leaves on deletion, and identity |
| `CloudConfig.dfy`, `UserData.dfy` | the two ways in which commands get into bootstrap data |
| `Capture.dfy` | which call an HTTP status belongs to |

A run is any sequence of events: a user makes or deletes an object, a pass begins, a call of a pass is answered, a process
crashes between two calls, a server vanishes. There are any number of machines, of both kinds and of any number of
clusters, and passes of different machines interleave call by call. A call may be answered in every way the code
distinguishes; a failed call may or may not have taken effect, and a failed create may have left a server behind, with its
tags or (if the configuration says so) without. A crash is possible before every answer.

`Follow` is one pass of the automaton in a world that may change in any way between two of its calls. The imperative
controllers are proved equal to `Follow`, turn by turn. Every pass of every run, up to any of its answers, is a `Follow`
(`Protocol.RunIsFollowed`), and a `Follow` between steps of others is a piece of a run (`Protocol.FollowedIsRun`); so the
theorems about runs are about the controllers.

## What is taken for granted

- List shows every live server that its filter matches; it may also show servers that were deleted. The pages of one search
  stand for one listing, taken at the moment the last page arrives.
- Where listings are called truthful, in the theorems on the end of deletion, they also show no server twice, and show a
  deleted one no more often than the configured lag.
- A create has had its effect by the time it is answered, or never has one. Server IDs are not empty, hold no `://`, and are
  never used twice. Get by ID answers about the ID it was asked for. Nobody else makes servers that match.
- A pass begins with the object as it is stored. The controllers read it from a cache; a stale read, of an object from before its
  providerID was stored, is not part of a run, and `Lifecycle.StoredIDIsFinal` fails with one (`Progress.StaleReadReplacesID`).
- One pass per object at a time, which the controller runtime provides. An object is made anew under an old name only when
  no pass for the old one is still under way.
- A patch (PatchObject or the deferred Close) persists every field except the deletion mark or fails, possibly after having
  persisted. An object without a finalizer is gone as soon as it is deleted.
- The cluster, role, VPC and additional tags of an object do not change.
- Additional tags of bare metal machines start with neither `name:` nor `capvultr:cluster-uid:`. `Tags.OwnershipExact` says
  exactly what happens without this.

## Where code and documentation disagree, or a wish fails

The model follows the code.

- The terminal reasons are those of the maps in `cloud/scope/machine.go:38-40` and `cloud/scope/baremetal_machine.go:37-40`,
  not the longer list under the comment at `api/v1beta2/conditions.go:42-47`: a failed create and a missing server are
  retried.
- `SetTerminalFailure` clears Provisioned of an instance (`cloud/scope/machine.go:130`), although
  `api/v1beta2/vultrmachine_types.go:89` says that it never changes after provisioning. Every instance can lose it
  (`Provisioning.ProvisionedCanBeLost`), and exactly when is `Provisioning.ProvisionedIsLostIff`. Bare metal never does.
- No duplicate servers holds exactly for configurations without two machines of one kind and one name in one cluster (from
  different namespaces), and, where creates can lose the tags of an instance, in any two clusters: the fallback at
  `cloud/services/instance.go:105-106` ignores the cluster (`Uniqueness.UniqueIffDistinct`).
- The finalizer is only in memory when the first create runs, so a crash and a user's delete can leave a server without an
  object (`Orphans.FirstPassCanOrphan`). If it is stored before each create, no server is ever orphaned.
- Deletion is certain to end exactly when at most one live server is owned besides the one the providerID names: with two
  the search reports an error in every pass (`Convergence.DeleteConvergesIff`). Runs get there, so deletion is certain in all
  reachable states exactly for the configurations without confusable machines (`Cleanup.DeletionCertainIffDistinct`).
- At most one load balancer per cluster holds exactly when every Close persists, no successful Get comes back empty, and no
  failed create leaves a load balancer behind (`VultrClusterController.AtMostOneLoadBalancer`).
- The last member of a load balancer is never removed, because an empty list is not sent (`LoadBalancers.RemoveIsExact`).
- The delete pass of an instance does not leave the load balancer (`internal/controller/vultrmachine_controller.go:324-372`),
  unlike that of bare metal. After its deletion the server of a control plane machine is still a member if and only if it is
  an instance or was found to be the last member (`Leaving.MemberAfterDeletionIff`), and for every control plane machine
  there is a run that ends so (`ControlPlaneRuns.DeletedServerRemains`).
- Provisioned of a cluster is cleared when its load balancer shows up without an address, while Ready and the endpoint stay
  (`VultrClusterController.ClusterProvisionedIsLostIff`, with an example in `ClusterProvisionedCanBeLost`).
- Without a `runcmd:` the raw splice puts its commands at index 6, or panics if the text is shorter
  (`UserData.SpliceFollowsRuncmd`, with one text for each in `UserData.SpliceWithoutRuncmd`).
- The comment above `findOrCreateServer` of the bare metal controller speaks of a terminal failure; the code sets a
  condition that is not terminal.

## Model

| member | source | states |
|---|---|---|
| `Uniqueness.NoDuplicateServers` | internal/controller/vultrmachine_controller.go:281-322 | In every run of machines that cannot be confused, through crashes between create and patch, failed patches, and creates that fail but made a server, each machine has at most one live server that it owns, and none while a create for it is under way |
| `Uniqueness.ConfusableDuplicates` | cloud/services/instance.go:98-107 | Any two confusable machines can be driven to a state in which one of them owns two live servers |
| `Uniqueness.UniqueIffDistinct` | cloud/services/instance.go:61-107 | Freedom from duplicates in all reachable states holds if and only if the configuration has no confusable machines |
| `Uniqueness.OwnedByMaker` | cloud/services/instance.go:98-107 | Among distinct machines a server is owned by a machine if and only if it was made for it |
| `Orphans.FinalizerGoesLast` | internal/controller/vultrmachine_controller.go:331-371 | In every run, at the step where a stored finalizer goes, no server made for the machine is live, the one its stored providerID names is not, and among distinct machines nothing live is owned by it |
| `Removals.ObjectGoesIff` | internal/controller/vultrbaremetalmachine_controller.go:312-359 | In every run, for both kinds, the Close of a delete pass removes the object if and only if in this pass the server left the load balancer (bare metal of a control plane), the delete by ID succeeded or was answered 404, and a listing showed none; otherwise finalizer, ID, Ready and Provisioned stay |
| `Orphans.ServersNeverOrphaned` | internal/controller/vultrbaremetalmachine_controller.go:312-359 | In every run whose creates find the finalizer stored, every live server's object exists and holds the finalizer |
| `Orphans.UnguardedCreateOrphans` | internal/controller/vultrmachine_controller.go:177-206 | From every reachable state with a create under way and no stored finalizer, a run leads to a live server without an object |
| `Orphans.FirstPassCanOrphan` | internal/controller/vultrmachine_controller.go:177-206 | Every machine of every configuration can be orphaned in this way, because the first pass creates before it stores |
| `Isolation.PassesKeepToTheirServers` | internal/controller/vultrmachine_controller.go:300-308 | In every run, a server that a pass deletes, adopts or reads, or that an object records, was made for a machine of the same kind and name, and of the same cluster if it has tags |
| `Invariants.OwnedIsRightful` | cloud/services/baremetal.go:161-163 | For every server a create can make, with the tags it is given, the search of a machine claims it if and only if kind and name are equal and, if tagged, the cluster UID; and what is claimed also passes the server-side filter |
| `Invariants.InvStep` | internal/controller/vultrmachine_controller.go:158-164 | Every event keeps the invariant: recorded and in-memory IDs name servers the machine owns, every call of a pass works on such a server, delete calls belong to delete passes, and a deletion mark implies a finalizer |
| `Invariants.ScanNothing` | internal/controller/vultrmachine_controller.go:347-371 | A search that finds nothing in a faithful listing means that no live server is owned by the machine |
| `Lifecycle.StoredIDIsFinal` | internal/controller/vultrmachine_controller.go:204-209 | In every run, once a well-formed providerID is stored it never changes and no further server is made for the machine while the object exists, whatever 404s, errors or empty answers follow |
| `Lifecycle.TerminalFailureAbsorbs` | cloud/scope/machine.go:127-141 | In every run, from a stored terminal failure to the user's delete the object does not change at all, and its passes end without a single cloud call |
| `Lifecycle.OnlyDeletePassReplacesFailure` | internal/controller/vultrmachine_controller.go:158-174 | In every run, also past the user's delete, a stored terminal failure stands until an answer to a delete pass; a normal pass that was under way when the user deleted makes no cloud call and changes nothing |
| `Lifecycle.FailureStep` | cloud/scope/baremetal_machine.go:193-206 | A step that changes an object with a terminal failure, other than by marking it for deletion, is an answer to a delete pass over it |
| `Lifecycle.DeletionIsFinal` | internal/controller/vultrbaremetalmachine_controller.go:149-153 | In every run, a deletion mark stays, and every pass that begins afterwards is a delete pass, which replaces the condition |
| `Lifecycle.ProvisionedIsLostOnlyToTerminalFailure` | internal/controller/vultrmachine_controller.go:310-317 | In every run, a step that clears a stored Provisioned belongs to an instance and stores a terminal failure; the reset on a failed create never clears one, and bare metal never loses it |
| `Provisioning.ProvisionedIsLostIff` | cloud/scope/machine.go:127-131 | In every run, a step clears a stored Provisioned if and only if it is the Close, taking effect, of a pass over an instance that saw a status other than pending and active and, on a control plane, had the server accepted by the load balancer |
| `Provisioning.ProvisionedCanBeLost` | internal/controller/vultrmachine_controller.go:254-273 | For every instance of every configuration there is a run in which it is provisioned and loses the mark |
| `Provisioning.NextVerdict` | internal/controller/vultrmachine_controller.go:204-273 | Every answer keeps the relation between the log of an instance's pass and its memory: without a patch, a terminal failure at the end if and only if the log shows an unexpected status and, on a control plane, acceptance |
| `Lifecycle.LifeStep` | cloud/scope/baremetal_machine.go:193-206 | Every event keeps pass and object in agreement on providerID, Provisioned and terminal failure, and whatever was reported ready or provisioned names a server |
| `Readiness.ReadyIsJustified` | internal/controller/vultrbaremetalmachine_controller.go:167-258 | In every run, behind every Ready=True, stored or in memory, stands a pass over the same object, not an earlier one of its name, whose answers showed the cluster ready, the bootstrap data set, the very server the providerID names active, for a control plane its acceptance by the load balancer, and for bare metal its requested VPC |
| `Readiness.IDStoredBeforeLoadBalancer` | internal/controller/vultrmachine_controller.go:203-227 | In every run, while an instance's pass talks to the load balancer about a server, the stored providerID names that server |
| `Progress.BecomesReadyIff` | internal/controller/vultrbaremetalmachine_controller.go:167-258 | In every run, when the Close of a normal pass takes effect, an object that was not ready is stored as ready if and only if the pass heard all of it: cluster ready, bootstrap data, server active, ID patched if new, load balancer acceptance, VPC; and then it is provisioned too |
| `Reports.ReportIff` | internal/controller/vultrbaremetalmachine_controller.go:156-261 | In every run, for both kinds, when a normal pass closes, a reason of the Ready condition that was not stored is stored if and only if its cause is among the answers in the log, with the status, Ready and Provisioned that go with it; there is always one cause or an error, never two, and an error leaves the report as it was |
| `Reports.FailsForGoodIff` | internal/controller/vultrbaremetalmachine_controller.go:194-220 | In every run, a normal pass stores a terminal failure if and only if it saw a status other than pending and active (an instance after its ID was stored and, on a control plane, it was accepted) or heard that VPCs are not supported |
| `Reports.MissingIffGet404` | internal/controller/vultrmachine_controller.go:284-298 | In every run, a pass stores that the server is missing if and only if its Get by ID was answered 404; after any other failure as the last answer, condition, Ready and Provisioned are what they were |
| `Reports.NextStands` | internal/controller/vultrmachine_controller.go:166-322 | Every answer takes a normal pass to its next call with nothing to report yet, or to its Close with exactly the report that its log asks for |
| `Progress.StrandedForever` | internal/controller/vultrmachine_controller.go:276-298 | In every run whose Gets find only what is there, a machine that is not ready and records a server that is gone never becomes ready and gets no other server while the object exists |
| `Progress.EveryMachineCanStrand` | cloud/services/instance.go:61-96 | For every machine there is a run in which it adopts the deleted but still listed server of its own failed create |
| `Progress.StaleReadReplacesID` | internal/controller/vultrmachine_controller.go:81-88 | A pass that begins with an outdated object can make a second server for a provisioned instance and replace its stored ID |
| `Membership.ReadyIsMember` | cloud/services/loadbalancer.go:105-133 | In every run whose load balancer calls lose no update, a control plane machine stored as ready was accepted by its load balancer in a pass over this object, and its server is a member unless an update of a bare metal delete pass has removed it since |
| `Membership.InstanceNeverLeaves` | internal/controller/vultrmachine_controller.go:324-372 | In every such run, a control plane instance that once had all the evidence for Ready is a member in every later state, its own deletion notwithstanding |
| `Membership.AcceptedUntilRemoved` | cloud/services/loadbalancer.go:105-171 | In every such run, a server is a member from the event that accepts it until one that removes it |
| `Membership.AcceptedAt` | cloud/services/loadbalancer.go:105-133 | In every run, what the log of a pass shows as accepted was accepted by an answer to a pass of the same machine |
| `Membership.RemovedIsBareMetal` | internal/controller/vultrbaremetalmachine_controller.go:323-328 | In every run, a server that an update takes out of a load balancer is a bare metal server |
| `Leaving.BareMetalLeaves` | internal/controller/vultrbaremetalmachine_controller.go:323-357 | In every such run of distinct machines, at the step where the stored finalizer of a bare metal control plane machine goes, its server is still a member if and only if the pass found nothing but it in the list, unless the load balancer was said not to exist |
| `Leaving.MembershipFixed` | cloud/services/loadbalancer.go:105-171 | In every such run of distinct machines, no event but the machine's own updates changes whether its server is a member |
| `Leaving.MemberAfterDeletionIff` | internal/controller/vultrmachine_controller.go:324-372 | In every such run, after the finalizer of a once accepted control plane machine has gone, its server is a member if and only if it is an instance or was found to be the last member |
| `ControlPlaneRuns.DeletedServerRemains` | internal/controller/vultrmachine_controller.go:324-372 | For every control plane machine of either kind there is a run that meets these hypotheses and in which its dead server remains a member after the object is gone |
| `ControlPlaneRuns.EveryMachineCanJoin` | cloud/services/loadbalancer.go:111-132 | For every control plane machine of either kind and every list of members without its server, the empty one included, there is a serial run in which its pass adds the server behind them and stores Ready=True |
| `Membership.UpdatesAreNeeded` | cloud/services/loadbalancer.go:114-168 | In every run, an update is sent only right after a reading: to add a server that an active load balancer does not list, or to remove one that it lists besides others |
| `Membership.OnlyControlPlanesAsk` | internal/controller/vultrbaremetalmachine_controller.go:234-328 | In every run, only passes over control plane machines talk to a load balancer, to join it or to leave it |
| `Membership.MembersNeverTwice` | cloud/services/loadbalancer.go:105-171 | In every run that loses no update, a list that begins without duplicates never has one |
| `Convergence.DeletePassProgress` | internal/controller/vultrmachine_controller.go:331-371 | Every truthful delete pass drops the finalizer or strictly lowers a measure weighted over live and stale servers, below even what deleting by ID alone would leave |
| `Convergence.DeleteConverges` | internal/controller/vultrbaremetalmachine_controller.go:319-357 | After more truthful delete passes than the measure counts, the object is gone |
| `Convergence.DeleteInTwoPasses` | internal/controller/vultrmachine_controller.go:331-371 | If listings do not lag, two truthful delete passes are enough |
| `Convergence.DeleteStuckForever` | cloud/services/instance.go:84-95 | With two live servers besides the recorded one, no number of truthful delete passes removes the object |
| `Convergence.TruthfulPassExists` | internal/controller/vultrmachine_controller.go:324-372 | From any point of a delete pass there are truthful answers that take it to its end, so the convergence theorems are not empty |
| `Convergence.DeleteConvergesIff` | internal/controller/vultrmachine_controller.go:331-371 | In every state that satisfies the invariant, hence in every reachable one, there is a number of truthful passes after which the object is certainly gone if and only if at most one live server is owned besides the recorded one |
| `Cleanup.ConfusableGetsStuck` | cloud/services/instance.go:84-95 | For any two confusable machines, a run reaches a state where one waits for its deletion with two live servers that it does not record |
| `Cleanup.DeletionCertainIffDistinct` | internal/controller/vultrmachine_controller.go:331-371 | Deletion is certain to end in all reachable states if and only if the configuration has no confusable machines |
| `Convergence.LagAlong` | internal/controller/vultrmachine_controller.go:351-359 | In every run, no deleted server has more listings left to show in than the configured lag, which is what the two-pass bound asks of its state |
| `Interleaving.NothingHinders` | internal/controller/vultrmachine_controller.go:324-372 | No event of any machine, user or process raises the measure of a machine under deletion or brings a server of it to life, and each death of one lowers the measure |
| `Interleaving.InterleavedDeletePass` | internal/controller/vultrbaremetalmachine_controller.go:312-359 | In every run, a truthful delete pass, however its calls interleave with everything else, leaves the object gone or the measure lower than when it began |
| `Cleanup.InterleavedDeletionEnds` | internal/controller/vultrbaremetalmachine_controller.go:312-359 | In every run of distinct machines, once more truthful delete passes have gone by than the measure counted when the first began, interleaved with anything, the object was gone at some moment in between, with no live server owned by it |
| `Cleanup.DeletionCleansUp` | internal/controller/vultrmachine_controller.go:324-372 | From every state that any run of distinct machines can reach, truthful delete passes in the number of the measure and one more, or two if listings do not lag, leave the object gone and no live server owned by it |
| `Cleanup.MarkedOrGone` | internal/controller/vultrbaremetalmachine_controller.go:312-359 | Every answer to a pass leaves a marked object marked, or gone together with its pass and with no live server made for it |
| `Protocol.PassIsRun` | internal/controller/vultrmachine_controller.go:75-164 | An uninterrupted pass from a reachable state, on answers the API may give, ends in a reachable state |
| `Protocol.RunIsFollowed` | internal/controller/vultrmachine_controller.go:75-164 | Every pass of every run, from any of its points to any of its later answers, is what the pass does on the worlds and answers of the run, however other events come in between |
| `Protocol.FollowedIsRun` | internal/controller/vultrmachine_controller.go:75-164 | A pass that takes its turns between steps of others, on answers the API may give, goes from a reachable state to a reachable state |
| `Machines.Have` | internal/controller/vultrmachine_controller.go:203-274 | However a pass came by its server it goes on about that one, touches neither finalizer nor deletion mark, and ends ready at once only for an active server of a worker without a requested VPC |
| `Machines.AfterRelist` | internal/controller/vultrmachine_controller.go:347-371 | The finalizer is dropped only if the listing has no owned entry; otherwise nothing of the object changes |
| `VultrMachineController.Reconcile` | internal/controller/vultrmachine_controller.go:75-164 | The statement-by-statement pass over a VultrMachine leaves objects, servers and remaining turns exactly where the protocol leaves them, for every sequence of answers, every change of the world between two calls, and every point of death |
| `VultrMachineController.ReconcileNormal` | internal/controller/vultrmachine_controller.go:166-274 | The normal pass up to the deferred Close follows the protocol and comes to its Close with the protocol's object in memory, unless the process dies |
| `VultrMachineController.FindOrCreateInstance` | internal/controller/vultrmachine_controller.go:281-322 | Find by ID, else by search, else create: the pass ends, or goes on with the same server and status as the protocol |
| `VultrMachineController.PersistID` | internal/controller/vultrmachine_controller.go:203-209 | A new ID is patched before anything else, and a failed patch ends the pass |
| `VultrMachineController.ReconcileDelete` | internal/controller/vultrmachine_controller.go:324-372 | The delete pass follows the protocol to its Close |
| `VultrBareMetalMachineController.Reconcile` | internal/controller/vultrbaremetalmachine_controller.go:143-154 | The same equality for a VultrBareMetalMachine |
| `VultrBareMetalMachineController.ReconcileNormal` | internal/controller/vultrbaremetalmachine_controller.go:156-261 | The normal pass with its pending, VPC, load balancer and ready stages follows the protocol to its Close |
| `VultrBareMetalMachineController.FindOrCreateServer` | internal/controller/vultrbaremetalmachine_controller.go:266-306 | Find by ID, else by tags, else create, as the protocol does; a failed create leaves Provisioned alone |
| `VultrBareMetalMachineController.EnsureBareMetalVPC` | cloud/services/baremetal.go:204-231 | The VPC is attached, requested, unsupported for good, or in error, and in each case the protocol's pass stands where the caller takes it |
| `VultrBareMetalMachineController.ReconcileDelete` | internal/controller/vultrbaremetalmachine_controller.go:312-359 | The delete pass, leaving the load balancer first, follows the protocol to its Close |
| `Sessions.Session.EnsureLoadBalancerMember` | cloud/services/loadbalancer.go:105-133 | Against any answers: member, not ready (inactive or 422) or error, with the protocol's pass at the matching point |
| `Sessions.Session.RemoveLoadBalancerMember` | cloud/services/loadbalancer.go:137-171 | Unless the load balancer cannot be read or written, the pass goes on to delete the server; a missing load balancer is no error |
| `Sessions.Session.SetTerminalFailure` | cloud/scope/machine.go:127-131 | Condition False with the reason, Ready cleared, Provisioned cleared for instances only |
| `Search.FindForMachine` | cloud/services/instance.go:63-96 | For every chain of pages the loop ends, fails exactly if a page fails, and otherwise answers none, one or several exactly as a scan of the whole account would |
| `Search.FilterLosesNothing` | cloud/services/baremetal.go:64-93 | Scanning what the server-side label or tag filter lets through is scanning everything |
| `Search.ScanIff` | cloud/services/instance.go:84-95 | The search answers nothing, the one entry, or the IDs of all in order, exactly as no, one, or several places of the listing hold an owned entry |
| `Search.OwnedExact` | cloud/services/instance.go:98-107 | For any entry: an instance with tags is claimed by its label and both identifying tags, one without by label and hostname together; bare metal by both tags and never without |
| `Search.OwnedEntriesConcat` | cloud/services/instance.go:73-77 | The matches of two pages are the matches of their concatenation, in order |
| `Tags.OwnershipExact` | api/v1beta2/tags.go:70-83 | Tags built for one machine, with any additional tags, identify another machine exactly if the names and the cluster UIDs are equal or an additional tag stands in for one of them |
| `Tags.NameTagExact` | api/v1beta2/tags.go:38-77 | No cluster, UID or role tag passes for a name tag, and name tags are injective |
| `Tags.UIDTagExact` | api/v1beta2/tags.go:38-77 | No cluster, role or name tag passes for a UID tag, and UID tags are injective |
| `Tags.RoleAndClusterExact` | api/v1beta2/tags.go:38-77 | Role and cluster name can be read off the built tags, of which there are four |
| `Invariants.CreatedTags` | cloud/scope/helpers.go:43-48 | A server made for a machine carries the tag of its role, control-plane or worker, and no other role, and the name of its cluster |
| `ProviderID.RoundTrip` | cloud/scope/helpers.go:25-40 | Parsing a built providerID gives the id back if and only if it holds no `://`, and nothing otherwise |
| `ProviderID.ParsedIsBuilt` | cloud/scope/helpers.go:25-40 | A providerID parses to an id exactly if it was built from a well-formed one, and rebuilding it gives the same text |
| `LoadBalancers.MembersStayDistinct` | cloud/services/loadbalancer.go:105-171 | No sequence of Ensure and Remove calls, failing or not, lists a server twice |
| `LoadBalancers.OthersAreKept` | cloud/services/loadbalancer.go:105-171 | Members for which no Remove is called are neither dropped nor reordered by any sequence of calls |
| `LoadBalancers.AcceptedUntilRemoved` | cloud/services/loadbalancer.go:105-133 | A server that Ensure accepted is a member after every sequence of calls without a Remove for it |
| `LoadBalancers.RemoveIsExact` | cloud/services/loadbalancer.go:137-171 | For every answer: the list changes if and only if it could be read, held the server among others and the update took effect; then it holds exactly the others in order |
| `LoadBalancers.EnsureIsExact` | cloud/services/loadbalancer.go:105-133 | For every answer: old members keep their places; the server is added exactly if an active load balancer that does not list it takes the update; accepted, not yet and error each exactly when the source says |
| `LoadBalancers.Others` | cloud/services/loadbalancer.go:151-156 | The filter loop computes the members other than the id, in order |
| `LoadBalancers.LoadBalancer.EnsureMember` | cloud/services/loadbalancer.go:105-133 | The member list afterwards and the answer, in every combination of answers; accepted means member |
| `LoadBalancers.LoadBalancer.RemoveMember` | cloud/services/loadbalancer.go:137-171 | The member list afterwards, and exactly when the call succeeds |
| `VultrClusterController.LoadBalancersConserved` | internal/controller/vultrcluster_controller.go:159-197 | Over any run of passes, the load balancers made are those leaked or abandoned and the one the object has come to name |
| `VultrClusterController.AtMostOneLoadBalancer` | internal/controller/vultrcluster_controller.go:159-197 | Every run makes at most one load balancer if and only if no Close is lost, no successful Get is empty and no failed create acts |
| `VultrClusterController.LookupsAgree` | cloud/scope/cluster.go:120-125 | After a persisted pass that obtained a load balancer, and after every later run, spec ID and status reference are set and equal, so both lookups agree |
| `VultrClusterController.DeleteReachesLoadBalancer` | internal/controller/vultrcluster_controller.go:242-271 | After any run of normal passes, a delete pass whose calls succeed deletes the load balancer in use if and only if the status named one at the start or some pass obtained and stored one; it drops the finalizer either way |
| `VultrClusterController.DeleteAfterNormalPasses` | internal/controller/vultrcluster_controller.go:242-271 | After any run with one persisted pass that obtained a load balancer, a delete pass whose calls succeed deletes the one the machines use |
| `VultrClusterController.ClusterFinalizerGoesIff` | internal/controller/vultrcluster_controller.go:242-271 | From every stored object, after any number of delete passes, the finalizer is gone if and only if some pass that persisted had no ID, found no load balancer, or deleted the one it found; no error ever gives it up |
| `VultrClusterController.DeletePassReports` | internal/controller/vultrcluster_controller.go:250-270 | For all answers, what one delete pass deletes and exactly when it drops the finalizer |
| `VultrClusterController.NormalPassReports` | internal/controller/vultrcluster_controller.go:149-240 | For every object and all answers, exactly when each condition is left, and what IDs, endpoint, Ready and Provisioned become with it; a pass that fails changes nothing else |
| `VultrClusterController.EndpointIsLastAddress` | internal/controller/vultrcluster_controller.go:199-225 | After every run the host of the endpoint is the address of the load balancer that was obtained last with one |
| `VultrClusterController.SpecWins` | internal/controller/vultrcluster_controller.go:159-166 | If spec and status name different load balancers, the pass works with that of the spec and both name it afterwards |
| `VultrClusterController.MachinesAskTheSame` | cloud/scope/cluster.go:120-125 | An instance asks the load balancer of the status reference, bare metal falls back to the spec; after a persisted obtaining pass both ask the one the cluster works with |
| `VultrClusterController.ProvisionedHasEndpoint` | internal/controller/vultrcluster_controller.go:199-236 | After every run of normal passes, a cluster stored as provisioned is ready and its endpoint has a host |
| `VultrClusterController.ClusterProvisionedIsLostIff` | internal/controller/vultrcluster_controller.go:199-236 | After every run, one more pass clears a stored Provisioned if and only if it obtains a load balancer without an address and persists, and the power status, which no pass writes, was not running; Ready and the endpoint stay |
| `VultrClusterController.ClusterProvisionedCanBeLost` | internal/controller/vultrcluster_controller.go:199-210 | Two passes after which a cluster has been provisioned and is no longer |
| `VultrClusterController.ClusterScope.ReconcileNormal` | internal/controller/vultrcluster_controller.go:149-240 | The new object, what was made on the way and whether the pass succeeds, for all answers |
| `VultrClusterController.ClusterScope.ReconcileDelete` | internal/controller/vultrcluster_controller.go:242-271 | What is deleted and whether the finalizer goes, for all answers |
| `CloudConfig.SplitCloudConfigHeader` | cloud/services/cloudconfig.go:64-82 | The loop ends on every text and computes the recursive split |
| `CloudConfig.SplitIsExact` | cloud/services/cloudconfig.go:64-82 | A non-empty body means that the text is exactly prefix, header line, newline and body, with only blank or template lines in the prefix |
| `CloudConfig.SplitOfAssembled` | cloud/services/cloudconfig.go:58-82 | Splitting prefix, header line and any body gives back that prefix and body |
| `CloudConfig.PrependCloudConfigRunCmds` | cloud/services/cloudconfig.go:21-59 | The step-by-step version computes the functional one, for every YAML library and every error |
| `CloudConfig.PrependMeaning` | cloud/services/cloudconfig.go:21-59 | A prepend yields a text if and only if it is the lines before the header, the header, and a print of the body's document with the commands in front: each command as a text at its index, then the old commands, every other key as before and none lost; runcmd must be a list, null or missing |
| `CloudConfig.PrependComposes` | cloud/services/cloudconfig.go:21-59 | Prepending b and then a gives the same result as prepending a ++ b, for every text on which the first succeeds |
| `CloudConfig.OthersPassThrough` | cloud/services/cloudconfig.go:21-29 | Under every lawful YAML library the input comes back as it is if and only if there are no commands or it is not preamble lines, a header line and a non-empty body |
| `CloudConfig.BodyIffCloudConfig` | cloud/services/cloudconfig.go:61-82 | The splitter finds a body in a text if and only if the text is made of preamble lines, a header line and a non-empty body |
| `CloudConfig.LinesExact` | cloud/services/cloudconfig.go:67-74 | A line is a header exactly if it begins with `#cloud-config` after spaces, and may stand before one exactly if it is all spaces or begins with `## template:` after spaces |
| `Strings.TrimSpaceExact` | cloud/services/cloudconfig.go:68-70 | Trimming a line takes off the spaces at both ends, all of them and nothing else |
| `UserData.AppendToUserDataCloudConfig` | cloud/services/instance.go:224-235 | The splice loop yields the text up to the point, one item per command in order, and the rest, or panics exactly if the point lies outside |
| `UserData.SpliceFollowsRuncmd` | cloud/services/instance.go:224-235 | The commands follow a `runcmd:`, the first one, exactly if the text has one; without one they go to index 6, and the splice panics exactly if the text is shorter than that |
| `UserData.SpliceWithoutRuncmd` | cloud/services/instance.go:224-235 | The empty text panics, and a shell script is broken after its sixth character |
| `UserData.SpliceUndone` | cloud/services/instance.go:224-235 | The block stands at the point, and taking it out gives the original back |
| `UserData.BlockHolds` | cloud/services/instance.go:228-232 | Each command stands in the block after a newline, two spaces, a dash and a space, right behind the command before it |
| `UserData.SpliceComposes` | cloud/services/instance.go:224-235 | Splicing b and then a gives the same text as splicing a ++ b |
| `Capture.Play` | cloud/vultrerrors/vultrerrors.go:33-57 | For every interleaving of calls and nested contexts, each cell holds in the end the status of the latest response through a context whose innermost capture it belongs to, or 0 if there was none; so a 404 is the answer to the call that reads it |
| `Capture.Step` | cloud/vultrerrors/vultrerrors.go:39-57 | A response writes the cell of its innermost capture and leaves all others alone |
| `Capture.LookupFindsOwner` | cloud/vultrerrors/vultrerrors.go:39-43 | The lookup in a context finds the cell of its innermost capture and no other |
| `Capture.StatusIsItsOwn` | cloud/services/instance.go:46-52 | The recorded status is that of the latest response to the capture, not overtaken by a later one, or 0 if no response reports to it |
| `Capture.OutcomeOf` | cloud/services/instance.go:46-58 | Amid any other calls, a call finds its server missing if and only if it failed and the latest response to it was a 404; any other error and the empty success are failures |

## Left out

- Requeue delays, returned errors, events, log lines, messages and timestamps: a pass ends with its Close whatever it returns.
- Owner lookups, pausing, watches and a missing VultrCluster: they only decide whether a pass begins.
- Hardware, address, power and VPC status fields: copied from answers; `GetInstanceAddress` never fails.
- `Status.Ready` is modelled, but since only a terminal failure clears it, the readiness theorems speak of the Ready condition.
- The HTTP layer, retries and the client library: an API call is one answer, and `Failed` stands for every error but 404, the empty 200 included.
- IsTerminalVPCAttachError: the texts it looks for are not modelled; an answer says whether the error is of that kind.
- Lost updates between interleaved reads and writes of one load balancer: the code does not prevent them, so `LoadBalancers` takes the calls one after another and `Membership` assumes that no update is lost; everywhere else the members that a load balancer answers with are arbitrary.
- The VPCs that a bare metal server is attached to are not part of the world; what a listing answers is arbitrary.
- Load balancers that disappear, and members that Vultr drops by itself: `Membership` lets only updates change a list.
- A create answer without a load balancer and without an error makes the cluster controller dereference nil; the model has no such answer.
- The forwarding rules, health check and firewall of a load balancer, the port of the control plane endpoint, and the VultrClusterReady condition: plain copying.
- YAML parsing and printing: a library whose printed documents are not empty and parse to what was printed; keys other than `runcmd` are opaque.
- Base64, SSH keys, bootstrap secrets and the other fields of create requests.
- UserData.AppendToUserDataCloudConfig: indexes characters, where Go indexes bytes; the two differ only in where index 6 falls when there is no `runcmd:`.
- CloudConfig.SplitCloudConfigHeader: texts are character sequences, so bytes that are not UTF-8 are not modelled.
- Search.FindForMachine: a chain of cursors without an end is not modelled; the loop would not end on one either.
- Sessions.Session.EnsureLoadBalancerMember: an empty load balancer ID is refused by its callers before the call, so its error branch is not reached.
- `ApplyDefaults`, conversion webhooks, `cmd/`, templates and manifests.
