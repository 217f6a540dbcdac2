# Verification of the VNF service

The VNF service creates network services out of virtual deployment units (VDUs). Its orchestrator launches the VDUs of
a service wave by wave, in the order of their dependencies; a VNF manager configures the launched servers with one
worker thread each and acknowledges every one of them. This project models that protocol and proves what holds in its
reachable states and over its runs, and does the same for the service's XML codec, for the sorting and pagination
of its list responses, for template onboarding with its roll-back, for booting and naming servers, and for the renaming
of nested descriptions.

`dafny verify dfyconfig.toml` checks everything.

## How the model is organised

| file | what it holds |
|---|---|
| `DependencyGraph` | dependency lists, the waves they give, chains, and which VDUs can be configured at all |
| `Protocol` | the step system: orchestrator, channel, manager, workers, daemon; any enabled action may happen next |
| `ProtocolInvariant` | the inductive invariant |
| `ProtocolPreservation`, `ProtocolManagerSteps`, `ProtocolSafety` | every action keeps it while scale requests do not overlap; so it then holds in every reachable state |
| `ProtocolTheorems`, `ProtocolOutcomes`, `ProtocolScaling`, `ProtocolProgress` | what follows for states, runs, repeated messages, scale-outs and waiting |
| `ProtocolStatus` | what the service's status tells, and what stands behind an ERROR acknowledgement |
| `ProtocolOverlap`, `ProtocolRefusal` | when scale requests cannot overlap, what one does that does, and a run in which that happens |
| `Orchestrator` | the orchestrator as a class: its loops, in place, each statement one action of the protocol |
| `VnfManager` | the manager as a class: handlers, worker, daemon pass, each against the protocol's account of it |
| `TemplateParser` | the VDU table read from a service descriptor |
| `Xml`, `XmlDocument`, `XmlRoundTrip` | printing and reading values, whole documents, and which of them come back |
| `Sorting`, `Pagination` | list responses |
| `Onboarding`, `Boot`, `Rename` | template onboarding; booting and naming; renaming of keys |
| `Lists`, `Text` | shared facts about lists, strings, decimal numbers and dicts |

A state of the protocol holds the lists the orchestrator updates (`configured`, `errored`, `conf_generated`,
`deployed_vdus`, `acknowledge_list`, each VDU's `instances`), the messages in flight, and the manager's driver table,
thread table and daemon. Configuration messages may be delivered any number of times; scale messages and
acknowledgements once. Boots may fail, in creation and in scale-outs. The main proof is that every server the manager
knows is, at any time and in every interleaving, at exactly one place between the manager's queue and the
orchestrator's counts.

`create_scale` lets a request in exactly when the service is ACTIVE. The step system has that guard: a request let in
while the orchestrator's thread is idle is run by that thread (`Scale`, `ScaleBootFails`; `Scale` is also the next VDU of
a request under way), and one let in while it is not idle runs beside it (`OverlapScale` and the other overlapping
steps). As long as no request has been refused the second kind does not occur: ACTIVE then implies idle
(`ProtocolOverlap.GuardMeansIdle`). A refusal makes the service ACTIVE while it is being created, and the next request
then changes the lists under the orchestrator's thread. The invariant, and what is derived from it, is stated for the
states reached without such a request (`Orderly`), which include all states reached without a refusal. It does not hold
beyond them: `ProtocolRefusal` gives a run of three VDUs after which a VDU is launched a second time, or a scale message
names a VDU nobody scaled, and `ProtocolOverlap` says for every template and state what such a request does. Results that
need no invariant hold in all runs: `ProtocolOutcomes.EntryNeverLost` and `CompleteIsEarned`,
`ProtocolStatus.ErrorIsEarned`, and those on repeated messages.

In the class `Orchestrator` the other threads act while the orchestrator sleeps. There, `Sleep` takes one productive
action of theirs, any of those enabled, unless nothing is left to do; that is the only place where progress of the
rest of the system is assumed, and it is what lets the waiting loop be shown to end.

## Reading the code

The model follows the code in these places, where the code does not do what its names or comments suggest:

- The raise in `wait_for_acknowledgment` names an exception that does not exist; it aborts the creation all the same.
- The remote call `scale_vdus` is taken to reach the manager's `scale_vdu`.
- A worker thread counts as finished once it has released the condition; the `kill` on it is not modelled.
- `create_scale` makes the service ACTIVE however it ends: after a scale-out that failed, and also when it refuses a
  service that was not ACTIVE (`ProtocolScaling.ActiveAfterFailedScale`, `ProtocolOutcomes.RefusedScaleActivates`). So
  ACTIVE alone does not mean configured. Without a refused request an ACTIVE service has every VDU configured if and only
  if none has errored and no boot has failed in a scale-out (`ProtocolOverlap.ActiveExactly`).
- A refused request lets the next one in during creation; that one has its VDU launched a second time, or its message
  names VDUs that were not scaled (`ProtocolRefusal.LaunchedTwice`, `ProtocolRefusal.NamesOthers`).
- A scale-out whose boot fails leaves its VDU off `deployed_vdus` and `configured` for good, though its servers run
  (`ProtocolScaling.SettledLists`, `ProtocolScaling.DroppedExactly`).
- A VDU with no servers is never acknowledged and so never configured: the creation hangs on it. At rest, exactly such
  VDUs are undecided, so with every VDU having a server no wait hangs (`ProtocolProgress.DecidedAtRest`).
- A dependency on a cycle or on an unknown name makes the resolving loop go round forever, sending empty messages.
- The manager keys its table by the VDU's bare name: of two VDUs of one message with the same name it forgets the
  first, and of a VDU whose name an earlier message used it takes nothing over (`ProtocolScaling.KeptWholeIffDistinct`).
  The protocol is stated for templates whose names are distinct.
- A scale message delivered twice starts a second worker unless the first has completed (`ProtocolScaling.ScaleTwice`).
- The XML reader looks types up in the metadata's namespace without the default the writer falls back to, so without
  that entry every type is lost (`Xml.RoundTripsIff`, `XmlRoundTrip.DocumentRoundTrip`).
- Writing a dict as XML pops its first link key from the caller's dict (`XmlDocument.XmlDictSerializer.Default`).
- The previous link of an empty last page leads one item too far to the front (`Pagination.NextThenPrevious`).
- An image whose creation succeeded and whose polling failed stays behind when onboarding is rolled back; and when a
  deletion of the roll-back is what fails, so does everything not visited yet (`Onboarding.GetVnfDetails`).

## Model

| member | source | states |
|---|---|---|
| DependencyGraph.ReadyIsWave | vnfsvc/plugin.py:771-783 | with the VDUs of the first k rounds configured, the list the loop builds has exactly the VDUs that become resolvable in round k, each once |
| DependencyGraph.WaveIsHeight | vnfsvc/plugin.py:769-792 | a VDU belongs to round k if and only if its longest dependency chain has k edges and no chain leaves the template |
| DependencyGraph.ResolvableIffConfigurable | vnfsvc/plugin.py:769-792 | a VDU can be configured in some number of rounds if and only if it reaches no cycle and no unknown name, and then as many rounds as VDUs suffice |
| ProtocolSafety.InvAlways | vnfsvc/plugin.py:741-792 | the invariant of the whole system holds in every state reached without an overlapping scale request, over every interleaving of orchestrator, channel, manager, workers and daemon |
| ProtocolSafety.StepOk | vnfmanager-2015.1.0-py2.7.egg/vnfmanager/vnf_manager.py:104-129 | every single action of any component keeps the invariant, unless it belongs to an overlapping scale request |
| ProtocolTheorems.OneStage | vnfmanager-2015.1.0-py2.7.egg/vnfmanager/vnf_manager.py:245-277 | every server is at exactly one of seven stages, from awaiting its message to being counted, and at most one acknowledgement of it is ever in flight or counted |
| ProtocolTheorems.NothingForgotten | vnfsvc/plugin.py:1083-1130 | a launched server is in no message only while its own wave, or its own scale request, is being launched |
| ProtocolTheorems.NoEarlyAck | vnfsvc/plugin.py:1513-1516 | a server the manager has begun with is in the server list the orchestrator keeps for its VDU, so no acknowledgement comes before that list is set |
| ProtocolTheorems.DaemonStartsAfter | vnfmanager-2015.1.0-py2.7.egg/vnfmanager/vnf_manager.py:97-101 | when the daemon starts every server of the first message is past the queue: it has its worker, or is acknowledged |
| ProtocolTheorems.ListsMeanAcks | vnfsvc/plugin.py:1500-1527 | a VDU is in `configured` if and only if all its servers (at least one) are acknowledged COMPLETE and no failed scale-out dropped it, in `errored` if and only if one was acknowledged ERROR, and never in both |
| ProtocolStatus.ErrorFails | vnfsvc/plugin.py:1500-1507 | in every state, an ERROR acknowledgement makes the service Failed and its VDU errored, and configures and counts nothing |
| ProtocolStatus.CompleteCounts | vnfsvc/plugin.py:1508-1527 | in every state, a COMPLETE acknowledgement is counted after the earlier ones, makes its VDU configured if and only if the count reaches its servers, and leaves status and errors alone |
| ProtocolTheorems.ConfiguredInOrder | vnfsvc/plugin.py:769-792 | `configured` has no duplicates and lists every VDU after all of its dependencies |
| ProtocolTheorems.LaunchedOnceWithDeps | vnfsvc/plugin.py:771-786 | while scale requests do not overlap, a VDU is launched when all of its dependencies are configured, and was never launched before |
| ProtocolOutcomes.LaunchRoundIsHeight | vnfsvc/plugin.py:741-792 | the round a VDU was launched in is its height in the dependency graph, and no launched VDU reaches a cycle or an unknown name |
| ProtocolOutcomes.RoundsAreHeight | vnfsvc/plugin.py:770-792 | between rounds exactly the VDUs of height up to the round's number are launched, and exactly they are configured |
| ProtocolOutcomes.CreationEndsAtHeight | vnfsvc/plugin.py:771 | the round in which creation ends is the height of the graph: some VDU is that high and none is higher |
| ProtocolOutcomes.UnresolvableNeverDone | vnfsvc/plugin.py:771-783 | with an unresolvable VDU no run, however long, meets the condition that ends the resolving loop |
| ProtocolOutcomes.ActiveMeansConfigured | vnfsvc/plugin.py:364-372 | before any scale request the service is ACTIVE only with every VDU configured, every server acknowledged COMPLETE and none errored |
| ProtocolOutcomes.RefusedScaleActivates | vnfsvc/plugin.py:1713-1715 | a refused scale request makes a service ACTIVE that has launched nothing yet |
| ProtocolStatus.StatusExact | vnfsvc/plugin.py:364-372 | until a scale request is refused the status is exactly what the orchestrator's place and its errors say: during creation Failed once a server was acknowledged ERROR and Pending before; IN PROGRESS while a VDU is scaled, until it errors; before any request an errored VDU means Failed in every place |
| ProtocolStatus.CountedOutsideCreation | vnfsvc/plugin.py:1736-1746 | once creation has ended every server is acknowledged, COMPLETE or ERROR, but for the new one of the VDU being scaled |
| ProtocolStatus.GeneratedOnceOrTwice | vnfsvc/plugin.py:784-792 | before any scale request a VDU named in a message is on `conf_generated` once if it is of the first round and twice if of a later one, which is why `scale_out` removes it in a loop |
| ProtocolOverlap.GuardMeansIdle | vnfsvc/plugin.py:1712-1715 | until a scale request is refused the service is ACTIVE only while its orchestrator is idle, so no request runs beside the orchestrator's thread |
| ProtocolOverlap.ActiveExactly | vnfsvc/plugin.py:1706-1734 | until a scale request is refused an ACTIVE service has every VDU configured if and only if none has errored and no scale-out failed to boot; the VDUs it lacks are exactly those |
| ProtocolOverlap.OverlapRelaunches | vnfsvc/plugin.py:1736-1742 | a request let in while the resolving loop decides, for a configured VDU nobody depends on, always has that VDU, whose servers are up, in the next round's launches |
| ProtocolOverlap.OverlapNamesUnsent | vnfsvc/plugin.py:1739-1746 | the message of a request let in while the orchestrator is not idle names the scaled VDU and every VDU launched but in no message yet, and marks them all; it names the scaled VDU alone if and only if there is no other |
| ProtocolStatus.OverlapEnds | vnfsvc/plugin.py:1724-1734 | a request that runs beside the orchestrator's thread and waits ends exactly when its VDU is configured or errored, by making the service ACTIVE, whatever the thread is doing; it changes nothing else of it |
| ProtocolRefusal.LaunchedTwice | vnfsvc/plugin.py:1712-1734 | there is a run in which, after a refused request, the next one makes the loop launch a VDU a second time |
| ProtocolRefusal.NamesOthers | vnfsvc/plugin.py:1712-1746 | there is a run in which, after a refused request, the scale message of the next one names a VDU that was not scaled |
| ProtocolOutcomes.NoLostResult | vnfmanager-2015.1.0-py2.7.egg/vnfmanager/vnf_manager.py:71-79 | while the daemon waits with no notification pending no recorded result is left; every worker finds its own entry; an entry's server is not acknowledged yet |
| ProtocolOutcomes.LockHeld | vnfmanager-2015.1.0-py2.7.egg/vnfmanager/vnf_manager.py:104-129 | while the daemon holds the lock no worker starts and none records; the thread table only loses the entries with a result that the daemon looks at |
| ProtocolOutcomes.ResultSentOnce | vnfmanager-2015.1.0-py2.7.egg/vnfmanager/vnf_manager.py:111-127 | in one step of the daemon an entry with a result is acknowledged, with the status its text gives, and deleted; one without stays |
| ProtocolOutcomes.EntryNeverLost | vnfmanager-2015.1.0-py2.7.egg/vnfmanager/vnf_manager.py:104-129 | over every run from every reachable state, a table entry is still there with its server, or an acknowledgement of that server is in flight or counted |
| ProtocolOutcomes.EntryOrAck | vnfmanager-2015.1.0-py2.7.egg/vnfmanager/vnf_manager.py:104-129 | while scale requests do not overlap it is never both, so no result is acknowledged twice |
| ProtocolOutcomes.StatusOfOutcome | vnfmanager-2015.1.0-py2.7.egg/vnfmanager/vnf_manager.py:223-238 | a driver call is reported COMPLETE if and only if it returned, with a text in which ERROR stands nowhere: not before, between or after any other text |
| ProtocolOutcomes.CompleteIsEarned | vnfmanager-2015.1.0-py2.7.egg/vnfmanager/vnf_manager.py:116-124 | in every run, overlapping scale requests included, a server with a driver is acknowledged COMPLETE only after a driver call on it that neither raised nor answered with a text in which ERROR stands anywhere |
| ProtocolStatus.ErrorIsEarned | vnfmanager-2015.1.0-py2.7.egg/vnfmanager/vnf_manager.py:324-357 | in every run, a server is acknowledged ERROR only if it has a driver and a driver call on it raised or answered with ERROR, or it had no management address |
| ProtocolOutcomes.ContainsIs | vnfmanager-2015.1.0-py2.7.egg/vnfmanager/vnf_manager.py:116 | the text search of the daemon finds a word if and only if the text is some text, the word, and some text again |
| ProtocolScaling.DuplicateDelivery | vnfmanager-2015.1.0-py2.7.egg/vnfmanager/vnf_manager.py:146-154 | whatever happened since, handling a configuration message again, any number of times, only stores copies of it: no worker, no acknowledgement |
| ProtocolScaling.DuplicatesHarmless | vnfmanager-2015.1.0-py2.7.egg/vnfmanager/vnf_manager.py:245-277 | those copies never show: a later run is possible with the repetitions if and only if it is possible without them, and ends alike |
| ProtocolScaling.KeptWholeIffDistinct | vnfmanager-2015.1.0-py2.7.egg/vnfmanager/vnf_manager.py:146-169 | a message is taken over whole if and only if the VDU names in it are distinct and no earlier message used one of them |
| ProtocolScaling.ExtractedIsLast | vnfmanager-2015.1.0-py2.7.egg/vnfmanager/vnf_manager.py:146-169 | an entry is taken over if and only if no earlier message used its name and no later entry of this one does |
| ProtocolScaling.ScaleNamesOnlyScaled | vnfsvc/plugin.py:1739-1746 | while scale requests do not overlap, the scale message names the scaled VDU alone, with all its servers, however often the VDU was on `conf_generated` |
| ProtocolScaling.ScaleStartsOnlyNew | vnfmanager-2015.1.0-py2.7.egg/vnfmanager/vnf_manager.py:280-298 | handling a scale message queues the new server and no other |
| ProtocolScaling.ScaleTwice | vnfmanager-2015.1.0-py2.7.egg/vnfmanager/vnf_manager.py:324-329 | handling the same scale message a second time queues nothing if and only if all its servers are COMPLETE already |
| ProtocolScaling.SettledLists | vnfsvc/plugin.py:1736-1758 | after creation and between scale-outs, any number of them, `deployed_vdus` holds once every VDU none of whose scale-outs failed to boot, `configured` exactly those of them that have not errored, each with its acknowledgements being its servers |
| ProtocolScaling.DroppedExactly | vnfsvc/plugin.py:1739-1743 | over every run, the VDUs missing from the lists because of a failed boot are exactly those for which a scale-out of the run failed to boot |
| ProtocolScaling.ActiveAfterFailedScale | vnfsvc/plugin.py:1732-1734 | after a scale-out that raised, the service is ACTIVE and the scaled VDU is not configured |
| ProtocolScaling.ActiveAfterFailedBoot | vnfsvc/plugin.py:1732-1743 | after a scale-out whose boot failed, the service is ACTIVE, the VDU is on none of the three lists, no message was sent, and servers and all other VDUs are as before |
| ProtocolProgress.ProductiveCloser | vnfmanager-2015.1.0-py2.7.egg/vnfmanager/vnf_manager.py:104-129 | every action of manager, threads and channel that is no mere repetition brings them closer to rest, by a well-founded measure |
| ProtocolProgress.MovesOrRests | vnfmanager-2015.1.0-py2.7.egg/vnfmanager/vnf_manager.py:104-129 | once a message was sent, manager, threads and channel are either at rest or can do something productive: none waits in vain |
| ProtocolProgress.AllCountedAtRest | vnfsvc/plugin.py:1500-1527 | at rest every launched server has been acknowledged and counted |
| ProtocolProgress.DecidedAtRest | vnfsvc/plugin.py:754-767 | at rest a launched VDU that no failed scale-out dropped is neither configured nor errored if and only if it has no servers; a VDU being waited for is never a dropped one |
| Orchestrator.Orchestrator.BuildAcknowledgeList | vnfsvc/plugin.py:1500-1527 | an ERROR acknowledgement makes the service Failed and its VDU errored, and counts nothing; a COMPLETE one leaves the status, is counted, and makes its VDU configured when the count reaches the VDU's servers; this is the protocol's delivery step |
| Orchestrator.Orchestrator.WaitForAcknowledgment | vnfsvc/plugin.py:754-767 | the waiting loop ends: with all its VDUs configured and none errored, or by raising for an errored one; it hangs only on a VDU that has no servers |
| Orchestrator.Orchestrator.CreateDependencyDict | vnfsvc/plugin.py:697-711 | `updatesFrom` is the template's dependencies; `updatesTo` lists who names a VDU, in order |
| Orchestrator.UpdatesToIsConverse | vnfsvc/plugin.py:704-711 | `updatesTo` is the converse of `updatesFrom`, multiplicities included |
| Orchestrator.DependentsInOrder | vnfsvc/plugin.py:704-711 | the dependents of a VDU are listed in the order of the template |
| Orchestrator.Orchestrator.IndependentVdus | vnfsvc/plugin.py:745-748 | the VDUs without dependencies are the first wave of the protocol |
| Orchestrator.Orchestrator.ReadyVdus | vnfsvc/plugin.py:772-783 | counting configured dependencies selects exactly the unconfigured VDUs with all dependencies configured, in template order |
| Orchestrator.Orchestrator.GenerateVnfmConf | vnfsvc/plugin.py:1083-1130 | the message is built from the deployed VDUs not generated yet, which are then marked |
| ProtocolPreservation.NewConfOk | vnfsvc/plugin.py:1087-1088 | such a message names exactly the deployed VDUs no earlier one named, each once, with all of its servers |
| Orchestrator.Orchestrator.LaunchAll | vnfsvc/plugin.py:785-786 | a wave is launched VDU by VDU, each launch a step of the protocol, up to the first boot that fails |
| Orchestrator.Orchestrator.ResolveDependency | vnfsvc/plugin.py:769-792 | without boot failures and errors the loop ends if and only if every VDU is resolvable and has servers, with all configured; otherwise it hangs on a VDU without servers, or spins with exactly the resolvable ones configured; when it raises for an error the service is Failed |
| Orchestrator.Orchestrator.DeployVnfs | vnfsvc/plugin.py:364-372 | a creation ends ACTIVE if and only if it succeeds, which needs every VDU resolvable and with servers; it fails with the service Failed, an error acknowledged or a boot having raised; how it ends otherwise says what was wrong with the template |
| Orchestrator.Orchestrator.ScaleOut | vnfsvc/plugin.py:1736-1758 | for an idle orchestrator: scaling a VDU nobody depends on gives it exactly one more server of a new name, or the boot fails and it is dropped from the lists; it cannot hang; the VDU ends configured unless it errors, and all other VDUs keep their place and their servers. For one that is not idle: the lists change under it and the message also names what is launched and unsent |
| Orchestrator.Orchestrator.CreateScale | vnfsvc/plugin.py:1706-1734 | refused if and only if the service is not ACTIVE or nothing is asked for, and a refusal changes only the status; until one happened an admitted request finds the orchestrator idle, and then leaves the service ACTIVE, the VDUs not scaled as they were, and on success each scaled VDU configured with one more server per mention |
| VnfManager.VnfManager.ExtractDrivers | vnfmanager-2015.1.0-py2.7.egg/vnfmanager/vnf_manager.py:146-169 | of a message's entries those with new names are kept; of equal names the last |
| VnfManager.VnfManager.ConfigureVdus | vnfmanager-2015.1.0-py2.7.egg/vnfmanager/vnf_manager.py:245-277 | the handler's tables and acknowledgements are those of registering the message and dispatching every new server |
| VnfManager.VnfManager.ConfigureVdu | vnfmanager-2015.1.0-py2.7.egg/vnfmanager/vnf_manager.py:324-357 | a VDU's servers are taken in order, each dispatched unless it is COMPLETE by then |
| VnfManager.OpenIsNotIn | vnfmanager-2015.1.0-py2.7.egg/vnfmanager/vnf_manager.py:324-329 | without repeated servers those are exactly the servers not COMPLETE at the beginning, queued and dispatched in order |
| VnfManager.VnfManager.ScaleVdu | vnfmanager-2015.1.0-py2.7.egg/vnfmanager/vnf_manager.py:280-298 | the handler replaces stored configuration and server list and dispatches what is incomplete, entry by entry, until one raises |
| VnfManager.UnknownIgnored | vnfmanager-2015.1.0-py2.7.egg/vnfmanager/vnf_manager.py:285-298 | an entry of a VDU that no message configured changes nothing and sends nothing |
| VnfManager.ScaleAllIsScaleVdus | vnfmanager-2015.1.0-py2.7.egg/vnfmanager/vnf_manager.py:280-298 | for every message whose VDU names differ, without repeated servers, that is the protocol's scale step, which queues for all its entries, followed by the dispatches |
| VnfManager.ScaleStores | vnfmanager-2015.1.0-py2.7.egg/vnfmanager/vnf_manager.py:285-298 | what one entry of a known VDU leaves behind: its stored configuration replaced in place, and its server list too, unless the entry raises |
| VnfManager.RaiseEndsMessage | vnfmanager-2015.1.0-py2.7.egg/vnfmanager/vnf_manager.py:285-298 | an entry that raises is stored and ends the message: nothing after it is looked at |
| VnfManager.HandlerIsRun | vnfmanager-2015.1.0-py2.7.egg/vnfmanager/vnf_manager.py:324-357 | a handler run to its end is a run of the protocol's single dispatch steps |
| VnfManager.VnfManager.ImplThreadRun | vnfmanager-2015.1.0-py2.7.egg/vnfmanager/vnf_manager.py:71-79 | a worker writes its result into its own entry and wakes a waiting daemon |
| VnfManager.WorkerIsStep | vnfmanager-2015.1.0-py2.7.egg/vnfmanager/vnf_manager.py:71-79 | whatever the driver did, recording its result is a step of the protocol once the lock is free |
| VnfManager.VnfManager.MonitorThreadPool | vnfmanager-2015.1.0-py2.7.egg/vnfmanager/vnf_manager.py:104-129 | a pass of the daemon leaves exactly the entries without a result, having sent the acknowledgements due for the others in the order visited, and then waits |
| VnfManager.PassAcksEachOnce | vnfmanager-2015.1.0-py2.7.egg/vnfmanager/vnf_manager.py:111-127 | whatever the order, a pass acknowledges each recorded result once and deletes exactly those entries |
| VnfManager.PassIsRun | vnfmanager-2015.1.0-py2.7.egg/vnfmanager/vnf_manager.py:109-129 | such a pass is a run of the protocol's single steps: taking the lock, one look at each entry, and the wait |
| TemplateParser.TableKeyedByMembers | vnfsvc/common/parser_utils.py:25-40 | the VDU table is keyed by exactly the members mentioned; the dependencies of each are those of its last mention: none, the single name given, or the list given |
| TemplateParser.TablesAgree | vnfsvc/common/parser_utils.py:25-40 | VNFD table and VDU table hold the same VDUs; a VNFD lists one as often as it is mentioned |
| TemplateParser.MemberVnfs | vnfsvc/common/parser_utils.py:25-40 | the loop fills both tables as these functions of the member list say |
| Xml.NameSurvives | vnfsvc/wsgi.py:611-627 | `_get_key` recovers `prefix:name` and unprefixed names from what a parser makes of them, when no other prefix has the namespace |
| Xml.KeyOfName | vnfsvc/wsgi.py:611-627 | the name read for a namespaced element: bare in the default namespace, else with the first prefix the extensions give it, then with the first the backward-compatible ones give it, and none else |
| Xml.ItemElements | vnfsvc/wsgi.py:446-461 | a non-empty list has one child per item, in order, all under the name its first entry in `plurals` gives, else its own without the final `s`, else `item` |
| Xml.EntryElements | vnfsvc/wsgi.py:462-474 | a dict has one child per entry, in order, under the entry's key |
| Xml.LeafRead | vnfsvc/wsgi.py:684-708 | what is read from an element without children: nothing if its `nil` says true in any case of letters, else its text as the type says, and of no text the empty dict, list or text |
| Xml.ElementRead | vnfsvc/wsgi.py:709-724 | an element with children that is no list reads as a dict: under a key the last child of that name, without one the last attribute of that name, and else nothing |
| Xml.SkippedIs | vnfsvc/wsgi.py:711-718 | the attributes left out are exactly `xmlns`, those that begin with `xmlns:`, and the two under their written names |
| Xml.NodeRoundTrip | vnfsvc/wsgi.py:442-501 | reading the element tree printed for a value gives the value back, or, without a namespace in the metadata, the value without its types |
| Xml.RoundTripsIff | vnfsvc/wsgi.py:677-724 | a printable value comes back unchanged if and only if the metadata names a namespace or nothing in the value needs its type |
| Text.DecimalRoundTrip | vnfsvc/wsgi.py:481-501 | every integer, negative ones included, is read back from its decimal text |
| XmlDocument.XmlDictSerializer.ToXmlNode | vnfsvc/wsgi.py:442-501 | the recursive printer yields the element tree of the pure definition, which `Xml.ItemElements` and `Xml.EntryElements` describe, and records every prefix met, in order |
| XmlDocument.XmlDictSerializer.AddXmlns | vnfsvc/wsgi.py:428-440 | the root gets the fixed declarations and one per known prefix used |
| XmlDocument.XmlDictSerializer.CreateLinkNodes | vnfsvc/wsgi.py:503-507 | one link element per link, after the node's own children, unless a link lacks its texts |
| XmlDocument.XmlDictSerializer.Default | vnfsvc/wsgi.py:381-412 | the document for a dict or for None: root key or virtual root, links split off, declarations added; the caller's dict afterwards is what it was without its first key that ends in `_links`, if there is one, whether or not a document comes out |
| XmlDocument.LinksWritten | vnfsvc/wsgi.py:381-412 | links are written if and only if the value under the first link key is a non-empty list of links with their texts; a value Python takes for false gives a document without links, and any other raises |
| XmlDocument.RootOfPlain | vnfsvc/wsgi.py:381-412 | without a link key a single entry is written under its own key, unless that is empty, and anything else under the virtual root, whole |
| XmlDocument.GetLinks | vnfsvc/wsgi.py:629-640 | the link elements are read in order and taken out, the other children staying as they were |
| XmlDocument.LinkRead | vnfsvc/wsgi.py:633-635 | of a link its `rel` and `href` are read, each as text, or as nothing when missing |
| XmlRoundTrip.RootDeclares | vnfsvc/wsgi.py:428-440 | the root declares the default namespace, the two fixed prefixes, the atom prefix if asked, and every known prefix used, with its own namespace |
| XmlRoundTrip.AtomDeclared | vnfsvc/wsgi.py:428-440 | a written document declares the namespace of links if and only if the data has a link key |
| XmlRoundTrip.DocumentReads | vnfsvc/wsgi.py:647-668 | a written document reads back as its root entry with its links, or as the value under the virtual root; without a namespace in the metadata the value comes back without its types |
| XmlRoundTrip.DocumentRoundTrip | vnfsvc/wsgi.py:381-412 | writable data comes back as the same dict if and only if no key ends in `_links`, or it is one entry and the non-empty, well made list of its links, and moreover the metadata names a namespace or nothing in the data needs its type |
| Sorting.CmpFunc | vnfsvc/api/api_common.py:271-277 | at the first key the objects differ in, an ascending key gives a negative result for the smaller value first and a positive one for the larger, a descending key the opposite; zero only when they agree on all keys |
| Sorting.TotalPreorder | vnfsvc/api/api_common.py:271-277 | the mixed-direction comparison is a total preorder, and opposite when swapped |
| Sorting.StableSortUnique | vnfsvc/api/api_common.py:278 | sorted and equals-in-order leaves one possible result |
| Sorting.StableSortIsStable | vnfsvc/api/api_common.py:270-278 | the sort yields a permutation in order, equal objects as they were |
| Sorting.SortsAsAsked | vnfsvc/api/api_common.py:270-278 | of any two objects in the result the earlier has, at the first key they differ in, the smaller value if that key is ascending and the larger if it is descending, or they agree on all keys |
| Sorting.MultiKeyIsSuccessive | vnfsvc/api/api_common.py:270-278 | sorting by all keys at once equals stable single-key sorts from the last key to the first |
| Sorting.GetSorts | vnfsvc/api/api_common.py:124-148 | sort parameters are accepted if and only if they pair up, name attributes and have valid directions; the pairs then are the request's |
| Sorting.NonEmptyIs | vnfsvc/api/api_common.py:119-121 | of the values of a parameter exactly the empty ones are left out, the others keeping their order |
| Pagination.GetLimitAndMarker | vnfsvc/api/api_common.py:73-116 | for a cap and a limit given as decimal numbers, as `infinite`, or not at all: refused if and only if the limit is negative; without a positive cap the limit itself, zero meaning no paging; with one the limit while it is from 1 to the cap, and else the cap; and the same for any texts in terms of what is read from them |
| Pagination.Paginate | vnfsvc/api/api_common.py:206-217 | the page is the slice after the marker, or before it in reverse, and never longer than the limit |
| Pagination.PageAround | vnfsvc/api/api_common.py:206-217 | around the first item with the marker's id: the items after it, up to the limit; the limit items before it; when fewer are before it none, unless the whole list is shorter than the limit: then the last of them, as many as the list falls short of it |
| Pagination.MarkerIs | vnfsvc/api/api_common.py:209-214 | the marker is the first item with its id, and the last item when none has it |
| Pagination.GetPaginationLinks | vnfsvc/api/api_common.py:156-170 | exactly when a next and when a previous link is given, and where they lead |
| Pagination.WalkShowsAll | vnfsvc/api/api_common.py:206-217 | following next links from the start ends and shows every item once, in order, in pages of at most the limit |
| Pagination.NextThenPrevious | vnfsvc/api/api_common.py:53-70 | next and then previous leads back to the same page if and only if the next page is not empty |
| Pagination.PreviousThenNext | vnfsvc/api/api_common.py:53-70 | previous and then next leads back to the same page |
| Onboarding.GetVnfDetails | vnfsvc/plugin.py:1582-1640 | on success VDUs share a flavor if and only if their specs are equal, with one new flavor per spec; on failure everything created is gone, except an image whose polling failed, or, when a deletion fails, what the roll-back had not visited; in every ending the flavors and images from before are there unchanged, those given by id among them |
| Onboarding.GetVduImage | vnfsvc/plugin.py:1666-1681 | a given image must be usable, which takes one look and no creation; an uploaded one is created in one call and polled until its polls are used up, and an exception comes before or after its creation |
| Onboarding.SharingFacts | vnfsvc/plugin.py:1599-1635 | flavors are shared exactly by equal specs, images exactly by equal paths, and there are as many flavors as specs |
| Onboarding.TemplateCleanup | vnfsvc/plugin.py:1642-1647 | flavors and then images are deleted in order up to the first deletion that fails, and nothing else is; all are if none fails |
| Boot.AwaitAll | vnfsvc/plugin-latest-with-update.py:863-881 | the looks are taken in turn over a list that shrinks under the loop; collected are exactly the servers seen active, each once; success means all of them were, without an error seen; it fails at the first look that shows an error, and is still waiting only when the looks have ended |
| Boot.QuietRound | vnfsvc/plugin-latest-with-update.py:871-881 | a round in which no server is seen active looks at every server left, in order, and the next begins at the front |
| Boot.AwaitOne | vnfsvc/plugin-latest-with-update.py:845-862 | of the looks at a single server the first that decides does: one that shows it active with an address returns it, one after the first that shows an error fails; and without such a look the wait goes on |
| Boot.AppendedCounts | vnfsvc/plugin-latest-with-update.py:838-843 | splitting the record of launched instances at its commas counts them |
| Boot.VduServers.ServerCreate | vnfsvc/client/client.py:306-327 | the servers created get the names of their positions, counted from the index: the bare name for a single instance, and otherwise with an underscore and the number |
| Boot.VduServers.BootVdu | vnfsvc/plugin-latest-with-update.py:836-883 | over any sequence of creations and scale-outs the names of a VDU's servers are pairwise distinct; exactly the new servers are returned, each seen active in a look taken in turn, and none if a look showed an error |
| Rename.NsInfoMap | vnfsvc/plugin.py:1958-1969 | for every order of the keys the in-place loop yields the description with all mapped keys renamed at once, recursively |
| Rename.RenamedKeepsEntries | vnfsvc/plugin.py:1958-1982 | renaming loses no entry, and each is found under the key the mapping gives for its own, or under its own when the mapping has none |
| Rename.RenamingUndone | vnfsvc/plugin.py:1984-1997 | renaming with the inverse mapping restores the description |

## Left out

- OpenStack, Keystone, Glance, Neutron, Nova, database, ansible and shell calls: operations that succeed with fresh ids or fail.
- Notifications, logging, files, YAML and PDF output, the Flask listener and packet sniffing: no state of the protocol depends on them.
- Sleep durations: a polling loop waits for a change of state.
- The loop over `updatesTo` in `scale_out` and the manager's `update_vdu`: the loop always sends the first dependent and `update_vdu` passes too few arguments. Scaling is stated for VDUs nobody depends on.
- Several services at once, which would share `independent_vdus`: one service is modelled.
- Worker threads that fail to start, drivers that fail to load, and thread ids that collide (they are four hexadecimal digits): ids are a counter.
- VDU names as text: `vnfd:name` is kept as a pair, so names with a colon of their own are not covered.
- Two handlers of the manager running at the same moment: what they queue is dispatched in one order, one server at a time.
- Orchestrator.Orchestrator.Sleep: the other threads act only while the orchestrator sleeps; all interleavings are covered by the step system, not by the class.
- VnfManager.ScaleAllIsScaleVdus: for messages whose VDU names differ and server lists without repetitions, which is what `Boot.VduServers.BootVdu` makes; the handler itself is specified for all messages.
- Orchestrator.Orchestrator.CreateScale: a request let in while the orchestrator is not idle is followed up to its first message; its wait and its further VDUs run in a thread of their own, which the step system has as overlapping steps.
- States reached by an overlapping scale request: no invariant is stated for them, only what such a request does and that entries are never lost and COMPLETE is earned.
- A scale message for a name the table holds under another VNFD always raises in the model; in the original it would go on if that name had been scaled before. Distinct names rule the case out.
- The `attributes` metadata of the XML serializer, a namespace given to it explicitly, and floating-point values.
- XML text, its parser and the ElementTree library: elements are trees, and `Xml.Resolve` says what a parser makes of prefixes.
- Python's `int` also accepts blanks and a plus sign; the model does not.
- Sort keys missing from an object, which raise: `update_fields` adds them, and the model ranks them equal.
- An image path that is the text `image-id`, which collides with a bookkeeping key of the original; onboarding is stated as if it did not.
- Server creations that fail half-way through several: the names of the servers already made are then not in the record.
- Aliasing of nested dicts in `ns_info_map`: a dict is rewritten as a value.
- The function `vnf_info_map` is the same code with another mapping.
- Updates of running VDUs, diagnostics, monitoring, templates other than onboarding, and the backup copies of the manager.
