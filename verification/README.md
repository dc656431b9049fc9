# Verification of the deployment engine

This project models the parts of the repository that decide what a deployment does, and proves
what they promise.

* **The fairytale workflow engine** (`cloud/aws/executor/workers/fairytale`). A story is a graph of
  named parts between `S` and `E`. A builder checks and sorts it, `New` checks it against typed
  adapters, and two readers run it over an event stream with competing workers: the plain reader,
  and the repeatable reader, which can restart a story per dimension.
* **The probe's task machine** (`probe`). A configuration is worked off one task at a time; what is
  left of it goes back to a persistent stream after every task.
* **The feature resolver and the properties writer** (`config/parse.go`). They turn the features that
  services ask for into ordered lists of tasks, and make a service's port and its properties agree.

The modules build on one another. What the builder and `New` establish (links agree in both
directions, no cycle, everything reachable, adapters in bijection with their names) is exactly what
the protocol proofs of the two readers assume, and `EndToEnd` composes them; `Meaning` says what the
whole computes. What the resolver establishes is what the task machine needs, and `NodePlans` composes
those, from the declared definitions to the calls on a node.

| file | contents |
|---|---|
| `Options`, `Seqs`, `Walks` | values that may be missing; lists of distinct names; walks, cycles and reachability in graphs of names |
| `Story`, `SortProofs`, `StoryProofs`, `SortOrder`, `StoryBuilder` | the builder as functions, its theorems, the order in which the sort lists the parts, and its object |
| `Acceptance`, `Adapters` | `New`'s checks; `adapter.Execute` |
| `Plan`, `Bus`, `Journal`, `Topics` | an accepted story; the shared ledger of events, completions and grants; facts about it that both readers keep; the library below them |
| `Reader`, `ReaderSafety`, `ReaderProgress`, `ReaderLoop` | the plain reader: protocol, safety, progress, code |
| `Repeatable`, `RepeatableInvariant`, `RepeatableSafety`, `Fencing` | the repeatable reader: protocol, invariant, safety; which replica executes an event, and what a restart fences |
| `RepeatableProgress`, `RepeatableOrder`, `RepeatableEnds`, `Sums` | exactly when a run gets through; conditions under which every run does, and within how many steps; sums over replicas |
| `StaleFailure`, `TwoReplicas` | concrete runs: a join lost for good, and a newest run that another replica's empty acknowledgement ends |
| `RepeatableLoop`, `RepeatableReader` | the repeatable reader as code |
| `Wiring`, `EndToEnd` | every execution gets what its adapter asks for |
| `Meaning`, `ReaderMeaning`, `RepeatableMeaning` | what a story computes from its input, and that both readers compute it |
| `Probe`, `ProbeMachine`, `ProbeCrash` | `Next` and `Execute`; the machine and its whole runs; crashes and redelivery |
| `Resolver`, `ResolverProofs`, `ResolvedPlans`, `RunnablePlans`, `Provenance`, `Footprint`, `Undeclared`, `Redeclared`, `ResolverCluster` | the resolver: functions, joint induction, theorems, where the tasks come from, that nothing else is listed, what undeclared names and redeclared packages do, code |
| `NodePlans`, `Defaults` | from a resolved cluster to the execution on a node; the features that the repository gives every service, on two operating systems |
| `Texts`, `Props` | splitting, trimming and numbers; the properties writer |

## How the readers are modelled

The state is a ledger (created events, the events not yet acknowledged, the completion log, the
granted request ids, the started runs) and any number of replicas. Each replica has its own cursor
into the completion log. Every read or write of a shared map or object is a step of its own, and the
steps of all threads interleave freely. The library below the readers is a set of free choices: an
unacknowledged event may be delivered at any time and more than once, the first acknowledgement of an
event appends one completion that all replicas see in the same order while any later one does nothing,
a request id is granted at most once and may be refused at any time, and a write may fail. A replica
may be rebooted, and then starts from nothing, at any time.

## What turned out not to hold

* `End` misses a cycle through `S` when links lead back to `S`: two swaps in one round of the sort
  move `S` off slot 0, where the cycle check starts (`StoryProofs.CycleThroughStartAccepted`).
  `SortOrder.MissedExactly` says exactly when, from the order of the links alone; it does not happen
  where every part lists its links that lead to a cycle first (`SortOrder.EndDecidesCyclesFirst`).
* In the repeatable reader a worker of an older run may fail late and erase a part that the newest
  run has finished; then a join is lost for good though no write and no request failed
  (`StaleFailure.StaleFailureLosesJoin`). It takes neither a restart nor a failure: one event
  delivered to two workers is enough (`StaleFailure.RedeliveryLosesJoin`). Exactly when a run gets
  through, whatever all replicas do, is `RepeatableProgress.RunFinishesExactly`; conditions on calls
  and deliveries under which every current run does are those of `RepeatableOrder.OrderlyRunFinishes`
  and `RepeatableEnds.OrderlyRunsEnd`.
* A restart does fence the replaced run, in every replica (`Fencing.RestartFences`). But an event is
  executed only by the replica that installed its run; any other that knows the dimension takes the
  event and acknowledges it empty (`Fencing.PassesExactly`), as it does with the start event of the
  newest run, which then never completes anything (`TwoReplicas.NewestRunIsLost`,
  `RepeatableSafety.EmptyStartLosesRun`).
* `adapter.Execute` hands out data by type and order, not by name: where two predecessors return the
  same type, the parameters are wired as the adapter names them iff it names the adapters of that
  type in the order of those predecessors (`Wiring.WiredAsNamed`).
* A system-level feature that requires a service-level one is worked off before it, and a second
  service of the cluster does not get the required feature at all
  (`NodePlans.InvertedRequirement`, `ResolvedPlans.RequirementsFirst`).
* An undeclared name, requested or required, at whatever position, makes the resolver forget the
  service's list so far (`Undeclared.UndeclaredForgets`). A feature that is not listed yet, and below
  which everything of lower rank is declared, crashes resolution iff one of its own requirements is
  undeclared, it is of service level and that list was not empty; otherwise it is listed all the same,
  without what it requires (`Undeclared.UndeclaredCrashes`, `Undeclared.UndeclaredExample`). Where the
  undeclared name is further down, a feature whose own requirements are all declared may crash too
  (`Undeclared.UndeclaredBelowExample`).
* Where what a package manager requires declares the package anew, the task is built from the new
  declaration, and the cluster may have no manager for it (`Redeclared.RedeclaredTaskHasNoManager`).
* A task without a type ends the machine as if nothing were left, a type that is not registered
  stalls it, the type `next` makes it spin, and a task of a service without a name makes it panic
  after the task was executed (`ProbeMachine.RunExact`).
* `Props` is not idempotent when it reads the port from a line that is not in normal form
  (`Props.PropsTwice`).

A start event has the type of the adapter that is named `Start`, which need not be the one that S runs.

The resolver tests for the task type `installLocal`, while the configuration and the conversion of
tasks use `install_local`; the model follows the code, so an `install_local` task pulls in no package
manager.

## Model

| member | source | states |
|---|---|---|
| StoryBuilding.StoryBuilder.Id | cloud/aws/executor/workers/fairytale/story/story.go:62-76 | Returns the slot of the part with this id; a new part is appended only if the id was not there, so ids stay distinct. |
| StoryBuilding.StoryBuilder.LinkTo | cloud/aws/executor/workers/fairytale/story/story.go:237-241 | Adds exactly the links that are not there yet, in order, to one part, and keeps the builder's invariant. |
| StoryBuilding.StoryBuilder.BuildInnLinks | cloud/aws/executor/workers/fairytale/story/story.go:94-103 | The in-place double loop computes the specification of edge reversal on all parts. |
| StoryBuilding.StoryBuilder.SortNodes | cloud/aws/executor/workers/fairytale/story/story.go:151-216 | The array sort with swaps computes the specification that SortGraphExact and SortedByLinks characterise, including its failures and the order of the parts. |
| StoryBuilding.StoryBuilder.ValidateAsyclic | cloud/aws/executor/workers/fairytale/story/story.go:105-139 | The search over copied marks computes the specification that ExploreExact characterises, and terminates on the number of unmarked slots. |
| StoryBuilding.StoryBuilder.End | cloud/aws/executor/workers/fairytale/story/story.go:78-92 | The whole of End computes the answer that EndExact characterises, and leaves the built list in the builder. |
| StoryProofs.PreparedIncoming | cloud/aws/executor/workers/fairytale/story/story.go:94-103 | After edge reversal a part's incoming list holds, without repetition, exactly the parts that link to it. |
| StoryProofs.IncomingInOrder | cloud/aws/executor/workers/fairytale/story/story.go:94-103 | A part's predecessors are listed in the order in which they are declared. |
| StoryProofs.AppendsInOrder | cloud/aws/executor/workers/fairytale/story/story.go:261-277 | New links are appended in the order in which they are first given. |
| SortProofs.SortGraphExact | cloud/aws/executor/workers/fairytale/story/story.go:151-216 | The sort never writes past the array; it reports a missing node iff a link it can follow leads to an undeclared id; otherwise it lists every reachable part once, then blanks, then E, with S first where nothing links to S. |
| Plan.PermutationExactly | cloud/aws/executor/workers/fairytale/story/story.go:151-216 | The sorted list is a permutation of the declared parts iff all parts but E are reachable from S. |
| StoryProofs.ExploreExact | cloud/aws/executor/workers/fairytale/story/story.go:105-139 | Where links resolve, the search never indexes outside and reports a cycle iff some walk from the slot meets a marked slot or itself. |
| StoryProofs.EndExact | cloud/aws/executor/workers/fairytale/story/story.go:78-92 | For every tidy story: a missing node is reported iff one is reachable; otherwise a cycle is reported iff one is reachable from the part in slot 0; End never panics; what it builds is the sorted story. |
| StoryProofs.EndDecides | cloud/aws/executor/workers/fairytale/story/story.go:78-92 | Where nothing links to S, the three answers are exactly "a reachable link leads nowhere", else "a cycle is reachable from S", else built. |
| SortOrder.SortedByLinks | cloud/aws/executor/workers/fairytale/story/story.go:151-216 | The ids of the sorted list, slot by slot, are told by a fold over the links alone, in the order in which parts are met, then blanks, then E; every slot holds a declared part or is blank; and the listed parts are the discovered ones rearranged. |
| SortOrder.BuiltByLinks | cloud/aws/executor/workers/fairytale/story/story.go:78-92 | What End builds is in that order. |
| SortOrder.LinksBackShift | cloud/aws/executor/workers/fairytale/story/story.go:164-173 | Following one part's links back shifts the parts by one along them: the part takes the place of the first one, each of them the place of the next, the last one the part's own; all others stay. |
| SortOrder.NoLinkBackKeepsOrder | cloud/aws/executor/workers/fairytale/story/story.go:151-216 | Where no link leads back to a part met before, the parts stand in the order of discovery. |
| SortOrder.SagaIsSorted | cloud/aws/executor/workers/fairytale/story/story.go:151-216 | The story of the repository's own test, with a link back, is built in the order that the test expects. |
| SortOrder.TopIsFirstSlot | cloud/aws/executor/workers/fairytale/story/story.go:151-216 | The part left in slot 0, where the cycle check starts, is the first one of that order. |
| SortOrder.MissedExactly | cloud/aws/executor/workers/fairytale/story/story.go:78-92 | Whatever links to S: an acyclic story is never rejected, and a cyclic one is accepted iff the part that this order puts first leads to no cycle. |
| SortOrder.EndDecidesCyclesFirst | cloud/aws/executor/workers/fairytale/story/story.go:78-92 | Whatever links to S: where no reachable part lists a link to a part other than E that leads to no cycle before one that leads to a cycle, the three answers are exactly the ones of EndDecides. |
| StoryProofs.CycleThroughStartAccepted | cloud/aws/executor/workers/fairytale/story/story.go:164-173 | A concrete tidy story with a cycle through S that End builds. |
| Acceptance.New | cloud/aws/executor/workers/fairytale/repeatable/reader.go:81-140 | The nested loops of New compute the specification that NewExact, RefusedForPart and RefusedForAdapter characterise, in the order of its checks and errors, with the defaults that are missing. |
| Acceptance.DefaultsComplete | cloud/aws/executor/workers/fairytale/repeatable/reader.go:82-88 | The list that New checks extends the given adapters by the default for S exactly if none is given under its name, then by the default for E exactly if none is given under its name, and holds one of each name. |
| Acceptance.NewExact | cloud/aws/executor/workers/fairytale/repeatable/reader.go:81-140 | For the list with these properties: New accepts iff adapters and the adapter names in use are in bijection, every part but E has an adapter that requires each of its predecessors but S, and every part but S has a predecessor for each requirement but "any"; and it accepts with that list. |
| Acceptance.RefusedForPart | cloud/aws/executor/workers/fairytale/repeatable/reader.go:90-124 | The first part that is not served tells the error: no adapter of its name, a predecessor that the adapter does not ask for, or else a requirement that no predecessor meets. |
| Acceptance.RefusedForAdapter | cloud/aws/executor/workers/fairytale/repeatable/reader.go:126-140 | Where every part is served, New refuses iff adapters and names are not in bijection, and then for an unused adapter. |
| Acceptance.ChainAccepted | cloud/aws/executor/workers/fairytale/repeatable/reader.go:82-88 | A concrete story S, a, E with one adapter is accepted with both defaults added. |
| Acceptance.CountedBijection | cloud/aws/executor/workers/fairytale/repeatable/reader.go:126-140 | The count of adapters against names in use, with every lookup succeeding, already forces the bijection. |
| Acceptance.NoBlankAccepted | cloud/aws/executor/workers/fairytale/repeatable/reader.go:90-95 | With named adapters an accepted story has no blank slot. |
| Plan.BuiltIsSound | cloud/aws/executor/workers/fairytale/story/story.go:78-103 | A built story without blanks has the declared parts and E, links that agree in both directions, no cycle, and every part but E reachable from S. |
| Adapters.TakeOne | cloud/aws/executor/workers/fairytale/adapter/adapter.go:137-182 | One pass over the data takes the first unused datum that serves the requirement, marks exactly that one, and yields its decoded value, or nil for a nil type. |
| Adapters.TakeAll | cloud/aws/executor/workers/fairytale/adapter/adapter.go:133-182 | The outer loop yields the decoded values of the slots that the matching gives to the requirements, in their order, and marks exactly those; or fails iff there is no matching. |
| Adapters.Execute | cloud/aws/executor/workers/fairytale/adapter/adapter.go:130-211 | The whole of Execute computes the specification that ExecuteMeans, ExecuteLacks and ExecuteExact characterise, with its four outcomes. |
| Adapters.MatchIsGreedy | cloud/aws/executor/workers/fairytale/adapter/adapter.go:133-182 | For any data, decodable or not: each requirement in turn gets the first slot not yet given away whose datum is of its type and decodes; there is no matching iff that cannot be done; exactly those slots are marked. |
| Adapters.ParamsAreDecoded | cloud/aws/executor/workers/fairytale/adapter/adapter.go:171-179 | The parameters are exactly these: nil for a requirement of a nil type, and otherwise the decoded datum of the slot that the requirement got. |
| Adapters.ExecuteMeans | cloud/aws/executor/workers/fairytale/adapter/adapter.go:184-211 | With those slots and parameters: leftovers of a type with values are refused, but not for the End adapter; otherwise the function is called with them, and what is returned is its result, encoded under the adapter's type, or no bytes for a nil type. |
| Adapters.ExecuteLacks | cloud/aws/executor/workers/fairytale/adapter/adapter.go:137-182 | Execute refuses for lack of a parameter iff no such slots exist. |
| Adapters.ExecuteExact | cloud/aws/executor/workers/fairytale/adapter/adapter.go:133-194 | When data decode, all requirements are met iff none has an empty type and no type is asked for more often than it arrives; nothing but nil data is left over iff no type arrives more often than asked for; the k-th requirement of a type gets the k-th datum of that type, one to one. |
| Wiring.OrderDoesNotMatter | cloud/aws/executor/workers/fairytale/adapter/adapter.go:137-182 | With at most one datum of each type, Execute's result does not depend on the order in which the data arrive. |
| Wiring.WiredAsNamed | cloud/aws/executor/workers/fairytale/adapter/adapter.go:130-194 | For a sound accepted story and an unambiguous part, all requirements are met and nothing is left over; every requirement of a type with values gets the datum of the predecessor that runs the adapter it names iff, type by type, those adapters are required in the order of those predecessors. |
| Wiring.ParametersAreWired | cloud/aws/executor/workers/fairytale/adapter/adapter.go:130-194 | In that setting the call is reached with one parameter per requirement; and where the adapters are required in that order, parameter j is the value that decoding the output of the predecessor gives whose adapter requirement j names. |
| EndToEnd.DeployedIsSound | cloud/aws/executor/workers/fairytale/repeatable/reader.go:81-140 | What End builds from tidy declarations and New accepts with named adapters is sound: the premise of every reader theorem. |
| EndToEnd.EveryExecutionIsWired | cloud/aws/executor/workers/fairytale/repeatable/reader.go:308-318 | From declarations to executions: in every reachable state of the repeatable reader, executing a created event reaches the adapter's function, and where the adapters of one type are required in the order of its predecessors, with exactly its predecessors' outputs of that run where it asks for them. |
| EndToEnd.EveryPlainExecutionIsWired | cloud/aws/executor/workers/fairytale/reader/reader.go:231-241 | The same for the plain reader. |
| Meaning.OutputIs | cloud/aws/executor/workers/fairytale/reader/reader.go:147-180 | What a part is executed on, in the story's meaning, is the outputs of its predecessors in their order. |
| Meaning.SameOutputs | cloud/aws/executor/workers/fairytale/reader/reader.go:231-276 | Two runs with one input give the same outputs part by part, in whatever ledgers, of either reader. |
| ReaderMeaning.StartCarriesInput | cloud/aws/executor/workers/fairytale/reader/reader.go:200-221 | In every behavior the START event of a run carries exactly the input that its start was given, under the type of the adapter named Start. |
| ReaderMeaning.StoryComputes | cloud/aws/executor/workers/fairytale/reader/reader.go:141-278 | In every behavior of any number of replicas in which acknowledgements carry what executing returned, every event of a run holds and every completion of it gives what the story computes from the run's input. |
| RepeatableMeaning.StartCarriesInput | cloud/aws/executor/workers/fairytale/repeatable/reader.go:233-284 | The same over every behavior of the repeatable reader, through concurrent starts and reboots: input and dimension are those that the run was drawn with. |
| RepeatableMeaning.StoryComputes | cloud/aws/executor/workers/fairytale/repeatable/reader.go:170-361 | The same for the repeatable reader, run by run, through restarts, reboots and redeliveries. |
| Bus.ConsIdInjective | cloud/aws/executor/workers/fairytale/reader/reader.go:177-178 | Different parts or runs never share a request id. |
| Reader.ReachableInvariant | cloud/aws/executor/workers/fairytale/reader/reader.go:141-189 | Every interleaving of any number of replicas and restarts keeps the ledger's and the replicas' invariant. |
| ReaderSafety.AtMostOnceAndAgreed | cloud/aws/executor/workers/fairytale/reader/reader.go:143-187 | With any number of replicas each part of each run is created at most once, with its predecessors' outputs in their order, and no other payload was possible, whoever won the request. |
| ReaderSafety.AncestorsCompleted | cloud/aws/executor/workers/fairytale/reader/reader.go:147-180 | When a part has been created in a run, everything that leads to it has completed in that run. |
| ReaderSafety.EndComesLast | cloud/aws/executor/workers/fairytale/reader/reader.go:147-180 | Where every part links on, E is created only after all other parts completed. |
| ReaderSafety.RunFits | cloud/aws/executor/workers/fairytale/reader/reader.go:141-189 | A run creates at most as many events as the story has parts. |
| ReaderProgress.CreatedExactlyWhenReady | cloud/aws/executor/workers/fairytale/reader/reader.go:141-189 | With any number of replicas, none rebooted between a grant and its write: between completions, a part that nobody is about to write is created once one replica has recorded all its predecessors, and never before they have completed; for a replica that has read everything, exactly then. |
| ReaderProgress.CreatedOnceRecorded | cloud/aws/executor/workers/fairytale/reader/reader.go:141-189 | Where no replica is rebooted, no part is created before some replica has recorded all its predecessors. |
| ReaderProgress.QuiescentMeansDone | cloud/aws/executor/workers/fairytale/reader/reader.go:141-189 | In such a behavior of any number of replicas, when nothing is pending or being written and one replica has read every completion, every part of every run has completed, exactly once. |
| ReaderProgress.RunsFinish | cloud/aws/executor/workers/fairytale/reader/reader.go:141-189 | From a point on without starts and boots, such a behavior takes no more steps than the work that is left to all replicas, and where it cannot go on it is quiet. |
| ReaderLoop.PlainReader.New | cloud/aws/executor/workers/fairytale/reader/reader.go:200-221 | The start step, which creates S with one datum, the input under the type of the adapter named Start; or nothing. |
| ReaderLoop.PlainReader.Turn | cloud/aws/executor/workers/fairytale/reader/reader.go:231-278 | A turn of Read is the protocol's acknowledgement with the output, or nothing. |
| ReaderLoop.PlainReader.Collect | cloud/aws/executor/workers/fairytale/reader/reader.go:152-166 | The inner loop yields the outputs of all predecessors in order iff all are recorded. |
| ReaderLoop.PlainReader.OnCompleted | cloud/aws/executor/workers/fairytale/reader/reader.go:143-187 | One pass of the loop over a completion is a sequence of enabled protocol steps, and records exactly that completion. |
| ReaderLoop.PlainReader.Run | cloud/aws/executor/workers/fairytale/reader/reader.go:141-189 | The loop until it has read every completion is such a sequence too. |
| ReaderLoop.LeadsReaches | cloud/aws/executor/workers/fairytale/reader/reader.go:141-189 | Such sequences stay within the reachable states, so the theorems hold of the code. |
| RepeatableInvariant.ReachableInvariant | cloud/aws/executor/workers/fairytale/repeatable/reader.go:170-360 | Every interleaving of starts, resets, run checks, executions, failures, joins, writes and reboots keeps the invariant of ledger, dimensions, cells, threads and loops. |
| RepeatableSafety.RunsAreIsolated | cloud/aws/executor/workers/fairytale/repeatable/reader.go:172-226 | Whatever is restarted when, each part of a run is created at most once, and carries only outputs that completions of the same run and dimension recorded for exactly its predecessors, in their order. |
| RepeatableSafety.NoJoinBeforeACompletion | cloud/aws/executor/workers/fairytale/repeatable/reader.go:242-261 | No part but S is created in a run before some predecessor completed in that very run. |
| RepeatableSafety.UsableCellsAreOwn | cloud/aws/executor/workers/fairytale/repeatable/reader.go:198-203 | A cell that a join would take for a run holds the output of a completion of that part in that run. |
| RepeatableSafety.AncestorsCompleted | cloud/aws/executor/workers/fairytale/repeatable/reader.go:193-226 | When a part has been created, all its transitive predecessors have completed in that run and dimension. |
| RepeatableSafety.EndComesLast | cloud/aws/executor/workers/fairytale/repeatable/reader.go:193-226 | Where every part links on, E is created only after all other parts completed in that run and dimension. |
| RepeatableSafety.RunFits | cloud/aws/executor/workers/fairytale/repeatable/reader.go:193-226 | A run creates at most as many events as the story has parts, all in one dimension. |
| Fencing.RestartFences | cloud/aws/executor/workers/fairytale/repeatable/reader.go:301-307 | Over every behavior of any number of replicas, rebooted or not: once any of them has installed a later run in place of one, every event of the replaced run that any replica checks is acknowledged with the empty completion and starts nothing. |
| Fencing.PassesExactly | cloud/aws/executor/workers/fairytale/repeatable/reader.go:296-307 | An event of a run passes the run check of a replica iff that replica installed the run and has since neither replaced it nor been rebooted; otherwise it is acknowledged empty. |
| Fencing.OneReplicaExecutes | cloud/aws/executor/workers/fairytale/repeatable/reader.go:233-307 | All events of a run that ever pass a run check pass it in one and the same replica. |
| RepeatableSafety.EmptyStartLosesRun | cloud/aws/executor/workers/fairytale/repeatable/reader.go:301-307 | In no reachable state in which the start event of a run has been acknowledged empty has any part of that run completed, or any but S been created: the run is lost for good. |
| TwoReplicas.NewestRunIsLost | cloud/aws/executor/workers/fairytale/repeatable/reader.go:301-307 | For every story a reachable state of two replicas, each with a run installed in the same dimension, in which the replica that has not installed the newest run takes that run's start event and acknowledges it empty; whatever follows, the run completes nothing, though no write and no request failed. |
| RepeatableSafety.InertIsHarmless | cloud/aws/executor/workers/fairytale/repeatable/reader.go:172-194 | Recording an empty completion touches no part's cell in any dimension and joins nothing. |
| RepeatableProgress.RunFinishesExactly | cloud/aws/executor/workers/fairytale/repeatable/reader.go:170-361 | Over every behavior of any number of replicas: when a run is still held by the replica that installed it and nothing of it is left to do, every part of it has completed iff no step since lost anything of it, that is: its start event was written, no request that nobody had been granted was refused, no granted event failed to be written, no finished cell was overwritten while a part was still to be created from it, and no other replica checked one of its events. |
| RepeatableOrder.OrderlyLosesNothing | cloud/aws/executor/workers/fairytale/repeatable/reader.go:233-361 | With any number of replicas, rebooted at will: no step loses anything of a held run if each dimension is known to one replica, starts of one dimension do not overlap, no worker holds an event of the dimension when a run is installed, no event is delivered to two workers at once, first requests are granted and writes succeed. |
| RepeatableOrder.OrderlyRunFinishes | cloud/aws/executor/workers/fairytale/repeatable/reader.go:233-361 | Under those conditions the current run of every dimension has completed every part once nothing of it is left to do. |
| RepeatableEnds.OrderlyRunsEnd | cloud/aws/executor/workers/fairytale/repeatable/reader.go:170-361 | Under those conditions, with any number of replicas none of which is rebooted, and from a point on without further starts, failures and dropped outputs, the number of steps is bounded by the work that is left to all of them, and where no further step of that kind is enabled everything is quiet. |
| StaleFailure.StaleFailureLosesJoin | cloud/aws/executor/workers/fairytale/repeatable/reader.go:318-325 | A concrete run, without a failed write or refused request, in which a worker of an older run erases the finished S of the newest one, and E is never created. |
| StaleFailure.RedeliveryLosesJoin | cloud/aws/executor/workers/fairytale/repeatable/reader.go:308-318 | A concrete run without any restart, failure, failed write or refused request: the event of S is delivered to two workers, the second marks S as started after the first has finished it, and E is never created. |
| RepeatableLoop.ResetMeans | cloud/aws/executor/workers/fairytale/repeatable/reader.go:247-260 | After a reset a listed part is terminated if it had been started, restarted if it had finished, and waiting otherwise; other cells are untouched. |
| RepeatableReader.RepeatableReader.New | cloud/aws/executor/workers/fairytale/repeatable/reader.go:233-284 | rr.New is a sequence of protocol steps; it leaves the dimension with the new run, marked as started or restarted, every part reset and other dimensions untouched; and it writes the START event with one datum, the input under the type of the adapter named Start, or fails to. |
| RepeatableReader.RepeatableReader.Turn | cloud/aws/executor/workers/fairytale/repeatable/reader.go:295-360 | A turn of Read is a sequence of protocol steps, with the new cell and ledger stated for an unknown dimension, a stale run, a failure, nil data and an output. |
| RepeatableReader.RepeatableReader.Collect | cloud/aws/executor/workers/fairytale/repeatable/reader.go:196-204 | The inner loop yields the parameters in order iff every predecessor is finished in this run. |
| RepeatableReader.RepeatableReader.TryPart | cloud/aws/executor/workers/fairytale/repeatable/reader.go:194-226 | One link of a recorded completion: an event is written only with all predecessors' outputs of this run and under a request id that was free. |
| RepeatableReader.RepeatableReader.OnCompleted | cloud/aws/executor/workers/fairytale/repeatable/reader.go:172-227 | One pass of the completed loop is a sequence of protocol steps; it records the completion of the current run, and drops any other without effect. |
| RepeatableLoop.PlaysReaches | cloud/aws/executor/workers/fairytale/repeatable/reader.go:170-361 | Such sequences stay within the reachable states. |
| Probe.Execute | probe/actions/next.go:46-82 | The closure computes the specification of Execute, with both guards, a failing action, and the panic for a service without a name. |
| Probe.NextKeeps | probe/actions/next.go:17-44 | Next terminates, keeps the remaining tasks, names the type of the first of them and stands at it; it gives no event iff none is left. |
| Probe.PoppedIsRest | probe/actions/next.go:74-79 | Execute attempts exactly the first remaining task, with the service it belongs to, and its success leaves exactly the others. |
| Probe.ExecuteMeans | probe/actions/next.go:46-82 | For any configuration and type: the first guard is hit iff the head feature has no task, the second iff the first remaining task is of another type; otherwise exactly that task is attempted, and its success leaves exactly the others. |
| ProbeMachine.StateMachine.Func | probe/statemachine/sm.go:50-52 | Registers one function and leaves the others. |
| ProbeMachine.StateMachine.Start | probe/statemachine/sm.go:115-134 | Appends the start event of the configuration. |
| ProbeMachine.StateMachine.OnEvent | probe/statemachine/sm.go:73-110 | Handling one event is one turn of the specification: call, write what is next, acknowledge; or leave it unacknowledged. |
| ProbeMachine.StateMachine.Run | probe/statemachine/sm.go:64-113 | The event loop is that many turns, or as many as there are events. |
| ProbeMachine.RegisterAll | probe/main.go:70-80 | The probe registers Next to start with, and for each of its eight types the closure of that type. |
| ProbeMachine.RunExact | probe/statemachine/sm.go:64-113 | The calls of a whole run are the configuration's tasks in order, each once, up to the first that does not get done, and the machine ends done, halted, stalled, spinning, failing or crashed as that task says. |
| ProbeMachine.FullTrace | probe/statemachine/sm.go:64-113 | A configuration is executed in full with nothing left behind iff every task has a type with an action of its own, every service with tasks has a name, and the actions succeed. |
| ProbeCrash.NoTaskBeforeItsPredecessors | probe/statemachine/sm.go:73-110 | Under any starts, failures, crashes, lost writes and redeliveries, every attempt is of a task of a started configuration all of whose earlier tasks had succeeded for that start by then. |
| ProbeCrash.EventsHoldSuffixes | probe/statemachine/sm.go:73-110 | Every event holds a suffix of its start's tasks, everything before it has succeeded, and handling it hits neither guard of Execute. |
| ProbeCrash.AllAcknowledgedMeansDone | probe/statemachine/sm.go:83-110 | If no acknowledgement outlives its write and every event is acknowledged, every task of every started configuration with typed tasks has succeeded. |
| ProbeCrash.TurnsReach | probe/statemachine/sm.go:64-113 | A running machine stays within the states that the crash theorems are about. |
| ResolverProofs.ResolveAchieves | config/parse.go:390-536 | For declared and ranked requirements resolution terminates without a crash, only appends, keeps names unique in each list, lists everything requested, keeps every requirement before its feature within a level and system-level requirements listed, and adds only features of lower rank. |
| ResolvedPlans.RequirementsNeverAddIt | config/parse.go:474-486 | Resolving what a feature requires, from any good state that does not list it, never adds the feature itself, so the second look finds nothing. |
| ResolvedPlans.RequirementsFirst | config/parse.go:468-527 | In the order of execution a requirement comes before its feature iff not (the feature is of system level and the requirement of service level). |
| ResolvedPlans.PlannedOnce | config/parse.go:474-486 | No feature is planned twice, across both lists. |
| ResolvedPlans.AddedIsClosed | config/parse.go:477-527 | A feature that is added has all its requirements listed by then, of either level. |
| Undeclared.UndeclaredForgets | config/parse.go:390-401 | With everything of lower rank declared, resolving any names does not crash; the service's list so far is kept iff all of them are declared or there was none, and the system list only grows. |
| Undeclared.UndeclaredCrashes | config/parse.go:468-486 | One feature not listed yet, with everything of lower rank declared: resolution crashes iff some requirement of it is undeclared, it is of service level and the service's list is not empty; otherwise it ends up listed, and the earlier service list is gone iff a requirement is undeclared. |
| Undeclared.UndeclaredExample | config/parse.go:468-486 | A concrete configuration in which one request for a feature with an undeclared requirement lists it, and a request for another feature before it crashes. |
| Undeclared.UndeclaredBelowExample | config/parse.go:468-486 | A concrete configuration in which a feature whose requirements are all declared crashes resolution, because a requirement of its requirement is not. |
| Redeclared.RedeclaredTaskHasNoManager | config/parse.go:487-533 | A concrete configuration in which a feature that a package's manager requires redeclares the package: the install task is built from the new declaration, and no manager of the cluster is one of those it names. |
| ResolvedPlans.ServicesResolve | config/parse.go:154-169 | Over all services of a cluster: each service's list, worked off after the final system list, is in order and holds all that was asked for. |
| RunnablePlans.ResolveFits | config/parse.go:487-533 | Where the features in reach of what is asked for have supported types, and the packages that their tasks install are available to them, declared in one way only and installable, no blank task is emitted, and every install task has a manager in the cluster; what the first such manager requires of system level comes earlier. |
| RunnablePlans.EnsureFits | config/parse.go:583-613 | After the package-manager resolver one of the wanted managers is in the cluster, if one of them comes with the system or can be added, and what was fit stays fit. |
| RunnablePlans.EnsureAddsFirstKnown | config/parse.go:583-613 | Where none of the wanted managers is there, the first one that is declared at all is added, after what it requires, iff it requires anything; otherwise nothing changes. |
| RunnablePlans.LocalManagerComes | config/parse.go:499-520 | A task of type `installLocal` brings its declared manager into the cluster. |
| RunnablePlans.ClustersResolve | config/parse.go:136-169 | From a cluster as it is set up, for requests within declared features, resolution ends without a crash and leaves every service a plan that is in order and complete, and fit where the features in reach are sturdy. |
| Provenance.ResolveIsSourced | config/parse.go:296-536 | Whatever is asked for: every listed feature has the tasks that its declaration lists for the operating system, custom ones if there are any, one for one, each with the declared type, root flag, manager, package and text, with the service's name put in iff the feature is made out to a service and the type takes it; it is blank only if its type is not supported or its package was unknown; and the feature is in the service's list iff all its tasks are run as the service. |
| Provenance.ClustersAreSourced | config/parse.go:136-169 | The same of every service's plan, from a cluster as it is set up. |
| Footprint.ResolveAddsOnly | config/parse.go:390-536 | Nothing is listed but what is asked for and what that requires, directly or through the managers of packages that it installs. |
| Footprint.ServicesHoldTheirOwn | config/parse.go:154-169 | Whatever other services ask for, a service's list holds only what the service itself asks for and what that requires. |
| Footprint.SystemHoldsRequired | config/parse.go:154-169 | The system list grows only by what some service asks for and what that requires. |
| ResolverCluster.IndexOf | config/parse.go:270-278 | The first position of a name, or -1 iff there is none. |
| ResolverCluster.Cluster.FeatureToFeature | config/parse.go:390-536 | The loop, updating the cluster in place, computes the specification; it terminates by a lexicographic measure on rank. |
| ResolverCluster.Cluster.OneFeature | config/parse.go:468-533 | One feature, with both containment checks, the append and the package table, as specified. |
| ResolverCluster.Cluster.BuildTasks | config/parse.go:487-522 | The array of tasks is the specified one, which Provenance characterises, with blanks where a package is unknown. |
| ResolverCluster.Cluster.ValidateOrAddPackageManager | config/parse.go:583-613 | The mutually recursive resolver of package managers, whose loop ends at the first known manager, as specified. |
| ResolverCluster.ResolveAll | config/parse.go:154-169 | The services one after the other, as specified. |
| NodePlans.FitPlansAreExecuted | probe/statemachine/sm.go:64-113 | A fit plan whose own tasks' types have actions is executed in full by the node's machine, each task once and in order, if the actions succeed. |
| NodePlans.FitPlansRunOnTheProbe | probe/main.go:70-80 | With what the probe registers, that holds of every fit plan whose tasks have one of its eight types. |
| NodePlans.ExecutedAsDeclared | probe/statemachine/sm.go:64-113 | What the node executes of a fit plan is, feature by feature in the plan's order, the tasks that the feature's declaration lists for the operating system, in their order, with the declared types and texts, each for the right service. |
| NodePlans.InstallManager | probe/actions/install.go:14-36 | The loop over the node's managers ends at the first one that the package names, or with none. |
| NodePlans.InstallsFindTheirManager | probe/actions/install.go:14-36 | On a node with the cluster's final managers no install task of a fit plan ends without a manager, and all features of system level that this manager requires are worked off before. |
| Defaults.DefaultsAreRunnable | config/parse.go:136-169 | With the features that every service is given, declared as in the repository beside java and zulu ones that are not asked for, on Debian and on Amazon Linux 2023: any number of services resolve without a crash to complete, fit plans whose features are as declared, and the probe has an action for every task. |
| NodePlans.InvertedRequirement | config/parse.go:469-473 | A concrete system-level feature is worked off before the service-level one that it requires, and a second service asking for it does not get the required one. |
| Texts.JoinSplit | config/parse.go:574-574 | Joining what was split gives the text back. |
| Texts.SplitJoin | config/parse.go:549-549 | Splitting what was joined gives the lines back, if none holds the separator. |
| Texts.TrimMeans | config/parse.go:539-539 | Trimming takes white space off both ends, all of it and nothing else. |
| Texts.AtoiItoa | config/parse.go:559-559 | A printed number reads back as itself. |
| Texts.AtoiMeans | config/parse.go:559-559 | A text reads as a number iff it is an optional sign and at least one digit within 64 bits, and then as the number that the digits stand for. |
| Props.Service.Props | config/parse.go:538-581 | The method, with its in-place edits of key, port and lines, computes the specification with its five ways to fail. |
| Props.OutcomeExactly | config/parse.go:538-581 | For any key and properties: a port without a key is refused, neither leaves the text as it is, a key with a port succeeds iff the port exceeds 1024, and a key alone is refused as lacking a port iff no line starts with it. |
| Props.OutcomeOfLine | config/parse.go:553-569 | With a key alone, the first line that starts with it decides: no `=` panics, no number is refused, a number up to 1024 is too small, and any other is the port, with the text kept. |
| Props.GivenPortIsSet | config/parse.go:571-580 | With a key and a port above 1024 the first line that starts with the key, or a new first line, sets the port, whatever the key. |
| Props.PropsAgree | config/parse.go:538-581 | On success with a plain key the port exceeds 1024, the first line of the result that starts with the key reads back as that port, and all other lines are the input's in order. |
| Props.PropsTwice | config/parse.go:538-581 | A second run on the result changes nothing iff the port was given, or the key's line was in normal form already. |

## Assumptions

These are premises of the theorems, and each is visible in their statements.

* Only the first acknowledgement of an event appends a completion. That no other payload of a part was
  possible (`ReaderSafety.AtMostOnceAndAgreed`) rests on it.
* Part ids are not empty, `E` links to nothing, and, where stated, nothing links to `S`.
* Run ids are fresh and 36 characters long without an underscore. Every acknowledgement carries what
  executing the event's part returned, where it is stated what a story computes (`Truthful`). JSON is taken as a decoder and an
  encoder per type; where outputs are compared they decode.
* Wiring, for the part at hand: no two parts of the story share an adapter; a fingerprint that an
  adapter requires has the type of the adapter that it names; the part's adapter requires each name
  once and never "any"; its predecessors have types that are not empty; and `S` is required where it
  is linked or has a nil type. Which of two predecessors of one type a requirement gets depends on
  their order, as `Wiring.WiredAsNamed` says.
* Resolver, termination: a rank decreases along what features require and along what the managers of
  their packages require. Where features require one another in a circle the code recurses without
  end.
* Resolver, scope: the theorems are about a set of declared features that holds what is asked for and
  what those features, and the managers of the packages they install, require. What an undeclared
  name does is stated in `Undeclared`.
* Fit plans: within that set, task types are supported; the package of an install task is global or
  made available by something its feature requires; all features of the set that declare it name the
  same managers; and one of these comes with the system, or the first that is declared at all can be
  added.

## Left out

- Clouds, DNS, certificates, load balancers, databases, websockets, chat, git, the loading of
  configuration files, command execution and health probing: calls to foreign systems without an
  invariant of their own.
- The stream and consensus library, encryption and JSON: taken as the choices described above, and as
  given functions.
- Pointers that the builder hands out: `Adapter` and `LinkTo` are modelled on slots of the node list, so
  a builder that writes through a pointer kept across a reallocation of the list is not captured, nor
  is a second `End` on the same builder.
- The order of `Parts()` as a topological order: it is not one, and execution does not use it.
- Success of the default End adapter: its "any" requirement has an empty type, which `Execute` never
  serves, so a story that relies on it fails at E.
- ReaderProgress.QuiescentMeansDone: with granted first requests, succeeding writes and no reboot between a
  grant and its write; the code itself notes that it loses events when a request is refused.
- RepeatableOrder.OrderlyLosesNothing: the conditions are sufficient, not necessary; the exact one is that of
  RepeatableProgress.RunFinishesExactly.
- RepeatableEnds.OrderlyRunsEnd: a failed adapter or a dropped output is delivered again without limit, so
  the bound is for behaviours without them from some point on; a rebooted replica reads every completion
  again, and an event of a dimension that no replica knows any more is never acknowledged.
- The compare-and-swap calls on a dimension with its own pointers and the final `dimensions.Set` of a
  start: they put back what is there, so they are no steps. The state of a dimension and its run are
  swapped in one step.
- RepeatableReader.RepeatableReader.New: the methods are proved as uninterrupted sequences of steps; their
  interleavings are those of the protocol, not of the methods.
- The text substitution of `<service>` is a given function on a task's text; the shared `Command` slice,
  which an earlier service rewrites for later ones, is not modelled.
- Of a task only its type, privilege, package, manager and one text are modelled; Defaults.DefaultsAreRunnable
  leaves out the texts and the features that no service is given, but for java 17 and zulu.
- The extra feature that starts a service's artifact, and the service requirements that are only logged.
- ProbeMachine.RunExact: waiting for events and the two contexts are a bound on the number of events; the
  outcome of an action is a given function of how many actions were attempted before.
- Acceptance by the plain reader's New, whose checks are the same as the repeatable reader's.
- The stack of the story package, byte sizes, subnets, names and logging: small, or unused.
