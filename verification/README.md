# CUMA, verified

A model, in Dafny, of the parts of CUMA (a control plane that plans a coding goal, routes its
tasks to coding agents and recovers from failures) whose correctness does not show in any one
function body, with proofs of what those parts are for.

`dafny verify dfyconfig.toml` checks everything.

## What is modelled

**Running a plan.** `TaskGraph` is the class with its rows and insertion order: Kahn's validator,
the ready frontier, the transitive skip. `Orchestrator` is the class that runs waves of ready
tasks on copies of the graph, folds back only each task's own row, cascades failures and keeps two
ledgers. Router, its probe for alternatives, adapters, retry policy, write prediction and the
merging of isolated work are arbitrary functions (`Env`); the ownership ledger is a class of its
own. The abstract theory underneath (`Dag`, `Waves`) says what a run of waves does to statuses:
runs agree whatever the admission choices were, always make progress, and end with the statuses
that the plan and the oracle alone dictate. `Courses` says of any course of attempts how each of
them came about, in terms of the router's and the policy's answers alone. `Endings` and `Journeys` say what splits do to that,
and how many passes they take. `ExecuteGraph` is proved against all of it.

**Planning.** `ParsePlan` reads any text as a plan, or refuses it. `PlanFor` builds the heuristic
plan of a goal of any shape, and `Split` replaces an overflowing task by two parts. `PlanLines`
relates the numbers in a reply to its lines, and `PlanNumbers` writes replies the way the prompt
asks for and shows that they are read as they were meant.

**The A2A service.** `A2aServer` is the class with the bounded task map and the durable rows; its
handlers are proved equal to the steps of `Service`, and `Serving` proves what every run of steps
keeps, crashes, restarts and runs that outlive their records included. `Publishing` says what each
step tells callers and leaves in the task's row. `TaskStreams` interleaves
the halves of any number of writers' changes with a subscriber of a bounded channel that may lag.
`Followers` takes the events across the wire to the client's task. `Wire` is the two-dialect
printer and parser, `Sse` the incremental splitter of the event stream, and `SseFields` the events a
server may send.

**The MCP connection pool** (`McpPool`) is a protocol of slot locks, references, dying servers and
an idle reaper, with an inductive invariant over all interleavings.

**Data that must agree with something simpler.** The routing history with the attempts it sums up,
the capability index with a scan, TOML escaping with unescaping.

## What the proofs found

- A dependency listed twice is counted twice and drained once, so the validator calls such a
  plan cyclic (`Validation.RepeatedDependencyIsRefused`). The documentation speaks of cycles and
  dangling dependencies only. `Validate` says exactly which plans are valid.
- After a split the old task is skipped and its dependents still name it, so they never become
  ready (`Waves.BehindReplacedNeverReady`). A split that did not run alone in its wave is lost
  altogether: the task ends skipped and neither part joins the plan (`Runs.FoldLost`;
  `Bounds.CompanyLosesTheParts` and `Bounds.DependentStays` are such runs). So not
  every task ends terminal. `ExecuteGraph` says which do not: once nothing is ready, exactly the
  tasks `LeftBehind` a split, which plan and oracle determine. If nothing that somebody waits for
  is split there are none (`Endings.LeavesAreHarmless`); a dependent of a split task that waits for
  nothing else that fails is one (`Endings.DependentIsLeft`).
- The bound of 2n + 4 passes does not allow for the passes splits add. One task at a time, a plan
  needs `ToRun` passes, and the run ends with nothing left to start if and only if these are at
  most 2n + 4. Five independent tasks that are all split need fifteen and get fourteen
  (`Bounds.SplitsMeetTheBound`). At any parallelism the bound stops a run early only if splits
  brought the plan above 2n + 4 tasks. Without splits n passes suffice.
- A pass whose ready tasks all write what another session holds admits nobody, and is not taken
  for a stall, as the comment above the loop has it: the loop goes on until the bound
  (`Bounds.ForeignClaimStopsAll`). `AdmitConcurrently` and `RunPass` say exactly when that happens.
- Dependency numbers in a model's reply count accepted rows, while the prompt asks for line
  numbers. A number means the line it names if and only if that line and all before it were
  accepted (`PlanLines.NumberNamesLineIff`); in a reply within a code fence no number does
  (`PlanLines.FencedNumbersAreOff`). A number of a row not accepted before is dropped rather than
  refused.
- A task's abort handle is stored after its run was started. A cancel that comes in between aborts
  nothing, and the run overwrites the cancellation; in every reachable state, and whatever happens
  afterwards, a cancel holds exactly when the handle was there
  (`Serving.CancelHoldsIffHandleStored`).
- If such a cancelled task is evicted before its run writes again, the run brings back the row
  that was removed. The rows mirror the map along a run if and only if that never happens
  (`Serving.RunKeepsIff`), an empty server can get there (`Serving.StraysHappen`), and the next
  restart takes the forgotten task back, in a full map at the cost of the oldest kept one
  (`Serving.ForgottenComesBack`). What a record's own row says is right in every state
  (`Serving.RunKeepsBacked`).
- A stream ends at the first settled state it shows. Its subscriber learns the final state, for
  every timing, if and only if the task was not settled otherwise in between
  (`TaskStreams.SubscribersLearnTheEnd`). The server's steps see to that for every task that is not
  cancelled too early (`ServedStreams.ServedStreamsSettleOnce`), and not for one that is
  (`ServedStreams.EarlyCancelMisleads`).
- Line ends are normalised chunk by chunk, so a carriage-return line-feed pair cut by a chunk
  boundary counts twice and can split an event (`Sse.CutLineEndSplitsAnEvent`). The text taken in
  differs whenever a pair is cut; `SseCuts.ChunksChangeNothingIff` says when the events do.
- Recording an attempt under a known id replaces its row and still adds to the history; recording
  one under another type than its task's, or saving a task that has attempts under another type,
  puts them in different buckets. In these cases, and only then, history and attempts come to
  disagree (`History.HistoryStaysRightIff`).
- The store adds the tokens of failed attempts to a bucket's total and divides that by its
  successes, while the executor hands the router's own history the tokens of successes only
  (`Attempts.OutcomesTell`). The mean loaded after a restart is the mean over the successes if and
  only if the failures took next to nothing (`History.LoadedTokensAreRightIff`).
- Page tokens are offsets into a listing that moves between two pages. The caller sees exactly what
  it has not seen yet if and only if as many tasks stand before that as it was shown; with more,
  from tasks that started, it sees some again, and with fewer, from tasks that no longer match, it
  misses some (`A2aServers.PagesGoOnIff`).
- The capability index joins the capabilities of all models of an agent, so it can keep an agent
  no single model of which suffices (`Capabilities.ModelsMayCoverOnlyTogether`). It never does if
  and only if each agent has, with one choice of model, all that it can do with any
  (`Capabilities.NarrowingIsExactIff`). It never drops an agent that suffices.

## Model

| member | source | states |
|---|---|---|
| `Dag.TopologicalIsAcyclic` | crates/cuma-core/src/task.rs:418-421 | A dependency relation that has a topological order has no cycle |
| `Dag.StuckSetHasCycle` | crates/cuma-core/src/task.rs:465-472 | If every member of a non-empty set waits for another member, there is a cycle: what Kahn's count of visited tasks relies on |
| `Dag.AcyclicIffOrderable` | crates/cuma-core/src/task.rs:418-473 | A closed relation is acyclic if and only if its tasks can be listed each after everything it waits for |
| `TaskGraphs.TaskGraph.Add` | crates/cuma-core/src/task.rs:384-390 | A new id is appended to the insertion order; a known id replaces its row and keeps its place |
| `TaskGraphs.TaskGraph.Validate` | crates/cuma-core/src/task.rs:421-473 | Answers that the plan is valid exactly when every dependency names a task, no dependency list repeats an entry, and there is no cycle; a dangling dependency is named truthfully |
| `Validation.DrainedIffSound` | crates/cuma-core/src/task.rs:450-472 | Once the queue is empty, as many tasks were visited as there are exactly when the plan is sound |
| `Validation.DrainedFits` | crates/cuma-core/src/task.rs:454-464 | No task is queued twice, so at most as many are visited as there are |
| `Validation.DrainStep` | crates/cuma-core/src/task.rs:455-462 | Visiting a task keeps the indegree bookkeeping right for every dependent, and no counter goes below zero |
| `Validation.RepeatedDependencyIsRefused` | crates/cuma-core/src/task.rs:436-463 | A plan with no cycle whose task names one dependency twice is refused, as a cycle |
| `Frontiers.FrontierIsExact` | crates/cuma-core/src/task.rs:480-496 | The ready frontier is exactly the startable tasks whose dependencies are all completed, without repeats, by falling priority and, at equal priority, in insertion order |
| `Frontiers.FrontierIsTheStartable` | crates/cuma-core/src/task.rs:480-493 | The frontier holds exactly the pending or ready tasks all of whose dependencies are known and completed |
| `Frontiers.FrontierIsByPriority` | crates/cuma-core/src/task.rs:486-496 | Of two tasks in the frontier the earlier has the higher priority, or the same and was planned earlier |
| `TaskGraphs.TaskGraph.IsComplete` | crates/cuma-core/src/task.rs:499-501 | Complete exactly when no task is pending, ready or running |
| `TaskGraphs.TaskGraph.CascadeSkip` | crates/cuma-core/src/task.rs:507-535 | Marks, and names without repeats, exactly the unfinished tasks that reach the failed one through unfinished tasks; no other row changes |
| `Cascades.CascadeIsExact` | crates/cuma-core/src/task.rs:507-535 | When nothing waits for the frontier any more, what was skipped is exactly the doomed set |
| `Waves.DoomIsLeast` | crates/cuma-core/src/task.rs:507-535 | The doomed set is the least set closed under waiting for a root or a member |
| `Tokens.MergeIsCommutativeMonoid` | crates/cuma-core/src/task.rs:181-188 | Saturating merge of token usage is associative and commutative, with nothing as unit |
| `Tokens.SumOverIsOrderFree` | crates/cuma-core/src/task.rs:538-544 | The plan's token total does not depend on the order the tasks are visited in |
| `TaskGraphs.TaskGraph.TotalTokens` | crates/cuma-core/src/task.rs:538-544 | The loop over the rows computes the merged usage of every attempt of every task, failed ones included |
| `Waves.CascadeSparesWave` | crates/cuma-orchestrator/src/executor.rs:550-588 | The cascade behind a failed member of a wave never reaches another member of that wave |
| `Waves.FoldOrderIrrelevant` | crates/cuma-orchestrator/src/executor.rs:550-588 | Folding a wave's results back one by one, in any order, gives what the wave gives as a whole |
| `Waves.WaveKeepsSettling` | crates/cuma-orchestrator/src/executor.rs:459-589 | Every wave of ready tasks keeps the invariant: finished tasks ended as plan and oracle dictate, and no unfinished task waits for a failed or skipped one |
| `Waves.SkippedIffFailedAncestor` | crates/cuma-orchestrator/src/executor.rs:579-587 | A task ends skipped if and only if something it waits for, directly or not, ends failed |
| `Waves.RunsAgree` | crates/cuma-orchestrator/src/executor.rs:454-592 | Any two finished runs of a fresh sound plan under the same oracle end with the same statuses, whatever the waves were: those the plan and the oracle alone dictate |
| `Waves.TaskRunsOnceInOrder` | crates/cuma-orchestrator/src/executor.rs:454-592 | In any run of waves a task is in at most one wave, and only after everything it waits for is completed; what `ExecuteGraph` itself runs is said in its own row |
| `Journeys.RunInOrderGrows` | crates/cuma-orchestrator/src/executor.rs:546-588 | One more ready task run keeps the list of tasks run: each once, each after everything it waits for, all of them finished, and nothing else completed |
| `Waves.SomethingIsReady` | crates/cuma-orchestrator/src/executor.rs:459-496 | While a sound plan nothing was taken out of is unfinished, some task is ready |
| `Waves.RunsAreBounded` | crates/cuma-orchestrator/src/executor.rs:459-496 | A run has at most as many waves as tasks, and an unfinished one can go on |
| `Waves.StalledBehindReplaced` | crates/cuma-orchestrator/src/executor.rs:481-496 | When nothing is ready, every unfinished task waits, through unfinished tasks, for one a re-planning took out |
| `Waves.BehindReplacedNeverReady` | crates/cuma-orchestrator/src/executor.rs:546-567 | What waits for a task that a re-planning took out is never ready again |
| `Ledgers.OwnershipLedger.Claim` | crates/cuma-workspace/src/ownership.rs:85-119 | All or nothing: refused exactly when some file under a claimed path lies under a path another task holds, and the first such path is named with its holder; ownership stays exclusive |
| `Ledgers.OverlapIsSharing` | crates/cuma-workspace/src/ownership.rs:62-79 | Two paths overlap if and only if some file lies under both: equal, or one within the other, the root above all |
| `Ledgers.HeldIsSharing` | crates/cuma-workspace/src/ownership.rs:96-106 | A path is held by another task if and only if some file under it lies under a path that task holds |
| `Ledgers.GrantKeepsExclusive` | crates/cuma-workspace/src/ownership.rs:68-119 | Granting paths nobody else overlaps keeps every two tasks' claims apart |
| `Ledgers.GrantThenRelease` | crates/cuma-orchestrator/src/executor.rs:29-42 | Granting and then releasing leaves exactly what the others hold |
| `Executor.Orchestrator.AdmitConcurrently` | crates/cuma-orchestrator/src/executor.rs:599-641 | Admits, without repeats, ready tasks that hold every path they will write, no file of one lying under a path of another, and touches nobody else's claims; admits somebody if and only if some ready task could go on its own: known, and read-only or writing nothing that overlaps another's claim |
| `Admission.WaveWritesApart` | crates/cuma-orchestrator/src/executor.rs:599-641 | No file lies under a predicted path of each of two writing members of a wave |
| `Admission.OutputsAre` | crates/cuma-orchestrator/src/executor.rs:607-616 | What is predicted is told the files that the task's dependencies in the plan changed, and no others |
| `Attempts.CourseIsBounded` | crates/cuma-orchestrator/src/executor.rs:675-683 | However the router, its probe for alternatives, the adapters and the retry policy answer, a task never exceeds its attempt budget, and its target is that of its last attempt |
| `Attempts.CourseEndsWithSuccess` | crates/cuma-orchestrator/src/executor.rs:829-908 | A course succeeds exactly when its last attempt does; every earlier attempt failed |
| `Courses.CourseIsExplained` | crates/cuma-orchestrator/src/executor.rs:675-970 | Every attempt went where the router said with exactly the targets left out that were given up before, says what the adapter replied, and all but the last failed and were retried or rerouted; why there were no more is one of: success, the policy, the budget, nowhere to go |
| `Courses.RerouteIsForGood` | crates/cuma-orchestrator/src/executor.rs:954-957 | With a router that honours exclusions: if the policy answers an attempt with a reroute, no later attempt of that course goes to the same target |
| `Courses.RetryExcludesNothing` | crates/cuma-orchestrator/src/executor.rs:946-953 | If it answers with a retry, the next attempt is routed with the same targets left out as this one |
| `Courses.InARowCounts` | crates/cuma-orchestrator/src/executor.rs:912-957 | The policy is told how many attempts went by since the last reroute |
| `Attempts.OutcomesTell` | crates/cuma-orchestrator/src/executor.rs:1377-1397 | The routing history is told of every attempt its target, its success, and input and output tokens of those that succeeded |
| `Attempts.AbandonedForGood` | crates/cuma-orchestrator/src/executor.rs:912-970 | The same from any point of a course, for targets excluded already |
| `Executor.Orchestrator.Pursue` | crates/cuma-orchestrator/src/executor.rs:668-993 | The route, execute, record, react loop terminates with exactly the specified course: the row's status, target, attempts and artifacts, and both ledgers one entry per attempt; the attempts it adds to the row are explained as in `CourseIsExplained`, and the row ends completed exactly if the last one succeeded |
| `Executor.Orchestrator.ExecuteTask` | crates/cuma-orchestrator/src/executor.rs:649-993 | Running a task on a graph leaves every other row alone unless the planner splits the task; a task not in the graph is not run |
| `Runs.LandingAddsEachOnce` | crates/cuma-orchestrator/src/executor.rs:1066-1074 | Work that lands makes every changed file an artifact exactly once, behind those that were there, and changes nothing else of the row |
| `Executor.Orchestrator.RunMember` | crates/cuma-orchestrator/src/executor.rs:513-544 | A wave member runs on a copy: the plan itself stays as it was |
| `Executor.Orchestrator.RunWave` | crates/cuma-orchestrator/src/executor.rs:511-544 | Every member's attempts are booked, and each result is what running that member alone on the wave's plan yields |
| `Executor.Orchestrator.FoldBack` | crates/cuma-orchestrator/src/executor.rs:546-588 | Folding a wave's results back keeps the plan under way, the books balanced and the graph's growth to two tasks per honoured split, and releases each member's claims |
| `Executor.Orchestrator.DropClaims` | crates/cuma-orchestrator/src/executor.rs:29-42 | Whatever a wave still holds is released when its guard is dropped |
| `Executor.Orchestrator.RunPass` | crates/cuma-orchestrator/src/executor.rs:459-589 | A pass runs only tasks that are ready and shrinks the unfinished tasks by each (but for two per honoured split); it stops the walk exactly when nothing is ready, and runs nobody and changes nothing exactly when no task within the limit could go on its own; in a wave of several, members that are split end skipped and no part joins |
| `Executor.Orchestrator.ExecuteGraph` | crates/cuma-orchestrator/src/executor.rs:454-592 | The plan stays sound, books balance, others' claims stay, at most 3n tasks in the end; tasks ran once each, after everything they wait for; somebody runs if and only if somebody is admissible at the start, otherwise all 2n + 4 passes are empty; with nothing ready at the end the unfinished tasks are exactly those `LeftBehind` a split (at most those, if a split may fail in company because its work does not land); unless somebody else holds a path a task may write, it stops early only with over 2n + 4 tasks, is complete if nothing awaited overflows, within n passes and with the dictated statuses if nothing overflows, and one task at a time takes min(ToRun, 2n + 4) passes and leaves nothing ready if and only if ToRun is at most 2n + 4 |
| `Journeys.MoveKeepsLived` | crates/cuma-orchestrator/src/executor.rs:546-588 | Folding a result back keeps, of the whole run: execution order, that only tasks that got to run were split, that parts wait only behind what succeeds or each other, and that those left behind are still unfinished |
| `Journeys.MoveIsOneLess` | crates/cuma-orchestrator/src/executor.rs:459-588 | One task at a time, every pass leaves exactly one execution less to go, splits included: the count `ToRun` is exact |
| `Endings.UnfinishedAreLeft` | crates/cuma-orchestrator/src/executor.rs:481-496 | With nothing ready, whoever is unfinished waits, directly or not, for something that would not succeed, and all of that which ran was split |
| `Endings.LeavesAreHarmless` | crates/cuma-orchestrator/src/executor.rs:546-567 | If nothing that somebody waits for is split, nobody is left behind |
| `Endings.DependentIsLeft` | crates/cuma-orchestrator/src/executor.rs:546-567 | If a task that is split is all that fails behind its dependent, the dependent is left behind |
| `Bounds.IndependentSplitsNeedThrice` | crates/cuma-orchestrator/src/executor.rs:463-473 | Independent tasks that all split, with first parts that succeed, need three passes each, one at a time |
| `Bounds.SplitsMeetTheBound` | crates/cuma-orchestrator/src/executor.rs:463-473 | n such tasks, one at a time, take min(3n, 2n + 4) passes, and the run ends while a task is ready if and only if n is at least five |
| `Bounds.ForeignClaimStopsAll` | crates/cuma-orchestrator/src/executor.rs:599-641 | With another session holding the workspace and every task writing something, any number of tasks and any parallelism: 2n + 4 empty passes, and the plan comes back untouched |
| `Bounds.DependentStays` | crates/cuma-orchestrator/src/executor.rs:546-567 | A task that is split and one that waits for it, at any parallelism: the run ends with nothing ready and the second task unfinished |
| `Bounds.CompanyLosesTheParts` | crates/cuma-orchestrator/src/executor.rs:546-567 | Two tasks run together, the first of which is split: one pass finishes both, the first as skipped, and no part joins the plan |
| `Runs.FoldPlain` | crates/cuma-orchestrator/src/executor.rs:546-588 | A result without a re-planning changes only its own row and what its failure cascades to |
| `Runs.FoldSplit` | crates/cuma-orchestrator/src/executor.rs:546-567 | A split that ran alone brings its two parts into the plan, which stays sound |
| `Runs.FoldLost` | crates/cuma-orchestrator/src/executor.rs:546-567 | A split that did not run alone is lost: the task ends skipped, neither part joins the plan |
| `Books.BooksBalance` | crates/cuma-orchestrator/src/executor.rs:1329-1410 | If the ledger holds exactly the plan's attempts, its token total is the plan's |
| `Books.FoldKeepsBooks` | crates/cuma-orchestrator/src/executor.rs:550-588 | Folding a result back keeps every task's ledger entries equal to its attempts, in order |
| `Attempts.LedgerTotal` | crates/cuma-core/src/task.rs:538-544 | In whatever order attempts of different tasks reached the ledger, its total is the sum over tasks |
| `Replanning.SplitKeepsSound` | crates/cuma-planner/src/heuristic.rs:343-390 | Splitting a task of a sound plan, part 2 behind part 1, gives a sound plan |
| `Replanning.Carve` | crates/cuma-planner/src/heuristic.rs:343-388 | The revised plan is a copy in which only the failed row changed, to skipped, and two parts were appended |
| `Replanning.Split` | crates/cuma-planner/src/heuristic.rs:337-390 | Refused exactly unless the reason is an oversized context and the task is no part itself; never rejected for a sound plan |
| `Replanning.SplitMakesParts` | crates/cuma-planner/src/heuristic.rs:352-388 | Both parts keep type, risk and priority, take half the estimate, rounded down, and a description that goes on where the task's ends; the first waits for what the task waited for, the second for the first; no row but the task's own changes |
| `PlanText.AcceptedAreBackward` | crates/cuma-planner/src/llm.rs:114-184 | For every text, each accepted row names earlier rows only and is executable by what is available |
| `PlanLines.RowsAreAcceptedLines` | crates/cuma-planner/src/llm.rs:114-164 | Whether a line becomes a row hangs on that line alone, and row r is read from the r-th accepted line |
| `PlanLines.NumberNamesLineIff` | crates/cuma-planner/src/llm.rs:22-33 | A number k a row lists (read as `NumberRoundTrip` says), up to its own line, means line k, as the prompt says, if and only if the first k lines were all accepted; it is dropped exactly when fewer than k rows came before, and otherwise means line k or a later one |
| `PlanLines.FencedNumbersAreOff` | crates/cuma-planner/src/llm.rs:120-123 | A reply that opens with a code fence gives the rows of the reply without it; as far as the lines behind the fence are accepted, a number means the line after the one with that number, closing fence or not |
| `PlanNumbers.NumberRoundTrip` | crates/cuma-planner/src/llm.rs:147-151 | A decimal number up to 2^64 - 1 is read back, with or without a plus sign; a larger one is no number |
| `PlanNumbers.NoNumber` | crates/cuma-planner/src/llm.rs:147-151 | An empty text is no number, nor is one with a character that is no digit |
| `PlanNumbers.LeadingZero` | crates/cuma-planner/src/llm.rs:147-151 | Leading zeros do not change a number |
| `PlanNumbers.RowRoundTrip` | crates/cuma-planner/src/llm.rs:119-180 | A row written as the prompt asks is read as it was meant: its type, its description, and as dependencies exactly the earlier rows it names; it is dropped only if what its type needs is not available |
| `PlanNumbers.ReplyRoundTrip` | crates/cuma-planner/src/llm.rs:114-180 | So is a whole reply, however many rows it has: as many rows, each as it was meant |
| `PlanNumbers.RowsHaveThreeFields` | crates/cuma-planner/src/llm.rs:119-141 | Nothing else is read as a row: three fields, a first that is not blank and names the type, a third that has a letter or digit and is the description, and no fence |
| `PlanNumbers.BulletsDoNotShow` | crates/cuma-planner/src/llm.rs:120-120 | A row behind a bullet is read as the row |
| `PlanNumbers.TypesAreNamed` | crates/cuma-planner/src/llm.rs:78-93 | A type is read from its word or its other words, in any case, and from nothing else |
| `Planner.RowsAreTopological` | crates/cuma-planner/src/llm.rs:150-180 | A graph built from such rows has its insertion order as topological order |
| `Planner.BuildGraph` | crates/cuma-planner/src/llm.rs:148-180 | Builds exactly the accepted rows, in order, each waiting for the tasks of the rows it names |
| `Planner.ParsePlan` | crates/cuma-planner/src/llm.rs:114-184 | For every reply: a plan exactly when at least two rows are accepted and none repeats a dependency; task i says what row i says and waits for task j if and only if row i names row j; it is sound, its insertion order is topological, and its tasks' capabilities are available when anything is |
| `Planner.Push` | crates/cuma-planner/src/heuristic.rs:164-169 | Appends one task behind known ones and keeps the plan sound |
| `Planner.EverythingWaitsForTheFirst` | crates/cuma-planner/src/heuristic.rs:173-335 | In a heuristic plan every task waits, directly or not, for the first: inspecting the repository |
| `Planner.PlanFor` | crates/cuma-planner/src/heuristic.rs:173-335 | For every non-blank goal of every shape there is a sound plan, layered, with one task for each kind the shape calls for, and one task waits for another exactly if its kind needs the other's: research and design the inspection, the work all three, tests the change, validation both, review the validation; for a blank goal there is none |
| `Planner.KindsAreCalledFor` | crates/cuma-planner/src/heuristic.rs:191-310 | Which kinds a goal calls for: a goal that asks for findings, a review or a document and no change gets that alone; any other a change, tests if it mentions them, and validation and review if these are always wanted |
| `Planner.LastWaitsForAll` | crates/cuma-planner/src/heuristic.rs:284-310 | The review that closes a change waits, directly or not, for every other task; so does the one task a goal without a change asks for |
| `Wire.StateRoundTrip` | crates/cuma-protocol-a2a/src/wire.rs:128-170 | Every state survives rendering and parsing in both dialects |
| `Wire.StatesAreNamed` | crates/cuma-protocol-a2a/src/wire.rs:128-150 | Nothing else is read as that state, whatever its case, prefix and separators, but for the second spelling of a cancellation |
| `Wire.TaskRoundTrip` | crates/cuma-protocol-a2a/src/wire.rs:226-355 | Parsing a rendered task gives the task, normalised, in both dialects |
| `Wire.SendResultRoundTrip` | crates/cuma-protocol-a2a/src/wire.rs:370-507 | A send result, and a full snapshot on a stream, carry the task over, normalised |
| `Wire.StatusEventRoundTrip` | crates/cuma-protocol-a2a/src/wire.rs:412-468 | A status event carries the state and the normalised status text over |
| `Wire.ArtifactEventRoundTrip` | crates/cuma-protocol-a2a/src/wire.rs:412-494 | An artifact event carries its text over, trimmed |
| `Wire.PartsTextOfMany` | crates/cuma-protocol-a2a/src/wire.rs:291-305 | A text in several parts is read as the visible ones, trimmed, a line each; other parts do not show |
| `Wire.AnswerRoundTrip` | crates/cuma-protocol-a2a/src/wire.rs:370-446 | A message instead of a task is read as one, in a response and on a stream, in both dialects |
| `Wire.BareOnesAreRead` | crates/cuma-protocol-a2a/src/wire.rs:370-392 | Without wrapper or tag a task is known by its status and a message by its parts |
| `Wire.NormaliseIsIdempotent` | crates/cuma-protocol-a2a/src/wire.rs:291-344 | Normalising twice is normalising once, and tidy tasks are left as they are |
| `Wire.ParsedIsTidy` | crates/cuma-protocol-a2a/src/wire.rs:307-355 | Whatever value is parsed as a task, the result has nothing left to normalise |
| `TaskMaps.TaskMap.MakeRoom` | crates/cuma-protocol-a2a/src/server.rs:187-203 | Evicts exactly the oldest settled tasks, as many as are over the limit or as there are; the rest stay, in order |
| `TaskMaps.SomeoneIsSettled` | crates/cuma-protocol-a2a/src/server.rs:187-203 | With fewer unsettled tasks than records there is one to evict |
| `TaskRows.TaskStore.Save` | crates/cuma-persistence/src/store.rs:307-323 | A new row goes behind all the others; a saved one keeps its place |
| `TaskRows.TaskStore.Load` | crates/cuma-persistence/src/store.rs:326-338 | Returns the bodies of the newest rows up to the limit, oldest first |
| `TaskRows.SavedByAge` | crates/cuma-persistence/src/store.rs:307-323 | Saving keeps the age order of the rows, with a new row at its end |
| `TaskRows.AgeOrderUnique` | crates/cuma-persistence/src/store.rs:326-338 | The age order of a table is unique |
| `A2aServers.A2aServer.WithStore` | crates/cuma-protocol-a2a/src/server.rs:418-451 | Rebuilds the map from the newest 512 rows, failing and re-saving what was running |
| `A2aServers.A2aServer.Start` | crates/cuma-protocol-a2a/src/server.rs:566-652 | Refuses an empty goal, a follow-up and a 33rd active task in that order and then changes nothing; otherwise makes room, inserts, persists and begins the run; the new task is submitted, without text or output, in the caller's context if it names a usable one |
| `A2aServers.A2aServer.CancelTask` | crates/cuma-protocol-a2a/src/server.rs:753-790 | Refuses unknown and settled tasks; otherwise the task is cancelled with the standing reason and its output kept, persisted, and its run aborted if the handle is known |
| `A2aServers.A2aServer.MakeRoom` | crates/cuma-protocol-a2a/src/server.rs:620-626 | Forgets the oldest settled tasks in memory and on disk, and does not stop their runs |
| `A2aServers.A2aServer.DriveBegin` | crates/cuma-protocol-a2a/src/server.rs:859-881 | A run's first step publishes and persists the working state with text and output as they were, whether or not its record is still kept |
| `A2aServers.A2aServer.DriveEnd` | crates/cuma-protocol-a2a/src/server.rs:913-946 | A run's last step publishes and persists, whether or not its record is still kept: completed if and only if the run finished with success, failed otherwise; the summary or the message as text; the transcript as the one output, none if it is empty, and the output as it was if the run broke |
| `Publishing.StartTells` | crates/cuma-protocol-a2a/src/server.rs:566-652 | The row of a task just submitted reads back as that task, and callers see the same |
| `Publishing.BeginTells` | crates/cuma-protocol-a2a/src/server.rs:868-881 | So it is when its run begins |
| `Publishing.EndTells` | crates/cuma-protocol-a2a/src/server.rs:913-946 | And when it ends, in every reachable state: what callers see, and what the row is read back as, is the task the outcome makes of the one held |
| `Publishing.CancelIsTold` | crates/cuma-protocol-a2a/src/server.rs:773-788 | And when it is cancelled |
| `Publishing.RestartTells` | crates/cuma-protocol-a2a/src/server.rs:418-451 | A restart tells of each task it takes back what its row says if that is settled, and otherwise that it failed because of the restart, with its output |
| `Publishing.OthersStay` | crates/cuma-protocol-a2a/src/server.rs:566-947 | A step about one task leaves every other alone, record, row and run, but for those evicted to make room |
| `Publishing.GoalOfAMessage` | crates/cuma-protocol-a2a/src/server.rs:129-131 | The goal is the text of the message, trimmed |
| `Publishing.RetryAsksTheSame` | crates/cuma-protocol-a2a/src/client.rs:779-787 | A call repeated in the older dialect asks for the same goal |
| `Publishing.FollowUpsNameATask` | crates/cuma-protocol-a2a/src/server.rs:578-592 | A call is a follow-up exactly if its message names a task |
| `Publishing.RefusedBecause` | crates/cuma-protocol-a2a/src/server.rs:566-619 | Why a start is refused, in order: nothing said, a follow-up, 32 tasks active; and a cancel: unknown, or settled |
| `A2aServers.A2aServer.ListTasks` | crates/cuma-protocol-a2a/src/server.rs:699-751 | Returns the requested page of the matching tasks, newest first, and where the next page starts |
| `A2aServers.ListingIsNewestFirst` | crates/cuma-protocol-a2a/src/server.rs:717-730 | The listing shows exactly the kept tasks of the context and state asked for, each once, later started ones first |
| `A2aServers.FilterIsByState` | crates/cuma-protocol-a2a/src/server.rs:704-709 | Asked by a state's name in either dialect it shows the tasks in that state; a name that is no state's does not filter |
| `A2aServers.PageSizeIsAsAsked` | crates/cuma-protocol-a2a/src/server.rs:710-714 | A page is as long as asked, within one and a hundred |
| `A2aServers.PagesCoverTheListing` | crates/cuma-protocol-a2a/src/server.rs:699-751 | Following the page tokens through one unchanging listing shows every matching task exactly once, newest first, for any page size |
| `A2aServers.LaterTasksRepeat` | crates/cuma-protocol-a2a/src/server.rs:699-751 | Tasks that start between two pages make the caller see the last ones again, as many as started, and miss none |
| `A2aServers.PagesGoOnIff` | crates/cuma-protocol-a2a/src/server.rs:699-751 | A caller that was shown some tasks goes on in a listing of newer tasks, those kept of the ones shown, and the rest: it sees exactly the rest, misses nothing of it, or sees nothing twice, if and only if as many tasks, at least as many, or at most as many as were shown now stand before the rest, for any page size |
| `Service.RestartTakesUp` | crates/cuma-protocol-a2a/src/server.rs:418-451 | From any rows the server wrote, those of forgotten tasks included: the newest 512 come back in order, each as its row says, failed if it was running; older rows stay as they are, without a record |
| `Service.RestartRevives` | crates/cuma-protocol-a2a/src/server.rs:418-451 | After a crash between any two steps, if the rows mirrored the map, a restart brings back every task in order: settled ones with state and normalised text, the others failed; map and rows agree again |
| `Service.SecondRestartChangesNothing` | crates/cuma-protocol-a2a/src/server.rs:418-451 | A second restart changes neither records nor order nor rows |
| `Service.RoomIsThere` | crates/cuma-protocol-a2a/src/server.rs:612-636 | When a task is admitted there is room for it: of 512 records fewer than 32 are unsettled |
| `Serving.RunKeepsBacked` | crates/cuma-protocol-a2a/src/server.rs:566-947 | In every state any interleaving of handlers, runs and crashes reaches: the order lists exactly the records, at most 512, each held by its row, their rows in the same age order; and every row can be taken back |
| `Serving.StepKeepsIff` | crates/cuma-protocol-a2a/src/server.rs:859-881 | A step leaves the rows a mirror of the map if and only if it is not the write of a run whose record was evicted |
| `Serving.RunKeepsIff` | crates/cuma-protocol-a2a/src/server.rs:566-947 | The rows mirror the map all along a run if and only if no run writes whose record was evicted |
| `Serving.SafeIffNoStrays` | crates/cuma-protocol-a2a/src/server.rs:187-203 | Every next step keeps the mirror if and only if no evicted record has a live run |
| `Serving.RunKeeps` | crates/cuma-protocol-a2a/src/server.rs:566-947 | Without early cancels there is no such run: the rows always mirror the map, at most 32 tasks are active, and settled tasks have no run |
| `Serving.StraysHappen` | crates/cuma-protocol-a2a/src/server.rs:620-649 | Whatever goal is sent, an empty server can reach a full map, still mirrored, with a run whose record was evicted and whose next write ends that |
| `Serving.ForgottenComesBack` | crates/cuma-protocol-a2a/src/server.rs:418-451 | Then a restart takes the forgotten task back as the newest and drops the oldest kept one |
| `Serving.OldestSettledGoes` | crates/cuma-protocol-a2a/src/server.rs:187-203 | When room must be made in a reachable state, exactly the oldest settled task goes |
| `Serving.OnlySettledGo` | crates/cuma-protocol-a2a/src/server.rs:187-203 | An unsettled task is never evicted |
| `Serving.SettledForGood` | crates/cuma-protocol-a2a/src/server.rs:753-790 | A settled task without a run keeps saying what it said whatever happens afterwards, normalised after a restart, until it is evicted |
| `Serving.CancelHoldsIffHandleStored` | crates/cuma-protocol-a2a/src/server.rs:639-649 | In every reachable state: a cancelled task stays cancelled in every continuation if and only if its abort handle had been stored when the cancel came |
| `Serving.CancelCanComeEarly` | crates/cuma-protocol-a2a/src/server.rs:639-649 | Both cases are reachable: right after any accepted start the handle is not stored, one step later it is |
| `Serving.RunGoesOn` | crates/cuma-protocol-a2a/src/server.rs:868-881 | Otherwise its run goes on and overwrites the cancellation |
| `TaskStreams.TaskStream.Next` | crates/cuma-protocol-a2a/src/server.rs:281-319 | The next event in each of the cases: first snapshot, lag, chunk, status, closed, done |
| `TaskStreams.Subscribe` | crates/cuma-protocol-a2a/src/server.rs:655-685 | Only a caller that did not start the task is refused, and only once the task is finished |
| `TaskStreams.StreamsOpenFullAndEndSettled` | crates/cuma-protocol-a2a/src/server.rs:281-323 | With any number of writers, a settled task changed again included, and wherever in whose change the subscriber joined: the first event is a full snapshot and nothing follows the first settled event |
| `TaskStreams.SettledStreamsEnd` | crates/cuma-protocol-a2a/src/server.rs:281-323 | Whenever the task is settled and all changes were sent, the stream can be read to its end without waiting, and ends with a settled state, even after lag |
| `TaskStreams.SubscribersLearnTheEnd` | crates/cuma-protocol-a2a/src/server.rs:655-685 | Whatever the writers do after a subscriber joined, in the middle of a change included unless a settled state was overtaken before it was sent: the last event shows the task's final state, for every timing of reads and lag, if and only if the snapshot was never since then settled otherwise |
| `TaskStreams.SettledAloneSettlesOnce` | crates/cuma-protocol-a2a/src/server.rs:281-323 | So it is if nobody changes a settled task |
| `ServedStreams.FeedFollowsChanges` | crates/cuma-protocol-a2a/src/server.rs:868-881 | However announcements and output fall in between, that is read off the changes of the snapshot |
| `ServedStreams.ServedStreamsSettleOnce` | crates/cuma-protocol-a2a/src/server.rs:753-790 | However the server goes on, nobody changes a task after it settled, as long as it is not cancelled before its run can be aborted |
| `ServedStreams.CancelIsTheLastChangeIff` | crates/cuma-protocol-a2a/src/server.rs:639-649 | After a cancel nothing whatever changes the task again if and only if its abort handle had been stored |
| `ServedStreams.EarlyCancelMisleads` | crates/cuma-protocol-a2a/src/server.rs:868-881 | From every state with an unsettled task whose handle is not stored: the server can go on so that the task completes after it was cancelled, and every feed with these changes was settled otherwise in between |
| `ServedStreams.MisledFromEmpty` | crates/cuma-protocol-a2a/src/server.rs:639-649 | An empty server reaches such a state whatever goal it is sent |
| `TaskStreams.NothingIsMissed` | crates/cuma-protocol-a2a/src/server.rs:281-319 | A subscriber the channel's capacity suffices for is shown the snapshot and then every update, in order |
| `TaskStreams.Oldest` | crates/cuma-protocol-a2a/src/server.rs:609-610 | The channel holds the newest updates, as many as fit and no more |
| `TaskStreams.OnlyTheDroppedIsMissed` | crates/cuma-protocol-a2a/src/server.rs:281-319 | However far a subscriber lags: each update since it joined was shown once and in order, or the channel had dropped it and a full snapshot was shown in its stead, or is to come |
| `TaskStreams.FinalMarksTheLast` | crates/cuma-protocol-a2a/src/wire.rs:451-468 | In the older dialect a status event is marked final exactly if it settles the task, and then it is the last one shown |
| `TaskStreams.EventsAreReadBack` | crates/cuma-protocol-a2a/src/wire.rs:412-507 | Every stream event is read back as what it shows, in both dialects |
| `Followers.StreamFollower.Apply` | crates/cuma-protocol-a2a/src/client.rs:841-878 | How one event changes what is known of the task, and what of it is worth showing |
| `Followers.FollowerEndsWithTheStream` | crates/cuma-protocol-a2a/src/client.rs:880-883 | Reading a server's stream, the follower is finished exactly at the event that settles the task, and then has its state |
| `Followers.MessageIsTheAnswer` | crates/cuma-protocol-a2a/src/client.rs:600-622 | A message on the stream ends it, and its text is the answer |
| `Followers.ClientsLearnTheEnd` | crates/cuma-protocol-a2a/src/client.rs:841-898 | Server to client, wherever the subscriber joined: a client that reads a settled task's stream to its end is finished exactly then, with the state and status text of the last event, and with its ids and artifacts if that is a full snapshot; under the conditions of `SubscribersLearnTheEnd` this is the server's final task |
| `Followers.FollowerKnowsTheState` | crates/cuma-protocol-a2a/src/client.rs:841-870 | Across the wire the follower has the latest state, the latest status text that says something, and the ids of the latest snapshot |
| `Followers.FollowerGathersTheOutput` | crates/cuma-protocol-a2a/src/client.rs:855-898 | The client's text is the output it was shown: that of the latest snapshot that has any, and what was visible since, trimmed, a line each |
| `Sse.SseReader.Feed` | crates/cuma-protocol-a2a/src/client.rs:805-827 | A chunk yields the events it completes; what is kept is the leftover of the normalised text |
| `Sse.FeedAll` | crates/cuma-protocol-a2a/src/client.rs:805-827 | Feeding chunks one by one reports and holds what the specification of a whole reader's life says |
| `Sse.SplittingResumes` | crates/cuma-protocol-a2a/src/client.rs:813-825 | Splitting what has come, and later the leftover with the rest, is splitting it all at once |
| `Sse.LeftoverIsIncomplete` | crates/cuma-protocol-a2a/src/client.rs:813-825 | The leftover never contains a complete event |
| `Sse.ReaderSplitsWhatItTookIn` | crates/cuma-protocol-a2a/src/client.rs:805-827 | Whatever the chunks, the reader reports the events of the chunk-wise normalised text and holds its leftover |
| `Sse.TakesInTheStreamIffNothingIsCut` | crates/cuma-protocol-a2a/src/client.rs:808-812 | The reader takes in exactly the normalised stream if and only if no chunk boundary falls inside a carriage-return line-feed pair |
| `Sse.ChunkingDoesNotMatter` | crates/cuma-protocol-a2a/src/client.rs:805-827 | If no boundary does, events and leftover are those of the stream fed whole |
| `Sse.CutLineEndSplitsAnEvent` | crates/cuma-protocol-a2a/src/client.rs:808-812 | For any two payload lines: cut inside the pair between them, one event of the stream is reported as two |
| `SseCuts.TwiceChangesNothingIff` | crates/cuma-protocol-a2a/src/client.rs:805-827 | A line end counted twice, anywhere in a text, leaves its events as they are if and only if what is held ends a line, or a blank line follows, or one side of it has no data in that block (the later side being complete); otherwise there are more events |
| `SseCuts.ChunksChangeNothingIff` | crates/cuma-protocol-a2a/src/client.rs:805-827 | Over any list of chunks the reader reports the events of the whole stream if and only if every boundary cuts no pair or is harmless in that sense |
| `SseFields.SentEventsAreRead` | crates/cuma-protocol-a2a/src/client.rs:813-825 | Any events a server sends, of one data line or several, with or without a space, other fields and comments in between: the payloads of each that has data are reported, in order, and nothing else |
| `SseFields.SentInChunksIsRead` | crates/cuma-protocol-a2a/src/client.rs:805-827 | And so they are in chunks and with any line ends, as long as no pair is cut |
| `McpPool.StepKeepsInv` | crates/cuma-protocol-mcp/src/provider.rs:113-136 | Every step of a call, a server or the reaper keeps the pool's invariant |
| `McpPool.AtMostOneLive` | crates/cuma-protocol-mcp/src/provider.rs:206-241 | After any interleaving each server has at most one live connection |
| `McpPool.ReaperSparesHeld` | crates/cuma-protocol-mcp/src/provider.rs:113-136 | A live connection ends only by dying on its own, or shut down by the reaper while no call holds it |
| `McpPool.LiveLeavesOnlyUnheld` | crates/cuma-protocol-mcp/src/provider.rs:121-133 | A live connection leaves its slot only into the reaper's hands, and only when it was idle and nobody holds it |
| `McpPool.ReaperJudges` | crates/cuma-protocol-mcp/src/provider.rs:121-133 | A live connection used lately keeps its slot; an idle one leaves if and only if nobody holds it, and is then shut down; a dead one leaves in any case, and is shut down if nobody holds it; other slots stay |
| `McpPool.ReaperPassesBy` | crates/cuma-protocol-mcp/src/provider.rs:121-133 | An empty slot is left as it was, unlocked |
| `McpPool.ReaperShutsDown` | crates/cuma-protocol-mcp/src/provider.rs:130-133 | What the reaper shuts down is dead afterwards, its slot empty and free for the next call |
| `McpPool.CallsUseLiveConnections` | crates/cuma-protocol-mcp/src/provider.rs:206-241 | A call comes to use only a live connection to its own server, the one in the slot, and leaves the slot unlocked |
| `McpPool.FailedLaunchUnlocks` | crates/cuma-protocol-mcp/src/provider.rs:228-241 | A launch that fails leaves the slot's content and frees it |
| `McpPool.CleanUpRemovesOnlyItsOwn` | crates/cuma-protocol-mcp/src/provider.rs:193-202 | A failed call's clean-up removes its own dead connection and nothing else, in no slot |
| `McpPool.HeldConnectionsAreShared` | crates/cuma-protocol-mcp/src/provider.rs:218-224 | While a call holds a live connection the next call shares it and cannot launch another |
| `McpPool.LockHolderCanMove` | crates/cuma-protocol-mcp/src/provider.rs:217-241 | Whoever holds a slot's lock has a next step that waits for nobody |
| `History.Store.BeginSession` | crates/cuma-persistence/src/store.rs:96-107 | An upsert: a known session keeps its outcome, a new one is inserted |
| `History.Store.SaveTask` | crates/cuma-persistence/src/store.rs:131-154 | An upsert: refused only for a new task of an unknown session; a known task keeps its session |
| `History.Store.RecordAttempt` | crates/cuma-persistence/src/store.rs:161-232 | Refused only when neither task nor session is known, and then changes nothing; otherwise task stub, attempt row and history increment together |
| `History.Store.LoadRoutingHistory` | crates/cuma-persistence/src/store.rs:398-460 | One bucket per history row of a known task type, others skipped |
| `History.TypeNamesRoundTrip` | crates/cuma-persistence/src/store.rs:550-565 | Every task type written is one that can be loaded |
| `History.HistoryStaysRightIff` | crates/cuma-persistence/src/store.rs:161-232 | A write keeps the history the aggregate of the attempts if and only if it is refused, or records under a new id with the task's own type, or keeps the type of a task that has attempts |
| `History.HistoryIsTheAggregate` | crates/cuma-persistence/src/store.rs:161-232 | Over every sequence of such writes each history row is the aggregate of the attempts of its bucket |
| `History.HistoryIsTheAggregateFromEmpty` | crates/cuma-persistence/src/store.rs:161-232 | In particular for every such life of a new store |
| `History.AttemptsAreKept` | crates/cuma-persistence/src/store.rs:96-154 | Since sessions and tasks are upserted, an attempt stays as recorded whatever is saved or recorded later under other ids |
| `History.SessionsSayWhatWasWritten` | crates/cuma-persistence/src/store.rs:96-129 | Over every sequence of writes: a session says the goal it was begun with last and how it was finished last, in whatever order these came |
| `History.TasksSayWhatWasWritten` | crates/cuma-persistence/src/store.rs:131-154 | A task stays in the session it was first known in, whatever it is saved under, and says what it was saved with last |
| `History.RowsBecomeKnown` | crates/cuma-persistence/src/store.rs:96-232 | A session is known from being begun; a task from being saved or tried under a known session, with its type |
| `History.AttemptsReadBack` | crates/cuma-persistence/src/store.rs:161-232 | An attempt reads back as it was recorded, counters beyond the signed range included |
| `History.ReplacingASessionLoses` | crates/cuma-persistence/src/store.rs:99-102 | Were a session begun again by replacing its row, the cascade would keep its attempts, and the history right, if and only if its tasks have none; the upsert keeps both, and the outcome |
| `History.ReplacingATaskLoses` | crates/cuma-persistence/src/store.rs:136-140 | The same for a task saved again, even unchanged |
| `History.ReloadedMeanIsTheMean` | crates/cuma-persistence/src/store.rs:436-451 | The reloaded mean latency m of n attempts with total t satisfies m*n <= t < (m+1)*n |
| `History.IncrementIs` | crates/cuma-persistence/src/store.rs:207-227 | An attempt adds itself, its success, its latency, and its input and output tokens whether it succeeded or not |
| `History.ReloadedCounts` | crates/cuma-persistence/src/store.rs:436-451 | Loaded are the number of a bucket's attempts, of its successes, and as mean tokens those of all its attempts shared among the successes |
| `History.LoadedTokensAreRightIff` | crates/cuma-persistence/src/store.rs:445-451 | That is the mean over the successes if and only if the failed attempts took less than rounding leaves room for |
| `Capabilities.CapabilityIndex.constructor` | crates/cuma-registry/src/capabilities.rs:23-43 | The index holds for each capability exactly the routable agents that, or a model of which, have it |
| `Capabilities.CapabilityIndex.ProvidersOfAll` | crates/cuma-registry/src/capabilities.rs:58-78 | For a non-empty requirement exactly the agents indexed under every capability, early exits included; for an empty one none |
| `Capabilities.IndexAgreesWithScan` | crates/cuma-registry/src/capabilities.rs:58-78 | Those are exactly the agents a scan finds: routable, and covering the requirement with all they have |
| `Capabilities.ModelsOnlyAdd` | crates/cuma-core/src/agent.rs:301-309 | A model adds its capabilities to those of its agent, and takes nothing away |
| `Capabilities.OnlyTheFitAreNamed` | crates/cuma-core/src/agent.rs:85-87 | An agent is named for a capability it has exactly as long as it is enabled and neither rate limited nor unavailable |
| `Capabilities.NarrowingKeepsEverySufficientAgent` | crates/cuma-core/src/agent.rs:301-309 | An agent that suffices alone or with one of its models is never narrowed away |
| `Capabilities.MissingIsUnprovided` | crates/cuma-registry/src/capabilities.rs:46-90 | A required capability is missing exactly when no routable agent provides it, and then no agent covers the requirement; the providers named for a capability are those that have it |
| `Capabilities.OneModelSufficesIff` | crates/cuma-core/src/agent.rs:301-309 | Whatever is required of an agent and its models together, it meets alone or with one of them, if and only if all models' capabilities lie within its own, or within its own and those of one model |
| `Capabilities.NarrowingIsExactIff` | crates/cuma-registry/src/capabilities.rs:27-34 | Narrowing keeps only agents that suffice, for every requirement, if and only if this holds of every routable agent |
| `Capabilities.ModelsMayCoverOnlyTogether` | crates/cuma-registry/src/capabilities.rs:27-34 | An agent for which it does not: two models that meet a requirement of two capabilities only together |
| `Toml.TomlString` | crates/cuma-protocol-acp/src/registry.rs:334-350 | The loop writes a quote, every character escaped, and a quote |
| `Toml.TomlStringRoundTrip` | crates/cuma-protocol-acp/src/registry.rs:334-350 | For every string and whatever text follows, reading the written string as a TOML basic string gives the string back and leaves what follows |
| `Toml.OnlyTheEndsAreQuotes` | crates/cuma-protocol-acp/src/registry.rs:334-350 | The only unescaped quotes of a written string are its first and last characters |
| `Toml.WrittenOnOneLine` | crates/cuma-protocol-acp/src/registry.rs:334-350 | No control character is left in a written string |
| `Toml.ConfigEntry` | crates/cuma-protocol-acp/src/registry.rs:321-331 | Refused exactly for ids that are not plain; otherwise the entry for that command |
| `Toml.HeaderNamesTheId` | crates/cuma-protocol-acp/src/registry.rs:321-331 | The header names one table, that of the id: no bracket, dot, quote, blank or line end comes from the id |
| `Toml.EntryHoldsOnlyTheCommand` | crates/cuma-protocol-acp/src/registry.rs:321-331 | Whatever the command, the entry's value reads back as the command with only the line's end after it; neither id nor command adds a line |

## Left out

- Wave members run one after another here, each on its own copy of the plan; the original runs them at once. Nothing they share depends on the order but the order of ledger entries, over which the totals are proved order-free.
- Task ids are serial numbers drawn in order; the original draws UUIDs, taken to be fresh. The ids of A2A tasks are strings assumed fresh.
- Events, memory, handoff texts, cost, skill guidance, git worktrees and the session's summary: what they carry does not feed back into statuses, attempts or claims.
- Claims taken or released by other sessions while a session runs: foreign claims may exist from the start, and stay as they are.
- Waves.RunsAgree: agreement of runs is for plans none of whose original tasks overflows; after a re-planning the outcome depends on whether the task ran alone, as Runs.FoldLost and Runs.FoldSplit show. What is the same in all of them is who is left behind.
- Executor.Orchestrator.ExecuteGraph: the exact number of passes is for one task at a time; with more, it hangs on which splits happen to run alone. That exactly the tasks left behind are unfinished is for that case too, or where the isolated work of a split task always lands; otherwise they are among them. The router, the adapters and the policy answer as functions of the attempt, and whether isolated work lands is a function of the task: it does not hang on what else ran in its wave. Progress is for foreign claims that overlap no path any task could be predicted to write, whatever the outputs before it.
- Planner.PlanFor: the keyword classification of goals is an arbitrary record, and the wording of task descriptions is not what is stated.
- Required capabilities and complexity figures of a task: a plan row's capabilities are its type's baseline, as in the original parser. `unsatisfiable_capabilities` is not modelled.
- JSON text: values are modelled, not their syntax, and object keys the protocol does not use are one constructor.
- TaskStreams.SubscribersLearnTheEnd: a subscriber that joins while a settled state that was overtaken is still to be sent. In the original that is only between the halves of a cancel, which holds the lock that subscribing takes.
- A2aServers.PagesGoOnIff: a task that comes to match while the caller pages, and does not stand before all that it was shown.
- Ledgers.OwnershipLedger.Claim: paths are given as the components the original's normalisation leaves of them, none for the workspace itself.
- The table of capabilities a task type needs: what is proved of plans holds for any such table.
- Characters: strings are sequences of Unicode characters; decoding bytes, and a multi-byte character cut by a chunk boundary, are not modelled. Lengths the original counts in bytes are counted in characters.
- Service.InterruptedByRestart: only the opening words of the reason given to interrupted tasks.
- Serving.RunKeepsBacked: a handler's change and its write to the store are one step, store writes succeed, and an aborted run takes no further step.
- An A2A server without a store is the same without the rows.
- Bearer tokens, HTTP, agent cards, and blocking calls that wait for a task to settle.
- Polling a remote task until it settles, when a call is retried in the older dialect, and failure classes: one-branch facts, or waiting without a bound.
- McpPool.StepKeepsInv: the pool is a state machine on values whose connection numbers stand for shared references; one reaper runs at a time, and it is not stopped in the middle of shutting a connection down.
- Handshakes, child processes, tool results and allowlists of MCP servers.
- SQLite itself: tables are maps under their primary keys, a transaction is one step. Sums are unbounded integers; the casts from and to 64 and 32 bits are modelled.
- History.ReloadedMeanIsTheMean: for totals and counts that fit the original's integers.
- Timestamps, costs, retry counts and failure classes of stored attempts; usage grouped by agent or model; routing decisions and agent health.
- Providers are sets; the order in which the original lists them is that of their ids.
