/** Tasks and the rows of a plan. */
module Tasks {
  import opened Dag
  import opened Tokens
  import opened Waves

  datatype Option<+T> = None | Some(value: T)

  datatype Risk = ReadOnly | Low | Medium | High

  datatype TaskType =
    | Inspection | Research | Design | Implementation | BugFix | Refactor
    | Testing | Validation | Documentation | Review | General

  /** A registered agent and, when disclosed, one of its models. */
  datatype Target = Target(agent: string, model: Option<string>)

  datatype TaskSpec = TaskSpec(
    description: string,
    taskType: TaskType,
    dependencies: seq<TaskId>,
    priority: nat,
    risk: Risk,
    estimatedTokens: Option<nat>)

  datatype Attempt = Attempt(target: Target, success: bool, tokens: TokenUsage)

  datatype Task = Task(
    id: TaskId,
    parent: Option<TaskId>,
    spec: TaskSpec,
    status: TaskStatus,
    target: Option<Target>,
    attempts: seq<Attempt>,
    artifacts: seq<string>)

  function NewTask(id: TaskId, spec: TaskSpec): Task {
    Task(id, None, spec, Pending, None, [], [])
  }

  type Rows = map<TaskId, Task>

  function EdgesOf(rows: Rows): Edges {
    map t | t in rows :: rows[t].spec.dependencies
  }

  function BoardOf(rows: Rows): Board {
    map t | t in rows :: rows[t].status
  }

  ghost predicate WellFormed(rows: Rows, order: seq<TaskId>) {
    && Lists(order, rows.Keys)
    && forall id :: id in rows ==> rows[id].id == id
  }
}
