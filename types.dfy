/**
 * The task-graph data model shared by the rescheduling engine: tasks, the
 * per-comparison-level task maps, JavaScript time values, bar geometry and the
 * in-progress edit record owned by the drag controller.
 */
module Types {

  datatype Option<+T> = None | Some(value: T)

  /** The exceptions the core can raise; each is surfaced as an `Err` result. */
  datatype Error =
    | MissingLevelMap(level: int)        // a property read on an undefined per-level map (TypeError)
    | CallStackExceeded                  // the unguarded resolver recursion nested deeper than the stack
    | UnknownChangeAction(kind: string)  // the action switch has no default branch but a throw
    | ResolverMissing                    // the optional getTaskCurrentState callback was not supplied

  datatype Result<+T> = Ok(value: T) | Err(error: Error) {
    predicate IsFailure() { Err? }
    function PropagateFailure<U>(): Result<U>
      requires Err?
    {
      Err(error)
    }
    function Extract(): T
      requires Ok?
    {
      value
    }
  }

  /**
   * A JavaScript time value in milliseconds (`Date.getTime()`):
   * `None` stands for NaN, an Invalid Date or an absent date.
   */
  type Ms = Option<int>

  /** `a - b` on time values; NaN is contagious. */
  function Sub(a: Ms, b: Ms): (r: Ms)
    ensures r.Some? <==> a.Some? && b.Some?
    ensures r.Some? ==> b.value + r.value == a.value
  {
    if a.Some? && b.Some? then Some(a.value - b.value) else None
  }

  /** `addMilliseconds(date, d)`: an invalid date or a NaN delta gives an Invalid Date. */
  function AddMs(date: Ms, d: Ms): (r: Ms)
    ensures r.Some? <==> date.Some? && d.Some?
    ensures r.Some? ==> Sub(r, date) == d
  {
    if date.Some? && d.Some? then Some(date.value + d.value) else None
  }

  /** JavaScript truthiness of a number: neither 0 nor NaN. */
  predicate Truthy(d: Ms) {
    d.Some? && d.value != 0
  }

  datatype TaskType = Regular | Milestone | Project | Empty

  datatype DateExtremity = StartOfTask | EndOfTask

  /** "This task stays pinned to the `sourceTarget` end of task `sourceId`." */
  datatype Dependency = Dependency(sourceId: string, sourceTarget: DateExtremity)

  /**
   * A task or an empty placeholder. Optional JavaScript properties are `Option`s
   * (`None` = property absent); a missing `dependencies` array is the empty sequence.
   */
  datatype Task = Task(
    id: string,
    kind: TaskType,
    start: Ms,
    end: Ms,
    progress: real,
    parent: Option<string>,
    comparisonLevel: Option<int>,
    dependencies: seq<Dependency>,
    isDisabled: bool)

  /** Both dates are present (`task.start && task.end`). */
  predicate Dated(t: Task) {
    t.start.Some? && t.end.Some?
  }

  /** `const { comparisonLevel = 1 } = task`: only an absent level defaults. */
  function DefaultLevel(t: Task): int {
    if t.comparisonLevel.Some? then t.comparisonLevel.value else 1
  }

  /** `task.comparisonLevel || 1`: an absent or zero level reads as 1. */
  function LevelOr1(t: Task): int {
    if t.comparisonLevel.Some? && t.comparisonLevel.value != 0 then t.comparisonLevel.value else 1
  }

  /** JavaScript truthiness of an optional string: present and not "". */
  predicate IsSet(s: Option<string>) {
    s.Some? && s.value != ""
  }

  /**
   * The tasks of one comparison level, in the insertion order of the
   * JavaScript `Map` (each task is stored under its own id).
   */
  type LevelMap = seq<Task>

  type TaskMapByLevel = map<int, LevelMap>

  /** `levelMap.get(id)`. */
  function Get(lm: LevelMap, id: string): (r: Option<Task>)
    ensures r.Some? ==> r.value in lm && r.value.id == id
    ensures r.None? <==> forall t :: t in lm ==> t.id != id
  {
    if lm == [] then None
    else if lm[0].id == id then Some(lm[0])
    else Get(lm[1..], id)
  }

  function Ids(ts: seq<Task>): (r: seq<string>)
    ensures |r| == |ts|
    ensures forall i :: 0 <= i < |ts| ==> r[i] == ts[i].id
  {
    if ts == [] then [] else [ts[0].id] + Ids(ts[1..])
  }

  datatype BarMoveAction = Move | Start | End | Progress | OtherAction(name: string)

  /** Pixel geometry of one task bar. */
  datatype TaskCoordinates = TaskCoordinates(
    x1: real, x2: real, y: real, width: real,
    innerX1: real, innerX2: real,
    progressX: real, progressWidth: real,
    containerX: real, containerWidth: real)

  /** The single in-progress edit (the task-bar DOM node it also holds is not modelled). */
  datatype ChangeInProgress = ChangeInProgress(
    action: BarMoveAction,
    additionalLeftSpace: real,
    additionalRightSpace: real,
    changedTask: Task,
    coordinates: TaskCoordinates,
    coordinatesDiff: real,
    initialCoordinates: TaskCoordinates,
    lastClientX: real,
    startX: real,
    originalTask: Task,
    tsDiff: Ms)
}
