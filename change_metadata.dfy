/**
 * The commit metadata computer `getChangeTaskMetadata`: for a committed change
 * action, the write-set `[dependentTasks, taskIndexes, suggestedTasks,
 * suggestions]`. Auto-managed parents are recomputed from their direct
 * children, descendants are cascaded, and every sorted task is swept through
 * the live state resolver; the sweep appends new ids and overwrites entries
 * of ids already present.
 */
module Metadata {
  import opened Types
  import opened ParentCollector
  import opened CurrentState

  /** The committed change request; `UnknownAction` is a value outside the union. */
  datatype ChangeAction =
    | AddChilds(parent: Task)
    | Change(task: Task)
    | ChangeStartAndEnd(task: Task, changedTask: Task, originalTask: Task)
    | Delete(tasks: seq<Task>)
    | MoveBefore(target: Task, taskForMove: Task)
    | MoveAfter(target: Task, taskForMove: Task)
    | MoveInside(parent: Task, childs: seq<Task>)
    | UnknownAction(kind: string)

  /** One write instruction `[start, end, task, index]`; an index `None` is `undefined`. */
  datatype Suggestion = Suggestion(start: Ms, end: Ms, task: Task, index: Option<int>)

  datatype ChangeMetadata = ChangeMetadata(
    dependentTasks: seq<Task>,
    taskIndexes: seq<int>,
    suggestedTasks: seq<Task>,
    suggestions: seq<Suggestion>)

  /** Per comparison level, task id to global display index. */
  type GlobalIndexMap = map<int, map<string, int>>

  /** What `getChangeTaskMetadata` is given; collaborators are parameters. */
  datatype MetadataParams = MetadataParams(
    isMoveChildsWithParent: bool,
    isUpdateDisabledParentsOnChange: bool,
    tasksMap: TaskMapByLevel,
    mapTaskToGlobalIndex: GlobalIndexMap,
    // getAllDescendants(task, childTasksMap, false)
    getAllDescendants: Task -> seq<Task>,
    // changeStartAndEndDescendants(changedTask, originalTask, descendants), adjustment and index map bound in
    changeStartAndEndDescendants: (Task, Task, seq<Task>) -> seq<Suggestion>,
    getTaskIndexes: ChangeAction -> seq<int>,
    getDependentTasks: ChangeAction -> seq<Task>,
    // the optional getTaskCurrentState callback, and the stack budget it runs with
    getTaskCurrentState: Option<Frame>,
    depth: nat)

  predicate NoDuplicates<T(==)>(xs: seq<T>) {
    forall i, j :: 0 <= i < j < |xs| ==> xs[i] != xs[j]
  }

  // ---------------------------------------------------------------------------
  // collectSuggestedParents

  /** Adding to an insertion-ordered JavaScript `Set`, one element after another. */
  function AddAll(acc: seq<Task>, xs: seq<Task>): (r: seq<Task>)
    ensures |acc| <= |r| && r[..|acc|] == acc
    decreases |xs|
  {
    if xs == [] then acc
    else AddAll(if xs[0] in acc then acc else acc + [xs[0]], xs[1..])
  }

  /** The collected parents of each task, concatenated in order. */
  function ParentsOfAll(ts: seq<Task>, tasksMap: TaskMapByLevel): seq<Task> {
    if ts == [] then [] else Parents(ts[0], tasksMap) + ParentsOfAll(ts[1..], tasksMap)
  }

  function CollectSuggestedParents(action: ChangeAction, tasksMap: TaskMapByLevel): (r: Result<seq<Task>>)
    ensures r.Err? <==> action.UnknownAction?
    ensures r.Err? ==> r.error == UnknownChangeAction(action.kind)
    ensures action.AddChilds? || action.MoveInside? ==> r.Ok? && r.value != [] && r.value[0] == action.parent
  {
    match action
    case AddChilds(parent) => Ok([parent] + Parents(parent, tasksMap))
    case Change(task) => Ok(Parents(task, tasksMap))
    case ChangeStartAndEnd(task, _, _) => Ok(Parents(task, tasksMap))
    case Delete(tasks) => Ok(AddAll([], ParentsOfAll(tasks, tasksMap)))
    case MoveBefore(target, taskForMove) => Ok(Parents(target, tasksMap) + Parents(taskForMove, tasksMap))
    case MoveAfter(target, taskForMove) => Ok(Parents(target, tasksMap) + Parents(taskForMove, tasksMap))
    case MoveInside(parent, childs) =>
      Ok(AddAll([parent], Parents(parent, tasksMap) + ParentsOfAll(childs, tasksMap)))
    case UnknownAction(kind) => Err(UnknownChangeAction(kind))
  }

  // ---------------------------------------------------------------------------
  // getSuggestedStartEndChangesFromDirectChildren

  predicate IsDeleted(action: ChangeAction, id: string) {
    action.Delete? && id in Ids(action.tasks)
  }

  /** `task.parent && parentTask.id == task.parent`. */
  predicate IsChildOf(task: Task, parentId: string) {
    IsSet(task.parent) && task.parent.value == parentId
  }

  /** A `change`/`change_start_and_end` child is replaced by its changed version. */
  function Replaced(child: Task, action: ChangeAction): Task {
    if (action.Change? || action.ChangeStartAndEnd?) && child.id == action.task.id && action.task.kind != Empty
    then action.task
    else child
  }

  /** A non-empty dated task of the level, not being deleted, naming `parentId` as parent. */
  predicate IsDirectChild(y: Task, parentId: string, action: ChangeAction) {
    y.kind != Empty && Dated(y) && !IsDeleted(action, y.id) && IsChildOf(y, parentId)
  }

  /**
   * The direct children the recomputation reads: the non-empty dated tasks of
   * the level that are not being deleted and name `parentId` as parent, in map
   * order, each replaced by its changed version.
   */
  function DirectChildrenFor(lm: LevelMap, parentId: string, action: ChangeAction): (r: seq<Task>)
    ensures |r| <= |lm|
  {
    if lm == [] then []
    else
      var y := lm[0];
      var rest := DirectChildrenFor(lm[1..], parentId, action);
      if IsDirectChild(y, parentId, action)
      then [Replaced(y, action)] + rest
      else rest
  }

  /** `a.getTime() < b.getTime()`; false when either is NaN. */
  predicate Before(a: Ms, b: Ms) { a.Some? && b.Some? && a.value < b.value }

  /** The `forEach` over the direct children for `start`, as a left fold. */
  function FoldStart(children: seq<Task>, parentId: string, isDelete: bool, start: Ms): Ms
    decreases |children|
  {
    if children == [] then start
    else
      var task := children[0];
      var next := if IsChildOf(task, parentId) && !isDelete && Before(task.start, start) then task.start else start;
      FoldStart(children[1..], parentId, isDelete, next)
  }

  /** The `forEach` over the direct children for `end`, as a left fold. */
  function FoldEnd(children: seq<Task>, parentId: string, isDelete: bool, end: Ms): Ms
    decreases |children|
  {
    if children == [] then end
    else
      var task := children[0];
      var next := if IsChildOf(task, parentId) && !isDelete && Before(end, task.end) then task.end else end;
      FoldEnd(children[1..], parentId, isDelete, next)
  }

  /** `index` if the level's index map has the id, else -1. */
  function ParentIndex(gi: GlobalIndexMap, level: int, id: string): int {
    if level in gi && id in gi[level] then gi[level][id] else -1
  }

  /** The suggestion the recomputation of one auto-managed parent yields. */
  function SuggestionFromDirectChildren(
    parentTask: Task, action: ChangeAction, tasksMap: TaskMapByLevel, gi: GlobalIndexMap): (r: Result<Suggestion>)
    ensures r.Err? <==> DefaultLevel(parentTask) !in tasksMap
    ensures r.Err? ==> r.error == MissingLevelMap(DefaultLevel(parentTask))
    ensures r.Ok? ==> r.value.task == parentTask && r.value.index.Some?
    ensures r.Ok? && DefaultLevel(parentTask) in gi && parentTask.id in gi[DefaultLevel(parentTask)] ==>
      r.value.index == Some(gi[DefaultLevel(parentTask)][parentTask.id])
    ensures r.Ok? && !(DefaultLevel(parentTask) in gi && parentTask.id in gi[DefaultLevel(parentTask)]) ==>
      r.value.index == Some(-1)
  {
    var level := DefaultLevel(parentTask);
    if level !in tasksMap then Err(MissingLevelMap(level))
    else
      var children := DirectChildrenFor(tasksMap[level], parentTask.id, action);
      var start0 := if children != [] then children[0].start else parentTask.start;
      var end0 := if children != [] then children[0].end else parentTask.end;
      Ok(Suggestion(
        FoldStart(children, parentTask.id, action.Delete?, start0),
        FoldEnd(children, parentTask.id, action.Delete?, end0),
        parentTask,
        Some(ParentIndex(gi, level, parentTask.id))))
  }

  method GetSuggestedStartEndChangesFromDirectChildren(
    parentTask: Task, action: ChangeAction, tasksMap: TaskMapByLevel, gi: GlobalIndexMap)
    returns (r: Result<Suggestion>)
    ensures r == SuggestionFromDirectChildren(parentTask, action, tasksMap, gi)
  {
    var id, comparisonLevel := parentTask.id, DefaultLevel(parentTask);
    var start := parentTask.start;
    var end := parentTask.end;
    var resIndex := ParentIndex(gi, comparisonLevel, id);
    if comparisonLevel !in tasksMap {
      return Err(MissingLevelMap(comparisonLevel));
    }
    var directChildren := DirectChildrenFor(tasksMap[comparisonLevel], id, action);
    if |directChildren| > 0 {
      start := directChildren[0].start;
      end := directChildren[0].end;
    }
    ghost var start0, end0 := start, end;
    var i := 0;
    while i < |directChildren|
      invariant 0 <= i <= |directChildren|
      invariant FoldStart(directChildren[i..], id, action.Delete?, start) == FoldStart(directChildren, id, action.Delete?, start0)
      invariant FoldEnd(directChildren[i..], id, action.Delete?, end) == FoldEnd(directChildren, id, action.Delete?, end0)
    {
      var task := directChildren[i];
      assert directChildren[i..][1..] == directChildren[i + 1..];
      if IsChildOf(task, id) {
        if !action.Delete? {
          if Before(task.start, start) {
            start := task.start;
          }
          if Before(end, task.end) {
            end := task.end;
          }
        }
      }
      i := i + 1;
    }
    r := Ok(Suggestion(start, end, parentTask, Some(resIndex)));
  }

  // ---------------------------------------------------------------------------
  // The sweep over all sorted tasks

  /** `findIndex` by task id. */
  function FindTaskIndex(ts: seq<Task>, id: string): (r: int)
    ensures -1 <= r < |ts|
    ensures r >= 0 ==> ts[r].id == id && forall j :: 0 <= j < r ==> ts[j].id != id
    ensures r == -1 ==> forall j :: 0 <= j < |ts| ==> ts[j].id != id
  {
    if ts == [] then -1
    else if ts[0].id == id then 0
    else var k := FindTaskIndex(ts[1..], id); if k == -1 then -1 else k + 1
  }

  /** `findIndex` by the id of a suggestion's task. */
  function FindSuggestionIndex(ss: seq<Suggestion>, id: string): (r: int)
    ensures -1 <= r < |ss|
    ensures r >= 0 ==> ss[r].task.id == id && forall j :: 0 <= j < r ==> ss[j].task.id != id
    ensures r == -1 ==> forall j :: 0 <= j < |ss| ==> ss[j].task.id != id
  {
    if ss == [] then -1
    else if ss[0].task.id == id then 0
    else var k := FindSuggestionIndex(ss[1..], id); if k == -1 then -1 else k + 1
  }

  /**
   * The level whose index map the sweep reads: `comparisonLevel - 1`, or
   * level 1 when the level is absent or 0.
   */
  function SweepLevel(task: Task): (l: int)
    ensures task.comparisonLevel.Some? && task.comparisonLevel.value != 0 ==> l == task.comparisonLevel.value - 1
    ensures task.comparisonLevel.None? || task.comparisonLevel.value == 0 ==> l == 1
  {
    if task.comparisonLevel.Some? && task.comparisonLevel.value != 0 then task.comparisonLevel.value - 1 else 1
  }

  /**
   * The index the sweep attaches: -1 without the level's map, `undefined`
   * (None) when the map lacks the id, the mapped index otherwise.
   */
  function SweepIndex(gi: GlobalIndexMap, task: Task): (r: Option<int>)
    ensures SweepLevel(task) !in gi ==> r == Some(-1)
    ensures SweepLevel(task) in gi ==>
      && (r.Some? <==> task.id in gi[SweepLevel(task)])
      && (r.Some? ==> r.value == gi[SweepLevel(task)][task.id])
  {
    var key := SweepLevel(task);
    if key !in gi then Some(-1)
    else if task.id in gi[key] then Some(gi[key][task.id])
    else None
  }

  /**
   * `{...earlier, ...later}`: the later record's fields win, except the
   * optional `parent` and `comparisonLevel`, which keep the earlier values
   * when the later record lacks them.
   */
  function Merge(earlier: Task, later: Task): (r: Task)
    ensures r.(parent := later.parent, comparisonLevel := later.comparisonLevel) == later
    ensures later.parent.Some? ==> r.parent == later.parent
    ensures later.parent.None? ==> r.parent == earlier.parent
    ensures later.comparisonLevel.Some? ==> r.comparisonLevel == later.comparisonLevel
    ensures later.comparisonLevel.None? ==> r.comparisonLevel == earlier.comparisonLevel
    ensures r.id == later.id && r.start == later.start && r.end == later.end
  {
    later.(parent := if later.parent.Some? then later.parent else earlier.parent,
           comparisonLevel := if later.comparisonLevel.Some? then later.comparisonLevel else earlier.comparisonLevel)
  }

  /** One sweep step for a sorted task whose resolved state is `st`. */
  function SweepStep(gi: GlobalIndexMap, sTasks: seq<Task>, sugs: seq<Suggestion>, task: Task, st: State)
    : (seq<Task>, seq<Suggestion>)
  {
    if st.keepsDates then (sTasks, sugs)
    else
      var indexInMap := SweepIndex(gi, task);
      var suggestion := Suggestion(st.task.start, st.task.end, st.task, indexInMap);
      var existsIndex := FindTaskIndex(sTasks, task.id);
      if existsIndex != -1 then
        var found := FindSuggestionIndex(sugs, task.id);
        (sTasks[existsIndex := Merge(sTasks[existsIndex], st.task)],
         if found != -1 then sugs[found := suggestion] else sugs)
      else (sTasks + [st.task], sugs + [suggestion])
  }

  /**
   * What one sweep step writes: nothing
   * when the dates were kept; for an id already in the write-set, the first
   * entry with that id is merged with the resolved task and the first
   * suggestion for it (if any) is replaced, everything else untouched; for a
   * new id, one entry and one suggestion are appended.
   */
  lemma SweepStepWrites(gi: GlobalIndexMap, sTasks: seq<Task>, sugs: seq<Suggestion>, task: Task, st: State)
    ensures var r := SweepStep(gi, sTasks, sugs, task, st);
      && (st.keepsDates ==> r == (sTasks, sugs))
      && (!st.keepsDates && task.id !in Ids(sTasks) ==>
            r == (sTasks + [st.task], sugs + [Suggestion(st.task.start, st.task.end, st.task, SweepIndex(gi, task))]))
      && (!st.keepsDates && task.id in Ids(sTasks) ==>
            var e := FindTaskIndex(sTasks, task.id);
            var f := FindSuggestionIndex(sugs, task.id);
            && |r.0| == |sTasks| && |r.1| == |sugs|
            && 0 <= e && r.0[e] == Merge(sTasks[e], st.task)
            && (forall j :: 0 <= j < |sTasks| && j != e ==> r.0[j] == sTasks[j])
            && (f != -1 ==> r.1[f] == Suggestion(st.task.start, st.task.end, st.task, SweepIndex(gi, task)))
            && (forall j :: 0 <= j < |sugs| && j != f ==> r.1[j] == sugs[j]))
  {
  }

  function Sweep(gi: GlobalIndexMap, frame: Frame, depth: nat, tasks: seq<Task>,
                 sTasks: seq<Task>, sugs: seq<Suggestion>): Result<(seq<Task>, seq<Suggestion>)>
    decreases |tasks|
  {
    if tasks == [] then Ok((sTasks, sugs))
    else
      var st :- GetTaskCurrentState(frame, tasks[0], depth);
      var next := SweepStep(gi, sTasks, sugs, tasks[0], st);
      Sweep(gi, frame, depth, tasks[1..], next.0, next.1)
  }

  /** The sweep with the optional callback: calling an absent one throws. */
  function SweepAll(p: MetadataParams, tasks: seq<Task>, sTasks: seq<Task>, sugs: seq<Suggestion>)
    : Result<(seq<Task>, seq<Suggestion>)>
  {
    match p.getTaskCurrentState
    case None => if tasks == [] then Ok((sTasks, sugs)) else Err(ResolverMissing)
    case Some(frame) => Sweep(p.mapTaskToGlobalIndex, frame, p.depth, tasks, sTasks, sugs)
  }

  // ---------------------------------------------------------------------------
  // getChangeTaskMetadata

  /**
   * `parentSuggestedTasks.map(getSuggestedStartEndChangesFromDirectChildren)`:
   * the first parent whose recomputation throws decides the error.
   */
  function ParentSuggestions(ps: seq<Task>, action: ChangeAction, tasksMap: TaskMapByLevel, gi: GlobalIndexMap)
    : (r: Result<seq<Suggestion>>)
    ensures r.Ok? ==> |r.value| == |ps|
  {
    if ps == [] then Ok([])
    else
      var s :- SuggestionFromDirectChildren(ps[0], action, tasksMap, gi);
      var rest :- ParentSuggestions(ps[1..], action, tasksMap, gi);
      Ok([s] + rest)
  }

  function SuggestedParentsFor(p: MetadataParams, action: ChangeAction): Result<seq<Task>> {
    if p.isUpdateDisabledParentsOnChange then CollectSuggestedParents(action, p.tasksMap) else Ok([])
  }

  function DescendantsFor(p: MetadataParams, action: ChangeAction): seq<Task> {
    if p.isMoveChildsWithParent && action.ChangeStartAndEnd? then p.getAllDescendants(action.task) else []
  }

  function DescendantSuggestionsFor(p: MetadataParams, action: ChangeAction): seq<Suggestion> {
    if action.ChangeStartAndEnd?
    then p.changeStartAndEndDescendants(action.changedTask, action.originalTask, DescendantsFor(p, action))
    else []
  }

  /** The write-set before the sweep: parent suggestions followed by descendant ones. */
  function Merged(p: MetadataParams, action: ChangeAction): Result<(seq<Task>, seq<Suggestion>)> {
    var parentSuggestedTasks :- SuggestedParentsFor(p, action);
    var parentSuggestions :- ParentSuggestions(parentSuggestedTasks, action, p.tasksMap, p.mapTaskToGlobalIndex);
    Ok((parentSuggestedTasks + DescendantsFor(p, action),
        parentSuggestions + DescendantSuggestionsFor(p, action)))
  }

  /**
   * The commit output: the two lookups pass through; the write-set is the
   * sweep of the sorted tasks over the parent and descendant suggestions;
   * a throw in either stage is the commit's error.
   */
  function ChangeTaskMetadata(p: MetadataParams, action: ChangeAction, sortedTasks: seq<Task>): (r: Result<ChangeMetadata>)
    ensures r.Ok? <==> Merged(p, action).Ok? && SweepAll(p, sortedTasks, Merged(p, action).value.0, Merged(p, action).value.1).Ok?
    ensures Merged(p, action).Err? ==> r == Err(Merged(p, action).error)
    ensures r.Ok? ==>
      && r.value.dependentTasks == p.getDependentTasks(action)
      && r.value.taskIndexes == p.getTaskIndexes(action)
      && (r.value.suggestedTasks, r.value.suggestions)
         == SweepAll(p, sortedTasks, Merged(p, action).value.0, Merged(p, action).value.1).value
  {
    var merged :- Merged(p, action);
    var swept :- SweepAll(p, sortedTasks, merged.0, merged.1);
    Ok(ChangeMetadata(p.getDependentTasks(action), p.getTaskIndexes(action), swept.0, swept.1))
  }

  /** The `forEach` over the sorted tasks: new ids are appended, known ids overwritten. */
  method SweepTasks(p: MetadataParams, sortedTasks: seq<Task>, sTasks0: seq<Task>, sugs0: seq<Suggestion>)
    returns (r: Result<(seq<Task>, seq<Suggestion>)>)
    ensures r == SweepAll(p, sortedTasks, sTasks0, sugs0)
  {
    if p.getTaskCurrentState.None? && |sortedTasks| > 0 {
      return Err(ResolverMissing);
    }
    var suggestedTasks, suggestions := sTasks0, sugs0;
    var i := 0;
    assert sortedTasks[0..] == sortedTasks;
    while i < |sortedTasks|
      invariant 0 <= i <= |sortedTasks|
      invariant p.getTaskCurrentState.Some? || i == |sortedTasks|
      invariant SweepAll(p, sortedTasks, sTasks0, sugs0) == SweepAll(p, sortedTasks[i..], suggestedTasks, suggestions)
    {
      var task := sortedTasks[i];
      assert sortedTasks[i..][1..] == sortedTasks[i + 1..];
      var suggestedTask :- GetTaskCurrentState(p.getTaskCurrentState.value, task, p.depth);
      if !suggestedTask.keepsDates {
        var indexInMap := SweepIndex(p.mapTaskToGlobalIndex, task);
        var existsIndex := FindTaskIndex(suggestedTasks, task.id);
        var suggestion := Suggestion(suggestedTask.task.start, suggestedTask.task.end, suggestedTask.task, indexInMap);
        if existsIndex != -1 {
          suggestedTasks := suggestedTasks[existsIndex := Merge(suggestedTasks[existsIndex], suggestedTask.task)];
          var foundSuggestionIndex := FindSuggestionIndex(suggestions, task.id);
          if foundSuggestionIndex != -1 {
            suggestions := suggestions[foundSuggestionIndex := suggestion];
          }
        } else {
          suggestedTasks := suggestedTasks + [suggestedTask.task];
          suggestions := suggestions + [suggestion];
        }
      }
      i := i + 1;
    }
    assert sortedTasks[i..] == [];
    r := Ok((suggestedTasks, suggestions));
  }

  method GetChangeTaskMetadata(p: MetadataParams, action: ChangeAction, sortedTasks: seq<Task>)
    returns (r: Result<ChangeMetadata>)
    ensures r == ChangeTaskMetadata(p, action, sortedTasks)
  {
    var parentSuggestedTasks :- SuggestedParentsFor(p, action);
    var parentSuggestions :- ParentSuggestions(parentSuggestedTasks, action, p.tasksMap, p.mapTaskToGlobalIndex);
    var suggestedTasks := parentSuggestedTasks + DescendantsFor(p, action);
    var suggestions := parentSuggestions + DescendantSuggestionsFor(p, action);
    var swept :- SweepTasks(p, sortedTasks, suggestedTasks, suggestions);
    var taskIndexes := p.getTaskIndexes(action);
    var dependentTasks := p.getDependentTasks(action);
    r := Ok(ChangeMetadata(dependentTasks, taskIndexes, swept.0, swept.1));
  }

  // ---------------------------------------------------------------------------
  // Properties

  /** The insertion-ordered set: earlier elements stay in front, nothing repeats, nothing is lost. */
  lemma {:induction false} AddAllIsOrderedUnion(acc: seq<Task>, xs: seq<Task>)
    requires NoDuplicates(acc)
    ensures var r := AddAll(acc, xs);
      && NoDuplicates(r)
      && |acc| <= |r|
      && r[..|acc|] == acc
      && forall x :: x in r <==> x in acc || x in xs
    decreases |xs|
  {
    if xs != [] {
      var next := if xs[0] in acc then acc else acc + [xs[0]];
      AddAllIsOrderedUnion(next, xs[1..]);
      assert AddAll(acc, xs)[..|next|] == next;
      assert AddAll(acc, xs)[..|acc|] == next[..|acc|];
      assert forall x :: x in xs <==> x == xs[0] || x in xs[1..];
    }
  }

  lemma {:induction false} ParentsOfAllMembers(ts: seq<Task>, tasksMap: TaskMapByLevel)
    ensures forall x :: x in ParentsOfAll(ts, tasksMap) <==> exists t :: t in ts && x in Parents(t, tasksMap)
    decreases |ts|
  {
    if ts != [] {
      ParentsOfAllMembers(ts[1..], tasksMap);
      assert forall t :: t in ts <==> t == ts[0] || t in ts[1..];
    }
  }

  /** Deleting tasks suggests every collected parent of every deleted task, each once. */
  lemma DeleteSuggestsEachParentOnce(tasks: seq<Task>, tasksMap: TaskMapByLevel)
    ensures var r := CollectSuggestedParents(Delete(tasks), tasksMap);
      && r.Ok?
      && NoDuplicates(r.value)
      && forall x :: x in r.value <==> exists t :: t in tasks && x in Parents(t, tasksMap)
  {
    AddAllIsOrderedUnion([], ParentsOfAll(tasks, tasksMap));
    ParentsOfAllMembers(tasks, tasksMap);
  }

  /**
   * Moving tasks inside a parent suggests that parent first, then the parents of
   * the new parent and of every moved task, each once.
   */
  lemma MoveInsideSuggestsParentFirst(parent: Task, childs: seq<Task>, tasksMap: TaskMapByLevel)
    ensures var r := CollectSuggestedParents(MoveInside(parent, childs), tasksMap);
      && r.Ok?
      && r.value[0] == parent
      && NoDuplicates(r.value)
      && forall x :: x in r.value <==>
           x == parent || x in Parents(parent, tasksMap) || exists t :: t in childs && x in Parents(t, tasksMap)
  {
    var own, below := Parents(parent, tasksMap), ParentsOfAll(childs, tasksMap);
    var r := AddAll([parent], own + below);
    assert CollectSuggestedParents(MoveInside(parent, childs), tasksMap) == Ok(r);
    AddAllIsOrderedUnion([parent], own + below);
    assert r[..1] == [parent];
    ParentsOfAllMembers(childs, tasksMap);
    assert forall x :: x in own + below <==> x in own || x in below;
  }

  /**
   * Every suggested parent is an auto-managed task, except the explicit parent
   * of `add_childs` and `move_inside`, which is suggested whatever its policy.
   */
  lemma SuggestedParentsAreAutoManaged(action: ChangeAction, tasksMap: TaskMapByLevel)
    ensures var r := CollectSuggestedParents(action, tasksMap);
      r.Ok? ==> forall x :: x in r.value ==>
        x.isDisabled || ((action.AddChilds? || action.MoveInside?) && x == action.parent)
  {
    forall t | true
      ensures forall x :: x in Parents(t, tasksMap) ==> x.isDisabled
    {
      ParentsIsDirectParent(t, tasksMap);
    }
    match action
    case Delete(tasks) =>
      AddAllIsOrderedUnion([], ParentsOfAll(tasks, tasksMap));
      ParentsOfAllMembers(tasks, tasksMap);
    case MoveInside(parent, childs) =>
      AddAllIsOrderedUnion([parent], Parents(parent, tasksMap) + ParentsOfAll(childs, tasksMap));
      ParentsOfAllMembers(childs, tasksMap);
    case _ =>
  }

  /** `x` is the changed version of a qualifying task of `lm`. */
  predicate ReadFrom(x: Task, lm: LevelMap, parentId: string, action: ChangeAction) {
    exists y :: y in lm && x == Replaced(y, action) && IsDirectChild(y, parentId, action)
  }

  /**
   * The children read are exactly the qualifying tasks of the level, each in its
   * changed version: deleted, empty, undated and foreign tasks are never read.
   */
  lemma {:induction false} DirectChildrenAreQualifying(lm: LevelMap, parentId: string, action: ChangeAction)
    ensures var r := DirectChildrenFor(lm, parentId, action);
      && (forall x :: x in r ==> ReadFrom(x, lm, parentId, action))
      && (forall y :: y in lm && IsDirectChild(y, parentId, action) ==> Replaced(y, action) in r)
    decreases |lm|
  {
    if lm != [] {
      var y0, rest := lm[0], lm[1..];
      DirectChildrenAreQualifying(rest, parentId, action);
      assert forall y :: y in lm <==> y == y0 || y in rest;
      var r, r1 := DirectChildrenFor(lm, parentId, action), DirectChildrenFor(rest, parentId, action);
      assert r == (if IsDirectChild(y0, parentId, action) then [Replaced(y0, action)] + r1 else r1);
      forall x | x in r
        ensures ReadFrom(x, lm, parentId, action)
      {
        if x in r1 {
          assert ReadFrom(x, rest, parentId, action);
          var y :| y in rest && x == Replaced(y, action) && IsDirectChild(y, parentId, action);
          assert y in lm;
        } else {
          assert y0 in lm;
        }
      }
    }
  }

  /** On a `delete` the children are never compared: the fold keeps its seed. */
  lemma {:induction false} DeleteKeepsSeed(cs: seq<Task>, parentId: string, start: Ms, end: Ms)
    ensures FoldStart(cs, parentId, true, start) == start
    ensures FoldEnd(cs, parentId, true, end) == end
    decreases |cs|
  {
    if cs != [] {
      DeleteKeepsSeed(cs[1..], parentId, start, end);
    }
  }

  /** The start fold is the earliest start among the children that name the parent (and the seed). */
  lemma {:induction false} FoldStartIsEarliest(cs: seq<Task>, parentId: string, start: Ms)
    requires start.Some?
    requires forall c :: c in cs && IsChildOf(c, parentId) ==> c.start.Some?
    ensures var r := FoldStart(cs, parentId, false, start);
      && r.Some? && r.value <= start.value
      && (forall c :: c in cs && IsChildOf(c, parentId) ==> r.value <= c.start.value)
      && (r == start || exists c :: c in cs && IsChildOf(c, parentId) && r == c.start)
    decreases |cs|
  {
    if cs != [] {
      var c := cs[0];
      var next := if IsChildOf(c, parentId) && Before(c.start, start) then c.start else start;
      FoldStartIsEarliest(cs[1..], parentId, next);
      assert forall x :: x in cs <==> x == c || x in cs[1..];
    }
  }

  /** The end fold is the latest end among the children that name the parent (and the seed). */
  lemma {:induction false} FoldEndIsLatest(cs: seq<Task>, parentId: string, end: Ms)
    requires end.Some?
    requires forall c :: c in cs && IsChildOf(c, parentId) ==> c.end.Some?
    ensures var r := FoldEnd(cs, parentId, false, end);
      && r.Some? && r.value >= end.value
      && (forall c :: c in cs && IsChildOf(c, parentId) ==> r.value >= c.end.value)
      && (r == end || exists c :: c in cs && IsChildOf(c, parentId) && r == c.end)
    decreases |cs|
  {
    if cs != [] {
      var c := cs[0];
      var next := if IsChildOf(c, parentId) && Before(end, c.end) then c.end else end;
      FoldEndIsLatest(cs[1..], parentId, next);
      assert forall x :: x in cs <==> x == c || x in cs[1..];
    }
  }

  /**
   * A parent without qualifying children keeps its dates, and on a `delete` it
   * takes the dates of its first remaining child.
   */
  lemma ParentSeedCases(parentTask: Task, action: ChangeAction, tasksMap: TaskMapByLevel, gi: GlobalIndexMap)
    requires DefaultLevel(parentTask) in tasksMap
    ensures var r := SuggestionFromDirectChildren(parentTask, action, tasksMap, gi);
      var cs := DirectChildrenFor(tasksMap[DefaultLevel(parentTask)], parentTask.id, action);
      && r.Ok?
      && (cs == [] ==> r.value.start == parentTask.start && r.value.end == parentTask.end)
      && (cs != [] && action.Delete? ==> r.value.start == cs[0].start && r.value.end == cs[0].end)
  {
    var cs := DirectChildrenFor(tasksMap[DefaultLevel(parentTask)], parentTask.id, action);
    if cs != [] && action.Delete? {
      DeleteKeepsSeed(cs, parentTask.id, cs[0].start, cs[0].end);
    }
  }

  /**
   * Otherwise the parent spans its direct children: it starts at the earliest
   * child start and ends at the latest child end, each attained by a child.
   */
  lemma ParentSpansChildren(parentTask: Task, action: ChangeAction, tasksMap: TaskMapByLevel, gi: GlobalIndexMap)
    requires DefaultLevel(parentTask) in tasksMap && !action.Delete?
    requires var cs := DirectChildrenFor(tasksMap[DefaultLevel(parentTask)], parentTask.id, action);
      cs != [] && forall c :: c in cs ==> Dated(c)
    ensures var r := SuggestionFromDirectChildren(parentTask, action, tasksMap, gi);
      var cs := DirectChildrenFor(tasksMap[DefaultLevel(parentTask)], parentTask.id, action);
      && r.Ok? && r.value.start.Some? && r.value.end.Some?
      && (forall c :: c in cs && IsChildOf(c, parentTask.id) ==>
            r.value.start.value <= c.start.value && c.end.value <= r.value.end.value)
      && (exists c :: c in cs && r.value.start == c.start)
      && (exists c :: c in cs && r.value.end == c.end)
  {
    var cs := DirectChildrenFor(tasksMap[DefaultLevel(parentTask)], parentTask.id, action);
    assert cs[0] in cs;
    FoldStartIsEarliest(cs, parentTask.id, cs[0].start);
    FoldEndIsLatest(cs, parentTask.id, cs[0].end);
  }

  /**
   * Building the parent suggestions succeeds exactly when every parent's level
   * map exists, and then gives one suggestion per parent, in order.
   */
  lemma {:induction false} ParentSuggestionsAt(
    ps: seq<Task>, action: ChangeAction, tasksMap: TaskMapByLevel, gi: GlobalIndexMap)
    ensures var r := ParentSuggestions(ps, action, tasksMap, gi);
      && (r.Ok? <==> forall i :: 0 <= i < |ps| ==> DefaultLevel(ps[i]) in tasksMap)
      && (r.Ok? ==> forall i :: 0 <= i < |ps| ==>
            (Ok(r.value[i]) == SuggestionFromDirectChildren(ps[i], action, tasksMap, gi) && r.value[i].task == ps[i]))
    decreases |ps|
  {
    if ps != [] {
      ParentSuggestionsAt(ps[1..], action, tasksMap, gi);
      assert forall i :: 1 <= i < |ps| ==> ps[1..][i - 1] == ps[i];
    }
  }

  /** `ps[i]` is the first parent whose level map is missing. */
  predicate FirstMissingLevel(ps: seq<Task>, i: int, tasksMap: TaskMapByLevel) {
    && 0 <= i < |ps| && DefaultLevel(ps[i]) !in tasksMap
    && forall j :: 0 <= j < i ==> DefaultLevel(ps[j]) in tasksMap
  }

  /** On failure the error names the level of the first parent whose level map is missing. */
  lemma {:induction false} ParentSuggestionsFirstMissing(
    ps: seq<Task>, action: ChangeAction, tasksMap: TaskMapByLevel, gi: GlobalIndexMap)
    ensures var r := ParentSuggestions(ps, action, tasksMap, gi);
      r.Err? ==> exists i :: FirstMissingLevel(ps, i, tasksMap) && r.error == MissingLevelMap(DefaultLevel(ps[i]))
    decreases |ps|
  {
    if ps != [] {
      if DefaultLevel(ps[0]) !in tasksMap {
        assert FirstMissingLevel(ps, 0, tasksMap);
      } else {
        var rest := ps[1..];
        ParentSuggestionsFirstMissing(rest, action, tasksMap, gi);
        var r := ParentSuggestions(rest, action, tasksMap, gi);
        if r.Err? {
          var i :| FirstMissingLevel(rest, i, tasksMap) && r.error == MissingLevelMap(DefaultLevel(rest[i]));
          assert forall j :: 1 <= j < i + 1 ==> ps[j] == rest[j - 1];
          assert ps[i + 1] == rest[i];
          assert FirstMissingLevel(ps, i + 1, tasksMap);
        }
      }
    }
  }

  predicate DistinctIds(ts: seq<Task>) {
    NoDuplicates(Ids(ts))
  }

  /** The resolver leaves the id of every sorted task alone (it does unless an adjustment renames). */
  predicate ResolverKeepsIds(frame: Frame, depth: nat, tasks: seq<Task>) {
    forall i :: 0 <= i < |tasks| && GetTaskCurrentState(frame, tasks[i], depth).Ok? ==>
      GetTaskCurrentState(frame, tasks[i], depth).value.task.id == tasks[i].id
  }

  /**
   * `ids` extends `base` in place, and every id past `base` occurs in `ids`
   * only once and not in `base`.
   */
  predicate FreshTail(base: seq<string>, ids: seq<string>) {
    && |base| <= |ids| && ids[..|base|] == base
    && forall i, j :: 0 <= i < j < |ids| && |base| <= j ==> ids[i] != ids[j]
  }

  /**
   * One sweep step either keeps the ids or appends the task's id, which was
   * not yet present; both lists grow together.
   */
  lemma ResolverKeepsIdsTail(frame: Frame, depth: nat, tasks: seq<Task>)
    requires tasks != [] && ResolverKeepsIds(frame, depth, tasks)
    ensures ResolverKeepsIds(frame, depth, tasks[1..])
  {
    assert forall i :: 0 <= i < |tasks[1..]| ==> tasks[1..][i] == tasks[i + 1];
  }

  lemma SweepStepPreserves(gi: GlobalIndexMap, sTasks: seq<Task>, sugs: seq<Suggestion>, task: Task, st: State)
    requires st.task.id == task.id
    ensures var r := SweepStep(gi, sTasks, sugs, task, st);
      && (Ids(r.0) == Ids(sTasks) || (Ids(r.0) == Ids(sTasks) + [task.id] && task.id !in Ids(sTasks)))
      && |r.0| - |sTasks| == |r.1| - |sugs|
      && (task.id in Ids(sTasks) ==> |r.0| == |sTasks| && |r.1| == |sugs|)
      && (!st.keepsDates ==> task.id in Ids(r.0))
  {
    var r := SweepStep(gi, sTasks, sugs, task, st);
    if !st.keepsDates {
      var e := FindTaskIndex(sTasks, task.id);
      if e != -1 {
        IdsUpdate(sTasks, e, Merge(sTasks[e], st.task));
        assert Ids(r.0)[e] == task.id;
      } else {
        assert r.0 == sTasks + [st.task];
        IdsAppend(sTasks, st.task);
        assert task.id !in Ids(sTasks);
      }
    }
  }

  /** Overwriting a task by one with the same id keeps the ids. */
  lemma IdsUpdate(ts: seq<Task>, e: int, t: Task)
    requires 0 <= e < |ts| && t.id == ts[e].id
    ensures Ids(ts[e := t]) == Ids(ts)
  {
    assert forall i :: 0 <= i < |ts| ==> Ids(ts[e := t])[i] == Ids(ts)[i];
  }

  lemma IdsAppend(ts: seq<Task>, t: Task)
    ensures Ids(ts + [t]) == Ids(ts) + [t.id]
  {
    assert forall i :: 0 <= i < |ts| ==> Ids(ts + [t])[i] == (Ids(ts) + [t.id])[i];
  }

  lemma FreshTailAppend(base: seq<string>, ids: seq<string>, x: string)
    requires FreshTail(base, ids) && x !in ids
    ensures FreshTail(base, ids + [x])
  {
    assert (ids + [x])[..|base|] == ids[..|base|];
    assert forall i :: 0 <= i < |ids| ==> (ids + [x])[i] == ids[i];
  }

  /** A fresh tail over a duplicate-free base is duplicate-free. */
  lemma FreshTailDistinct(base: seq<string>, ids: seq<string>)
    requires FreshTail(base, ids) && NoDuplicates(base)
    ensures NoDuplicates(ids)
  {
    forall i, j | 0 <= i < j < |ids|
      ensures ids[i] != ids[j]
    {
      if j < |base| {
        assert ids[i] == ids[..|base|][i] == base[i];
        assert ids[j] == ids[..|base|][j] == base[j];
      }
    }
  }

  /** The resolver rebuilt the task's dates. */
  predicate Rebuilt(frame: Frame, depth: nat, t: Task) {
    GetTaskCurrentState(frame, t, depth).Ok? && !GetTaskCurrentState(frame, t, depth).value.keepsDates
  }

  lemma PrefixOfPrefix(a: seq<string>, b: seq<string>, c: seq<string>)
    requires |a| <= |b| <= |c| && b[..|a|] == a && c[..|b|] == b
    ensures c[..|a|] == a && forall x :: x in b ==> x in c
  {
    assert c[..|a|] == c[..|b|][..|a|];
    forall x | x in b ensures x in c {
      var k :| 0 <= k < |b| && b[k] == x;
      assert c[k] == c[..|b|][k];
    }
  }

  /**
   * The sweep grows both lists together, keeps every id already present in
   * place, and appends only ids not yet present.
   */
  lemma {:induction false} SweepAppendsFreshIds(
    gi: GlobalIndexMap, frame: Frame, depth: nat, tasks: seq<Task>, sTasks: seq<Task>, sugs: seq<Suggestion>,
    base: seq<string>)
    requires FreshTail(base, Ids(sTasks)) && ResolverKeepsIds(frame, depth, tasks)
    ensures var r := Sweep(gi, frame, depth, tasks, sTasks, sugs);
      r.Ok? ==>
        && FreshTail(base, Ids(r.value.0))
        && |r.value.0| - |sTasks| == |r.value.1| - |sugs| && |sTasks| <= |r.value.0|
        && Ids(r.value.0)[..|sTasks|] == Ids(sTasks)
    decreases |tasks|
  {
    if tasks != [] {
      var rs := GetTaskCurrentState(frame, tasks[0], depth);
      if rs.Ok? {
        var next := SweepStep(gi, sTasks, sugs, tasks[0], rs.value);
        SweepStepPreserves(gi, sTasks, sugs, tasks[0], rs.value);
        if Ids(next.0) != Ids(sTasks) {
          FreshTailAppend(base, Ids(sTasks), tasks[0].id);
        }
        assert Ids(next.0)[..|sTasks|] == Ids(sTasks);
        ResolverKeepsIdsTail(frame, depth, tasks);
        SweepAppendsFreshIds(gi, frame, depth, tasks[1..], next.0, next.1, base);
        var r := Sweep(gi, frame, depth, tasks[1..], next.0, next.1);
        if r.Ok? {
          PrefixOfPrefix(Ids(sTasks), Ids(next.0), Ids(r.value.0));
        }
      }
    }
  }

  /** Every sorted task whose dates the resolver rebuilt has an entry after the sweep. */
  lemma {:induction false} SweepRecordsRebuilt(
    gi: GlobalIndexMap, frame: Frame, depth: nat, tasks: seq<Task>, sTasks: seq<Task>, sugs: seq<Suggestion>)
    requires ResolverKeepsIds(frame, depth, tasks)
    ensures var r := Sweep(gi, frame, depth, tasks, sTasks, sugs);
      r.Ok? ==> forall i :: 0 <= i < |tasks| && Rebuilt(frame, depth, tasks[i]) ==> tasks[i].id in Ids(r.value.0)
    decreases |tasks|
  {
    if tasks != [] {
      var rs := GetTaskCurrentState(frame, tasks[0], depth);
      if rs.Ok? {
        var next := SweepStep(gi, sTasks, sugs, tasks[0], rs.value);
        SweepStepPreserves(gi, sTasks, sugs, tasks[0], rs.value);
        ResolverKeepsIdsTail(frame, depth, tasks);
        SweepRecordsRebuilt(gi, frame, depth, tasks[1..], next.0, next.1);
        assert Ids(next.0)[..|Ids(next.0)|] == Ids(next.0);
        SweepAppendsFreshIds(gi, frame, depth, tasks[1..], next.0, next.1, Ids(next.0));
        var r := Sweep(gi, frame, depth, tasks[1..], next.0, next.1);
        if r.Ok? {
          PrefixOfPrefix(Ids(next.0), Ids(next.0), Ids(r.value.0));
          forall i | 0 <= i < |tasks| && Rebuilt(frame, depth, tasks[i])
            ensures tasks[i].id in Ids(r.value.0)
          {
            if i > 0 {
              assert tasks[i] == tasks[1..][i - 1];
            }
          }
        }
      }
    }
  }

  /**
   * The sweep over a write-set never adds a second entry for an id: ids
   * already written stay in place, each appended id is new, so a
   * duplicate-free write-set stays duplicate-free.
   */
  lemma SweepKeepsIdsDistinct(
    gi: GlobalIndexMap, frame: Frame, depth: nat, tasks: seq<Task>, sTasks: seq<Task>, sugs: seq<Suggestion>)
    requires ResolverKeepsIds(frame, depth, tasks)
    ensures var r := Sweep(gi, frame, depth, tasks, sTasks, sugs);
      r.Ok? ==>
        && FreshTail(Ids(sTasks), Ids(r.value.0))
        && (DistinctIds(sTasks) ==> DistinctIds(r.value.0))
        && |r.value.0| - |sTasks| == |r.value.1| - |sugs|
        && (forall i :: 0 <= i < |tasks| && Rebuilt(frame, depth, tasks[i]) ==> tasks[i].id in Ids(r.value.0))
  {
    assert Ids(sTasks)[..|Ids(sTasks)|] == Ids(sTasks);
    SweepAppendsFreshIds(gi, frame, depth, tasks, sTasks, sugs, Ids(sTasks));
    SweepRecordsRebuilt(gi, frame, depth, tasks, sTasks, sugs);
    var r := Sweep(gi, frame, depth, tasks, sTasks, sugs);
    if r.Ok? && DistinctIds(sTasks) {
      FreshTailDistinct(Ids(sTasks), Ids(r.value.0));
    }
  }

  /** Without a change in progress the sweep writes nothing. */
  lemma {:induction false} NoChangeSweepWritesNothing(
    gi: GlobalIndexMap, frame: Frame, depth: nat, tasks: seq<Task>, sTasks: seq<Task>, sugs: seq<Suggestion>)
    requires frame.changeInProgress.None? && depth > 0
    ensures Sweep(gi, frame, depth, tasks, sTasks, sugs) == Ok((sTasks, sugs))
    decreases |tasks|
  {
    if tasks != [] {
      NoChangeIsIdentity(frame, tasks[0], depth);
      NoChangeSweepWritesNothing(gi, frame, depth, tasks[1..], sTasks, sugs);
    }
  }

  /**
   * The write-set before the sweep: with the parent policy off no parent is
   * suggested; with it on, one suggestion per collected parent, in order, in
   * front; descendants only for `change_start_and_end` with "move children".
   */
  lemma MergedLayout(p: MetadataParams, action: ChangeAction)
    ensures !p.isUpdateDisabledParentsOnChange ==>
      Merged(p, action) == Ok((DescendantsFor(p, action), DescendantSuggestionsFor(p, action)))
    ensures !(p.isMoveChildsWithParent && action.ChangeStartAndEnd?) ==> DescendantsFor(p, action) == []
    ensures Merged(p, action).Ok? && p.isUpdateDisabledParentsOnChange ==>
      var ps := CollectSuggestedParents(action, p.tasksMap).value;
      var m := Merged(p, action).value;
      && |ps| <= |m.0| && |ps| <= |m.1|
      && forall i :: 0 <= i < |ps| ==>
        (m.0[i] == ps[i] && m.1[i].task == ps[i]
         && Ok(m.1[i]) == SuggestionFromDirectChildren(ps[i], action, p.tasksMap, p.mapTaskToGlobalIndex))
  {
    var rp := SuggestedParentsFor(p, action);
    if rp.Ok? {
      ParentSuggestionsAt(rp.value, action, p.tasksMap, p.mapTaskToGlobalIndex);
    }
    if !p.isUpdateDisabledParentsOnChange {
      assert [] + DescendantsFor(p, action) == DescendantsFor(p, action);
      assert [] + DescendantSuggestionsFor(p, action) == DescendantSuggestionsFor(p, action);
    }
  }

  /**
   * An action outside the union throws only when the parent policy makes the
   * switch run; with the policy off it is committed like any other.
   */
  lemma UnknownActionThrowsOnlyUnderParentPolicy(p: MetadataParams, kind: string, sortedTasks: seq<Task>)
    ensures p.isUpdateDisabledParentsOnChange ==>
      ChangeTaskMetadata(p, UnknownAction(kind), sortedTasks) == Err(UnknownChangeAction(kind))
    ensures !p.isUpdateDisabledParentsOnChange ==>
      ChangeTaskMetadata(p, UnknownAction(kind), sortedTasks) ==
        match SweepAll(p, sortedTasks, [], [])
        case Err(e) => Err(e)
        case Ok(sw) => Ok(ChangeMetadata(p.getDependentTasks(UnknownAction(kind)), p.getTaskIndexes(UnknownAction(kind)), sw.0, sw.1))
  {
  }

  /**
   * The committed write-set starts with the parent and descendant entries,
   * their ids in place, appends at most one entry per new id, and keeps the
   * task and suggestion lists the same length apart from that prefix.
   */
  lemma CommitExtendsMerged(p: MetadataParams, action: ChangeAction, sortedTasks: seq<Task>)
    requires p.getTaskCurrentState.Some? && ResolverKeepsIds(p.getTaskCurrentState.value, p.depth, sortedTasks)
    ensures var r := ChangeTaskMetadata(p, action, sortedTasks);
      r.Ok? ==>
        var m := Merged(p, action).value;
        && FreshTail(Ids(m.0), Ids(r.value.suggestedTasks))
        && |r.value.suggestedTasks| - |m.0| == |r.value.suggestions| - |m.1|
  {
    var m := Merged(p, action);
    if m.Ok? {
      SweepKeepsIdsDistinct(p.mapTaskToGlobalIndex, p.getTaskCurrentState.value, p.depth, sortedTasks, m.value.0, m.value.1);
    }
  }

  /** Committing with no change in progress writes exactly the parent and descendant suggestions. */
  lemma NoChangeCommitsMergedOnly(p: MetadataParams, action: ChangeAction, sortedTasks: seq<Task>)
    requires p.getTaskCurrentState.Some? && p.getTaskCurrentState.value.changeInProgress.None? && p.depth > 0
    ensures var r := ChangeTaskMetadata(p, action, sortedTasks);
      && (r.Ok? <==> Merged(p, action).Ok?)
      && (r.Ok? ==>
            (r.value.suggestedTasks == Merged(p, action).value.0 && r.value.suggestions == Merged(p, action).value.1))
  {
    var m := Merged(p, action);
    if m.Ok? {
      NoChangeSweepWritesNothing(p.mapTaskToGlobalIndex, p.getTaskCurrentState.value, p.depth, sortedTasks, m.value.0, m.value.1);
    }
  }
}
