# gantt-task-react rescheduling engine, in Dafny

This project models the scheduling logic behind the Gantt chart of
gantt-task-react and proves properties of it. React components, SVG drawing and
the DOM are not modelled. The model has five parts, one module each. A sixth
module works two concrete commits through the model.

- `ParentCollector` (`parents.dfy`) models `collectParents`. It walks from a
  task to its parent in the task's level map, guarded by a set of visited ids.
  The loop condition `task.parent != cur.id` ends the walk once it stands on the
  direct parent, so the result is empty or that one parent.
- `CurrentState` (`current_state.dfy`) models the resolver
  `getTaskCurrentState`. Given the edit in progress, it gives the task to
  display for the current frame. The rules apply in order and the first that
  applies wins:
  1. the edited task itself;
  2. the first dependency whose source moved;
  3. a collected parent moved as a rigid block;
  4. a descendant of a moved task;
  5. an auto-managed direct parent, recomputed as the min/max of its children;
  6. otherwise the task as stored, or a progress-only copy.
- `Metadata` (`change_metadata.dfy`) models the computation of a committed
  change's write-set. This is `collectSuggestedParents`,
  `getSuggestedStartEndChangesFromDirectChildren` and `getChangeTaskMetadata`.
  The last is the per-action parent list, the parent recomputation, the merge
  with the descendant suggestions, and the sweep over all sorted tasks.
- `TaskDrag` (`task_drag.dfy`) models the drag arithmetic `getNextCoordinates`
  and `getNextTsDiff`. The class `DragController` holds the single edit record
  (`changeInProgress`, `None` when idle). Its methods are drag start, pointer
  move, the auto-scroll tick and release.
- `RelationCircle` (`relation_circle.dfy`) models the connector-circle hit test
  `getRelationCircleByCoordinates`.
- `Types` (`types.dfy`) holds the shared data model:
  - tasks, with optional dates as milliseconds since the epoch;
  - a level map as the insertion-ordered list of its tasks;
  - bar coordinates and the edit record.

How JavaScript behaviour is represented:

- Failures become `Result` errors:
  - a missing level map, which JavaScript reads through `undefined`;
  - an unknown change action;
  - a stack overflow in the unguarded resolver recursion;
  - a missing resolver during the sweep.
- A time value is `Option<int>`. `None` stands for NaN, an Invalid Date or a
  missing date. Arithmetic on `None` gives `None`, and a comparison involving
  it is false.
- The sweep of `getChangeTaskMetadata` tests `task.start != suggestedTask.start`.
  That compares Date objects by reference. The resolver therefore returns
  `State(task, keepsDates)`. `keepsDates` marks the two branches that hand back
  the caller's own Date objects: the identity branch and the progress-only copy.
- Collaborators whose source is not modelled are parameters. These are
  `adjustTaskToWorkingDates` (with `roundDate`), `checkIsDescendant`,
  `handleTaskBySVGMouseEvent`, `roundTaskDates`, `getTaskCoordinates`,
  `getCoordinatesOnLevel`, `getAllDescendants`, `changeStartAndEndDescendants`,
  `getTaskIndexes` and `getDependentTasks`. No property of their internals is
  assumed, with one exception: the sweep lemmas require `ResolverKeepsIds`,
  that the resolver (and so the working-date adjustment) keeps task ids.

## Model

| member | source | states |
|---|---|---|
| ParentCollector.CollectParents | src/helpers/collect-parents.ts:3-45 | the loop, with its visited-id guard and early returns, returns exactly `Parents(task, tasksMap)` |
| ParentCollector.ParentsEmptyIff | src/helpers/collect-parents.ts:15-39 | the result is empty iff the task is its own parent, has no parent, its level map is missing, the parent id is not in it, or the parent is not auto-managed |
| ParentCollector.ParentsIsDirectParent | src/helpers/collect-parents.ts:15-42 | at most one task is collected. It is collected iff it is the auto-managed entry stored under `task.parent` at the task's comparison level (default 1) |
| ParentCollector.SelfParentCollectsNothing | src/helpers/collect-parents.ts:15 | a task that names itself as parent never enters the loop, so nothing is collected |
| ParentCollector.ParentsNoRepeats | src/helpers/collect-parents.ts:10-23 | no id is collected twice |
| CurrentState.Shift | src/components/gantt/use-get-task-current-state.ts:91-95 | the dates move by the same delta, the duration of a dated task is kept, and every other field is copied |
| CurrentState.NoChangeIsIdentity | src/components/gantt/use-get-task-current-state.ts:55-231 | with no change in progress every task is shown as stored, with its own Date objects |
| CurrentState.EditedTaskResolvesToChangedTask | src/components/gantt/use-get-task-current-state.ts:60-72 | the edited task resolves to `changedTask`, adjusted to working dates when that policy is on |
| CurrentState.DependencyOutcomeIsMove | src/components/gantt/use-get-task-current-state.ts:79-89 | a dependency moves the task only when its source is found at the level and dated, and its resolved start or end delta is nonzero; the shift is the end delta for an end-of-task dependency and the start delta otherwise |
| CurrentState.DependencyScanFirstMatch | src/components/gantt/use-get-task-current-state.ts:79-106 | the scan yields `s` iff some dependency yields `s` and every earlier dependency says nothing (first match, both directions) |
| CurrentState.DependencyScanSilent | src/components/gantt/use-get-task-current-state.ts:79-108 | when no dependency's source moved, the dependency rule does not apply |
| CurrentState.DependencyFollowsEditedSource | src/components/gantt/use-get-task-current-state.ts:75-106 | a task whose first dependency names the edited task is shifted by that task's end delta (end dependency) or start delta (start dependency) |
| CurrentState.DependencyRuleDecides | src/components/gantt/use-get-task-current-state.ts:74-106 | a verdict of the dependency rule is the resolver's answer |
| CurrentState.ParentCandidates | src/components/gantt/use-get-task-current-state.ts:116-120 | the candidates are exactly the collected parents that are dated and not parents of the edited task |
| CurrentState.ParentScanFirstMatch | src/components/gantt/use-get-task-current-state.ts:121-145 | a verdict of the parent scan comes from the first parent that resolves to a move, and shifts the task by that parent's delta |
| CurrentState.ParentRuleFires | src/components/gantt/use-get-task-current-state.ts:111-145 | the parent rule fires only for a dated task with "move children" on, through a dated parent that is not the edited task's parent, with a nonzero delta |
| CurrentState.ParentOutcomeIsRigidMove | src/components/gantt/use-get-task-current-state.ts:122-128 | a parent decides only when its resolved start and end deltas are equal and nonzero |
| CurrentState.DescendantMovesByTsDiff | src/components/gantt/use-get-task-current-state.ts:150-177 | a dated descendant of the task being `move`d, left alone by rules 2 and 3, moves by `tsDiff` |
| CurrentState.DirectChildren | src/components/gantt/use-get-task-current-state.ts:193-204 | the children are exactly the non-empty, dated tasks of the level whose parent is the task |
| CurrentState.MinDateIsMinimum | src/components/gantt/use-get-task-current-state.ts:215 | `min` of valid dates is one of them and no later than any; it is valid iff the list is non-empty and all are valid |
| CurrentState.MaxDateIsMaximum | src/components/gantt/use-get-task-current-state.ts:216 | `max` of valid dates is one of them and no earlier than any; it is valid iff the list is non-empty and all are valid |
| CurrentState.ChildrenRuleIsMinMax | src/components/gantt/use-get-task-current-state.ts:182-217 | the auto-managed parent gets start/end equal to the min/max of its children's resolved dates, bounding each of them, with every other field its own |
| CurrentState.CopyOnWrite | src/components/gantt/use-get-task-current-state.ts:91-95 | every branch except the edited task's rebuilds only `start` and `end` (without working-date adjustment) |
| CurrentState.GetTaskCurrentState | src/components/gantt/use-get-task-current-state.ts:48-232 | a used-up stack budget fails with `CallStackExceeded`, and every other failure is a missing level map. A result that keeps the Date objects has the input's dates. While a change is in progress it is the input itself, so the progress-only copy is never returned |
| Metadata.AddAllIsOrderedUnion | src/helpers/get-change-task-metadata.ts:35-45 | adding to an insertion-ordered set keeps the earlier elements in front, adds nothing twice and loses nothing |
| Metadata.CollectSuggestedParents | src/helpers/get-change-task-metadata.ts:23-79 | the switch throws exactly for an unknown action kind, with its kind. For `add-childs` and `move-inside` the explicit parent comes first |
| Metadata.DeleteSuggestsEachParentOnce | src/helpers/get-change-task-metadata.ts:34-46 | `delete` suggests every collected parent of every deleted task, each once |
| Metadata.MoveInsideSuggestsParentFirst | src/helpers/get-change-task-metadata.ts:60-74 | `move-inside` suggests the new parent first, then the parents of it and of every moved task, each once |
| Metadata.SuggestedParentsAreAutoManaged | src/helpers/get-change-task-metadata.ts:23-79 | every suggested parent is auto-managed, except the explicit parent of `add-childs`/`move-inside` |
| Metadata.DirectChildrenAreQualifying | src/helpers/get-change-task-metadata.ts:200-224 | the children read are exactly the non-empty, dated, not-deleted tasks naming the parent, each replaced by its changed version |
| Metadata.SuggestionFromDirectChildren | src/helpers/get-change-task-metadata.ts:184-245 | the recomputation fails exactly when the parent's level map is missing, with that level. Otherwise the suggestion carries the parent, and its index is the global index-map entry for the parent's level and id, or -1 when there is none |
| Metadata.GetSuggestedStartEndChangesFromDirectChildren | src/helpers/get-change-task-metadata.ts:184-245 | the `forEach` over the children computes exactly `SuggestionFromDirectChildren` |
| Metadata.DeleteKeepsSeed | src/helpers/get-change-task-metadata.ts:230-242 | on a `delete` the loop compares nothing and keeps its seed dates |
| Metadata.FoldStartIsEarliest | src/helpers/get-change-task-metadata.ts:230-236 | the folded start is no later than any child's start and is the seed or some child's start |
| Metadata.FoldEndIsLatest | src/helpers/get-change-task-metadata.ts:230-239 | the folded end is no earlier than any child's end and is the seed or some child's end |
| Metadata.ParentSeedCases | src/helpers/get-change-task-metadata.ts:191-229 | a parent without qualifying children keeps its own dates. On a `delete` it takes its first remaining child's dates |
| Metadata.ParentSpansChildren | src/helpers/get-change-task-metadata.ts:213-242 | otherwise the parent spans its children: it starts at their earliest start and ends at their latest end, each attained by a child |
| Metadata.ParentSuggestions | src/helpers/get-change-task-metadata.ts:112-119 | the `map` gives one suggestion per parent |
| Metadata.ParentSuggestionsAt | src/helpers/get-change-task-metadata.ts:112-119 | the `map` succeeds iff every parent's level map exists; then element `i` is parent `i`'s recomputation |
| Metadata.ParentSuggestionsFirstMissing | src/helpers/get-change-task-metadata.ts:112-119 | on failure the error names the level of the first parent whose level map is missing |
| Metadata.FindTaskIndex | src/helpers/get-change-task-metadata.ts:147-149 | `findIndex` gives the first position with that id, or -1 when there is none |
| Metadata.FindSuggestionIndex | src/helpers/get-change-task-metadata.ts:155-157 | `findIndex` gives the first suggestion whose task has that id, or -1 when there is none |
| Metadata.SweepIndex | src/helpers/get-change-task-metadata.ts:144-147 | the attached index is -1 when the level `comparisonLevel - 1` (or 1) has no index map, `undefined` when that map lacks the id, and the mapped index otherwise |
| Metadata.Merge | src/helpers/get-change-task-metadata.ts:152-155 | the merged entry is the resolved task in every field, except that an absent `parent` or `comparisonLevel` keeps the earlier entry's value |
| Metadata.SweepStepWrites | src/helpers/get-change-task-metadata.ts:140-176 | a step with kept dates writes nothing. A step for a known id merges into the first entry with that id and replaces the first suggestion for it, leaving every other entry and the lengths alone. A step for a new id appends one entry and one suggestion |
| Metadata.SweepStepPreserves | src/helpers/get-change-task-metadata.ts:143-175 | one step keeps the ids, or appends the task's id when it was not yet present. It never adds an entry for a known id, and a rebuilt task has an entry afterwards |
| Metadata.SweepAppendsFreshIds | src/helpers/get-change-task-metadata.ts:140-176 | over the whole sweep the ids already written stay in place, each appended id is new, and both lists grow together |
| Metadata.SweepRecordsRebuilt | src/helpers/get-change-task-metadata.ts:140-176 | every sorted task whose dates the resolver rebuilt has an entry after the sweep |
| Metadata.SweepKeepsIdsDistinct | src/helpers/get-change-task-metadata.ts:140-176 | the sweep never writes a second entry for an id, so a duplicate-free write-set stays duplicate-free. Both lists grow together, and every rebuilt task has an entry |
| Metadata.NoChangeSweepWritesNothing | src/helpers/get-change-task-metadata.ts:140-143 | without a change in progress the sweep writes nothing |
| Metadata.SweepTasks | src/helpers/get-change-task-metadata.ts:140-176 | the in-place loop (append, or merge and overwrite) computes exactly the sweep `SweepAll` |
| Metadata.ChangeTaskMetadata | src/helpers/get-change-task-metadata.ts:96-181 | the commit succeeds iff the parent stage and the sweep do, and fails with the parent stage's error first. The dependent tasks and indexes are the lookups' results, and the write-set is the sweep over the parent and descendant suggestions |
| Metadata.CommitExtendsMerged | src/helpers/get-change-task-metadata.ts:137-176 | the committed write-set starts with the parent and descendant entries, ids in place, and appends only ids not yet present, one suggestion per appended entry |
| Metadata.GetChangeTaskMetadata | src/helpers/get-change-task-metadata.ts:96-181 | the method returns exactly the tuple `ChangeTaskMetadata` describes |
| Metadata.MergedLayout | src/helpers/get-change-task-metadata.ts:108-138 | with the parent policy off there are no parent suggestions. With it on, one per collected parent sits in front, in order. Descendants come only with `change_start_and_end` and "move children" |
| Metadata.UnknownActionThrowsOnlyUnderParentPolicy | src/helpers/get-change-task-metadata.ts:76-110 | an unknown action throws only when the parent policy runs the switch |
| Metadata.NoChangeCommitsMergedOnly | src/helpers/get-change-task-metadata.ts:137-181 | with no change in progress the commit writes exactly the parent and descendant suggestions |
| TaskDrag.NextCoordinates | src/components/gantt/use-task-drag.ts:28-152 | per action: an end resize puts the bar end at the pointer, or at `x1` when the pointer is left of it; a start resize puts the bar start at the pointer, or at `x2` when the pointer is right of it; a progress drag puts the progress end at the pointer clamped to the bar, with diff 0; a move shifts the bar by the pointer delta and keeps its length |
| TaskDrag.NextTsDiff | src/components/gantt/use-task-drag.ts:154-185 | the delta is the one that maps the original task's anchor date to the changed task's (start, end, mirrored in rtl). It is 0 for progress and the previous `tsDiff` otherwise |
| TaskDrag.StartedIsPristine | src/components/gantt/use-task-drag.ts:256-302 | a new record has `changedTask = originalTask = task`, zero diffs and spaces, and `startX = lastClientX` |
| TaskDrag.DragController.DragStart | src/components/gantt/use-task-drag.ts:256-302 | a drag start is ignored while an edit is active or without an SVG node; otherwise it stores a fresh record |
| TaskDrag.DragController.RecountOnMove | src/components/gantt/use-task-drag.ts:304-348 | a pointer move replaces the record by its recount, and is a no-op when idle |
| TaskDrag.RecountedKeepsDrag | src/components/gantt/use-task-drag.ts:304-348 | a recount keeps the action, original task, initial coordinates and start point, and leaves the pointer at `nextX` |
| TaskDrag.GrowLeft | src/components/gantt/use-task-drag.ts:374-420 | growing on the left adds one step of left space, moves the container and bar start one step left, shifts the whole bar for a move and widens it for a start resize, and keeps the drag |
| TaskDrag.GrowRight | src/components/gantt/use-task-drag.ts:448-495 | growing on the right adds one step of right space, moves the pointer and bar end one step right, shifts the whole bar for a move and widens it for an end resize, and keeps the drag |
| TaskDrag.TickOutcome | src/components/gantt/use-task-drag.ts:355-510 | no record or no scroll position, or a progress drag, changes nothing. A scroll request comes with a recount one step that way. Any other change grows the chart on the side the pointer is at |
| TaskDrag.DragController.Tick | src/components/gantt/use-task-drag.ts:350-515 | the interval body changes the record and asks for a scroll exactly as `TickOutcome` says, so by `TickScrollsOnlyWithRoom` and `TickScrollsWhenRoom` it asks for a scroll left or right exactly when the pointer is in that side zone, the drag kind scrolls that way and there is room, each time with a recount one step further |
| TaskDrag.TickKeepsDrag | src/components/gantt/use-task-drag.ts:350-515 | a tick never starts or ends a drag, keeps its identity, and never shrinks the extra left or right space |
| TaskDrag.TickScrollsOnlyWithRoom | src/components/gantt/use-task-drag.ts:366-509 | a scroll is requested only when there is room that way, and always with a recount one step further |
| TaskDrag.TickScrollsWhenRoom | src/components/gantt/use-task-drag.ts:366-509 | near the left edge a resize start or end or a move scrolls left whenever the scroll position is positive; without room a start or move grows the chart and an end does nothing. Near the right edge a move or either resize scrolls right whenever the chart is wider than the visible part; without room an end or move grows the chart and a start does nothing. Away from both edges nothing changes |
| TaskDrag.LeftEdgeGrowsChart | src/components/gantt/use-task-drag.ts:366-422 | at scroll 0, a start or move drag grows the left space by one step, lowers `coordinatesDiff` and moves `x1` left by one step |
| TaskDrag.RightEdgeGrowsChart | src/components/gantt/use-task-drag.ts:440-497 | at the end of the chart, an end or move drag grows the right space, pointer position, `coordinatesDiff` and `x2` by one step |
| TaskDrag.DragController.Up | src/components/gantt/use-task-drag.ts:572-612 | a release always clears the record and reports `Release` |
| TaskDrag.Release | src/components/gantt/use-task-drag.ts:572-612 | no record reports nothing. An unchanged bar reports nothing, a progress drag reports only the progress, and any other action reports the rounded edit with the original task |
| RelationCircle.HitOf | src/helpers/get-relation-circle-by-coordinates.ts:23-48 | a task is hit iff it is non-empty and dated, the point is on the circles' row, and it lies in either circle. The left circle is tested first |
| RelationCircle.GetRelationCircleByCoordinates | src/helpers/get-relation-circle-by-coordinates.ts:9-53 | `null` iff no task is hit. Otherwise the result is the first task in order that is hit, with its extremity |
| RelationCircle.RtlMirrorsHits | src/helpers/get-relation-circle-by-coordinates.ts:33-47 | right-to-left mode swaps the extremity of every hit and changes nothing else |
| RelationCircle.OverlapPrefersLeftCircle | src/helpers/get-relation-circle-by-coordinates.ts:33-47 | where the two circles overlap, the left circle wins |
| Scenarios.ParentFollowsChangedChild | src/helpers/get-change-task-metadata.ts:96-181 | a worked commit: moving a child's end to Jan 15 suggests the auto-managed parent once, spanning Jan 1 to Jan 15, with index -1 |
| Scenarios.DependentFollowsEndDrag | src/components/gantt/use-get-task-current-state.ts:75-106 | a worked drag: a task depending on the end of a task dragged four days later is shown four days later, and the commit writes both |

## Left out

- DOM and SVG plumbing, event listeners, timers and the React lifecycle
  (`useState`, `useEffect`, `useCallback`) are not modelled. This includes the
  effect that scrolls when extra right space appears
  (src/components/gantt/use-task-drag.ts:528-537). The tick is a method called
  once per interval. A cursor position converted by `matrixTransform` is a
  parameter of the drag start, and `None` stands for a missing SVG node.
- Stale closures are not modelled (for example `recountOnMove` reading the
  previous render's record). Each method works on the current record.
- `SCROLL_STEP` is a parameter, because its defining module is not part of this
  model. `SIDE_SCROLL_AREA_WIDTH` is the constant 70.
- Floating point: coordinates are `real`. No property is claimed about the
  `progressWidth` products of a start or end resize.
- Object identity becomes value equality in two places:
  - `changeInProgress.originalTask === currentOriginalTask` compares tasks by
    value;
  - the `Set` deduplication in `collectSuggestedParents` compares tasks by
    value.
- CurrentState.GetTaskCurrentState: the branch for the edited task is taken to
  rebuild its dates (`keepsDates` false), even before the first move. So is the
  working-date adjustment. Neither is certain to return fresh Date objects.
- CurrentState.GetTaskCurrentState: the recursion through dependencies, parents
  and children carries a stack budget. When the budget is used up the result is
  `CallStackExceeded`. A cycle of dependencies therefore fails rather than
  overflowing.
- Calling `getTime()` on a missing date throws a TypeError in JavaScript. The
  model treats it as NaN. Examples are a changed child without a date in
  `getSuggestedStartEndChangesFromDirectChildren`, or a resolved source without
  a start in the dependency rule.
- A stored Invalid Date is modelled as an absent date. JavaScript treats an
  Invalid Date as truthy, so a task carrying one would pass the dated checks
  there.
- Metadata.SweepIndex: the sweep looks indices up at level
  `comparisonLevel - 1` (level 1 when `comparisonLevel` is absent or 0). The
  recomputation looks them up at `comparisonLevel`. The model keeps both as
  written.
- Metadata.Merge: the object spread keeps the stored entry's value for every
  property the resolved task lacks. The model gives that fallback only to
  `parent` and `comparisonLevel`. A task here always holds `dependencies` (an
  empty list when absent) and `isDisabled` (false when absent), so a resolved
  task lacking them overwrites the stored values with `[]` and `false`.
- Metadata.SweepTasks: when an id is found among the tasks but not among the
  suggestions, the source writes property `-1` of the array. That is not an
  element, so the model leaves the suggestions unchanged.
- Metadata.SweepKeepsIdsDistinct: this lemma, `SweepAppendsFreshIds`,
  `SweepRecordsRebuilt` and `CommitExtendsMerged` assume, as
  `ResolverKeepsIds`, that the resolver keeps task ids. The working-date
  adjustment is a parameter and could break this.
- The `!point` guard of `handleUp` (src/components/gantt/use-task-drag.ts:575)
  is not modelled: `createSVGPoint` always returns a point.
- `console.error` on a revisited id (src/helpers/collect-parents.ts:19) is
  logging only.
- The task and the level maps are values, so no operation can modify them. This
  is why no lemma says that `collectParents` leaves them unchanged.
