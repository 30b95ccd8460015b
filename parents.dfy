/**
 * The parent collector: from a task, follow `parent` links through the task's
 * level map while the parent is auto-managed (`isDisabled`), with a visited-id
 * guard. The loop guard `task.parent != cur.id` ends the walk as soon as the
 * walk stands on the direct parent, so the result is at most that parent.
 */
module ParentCollector {
  import opened Types

  /** The loop guard: the walk has not yet reached the task's direct parent. */
  predicate Continues(task: Task, cur: Task) {
    task.parent != Some(cur.id)
  }

  /**
   * What the loop still pushes when it stands on `cur` having visited
   * `checked`. Only `cur == task` and "cur is the direct parent" are reachable.
   */
  function Walk(task: Task, tasksMap: TaskMapByLevel, cur: Task, checked: set<string>): seq<Task>
    requires cur == task || !Continues(task, cur)
    decreases if Continues(task, cur) then 1 else 0
  {
    if !Continues(task, cur) then []
    else if cur.id in checked then []
    else if !IsSet(cur.parent) then []
    else if DefaultLevel(cur) !in tasksMap then []
    else
      match Get(tasksMap[DefaultLevel(cur)], cur.parent.value)
      case None => []
      case Some(p) =>
        if !p.isDisabled then [] else [p] + Walk(task, tasksMap, p, checked + {cur.id})
  }

  /** The value `collectParents(task, tasksMap)` returns. */
  function Parents(task: Task, tasksMap: TaskMapByLevel): seq<Task> {
    Walk(task, tasksMap, task, {})
  }

  method CollectParents(task: Task, tasksMap: TaskMapByLevel) returns (res: seq<Task>)
    ensures res == Parents(task, tasksMap)
  {
    var checkedTasks: set<string> := {};
    res := [];
    var cur := task;
    while task.parent != Some(cur.id)
      invariant cur == task || !Continues(task, cur)
      invariant res + Walk(task, tasksMap, cur, checkedTasks) == Parents(task, tasksMap)
      decreases if Continues(task, cur) then 1 else 0
    {
      var level := DefaultLevel(cur);
      if cur.id in checkedTasks {
        return;
      }
      checkedTasks := checkedTasks + {cur.id};
      if !IsSet(cur.parent) {
        return;
      }
      if level !in tasksMap {
        return;
      }
      var parentTask := Get(tasksMap[level], cur.parent.value);
      if parentTask.None? || !parentTask.value.isDisabled {
        return;
      }
      res := res + [parentTask.value];
      cur := parentTask.value;
    }
  }

  /** The conditions under which the direct parent is collected. */
  predicate CollectsDirectParent(task: Task, tasksMap: TaskMapByLevel) {
    && task.parent != Some(task.id)
    && IsSet(task.parent)
    && DefaultLevel(task) in tasksMap
    && Get(tasksMap[DefaultLevel(task)], task.parent.value).Some?
    && Get(tasksMap[DefaultLevel(task)], task.parent.value).value.isDisabled
  }

  /**
   * The result is empty exactly when the task is its own parent, has no parent,
   * its level map is missing, the parent id is not in it, or the parent is not
   * auto-managed.
   */
  lemma ParentsEmptyIff(task: Task, tasksMap: TaskMapByLevel)
    ensures Parents(task, tasksMap) == [] <==>
      (|| task.parent == Some(task.id)
       || !IsSet(task.parent)
       || DefaultLevel(task) !in tasksMap
       || Get(tasksMap[DefaultLevel(task)], task.parent.value).None?
       || !Get(tasksMap[DefaultLevel(task)], task.parent.value).value.isDisabled)
  {
    if CollectsDirectParent(task, tasksMap) {
      ParentsIsDirectParent(task, tasksMap);
    }
  }

  /**
   * At most one task is collected, and it is the auto-managed map entry stored
   * under `task.parent` at the task's comparison level (default 1).
   */
  lemma ParentsIsDirectParent(task: Task, tasksMap: TaskMapByLevel)
    ensures |Parents(task, tasksMap)| <= 1
    ensures Parents(task, tasksMap) != [] <==> CollectsDirectParent(task, tasksMap)
    ensures forall p :: p in Parents(task, tasksMap) ==>
      && p.isDisabled
      && task.parent == Some(p.id)
      && DefaultLevel(task) in tasksMap
      && Get(tasksMap[DefaultLevel(task)], p.id) == Some(p)
  {
    if CollectsDirectParent(task, tasksMap) {
      var p := Get(tasksMap[DefaultLevel(task)], task.parent.value).value;
      assert Continues(task, task) && !Continues(task, p);
      assert Walk(task, tasksMap, p, {} + {task.id}) == [];
      assert Parents(task, tasksMap) == [p] + Walk(task, tasksMap, p, {} + {task.id});
    }
  }

  /** A task that names itself as parent never enters the loop. */
  lemma SelfParentCollectsNothing(task: Task, tasksMap: TaskMapByLevel)
    requires task.parent == Some(task.id)
    ensures Parents(task, tasksMap) == []
  {
  }

  /** No id is collected twice, so the visited-id guard never has to cut a cycle. */
  lemma ParentsNoRepeats(task: Task, tasksMap: TaskMapByLevel)
    ensures forall i, j :: 0 <= i < j < |Parents(task, tasksMap)| ==>
      Parents(task, tasksMap)[i].id != Parents(task, tasksMap)[j].id
  {
    ParentsIsDirectParent(task, tasksMap);
  }
}
