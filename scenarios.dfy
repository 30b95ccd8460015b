/**
 * Two concrete commits worked through the model, with times in milliseconds
 * since the epoch (UTC midnight of each day).
 */
module Scenarios {
  import opened Types
  import opened ParentCollector
  import opened CurrentState
  import opened Metadata

  const Day: int := 86_400_000
  const Jan1: int := 1_704_067_200_000   // 2024-01-01
  const Feb1: int := 1_706_745_600_000   // 2024-02-01

  /**
   * An auto-managed `Root` without dates over `Child1` (Jan 1 to Jan 5) and
   * `Child2` (Jan 3 to Jan 10). Committing a `change` that moves Child2's end
   * to Jan 15, with parent updates on, suggests Root once, spanning Jan 1 to
   * Jan 15; Root has no global index, so its index is -1.
   */
  lemma ParentFollowsChangedChild()
    ensures
      var root := Task("Root", Project, None, None, 0.0, None, None, [], true);
      var child1 := Task("Child1", Regular, Some(Jan1), Some(Jan1 + 4 * Day), 0.0, Some("Root"), None, [], false);
      var child2 := Task("Child2", Regular, Some(Jan1 + 2 * Day), Some(Jan1 + 9 * Day), 0.0, Some("Root"), None, [], false);
      var changed := child2.(end := Some(Jan1 + 14 * Day));
      var p := MetadataParams(
        false, true, map[1 := [root, child1, child2]], map[],
        t => [], (x, y, ds) => [], a => [], a => [], None, 1);
      ChangeTaskMetadata(p, Change(changed), []) ==
        Ok(ChangeMetadata([], [], [root], [Suggestion(Some(Jan1), Some(Jan1 + 14 * Day), root, Some(-1))]))
  {
    var root := Task("Root", Project, None, None, 0.0, None, None, [], true);
    var child1 := Task("Child1", Regular, Some(Jan1), Some(Jan1 + 4 * Day), 0.0, Some("Root"), None, [], false);
    var child2 := Task("Child2", Regular, Some(Jan1 + 2 * Day), Some(Jan1 + 9 * Day), 0.0, Some("Root"), None, [], false);
    var changed := child2.(end := Some(Jan1 + 14 * Day));
    var tasksMap := map[1 := [root, child1, child2]];
    assert Get(tasksMap[1], "Root") == Some(root);
    assert Parents(changed, tasksMap) == [root] by {
      ParentsIsDirectParent(changed, tasksMap);
    }
    var action := Change(changed);
    assert tasksMap[1][1..] == [child1, child2] && [child1, child2][1..] == [child2];
    assert DirectChildrenFor([child2], "Root", action) == [changed];
    assert DirectChildrenFor([child1, child2], "Root", action) == [child1, changed];
    var cs := DirectChildrenFor(tasksMap[1], "Root", action);
    assert cs == [child1, changed];
    assert cs[1..] == [changed] && [changed][1..] == [];
    assert FoldStart([changed], "Root", false, Some(Jan1)) == Some(Jan1);
    assert FoldStart(cs, "Root", false, child1.start) == Some(Jan1);
    assert FoldEnd([changed], "Root", false, Some(Jan1 + 4 * Day)) == Some(Jan1 + 14 * Day);
    assert FoldEnd(cs, "Root", false, child1.end) == Some(Jan1 + 14 * Day);
    var sg := Suggestion(Some(Jan1), Some(Jan1 + 14 * Day), root, Some(-1));
    assert SuggestionFromDirectChildren(root, action, tasksMap, map[]) == Ok(sg);
    assert [root][1..] == [] && [sg] + [] == [sg];
    assert ParentSuggestions([], action, tasksMap, map[]) == Ok([]);
    assert ParentSuggestions([root], action, tasksMap, map[]) == Ok([sg]);
  }

  /**
   * `TaskB` (Feb 3 to Feb 5) depends on the end of `TaskA` (Jan 29 to Feb 1).
   * While TaskA's end handle is dragged to Feb 5, TaskB is shown four days
   * later, and the commit writes both: TaskA as edited, TaskB from Feb 7 to Feb 9.
   */
  lemma DependentFollowsEndDrag()
    ensures
      var taskA := Task("TaskA", Regular, Some(Feb1 - 3 * Day), Some(Feb1), 0.0, None, None, [], false);
      var taskB := Task("TaskB", Regular, Some(Feb1 + 2 * Day), Some(Feb1 + 4 * Day), 0.0, None, None,
                        [Dependency("TaskA", EndOfTask)], false);
      var changedA := taskA.(end := Some(Feb1 + 4 * Day));
      var k := TaskCoordinates(0.0, 0.0, 0.0, 0.0, 0.0, 0.0, 0.0, 0.0, 0.0, 0.0);
      var c := ChangeInProgress(End, 0.0, 0.0, changedA, k, 0.0, k, 0.0, 0.0, taskA, Some(4 * Day));
      var f := Frame(Some(c), false, false, false, map[1 := [taskA, taskB]], (a, x, y) => x, (x, y) => false);
      var movedB := taskB.(start := Some(Feb1 + 6 * Day), end := Some(Feb1 + 8 * Day));
      var p := MetadataParams(
        false, false, map[1 := [taskA, taskB]], map[],
        t => [], (x, y, ds) => [], a => [], a => [], Some(f), 2);
      && GetTaskCurrentState(f, taskB, 2) == Ok(State(movedB, false))
      && ChangeTaskMetadata(p, ChangeStartAndEnd(changedA, changedA, taskA), [taskA, taskB]) ==
           Ok(ChangeMetadata([], [], [changedA, movedB],
              [Suggestion(changedA.start, changedA.end, changedA, Some(-1)),
               Suggestion(movedB.start, movedB.end, movedB, Some(-1))]))
  {
    var taskA := Task("TaskA", Regular, Some(Feb1 - 3 * Day), Some(Feb1), 0.0, None, None, [], false);
    var taskB := Task("TaskB", Regular, Some(Feb1 + 2 * Day), Some(Feb1 + 4 * Day), 0.0, None, None,
                      [Dependency("TaskA", EndOfTask)], false);
    var changedA := taskA.(end := Some(Feb1 + 4 * Day));
    var k := TaskCoordinates(0.0, 0.0, 0.0, 0.0, 0.0, 0.0, 0.0, 0.0, 0.0, 0.0);
    var c := ChangeInProgress(End, 0.0, 0.0, changedA, k, 0.0, k, 0.0, 0.0, taskA, Some(4 * Day));
    var f := Frame(Some(c), false, false, false, map[1 := [taskA, taskB]], (a, x, y) => x, (x, y) => false);
    var movedB := taskB.(start := Some(Feb1 + 6 * Day), end := Some(Feb1 + 8 * Day));
    assert Get(f.tasksMap[1], "TaskA") == Some(taskA);
    DependencyFollowsEditedSource(f, taskA, taskB, 2);
    assert Shift(taskB, Some(4 * Day)) == movedB;
    assert GetTaskCurrentState(f, taskA, 2) == Ok(State(changedA, false));
    var gi: GlobalIndexMap := map[];
    var sa := Suggestion(changedA.start, changedA.end, changedA, Some(-1));
    var sb := Suggestion(movedB.start, movedB.end, movedB, Some(-1));
    assert SweepIndex(gi, taskA) == Some(-1) && SweepIndex(gi, taskB) == Some(-1);
    assert FindTaskIndex([], "TaskA") == -1;
    var e: seq<Task> := [];
    var es: seq<Suggestion> := [];
    assert e + [changedA] == [changedA] && es + [sa] == [sa];
    assert SweepStep(gi, e, es, taskA, State(changedA, false)) == ([changedA], [sa]);
    assert FindTaskIndex([changedA], "TaskB") == -1;
    assert [changedA] + [movedB] == [changedA, movedB] && [sa] + [sb] == [sa, sb];
    assert SweepStep(gi, [changedA], [sa], taskB, State(movedB, false)) == ([changedA, movedB], [sa, sb]);
    assert [taskA, taskB][1..] == [taskB];
    assert Sweep(gi, f, 2, [taskB], [changedA], [sa]) == Ok(([changedA, movedB], [sa, sb]));
    assert Sweep(gi, f, 2, [taskA, taskB], e, es) == Ok(([changedA, movedB], [sa, sb]));
  }
}
