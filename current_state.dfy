/**
 * The live state resolver `getTaskCurrentState`: given the in-progress edit,
 * the task to display for the current pointer frame. The rules are tried in
 * order and the first that applies decides: the edited task itself, the first
 * dependency whose source moved, a rigidly moved parent, a descendant of a
 * moved task, the auto-managed direct parent of the edited task, and finally
 * the task itself.
 *
 * The source recursion through dependencies, parents and children has no
 * guard; JavaScript ends a too-deep recursion with a RangeError. The model
 * gives every call a stack budget `depth` and fails with `CallStackExceeded`
 * when it is used up.
 */
module CurrentState {
  import opened Types
  import opened ParentCollector

  /** What the resolver closes over; the two collaborators are parameters. */
  datatype Frame = Frame(
    changeInProgress: Option<ChangeInProgress>,
    isAdjustToWorkingDates: bool,
    isMoveChildsWithParent: bool,
    isUpdateDisabledParentsOnChange: bool,
    tasksMap: TaskMapByLevel,
    // adjustTaskToWorkingDates(action, changedTask, originalTask), roundDate bound in
    adjustTaskToWorkingDates: (BarMoveAction, Task, Task) -> Task,
    // checkIsDescendant(ancestor, candidate), tasksMap bound in
    checkIsDescendant: (Task, Task) -> bool)

  /**
   * The displayed task, and whether its `start` and `end` are the very Date
   * objects of the task asked about (the sweep of the commit computer compares
   * Date references, so this is what it sees as "unchanged").
   */
  datatype State = State(task: Task, keepsDates: bool)

  /** `{...t, start: addMilliseconds(t.start, d), end: addMilliseconds(t.end, d)}`. */
  function Shift(t: Task, d: Ms): (r: Task)
    ensures Dated(t) && d.Some? ==> Dated(r) && Sub(r.end, r.start) == Sub(t.end, t.start)
    ensures Sub(r.start, t.start) == (if t.start.Some? then d else None)
    ensures r.(start := t.start, end := t.end) == t
  {
    t.(start := AddMs(t.start, d), end := AddMs(t.end, d))
  }

  /** The tail of every moving branch: optionally pass through the working-date adjustment. */
  function Finish(f: Frame, action: BarMoveAction, moved: Task, original: Task): (s: State)
    ensures !s.keepsDates
    ensures s.task == (if f.isAdjustToWorkingDates then f.adjustTaskToWorkingDates(action, moved, original) else moved)
  {
    if f.isAdjustToWorkingDates
    then State(f.adjustTaskToWorkingDates(action, moved, original), false)
    else State(moved, false)
  }

  /** The code after the in-progress block: the progress-only copy, else the task itself. */
  function Fallthrough(f: Frame, t: Task): State {
    if && f.changeInProgress.Some?
       && f.changeInProgress.value.originalTask == t
       && f.changeInProgress.value.changedTask.progress != t.progress
    then State(t.(progress := f.changeInProgress.value.changedTask.progress), true)
    else State(t, true)
  }

  /** The only ways the resolver fails: a used-up stack, or a level missing from the map. */
  predicate ResolverError(e: Error) { e.CallStackExceeded? || e.MissingLevelMap? }

  /**
   * The resolver. A used-up stack fails; any other failure is a missing level
   * map. A result that keeps the input's Date objects has the input's dates,
   * and while a change is in progress it is the input itself: the
   * progress-only copy is never returned then, since the edited task returns
   * earlier.
   */
  function GetTaskCurrentState(f: Frame, t: Task, depth: nat): (r: Result<State>)
    ensures depth == 0 ==> r == Err(CallStackExceeded)
    ensures r.Err? ==> ResolverError(r.error)
    ensures r.Ok? && r.value.keepsDates ==>
      && r.value.task.start == t.start && r.value.task.end == t.end
      && (f.changeInProgress.Some? ==> r.value.task == t)
    decreases depth, 2, 0
  {
    if depth == 0 then Err(CallStackExceeded)
    else match f.changeInProgress
      case None => Ok(Fallthrough(f, t))
      case Some(c) =>
        if c.originalTask == t then Ok(Finish(f, c.action, c.changedTask, t))
        else
          var byDependency :- DependencyRule(f, c, t, depth);
          if byDependency.Some? then Ok(byDependency.value)
          else
            var byParent :- ParentRule(f, c, t, depth);
            if byParent.Some? then Ok(byParent.value)
            else if DescendantRuleApplies(f, c, t) then Ok(Finish(f, c.action, Shift(t, c.tsDiff), t))
            else if ChildrenRuleApplies(f, c, t) then ChildrenRule(f, c, t, depth)
            else Ok(Fallthrough(f, t))
  }

  // ---------------------------------------------------------------------------
  // Rule 2: dependencies

  /** The start delta and end delta of a resolved task against its stored dates. */
  function StartDelta(resolved: Task, stored: Task): Ms { Sub(resolved.start, stored.start) }
  function EndDelta(resolved: Task, stored: Task): Ms { Sub(resolved.end, stored.end) }

  /**
   * What one dependency says: `Ok(Some(delta))` when its source is in the level
   * map, dated, and resolves to moved dates; `Ok(None)` when it says nothing.
   */
  function DependencyOutcome(f: Frame, lm: LevelMap, dep: Dependency, depth: nat): (r: Result<Option<Ms>>)
    requires depth > 0
    ensures r.Err? ==> ResolverError(r.error)
    decreases depth, 0, 0
  {
    match Get(lm, dep.sourceId)
    case None => Ok(None)
    case Some(src) =>
      if !Dated(src) then Ok(None)
      else
        var cs :- GetTaskCurrentState(f, src, depth - 1);
        var startTsDiff := StartDelta(cs.task, src);
        var endTsDiff := EndDelta(cs.task, src);
        if Truthy(startTsDiff) || Truthy(endTsDiff)
        then Ok(Some(if dep.sourceTarget == EndOfTask then endTsDiff else startTsDiff))
        else Ok(None)
  }

  function DependencyScan(f: Frame, c: ChangeInProgress, t: Task, lm: LevelMap, deps: seq<Dependency>, depth: nat)
    : (r: Result<Option<State>>)
    requires depth > 0
    ensures r.Err? ==> ResolverError(r.error)
    ensures r.Ok? && r.value.Some? ==> !r.value.value.keepsDates
    decreases depth, 0, |deps|
  {
    if deps == [] then Ok(None)
    else
      var outcome :- DependencyOutcome(f, lm, deps[0], depth);
      if outcome.Some? then Ok(Some(Finish(f, c.action, Shift(t, outcome.value), t)))
      else DependencyScan(f, c, t, lm, deps[1..], depth)
  }

  function DependencyRule(f: Frame, c: ChangeInProgress, t: Task, depth: nat): (r: Result<Option<State>>)
    requires depth > 0
    ensures r.Err? ==> ResolverError(r.error)
    ensures r.Ok? && r.value.Some? ==> !r.value.value.keepsDates
    decreases depth, 1, 0
  {
    if |t.dependencies| == 0 then Ok(None)
    else if LevelOr1(t) !in f.tasksMap then Err(MissingLevelMap(LevelOr1(t)))
    else DependencyScan(f, c, t, f.tasksMap[LevelOr1(t)], t.dependencies, depth)
  }

  // ---------------------------------------------------------------------------
  // Rule 3: a parent moved as a rigid group

  /** Collected parents that are dated and not parents of the edited task. */
  function ParentCandidates(ps: seq<Task>, excluded: seq<string>): (r: seq<Task>)
    ensures forall p :: p in r <==> p in ps && Dated(p) && p.id !in excluded
  {
    if ps == [] then []
    else if Dated(ps[0]) && ps[0].id !in excluded then [ps[0]] + ParentCandidates(ps[1..], excluded)
    else ParentCandidates(ps[1..], excluded)
  }

  /** What one parent says: `Ok(Some(delta))` when it resolves to a nonzero rigid move. */
  function ParentOutcome(f: Frame, p: Task, depth: nat): (r: Result<Option<Ms>>)
    requires depth > 0
    ensures r.Err? ==> ResolverError(r.error)
    decreases depth, 0, 0
  {
    var cs :- GetTaskCurrentState(f, p, depth - 1);
    var startTsDiff := StartDelta(cs.task, p);
    var endTsDiff := EndDelta(cs.task, p);
    if Truthy(startTsDiff) && startTsDiff == endTsDiff then Ok(Some(startTsDiff)) else Ok(None)
  }

  function ParentScan(f: Frame, c: ChangeInProgress, t: Task, ps: seq<Task>, depth: nat): (r: Result<Option<State>>)
    requires depth > 0
    ensures r.Err? ==> ResolverError(r.error)
    ensures r.Ok? && r.value.Some? ==> !r.value.value.keepsDates
    decreases depth, 0, |ps|
  {
    if ps == [] then Ok(None)
    else
      var outcome :- ParentOutcome(f, ps[0], depth);
      if outcome.Some? then Ok(Some(Finish(f, c.action, Shift(t, outcome.value), t)))
      else ParentScan(f, c, t, ps[1..], depth)
  }

  function ParentRule(f: Frame, c: ChangeInProgress, t: Task, depth: nat): (r: Result<Option<State>>)
    requires depth > 0
    ensures r.Err? ==> ResolverError(r.error)
    ensures r.Ok? && r.value.Some? ==> !r.value.value.keepsDates
    decreases depth, 1, 0
  {
    if f.isMoveChildsWithParent && Dated(t) then
      var excludeParentsIds := Ids(Parents(c.originalTask, f.tasksMap));
      ParentScan(f, c, t, ParentCandidates(Parents(t, f.tasksMap), excludeParentsIds), depth)
    else Ok(None)
  }

  // ---------------------------------------------------------------------------
  // Rule 4: a descendant of the moved task

  predicate DescendantRuleApplies(f: Frame, c: ChangeInProgress, t: Task) {
    && f.isMoveChildsWithParent
    && c.action == Move
    && f.checkIsDescendant(c.originalTask, t)
    && Dated(t)
  }

  // ---------------------------------------------------------------------------
  // Rule 5: the auto-managed direct parent of the edited task

  predicate ChildrenRuleApplies(f: Frame, c: ChangeInProgress, t: Task) {
    && f.isUpdateDisabledParentsOnChange
    && t.isDisabled
    && c.originalTask.parent == Some(t.id)
    && f.checkIsDescendant(t, c.originalTask)
  }

  /** The non-empty, dated tasks of a level whose `parent` is `id`, in map order. */
  function DirectChildren(lm: LevelMap, id: string): (r: seq<Task>)
    ensures forall x :: x in r <==> x in lm && x.parent == Some(id) && x.kind != Empty && Dated(x)
  {
    if lm == [] then []
    else if lm[0].parent == Some(id) && lm[0].kind != Empty && Dated(lm[0])
    then [lm[0]] + DirectChildren(lm[1..], id)
    else DirectChildren(lm[1..], id)
  }

  function ResolveAll(f: Frame, ts: seq<Task>, depth: nat): (r: Result<seq<State>>)
    requires depth > 0
    ensures r.Ok? ==> |r.value| == |ts|
    ensures r.Err? ==> ResolverError(r.error)
    decreases depth, 0, |ts|
  {
    if ts == [] then Ok([])
    else
      var s :- GetTaskCurrentState(f, ts[0], depth - 1);
      var rest :- ResolveAll(f, ts[1..], depth);
      Ok([s] + rest)
  }

  function Starts(ss: seq<State>): (r: seq<Ms>)
    ensures |r| == |ss| && forall i :: 0 <= i < |ss| ==> r[i] == ss[i].task.start
  {
    if ss == [] then [] else [ss[0].task.start] + Starts(ss[1..])
  }

  function Ends(ss: seq<State>): (r: seq<Ms>)
    ensures |r| == |ss| && forall i :: 0 <= i < |ss| ==> r[i] == ss[i].task.end
  {
    if ss == [] then [] else [ss[0].task.end] + Ends(ss[1..])
  }

  /** date-fns `min`: an empty list or any invalid date gives an Invalid Date. */
  function MinDate(ds: seq<Ms>): Ms {
    if ds == [] then None
    else if |ds| == 1 then ds[0]
    else
      var rest := MinDate(ds[1..]);
      if ds[0].None? || rest.None? then None
      else if ds[0].value <= rest.value then ds[0] else rest
  }

  /** date-fns `max`, symmetric to `MinDate`. */
  function MaxDate(ds: seq<Ms>): Ms {
    if ds == [] then None
    else if |ds| == 1 then ds[0]
    else
      var rest := MaxDate(ds[1..]);
      if ds[0].None? || rest.None? then None
      else if ds[0].value >= rest.value then ds[0] else rest
  }

  function ChildrenRule(f: Frame, c: ChangeInProgress, t: Task, depth: nat): (r: Result<State>)
    requires depth > 0
    ensures r.Err? ==> ResolverError(r.error)
    ensures r.Ok? ==> !r.value.keepsDates
    decreases depth, 1, 0
  {
    if LevelOr1(t) !in f.tasksMap then Err(MissingLevelMap(LevelOr1(t)))
    else
      var children := DirectChildren(f.tasksMap[LevelOr1(t)], t.id);
      var states :- ResolveAll(f, children, depth);
      Ok(State(t.(start := MinDate(Starts(states)), end := MaxDate(Ends(states))), false))
  }

  // ---------------------------------------------------------------------------
  // Properties

  /** With no change in progress every task is displayed as stored. */
  lemma NoChangeIsIdentity(f: Frame, t: Task, depth: nat)
    requires depth > 0 && f.changeInProgress.None?
    ensures GetTaskCurrentState(f, t, depth) == Ok(State(t, true))
  {
  }

  /**
   * The edited task is displayed as `changedTask`, passed through the
   * working-date adjustment when that policy is on.
   */
  lemma EditedTaskResolvesToChangedTask(f: Frame, t: Task, depth: nat)
    requires depth > 0 && f.changeInProgress.Some? && f.changeInProgress.value.originalTask == t
    ensures var c := f.changeInProgress.value;
      GetTaskCurrentState(f, t, depth) ==
        Ok(State(if f.isAdjustToWorkingDates then f.adjustTaskToWorkingDates(c.action, c.changedTask, t)
                 else c.changedTask, false))
  {
  }

  /** Dependency `dep` moves the task, and `s` is the state it yields. */
  predicate Decides(f: Frame, c: ChangeInProgress, t: Task, lm: LevelMap, dep: Dependency, depth: nat, s: State)
    requires depth > 0
  {
    var o := DependencyOutcome(f, lm, dep, depth);
    o.Ok? && o.value.Some? && s == Finish(f, c.action, Shift(t, o.value.value), t)
  }

  /** `deps[k]` decides and every earlier dependency says nothing. */
  predicate SaysFirst(f: Frame, c: ChangeInProgress, t: Task, lm: LevelMap, deps: seq<Dependency>, depth: nat,
                      k: int, s: State)
    requires depth > 0
  {
    && 0 <= k < |deps|
    && (forall j :: 0 <= j < k ==> DependencyOutcome(f, lm, deps[j], depth) == Ok(None))
    && Decides(f, c, t, lm, deps[k], depth, s)
  }

  /** Past a silent first dependency, being first is being first in the rest. */
  lemma SaysFirstShift(f: Frame, c: ChangeInProgress, t: Task, lm: LevelMap, deps: seq<Dependency>, depth: nat,
                       k: int, s: State)
    requires depth > 0 && deps != [] && DependencyOutcome(f, lm, deps[0], depth) == Ok(None)
    ensures SaysFirst(f, c, t, lm, deps, depth, k + 1, s) <==> SaysFirst(f, c, t, lm, deps[1..], depth, k, s)
  {
    if 0 <= k < |deps| - 1 {
      assert forall j :: 0 <= j < k ==> deps[1..][j] == deps[j + 1];
      assert deps[1..][k] == deps[k + 1];
      if SaysFirst(f, c, t, lm, deps[1..], depth, k, s) {
        forall j | 0 <= j < k + 1
          ensures DependencyOutcome(f, lm, deps[j], depth) == Ok(None)
        {
          if j > 0 {
            assert deps[j] == deps[1..][j - 1];
          }
        }
      }
    }
  }

  /** The first dependency (in declaration order) that says anything decides rule 2. */
  lemma {:induction false} DependencyScanFirstMatch(
    f: Frame, c: ChangeInProgress, t: Task, lm: LevelMap, deps: seq<Dependency>, depth: nat, s: State)
    requires depth > 0
    ensures DependencyScan(f, c, t, lm, deps, depth) == Ok(Some(s)) <==>
      exists k :: SaysFirst(f, c, t, lm, deps, depth, k, s)
    decreases |deps|
  {
    if deps != [] {
      var o := DependencyOutcome(f, lm, deps[0], depth);
      if o == Ok(None) {
        DependencyScanFirstMatch(f, c, t, lm, deps[1..], depth, s);
        if DependencyScan(f, c, t, lm, deps, depth) == Ok(Some(s)) {
          var k :| SaysFirst(f, c, t, lm, deps[1..], depth, k, s);
          SaysFirstShift(f, c, t, lm, deps, depth, k, s);
        }
        if exists k :: SaysFirst(f, c, t, lm, deps, depth, k, s) {
          var k :| SaysFirst(f, c, t, lm, deps, depth, k, s);
          assert k > 0;
          SaysFirstShift(f, c, t, lm, deps, depth, k - 1, s);
        }
      } else {
        if DependencyScan(f, c, t, lm, deps, depth) == Ok(Some(s)) {
          assert SaysFirst(f, c, t, lm, deps, depth, 0, s);
        }
        if exists k :: SaysFirst(f, c, t, lm, deps, depth, k, s) {
          var k :| SaysFirst(f, c, t, lm, deps, depth, k, s);
          assert k == 0;
        }
      }
    }
  }

  /** When no dependency says anything, rule 2 does not apply. */
  lemma {:induction false} DependencyScanSilent(
    f: Frame, c: ChangeInProgress, t: Task, lm: LevelMap, deps: seq<Dependency>, depth: nat)
    requires depth > 0
    requires forall j :: 0 <= j < |deps| ==> DependencyOutcome(f, lm, deps[j], depth) == Ok(None)
    ensures DependencyScan(f, c, t, lm, deps, depth) == Ok(None)
    decreases |deps|
  {
    if deps != [] {
      assert DependencyOutcome(f, lm, deps[0], depth) == Ok(None);
      DependencyScanSilent(f, c, t, lm, deps[1..], depth);
    }
  }

  /**
   * A task whose first dependency names the edited task follows that task's
   * edit: it is shifted by the edited task's end delta (dependency on its end)
   * or start delta (dependency on its start), provided the edit moved a date.
   */
  lemma DependencyFollowsEditedSource(f: Frame, a: Task, b: Task, depth: nat)
    requires depth >= 2 && f.changeInProgress.Some? && !f.isAdjustToWorkingDates
    requires var c := f.changeInProgress.value; c.originalTask == a && b != a
    requires LevelOr1(b) in f.tasksMap && Get(f.tasksMap[LevelOr1(b)], a.id) == Some(a) && Dated(a)
    requires |b.dependencies| > 0 && b.dependencies[0].sourceId == a.id
    requires var c := f.changeInProgress.value;
      Truthy(Sub(c.changedTask.start, a.start)) || Truthy(Sub(c.changedTask.end, a.end))
    ensures var c := f.changeInProgress.value;
      var delta := if b.dependencies[0].sourceTarget == EndOfTask then Sub(c.changedTask.end, a.end)
                   else Sub(c.changedTask.start, a.start);
      GetTaskCurrentState(f, b, depth) == Ok(State(Shift(b, delta), false))
  {
    var c := f.changeInProgress.value;
    var lm := f.tasksMap[LevelOr1(b)];
    EditedTaskResolvesToChangedTask(f, a, depth - 1);
    var delta := if b.dependencies[0].sourceTarget == EndOfTask then Sub(c.changedTask.end, a.end)
                 else Sub(c.changedTask.start, a.start);
    assert DependencyOutcome(f, lm, b.dependencies[0], depth) == Ok(Some(delta));
    assert DependencyScan(f, c, b, lm, b.dependencies, depth) == Ok(Some(Finish(f, c.action, Shift(b, delta), b)));
  }

  /** A task that is not the edited one takes rule 2's verdict when it has one. */
  lemma DependencyRuleDecides(f: Frame, t: Task, depth: nat, s: State)
    requires depth > 0 && f.changeInProgress.Some? && f.changeInProgress.value.originalTask != t
    requires DependencyRule(f, f.changeInProgress.value, t, depth) == Ok(Some(s))
    ensures GetTaskCurrentState(f, t, depth) == Ok(s)
  {
  }

  /**
   * Rule 3 fires only for a dated task when "move children with parent" is on,
   * through a dated collected parent that is not a parent of the edited task and
   * resolves to equal, nonzero start and end deltas; the task moves by that delta.
   */
  lemma {:induction false} ParentScanFirstMatch(
    f: Frame, c: ChangeInProgress, t: Task, ps: seq<Task>, depth: nat, s: State)
    requires depth > 0
    requires ParentScan(f, c, t, ps, depth) == Ok(Some(s))
    ensures exists k, d :: (0 <= k < |ps|
      && (forall j :: 0 <= j < k ==> ParentOutcome(f, ps[j], depth) == Ok(None))
      && ParentOutcome(f, ps[k], depth) == Ok(Some(d))
      && s == Finish(f, c.action, Shift(t, d), t))
    decreases |ps|
  {
    var o := ParentOutcome(f, ps[0], depth);
    if o == Ok(None) {
      ParentScanFirstMatch(f, c, t, ps[1..], depth, s);
      var k', d :| 0 <= k' < |ps[1..]|
        && (forall j :: 0 <= j < k' ==> ParentOutcome(f, ps[1..][j], depth) == Ok(None))
        && ParentOutcome(f, ps[1..][k'], depth) == Ok(Some(d))
        && s == Finish(f, c.action, Shift(t, d), t);
      assert forall j :: 0 < j < k' + 1 ==> ps[j] == ps[1..][j - 1];
      assert ps[k' + 1] == ps[1..][k'];
    } else {
      assert ParentOutcome(f, ps[0], depth) == Ok(Some(o.value.value));
    }
  }

  lemma ParentRuleFires(f: Frame, c: ChangeInProgress, t: Task, depth: nat, s: State)
    requires depth > 0
    requires ParentRule(f, c, t, depth) == Ok(Some(s))
    ensures f.isMoveChildsWithParent && Dated(t)
    ensures exists p, d :: (p in Parents(t, f.tasksMap) && Dated(p)
      && p.id !in Ids(Parents(c.originalTask, f.tasksMap))
      && ParentOutcome(f, p, depth) == Ok(Some(d))
      && Truthy(d)
      && s == Finish(f, c.action, Shift(t, d), t))
  {
    var excluded := Ids(Parents(c.originalTask, f.tasksMap));
    var ps := ParentCandidates(Parents(t, f.tasksMap), excluded);
    ParentScanFirstMatch(f, c, t, ps, depth, s);
    var k, d :| 0 <= k < |ps| && ParentOutcome(f, ps[k], depth) == Ok(Some(d))
      && s == Finish(f, c.action, Shift(t, d), t);
    var p := ps[k];
    assert p in ps;
    ParentOutcomeIsRigidMove(f, p, depth, d);
    assert p in Parents(t, f.tasksMap) && Dated(p) && p.id !in excluded;
  }

  /** A parent's verdict is a rigid move: its start and end deltas agree and are nonzero. */
  /**
   * A dependency has a verdict only when its source is in the level map, is
   * dated and resolves to moved dates; the shift is the source's end delta for
   * an end dependency and its start delta otherwise.
   */
  lemma DependencyOutcomeIsMove(f: Frame, lm: LevelMap, dep: Dependency, depth: nat, d: Ms)
    requires depth > 0 && DependencyOutcome(f, lm, dep, depth) == Ok(Some(d))
    ensures exists src, cs :: (Get(lm, dep.sourceId) == Some(src) && Dated(src)
      && GetTaskCurrentState(f, src, depth - 1) == Ok(cs)
      && (Truthy(StartDelta(cs.task, src)) || Truthy(EndDelta(cs.task, src)))
      && d == (if dep.sourceTarget == EndOfTask then EndDelta(cs.task, src) else StartDelta(cs.task, src)))
  {
    var src := Get(lm, dep.sourceId).value;
    var cs := GetTaskCurrentState(f, src, depth - 1).value;
    assert Get(lm, dep.sourceId) == Some(src) && GetTaskCurrentState(f, src, depth - 1) == Ok(cs);
  }

  lemma ParentOutcomeIsRigidMove(f: Frame, p: Task, depth: nat, d: Ms)
    requires depth > 0 && ParentOutcome(f, p, depth) == Ok(Some(d))
    ensures exists cs :: (GetTaskCurrentState(f, p, depth - 1) == Ok(cs)
      && StartDelta(cs.task, p) == d && EndDelta(cs.task, p) == d && Truthy(d))
  {
    var cs := GetTaskCurrentState(f, p, depth - 1).value;
    assert GetTaskCurrentState(f, p, depth - 1) == Ok(cs);
  }

  /**
   * Rule 4: with "move children with parent" on and a `move` in progress, a dated
   * descendant of the edited task that rules 2 and 3 leave alone moves by `tsDiff`.
   */
  lemma DescendantMovesByTsDiff(f: Frame, t: Task, depth: nat)
    requires depth > 0 && f.changeInProgress.Some?
    requires var c := f.changeInProgress.value;
      && c.originalTask != t
      && DependencyRule(f, c, t, depth) == Ok(None)
      && ParentRule(f, c, t, depth) == Ok(None)
      && f.isMoveChildsWithParent && c.action == Move && f.checkIsDescendant(c.originalTask, t) && Dated(t)
    ensures var c := f.changeInProgress.value;
      GetTaskCurrentState(f, t, depth) == Ok(Finish(f, c.action, Shift(t, c.tsDiff), t))
  {
  }

  lemma {:induction false} ResolveAllAt(f: Frame, ts: seq<Task>, depth: nat, states: seq<State>, i: int)
    requires depth > 0 && ResolveAll(f, ts, depth) == Ok(states) && 0 <= i < |ts|
    ensures GetTaskCurrentState(f, ts[i], depth - 1) == Ok(states[i])
    decreases |ts|
  {
    if i > 0 {
      ResolveAllAt(f, ts[1..], depth, states[1..], i - 1);
    }
  }

  /** `MinDate` of valid dates is one of them and no larger than any of them. */
  lemma {:induction false} MinDateIsMinimum(ds: seq<Ms>)
    ensures MinDate(ds).Some? <==> ds != [] && forall i :: 0 <= i < |ds| ==> ds[i].Some?
    ensures MinDate(ds).Some? ==>
      (forall i :: 0 <= i < |ds| ==> MinDate(ds).value <= ds[i].value) && MinDate(ds) in ds
  {
    if |ds| > 1 {
      MinDateIsMinimum(ds[1..]);
      assert forall i :: 1 <= i < |ds| ==> ds[i] == ds[1..][i - 1];
    }
  }

  /** `MaxDate` of valid dates is one of them and no smaller than any of them. */
  lemma {:induction false} MaxDateIsMaximum(ds: seq<Ms>)
    ensures MaxDate(ds).Some? <==> ds != [] && forall i :: 0 <= i < |ds| ==> ds[i].Some?
    ensures MaxDate(ds).Some? ==>
      (forall i :: 0 <= i < |ds| ==> MaxDate(ds).value >= ds[i].value) && MaxDate(ds) in ds
  {
    if |ds| > 1 {
      MaxDateIsMaximum(ds[1..]);
      assert forall i :: 1 <= i < |ds| ==> ds[i] == ds[1..][i - 1];
    }
  }

  /**
   * Rule 5: the auto-managed direct parent of the edited task is displayed with
   * `start`/`end` the minimum/maximum of the resolved dates of its non-empty,
   * dated children; every other field is its own.
   */
  lemma ChildrenRuleIsMinMax(f: Frame, c: ChangeInProgress, t: Task, depth: nat, s: State)
    requires depth > 0 && ChildrenRule(f, c, t, depth) == Ok(s)
    ensures LevelOr1(t) in f.tasksMap
    ensures var children := DirectChildren(f.tasksMap[LevelOr1(t)], t.id);
      exists states: seq<State> :: ResolveAll(f, children, depth) == Ok(states)
        && s.task == t.(start := MinDate(Starts(states)), end := MaxDate(Ends(states)))
        && (s.task.start.Some? ==> forall i :: 0 <= i < |children| ==>
              GetTaskCurrentState(f, children[i], depth - 1) == Ok(states[i])
              && states[i].task.start.Some? && s.task.start.value <= states[i].task.start.value)
        && (s.task.end.Some? ==> forall i :: 0 <= i < |children| ==>
              states[i].task.end.Some? && s.task.end.value >= states[i].task.end.value)
  {
    var children := DirectChildren(f.tasksMap[LevelOr1(t)], t.id);
    var states := ResolveAll(f, children, depth).value;
    assert s.task == t.(start := MinDate(Starts(states)), end := MaxDate(Ends(states)));
    ResolvedChildrenBounds(f, children, depth, states);
  }

  lemma ResolvedChildrenBounds(f: Frame, children: seq<Task>, depth: nat, states: seq<State>)
    requires depth > 0 && ResolveAll(f, children, depth) == Ok(states)
    ensures |states| == |children|
    ensures forall i :: 0 <= i < |children| ==> GetTaskCurrentState(f, children[i], depth - 1) == Ok(states[i])
    ensures MinDate(Starts(states)).Some? ==> forall i :: 0 <= i < |children| ==>
      states[i].task.start.Some? && MinDate(Starts(states)).value <= states[i].task.start.value
    ensures MaxDate(Ends(states)).Some? ==> forall i :: 0 <= i < |children| ==>
      states[i].task.end.Some? && MaxDate(Ends(states)).value >= states[i].task.end.value
  {
    forall i | 0 <= i < |children|
      ensures GetTaskCurrentState(f, children[i], depth - 1) == Ok(states[i])
    {
      ResolveAllAt(f, children, depth, states, i);
    }
    MinDateIsMinimum(Starts(states));
    MaxDateIsMaximum(Ends(states));
  }

  /** Every branch other than the edited task's one rebuilds only the dates (copy-on-write). */
  lemma CopyOnWrite(f: Frame, t: Task, depth: nat, s: State)
    requires depth > 0 && GetTaskCurrentState(f, t, depth) == Ok(s)
    requires !f.isAdjustToWorkingDates
    requires f.changeInProgress.None? || f.changeInProgress.value.originalTask != t
    ensures s.task.(start := t.start, end := t.end) == t
  {
    if f.changeInProgress.Some? {
      var c := f.changeInProgress.value;
      var byDependency := DependencyRule(f, c, t, depth);
      if byDependency.Ok? && byDependency.value.Some? {
        var lm := f.tasksMap[LevelOr1(t)];
        DependencyScanFirstMatch(f, c, t, lm, t.dependencies, depth, byDependency.value.value);
      } else if byDependency.Ok? {
        var byParent := ParentRule(f, c, t, depth);
        if byParent.Ok? && byParent.value.Some? {
          ParentRuleFires(f, c, t, depth, byParent.value.value);
        }
      }
    }
  }
}
