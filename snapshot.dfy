/**
 * The user snapshot the engine is given (`{ dbUser, goals, tasks }`), typed.
 * JavaScript `a || b` treats `undefined`, `""` and `0` alike as absent; the
 * predicates `Present` and `PresentNumber` state that reading once.
 */
module Snapshot {
  import opened Wrappers

  /** A goal row. `nestedTitle` is `goal.goal?.title`, absent when either level is missing. */
  datatype Goal = Goal(
    id: string,
    title: Option<string>,
    nestedTitle: Option<string>,
    status: string,
    difficultyLevel: Option<int>)

  /** A task row. `nestedTitle` is `task.task?.title`. */
  datatype Task = Task(
    id: string,
    title: Option<string>,
    nestedTitle: Option<string>,
    status: string)

  datatype DbUser = DbUser(
    firstName: Option<string>,
    telegramUsername: Option<string>,
    level: Option<int>)

  /** The lists are optional: the engine tells a missing list from an empty one. */
  datatype UserContext = UserContext(
    dbUser: Option<DbUser>,
    goals: Option<seq<Goal>>,
    tasks: Option<seq<Task>>)

  const EmptyContext := UserContext(None, None, None)

  /** `this.userContext || {}`: a missing snapshot reads as one with no fields. */
  function Current(context: Option<UserContext>): (c: UserContext)
    ensures context.None? ==> c.dbUser.None? && c.goals.None? && c.tasks.None?
    ensures context.Some? ==> c == context.value
  {
    context.GetOr(EmptyContext)
  }

  /** A string that `||` keeps: defined and non-empty. */
  predicate Present(s: Option<string>) {
    s.Some? && s.value != ""
  }

  /** A number that `||` keeps: defined and non-zero. */
  predicate PresentNumber(n: Option<int>) {
    n.Some? && n.value != 0
  }

  /** `first || second || fallback` over optional strings. */
  function FirstPresent(first: Option<string>, second: Option<string>, fallback: string): (r: string)
    ensures Present(first) ==> r == first.value
    ensures !Present(first) && Present(second) ==> r == second.value
    ensures !Present(first) && !Present(second) ==> r == fallback
    ensures fallback != "" ==> r != ""
  {
    if Present(first) then first.value
    else if Present(second) then second.value
    else fallback
  }

  /** `dbUser?.first_name || dbUser?.telegram_username || fallback`. */
  function DisplayName(user: Option<DbUser>, fallback: string): (name: string)
    ensures user.Some? && Present(user.value.firstName) ==> name == user.value.firstName.value
    ensures user.Some? && !Present(user.value.firstName) && Present(user.value.telegramUsername) ==>
              name == user.value.telegramUsername.value
    ensures user.None? || (!Present(user.value.firstName) && !Present(user.value.telegramUsername)) ==>
              name == fallback
    ensures fallback != "" ==> name != ""
  {
    match user
    case None => fallback
    case Some(u) => FirstPresent(u.firstName, u.telegramUsername, fallback)
  }

  /** `goal.title || goal.goal?.title || fallback`. */
  function GoalLabel(g: Goal, fallback: string): string {
    FirstPresent(g.title, g.nestedTitle, fallback)
  }

  /** `list || []`. */
  function ListOrEmpty<T>(list: Option<seq<T>>): seq<T> {
    list.GetOr([])
  }

  /** `list?.length || 0`. */
  function CountOrZero<T>(list: Option<seq<T>>): (n: nat)
    ensures list.None? ==> n == 0
    ensures list.Some? ==> n == |list.value|
  {
    |ListOrEmpty(list)|
  }

  // ------------------------------------------------ status filter (`.filter`)

  /** `goal.status !== 'completed'`. */
  predicate GoalOpen(g: Goal) {
    g.status != "completed"
  }

  /** `task.status !== 'completed'`. */
  predicate TaskOpen(t: Task) {
    t.status != "completed"
  }

  /** Some element of `s` passes `keep`. */
  ghost predicate AnyKept<T>(s: seq<T>, keep: T -> bool) {
    exists i :: 0 <= i < |s| && keep(s[i])
  }

  /** `s.filter(keep)`. */
  function Filter<T>(s: seq<T>, keep: T -> bool): seq<T> {
    if s == [] then []
    else Filter(s[..|s| - 1], keep) + (if keep(s[|s| - 1]) then [s[|s| - 1]] else [])
  }

  /**
   * The positions of `s` whose element passes `keep`, in increasing order:
   * every listed position passes, and every passing position is listed.
   */
  function KeptIndices<T>(s: seq<T>, keep: T -> bool): (idx: seq<nat>)
    ensures forall a, b :: 0 <= a < b < |idx| ==> idx[a] < idx[b]
    ensures forall k :: 0 <= k < |idx| ==> idx[k] < |s| && keep(s[idx[k]])
    ensures forall i :: 0 <= i < |s| && keep(s[i]) ==> i in idx
  {
    if s == [] then []
    else KeptIndices(s[..|s| - 1], keep) + (if keep(s[|s| - 1]) then [|s| - 1] else [])
  }

  /** The filtered list is exactly the elements at the kept positions, in that order. */
  lemma {:induction false} FilterByIndices<T>(s: seq<T>, keep: T -> bool)
    ensures |Filter(s, keep)| == |KeptIndices(s, keep)|
    ensures forall k :: 0 <= k < |Filter(s, keep)| ==> Filter(s, keep)[k] == s[KeptIndices(s, keep)[k]]
    decreases |s|
  {
    if s != [] {
      var init := s[..|s| - 1];
      FilterByIndices(init, keep);
      forall k | 0 <= k < |KeptIndices(init, keep)|
        ensures init[KeptIndices(init, keep)[k]] == s[KeptIndices(init, keep)[k]]
      {
      }
    }
  }

  /** The filter is empty exactly when no element passes. */
  lemma FilterEmptyIff<T>(s: seq<T>, keep: T -> bool)
    ensures |Filter(s, keep)| == 0 <==> !AnyKept(s, keep)
  {
    FilterByIndices(s, keep);
    if AnyKept(s, keep) {
      var i :| 0 <= i < |s| && keep(s[i]);
      assert i in KeptIndices(s, keep);
    }
  }
}
