/**
 * The task page: tasks grouped into the daily, main and partner tabs, the
 * count of completed tasks per tab, the progress bar's width, and the claim
 * button, which only shows a notification.
 *
 * The task list comes from a backend query; until it has loaded it is
 * absent and read as empty.
 */
module Tasks {
  import opened Wrappers
  import Language

  datatype Task = Task(
    id: string,
    title: string,
    description: string,
    reward: Option<string>,
    completed: Option<bool>,
    category: string)

  /** The three tabs. */
  datatype Category = Daily | Main | Partner

  function CategoryName(c: Category): string {
    match c
    case Daily => "daily"
    case Main => "main"
    case Partner => "partner"
  }

  /** The loaded task list; an absent list reads as empty. */
  function Loaded(tasks: Option<seq<Task>>): (ts: seq<Task>)
    ensures tasks.None? ==> ts == []
    ensures tasks.Some? ==> ts == tasks.value
  {
    tasks.GetOr([])
  }

  /** The tasks of `ts` whose category is `name`, in their original order. */
  function WithCategory(ts: seq<Task>, name: string): (r: seq<Task>)
    ensures forall t :: t in r <==> t in ts && t.category == name
    ensures |r| <= |ts|
  {
    if ts == [] then []
    else if ts[0].category == name then [ts[0]] + WithCategory(ts[1..], name)
    else WithCategory(ts[1..], name)
  }

  /** Filtering distributes over concatenation, so it keeps the original order. */
  lemma {:induction false} WithCategoryAppend(a: seq<Task>, b: seq<Task>, name: string)
    ensures WithCategory(a + b, name) == WithCategory(a, name) + WithCategory(b, name)
  {
    if a == [] {
      assert a + b == b;
    } else {
      assert (a + b)[1..] == a[1..] + b;
      WithCategoryAppend(a[1..], b, name);
    }
  }

  /** `getTasksByCategory`: exactly the loaded tasks of category `c`. */
  function TasksByCategory(tasks: Option<seq<Task>>, c: Category): (r: seq<Task>)
    ensures forall t :: t in r <==> t in Loaded(tasks) && t.category == CategoryName(c)
    ensures tasks.None? ==> r == []
  {
    WithCategory(Loaded(tasks), CategoryName(c))
  }

  /** A task whose category is none of the three tabs is listed in no tab. */
  lemma UncategorisedTaskHidden(tasks: Option<seq<Task>>, t: Task, c: Category)
    requires t.category !in {"daily", "main", "partner"}
    ensures t !in TasksByCategory(tasks, c)
  {
  }

  /** The truthiness of a task's `completed` flag: an absent (`null`) flag is not completed. */
  function IsCompleted(t: Task): (done: bool)
    ensures t.completed.None? ==> !done
    ensures t.completed.Some? ==> (done <==> t.completed.value)
  {
    t.completed == Some(true)
  }

  /** The number of completed tasks in `ts`. */
  function CompletedIn(ts: seq<Task>): (n: nat)
    ensures n <= |ts|
    ensures n == |ts| <==> forall t :: t in ts ==> IsCompleted(t)
    ensures n == 0 <==> forall t :: t in ts ==> !IsCompleted(t)
  {
    if ts == [] then 0
    else (if IsCompleted(ts[0]) then 1 else 0) + CompletedIn(ts[1..])
  }

  /** Counting distributes over concatenation, so each completed task adds exactly one. */
  lemma {:induction false} CompletedInAppend(a: seq<Task>, b: seq<Task>)
    ensures CompletedIn(a + b) == CompletedIn(a) + CompletedIn(b)
  {
    if a == [] {
      assert a + b == b;
    } else {
      assert (a + b)[1..] == a[1..] + b;
      CompletedInAppend(a[1..], b);
    }
  }

  /** `getCompletedCount`: how many tasks of category `c` are completed. */
  function CompletedCount(tasks: Option<seq<Task>>, c: Category): (n: nat)
    ensures n <= |TasksByCategory(tasks, c)|
  {
    CompletedIn(TasksByCategory(tasks, c))
  }

  /**
   * The width, in percent, of a tab's progress bar: 0 for an empty tab,
   * otherwise the completed share times 100.
   */
  function ProgressPercent(tasks: Option<seq<Task>>, c: Category): (w: real)
    ensures 0.0 <= w <= 100.0
    ensures |TasksByCategory(tasks, c)| == 0 ==> w == 0.0
    ensures w == 0.0 <==> forall t :: t in TasksByCategory(tasks, c) ==> !IsCompleted(t)
    ensures w == 100.0 <==> |TasksByCategory(tasks, c)| > 0 && forall t :: t in TasksByCategory(tasks, c) ==> IsCompleted(t)
    ensures |TasksByCategory(tasks, c)| > 0 ==> w == Percent(CompletedCount(tasks, c), |TasksByCategory(tasks, c)|)
  {
    var total := |TasksByCategory(tasks, c)|;
    if total > 0 then Percent(CompletedCount(tasks, c), total) else 0.0
  }

  /** The bar of a non-empty tab is its completed count over its size, times 100. */
  lemma ProgressPercentValue(tasks: Option<seq<Task>>, c: Category)
    requires |TasksByCategory(tasks, c)| > 0
    ensures ProgressPercent(tasks, c)
      == 100.0 * (CompletedCount(tasks, c) as real / |TasksByCategory(tasks, c)| as real)
  {
  }

  lemma SignOfProduct(x: real, w: real)
    requires 0.0 < w && x * w >= 0.0
    ensures x >= 0.0
  {
  }

  /** A share of a positive whole lies in [0, 1] and reaches its ends only at the ends. */
  lemma ShareBounds(part: real, whole: real)
    requires 0.0 < whole && 0.0 <= part <= whole
    ensures 0.0 <= part / whole <= 1.0
    ensures part / whole == 0.0 <==> part == 0.0
    ensures part / whole == 1.0 <==> part == whole
  {
    var q := part / whole;
    assert q * whole == part;
    assert (1.0 - q) * whole == whole - part;
    assert 1.0 - q >= 0.0 by {
      SignOfProduct(1.0 - q, whole);
    }
  }

  /** `done` out of `total`, in percent. */
  function Percent(done: nat, total: nat): (w: real)
    requires 0 < total && done <= total
    ensures 0.0 <= w <= 100.0
    ensures w == 0.0 <==> done == 0
    ensures w == 100.0 <==> done == total
    ensures w * total as real == 100.0 * done as real
  {
    var q := done as real / total as real;
    ShareBounds(done as real, total as real);
    q * 100.0
  }

  /** `i` is the position of the first task of `ts` with id `id`. */
  predicate FirstWithId(ts: seq<Task>, id: string, i: int) {
    0 <= i < |ts| && ts[i].id == id && forall j :: 0 <= j < i ==> ts[j].id != id
  }

  /** The first task of `ts` with id `id` (JavaScript's `find`). */
  function FindTask(ts: seq<Task>, id: string): (r: Option<Task>)
    ensures r.None? <==> forall t :: t in ts ==> t.id != id
    ensures r.Some? ==> r.value.id == id && exists i :: FirstWithId(ts, id, i) && ts[i] == r.value
  {
    if ts == [] then None
    else if ts[0].id == id then Some(ts[0])
    else
      var r := FindTask(ts[1..], id);
      if r.Some? then
        var i :| FirstWithId(ts[1..], id, i) && ts[1..][i] == r.value;
        assert FirstWithId(ts, id, i + 1);
        r
      else r
  }

  /** The notification shown by the claim button. */
  datatype Toast = Toast(title: string, description: string)

  /**
   * `completeTask`: the toast names the reward of the first task with that
   * id, or nothing when there is no such task or it has no reward. It takes
   * the task list only as input, so no task is changed.
   */
  function CompleteTask(tasks: Option<seq<Task>>, id: string, lang: string): (toast: Toast)
    ensures toast.title == Language.T(lang, "taskCompleted")
    ensures FindTask(Loaded(tasks), id).None? ==>
      toast.description == Language.T(lang, "rewardReceived") + " "
    ensures forall t :: FindTask(Loaded(tasks), id) == Some(t) ==>
      toast.description == Language.T(lang, "rewardReceived") + " " + t.reward.GetOr("")
  {
    var task := FindTask(Loaded(tasks), id);
    var reward := if task.Some? then task.value.reward.GetOr("") else "";
    Toast(Language.T(lang, "taskCompleted"), Language.T(lang, "rewardReceived") + " " + reward)
  }

  /**
   * Since neither key is in any table, the claim toast shows the raw keys in
   * every language.
   */
  lemma ClaimToastShowsKeys(tasks: Option<seq<Task>>, id: string, lang: string)
    ensures CompleteTask(tasks, id, lang).title == "taskCompleted"
    ensures CompleteTask(tasks, id, lang) == CompleteTask(tasks, id, Language.DefaultLanguage)
    ensures exists reward :: CompleteTask(tasks, id, lang).description == "rewardReceived " + reward
  {
    Language.TaskPageKeysUntranslated(lang);
    Language.TaskPageKeysUntranslated(Language.DefaultLanguage);
    var task := FindTask(Loaded(tasks), id);
    var reward := if task.Some? then task.value.reward.GetOr("") else "";
    assert CompleteTask(tasks, id, lang).description == "rewardReceived " + reward;
  }
}
