/**
 * The client-side task store: task lists keyed by category.
 *
 * The store's record is a JavaScript object whose string keys keep their
 * insertion order, so it is modelled as an association list of entries with
 * distinct categories; `{...tasks, [category]: v}` replaces the entry in
 * place, or adds it at the end when the category is new. Keys that are
 * array indices (such as "7") would instead come first, in numeric order;
 * categories are taken not to be such strings.
 */
module TaskStore {
  import opened Wrappers
  import opened JsArrays

  datatype Task = Task(id: int, title: string, icon: string, platform: string, status: string,
                       message: string, createdAt: int)

  /** What a caller of `addTask` supplies: a task without its id and creation time. */
  datatype TaskDraft = TaskDraft(title: string, icon: string, platform: string, status: string,
                                 message: string)

  datatype Entry = Entry(category: string, tasks: seq<Task>)

  function TaskCreatedAt(t: Task): int { t.createdAt }

  const InitialTasks: seq<Entry> := [
    Entry("recommended", []),
    Entry("order-help", []),
    Entry("complaints", []),
    Entry("product-search", []),
    Entry("other", [])
  ]

  predicate UniqueKeys(entries: seq<Entry>)
  {
    forall i, j :: 0 <= i < j < |entries| ==> entries[i].category != entries[j].category
  }

  function Keys(entries: seq<Entry>): seq<string>
  {
    if entries == [] then [] else [entries[0].category] + Keys(entries[1..])
  }

  /** `tasks[category]`, or None for a category the record does not have. */
  function Get(entries: seq<Entry>, category: string): Option<seq<Task>>
  {
    if entries == [] then None
    else if entries[0].category == category then Some(entries[0].tasks)
    else Get(entries[1..], category)
  }

  /** `{...entries, [category]: tasks}`. */
  function Put(entries: seq<Entry>, category: string, tasks: seq<Task>): seq<Entry>
  {
    if entries == [] then [Entry(category, tasks)]
    else if entries[0].category == category then [Entry(category, tasks)] + entries[1..]
    else [entries[0]] + Put(entries[1..], category, tasks)
  }

  /** `Object.values(entries).flat()`: every task, category by category. */
  function Flatten(entries: seq<Entry>): seq<Task>
  {
    if entries == [] then [] else entries[0].tasks + Flatten(entries[1..])
  }

  /** `Math.max(0, ...ids)`. */
  function MaxId(ts: seq<Task>): int
  {
    if ts == [] then 0
    else if ts[0].id > MaxId(ts[1..]) then ts[0].id
    else MaxId(ts[1..])
  }

  /** The id `addTask` gives a new task: one more than the largest id in any category, or 1. */
  function NextTaskId(entries: seq<Entry>): int
  {
    MaxId(Flatten(entries)) + 1
  }

  /** `tasks.map(t => t.id === updated.id ? updated : t)`. */
  function ReplaceById(ts: seq<Task>, updated: Task): seq<Task>
  {
    if ts == [] then []
    else [if ts[0].id == updated.id then updated else ts[0]] + ReplaceById(ts[1..], updated)
  }

  /** `tasks.filter(t => t.id !== id)`. */
  function RemoveById(ts: seq<Task>, id: int): seq<Task>
  {
    if ts == [] then []
    else if ts[0].id != id then [ts[0]] + RemoveById(ts[1..], id)
    else RemoveById(ts[1..], id)
  }

  /** The record `addTask` stores. */
  function AddedTask(entries: seq<Entry>, category: string, draft: TaskDraft, now: int): seq<Entry>
  {
    var existing := match Get(entries, category) case Some(ts) => ts case None => [];
    var newTask := Task(NextTaskId(entries), draft.title, draft.icon, draft.platform, draft.status,
                        draft.message, now);
    Put(entries, category, existing + [newTask])
  }

  /** The record `updateTask` stores, or None when `tasks[category]` is undefined and `.map` throws. */
  function UpdatedTask(entries: seq<Entry>, category: string, updated: Task): Option<seq<Entry>>
  {
    match Get(entries, category)
    case None => None
    case Some(ts) => Some(Put(entries, category, ReplaceById(ts, updated)))
  }

  /** The record `removeTask` stores, or None when `tasks[category]` is undefined and `.filter` throws. */
  function RemovedTask(entries: seq<Entry>, category: string, taskId: int): Option<seq<Entry>>
  {
    match Get(entries, category)
    case None => None
    case Some(ts) => Some(Put(entries, category, RemoveById(ts, taskId)))
  }

  /**
   * `getRecentTasks`: at most five tasks drawn from all categories, newest
   * first, and none older than a task left out. The store is not touched:
   * the sort works on the flattened copy.
   */
  function GetRecentTasks(entries: seq<Entry>): (r: seq<Task>)
    ensures |r| == if |Flatten(entries)| < 5 then |Flatten(entries)| else 5
    ensures SortedDesc(r, TaskCreatedAt)
    ensures multiset(r) <= multiset(Flatten(entries))
    ensures forall d, i :: d in multiset(Flatten(entries)) - multiset(r) && 0 <= i < |r| ==>
      TaskCreatedAt(r[i]) >= TaskCreatedAt(d)
  {
    TopOfSort(Flatten(entries), TaskCreatedAt, 5);
    Top(Flatten(entries), TaskCreatedAt, 5)
  }

  /** Writing one category reads back as written and leaves every other category as it was. */
  lemma {:induction false} PutGet(entries: seq<Entry>, category: string, tasks: seq<Task>, other: string)
    ensures Get(Put(entries, category, tasks), category) == Some(tasks)
    ensures other != category ==> Get(Put(entries, category, tasks), other) == Get(entries, other)
  {
    if entries != [] && entries[0].category != category {
      PutGet(entries[1..], category, tasks, other);
    }
  }

  /** Position by position, writing keeps every category where it was and appends a new one at the end. */
  lemma {:induction false} PutAt(entries: seq<Entry>, category: string, tasks: seq<Task>)
    ensures |Put(entries, category, tasks)| == if category in Keys(entries) then |entries| else |entries| + 1
    ensures forall i :: 0 <= i < |entries| ==> Put(entries, category, tasks)[i].category == entries[i].category
    ensures category !in Keys(entries) ==> Put(entries, category, tasks)[|entries|] == Entry(category, tasks)
  {
    if entries != [] {
      assert Keys(entries) == [entries[0].category] + Keys(entries[1..]);
      if entries[0].category != category {
        PutAt(entries[1..], category, tasks);
      }
    }
  }

  /**
   * Writing keeps the categories distinct and in their order; a new category
   * goes at the end.
   */
  lemma PutKeys(entries: seq<Entry>, category: string, tasks: seq<Task>)
    requires UniqueKeys(entries)
    ensures UniqueKeys(Put(entries, category, tasks))
    ensures Keys(Put(entries, category, tasks)) ==
      if category in Keys(entries) then Keys(entries) else Keys(entries) + [category]
  {
    var r := Put(entries, category, tasks);
    PutAt(entries, category, tasks);
    KeysAt(entries);
    KeysAt(r);
    forall i, j | 0 <= i < j < |r| ensures r[i].category != r[j].category {
      if j == |entries| {
        assert r[i].category == Keys(entries)[i];
      }
    }
  }

  lemma {:induction false} KeysAt(entries: seq<Entry>)
    ensures |Keys(entries)| == |entries|
    ensures forall i :: 0 <= i < |entries| ==> Keys(entries)[i] == entries[i].category
  {
    if entries != [] {
      KeysAt(entries[1..]);
    }
  }

  /** `Math.max(0, ...ids)` is at least 0 and every id, and it is 0 or one of the ids. */
  lemma {:induction false} MaxIdBounds(ts: seq<Task>)
    ensures MaxId(ts) >= 0
    ensures forall t :: t in ts ==> t.id <= MaxId(ts)
    ensures MaxId(ts) == 0 || exists t :: t in ts && t.id == MaxId(ts)
  {
    if ts != [] {
      MaxIdBounds(ts[1..]);
      assert ts == [ts[0]] + ts[1..];
    }
  }

  lemma {:induction false} FlattenHas(entries: seq<Entry>, category: string, t: Task)
    requires Get(entries, category).Some? && t in Get(entries, category).value
    ensures t in Flatten(entries)
  {
    if entries[0].category != category {
      FlattenHas(entries[1..], category, t);
    }
  }

  /**
   * The id `addTask` assigns is at least 1 and larger than the id of every
   * task in every category.
   */
  lemma NextTaskIdFresh(entries: seq<Entry>, category: string, t: Task)
    ensures NextTaskId(entries) >= 1
    ensures Get(entries, category).Some? && t in Get(entries, category).value ==> t.id < NextTaskId(entries)
  {
    MaxIdBounds(Flatten(entries));
    if Get(entries, category).Some? && t in Get(entries, category).value {
      FlattenHas(entries, category, t);
    }
  }

  /**
   * `addTask` appends one task, with a fresh id and the given creation time,
   * at the end of its category (created if absent), and leaves every other
   * category as it was.
   */
  lemma AddedTaskEffect(entries: seq<Entry>, category: string, draft: TaskDraft, now: int, other: string)
    ensures var before := match Get(entries, category) case Some(ts) => ts case None => [];
      var after := Get(AddedTask(entries, category, draft, now), category);
      && after.Some? && |after.value| == |before| + 1
      && after.value[..|before|] == before
      && after.value[|before|] == Task(NextTaskId(entries), draft.title, draft.icon, draft.platform,
                                       draft.status, draft.message, now)
    ensures other != category ==> Get(AddedTask(entries, category, draft, now), other) == Get(entries, other)
  {
    var before := match Get(entries, category) case Some(ts) => ts case None => [];
    var newTask := Task(NextTaskId(entries), draft.title, draft.icon, draft.platform, draft.status,
                        draft.message, now);
    PutGet(entries, category, before + [newTask], other);
    assert (before + [newTask])[..|before|] == before;
  }

  /** The mapped list has the same length and replaces exactly the tasks with the updated id. */
  lemma {:induction false} ReplaceByIdAt(ts: seq<Task>, updated: Task)
    ensures |ReplaceById(ts, updated)| == |ts|
    ensures forall i :: 0 <= i < |ts| ==>
      ReplaceById(ts, updated)[i] == if ts[i].id == updated.id then updated else ts[i]
  {
    if ts != [] {
      ReplaceByIdAt(ts[1..], updated);
    }
  }

  /** Filtering keeps exactly the occurrences of the tasks whose id differs. */
  lemma {:induction false} RemoveByIdCounts(ts: seq<Task>, id: int)
    ensures forall t :: multiset(RemoveById(ts, id))[t] == if t.id == id then 0 else multiset(ts)[t]
  {
    if ts != [] {
      RemoveByIdCounts(ts[1..], id);
      assert ts == [ts[0]] + ts[1..];
    }
  }

  /** Filtering keeps order: it distributes over concatenation. */
  lemma {:induction false} RemoveByIdAppend(a: seq<Task>, b: seq<Task>, id: int)
    ensures RemoveById(a + b, id) == RemoveById(a, id) + RemoveById(b, id)
  {
    if a != [] {
      RemoveByIdAppend(a[1..], b, id);
      assert (a + b)[1..] == a[1..] + b;
    } else {
      assert a + b == b;
    }
  }

  /**
   * `updateTask` and `removeTask` succeed exactly when the category exists,
   * rewrite only that category, and leave every other category as it was.
   */
  lemma UpdateRemoveFrame(entries: seq<Entry>, category: string, updated: Task, taskId: int,
                          other: string)
    ensures UpdatedTask(entries, category, updated).Some? <==> Get(entries, category).Some?
    ensures RemovedTask(entries, category, taskId).Some? <==> Get(entries, category).Some?
    ensures Get(entries, category).Some? ==>
      Get(UpdatedTask(entries, category, updated).value, category) ==
        Some(ReplaceById(Get(entries, category).value, updated))
      && Get(RemovedTask(entries, category, taskId).value, category) ==
        Some(RemoveById(Get(entries, category).value, taskId))
    ensures Get(entries, category).Some? && other != category ==>
      Get(UpdatedTask(entries, category, updated).value, other) == Get(entries, other)
      && Get(RemovedTask(entries, category, taskId).value, other) == Get(entries, other)
  {
    if Get(entries, category).Some? {
      var ts := Get(entries, category).value;
      PutGet(entries, category, ReplaceById(ts, updated), other);
      PutGet(entries, category, RemoveById(ts, taskId), other);
    }
  }

  class TaskStore {
    var tasks: seq<Entry>

    ghost predicate Valid()
      reads this
    {
      UniqueKeys(tasks)
    }

    /** The five categories, each empty. */
    constructor ()
      ensures Valid() && tasks == InitialTasks
    {
      tasks := InitialTasks;
    }

    /** Any id or creation time in the draft's source object is overwritten. */
    method AddTask(category: string, draft: TaskDraft, now: int)
      requires Valid()
      modifies this
      ensures Valid()
      ensures tasks == AddedTask(old(tasks), category, draft, now)
    {
      var existing := match Get(tasks, category) case Some(ts) => ts case None => [];
      var newTask := Task(MaxId(Flatten(tasks)) + 1, draft.title, draft.icon, draft.platform,
                          draft.status, draft.message, now);
      PutKeys(tasks, category, existing + [newTask]);
      tasks := Put(tasks, category, existing + [newTask]);
    }

    /** `ok` is false when the category is missing: the store throws and keeps its state. */
    method UpdateTask(category: string, updated: Task) returns (ok: bool)
      requires Valid()
      modifies this
      ensures Valid()
      ensures ok == UpdatedTask(old(tasks), category, updated).Some?
      ensures tasks == if ok then UpdatedTask(old(tasks), category, updated).value else old(tasks)
    {
      match Get(tasks, category)
      case None =>
        ok := false;
      case Some(ts) =>
        PutKeys(tasks, category, ReplaceById(ts, updated));
        tasks := Put(tasks, category, ReplaceById(ts, updated));
        ok := true;
    }

    /** `ok` is false when the category is missing: the store throws and keeps its state. */
    method RemoveTask(category: string, taskId: int) returns (ok: bool)
      requires Valid()
      modifies this
      ensures Valid()
      ensures ok == RemovedTask(old(tasks), category, taskId).Some?
      ensures tasks == if ok then RemovedTask(old(tasks), category, taskId).value else old(tasks)
    {
      match Get(tasks, category)
      case None =>
        ok := false;
      case Some(ts) =>
        PutKeys(tasks, category, RemoveById(ts, taskId));
        tasks := Put(tasks, category, RemoveById(ts, taskId));
        ok := true;
    }
  }
}
