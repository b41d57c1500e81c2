/**
 * The task catalogue: five fixed categories, each with its built-in default
 * tasks, merged with the tasks the store holds under the same category key.
 * Clicking a task opens a fresh chat for it in the chat store.
 */
module TaskCategories {
  import opened Wrappers
  import opened JsArrays
  import TaskStore
  import ChatStore

  datatype Category = Recommended | OrderHelp | Complaints | ProductSearch | Other

  /** The categories in the order the tabs show them. */
  const Categories: seq<Category> := [Recommended, OrderHelp, Complaints, ProductSearch, Other]

  function Key(c: Category): string
  {
    match c
    case Recommended => "recommended"
    case OrderHelp => "order-help"
    case Complaints => "complaints"
    case ProductSearch => "product-search"
    case Other => "other"
  }

  /** `key in result`: the category a record key names, if any. */
  function CategoryOf(key: string): (r: Option<Category>)
    ensures r.Some? ==> Key(r.value) == key
  {
    if key == "recommended" then Some(Recommended)
    else if key == "order-help" then Some(OrderHelp)
    else if key == "complaints" then Some(Complaints)
    else if key == "product-search" then Some(ProductSearch)
    else if key == "other" then Some(Other)
    else None
  }

  /** The category keys are distinct: each names its own category. */
  lemma CategoryOfKey()
    ensures forall c :: CategoryOf(Key(c)) == Some(c)
  {
  }

  /** A catalogue task; the defaults have no creation time. */
  datatype CatalogueTask = CatalogueTask(id: int, title: string, icon: string, platform: string, status: string,
                                         message: string, createdAt: Option<int>)

  function FromStore(t: TaskStore.Task): CatalogueTask
  {
    CatalogueTask(t.id, t.title, t.icon, t.platform, t.status, t.message, Some(t.createdAt))
  }

  /** The sort key: the creation time, or 0 for a task without one. */
  function SortKey(t: CatalogueTask): int
  {
    if t.createdAt.Some? then t.createdAt.value else 0
  }

  function Builtin(id: int, title: string, icon: string, platform: string, status: string, message: string)
    : CatalogueTask
  {
    CatalogueTask(id, title, icon, platform, status, message, None)
  }

  /** `DEFAULT_TASKS[c]`. */
  function Defaults(c: Category): seq<CatalogueTask>
  {
    match c
    case Recommended => [
      Builtin(1, "Track My Order", "🛍", "Amazon", "In Progress", "Track your Amazon order status"),
      Builtin(2, "Cancel Subscription", "🚫", "Netflix", "$25 Saved", "Cancel your Netflix subscription"),
      Builtin(3, "Raise a Complaint", "💬", "Flipkart", "Open", "Report an issue with your order"),
      Builtin(4, "Find Products Online", "🛒", "Multiple Stores", "Available", "Search for products across stores")]
    case OrderHelp => [
      Builtin(5, "Track Package", "📦", "Amazon", "In Progress", "Track your package location"),
      Builtin(6, "Return Item", "↩️", "Flipkart", "Available", "Initiate a return request"),
      Builtin(7, "Fix Delivery", "🚚", "Multiple Stores", "Open", "Fix delivery issues")]
    case Complaints => [
      Builtin(8, "Report Issue", "⚠️", "Customer Service", "Open", "Report a product or service issue"),
      Builtin(9, "Refund Request", "💰", "Amazon", "In Progress", "Request a refund"),
      Builtin(10, "Quality Complaint", "📝", "Flipkart", "Open", "Report quality issues")]
    case ProductSearch => [
      Builtin(11, "Compare Prices", "🔍", "Multiple Stores", "Available", "Compare product prices"),
      Builtin(12, "Find Deals", "🏷️", "Multiple Stores", "$40 Saved", "Find the best deals"),
      Builtin(13, "Check Stock", "📊", "Multiple Stores", "Available", "Check product availability")]
    case Other => [
      Builtin(14, "Talk to Support", "☎", "Customer Service", "Available", "Connect with customer support"),
      Builtin(15, "Save Money", "💲", "Bills & Utilities", "$25 Saved", "Find ways to save money"),
      Builtin(16, "General Help", "❓", "Customer Service", "Open", "Get general assistance")]
  }

  /** The id of a category's first default; the ids then run on consecutively. */
  function FirstId(c: Category): int
  {
    match c
    case Recommended => 1
    case OrderHelp => 5
    case Complaints => 8
    case ProductSearch => 11
    case Other => 14
  }

  /** Where a category's run of ids ends: where the next category's begins, or 17. */
  function RunEnd(c: Category): int
  {
    match c
    case Recommended => FirstId(OrderHelp)
    case OrderHelp => FirstId(Complaints)
    case Complaints => FirstId(ProductSearch)
    case ProductSearch => FirstId(Other)
    case Other => 17
  }

  /** Each category's default ids run on from `FirstId` up to its `RunEnd`. */
  lemma DefaultIdsConsecutive(c: Category)
    ensures forall i :: 0 <= i < |Defaults(c)| ==> Defaults(c)[i].id == FirstId(c) + i
    ensures FirstId(c) + |Defaults(c)| == RunEnd(c)
  {
  }

  /** Tables whose ids run consecutively within those ranges never repeat an id. */
  lemma RunsDisjoint(d: Category -> seq<CatalogueTask>)
    requires forall c, i :: 0 <= i < |d(c)| ==> d(c)[i].id == FirstId(c) + i
    requires forall c :: FirstId(c) + |d(c)| == RunEnd(c)
    ensures forall c, i :: 0 <= i < |d(c)| ==> 1 <= d(c)[i].id <= 16
    ensures forall c1, i, c2, j :: 0 <= i < |d(c1)| && 0 <= j < |d(c2)| && (c1, i) != (c2, j) ==>
      d(c1)[i].id != d(c2)[j].id
  {
  }

  /** No two defaults, in the same category or not, share an id, and every id lies in 1 to 16. */
  lemma DefaultIdsUnique()
    ensures forall c, i :: 0 <= i < |Defaults(c)| ==> 1 <= Defaults(c)[i].id <= 16
    ensures forall c1, i, c2, j :: 0 <= i < |Defaults(c1)| && 0 <= j < |Defaults(c2)| && (c1, i) != (c2, j) ==>
      Defaults(c1)[i].id != Defaults(c2)[j].id
  {
    forall c ensures forall i :: 0 <= i < |Defaults(c)| ==> Defaults(c)[i].id == FirstId(c) + i
      ensures FirstId(c) + |Defaults(c)| == RunEnd(c)
    {
      DefaultIdsConsecutive(c);
    }
    RunsDisjoint(Defaults);
  }

  /** The category whose defaults hold the id `n`. */
  function IdOwner(n: int): Category
  {
    if n < 5 then Recommended else if n < 8 then OrderHelp else if n < 11 then Complaints
    else if n < 14 then ProductSearch else Other
  }

  /** Every id from 1 to 16 is taken: the defaults' ids are exactly 1 to 16. */
  lemma DefaultIdsCover(n: int)
    requires 1 <= n <= 16
    ensures var c := IdOwner(n);
      0 <= n - FirstId(c) < |Defaults(c)| && Defaults(c)[n - FirstId(c)].id == n
  {
    DefaultIdsConsecutive(IdOwner(n));
  }

  /** No default has a creation time, so every default sorts under the key 0. */
  lemma DefaultsUndated(c: Category)
    ensures forall t :: t in Defaults(c) ==> t.createdAt.None? && SortKey(t) == 0
  {
  }

  /** Every category has a tab. */
  lemma EveryCategory()
    ensures forall c :: c in Categories
  {
    forall c ensures c in Categories {
      match c
      case Recommended =>
      case OrderHelp =>
      case Complaints =>
      case ProductSearch =>
      case Other =>
    }
  }

  /** `new Set(ts.map(t => t.id))`. */
  function IdSet(ts: seq<CatalogueTask>): set<int>
  {
    set t | t in ts :: t.id
  }

  /** `tasks.filter(t => !existingIds.has(t.id))`, as catalogue tasks. */
  function Fresh(tasks: seq<TaskStore.Task>, existingIds: set<int>): seq<CatalogueTask>
  {
    if tasks == [] then []
    else (if tasks[0].id in existingIds then [] else [FromStore(tasks[0])]) + Fresh(tasks[1..], existingIds)
  }

  /** `[...defaults, ...newTasks]` sorted newest first. */
  function Merge(defaults: seq<CatalogueTask>, tasks: seq<TaskStore.Task>): seq<CatalogueTask>
  {
    SortDesc(defaults + Fresh(tasks, IdSet(defaults)), SortKey)
  }

  /** `allTasks[c]`: merged when the store has the category, the defaults as they are otherwise. */
  function AllTasksOf(entries: seq<TaskStore.Entry>, c: Category): seq<CatalogueTask>
  {
    match TaskStore.Get(entries, Key(c))
    case None => Defaults(c)
    case Some(tasks) => Merge(Defaults(c), tasks)
  }

  /** `storeTasks[c] ?? []`. */
  function StoreTasksOf(entries: seq<TaskStore.Entry>, c: Category): seq<TaskStore.Task>
  {
    match TaskStore.Get(entries, Key(c))
    case None => []
    case Some(tasks) => tasks
  }

  /** The count the effect stores: defaults plus every store task of the category. */
  function EffectCount(entries: seq<TaskStore.Entry>, c: Category): nat
  {
    |Defaults(c)| + |StoreTasksOf(entries, c)|
  }

  /** The count a tab shows: the length of the merged list. */
  function TabCount(entries: seq<TaskStore.Entry>, c: Category): nat
  {
    |AllTasksOf(entries, c)|
  }

  /**
   * A store task is kept exactly when its id is not an existing id, and then
   * as often as it occurs, duplicates included.
   */
  lemma {:induction false} FreshCounts(tasks: seq<TaskStore.Task>, existingIds: set<int>)
    ensures |Fresh(tasks, existingIds)| <= |tasks|
    ensures |Fresh(tasks, existingIds)| == |tasks| <==> forall t :: t in tasks ==> t.id !in existingIds
    ensures forall t :: t in Fresh(tasks, existingIds) <==>
      exists s :: s in tasks && s.id !in existingIds && t == FromStore(s)
  {
    if tasks != [] {
      FreshCounts(tasks[1..], existingIds);
      assert forall t :: t in tasks <==> t == tasks[0] || t in tasks[1..];
    }
  }

  /**
   * A store task whose id is not an existing id is kept as often as it
   * occurs, duplicates included; one whose id is existing is not kept at all.
   */
  lemma {:induction false} FreshMultiplicity(tasks: seq<TaskStore.Task>, existingIds: set<int>)
    ensures forall s ::
      multiset(Fresh(tasks, existingIds))[FromStore(s)] == (if s.id in existingIds then 0 else multiset(tasks)[s])
  {
    if tasks != [] {
      FreshMultiplicity(tasks[1..], existingIds);
      var head := if tasks[0].id in existingIds then [] else [FromStore(tasks[0])];
      assert multiset(Fresh(tasks, existingIds)) == multiset(head) + multiset(Fresh(tasks[1..], existingIds));
      assert tasks == [tasks[0]] + tasks[1..];
      assert multiset(tasks) == multiset{tasks[0]} + multiset(tasks[1..]);
    }
  }

  /** The filter keeps the store's order: it distributes over concatenation. */
  lemma {:induction false} FreshAppend(a: seq<TaskStore.Task>, b: seq<TaskStore.Task>, existingIds: set<int>)
    ensures Fresh(a + b, existingIds) == Fresh(a, existingIds) + Fresh(b, existingIds)
  {
    if a == [] {
      assert a + b == b;
    } else {
      assert (a + b)[0] == a[0] && (a + b)[1..] == a[1..] + b;
      FreshAppend(a[1..], b, existingIds);
    }
  }

  /**
   * Each category's merged list is sorted newest first, counting a missing
   * creation time as 0, and holds exactly the defaults and the store tasks
   * whose id is not a default id of that category.
   */
  lemma MergeCorrect(defaults: seq<CatalogueTask>, tasks: seq<TaskStore.Task>)
    ensures var r := Merge(defaults, tasks);
      && SortedDesc(r, SortKey)
      && multiset(r) == multiset(defaults) + multiset(Fresh(tasks, IdSet(defaults)))
      && (forall t :: t in r <==>
            (t in defaults || exists s :: s in tasks && s.id !in IdSet(defaults) && t == FromStore(s)))
  {
    SortDescCorrect(defaults + Fresh(tasks, IdSet(defaults)), SortKey);
    FreshCounts(tasks, IdSet(defaults));
    var r := Merge(defaults, tasks);
    forall t ensures t in r <==> t in defaults + Fresh(tasks, IdSet(defaults)) {
      assert t in r <==> t in multiset(r);
    }
  }

  /**
   * The count the effect stores is never below the count the tab shows, and
   * the two agree exactly when no store task of the category reuses one of
   * its default ids.
   */
  lemma CountsAgree(entries: seq<TaskStore.Entry>, c: Category)
    ensures TabCount(entries, c) <= EffectCount(entries, c)
    ensures TabCount(entries, c) == EffectCount(entries, c) <==>
      forall t :: t in StoreTasksOf(entries, c) ==> t.id !in IdSet(Defaults(c))
  {
    var tasks := StoreTasksOf(entries, c);
    FreshCounts(tasks, IdSet(Defaults(c)));
    if TaskStore.Get(entries, Key(c)).Some? {
      SortDescCorrect(Defaults(c) + Fresh(tasks, IdSet(Defaults(c))), SortKey);
    }
  }

  /** With distinct categories, the entry at `i` is what `Get` finds under its category. */
  lemma {:induction false} GetUnique(entries: seq<TaskStore.Entry>, i: nat)
    requires TaskStore.UniqueKeys(entries) && i < |entries|
    ensures TaskStore.Get(entries, entries[i].category) == Some(entries[i].tasks)
  {
    if i > 0 {
      assert TaskStore.UniqueKeys(entries[1..]);
      GetUnique(entries[1..], i - 1);
    }
  }

  /** `Get` finds a key exactly when some entry has it. */
  lemma {:induction false} GetSome(entries: seq<TaskStore.Entry>, key: string)
    ensures TaskStore.Get(entries, key).Some? <==> exists j :: 0 <= j < |entries| && entries[j].category == key
  {
    if entries != [] {
      GetSome(entries[1..], key);
      if TaskStore.Get(entries[1..], key).Some? {
        var j :| 0 <= j < |entries[1..]| && entries[1..][j].category == key;
        assert entries[j + 1].category == key;
      }
    }
  }

  /** Whether one of the first `i` entries has the key. */
  predicate Seen(entries: seq<TaskStore.Entry>, i: nat, key: string)
  {
    exists j :: 0 <= j < i && j < |entries| && entries[j].category == key
  }

  /**
   * The `allTasks` memo: a copy of the defaults, then one pass over the
   * store's entries in order, merging each entry whose key is a category.
   */
  method AllTasks(entries: seq<TaskStore.Entry>) returns (result: map<Category, seq<CatalogueTask>>)
    requires TaskStore.UniqueKeys(entries)
    ensures forall c :: c in result && result[c] == AllTasksOf(entries, c)
  {
    EveryCategory();
    result := map c | c in Categories :: Defaults(c);
    var i := 0;
    while i < |entries|
      invariant 0 <= i <= |entries|
      invariant forall c ::
        && c in result
        && result[c] == (if Seen(entries, i, Key(c)) then AllTasksOf(entries, c) else Defaults(c))
    {
      var entry := entries[i];
      var category := CategoryOf(entry.category);
      SeenStep(entries, i);
      CategoryOfKey();
      if category.Some? {
        var c := category.value;
        NotSeenYet(entries, i);
        GetUnique(entries, i);
        var existingIds := IdSet(result[c]);
        var newTasks := Fresh(entry.tasks, existingIds);
        result := result[c := SortDesc(result[c] + newTasks, SortKey)];
      }
      i := i + 1;
    }
    forall c ensures Seen(entries, |entries|, Key(c)) <==> TaskStore.Get(entries, Key(c)).Some? {
      GetSome(entries, Key(c));
    }
  }

  lemma SeenStep(entries: seq<TaskStore.Entry>, i: nat)
    requires i < |entries|
    ensures forall k :: Seen(entries, i + 1, k) <==> Seen(entries, i, k) || entries[i].category == k
  {
    forall k ensures Seen(entries, i + 1, k) ==> Seen(entries, i, k) || entries[i].category == k {
      if Seen(entries, i + 1, k) && entries[i].category != k {
        var j :| 0 <= j < i + 1 && j < |entries| && entries[j].category == k;
        assert j < i;
      }
    }
  }

  /** With distinct categories, no earlier entry has the category of the entry at `i`. */
  lemma NotSeenYet(entries: seq<TaskStore.Entry>, i: nat)
    requires TaskStore.UniqueKeys(entries) && i < |entries|
    ensures !Seen(entries, i, entries[i].category)
  {
  }

  /** The tab strip and the chat store it opens chats in. */
  class TaskCategoriesView {
    const chatStore: ChatStore.Store
    var activeTab: Category
    var isLoading: bool
    var counts: map<Category, nat>

    constructor (chatStore: ChatStore.Store)
      ensures this.chatStore == chatStore
      ensures activeTab == Recommended && !isLoading && forall c :: c in counts && counts[c] == 0
    {
      EveryCategory();
      this.chatStore := chatStore;
      activeTab := Recommended;
      isLoading := false;
      counts := map c | c in Categories :: 0;
    }

    /** The count effect, run whenever the store's tasks change. */
    method UpdateCounts(entries: seq<TaskStore.Entry>)
      modifies this
      ensures forall c :: c in counts && counts[c] == EffectCount(entries, c)
      ensures activeTab == old(activeTab) && isLoading == old(isLoading)
    {
      EveryCategory();
      counts := map c | c in Categories :: |Defaults(c)| + |StoreTasksOf(entries, c)|;
    }

    /** A tab button is disabled while a task click is in progress. */
    method SelectTab(c: Category)
      modifies this
      ensures activeTab == if old(isLoading) then old(activeTab) else c
      ensures isLoading == old(isLoading) && counts == old(counts)
    {
      if !isLoading {
        activeTab := c;
      }
    }

    /** Opens a chat titled after the task, with no messages, linked to the task, and makes it active. */
    method HandleTaskClick(task: CatalogueTask, now: int, freshId: string) returns (chatId: string)
      modifies this, chatStore
      ensures chatId == freshId
      ensures chatStore.chats == [ChatStore.Chat(freshId, task.title, [], now, Some(task.id))] + old(chatStore.chats)
      ensures chatStore.activeChat == Some(freshId)
      ensures !isLoading && activeTab == old(activeTab) && counts == old(counts)
    {
      isLoading := true;
      chatId := chatStore.AddChat(task.title, [], now, Some(task.id), freshId);
      chatStore.SetActiveChat(Some(chatId));
      isLoading := false;
    }
  }
}
