/**
 * The todo store: a list of todo items changed in place by add, update,
 * complete and delete (each finds an item by id), the daily reset applied
 * when the list is loaded on a new day, and the filtered and sorted view.
 *
 * Persistence (the IPC calls of saveTodos and loadTodos) is outside the
 * model; loadTodos takes the fetched data and the "new day" verdict as
 * parameters. Date parsing and locale formatting are parameters too
 * (a DateOps value).
 */
module TodoStore {
  import opened StableSort
  import opened Wrappers

  /** TodoType; an absent isDaily reads as false. */
  datatype Todo = Todo(
    id: int,
    title: string,
    content: string,
    completed: bool,
    startTime: string,
    dueTime: string,
    createTime: string,
    importance: int,
    isDaily: bool)

  datatype TodoFilter = TodoFilter(dates: seq<string>, importance: int)

  datatype Settings = Settings(filter: Option<TodoFilter>, sort: Option<string>)

  datatype TodoData = TodoData(todoItems: Option<seq<Todo>>, settings: Option<Settings>)

  /** What the 'get-todos' request gives back: an error, nothing, or data. */
  datatype Fetched = IpcError | NoData | Loaded(data: TodoData)

  /** The date-dependent parts of the view: the locale date string of a date-time
      string (`new Date(s).toLocaleDateString()`), and the timestamps that Date
      parsing gives for an item's create, due and start times. */
  datatype DateOps = DateOps(
    localeDate: string -> string,
    created: Todo -> int,
    due: Todo -> int,
    start: Todo -> int)

  function Importance(t: Todo): int { t.importance }

  /** findIndex(t => t.id === id): the first position holding id, or -1. */
  function IndexOfId(s: seq<Todo>, id: int): (i: int)
    ensures -1 <= i < |s|
    ensures 0 <= i ==> s[i].id == id && forall k :: 0 <= k < i ==> s[k].id != id
    ensures i == -1 ==> forall k :: 0 <= k < |s| ==> s[k].id != id
  {
    if s == [] then -1
    else if s[0].id == id then 0
    else
      var j := IndexOfId(s[1..], id);
      if j == -1 then -1 else j + 1
  }

  /** The items whose importance is at least the threshold, in list order. */
  function AtLeastImportant(s: seq<Todo>, threshold: int): (r: seq<Todo>)
    ensures |r| <= |s|
    ensures forall x :: x in r <==> x in s && x.importance >= threshold
  {
    if s == [] then []
    else
      (if s[0].importance >= threshold then [s[0]] else [])
      + AtLeastImportant(s[1..], threshold)
  }

  /** JavaScript's `a <= b` on strings: lexicographic order on the characters. */
  predicate StringAtMost(a: string, b: string)
  {
    a == [] || (b != [] && (a[0] < b[0] || (a[0] == b[0] && StringAtMost(a[1..], b[1..]))))
  }

  /** Every string is at most itself. */
  lemma {:induction false} StringAtMostReflexive(a: string)
    ensures StringAtMost(a, a)
  {
    if a != [] {
      StringAtMostReflexive(a[1..]);
    }
  }

  /** Whether the chosen date falls in an item's range, compared as locale date strings:
      between start and due when it has both, from its start or up to its due when it
      has one of them; an empty locale string counts as absent, as in JavaScript. */
  predicate DateInRange(date: string, t: Todo, ops: DateOps)
  {
    var filterDate := ops.localeDate(date);
    var startDate := if t.startTime != "" then ops.localeDate(t.startTime) else "";
    var dueDate := if t.dueTime != "" then ops.localeDate(t.dueTime) else "";
    if startDate != "" && dueDate != "" then StringAtMost(startDate, filterDate) && StringAtMost(filterDate, dueDate)
    else if startDate != "" then StringAtMost(startDate, filterDate)
    else if dueDate != "" then StringAtMost(filterDate, dueDate)
    else false
  }

  /** The date filter's test: daily items and items with neither a start nor a due time
      always pass; any other item passes when some chosen date falls in its range. */
  predicate PassesDates(t: Todo, dates: seq<string>, ops: DateOps)
  {
    t.isDaily || (t.startTime == "" && t.dueTime == "")
    || exists i :: 0 <= i < |dates| && DateInRange(dates[i], t, ops)
  }

  /** An item that starts and is due on a chosen day passes the date filter. */
  lemma SameDayPasses(t: Todo, dates: seq<string>, ops: DateOps, i: nat)
    requires i < |dates| && t.startTime != "" && t.dueTime != ""
    requires ops.localeDate(t.startTime) == ops.localeDate(t.dueTime) == ops.localeDate(dates[i]) != ""
    ensures PassesDates(t, dates, ops)
  {
    StringAtMostReflexive(ops.localeDate(dates[i]));
    assert DateInRange(dates[i], t, ops);
  }

  /** The items that pass the date filter for the chosen dates, in list order. */
  function InDateRange(s: seq<Todo>, dates: seq<string>, ops: DateOps): (r: seq<Todo>)
    ensures |r| <= |s|
    ensures forall x :: x in r <==> x in s && PassesDates(x, dates, ops)
  {
    if s == [] then []
    else (if PassesDates(s[0], dates, ops) then [s[0]] else []) + InDateRange(s[1..], dates, ops)
  }

  /** The daily reset of one item: a daily item becomes not completed. */
  function ResetIfDaily(t: Todo): Todo
  {
    if t.isDaily then t.(completed := false) else t
  }

  /** filteredAndSortedTodos on a copy of the list: the date filter when dates are
      chosen, the importance filter when the threshold is positive, then the chosen
      stable sort (createTime newest first, importance highest first, dueTime and
      startTime earliest first; any other key leaves the order). */
  function FilteredAndSorted(todos: seq<Todo>, filter: TodoFilter, sort: string, ops: DateOps): seq<Todo>
  {
    var byDate := if |filter.dates| > 0 then InDateRange(todos, filter.dates, ops) else todos;
    var byImportance := if filter.importance > 0 then AtLeastImportant(byDate, filter.importance) else byDate;
    if sort == "createTime" then SortDesc(byImportance, ops.created)
    else if sort == "importance" then SortDesc(byImportance, Importance)
    else if sort == "dueTime" then SortDesc(byImportance, (t: Todo) => -ops.due(t))
    else if sort == "startTime" then SortDesc(byImportance, (t: Todo) => -ops.start(t))
    else byImportance
  }

  /** With no date filter and a positive threshold, the view holds exactly the items of
      at least that importance; sorted by importance, it is a permutation of them in
      non-increasing importance, equal importances in list order. */
  lemma {:induction false} ImportanceView(todos: seq<Todo>, filter: TodoFilter, ops: DateOps)
    requires |filter.dates| == 0 && filter.importance > 0
    ensures var r := FilteredAndSorted(todos, filter, "importance", ops);
            && multiset(r) == multiset(AtLeastImportant(todos, filter.importance))
            && (forall x :: x in r <==> x in todos && x.importance >= filter.importance)
            && SortedDesc(r, Importance)
            && forall k :: WithKey(r, Importance, k) == WithKey(AtLeastImportant(todos, filter.importance), Importance, k)
  {
    var f := AtLeastImportant(todos, filter.importance);
    var r := FilteredAndSorted(todos, filter, "importance", ops);
    assert r == SortDesc(f, Importance);
    SortDescPermutes(f, Importance);
    SortDescSorted(f, Importance);
    forall k ensures WithKey(r, Importance, k) == WithKey(f, Importance, k) {
      SortDescStable(f, Importance, k);
    }
    forall x ensures x in r <==> x in f {
      assert x in r <==> x in multiset(r);
      assert x in f <==> x in multiset(f);
    }
  }

  /** Whatever the filter and sort key, the view only holds items of the list, and never
      more of them than the list has. */
  lemma ViewFromList(todos: seq<Todo>, filter: TodoFilter, sort: string, ops: DateOps)
    ensures var r := FilteredAndSorted(todos, filter, sort, ops);
            |r| <= |todos| && forall x :: x in r ==> x in todos
  {
    var byDate := if |filter.dates| > 0 then InDateRange(todos, filter.dates, ops) else todos;
    var f := if filter.importance > 0 then AtLeastImportant(byDate, filter.importance) else byDate;
    assert |f| <= |todos| && forall x :: x in f ==> x in todos;
    if sort == "createTime" {
      SortedFrom(f, ops.created);
    } else if sort == "importance" {
      SortedFrom(f, Importance);
    } else if sort == "dueTime" {
      SortedFrom(f, (t: Todo) => -ops.due(t));
    } else if sort == "startTime" {
      SortedFrom(f, (t: Todo) => -ops.start(t));
    }
  }

  lemma SortedFrom(f: seq<Todo>, key: Todo -> int)
    ensures |SortDesc(f, key)| == |f|
    ensures forall x :: x in SortDesc(f, key) ==> x in f
  {
    SortDescPermutes(f, key);
    forall x | x in SortDesc(f, key) ensures x in f {
      assert x in multiset(SortDesc(f, key));
    }
  }

  /** The store's state: the list and the view settings. */
  class TodoList {
    var todos: seq<Todo>
    var filter: TodoFilter
    var sort: string

    constructor ()
      ensures todos == [] && filter == TodoFilter([], 0) && sort == "createTime"
    {
      todos := [];
      filter := TodoFilter([], 0);
      sort := "createTime";
    }

    /** addTodo: appends the item. */
    method AddTodo(todo: Todo)
      modifies this
      ensures todos == old(todos) + [todo]
      ensures filter == old(filter) && sort == old(sort)
    {
      todos := todos + [todo];
    }

    /** updateTodo: replaces the first item with the same id, or appends when none has it. */
    method UpdateTodo(newTodo: Todo)
      modifies this
      ensures var i := IndexOfId(old(todos), newTodo.id);
              if i >= 0 then todos == old(todos)[i := newTodo] else todos == old(todos) + [newTodo]
      ensures filter == old(filter) && sort == old(sort)
    {
      var index := IndexOfId(todos, newTodo.id);
      if index != -1 {
        todos := todos[index := newTodo];
      } else {
        todos := todos + [newTodo];
      }
    }

    /** completeTodo: marks the first item with the same id completed; nothing else changes. */
    method CompleteTodo(todo: Todo)
      modifies this
      ensures |todos| == |old(todos)|
      ensures var i := IndexOfId(old(todos), todo.id);
              forall k :: 0 <= k < |todos| ==>
                todos[k] == if k == i then old(todos)[k].(completed := true) else old(todos)[k]
      ensures filter == old(filter) && sort == old(sort)
    {
      var index := IndexOfId(todos, todo.id);
      if index != -1 {
        todos := todos[index := todos[index].(completed := true)];
      }
    }

    /** deleteTodo: removes the first item with the same id; an unknown id changes nothing. */
    method DeleteTodo(todo: Todo)
      modifies this
      ensures var i := IndexOfId(old(todos), todo.id);
              todos == if i >= 0 then old(todos)[..i] + old(todos)[i + 1..] else old(todos)
      ensures filter == old(filter) && sort == old(sort)
    {
      var index := IndexOfId(todos, todo.id);
      if index != -1 {
        todos := todos[..index] + todos[index + 1..];
      }
    }

    /** The new-day reset inside loadTodos: every daily item becomes not completed, every
        other item is left as it was. */
    method ResetDaily()
      modifies this
      ensures |todos| == |old(todos)|
      ensures forall k :: 0 <= k < |todos| ==> todos[k] == ResetIfDaily(old(todos)[k])
      ensures filter == old(filter) && sort == old(sort)
    {
      var i := 0;
      while i < |todos|
        invariant 0 <= i <= |todos| == |old(todos)|
        invariant forall k :: 0 <= k < i ==> todos[k] == ResetIfDaily(old(todos)[k])
        invariant forall k :: i <= k < |todos| ==> todos[k] == old(todos)[k]
        invariant filter == old(filter) && sort == old(sort)
      {
        if todos[i].isDaily {
          todos := todos[i := todos[i].(completed := false)];
        }
        i := i + 1;
      }
    }

    /** loadTodos, given what 'get-todos' returned and whether today differs from the
        day of the last save: the items (or none), the saved filter and sort when present
        and truthy, then the daily reset on a new day. A failed request changes nothing. */
    method LoadTodos(fetched: Fetched, isNewDay: bool)
      modifies this
      ensures fetched.IpcError? ==> todos == old(todos) && filter == old(filter) && sort == old(sort)
      ensures fetched.NoData? ==> todos == [] && filter == old(filter) && sort == old(sort)
      ensures fetched.Loaded? ==>
                var items := if fetched.data.todoItems.Some? then fetched.data.todoItems.value else [];
                && |todos| == |items|
                && (forall k :: 0 <= k < |todos| ==>
                      todos[k] == if isNewDay then ResetIfDaily(items[k]) else items[k])
                && filter == SavedFilter(fetched.data.settings, old(filter))
                && sort == SavedSort(fetched.data.settings, old(sort))
    {
      match fetched
      case IpcError =>
      case NoData =>
        todos := [];
      case Loaded(data) =>
        todos := if data.todoItems.Some? then data.todoItems.value else [];
        filter := SavedFilter(data.settings, filter);
        sort := SavedSort(data.settings, sort);
        if isNewDay {
          ResetDaily();
        }
    }

    /** The view over the current state; it reads the list and changes nothing. */
    function View(ops: DateOps): seq<Todo>
      reads this
    {
      FilteredAndSorted(todos, filter, sort, ops)
    }
  }

  /** `settings.filter || filter`: the saved filter when there is one. */
  function SavedFilter(settings: Option<Settings>, current: TodoFilter): TodoFilter
  {
    if settings.Some? && settings.value.filter.Some? then settings.value.filter.value else current
  }

  /** `settings.sort || sort`: the saved sort key unless it is absent or empty. */
  function SavedSort(settings: Option<Settings>, current: string): string
  {
    if settings.Some? && settings.value.sort.Some? && settings.value.sort.value != ""
    then settings.value.sort.value
    else current
  }
}
