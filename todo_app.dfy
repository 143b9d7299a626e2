/** The Yew example `examples/complex-yew/src/main.rs`: a todo list whose
    `update` handles six messages. `TodoApp` is the component, updated in
    place; `Model` is its abstract value and `Next` the transition that
    `TodoApp.Update` is proved to perform. */
module TodoList {
  import opened RustStd

  datatype Todo = Todo(id: nat, text: string, completed: bool)

  datatype Filter = All | Active | Completed

  datatype Msg =
    | AddTodo
    | ToggleTodo(toggleId: nat)
    | DeleteTodo(deleteId: nat)
    | UpdateInput(value: string)
    | SetFilter(filter: Filter)
    | ClearCompleted

  /** The fields of `TodoApp`, as one value. */
  datatype Model = Model(todos: seq<Todo>, nextId: nat, inputValue: string, filter: Filter)

  // ---------------------------------------------------------------------
  // The view filter and the counts
  // ---------------------------------------------------------------------

  /** The filter predicate of `view`. */
  predicate Shows(f: Filter, t: Todo) {
    match f
    case All => true
    case Active => !t.completed
    case Completed => t.completed
  }

  /** The todos a filter lets through, in list order (`iter().filter(..)`,
      and `retain` when kept in place). */
  function Filtered(todos: seq<Todo>, f: Filter): (r: seq<Todo>)
    ensures |r| <= |todos|
    ensures forall t :: t in r <==> t in todos && Shows(f, t)
  {
    if todos == [] then []
    else (if Shows(f, todos[0]) then [todos[0]] else []) + Filtered(todos[1..], f)
  }

  /** `active_count`: zero exactly when every todo is completed. */
  function ActiveCount(todos: seq<Todo>): (r: nat)
    ensures r <= |todos|
    ensures r == 0 <==> forall t :: t in todos ==> t.completed
  {
    var v := Filtered(todos, Active);
    assert v != [] ==> v[0] in v;
    |v|
  }

  /** `completed_count`: zero exactly when no todo is completed. */
  function CompletedCount(todos: seq<Todo>): (r: nat)
    ensures r <= |todos|
    ensures r == 0 <==> forall t :: t in todos ==> !t.completed
  {
    var v := Filtered(todos, Completed);
    assert v != [] ==> v[0] in v;
    |v|
  }

  /** Filtering distributes over concatenation, so it keeps list order. */
  lemma {:induction false} FilteredAppend(a: seq<Todo>, b: seq<Todo>, f: Filter)
    ensures Filtered(a + b, f) == Filtered(a, f) + Filtered(b, f)
  {
    if a == [] {
      assert a + b == b;
    } else {
      assert (a + b)[0] == a[0];
      assert (a + b)[1..] == a[1..] + b;
      FilteredAppend(a[1..], b, f);
    }
  }

  /** Every todo is either active or completed. */
  lemma {:induction false} CountsPartition(todos: seq<Todo>)
    ensures ActiveCount(todos) + CompletedCount(todos) == |todos|
  {
    if todos != [] {
      CountsPartition(todos[1..]);
    }
  }

  /** The `All` view is the whole list; the `Active` and `Completed` views
      have the two counts as sizes and hold only todos of their kind. */
  lemma {:induction false} FilteredViews(todos: seq<Todo>)
    ensures Filtered(todos, All) == todos
    ensures |Filtered(todos, Active)| == ActiveCount(todos)
    ensures forall t :: t in Filtered(todos, Active) ==> !t.completed
    ensures |Filtered(todos, Completed)| == CompletedCount(todos)
    ensures forall t :: t in Filtered(todos, Completed) ==> t.completed
  {
    if todos != [] {
      FilteredViews(todos[1..]);
      assert todos == [todos[0]] + todos[1..];
    }
  }

  /** Filtering twice with the same filter changes nothing more, and no
      completed todo survives the active filter. */
  lemma {:induction false} FilteredActiveTwice(todos: seq<Todo>)
    ensures Filtered(Filtered(todos, Active), Active) == Filtered(todos, Active)
    ensures Filtered(Filtered(todos, Active), Completed) == []
  {
    if todos != [] {
      FilteredActiveTwice(todos[1..]);
      var head := if Shows(Active, todos[0]) then [todos[0]] else [];
      FilteredAppend(head, Filtered(todos[1..], Active), Active);
      FilteredAppend(head, Filtered(todos[1..], Active), Completed);
    }
  }

  // ---------------------------------------------------------------------
  // Toggle and delete
  // ---------------------------------------------------------------------

  /** `iter_mut().find(|t| t.id == id)` followed by flipping `completed`:
      only the first todo with that id changes, and only its flag. */
  function ToggleFirst(todos: seq<Todo>, id: nat): (r: seq<Todo>)
    ensures |r| == |todos|
    ensures forall i :: 0 <= i < |r| ==> r[i].id == todos[i].id && r[i].text == todos[i].text
    ensures forall i :: 0 <= i < |r| ==>
              (r[i].completed != todos[i].completed <==>
                 todos[i].id == id && forall j :: 0 <= j < i ==> todos[j].id != id)
    ensures (forall i :: 0 <= i < |todos| ==> todos[i].id != id) ==> r == todos
  {
    if todos == [] then []
    else if todos[0].id == id then [todos[0].(completed := !todos[0].completed)] + todos[1..]
    else
      var rest := ToggleFirst(todos[1..], id);
      assert forall i :: 1 <= i < |todos| ==> todos[1..][i - 1] == todos[i];
      [todos[0]] + rest
  }

  /** The toggled list written positionally: the todo at the first index
      carrying `id` has its flag flipped. */
  lemma {:induction false} ToggleFirstAt(todos: seq<Todo>, id: nat, k: nat)
    requires k < |todos| && todos[k].id == id
    requires forall j :: 0 <= j < k ==> todos[j].id != id
    ensures ToggleFirst(todos, id) == todos[k := todos[k].(completed := !todos[k].completed)]
  {
    if k > 0 {
      ToggleFirstAt(todos[1..], id, k - 1);
    }
  }

  /** `retain(|t| t.id != id)`. */
  function WithoutId(todos: seq<Todo>, id: nat): (r: seq<Todo>)
    ensures |r| <= |todos|
    ensures forall t :: t in r <==> t in todos && t.id != id
  {
    if todos == [] then []
    else (if todos[0].id != id then [todos[0]] else []) + WithoutId(todos[1..], id)
  }

  /** Deleting keeps the other todos in their order. */
  lemma {:induction false} WithoutIdAppend(a: seq<Todo>, b: seq<Todo>, id: nat)
    ensures WithoutId(a + b, id) == WithoutId(a, id) + WithoutId(b, id)
  {
    if a == [] {
      assert a + b == b;
    } else {
      assert (a + b)[0] == a[0];
      assert (a + b)[1..] == a[1..] + b;
      WithoutIdAppend(a[1..], b, id);
    }
  }

  /** Deleting an id no todo carries changes nothing. */
  lemma {:induction false} WithoutAbsentId(todos: seq<Todo>, id: nat)
    requires forall t :: t in todos ==> t.id != id
    ensures WithoutId(todos, id) == todos
  {
    if todos != [] {
      assert todos[0] in todos;
      assert forall t :: t in todos[1..] ==> t in todos;
      WithoutAbsentId(todos[1..], id);
      assert todos == [todos[0]] + todos[1..];
    }
  }

  // ---------------------------------------------------------------------
  // The transition
  // ---------------------------------------------------------------------

  /** What `update` does to the component's fields. Only `AddTodo` moves
      the id counter, by one, and grows the list, by one; only `SetFilter`
      changes the filter; only `AddTodo` and `UpdateInput` touch the input. */
  function Next(m: Model, msg: Msg): (r: Model)
    ensures r.nextId == m.nextId || (msg.AddTodo? && r.nextId == m.nextId + 1)
    ensures |r.todos| <= |m.todos| || (msg.AddTodo? && |r.todos| == |m.todos| + 1)
    ensures r.filter == m.filter || msg.SetFilter?
    ensures r.inputValue == m.inputValue || msg.AddTodo? || msg.UpdateInput?
  {
    match msg
    case AddTodo =>
      if IsBlank(m.inputValue) then m
      else m.(todos := m.todos + [Todo(m.nextId, m.inputValue, false)],
              nextId := m.nextId + 1,
              inputValue := "")
    case ToggleTodo(id) => m.(todos := ToggleFirst(m.todos, id))
    case DeleteTodo(id) => m.(todos := WithoutId(m.todos, id))
    case UpdateInput(value) => m.(inputValue := value)
    case SetFilter(f) => m.(filter := f)
    case ClearCompleted => m.(todos := Filtered(m.todos, Active))
  }

  /** The `onkeypress` callback: Enter adds, any other key sends an empty
      input update. */
  function KeyPressMsg(key: string): (msg: Msg)
    ensures msg == AddTodo <==> key == "Enter"
    ensures msg != AddTodo ==> msg == UpdateInput("")
  {
    if key == "Enter" then AddTodo else UpdateInput("")
  }

  /** Adding with text present appends one incomplete todo with the current
      id and the untrimmed text, bumps the id, clears the input and counts
      one more active todo; the filter stays. */
  lemma AddAppendsOne(m: Model)
    requires !IsBlank(m.inputValue)
    ensures var n := Next(m, AddTodo);
            && n.todos[..|m.todos|] == m.todos
            && |n.todos| == |m.todos| + 1
            && n.todos[|m.todos|] == Todo(m.nextId, m.inputValue, false)
            && n.nextId == m.nextId + 1
            && n.inputValue == ""
            && n.filter == m.filter
            && ActiveCount(n.todos) == ActiveCount(m.todos) + 1
            && CompletedCount(n.todos) == CompletedCount(m.todos)
  {
    var t := Todo(m.nextId, m.inputValue, false);
    FilteredAppend(m.todos, [t], Active);
    FilteredAppend(m.todos, [t], Completed);
    assert Next(m, AddTodo).todos[..|m.todos|] == m.todos;
  }

  /** Adding with empty or whitespace-only input changes nothing. */
  lemma BlankAddIsNoOp(m: Model)
    requires forall i :: 0 <= i < |m.inputValue| ==> IsWhitespace(m.inputValue[i])
    ensures Next(m, AddTodo) == m
  {
    BlankIffAllWhitespace(m.inputValue);
  }

  /** Toggling leaves the counts summing to the length and moves exactly one
      todo between them when the id is present. */
  lemma ToggleMovesOne(m: Model, id: nat, k: nat)
    requires k < |m.todos| && m.todos[k].id == id
    requires forall j :: 0 <= j < k ==> m.todos[j].id != id
    ensures var n := Next(m, ToggleTodo(id));
            && |n.todos| == |m.todos|
            && n.todos[k].completed == !m.todos[k].completed
            && (forall i :: 0 <= i < |m.todos| && i != k ==> n.todos[i] == m.todos[i])
            && (m.todos[k].completed ==> ActiveCount(n.todos) == ActiveCount(m.todos) + 1)
            && (!m.todos[k].completed ==> ActiveCount(n.todos) + 1 == ActiveCount(m.todos))
  {
    ToggleFirstAt(m.todos, id, k);
    var x := m.todos[k].(completed := !m.todos[k].completed);
    FilteredReplaceOne(m.todos, k, x, Active);
  }

  /** Replacing one todo changes the size of a filtered view by what the
      filter says about the old and the new todo. */
  lemma {:induction false} FilteredReplaceOne(s: seq<Todo>, k: nat, x: Todo, f: Filter)
    requires k < |s|
    ensures |Filtered(s[k := x], f)| + (if Shows(f, s[k]) then 1 else 0)
            == |Filtered(s, f)| + (if Shows(f, x) then 1 else 0)
  {
    if k > 0 {
      assert s[k := x][1..] == s[1..][k - 1 := x];
      FilteredReplaceOne(s[1..], k - 1, x, f);
    } else {
      assert s[k := x][1..] == s[1..];
    }
  }

  /** After deleting an id no todo carries it, and the todos kept are the
      others in their order. */
  lemma DeleteRemovesId(m: Model, id: nat)
    ensures var n := Next(m, DeleteTodo(id));
            && (forall t :: t in n.todos ==> t.id != id)
            && (forall t :: t in m.todos && t.id != id ==> t in n.todos)
            && n.nextId == m.nextId && n.inputValue == m.inputValue && n.filter == m.filter
            && ((forall t :: t in m.todos ==> t.id != id) ==> n.todos == m.todos)
  {
    if forall t :: t in m.todos ==> t.id != id {
      WithoutAbsentId(m.todos, id);
    }
  }

  /** Clearing completed todos keeps the active ones in order: nothing
      completed remains and the active count is unchanged. */
  lemma ClearCompletedKeepsActive(m: Model)
    ensures var n := Next(m, ClearCompleted);
            && n.todos == Filtered(m.todos, Active)
            && CompletedCount(n.todos) == 0
            && ActiveCount(n.todos) == ActiveCount(m.todos)
            && |n.todos| == ActiveCount(m.todos)
  {
    FilteredActiveTwice(m.todos);
  }

  /** `UpdateInput` and `SetFilter` change only their own field. */
  lemma SettersChangeOneField(m: Model, value: string, f: Filter)
    ensures Next(m, UpdateInput(value)) == Model(m.todos, m.nextId, value, m.filter)
    ensures Next(m, SetFilter(f)) == Model(m.todos, m.nextId, m.inputValue, f)
  {
  }

  /** A key other than Enter clears what has been typed, despite the
      callback's "No-op" comment. */
  lemma OtherKeyClearsInput(m: Model, key: string)
    requires key != "Enter"
    ensures Next(m, KeyPressMsg(key)) == m.(inputValue := "")
    ensures m.inputValue != "" ==> Next(m, KeyPressMsg(key)) != m
  {
  }

  /** Ids start at 1 whatever todos were loaded, so a loaded todo with id 1
      and a newly added one share their id, and a later toggle reaches only
      the loaded one while a delete removes both. */
  lemma DuplicateIdsPossible()
    ensures var loaded := Model([Todo(1, "saved", false)], 1, "new", All);
            var n := Next(loaded, AddTodo);
            && n.todos == [Todo(1, "saved", false), Todo(1, "new", false)]
            && Next(n, ToggleTodo(1)).todos == [Todo(1, "saved", true), Todo(1, "new", false)]
            && Next(n, DeleteTodo(1)).todos == []
  {
    var loaded := Model([Todo(1, "saved", false)], 1, "new", All);
    assert !IsWhitespace('n');
    BlankIffAllWhitespace("new");
    assert "new"[0] == 'n';
    var s := [Todo(1, "saved", false), Todo(1, "new", false)];
    ToggleFirstAt(s, 1, 0);
    assert WithoutId(s, 1) == WithoutId(s[1..], 1);
  }

  // ---------------------------------------------------------------------
  // The component
  // ---------------------------------------------------------------------

  /** `TodoApp`, whose `update` changes its fields in place. `usize` ids
      are unbounded here. */
  class TodoApp {
    var todos: seq<Todo>
    var nextId: nat
    var inputValue: string
    var filter: Filter

    function State(): Model
      reads this
    {
      Model(todos, nextId, inputValue, filter)
    }

    /** `create`, given the list `LocalStorage` produced (empty when there
        was none). */
    constructor (loaded: seq<Todo>)
      ensures State() == Model(loaded, 1, "", All)
    {
      todos := loaded;
      nextId := 1;
      inputValue := "";
      filter := All;
    }

    /** `update`: always asks for a re-render. */
    method Update(msg: Msg) returns (rerender: bool)
      modifies this
      ensures State() == Next(old(State()), msg)
      ensures rerender
    {
      match msg {
        case AddTodo =>
          if !IsBlank(inputValue) {
            todos := todos + [Todo(nextId, inputValue, false)];
            nextId := nextId + 1;
            inputValue := "";
          }
        case ToggleTodo(id) =>
          var i := 0;
          while i < |todos| && todos[i].id != id
            invariant 0 <= i <= |todos|
            invariant forall j :: 0 <= j < i ==> todos[j].id != id
          {
            i := i + 1;
          }
          if i < |todos| {
            ToggleFirstAt(todos, id, i);
            todos := todos[i := todos[i].(completed := !todos[i].completed)];
          }
        case DeleteTodo(id) =>
          todos := WithoutId(todos, id);
        case UpdateInput(value) =>
          inputValue := value;
        case SetFilter(f) =>
          filter := f;
        case ClearCompleted =>
          todos := Filtered(todos, Active);
      }
      rerender := true;
    }
  }
}
