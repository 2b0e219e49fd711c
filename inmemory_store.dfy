/**
 The in-memory adapter of the storage port (src/todo_store/inmemory.rs): an
 ordered sequence of todos changed in place by create, update and delete.
 The functions below give the meaning of the iterator scans the store runs
 (`position`, `find`, `max`) and of the state each operation leaves behind;
 the class's methods are proved against them.
 */
module InMemoryStore {

  import opened Wrappers
  import opened Model
  import opened Errors

  /** The entity name the store puts into its not-found errors. */
  const ENTITY_NAME: string := "todo"

  predicate UniqueIds(s: seq<Todo>) {
    forall i, j | 0 <= i < j < |s| :: s[i].id != s[j].id
  }

  predicate HasId(s: seq<Todo>, id: U32) {
    exists i | 0 <= i < |s| :: s[i].id == id
  }

  /** `iter().position(|todo| todo.id == id)`: the first index holding the id. */
  function Position(s: seq<Todo>, id: U32): (k: Option<nat>)
    ensures k.Some? <==> HasId(s, id)
    ensures k.Some? ==> k.value < |s| && s[k.value].id == id
    ensures k.Some? ==> forall j | 0 <= j < k.value :: s[j].id != id
    decreases |s|
  {
    if s == [] then None
    else if s[0].id == id then Some(0)
    else
      match Position(s[1..], id)
      case None => None
      case Some(j) => Some(j + 1)
  }

  /** The largest id of a non-empty sequence, folded from the left. */
  function MaxOfIds(s: seq<Todo>): (m: U32)
    requires s != []
    ensures forall i | 0 <= i < |s| :: s[i].id <= m
    ensures exists i | 0 <= i < |s| :: s[i].id == m
    decreases |s|
  {
    if |s| == 1 then s[0].id
    else
      var m := MaxOfIds(s[..|s| - 1]);
      if s[|s| - 1].id > m then s[|s| - 1].id else m
  }

  /** `iter().map(|t| t.id).max().unwrap_or(1)`. */
  function MaxId(s: seq<Todo>): (m: U32)
    ensures s == [] ==> m == 1
    ensures forall i | 0 <= i < |s| :: s[i].id <= m
    ensures s != [] ==> exists i | 0 <= i < |s| :: s[i].id == m
  {
    if s == [] then 1 else MaxOfIds(s)
  }

  /** The id `create_todo` assigns: above every stored id, and 2 in an empty store. */
  function NextId(s: seq<Todo>): (id: U32)
    requires MaxId(s) < U32_MAX
    ensures forall i | 0 <= i < |s| :: s[i].id < id
    ensures s == [] ==> id == 2
    ensures s != [] ==> exists i | 0 <= i < |s| :: id == s[i].id + 1
  {
    MaxId(s) + 1
  }

  /** What `get_todo` answers: the first todo with the id, or not-found for that id. */
  function Lookup(s: seq<Todo>, id: U32): (r: Result<Todo>)
    ensures r.Success? <==> HasId(s, id)
    ensures r.Success? ==> r.value.id == id && r.value in s
    ensures r.Success? ==> exists k | 0 <= k < |s| :: s[k] == r.value && forall j | 0 <= j < k :: s[j].id != id
    ensures r.Failure? ==> r.error == ResourceNotFound(ENTITY_NAME, id)
  {
    match Position(s, id)
    case Some(k) => Success(s[k])
    case None => Failure(ResourceNotFound(ENTITY_NAME, id))
  }

  /** The contents after `create_todo`: one new todo at the end. */
  function Created(s: seq<Todo>, input: TodoInput): (r: seq<Todo>)
    requires MaxId(s) < U32_MAX
    ensures |r| == |s| + 1 && r[..|s|] == s
    ensures r[|s|] == FromInput(NextId(s), input)
  {
    s + [FromInput(NextId(s), input)]
  }

  /** The contents after `update_todo`: text and state replaced at the first match only. */
  function Updated(s: seq<Todo>, id: U32, input: TodoInput): (r: seq<Todo>)
    requires HasId(s, id)
    ensures |r| == |s|
    ensures forall j | 0 <= j < |s| && j != Position(s, id).value :: r[j] == s[j]
    ensures r[Position(s, id).value] == FromInput(id, input)
  {
    var k := Position(s, id).value;
    s[k := s[k].(text := input.text, state := input.state)]
  }

  /** The contents after `delete_todo`: the first match removed, the rest in order. */
  function Deleted(s: seq<Todo>, id: U32): (r: seq<Todo>)
    requires HasId(s, id)
    ensures |r| == |s| - 1
    ensures r == s[..Position(s, id).value] + s[Position(s, id).value + 1..]
  {
    var k := Position(s, id).value;
    s[..k] + s[k + 1..]
  }

  class InMemoryTodoStore {

    var todos: seq<Todo>

    /** Every id is stored at most once; all operations keep this. */
    ghost predicate Valid()
      reads this
    {
      UniqueIds(todos)
    }

    /** `InMemoryTodoStore::new`. */
    constructor ()
      ensures Valid() && todos == []
    {
      todos := [];
    }

    /** `list_todos`: a copy of the contents, in insertion order. */
    method ListTodos() returns (r: Result<seq<Todo>>)
      ensures r == Success(todos)
    {
      r := Success(todos);
    }

    /** `get_todo`: `find` over a copy of the contents. */
    method GetTodo(id: U32) returns (r: Result<Todo>)
      ensures r == Lookup(todos, id)
    {
      var list := todos;
      var i := 0;
      while i < |list|
        invariant 0 <= i <= |list|
        invariant forall j | 0 <= j < i :: list[j].id != id
      {
        if list[i].id == id {
          return Success(list[i]);
        }
        i := i + 1;
      }
      r := Failure(ResourceNotFound(ENTITY_NAME, id));
    }

    /** The id scan of `create_todo`. */
    method ScanMaxId() returns (m: U32)
      ensures m == MaxId(todos)
    {
      if |todos| == 0 {
        return 1;
      }
      m := todos[0].id;
      var i := 1;
      while i < |todos|
        invariant 1 <= i <= |todos|
        invariant m == MaxOfIds(todos[..i])
      {
        assert todos[..i + 1][..i] == todos[..i];
        if todos[i].id > m {
          m := todos[i].id;
        }
        i := i + 1;
      }
      assert todos[..i] == todos;
    }

    /** The index scan of `update_todo` and `delete_todo`. */
    method FindPosition(id: U32) returns (k: Option<nat>)
      ensures k == Position(todos, id)
    {
      var i := 0;
      while i < |todos|
        invariant 0 <= i <= |todos|
        invariant forall j | 0 <= j < i :: todos[j].id != id
      {
        if todos[i].id == id {
          return Some(i);
        }
        i := i + 1;
      }
      k := None;
    }

    /** `create_todo`: appends a todo with a fresh id and returns it. */
    method CreateTodo(input: TodoInput) returns (r: Result<Todo>)
      requires MaxId(todos) < U32_MAX
      modifies this
      ensures r == Success(FromInput(NextId(old(todos)), input))
      ensures todos == Created(old(todos), input)
      ensures old(Valid()) ==> Valid()
    {
      var maxId := ScanMaxId();
      var newTodo := Todo(maxId + 1, input.text, input.state);
      if Valid() {
        CreatedKeepsUniqueIds(todos, input);
      }
      todos := todos + [newTodo];
      r := Success(newTodo);
    }

    /** `update_todo`: the id must be stored (the source unwraps the position). */
    method UpdateTodo(id: U32, input: TodoInput) returns (r: Result<Todo>)
      requires HasId(todos, id)
      modifies this
      ensures r == Success(FromInput(id, input))
      ensures todos == Updated(old(todos), id, input)
      ensures old(Valid()) ==> Valid()
    {
      var position := FindPosition(id);
      var k := position.value;
      if Valid() {
        UpdatedKeepsUniqueIds(todos, id, input);
      }
      todos := todos[k := todos[k].(state := input.state)];
      todos := todos[k := todos[k].(text := input.text)];
      r := Success(todos[k]);
    }

    /** `delete_todo`: the id must be stored (the source unwraps the position). */
    method DeleteTodo(id: U32) returns (r: Result<()>)
      requires HasId(todos, id)
      modifies this
      ensures r == Success(())
      ensures todos == Deleted(old(todos), id)
      ensures old(Valid()) ==> Valid()
    {
      var position := FindPosition(id);
      var k := position.value;
      if Valid() {
        DeletedKeepsUniqueIds(todos, id);
      }
      todos := todos[..k] + todos[k + 1..];
      r := Success(());
    }
  }

  lemma CreatedKeepsUniqueIds(s: seq<Todo>, input: TodoInput)
    requires MaxId(s) < U32_MAX && UniqueIds(s)
    ensures UniqueIds(Created(s, input))
  {
  }

  lemma UpdatedKeepsUniqueIds(s: seq<Todo>, id: U32, input: TodoInput)
    requires HasId(s, id) && UniqueIds(s)
    ensures UniqueIds(Updated(s, id, input))
  {
  }

  lemma DeletedKeepsUniqueIds(s: seq<Todo>, id: U32)
    requires HasId(s, id) && UniqueIds(s)
    ensures UniqueIds(Deleted(s, id))
  {
  }

  /** With unique ids, a lookup finds the one todo stored under the id. */
  lemma LookupFindsTheStoredTodo(s: seq<Todo>, i: nat)
    requires UniqueIds(s) && i < |s|
    ensures Lookup(s, s[i].id) == Success(s[i])
  {
  }

  /** The id of a created todo is chosen by the store alone: the input never affects it. */
  lemma CreatedIdIgnoresInput(s: seq<Todo>, a: TodoInput, b: TodoInput)
    requires MaxId(s) < U32_MAX
    ensures Created(s, a)[|s|].id == Created(s, b)[|s|].id == NextId(s)
  {
  }

  /** A new store holds nothing, so every lookup fails with the id asked for. */
  lemma EmptyLookupFails(id: U32)
    ensures Lookup([], id) == Failure(ResourceNotFound(ENTITY_NAME, id))
  {
  }

  /** The created todo is found under its new id; every other id answers as before. */
  lemma LookupAfterCreate(s: seq<Todo>, input: TodoInput, id: U32)
    requires MaxId(s) < U32_MAX
    ensures Lookup(Created(s, input), NextId(s)) == Success(FromInput(NextId(s), input))
    ensures id != NextId(s) ==> Lookup(Created(s, input), id) == Lookup(s, id)
  {
  }

  /** The updated todo is found under its id; every other id answers as before. */
  lemma LookupAfterUpdate(s: seq<Todo>, id: U32, input: TodoInput, other: U32)
    requires HasId(s, id)
    ensures Lookup(Updated(s, id, input), id) == Success(FromInput(id, input))
    ensures other != id ==> Lookup(Updated(s, id, input), other) == Lookup(s, other)
  {
  }

  /** With unique ids, a deleted id is not found again; every other id answers as before. */
  lemma LookupAfterDelete(s: seq<Todo>, id: U32, other: U32)
    requires HasId(s, id) && UniqueIds(s)
    ensures Lookup(Deleted(s, id), id) == Failure(ResourceNotFound(ENTITY_NAME, id))
    ensures other != id ==> Lookup(Deleted(s, id), other) == Lookup(s, other)
  {
    var k := Position(s, id).value;
    var d := Deleted(s, id);
    assert forall j | 0 <= j < |d| :: d[j] == if j < k then s[j] else s[j + 1];
    if other != id && HasId(s, other) {
      var p := Position(s, other).value;
      var q := if p < k then p else p - 1;
      assert d[q] == s[p];
      assert HasId(d, other);
      assert Position(d, other).value == q;
    } else if other != id {
      assert !HasId(d, other);
    }
  }
}
