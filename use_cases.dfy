/**
 The use-case layer (src/use_cases.rs): `TodoService` forwards each of the
 five operations to the store it holds and hands the store's result back
 unchanged.  The scenario methods at the end restate the unit tests of the
 service run over a fresh in-memory store.
 */
module UseCases {

  import opened Model
  import opened Errors
  import opened InMemoryStore

  /** `Ok(result?)`: propagating an error and re-wrapping a value changes nothing. */
  function Forward<T>(r: Result<T>): (o: Result<T>)
    ensures o == r
  {
    match r
    case Failure(e) => Failure(e)
    case Success(v) => Success(v)
  }

  class TodoService {

    const todoStore: InMemoryTodoStore

    /** `TodoService::new`. */
    constructor (todoStore: InMemoryTodoStore)
      ensures this.todoStore == todoStore
    {
      this.todoStore := todoStore;
    }

    method ListTodos() returns (r: Result<seq<Todo>>)
      ensures r == Success(todoStore.todos)
    {
      var result := todoStore.ListTodos();
      r := Forward(result);
    }

    method GetTodo(id: U32) returns (r: Result<Todo>)
      ensures r == Lookup(todoStore.todos, id)
    {
      var result := todoStore.GetTodo(id);
      r := Forward(result);
    }

    method CreateTodo(input: TodoInput) returns (r: Result<Todo>)
      requires MaxId(todoStore.todos) < U32_MAX
      modifies todoStore
      ensures r == Success(FromInput(NextId(old(todoStore.todos)), input))
      ensures todoStore.todos == Created(old(todoStore.todos), input)
      ensures old(todoStore.Valid()) ==> todoStore.Valid()
    {
      var result := todoStore.CreateTodo(input);
      r := Forward(result);
    }

    method UpdateTodo(id: U32, input: TodoInput) returns (r: Result<Todo>)
      requires HasId(todoStore.todos, id)
      modifies todoStore
      ensures r == Success(FromInput(id, input))
      ensures todoStore.todos == Updated(old(todoStore.todos), id, input)
      ensures old(todoStore.Valid()) ==> todoStore.Valid()
    {
      var result := todoStore.UpdateTodo(id, input);
      r := Forward(result);
    }

    method DeleteTodo(id: U32) returns (r: Result<()>)
      requires HasId(todoStore.todos, id)
      modifies todoStore
      ensures r == Success(())
      ensures todoStore.todos == Deleted(old(todoStore.todos), id)
      ensures old(todoStore.Valid()) ==> todoStore.Valid()
    {
      var result := todoStore.DeleteTodo(id);
      r := Forward(result);
    }
  }

  /** `list_todos_should_return_all_items`. */
  method ListReturnsAllItems() returns (listed: Result<seq<Todo>>)
    ensures listed.Success? && |listed.value| == 2
  {
    var store := new InMemoryTodoStore();
    var service := new TodoService(store);
    var _ := service.CreateTodo(TodoInput("First Test Item", Opened));
    var _ := service.CreateTodo(TodoInput("Second Test Item", Closed));
    listed := service.ListTodos();
  }

  /** `create_todo_should_add_new_item_into_store`. */
  method CreateAddsItem() returns (inserted: Result<Todo>, listed: Result<seq<Todo>>)
    ensures inserted.Success? && listed.Success?
    ensures |listed.value| == 1 && listed.value[0] == inserted.value
  {
    var store := new InMemoryTodoStore();
    var service := new TodoService(store);
    inserted := service.CreateTodo(TodoInput("First Test Item", Opened));
    listed := service.ListTodos();
  }

  /** `get_todo_should_return_existing_item`. */
  method GetReturnsExistingItem() returns (inserted: Result<Todo>, fetched: Result<Todo>)
    ensures inserted.Success? && fetched == inserted
  {
    var store := new InMemoryTodoStore();
    var service := new TodoService(store);
    inserted := service.CreateTodo(TodoInput("First Test Item", Opened));
    fetched := service.GetTodo(inserted.value.id);
  }

  /** `get_todo_should_return_error_on_missing_item`. */
  method GetMissingItemFails() returns (fetched: Result<Todo>)
    ensures fetched == Failure(ResourceNotFound("todo", 999))
  {
    var store := new InMemoryTodoStore();
    var service := new TodoService(store);
    fetched := service.GetTodo(999);
  }

  /**
   Create, read back, delete, read again: the first id of the in-memory store
   is 2, and the final read is a 404 problem with the not-found code.
   */
  method CreateGetDeleteGet()
    returns (created: Result<Todo>, fetched: Result<Todo>, deleted: Result<()>, refetched: Result<Todo>)
    ensures created == Success(Todo(2, "Buy milk", Opened))
    ensures fetched == created && deleted == Success(())
    ensures refetched.Failure? && refetched.error == ResourceNotFound("todo", 2)
    ensures ToApiProblem(refetched.error).status == 404
    ensures ToApiProblem(refetched.error).errorCode == "error.entity.not-found"
  {
    var store := new InMemoryTodoStore();
    var service := new TodoService(store);
    created := service.CreateTodo(TodoInput("Buy milk", Opened));
    fetched := service.GetTodo(created.value.id);
    deleted := service.DeleteTodo(created.value.id);
    refetched := service.GetTodo(created.value.id);
  }
}
