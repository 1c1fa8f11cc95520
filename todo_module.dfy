/**
 * The todo sample module: a todo record with its dictionary form and a
 * global id counter, the channels its events class declares, the API calls
 * it sends, and the native list that follows the web side's events.
 */
module TodoModule {
  import opened Wrappers
  import opened Json
  import Bridge
  import JsonParser

  // ---------------------------------------------------------------------
  // Todos and their dictionary form

  /** The global `todoIdCounter`. */
  class IdCounter {
    var value: int

    constructor ()
      ensures value == 0
    {
      value := 0;
    }
  }

  /** What a todo holds, as a value. */
  datatype TodoData = TodoData(id: int, description: string, completed: bool)

  /** The dictionary entries, of the types, that `Todo(json:)` force-casts. */
  predicate IsTodoJson(json: map<string, Value>) {
    && "id" in json && json["id"].Number?
    && "description" in json && json["description"].String?
    && "completed" in json && json["completed"].Bool?
  }

  /** The dictionary `toJson()` builds. */
  function EncodeTodo(d: TodoData): map<string, Value> {
    map["description" := String(d.description), "completed" := Bool(d.completed), "id" := Number(d.id)]
  }

  /** What `Todo(json:)` reads from a dictionary. */
  function DecodeTodo(json: map<string, Value>): TodoData
    requires IsTodoJson(json)
  {
    TodoData(json["id"].n, json["description"].s, json["completed"].b)
  }

  /** `toJson()` has exactly three keys, and reading it back gives the same todo. */
  lemma DecodeEncode(d: TodoData)
    ensures EncodeTodo(d).Keys == {"description", "completed", "id"}
    ensures IsTodoJson(EncodeTodo(d)) && DecodeTodo(EncodeTodo(d)) == d
  {
  }

  /** A dictionary with exactly the three keys is the `toJson()` of what it decodes to. */
  lemma EncodeDecode(json: map<string, Value>)
    requires IsTodoJson(json) && json.Keys == {"description", "completed", "id"}
    ensures EncodeTodo(DecodeTodo(json)) == json
  {
    var e := EncodeTodo(DecodeTodo(json));
    assert e.Keys == json.Keys;
    assert forall k | k in json :: e[k] == json[k] by {
      assert json["description"] == String(json["description"].s);
      assert json["completed"] == Bool(json["completed"].b);
      assert json["id"] == Number(json["id"].n);
    }
  }

  /** The class `Todo`; `id` and `description` are never reassigned. */
  class Todo {
    const id: int
    const description: string
    var completed: bool

    /** `init(description:completed:)`: takes the next id from the counter. */
    constructor (description: string, completed: bool, counter: IdCounter)
      modifies counter
      ensures counter.value == old(counter.value) + 1
      ensures Data() == TodoData(counter.value, description, completed)
    {
      counter.value := counter.value + 1;
      id := counter.value;
      this.description := description;
      this.completed := completed;
    }

    /** `init(json:)`: reads the three entries and sets the counter to the id read. */
    constructor FromJson(json: map<string, Value>, counter: IdCounter)
      requires IsTodoJson(json)
      modifies counter
      ensures Data() == DecodeTodo(json)
      ensures counter.value == id
    {
      id := json["id"].n;
      description := json["description"].s;
      completed := json["completed"].b;
      new;
      counter.value := id;
    }

    function Data(): TodoData
      reads this
    {
      TodoData(id, description, completed)
    }

    function ToJson(): map<string, Value>
      reads this
    {
      EncodeTodo(Data())
    }
  }

  /** Successive todos made with `init(description:completed:)` get strictly increasing ids. */
  method NewTodosIncrease(counter: IdCounter) returns (first: Todo, second: Todo)
    modifies counter
    ensures first.id < second.id && second.id == old(counter.value) + 2
  {
    first := new Todo("", false, counter);
    second := new Todo("", false, counter);
  }

  /** `Todo(json: todo.toJson())` copies the todo and moves the counter to its id. */
  method CopyThroughJson(todo: Todo, counter: IdCounter) returns (copy: Todo)
    modifies counter
    ensures fresh(copy) && copy.Data() == todo.Data() && counter.value == todo.id
  {
    DecodeEncode(todo.Data());
    copy := new Todo.FromJson(todo.ToJson(), counter);
  }

  // ---------------------------------------------------------------------
  // Events

  /** The fields of `TodoEvents`, in declaration order. */
  const TodoEvents: seq<Bridge.EventField> := [
    Bridge.EventField("todoCreated", Bridge.EventOf(Bridge.ObjectShape)),
    Bridge.EventField("todoDeleted", Bridge.EventOf(Bridge.ObjectShape)),
    Bridge.EventField("todoCompleted", Bridge.EventOf(Bridge.ObjectShape)),
    Bridge.EventField("todoListCleared", Bridge.EventOf(Bridge.AnyShape))
  ]

  /** The channels of `TodoEvents`, and the one type each accepts. */
  lemma {:induction false} FourChannelRouting(key: string, shape: Bridge.Shape)
    ensures Bridge.Resolve(TodoEvents, key, shape).Some? <==>
      || (key in {"todoCreated", "todoDeleted", "todoCompleted"} && shape == Bridge.ObjectShape)
      || (key == "todoListCleared" && shape == Bridge.AnyShape)
  {
    if key == "todoCreated" {
      Bridge.ResolveFirst(TodoEvents, key, shape, 0);
    } else if key == "todoDeleted" {
      Bridge.ResolveFirst(TodoEvents, key, shape, 1);
    } else if key == "todoCompleted" {
      Bridge.ResolveFirst(TodoEvents, key, shape, 2);
    } else if key == "todoListCleared" {
      Bridge.ResolveFirst(TodoEvents, key, shape, 3);
    } else {
      Bridge.ResolveMissing(TodoEvents, key, shape);
    }
  }

  /** `todoListCleared` is raised only for data that narrows to `Any`: none, `null`, a boolean or a foreign value. */
  lemma ClearedNeedsRawData(data: Option<Value>)
    ensures Bridge.Resolve(TodoEvents, "todoListCleared", Bridge.Narrow(data).Shape()).Some? <==>
      data.None? || data.value.Null? || data.value.Bool? || data.value.Foreign?
  {
    FourChannelRouting("todoListCleared", Bridge.Narrow(data).Shape());
    Bridge.NarrowRaw(data);
  }

  /** The three todo channels are raised exactly for dictionary data. */
  lemma TodoChannelsNeedObjects(key: string, data: Option<Value>)
    requires key in {"todoCreated", "todoDeleted", "todoCompleted"}
    ensures Bridge.Resolve(TodoEvents, key, Bridge.Narrow(data).Shape()).Some? <==> data.Some? && data.value.Object?
  {
    FourChannelRouting(key, Bridge.Narrow(data).Shape());
    Bridge.NarrowFirstFit(data);
    Bridge.FirstFitNarrowingOrder(data.GetOr(Null));
  }

  // ---------------------------------------------------------------------
  // API

  /** The web side's todo API methods. */
  datatype TodoApiMethods = CompleteTodo | DeleteTodo | CreateTodo | ClearTodoList {
    function RawValue(): string {
      match this
      case CompleteTodo => "completeTodo"
      case DeleteTodo => "deleteTodo"
      case CreateTodo => "createTodo"
      case ClearTodoList => "clearTodoList"
    }
  }

  /** Distinct methods have distinct names, so every outbound call names one method. */
  lemma TodoApiMethodsDistinct(a: TodoApiMethods, b: TodoApiMethods)
    ensures a.RawValue() == b.RawValue() ==> a == b
  {
  }

  /** The positional arguments `[todo.toJson()]`. */
  function TodoArgs(d: TodoData): Value {
    Array([Object(EncodeTodo(d))])
  }

  /** The arguments always serialise, and their single element reads back as the todo. */
  lemma TodoArgsRoundTrip(d: TodoData)
    ensures Representable(TodoArgs(d))
    ensures |TodoArgs(d).elems| == 1 && TodoArgs(d).elems[0].Object?
    ensures IsTodoJson(TodoArgs(d).elems[0].fields) && DecodeTodo(TodoArgs(d).elems[0].fields) == d
  {
    var o := EncodeTodo(d);
    assert forall k | k in o :: Representable(o[k]);
    assert Representable(Object(o));
  }

  /** A todo call from the todo module always produces one script, carrying the method name and the todo. */
  lemma TodoCallScript(m: TodoApiMethods, d: TodoData)
    requires m != ClearTodoList
    ensures Bridge.Script(Bridge.Todo, m.RawValue(), TodoArgs(d)).Some?
    ensures JsonParser.Decode(Bridge.Detail(Bridge.Script(Bridge.Todo, m.RawValue(), TodoArgs(d)).value).value)
      == Some(Bridge.Payload(Bridge.Todo, m.RawValue(), TodoArgs(d)))
  {
    TodoArgsRoundTrip(d);
    Bridge.ScriptCarriesPayload(Bridge.Todo, m.RawValue(), TodoArgs(d));
  }

  /** `deleteTodo(todo:)`. */
  method DeleteTodoCall(api: Bridge.ModuleApi, todo: Todo)
    modifies api.Sink()
    ensures api.Sink() != null ==>
      && api.delegate != null
      && api.Sink().evaluated == old(api.Sink().evaluated)
        + Bridge.Script(api.delegate.moduleType, DeleteTodo.RawValue(), TodoArgs(todo.Data())).ToSeq()
  {
    api.SendApiCall(DeleteTodo.RawValue(), TodoArgs(todo.Data()));
  }

  /** `createTodo(todo:)`. */
  method CreateTodoCall(api: Bridge.ModuleApi, todo: Todo)
    modifies api.Sink()
    ensures api.Sink() != null ==>
      && api.delegate != null
      && api.Sink().evaluated == old(api.Sink().evaluated)
        + Bridge.Script(api.delegate.moduleType, CreateTodo.RawValue(), TodoArgs(todo.Data())).ToSeq()
  {
    api.SendApiCall(CreateTodo.RawValue(), TodoArgs(todo.Data()));
  }

  /** `completeTodo(todo:)`. */
  method CompleteTodoCall(api: Bridge.ModuleApi, todo: Todo)
    modifies api.Sink()
    ensures api.Sink() != null ==>
      && api.delegate != null
      && api.Sink().evaluated == old(api.Sink().evaluated)
        + Bridge.Script(api.delegate.moduleType, CompleteTodo.RawValue(), TodoArgs(todo.Data())).ToSeq()
  {
    api.SendApiCall(CompleteTodo.RawValue(), TodoArgs(todo.Data()));
  }

  /** `clearTodoList()`: no arguments, so an empty array. */
  method ClearTodoListCall(api: Bridge.ModuleApi)
    modifies api.Sink()
    ensures api.Sink() != null ==>
      && api.delegate != null
      && api.Sink().evaluated == old(api.Sink().evaluated)
        + Bridge.Script(api.delegate.moduleType, ClearTodoList.RawValue(), Array([])).ToSeq()
  {
    api.SendApiCall(ClearTodoList.RawValue(), Array([]));
  }

  // ---------------------------------------------------------------------
  // The list

  /** No todo object appears twice. */
  predicate Distinct(ts: seq<Todo>) {
    forall i, j :: 0 <= i < j < |ts| ==> ts[i] != ts[j]
  }

  /** `ts.filter { $0.id != id }`. */
  function WithoutId(ts: seq<Todo>, id: int): seq<Todo> {
    if ts == [] then []
    else WithoutId(ts[..|ts| - 1], id) + if ts[|ts| - 1].id != id then [ts[|ts| - 1]] else []
  }

  /** `ts.first { $0.id == id }`, as an index. */
  function FirstWithId(ts: seq<Todo>, id: int): (r: Option<nat>)
    ensures r.Some? ==> r.value < |ts| && ts[r.value].id == id
    ensures r.Some? ==> forall j :: 0 <= j < r.value ==> ts[j].id != id
    ensures r.None? ==> forall j :: 0 <= j < |ts| ==> ts[j].id != id
  {
    if ts == [] then None
    else if ts[0].id == id then Some(0)
    else match FirstWithId(ts[1..], id)
      case Some(i) => Some(i + 1)
      case None => None
  }

  /** The filter keeps exactly the todos whose id differs. */
  lemma {:induction false} WithoutIdMember(ts: seq<Todo>, id: int, t: Todo)
    ensures t in WithoutId(ts, id) <==> t in ts && t.id != id
  {
    if ts != [] {
      WithoutIdMember(ts[..|ts| - 1], id, t);
      assert ts == ts[..|ts| - 1] + [ts[|ts| - 1]];
    }
  }

  /** The filter works element by element: the kept todos stay in their original order. */
  lemma {:induction false} WithoutIdAppend(a: seq<Todo>, b: seq<Todo>, id: int)
    ensures WithoutId(a + b, id) == WithoutId(a, id) + WithoutId(b, id)
  {
    if b == [] {
      assert a + b == a;
    } else {
      var c := b[..|b| - 1];
      assert (a + b)[..|a + b| - 1] == a + c;
      assert (a + b)[|a + b| - 1] == b[|b| - 1];
      WithoutIdAppend(a, c, id);
    }
  }

  /** A list with no todo of that id is left as it is. */
  lemma {:induction false} WithoutIdNone(ts: seq<Todo>, id: int)
    requires forall j :: 0 <= j < |ts| ==> ts[j].id != id
    ensures WithoutId(ts, id) == ts
  {
    if ts != [] {
      WithoutIdNone(ts[..|ts| - 1], id);
    }
  }

  /** The filter never lengthens the list. */
  lemma {:induction false} WithoutIdShorter(ts: seq<Todo>, id: int)
    ensures |WithoutId(ts, id)| <= |ts|
  {
    if ts != [] {
      WithoutIdShorter(ts[..|ts| - 1], id);
    }
  }

  /** Deleting the same id twice is the same as deleting it once. */
  lemma WithoutIdIdempotent(ts: seq<Todo>, id: int)
    ensures WithoutId(WithoutId(ts, id), id) == WithoutId(ts, id)
  {
    var r := WithoutId(ts, id);
    forall j | 0 <= j < |r|
      ensures r[j].id != id
    {
      WithoutIdMember(ts, id, r[j]);
    }
    WithoutIdNone(r, id);
  }

  /** Filtering keeps todo objects distinct. */
  lemma {:induction false} WithoutIdDistinct(ts: seq<Todo>, id: int)
    requires Distinct(ts)
    ensures Distinct(WithoutId(ts, id))
  {
    if ts != [] {
      var init := ts[..|ts| - 1];
      var last := ts[|ts| - 1];
      WithoutIdDistinct(init, id);
      WithoutIdMember(init, id, last);
      assert last !in init;
    }
  }

  /** The native todo list: the todos shown and the module's API and events objects. */
  class TodoListVC {
    var todos: seq<Todo>
    var api: Bridge.ModuleApi?
    var events: Bridge.ModuleEvents?

    ghost predicate Valid()
      reads this
    {
      Distinct(todos)
    }

    /** `init(module:)`: takes the module's API and events objects. */
    constructor (m: Bridge.Module)
      ensures Valid() && todos == [] && api == m.api && events == m.events
    {
      todos := [];
      api := m.api;
      events := m.events;
    }

    /** Where the list's API calls end up, if anywhere. */
    function Sink(): Bridge.ScriptSink?
      reads this, api, if api == null then null else api.delegate
      reads if api == null || api.delegate == null then null else api.delegate.bridge
    {
      if api == null then null else api.Sink()
    }

    /** `tableView(_:numberOfRowsInSection:)`: one row per todo. */
    function NumberOfRows(): nat
      reads this
    {
      |todos|
    }

    /** `onTodoCreated(todoJson:)`: appends the todo read from the payload. */
    method OnTodoCreated(todoJson: map<string, Value>, counter: IdCounter)
      requires Valid() && IsTodoJson(todoJson)
      modifies this, counter
      ensures Valid() && api == old(api) && events == old(events)
      ensures NumberOfRows() == old(NumberOfRows()) + 1 && todos[..|old(todos)|] == old(todos)
      ensures fresh(todos[|todos| - 1]) && todos[|todos| - 1].Data() == DecodeTodo(todoJson)
      ensures counter.value == todoJson["id"].n
    {
      var todo := new Todo.FromJson(todoJson, counter);
      todos := todos + [todo];
      assert todos[..|old(todos)|] == old(todos);
    }

    /**
     * `onTodoDeleted(todoJson:)`: keeps the todos whose id differs from the
     * payload's, in order. The filter reads the payload once per element, so
     * the counter moves to the payload's id only when the list is not empty.
     */
    method OnTodoDeleted(todoJson: map<string, Value>, counter: IdCounter)
      requires Valid() && IsTodoJson(todoJson)
      modifies this, counter
      ensures Valid() && api == old(api) && events == old(events)
      ensures todos == WithoutId(old(todos), todoJson["id"].n)
      ensures NumberOfRows() <= old(NumberOfRows())
      ensures counter.value == if old(todos) == [] then old(counter.value) else todoJson["id"].n
    {
      var id := todoJson["id"].n;
      var kept: seq<Todo> := [];
      var i := 0;
      while i < |todos|
        invariant 0 <= i <= |todos| && todos == old(todos)
        invariant api == old(api) && events == old(events)
        invariant kept == WithoutId(todos[..i], id)
        invariant counter.value == if i == 0 then old(counter.value) else id
      {
        var probe := new Todo.FromJson(todoJson, counter);
        assert todos[..i + 1][..i] == todos[..i];
        if todos[i].id != probe.id {
          kept := kept + [todos[i]];
        }
        i := i + 1;
      }
      assert todos[..i] == todos;
      WithoutIdDistinct(todos, id);
      WithoutIdShorter(todos, id);
      todos := kept;
    }

    /** `onTodoListCleared(_:)`: empties the list whatever the payload. */
    method OnTodoListCleared(data: Bridge.Narrowed)
      modifies this
      ensures Valid() && todos == [] && api == old(api) && events == old(events)
      ensures NumberOfRows() == 0
    {
      todos := [];
    }

    /**
     * `onTodoCompleted(todoJson:)`: marks the first todo with the payload's id
     * as completed (whatever the payload's own flag says); nothing else changes.
     */
    method OnTodoCompleted(todoJson: map<string, Value>, counter: IdCounter)
      requires Valid() && IsTodoJson(todoJson)
      modifies counter, todos
      ensures Valid() && todos == old(todos)
      ensures counter.value == todoJson["id"].n
      ensures match FirstWithId(todos, todoJson["id"].n)
        case Some(k) =>
          && todos[k].completed
          && forall j | 0 <= j < |todos| && j != k :: todos[j].completed == old(todos[j].completed)
        case None =>
          forall j | 0 <= j < |todos| :: todos[j].completed == old(todos[j].completed)
    {
      var completedTodo := new Todo.FromJson(todoJson, counter);
      var k := FirstWithId(todos, completedTodo.id);
      if k.Some? {
        todos[k.value].completed := true;
      }
    }

    /** `todoCompleteValueChanged(sender:)` for the switch in `row`, now `isOn`. */
    method TodoCompleteValueChanged(row: nat, isOn: bool)
      requires Valid() && row < |todos|
      modifies todos[row], Sink()
      ensures Valid() && todos == old(todos)
      ensures todos[row].completed == isOn
      ensures forall j | 0 <= j < |todos| && j != row :: todos[j].completed == old(todos[j].completed)
      ensures Sink() != null ==>
        && api != null
        && api.delegate != null
        && Sink().evaluated == old(Sink().evaluated)
          + Bridge.Script(api.delegate.moduleType, CompleteTodo.RawValue(), TodoArgs(todos[row].Data())).ToSeq()
    {
      var todo := todos[row];
      todo.completed := isOn;
      if api != null {
        CompleteTodoCall(api, todo);
      }
    }

    /**
     * `tableView(_:commit:forRowAt:)`: for a delete, removes the row and sends
     * `deleteTodo` with it. With no API object the whole call is skipped, the
     * removal included, since optional chaining does not evaluate arguments.
     */
    method CommitDelete(style: EditingStyle, row: nat)
      requires Valid()
      requires style == Delete && api != null ==> row < |todos|
      modifies this, Sink()
      ensures Valid() && api == old(api) && events == old(events)
      ensures if style == Delete && api != null then
          && todos == old(todos[..row] + todos[row + 1..])
          && NumberOfRows() == old(NumberOfRows()) - 1
          && (Sink() != null ==>
            && api.delegate != null
            && Sink().evaluated == old(Sink().evaluated)
              + Bridge.Script(api.delegate.moduleType, DeleteTodo.RawValue(), TodoArgs(old(todos[row]).Data())).ToSeq())
        else todos == old(todos) && (Sink() != null ==> Sink().evaluated == old(Sink().evaluated))
    {
      if style == Delete && api != null {
        var removed := todos[row];
        todos := todos[..row] + todos[row + 1..];
        assert forall j | 0 <= j < |todos| :: todos[j] == old(todos)[if j < row then j else j + 1];
        DeleteTodoCall(api, removed);
      }
    }

    /** `textFieldShouldReturn(_:)`: asks the web side to create a todo with the typed text. */
    method TextFieldShouldReturn(text: Option<string>, counter: IdCounter) returns (r: bool)
      modifies counter, Sink()
      ensures !r
      ensures counter.value == if api != null then old(counter.value) + 1 else old(counter.value)
      ensures Sink() != null ==>
        && api != null
        && api.delegate != null
        && Sink().evaluated == old(Sink().evaluated)
          + Bridge.Script(api.delegate.moduleType, CreateTodo.RawValue(), TodoArgs(TodoData(counter.value, text.GetOr(""), false))).ToSeq()
    {
      if api != null {
        var todo := new Todo(text.GetOr(""), false, counter);
        CreateTodoCall(api, todo);
      }
      return false;
    }

    /** The "Clear" button: `clearTodoList()`. */
    method ClearButtonTapped()
      modifies Sink()
      ensures Sink() != null ==>
        && api != null
        && api.delegate != null
        && Sink().evaluated == old(Sink().evaluated)
          + Bridge.Script(api.delegate.moduleType, ClearTodoList.RawValue(), Array([])).ToSeq()
    {
      if api != null {
        ClearTodoListCall(api);
      }
    }
  }

  /** `UITableViewCellEditingStyle`. */
  datatype EditingStyle = NoEditing | Delete | Insert
}
