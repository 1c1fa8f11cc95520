# Swiftdart bridge, modelled in Dafny

Swiftdart is an iOS app in which a native Swift layer and a Dart web
application in a `WKWebView` talk through a small message router, the
`Bridge`. Messages from the web side arrive as script-message bodies: a
dictionary naming a `module`, an `event` and optional `data`. The bridge
checks the two routing fields and finds the registered module. It narrows
`data` to the first of a fixed list of Swift types that fits. The module
then raises the field of its events class that has the event's name, but
only when that field's type is exactly `Event<T>` for the narrowed `T`.

Going the other way, a module's API object sends a call (method name plus
positional arguments) through its delegate, the module. The module asks the
bridge to wrap the call in a `{module, method, data}` envelope. The bridge
serialises the envelope to JSON, substitutes it into a fixed
`CustomEvent('bridge', …)` script template and hands the script to the
script evaluator.

Two sample modules use the bridge:

- **Todo module.** A `Todo` record with a dictionary form and a global id
  counter. The `TodoEvents` channel table. The `TodoApi` calls. A native
  list controller whose event handlers keep its `todos` array in step with
  the web side.
- **Content-renderer module.** Three zoom calls with no arguments, and the
  same four-channel events table.

The Dafny modules follow the source files:

- `Wrappers`: `Option`.
- `Json`: the untyped values that cross the bridge, and their JSON rendering.
- `StringOrder`: the key order the serialiser uses.
- `JsonParser`: a JSON reader, and the serialiser, whose output it reads back.
- `Bridge`: `Bridge.swift`, covering the module types, narrowing, events
  tables, outbound scripts, and the `Module`, `ModuleApi` and `Bridge`
  classes.
- `TodoModule`: `TodoModule.swift`.
- `ContentRendererModule`: `ContentRendererModule.swift`.

Some things are modelled in a specific way:

- **Swift values.** Swift's `Any` is the datatype `Json.Value`. Its values
  are `null`, booleans, integers, strings, arrays, string-keyed
  dictionaries, and a `Foreign` value that has no JSON form.
- **Events classes.** An events class is not read by reflection. It is a
  table of labelled fields in declaration order. Each field is an
  `Event<T>` for one of the narrowing types, or some other property.
- **`Event<T>.raise`.** It appends a delivery (channel name and data) to the
  events object's log.
- **The script evaluator.** It is the `ScriptSink` class, which records the
  scripts it is given.
- **The todo list's state.** It is a class with a `seq<Todo>` field. The
  handlers change that field in place, as the Swift code does.
- **Array narrowing.** The chain of casts tries `[Any]` before `[String]`.
  Every array that reaches the `[String]` test has already passed `[Any]`,
  so that branch can never be chosen. The model keeps the branch as dead
  code and proves it dead (`Bridge.NarrowNeverStringArray`).
- **The `""` module id.** The enum names the case with raw value `""`
  `Unknown`, which suggests it is not meant to route. The code does not
  enforce that: a module of type `Unknown` registers under `""` and
  receives messages like any other, and the model does the same.

## Model

| member | source | states |
|---|---|---|
| Bridge.ModuleTypeOf | Swiftdart/Bridge.swift:105-109 | `ModuleType(rawValue:)` recognises exactly `""`, `"contentRenderer"` and `"todo"`, and the type it returns has that raw value |
| Bridge.ModuleTypeRoundTrip | Swiftdart/Bridge.swift:105-109 | every module type is recovered from its raw value, so no two types share a registry key |
| Bridge.ReadMessage | Swiftdart/Bridge.swift:53-54 | a message is read exactly when the body is a string-keyed dictionary whose `module` and `event` entries exist and are strings; it carries those two strings and the `data` entry, if any |
| Bridge.FirstFit | Swiftdart/Bridge.swift:58-73 | the reference choice of narrowing: the first type in an order that the value fits, else `Any` |
| Bridge.FirstFitEarliest | Swiftdart/Bridge.swift:58-73 | no type that fits comes before the one `FirstFit` chooses: the choice is the earliest fit in the order |
| Bridge.Narrow | Swiftdart/Bridge.swift:58-73 | the cast chain written out, including the dead `[String]` branch; its meaning is given by `NarrowFirstFit`, `NarrowPayload`, `NarrowIntArray`, `NarrowAnyArray`, `NarrowNeverStringArray` and `NarrowRaw` |
| Bridge.NarrowFirstFit | Swiftdart/Bridge.swift:58-73 | narrowing picks the first of Int, String, `[String: Any]`, `[Int]`, `[Any]`, `[String]` that the data fits, and `Any` when none does |
| Bridge.NarrowPayload | Swiftdart/Bridge.swift:58-73 | narrowing changes only the static type: the data handed on stands for the message's `data`, or for `NSNull` when it is absent |
| Bridge.Ints | Swiftdart/Bridge.swift:64 | the `[Int]` cast of an all-integer array keeps its length and every element |
| Bridge.NarrowIntArray | Swiftdart/Bridge.swift:64-65 | an empty array or an all-integer array is delivered as `[Int]`, with the same integers |
| Bridge.NarrowAnyArray | Swiftdart/Bridge.swift:66-67 | an array with any non-integer element, an all-string array included, is delivered as `[Any]` unchanged |
| Bridge.NarrowNeverStringArray | Swiftdart/Bridge.swift:66-70 | the `[String]` branch is never chosen, because every value that fits `[String]` also fits the earlier `[Any]` |
| Bridge.NarrowRaw | Swiftdart/Bridge.swift:71-73 | data falls through to the raw `Any` branch exactly when it is missing, `null`, a boolean or a foreign value; missing data is delivered as `null` |
| Bridge.FirstLabel | Swiftdart/Bridge.swift:27-31 | the index found is the first field with the searched label, and none is found only when no field has it |
| Bridge.Resolve | Swiftdart/Bridge.swift:27-31 | the typed lookup `events.valueForKey(key:) as Event<T>?` of line 140; its meaning is given by `ResolveFirst` and `ResolveMissing`, and `ModuleEvents.ValueForKey` is proved to compute it |
| Bridge.ResolveFirst | Swiftdart/Bridge.swift:27-30 | a field is resolved only if it is the first with its label and its type is exactly `Event<T>` for the requested `T`; a first field of another type gives no event |
| Bridge.ResolveMissing | Swiftdart/Bridge.swift:33 | a label that no field has resolves to nothing |
| Bridge.ModuleEvents.ValueForKey | Swiftdart/Bridge.swift:23-34 | the scan over the fields in order, returning at the first matching label, finds exactly the resolved field |
| Bridge.ModuleEvents.constructor | Swiftdart/Bridge.swift:162-166 | an events object has its class's fields and has delivered nothing |
| Bridge.ModuleEvents.Raise | Swiftdart/Bridge.swift:142 | raising a field appends one delivery with the field's name and the data, and nothing else |
| Bridge.Module.DidRecieveEvent | Swiftdart/Bridge.swift:139-144 | one delivery is appended exactly when the events table resolves the channel for the data's type; otherwise, or without an events object, nothing changes |
| Bridge.Module.constructor | Swiftdart/Bridge.swift:119-123 | a new module has its type, no bridge, a fresh API object whose delegate is the module, and a fresh, empty events object for its table |
| Bridge.Module.CommonInit | Swiftdart/Bridge.swift:125-129 | creates the API object, points its delegate at the module, and creates the events object; the bridge reference is unchanged |
| Bridge.Module.SendApiCall | Swiftdart/Bridge.swift:146-151 | the call is forwarded under the module's own type: the evaluator receives that call's script, and nothing happens without a bridge |
| Bridge.ModuleApi.constructor | Swiftdart/Bridge.swift:154-160 | a new API object has no delegate |
| Bridge.ModuleApi.SendApiCall | Swiftdart/Bridge.swift:155 | `delegate?.sendApiCall`: a script reaches an evaluator only through a delegate, and it is the script for the delegate's module type |
| Bridge.Bridge.constructor | Swiftdart/Bridge.swift:47-49 | a new bridge has an empty registry and no evaluator |
| Bridge.Bridge.Recipient | Swiftdart/Bridge.swift:53-58 | the events object a message body is delivered to: the registered module's, when the body reads as a message, the module is registered and its table resolves the channel for the narrowed data; `UserContentController` delivers to it and to no other |
| Bridge.Bridge.UserContentController | Swiftdart/Bridge.swift:51-77 | the registry is unchanged; the one recipient (the registered module for a well-formed body whose channel resolves for the narrowed data) gets exactly one delivery of the event name and the narrowed data; every other events object is unchanged, so bad bodies, unregistered modules and unresolved channels are dropped |
| Bridge.Bridge.RegisterModule | Swiftdart/Bridge.swift:79-82 | afterwards the module's raw type maps to the module, replacing any earlier entry; no other key is added or changed; the module's bridge is this bridge |
| Bridge.Bridge.SendApiCall | Swiftdart/Bridge.swift:84-102 | the evaluator receives the script for the envelope when the envelope serialises, and nothing when it has no JSON form (see the `Bridge.Bridge.SendApiCall` line under Left out) |
| Bridge.ScriptSink.constructor | Swiftdart/Bridge.swift:49 | a new evaluator has evaluated nothing |
| Bridge.ScriptSink.EvaluateJS | Swiftdart/Bridge.swift:97 | evaluating a script appends it to the evaluator's record |
| Bridge.Payload | Swiftdart/Bridge.swift:85-89 | the envelope dictionary; its keys and values are given by `PayloadFields`, and when it serialises by `PayloadRepresentable` |
| Bridge.Format | Swiftdart/Bridge.swift:96 | `String(format: jsString, json)`; `DetailFormat` proves the substituted JSON can be read back out |
| Bridge.Script | Swiftdart/Bridge.swift:92-96 | the script for an API call, or none when the envelope has no JSON form; `ScriptCarriesPayload` proves when it exists and that its JSON decodes to the envelope |
| Bridge.DetailFormat | Swiftdart/Bridge.swift:44-45 | the script template loses nothing: the JSON substituted into it can be read back out |
| Bridge.PayloadFields | Swiftdart/Bridge.swift:85-89 | the envelope has exactly the keys `module`, `method` and `data`, holding the module's raw value, the method name and the data unchanged |
| Bridge.PayloadRepresentable | Swiftdart/Bridge.swift:85-92 | the envelope can be serialised exactly when the data can |
| Bridge.ScriptCarriesPayload | Swiftdart/Bridge.swift:84-98 | a script is produced exactly when the data can be serialised, and the JSON inside the script decodes back to the envelope |
| JsonParser.Serialize | Swiftdart/Bridge.swift:92 | serialisation succeeds exactly for values with a JSON form, and the text it produces reads back as the value serialised |
| JsonParser.ValueRoundTrip | Swiftdart/Bridge.swift:92 | the reader takes exactly one rendered value off the front of a text, when what follows is a delimiter or the end |
| JsonParser.StringRoundTrip | Swiftdart/Bridge.swift:92 | a quoted, escaped string reads back as the original string |
| JsonParser.IntRoundTrip | Swiftdart/Bridge.swift:92 | a rendered integer, negative or not, reads back as itself when no digit follows it |
| StringOrder.SortedKeys | Swiftdart/Bridge.swift:92 | the dictionary keys are written once each, in strictly increasing order |
| TodoModule.IdCounter.constructor | Swiftdart/TodoModule.swift:8 | the global counter starts at 0 |
| TodoModule.Todo.constructor | Swiftdart/TodoModule.swift:15-20 | the counter rises by exactly one and the new todo's id is the new counter value, with the given description and flag |
| TodoModule.Todo.FromJson | Swiftdart/TodoModule.swift:22-27 | the todo holds the dictionary's id, description and flag, and the counter is set to that id |
| TodoModule.NewTodosIncrease | Swiftdart/TodoModule.swift:15-20 | two successive todos get strictly increasing ids |
| TodoModule.EncodeTodo | Swiftdart/TodoModule.swift:29-35 | the dictionary `toJson()` builds; `DecodeEncode` and `EncodeDecode` prove it inverse to `DecodeTodo` |
| TodoModule.DecodeTodo | Swiftdart/TodoModule.swift:22-25 | the entries `init(json:)` reads, under its force casts as a precondition; `DecodeEncode` and `EncodeDecode` prove it inverse to `EncodeTodo` |
| TodoModule.Todo.ToJson | Swiftdart/TodoModule.swift:29-35 | `toJson()` of a todo, the encoding of its data; `CopyThroughJson` proves `Todo(json:)` of it copies the todo |
| TodoModule.DecodeEncode | Swiftdart/TodoModule.swift:22-35 | `toJson()` has exactly the keys `description`, `completed` and `id`, and reading it back gives the same todo |
| TodoModule.EncodeDecode | Swiftdart/TodoModule.swift:22-35 | a dictionary with exactly those three keys, of the right types, is the `toJson()` of the todo read from it |
| TodoModule.CopyThroughJson | Swiftdart/TodoModule.swift:22-35 | `Todo(json: t.toJson())` is a fresh todo with the same id, description and flag, and moves the counter to that id |
| TodoModule.FourChannelRouting | Swiftdart/TodoModule.swift:39-44 | `todoCreated`, `todoDeleted` and `todoCompleted` are raised for exactly dictionary data, `todoListCleared` for exactly `Any`, and no other channel is raised |
| TodoModule.TodoChannelsNeedObjects | Swiftdart/TodoModule.swift:40-42 | after narrowing, the three todo channels are raised exactly when the message data is a dictionary |
| TodoModule.ClearedNeedsRawData | Swiftdart/TodoModule.swift:43 | after narrowing, `todoListCleared` is raised exactly when the data is missing, `null`, a boolean or a foreign value |
| TodoModule.TodoApiMethodsDistinct | Swiftdart/TodoModule.swift:66-71 | the four API method names are pairwise distinct |
| TodoModule.TodoArgs | Swiftdart/TodoModule.swift:49 | the arguments `[todo.toJson()]`; `TodoArgsRoundTrip` proves they serialise and read back as the todo |
| TodoModule.TodoArgsRoundTrip | Swiftdart/TodoModule.swift:48-58 | the arguments `[todo.toJson()]` always serialise, and hold one dictionary that reads back as the todo |
| TodoModule.TodoCallScript | Swiftdart/TodoModule.swift:48-58 | every todo-carrying call from the todo module produces a script whose envelope holds the method name and `[todo.toJson()]` |
| TodoModule.DeleteTodoCall | Swiftdart/TodoModule.swift:48-50 | sends `deleteTodo` with `[todo.toJson()]` through the delegate, and nothing without one |
| TodoModule.CreateTodoCall | Swiftdart/TodoModule.swift:52-54 | sends `createTodo` with `[todo.toJson()]` through the delegate |
| TodoModule.CompleteTodoCall | Swiftdart/TodoModule.swift:56-58 | sends `completeTodo` with `[todo.toJson()]` through the delegate |
| TodoModule.ClearTodoListCall | Swiftdart/TodoModule.swift:60-62 | sends `clearTodoList` with an empty array through the delegate |
| TodoModule.FirstWithId | Swiftdart/TodoModule.swift:184-186 | the index found is the first todo with the id, and none is found only when no todo has it |
| TodoModule.WithoutId | Swiftdart/TodoModule.swift:173 | `todos.filter { $0.id != id }`; its meaning is given by `WithoutIdMember`, `WithoutIdAppend`, `WithoutIdNone`, `WithoutIdShorter`, `WithoutIdIdempotent` and `WithoutIdDistinct` |
| TodoModule.WithoutIdMember | Swiftdart/TodoModule.swift:173 | the filter keeps a todo exactly when it was in the list and its id differs |
| TodoModule.WithoutIdAppend | Swiftdart/TodoModule.swift:173 | the filter works piece by piece, so the kept todos stay in their original order |
| TodoModule.WithoutIdNone | Swiftdart/TodoModule.swift:173 | a list with no todo of that id is left as it is |
| TodoModule.WithoutIdShorter | Swiftdart/TodoModule.swift:173 | the filter never makes the list longer |
| TodoModule.WithoutIdIdempotent | Swiftdart/TodoModule.swift:172-175 | deleting the same id twice is the same as deleting it once |
| TodoModule.WithoutIdDistinct | Swiftdart/TodoModule.swift:173 | filtering keeps the todo objects distinct |
| TodoModule.TodoListVC.constructor | Swiftdart/TodoModule.swift:85-91 | the list starts empty and takes the module's API and events objects |
| TodoModule.TodoListVC.OnTodoCreated | Swiftdart/TodoModule.swift:167-170 | the row count grows by one; earlier todos are unchanged; the new last todo is fresh and holds the payload's data; the counter is the payload's id |
| TodoModule.TodoListVC.OnTodoDeleted | Swiftdart/TodoModule.swift:172-175 | the list becomes the old list without the todos of the payload's id, in order; the counter moves to that id only if the list was not empty; the row count does not grow |
| TodoModule.TodoListVC.OnTodoListCleared | Swiftdart/TodoModule.swift:177-180 | the list is empty and the row count 0 afterwards, whatever the payload |
| TodoModule.TodoListVC.OnTodoCompleted | Swiftdart/TodoModule.swift:182-189 | only the first todo with the payload's id is marked completed, whatever the payload's own flag; with no match nothing changes; the list itself is unchanged |
| TodoModule.TodoListVC.TodoCompleteValueChanged | Swiftdart/TodoModule.swift:160-164 | the row's todo gets the switch's value, others keep theirs, and `completeTodo` is sent with that todo |
| TodoModule.TodoListVC.CommitDelete | Swiftdart/TodoModule.swift:205-209 | a delete with an API object removes exactly row `i`, so one row fewer, and sends `deleteTodo` with the removed todo; otherwise the list and the sent scripts are unchanged |
| TodoModule.TodoListVC.TextFieldShouldReturn | Swiftdart/TodoModule.swift:149-154 | returns false; with an API object, makes one new todo with the typed text (or `""`), not completed, and sends `createTodo` with it; the counter moves only then |
| TodoModule.TodoListVC.ClearButtonTapped | Swiftdart/TodoModule.swift:156-158 | sends `clearTodoList` with an empty array when there is an API object |
| ContentRendererModule.ContentRendererRouting | Swiftdart/ContentRendererModule.swift:12-17 | four channels: three dictionary channels and `todoListCleared` of type `Any`, each raised for exactly its declared type |
| ContentRendererModule.ContentRendererApiMethodsDistinct | Swiftdart/ContentRendererModule.swift:35-39 | the three zoom method names are pairwise distinct |
| ContentRendererModule.ZoomScript | Swiftdart/ContentRendererModule.swift:21-31 | each zoom call produces a script whose envelope holds the method name and an empty array |
| ContentRendererModule.ZoomInCall | Swiftdart/ContentRendererModule.swift:21-23 | sends `zoomIn` with an empty array through the delegate, and nothing without one |
| ContentRendererModule.ZoomOutCall | Swiftdart/ContentRendererModule.swift:25-27 | sends `zoomOut` with an empty array through the delegate |
| ContentRendererModule.ZoomToFitCall | Swiftdart/ContentRendererModule.swift:29-31 | sends `zoomToFit` with an empty array through the delegate |

## Left out

- `WebViewController.swift` is not part of this model. It covers web view setup, URL loading, layout, the `evaluateJavaScript` transport and module creation; it is UI and I/O wiring.
- The UI code in `TodoModule.swift` is left out: `TodoCell`, `setupTableView`, `viewDidLoad`, SnapKit constraints, `reloadData()`, first-responder handling, the clearing of the text field (`textField.text = ""`, `TodoModule.swift:152`) and `cellForRowAt`. Only each handler's effect on `todos` and the API call it sends are modelled.
- `registerForEvents` (`TodoModule.swift:110-115`) and `Event<T>`'s handler list are not modelled, because the source of `Event<T>` is not part of this model. A raise is recorded in the events object's delivery log; the list handlers are separate methods, not called from that log.
- `Mirror` reflection is replaced by an explicit table of labelled fields for each events class.
- JsonParser.Serialize: `JSONSerialization` with `.prettyPrinted` is replaced by a compact rendering with sorted keys, which escapes only `"`, `\` and control characters. The model does not fix the exact bytes Foundation produces (indentation, key order, `\/`). What it proves is that the text substituted into the script decodes back to the envelope.
- `NSString(data:encoding:)` and `String(format:)` are foreign calls. The model assumes UTF-8 decoding of the serialised data succeeds, so it has no path for that `nil`. The format call is modelled as plain concatenation of the template's two halves around the JSON.
- Foundation's number bridging is not modelled. Numbers are integers, with no floating point and no `NSNumber` conversion of booleans to `Int`. Booleans, `null` and foreign values fall through to the raw `Any` branch.
- TodoModule.Todo.constructor: Swift's `Int` is 64 bits and `todoIdCounter += 1` traps on overflow; the counter here is unbounded.
- The force casts in `Todo(json:)` (`TodoModule.swift:23-25`), the crashing index `todos[sender.tag]` and the trap in `todos.remove(at:)` (`TodoModule.swift:207`) are preconditions (`IsTodoJson`, and `row < |todos|` on `TodoCompleteValueChanged` and `CommitDelete`), not behaviour. The force cast in `cellForRowAt` is left out together with that method.
- Weak references (`Module.bridge`, `Bridge.jsEvalDelegate`, handler owners) are plain nullable references. Objects are never deallocated, so a reference never becomes nil on its own.
- `moduleApi()` and `moduleEvents()` (`Bridge.swift:131-137`) only return the `api` and `events` fields. The model reads those fields directly.
- `subscript(key:)` (`Bridge.swift:36-40`) is an `Any`-typed lookup that nothing in the core calls.
- `Todo.id`, `Todo.description` (`TodoModule.swift:11-12`) and `Module.moduleType` (`Bridge.swift:112`) are `var` in Swift but are never assigned after initialisation, so they are `const` here.
- A module's `api` and `events` are the base classes `ModuleApi` and `ModuleEvents`. The generic parameters `E` and `A` are replaced by the events table the module is built with. The `TodoApi` and `ContentRendererApi` calls are module-level methods that take the API object.
- There is no concurrency: everything runs on the main thread.
- `print("Unable to serialize json")` is output only; the failure branch sends nothing.
- Bridge.Bridge.SendApiCall: the path on which the envelope has no JSON form (a `Foreign` value in `data`) sends nothing, as the `catch` at `Bridge.swift:99-101` would. In Foundation, `JSONSerialization.data(withJSONObject:)` instead raises an Objective-C exception for such a value; Swift's `do/catch` does not catch it, so the app terminates. Only other errors reach the `catch`. The sample modules never take this path: their arguments always have a JSON form (`TodoArgsRoundTrip`, `ZoomScript`).
- TodoModule.TodoListVC.NumberOfRows has no row above: it is `|todos|` by definition. Its changes are stated on the handlers (one more after `OnTodoCreated`, one fewer after a delete in `CommitDelete`, 0 after `OnTodoListCleared`, never more after `OnTodoDeleted`).
