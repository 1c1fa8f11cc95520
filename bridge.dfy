/**
 * The message router between the native side and the web view: inbound
 * script messages are checked, their `data` narrowed to one of a fixed list
 * of types, and handed to the registered module, which raises the event
 * field of that name and type; outbound API calls are wrapped in an
 * envelope, serialised and substituted into a script template.
 */
module Bridge {
  import opened Wrappers
  import opened Json
  import JsonParser

  // ---------------------------------------------------------------------
  // Module identifiers

  /** The modules known to the bridge; the raw values match the web side's module names. */
  datatype ModuleType = Unknown | ContentRenderer | Todo {
    function RawValue(): string {
      match this
      case Unknown => ""
      case ContentRenderer => "contentRenderer"
      case Todo => "todo"
    }
  }

  /** Swift's `ModuleType(rawValue:)`. */
  function ModuleTypeOf(raw: string): (r: Option<ModuleType>)
    ensures r.Some? ==> r.value.RawValue() == raw
  {
    if raw == "" then Some(Unknown)
    else if raw == "contentRenderer" then Some(ContentRenderer)
    else if raw == "todo" then Some(Todo)
    else None
  }

  /** Raw values identify module types: no two types share a registry key. */
  lemma ModuleTypeRoundTrip(t: ModuleType)
    ensures ModuleTypeOf(t.RawValue()) == Some(t)
  {
  }

  // ---------------------------------------------------------------------
  // Narrowing of inbound data

  /** The static types `data` is narrowed to; `AnyShape` is Swift's `Any`. */
  datatype Shape = IntShape | StringShape | ObjectShape | IntArrayShape | AnyArrayShape | StringArrayShape | AnyShape

  /** The casts tried on `data`, in the order the router tries them. */
  const NarrowingOrder: seq<Shape> := [IntShape, StringShape, ObjectShape, IntArrayShape, AnyArrayShape, StringArrayShape]

  predicate AllNumbers(a: seq<Value>) {
    forall i :: 0 <= i < |a| ==> a[i].Number?
  }

  predicate AllStrings(a: seq<Value>) {
    forall i :: 0 <= i < |a| ==> a[i].String?
  }

  /** Whether `v as? T` succeeds for the type `T` that `shape` names. */
  predicate Fits(v: Value, shape: Shape) {
    match shape
    case IntShape => v.Number?
    case StringShape => v.String?
    case ObjectShape => v.Object?
    case IntArrayShape => v.Array? && AllNumbers(v.elems)
    case AnyArrayShape => v.Array?
    case StringArrayShape => v.Array? && AllStrings(v.elems)
    case AnyShape => true
  }

  /** The first shape of `order` that `v` fits, or `AnyShape` when none does. */
  function FirstFit(v: Value, order: seq<Shape>): (r: Shape)
    ensures r == AnyShape || (r in order && Fits(v, r))
    ensures r !in order ==> forall s | s in order :: !Fits(v, s)
  {
    if order == [] then AnyShape
    else if Fits(v, order[0]) then order[0]
    else FirstFit(v, order[1..])
  }

  /** No shape earlier in the order than the one chosen fits: `FirstFit` returns the earliest fit. */
  lemma {:induction false} FirstFitEarliest(v: Value, order: seq<Shape>, j: nat)
    requires j < |order| && Fits(v, order[j])
    ensures FirstFit(v, order) in order[..j + 1]
  {
    if !Fits(v, order[0]) {
      FirstFitEarliest(v, order[1..], j - 1);
      assert order[1..][..j] == order[1..j + 1];
    } else {
      assert order[..j + 1][0] == order[0];
    }
  }

  /** The first successful cast of the router's order, written out. */
  function CastChain(v: Value): Shape {
    if Fits(v, IntShape) then IntShape
    else if Fits(v, StringShape) then StringShape
    else if Fits(v, ObjectShape) then ObjectShape
    else if Fits(v, IntArrayShape) then IntArrayShape
    else if Fits(v, AnyArrayShape) then AnyArrayShape
    else if Fits(v, StringArrayShape) then StringArrayShape
    else AnyShape
  }

  /** `FirstFit` over the router's order, case by case. */
  lemma FirstFitNarrowingOrder(v: Value)
    ensures FirstFit(v, NarrowingOrder) == CastChain(v)
  {
    var a := FirstFit(v, [StringArrayShape]);
    assert a == if Fits(v, StringArrayShape) then StringArrayShape else AnyShape;
    var b := FirstFit(v, [AnyArrayShape, StringArrayShape]);
    assert b == if Fits(v, AnyArrayShape) then AnyArrayShape else a;
    var c := FirstFit(v, [IntArrayShape, AnyArrayShape, StringArrayShape]);
    assert c == if Fits(v, IntArrayShape) then IntArrayShape else b;
    var d := FirstFit(v, [ObjectShape, IntArrayShape, AnyArrayShape, StringArrayShape]);
    assert d == if Fits(v, ObjectShape) then ObjectShape else c;
    var e := FirstFit(v, [StringShape, ObjectShape, IntArrayShape, AnyArrayShape, StringArrayShape]);
    assert e == if Fits(v, StringShape) then StringShape else d;
  }

  /** Inbound data after narrowing: the value together with the type it was cast to. */
  datatype Narrowed =
    | NInt(i: int)
    | NString(s: string)
    | NObject(o: map<string, Value>)
    | NIntArray(xs: seq<int>)
    | NAnyArray(a: seq<Value>)
    | NRaw(v: Value)
  {
    /** The generic parameter `T` that `didRecieveEvent` is called with. */
    function Shape(): Shape {
      match this
      case NInt(_) => IntShape
      case NString(_) => StringShape
      case NObject(_) => ObjectShape
      case NIntArray(_) => IntArrayShape
      case NAnyArray(_) => AnyArrayShape
      case NRaw(_) => AnyShape
    }

    /** The value the narrowed data stands for. */
    function Payload(): Value {
      match this
      case NInt(i) => Number(i)
      case NString(s) => String(s)
      case NObject(o) => Object(o)
      case NIntArray(xs) => Array(Numbers(xs))
      case NAnyArray(a) => Array(a)
      case NRaw(v) => v
    }
  }

  /** The integers of an array whose every element is a number (`as? [Int]`). */
  function Ints(a: seq<Value>): (r: seq<int>)
    requires AllNumbers(a)
    ensures |r| == |a| && forall i :: 0 <= i < |a| ==> a[i] == Number(r[i])
  {
    if a == [] then [] else [a[0].n] + Ints(a[1..])
  }

  /** An array of numbers. */
  function Numbers(xs: seq<int>): (r: seq<Value>)
    ensures |r| == |xs| && forall i :: 0 <= i < |xs| ==> r[i] == Number(xs[i])
  {
    if xs == [] then [] else [Number(xs[0])] + Numbers(xs[1..])
  }

  /**
   * The router's cast chain on `body["data"]`: `Int`, `String`,
   * `[String: Any]`, `[Int]`, `[Any]`, `[String]`, and otherwise the raw
   * value, or `NSNull` when there is none.
   */
  function Narrow(data: Option<Value>): Narrowed {
    match data
    case None => NRaw(Null)
    case Some(v) =>
      if Fits(v, IntShape) then NInt(v.n)
      else if Fits(v, StringShape) then NString(v.s)
      else if Fits(v, ObjectShape) then NObject(v.fields)
      else if Fits(v, IntArrayShape) then
        NIntArray(Ints(v.elems))
      else if Fits(v, AnyArrayShape) then NAnyArray(v.elems)
      else if Fits(v, StringArrayShape) then
        // never taken: every array has already passed the `[Any]` cast
        assert false; NRaw(Null)
      else NRaw(v)
  }

  /** Narrowing picks the first cast of the router's order that succeeds, or `Any` when none does. */
  lemma NarrowFirstFit(data: Option<Value>)
    ensures Narrow(data).Shape() == FirstFit(data.GetOr(Null), NarrowingOrder)
  {
    FirstFitNarrowingOrder(data.GetOr(Null));
    NarrowCastChain(data);
  }

  lemma NarrowCastChain(data: Option<Value>)
    ensures Narrow(data).Shape() == CastChain(data.GetOr(Null))
  {
  }

  /** Narrowing changes the static type only: the delivered data stands for the message's value. */
  lemma NarrowPayload(data: Option<Value>)
    ensures Narrow(data).Payload() == data.GetOr(Null)
  {
    if data.Some? && Fits(data.value, IntArrayShape) && !data.value.Number? && !data.value.String? && !data.value.Object? {
      var xs := Ints(data.value.elems);
      assert Numbers(xs) == data.value.elems;
    }
  }

  /** An empty array, or one of numbers only, is delivered as `[Int]`. */
  lemma NarrowIntArray(a: seq<Value>)
    requires forall i :: 0 <= i < |a| ==> a[i].Number?
    ensures Narrow(Some(Array(a))) == NIntArray(Ints(a))
  {
    assert Fits(Array(a), IntArrayShape);
  }

  /** Any other array, an all-string one included, is delivered as `[Any]`. */
  lemma NarrowAnyArray(a: seq<Value>, i: nat)
    requires i < |a| && !a[i].Number?
    ensures Narrow(Some(Array(a))) == NAnyArray(a)
  {
  }

  /** The `[String]` cast comes after `[Any]`, which every array passes: it is never chosen. */
  lemma NarrowNeverStringArray(data: Option<Value>)
    ensures Narrow(data).Shape() != StringArrayShape
    ensures forall v :: Fits(v, StringArrayShape) ==> Fits(v, AnyArrayShape)
  {
  }

  /** Booleans, `null`, foreign values and a missing `data` fall through to `Any`. */
  lemma NarrowRaw(data: Option<Value>)
    ensures Narrow(data).Shape() == AnyShape <==> data.None? || data.value.Null? || data.value.Bool? || data.value.Foreign?
    ensures data.None? ==> Narrow(data) == NRaw(Null)
  {
  }

  // ---------------------------------------------------------------------
  // Event containers

  /** The declared type of a stored property of an events class. */
  datatype FieldType = EventOf(payload: Shape) | Property

  /** One labelled child of an events object, as reflection lists it. */
  datatype EventField = EventField(name: string, kind: FieldType)

  /** One `Event<T>.raise(data)`: the channel (the field's label) and the data. */
  datatype Delivery = Delivery(channel: string, data: Narrowed)

  /** The index of the first field labelled `key`. */
  function FirstLabel(fields: seq<EventField>, key: string): (r: Option<nat>)
    ensures r.Some? ==> r.value < |fields| && fields[r.value].name == key
    ensures r.Some? ==> forall j :: 0 <= j < r.value ==> fields[j].name != key
    ensures r.None? ==> forall j :: 0 <= j < |fields| ==> fields[j].name != key
  {
    if fields == [] then None
    else if fields[0].name == key then Some(0)
    else match FirstLabel(fields[1..], key)
      case Some(i) => Some(i + 1)
      case None => None
  }

  /**
   * `valueForKey(key:) as Event<T>?`: the first field labelled `key`, when
   * its type is exactly `Event<T>` (generic classes do not convert).
   */
  function Resolve(fields: seq<EventField>, key: string, shape: Shape): Option<nat> {
    match FirstLabel(fields, key)
    case Some(i) => if fields[i].kind == EventOf(shape) then Some(i) else None
    case None => None
  }

  /** A field can only be raised if it is the first with its label and has exactly the requested type. */
  lemma ResolveFirst(fields: seq<EventField>, key: string, shape: Shape, i: nat)
    requires i < |fields| && fields[i].name == key
    requires forall j :: 0 <= j < i ==> fields[j].name != key
    ensures Resolve(fields, key, shape) == if fields[i].kind == EventOf(shape) then Some(i) else None
  {
  }

  /** A channel no field is labelled with is never raised. */
  lemma ResolveMissing(fields: seq<EventField>, key: string, shape: Shape)
    requires forall j :: 0 <= j < |fields| ==> fields[j].name != key
    ensures Resolve(fields, key, shape) == None
  {
  }

  /**
   * An events object: its fields, fixed by its class, and the deliveries made
   * through them (standing for the handlers that `Event<T>` would call).
   */
  class ModuleEvents {
    const fields: seq<EventField>
    var delivered: seq<Delivery>

    constructor (fields: seq<EventField>)
      ensures this.fields == fields && delivered == []
    {
      this.fields := fields;
      delivered := [];
    }

    /** Scans the fields in order and stops at the first whose label is `key`. */
    method ValueForKey(key: string, shape: Shape) returns (r: Option<nat>)
      ensures r == Resolve(fields, key, shape)
      ensures r.Some? ==> r.value < |fields| && fields[r.value].name == key
    {
      var i := 0;
      while i < |fields|
        invariant 0 <= i <= |fields|
        invariant forall j :: 0 <= j < i ==> fields[j].name != key
      {
        if fields[i].name == key {
          ResolveFirst(fields, key, shape, i);
          return if fields[i].kind == EventOf(shape) then Some(i) else None;
        }
        i := i + 1;
      }
      return None;
    }

    /** `Event<T>.raise(data)` on the field at `index`. */
    method Raise(index: nat, data: Narrowed)
      requires index < |fields|
      modifies this
      ensures delivered == old(delivered) + [Delivery(fields[index].name, data)]
    {
      delivered := delivered + [Delivery(fields[index].name, data)];
    }
  }

  // ---------------------------------------------------------------------
  // Outbound scripts

  /** The text before and after the substituted JSON in the script template. */
  const TemplatePrefix: string := "var event = new CustomEvent('bridge', { detail: "
  const TemplateSuffix: string := " });window.dispatchEvent(event);"

  /** `String(format: jsString, json)`. */
  function Format(json: string): string {
    TemplatePrefix + json + TemplateSuffix
  }

  /** The JSON text inside a script built from the template. */
  function Detail(script: string): Option<string> {
    if |script| >= |TemplatePrefix| + |TemplateSuffix|
       && script[..|TemplatePrefix|] == TemplatePrefix
       && script[|script| - |TemplateSuffix|..] == TemplateSuffix
    then Some(script[|TemplatePrefix|..|script| - |TemplateSuffix|])
    else None
  }

  /** The template loses nothing: the substituted text can be read back. */
  lemma DetailFormat(json: string)
    ensures Detail(Format(json)) == Some(json)
  {
    var s := Format(json);
    assert s[..|TemplatePrefix|] == TemplatePrefix;
    assert s[|s| - |TemplateSuffix|..] == TemplateSuffix;
    assert s[|TemplatePrefix|..|s| - |TemplateSuffix|] == json;
  }

  /** The envelope of an API call. */
  function Payload(moduleType: ModuleType, methodName: string, data: Value): Value {
    Object(map["module" := String(moduleType.RawValue()), "method" := String(methodName), "data" := data])
  }

  /** The script evaluated for an API call, or none when the envelope cannot be serialised. */
  function Script(moduleType: ModuleType, methodName: string, data: Value): Option<string> {
    match JsonParser.Serialize(Payload(moduleType, methodName, data))
    case Some(json) => Some(Format(json))
    case None => None
  }

  /** The envelope has exactly the keys `module`, `method` and `data`, holding the raw module type, the method name and `data` unchanged. */
  lemma PayloadFields(moduleType: ModuleType, methodName: string, data: Value)
    ensures Payload(moduleType, methodName, data).fields.Keys == {"module", "method", "data"}
    ensures Payload(moduleType, methodName, data).fields["module"] == String(moduleType.RawValue())
    ensures Payload(moduleType, methodName, data).fields["method"] == String(methodName)
    ensures Payload(moduleType, methodName, data).fields["data"] == data
  {
  }

  /** The envelope has a JSON form exactly when `data` has one. */
  lemma PayloadRepresentable(moduleType: ModuleType, methodName: string, data: Value)
    ensures Representable(Payload(moduleType, methodName, data)) <==> Representable(data)
  {
    var p := Payload(moduleType, methodName, data);
    assert forall k :: k in p.fields ==> k == "module" || k == "method" || k == "data";
    assert p.fields["data"] == data;
  }

  /**
   * A script is produced exactly when `data` has a JSON form, and the text
   * substituted into the template decodes back to the envelope.
   */
  lemma ScriptCarriesPayload(moduleType: ModuleType, methodName: string, data: Value)
    ensures Script(moduleType, methodName, data).Some? <==> Representable(data)
    ensures Script(moduleType, methodName, data).Some? ==>
      var d := Detail(Script(moduleType, methodName, data).value);
      d.Some? && JsonParser.Decode(d.value) == Some(Payload(moduleType, methodName, data))
  {
    var p := Payload(moduleType, methodName, data);
    PayloadRepresentable(moduleType, methodName, data);
    if Representable(data) {
      DetailFormat(JsonParser.Serialize(p).value);
    }
  }

  /** The script evaluator behind `jsEvalDelegate`: the scripts handed to it, in order. */
  class ScriptSink {
    var evaluated: seq<string>

    constructor ()
      ensures evaluated == []
    {
      evaluated := [];
    }

    method EvaluateJS(script: string)
      modifies this
      ensures evaluated == old(evaluated) + [script]
    {
      evaluated := evaluated + [script];
    }
  }

  // ---------------------------------------------------------------------
  // Inbound messages

  /** The routing fields of a script message body. */
  datatype Message = Message(moduleId: string, event: string, data: Option<Value>)

  /**
   * `body as? [String: Any]`, then `body["module"] as? String` and
   * `body["event"] as? String`; `data` may be absent.
   */
  function ReadMessage(body: Value): (r: Option<Message>)
    ensures r.Some? <==>
      && body.Object?
      && "module" in body.fields && body.fields["module"].String?
      && "event" in body.fields && body.fields["event"].String?
    ensures r.Some? ==> r.value.moduleId == body.fields["module"].s && r.value.event == body.fields["event"].s
    ensures r.Some? ==> (r.value.data.Some? <==> "data" in body.fields)
    ensures r.Some? && r.value.data.Some? ==> r.value.data.value == body.fields["data"]
  {
    match body
    case Object(o) =>
      if "module" in o && o["module"].String? && "event" in o && o["event"].String? then
        Some(Message(o["module"].s, o["event"].s, if "data" in o then Some(o["data"]) else None))
      else None
    case _ => None
  }

  // ---------------------------------------------------------------------
  // Modules, their API objects and the bridge

  /** A module: its type, the bridge it is registered with, its API and its events. */
  class Module {
    const moduleType: ModuleType
    var bridge: Bridge?
    var api: ModuleApi?
    var events: ModuleEvents?

    /** `init(moduleType:)` for a module whose events class declares `table`. */
    constructor (moduleType: ModuleType, table: seq<EventField>)
      ensures this.moduleType == moduleType && bridge == null
      ensures api != null && fresh(api) && api.delegate == this
      ensures events != null && fresh(events) && events.fields == table && events.delivered == []
    {
      this.moduleType := moduleType;
      bridge := null;
      api := null;
      events := null;
      new;
      CommonInit(table);
    }

    /** Creates the API object, points its delegate here, and creates the events object. */
    method CommonInit(table: seq<EventField>)
      modifies this
      ensures bridge == old(bridge)
      ensures api != null && fresh(api) && api.delegate == this
      ensures events != null && fresh(events) && events.fields == table && events.delivered == []
    {
      api := new ModuleApi();
      api.delegate := this;
      events := new ModuleEvents(table);
    }

    /** Where this module's outbound scripts go, if anywhere. */
    function Sink(): ScriptSink?
      reads this, bridge
    {
      if bridge == null then null else bridge.jsEvalDelegate
    }

    /** Raises the field named `rawEvent` if its type is exactly `Event<T>` for the data's `T`. */
    method DidRecieveEvent(rawEvent: string, data: Narrowed)
      modifies events
      ensures events != null ==>
        events.delivered == old(events.delivered)
          + if Resolve(events.fields, rawEvent, data.Shape()).Some? then [Delivery(rawEvent, data)] else []
    {
      if events != null {
        var index := events.ValueForKey(rawEvent, data.Shape());
        if index.Some? {
          events.Raise(index.value, data);
        }
      }
    }

    /** Forwards an API call to the bridge under this module's own type; nothing happens without a bridge. */
    method SendApiCall(methodName: string, data: Value)
      modifies Sink()
      ensures Sink() != null ==> Sink().evaluated == old(Sink().evaluated) + Script(moduleType, methodName, data).ToSeq()
    {
      if bridge != null {
        bridge.SendApiCall(moduleType, methodName, data);
      }
    }
  }

  /** The base of a module's API object: API methods send through `delegate`. */
  class ModuleApi {
    var delegate: Module?

    constructor ()
      ensures delegate == null
    {
      delegate := null;
    }

    /** Where this API object's calls end up, if anywhere. */
    function Sink(): ScriptSink?
      reads this, delegate, if delegate == null then null else delegate.bridge
    {
      if delegate == null then null else delegate.Sink()
    }

    /** `delegate?.sendApiCall(method, data:)`. */
    method SendApiCall(methodName: string, data: Value)
      modifies Sink()
      ensures Sink() != null ==>
        delegate != null && Sink().evaluated == old(Sink().evaluated) + Script(delegate.moduleType, methodName, data).ToSeq()
    {
      if delegate != null {
        delegate.SendApiCall(methodName, data);
      }
    }
  }

  /** The router: registered modules by raw module type, and the script evaluator. */
  class Bridge {
    var registeredModules: map<string, Module>
    var jsEvalDelegate: ScriptSink?

    constructor ()
      ensures registeredModules == map[] && jsEvalDelegate == null
    {
      registeredModules := map[];
      jsEvalDelegate := null;
    }

    /** The events objects of the registered modules. */
    function Logs(): set<ModuleEvents>
      reads this, registeredModules.Values
    {
      set m | m in registeredModules.Values && m.events != null :: m.events
    }

    /** The events object that records a delivery for `body`, or null when nothing is raised. */
    function Recipient(body: Value): ModuleEvents?
      reads this, registeredModules.Values
    {
      match ReadMessage(body)
      case None => null
      case Some(msg) =>
        if msg.moduleId !in registeredModules then null
        else
          var events := registeredModules[msg.moduleId].events;
          if events == null || Resolve(events.fields, msg.event, Narrow(msg.data).Shape()).None? then null
          else events
    }

    /**
     * `userContentController(_:didReceive:)`: routes one message. At most
     * one delivery is made, to the recipient, and nothing else changes.
     */
    method UserContentController(body: Value)
      modifies Logs()
      ensures registeredModules == old(registeredModules)
      ensures forall e | e in Logs() && e != Recipient(body) :: e.delivered == old(e.delivered)
      ensures Recipient(body) != null ==>
        Recipient(body).delivered == old(Recipient(body).delivered)
          + [Delivery(ReadMessage(body).value.event, Narrow(ReadMessage(body).value.data))]
    {
      var message := ReadMessage(body);
      if message.Some? {
        var msg := message.value;
        if msg.moduleId in registeredModules {
          var registered := registeredModules[msg.moduleId];
          registered.DidRecieveEvent(msg.event, Narrow(msg.data));
        }
      }
    }

    /** Files `m` under its type's raw value (replacing any earlier one) and points it here. */
    method RegisterModule(m: Module)
      modifies this, m
      ensures m.moduleType.RawValue() in registeredModules
      ensures registeredModules[m.moduleType.RawValue()] == m
      ensures registeredModules.Keys == old(registeredModules.Keys) + {m.moduleType.RawValue()}
      ensures forall k | k in old(registeredModules) && k != m.moduleType.RawValue() ::
        registeredModules[k] == old(registeredModules[k])
      ensures m.bridge == this
      ensures m.api == old(m.api) && m.events == old(m.events)
      ensures jsEvalDelegate == old(jsEvalDelegate)
    {
      registeredModules := registeredModules[m.moduleType.RawValue() := m];
      m.bridge := this;
    }

    /** Serialises the envelope and evaluates the filled-in template; sends nothing if serialisation fails. */
    method SendApiCall(moduleType: ModuleType, methodName: string, data: Value)
      modifies jsEvalDelegate
      ensures jsEvalDelegate != null ==>
        jsEvalDelegate.evaluated == old(jsEvalDelegate.evaluated) + Script(moduleType, methodName, data).ToSeq()
    {
      var payload := Payload(moduleType, methodName, data);
      var json := JsonParser.Serialize(payload);
      if json.Some? && jsEvalDelegate != null {
        jsEvalDelegate.EvaluateJS(Format(json.value));
      }
    }
  }
}
