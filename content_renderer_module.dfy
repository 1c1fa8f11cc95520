/**
 * The content-renderer sample module: an API object with three zoom calls
 * that take no arguments, and an events class with the same four channels
 * as the todo module's.
 */
module ContentRendererModule {
  import opened Wrappers
  import opened Json
  import Bridge
  import JsonParser
  import TodoModule

  /** The fields of `ContentRendererEvents`, in declaration order. */
  const ContentRendererEvents: seq<Bridge.EventField> := [
    Bridge.EventField("todoCreated", Bridge.EventOf(Bridge.ObjectShape)),
    Bridge.EventField("todoDeleted", Bridge.EventOf(Bridge.ObjectShape)),
    Bridge.EventField("todoCompleted", Bridge.EventOf(Bridge.ObjectShape)),
    Bridge.EventField("todoListCleared", Bridge.EventOf(Bridge.AnyShape))
  ]

  /** Three dictionary channels and one `Any` channel, each raised for exactly its declared type. */
  lemma ContentRendererRouting(key: string, shape: Bridge.Shape)
    ensures Bridge.Resolve(ContentRendererEvents, key, shape).Some? <==>
      || (key in {"todoCreated", "todoDeleted", "todoCompleted"} && shape == Bridge.ObjectShape)
      || (key == "todoListCleared" && shape == Bridge.AnyShape)
  {
    assert ContentRendererEvents == TodoModule.TodoEvents;
    TodoModule.FourChannelRouting(key, shape);
  }

  /** The web side's content-renderer API methods. */
  datatype ContentRendererApiMethods = ZoomIn | ZoomOut | ZoomToFit {
    function RawValue(): string {
      match this
      case ZoomIn => "zoomIn"
      case ZoomOut => "zoomOut"
      case ZoomToFit => "zoomToFit"
    }
  }

  /** Distinct methods have distinct names. */
  lemma ContentRendererApiMethodsDistinct(a: ContentRendererApiMethods, b: ContentRendererApiMethods)
    ensures a.RawValue() == b.RawValue() ==> a == b
  {
  }

  /** Every zoom call yields one script whose envelope holds the method's name and an empty array. */
  lemma ZoomScript(m: ContentRendererApiMethods)
    ensures Bridge.Script(Bridge.ContentRenderer, m.RawValue(), Array([])).Some?
    ensures JsonParser.Decode(Bridge.Detail(Bridge.Script(Bridge.ContentRenderer, m.RawValue(), Array([])).value).value)
      == Some(Bridge.Payload(Bridge.ContentRenderer, m.RawValue(), Array([])))
  {
    assert Representable(Array([]));
    Bridge.ScriptCarriesPayload(Bridge.ContentRenderer, m.RawValue(), Array([]));
  }

  /** `zoomIn()`; nothing is sent without a delegate. */
  method ZoomInCall(api: Bridge.ModuleApi)
    modifies api.Sink()
    ensures api.Sink() != null ==>
      && api.delegate != null
      && api.Sink().evaluated == old(api.Sink().evaluated)
        + Bridge.Script(api.delegate.moduleType, ZoomIn.RawValue(), Array([])).ToSeq()
  {
    api.SendApiCall(ZoomIn.RawValue(), Array([]));
  }

  /** `zoomOut()`. */
  method ZoomOutCall(api: Bridge.ModuleApi)
    modifies api.Sink()
    ensures api.Sink() != null ==>
      && api.delegate != null
      && api.Sink().evaluated == old(api.Sink().evaluated)
        + Bridge.Script(api.delegate.moduleType, ZoomOut.RawValue(), Array([])).ToSeq()
  {
    api.SendApiCall(ZoomOut.RawValue(), Array([]));
  }

  /** `zoomToFit()`. */
  method ZoomToFitCall(api: Bridge.ModuleApi)
    modifies api.Sink()
    ensures api.Sink() != null ==>
      && api.delegate != null
      && api.Sink().evaluated == old(api.Sink().evaluated)
        + Bridge.Script(api.delegate.moduleType, ZoomToFit.RawValue(), Array([])).ToSeq()
  {
    api.SendApiCall(ZoomToFit.RawValue(), Array([]));
  }
}
