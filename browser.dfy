/** The parts of the browser the front end reads and writes: the token kept
    in local storage, the router's current pathname and the destinations
    pushed onto it, and the requests handed to `window.fetch`. */
module Browser {
  import opened Js
  import opened ApiTypes

  type Headers = map<string, string>

  /** A multipart field value; `FormStringified(p)` is the text
      `JSON.stringify(p)` produces. */
  datatype FormValue = FormString(s: string) | FormFile(blob: Blob) | FormStringified(parent: ParentRef)

  /** The multipart field names the item forms use. */
  datatype FormField = NameField | TypeField | ParentField | TextField | LogoField | FileField

  /** The name a field goes by on the wire. */
  function FieldName(f: FormField): (s: string)
    ensures |s| > 0
  {
    match f
    case NameField => "name"
    case TypeField => "type"
    case ParentField => "parent"
    case TextField => "text"
    case LogoField => "logo"
    case FileField => "file"
  }

  /** Distinct fields go by distinct names. */
  lemma FieldNameInjective(a: FormField, b: FormField)
    requires FieldName(a) == FieldName(b)
    ensures a == b
  {
    assert FieldName(a)[0] == FieldName(b)[0];
    if FieldName(a)[0] == 't' {
      assert FieldName(a)[1] == FieldName(b)[1];
    }
  }

  type FormEntry = (FormField, FormValue)

  /** A request body: none, `JSON.stringify(json)`, or a `FormData`. */
  datatype RequestBody = NoBody | JsonText(json: Json) | Form(entries: seq<FormEntry>)

  /** One call of `window.fetch`: the path, the `method` option as `verb` (absent means
      GET), the final headers and the body. */
  datatype Request = Request(path: string, verb: Option<string>, headers: Headers, body: RequestBody)

  class Window {
    /** `localStorage.getItem("token")`; `None` is `null`. */
    var storedToken: Option<string>
    /** `router.pathname`. */
    var pathname: string
    /** Every destination handed to `router.push`, in order. */
    var history: seq<string>
    /** Every request handed to `window.fetch`, in order. */
    var sent: seq<Request>

    constructor(token: Option<string>, path: string)
      ensures storedToken == token && pathname == path && history == [] && sent == []
    {
      storedToken := token;
      pathname := path;
      history := [];
      sent := [];
    }

    /** The session context's `goTo`: navigate unless already there. */
    method GoTo(destination: string)
      modifies this
      ensures Navigated(this, destination)
      ensures storedToken == old(storedToken) && sent == old(sent)
    {
      if pathname == destination {
        return;
      }
      history := history + [destination];
      pathname := destination;
    }
  }

  /** After `goTo(dest)` the router shows `dest`; a push happened iff it was
      elsewhere before. */
  twostate predicate Navigated(w: Window, dest: string)
    reads w
  {
    w.pathname == dest &&
    w.history == old(w.history) + (if old(w.pathname) == dest then [] else [dest])
  }

  /** Neither the route nor the history moved. */
  twostate predicate StayedPut(w: Window)
    reads w
  {
    w.pathname == old(w.pathname) && w.history == old(w.history)
  }

  /** Exactly one request was appended to the fetch log. */
  twostate predicate SentOne(w: Window, r: Request)
    reads w
  {
    w.sent == old(w.sent) + [r]
  }
}
