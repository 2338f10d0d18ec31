/** The parts of mitmproxy's HTTP flow object that the cache addons read and
    write: header maps, requests, responses, the per-flow metadata bag, and
    the flow file format used to persist a flow. */
module Http {
  import opened Wrappers

  predicate IsUpper(c: char) {
    'A' <= c <= 'Z'
  }

  /** ASCII lower-casing of one character. */
  function LowerChar(c: char): char {
    if IsUpper(c) then (c as int + 32) as char else c
  }

  /** `str.lower()`, restricted to ASCII letters. */
  function Lower(s: string): string {
    seq(|s|, i requires 0 <= i < |s| => LowerChar(s[i]))
  }

  /** `s` holds no upper-case ASCII letter. */
  predicate NoUpper(s: string) {
    forall i :: 0 <= i < |s| ==> !IsUpper(s[i])
  }

  /** Lower-casing leaves no upper-case letter behind. */
  lemma LowerHasNoUpper(s: string)
    ensures NoUpper(Lower(s))
  {
  }

  /** A string is its own lower-cased form exactly when it has no upper-case letter. */
  lemma LowerFixedIffNoUpper(s: string)
    ensures Lower(s) == s <==> NoUpper(s)
  {
  }

  /** mitmproxy's `Headers`: field names compare case-insensitively, so each
      field is filed under its lower-cased name. Duplicate fields are not modelled. */
  datatype Headers = Headers(fields: map<string, string>) {

    /** Every field is filed under its lower-cased name, as in any header map
        mitmproxy builds. */
    predicate NamesFolded() {
      forall n :: n in fields ==> Lower(n) == n
    }

    /** `headers.get(name)`. */
    function Get(name: string): Option<string> {
      if Lower(name) in fields then Some(fields[Lower(name)]) else None
    }

    /** `headers[name] = value`. */
    function Set(name: string, value: string): (h: Headers)
      ensures h.Get(name) == Some(value)
      ensures forall n :: Lower(n) != Lower(name) ==> h.Get(n) == Get(n)
      ensures NamesFolded() ==> h.NamesFolded()
    {
      LowerHasNoUpper(name);
      LowerFixedIffNoUpper(Lower(name));
      Headers(fields[Lower(name) := value])
    }

    /** `headers.pop(name, None)`. */
    function Pop(name: string): (h: Headers)
      ensures h.Get(name) == None
      ensures forall n :: Lower(n) != Lower(name) ==> h.Get(n) == Get(n)
      ensures NamesFolded() ==> h.NamesFolded()
      ensures NamesFolded() ==> forall n :: n in h.fields ==> Lower(n) != Lower(name)
    {
      Headers(fields - {Lower(name)})
    }
  }

  /** Two spellings of a name that differ only in letter case find the same field. */
  lemma GetIgnoresCase(h: Headers, a: string, b: string)
    requires Lower(a) == Lower(b)
    ensures h.Get(a) == h.Get(b)
  {
  }

  /** A value in `flow.metadata`, a dictionary of arbitrary Python objects;
      the addons only ever put strings and booleans there. */
  datatype MetaValue = MetaStr(s: string) | MetaBool(b: bool)

  /** Python's `str(value)`. */
  function Str(v: MetaValue): string {
    match v
    case MetaStr(s) => s
    case MetaBool(b) => if b then "True" else "False"
  }

  /** Python's truth value of `value`. */
  predicate Truthy(v: MetaValue) {
    match v
    case MetaStr(s) => s != ""
    case MetaBool(b) => b
  }

  /** `httpMethod` is mitmproxy's `request.method`. */
  datatype Request = Request(httpMethod: string, url: string, headers: Headers)

  /** Status and body are opaque to the addons. */
  datatype Response = Response(statusCode: int, headers: Headers, content: seq<bv8>)

  /** A snapshot of an `HTTPFlow`: what the flow file format persists. */
  datatype Flow = Flow(request: Request, response: Option<Response>, metadata: map<string, MetaValue>)

  /** The mutable flow object the proxy engine hands to each hook. */
  class HTTPFlow {
    var request: Request
    var response: Option<Response>
    var metadata: map<string, MetaValue>

    constructor (f: Flow)
      ensures State() == f
    {
      request := f.request;
      response := f.response;
      metadata := f.metadata;
    }

    function State(): Flow
      reads this
    {
      Flow(request, response, metadata)
    }
  }

  /** The bytes `FlowWriter` produces for one flow. The wire format is not
      modelled: a blob stands for the flow it was written from. */
  datatype Blob = Serialized(flow: Flow)

  /** `FlowWriter(f).add(flow)` followed by `f.getvalue()`. */
  function Serialize(f: Flow): Blob {
    Serialized(f)
  }

  /** The first flow `FlowReader(...).stream()` yields. */
  function Deserialize(b: Blob): Flow {
    b.flow
  }

  /** Reading back a written flow gives the same flow. */
  lemma DeserializeSerialize(f: Flow)
    ensures Deserialize(Serialize(f)) == f
  {
  }
}
