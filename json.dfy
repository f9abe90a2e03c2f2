/**
 * JSON values as the GraphQL transport returns them (Python's None, bool,
 * int, str, list and dict), the exceptions the client lets through, and the
 * Python operations the decoders apply to them: truthiness, `node[key]`,
 * the null-guarded `node[key][sub] if node[key] else None`, and iteration
 * over a list.
 */
module Json {
  import opened Wrappers

  datatype Json =
    | JNull
    | JBool(b: bool)
    | JInt(i: int)
    | JStr(s: string)
    | JArr(items: seq<Json>)
    | JObj(fields: map<string, Json>)

  /** The Python exceptions the modelled code raises or lets through. */
  datatype Err =
    | ValueError(message: string)
    | KeyError(key: string)
    | TypeError(message: string)
    | AttributeError(name: string)
    | TransportError(detail: string)

  /** A GraphQL variable map, as the client builds it. */
  type Vars = map<string, Json>

  /** Python truthiness: None, False, 0, "", [] and {} are falsy. */
  predicate Truthy(j: Json) {
    match j
    case JNull => false
    case JBool(b) => b
    case JInt(i) => i != 0
    case JStr(s) => s != ""
    case JArr(a) => a != []
    case JObj(m) => m != map[]
  }

  /** `node` is a dict holding `key`. */
  predicate Has(node: Json, key: string) {
    node.JObj? && key in node.fields
  }

  /** `node[key]`: a KeyError on a dict without the key, a TypeError on anything else. */
  function Field(node: Json, key: string): (r: Result<Json, Err>)
    ensures r.Success? <==> Has(node, key)
    ensures r.Success? ==> r.value == node.fields[key]
    ensures r.Failure? && node.JObj? ==> r.error == KeyError(key)
    ensures r.Failure? && !node.JObj? ==> r.error.TypeError?
  {
    if !node.JObj? then Failure(TypeError("object is not subscriptable by a string"))
    else if key !in node.fields then Failure(KeyError(key))
    else Success(node.fields[key])
  }

  /** `node` holds a dict under `key` that holds `sub`. */
  predicate HasPath(node: Json, key: string, sub: string) {
    Has(node, key) && Has(node.fields[key], sub)
  }

  /** `node` holds `key`, and when that value is truthy it is a dict holding `sub`. */
  predicate HasGuarded(node: Json, key: string, sub: string) {
    Has(node, key) && (Truthy(node.fields[key]) ==> Has(node.fields[key], sub))
  }

  /** The value a guarded read yields: None for a falsy nested object. */
  function GuardedAt(node: Json, key: string, sub: string): Json
    requires HasGuarded(node, key, sub)
  {
    if Truthy(node.fields[key]) then node.fields[key].fields[sub] else JNull
  }

  /** `node[key][sub]` with no guard: a null nested object fails. */
  function Nested(node: Json, key: string, sub: string): (r: Result<Json, Err>)
    ensures r.Success? <==> HasPath(node, key, sub)
    ensures r.Success? ==> r.value == node.fields[key].fields[sub]
  {
    var inner :- Field(node, key);
    Field(inner, sub)
  }

  /** `node[key][sub] if node[key] else None`: a falsy nested object gives None. */
  function Guarded(node: Json, key: string, sub: string): (r: Result<Json, Err>)
    ensures r.Success? <==> HasGuarded(node, key, sub)
    ensures r.Success? && !Truthy(node.fields[key]) ==> r.value == JNull
    ensures r.Success? && Truthy(node.fields[key]) ==> r.value == node.fields[key].fields[sub]
  {
    var inner :- Field(node, key);
    if Truthy(inner) then Field(inner, sub) else Success(JNull)
  }

  /** `for x in j` over a reply list. */
  function Items(j: Json): (r: Result<seq<Json>, Err>)
    ensures r.Success? <==> j.JArr?
    ensures r.Success? ==> r.value == j.items
  {
    if j.JArr? then Success(j.items) else Failure(TypeError("object is not iterable"))
  }

  /** `node` holds the chain of dict keys `path`. */
  predicate HasKeys(node: Json, path: seq<string>)
    decreases |path|
  {
    path == [] || (Has(node, path[0]) && HasKeys(node.fields[path[0]], path[1..]))
  }

  /** The value at the end of `path`. */
  function At(node: Json, path: seq<string>): Json
    requires HasKeys(node, path)
    decreases |path|
  {
    if path == [] then node else At(node.fields[path[0]], path[1..])
  }

  /** `node[k1][k2]...[kn]`, failing at the first key that is missing or not subscriptable. */
  function Path(node: Json, path: seq<string>): (r: Result<Json, Err>)
    ensures r.Success? <==> HasKeys(node, path)
    ensures r.Success? ==> r.value == At(node, path)
    decreases |path|
  {
    if path == [] then Success(node)
    else
      var inner :- Field(node, path[0]);
      Path(inner, path[1..])
  }

  /**
   * Applies `decode` to each element in order, as a list comprehension does:
   * the first element that fails decides the error.
   */
  function DecodeEach<T>(nodes: seq<Json>, decode: Json -> Result<T, Err>): (r: Result<seq<T>, Err>)
    ensures r.Success? <==> forall i :: 0 <= i < |nodes| ==> decode(nodes[i]).Success?
    ensures r.Success? ==> |r.value| == |nodes|
    ensures r.Success? ==> forall i :: 0 <= i < |nodes| ==> r.value[i] == decode(nodes[i]).value
    ensures r.Failure? ==> exists i :: 0 <= i < |nodes| && decode(nodes[i]).Failure?
                                       && r.error == decode(nodes[i]).error
                                       && forall j :: 0 <= j < i ==> decode(nodes[j]).Success?
  {
    if nodes == [] then Success([])
    else
      var head :- decode(nodes[0]);
      var tail := DecodeEach(nodes[1..], decode);
      if tail.Failure? then
        assert forall j :: 1 <= j < |nodes| ==> nodes[j] == nodes[1..][j - 1];
        Failure(tail.error)
      else
        Success([head] + tail.value)
  }

  /** `edges` is a list of dicts holding 'node', and `out` decodes those nodes one for one, in order. */
  ghost predicate EdgesDecodeTo<T>(edges: Json, decode: Json -> Result<T, Err>, out: seq<T>) {
    && edges.JArr?
    && |out| == |edges.items|
    && forall i :: 0 <= i < |edges.items| ==>
         Has(edges.items[i], "node") && decode(edges.items[i].fields["node"]) == Success(out[i])
  }

  /** `[decode(i['node']) for i in edges]`. */
  function DecodeEdges<T>(edges: Json, decode: Json -> Result<T, Err>): (r: Result<seq<T>, Err>)
    ensures r.Success? <==> edges.JArr? && forall i :: 0 <= i < |edges.items| ==>
                              Has(edges.items[i], "node") && decode(edges.items[i].fields["node"]).Success?
    ensures r.Success? ==> EdgesDecodeTo(edges, decode, r.value)
  {
    var items :- Items(edges);
    DecodeEach(items, (e: Json) => DecodeNode(e, decode))
  }

  /** `decode(edge['node'])`. */
  function DecodeNode<T>(edge: Json, decode: Json -> Result<T, Err>): (r: Result<T, Err>)
    ensures r.Success? <==> Has(edge, "node") && decode(edge.fields["node"]).Success?
    ensures r.Success? ==> r == decode(edge.fields["node"])
  {
    var n :- Field(edge, "node");
    decode(n)
  }

  /** Python's `str(j)` for the scalar values the messages embed. */
  function Format(j: Json): string {
    match j
    case JNull => "None"
    case JBool(b) => if b then "True" else "False"
    case JInt(i) => Decimal(i)
    case JStr(s) => s
    case JArr(_) => "[...]"
    case JObj(_) => "{...}"
  }

  function Decimal(i: int): (r: string)
    ensures r != []
    decreases if i < 0 then -i + 1 else i
  {
    if i < 0 then "-" + Decimal(-i)
    else if i < 10 then [Digit(i)]
    else Decimal(i / 10) + [Digit(i % 10)]
  }

  function Digit(d: int): char
    requires 0 <= d < 10
  {
    "0123456789"[d]
  }
}
