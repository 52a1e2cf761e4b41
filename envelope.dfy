/**
 * The server's response envelope and what the transport hands back. A parsed
 * `response` node is given as string-valued fields and named arrays of JSON
 * objects; JSON parsing itself is outside the model.
 */
module Envelope {
  import opened Wrappers

  /** One JSON object of a response array, field name to text. */
  type JsonObject = map<string, string>

  /** A JSON object's members, split into string fields and arrays of objects. */
  datatype JsonNode = JsonNode(fields: map<string, string>, arrays: map<string, seq<JsonObject>>)

  /** The `response` node: a JSON object holds each key once, as a field or as an array. */
  type Node = n: JsonNode | n.fields.Keys !! n.arrays.Keys witness JsonNode(map[], map[])

  /** What the client raises: `APIError`, or a runtime exception named after its cause. */
  datatype Error =
    | APIError(message: string)
    | TransportFault      // any exception other than APIError raised while the request is awaited
    | NullReference       // indexing a value whose `AsArray` is null
    | ArgumentOutOfRange  // taking element 0 of an empty `List<T>`

  /** The server reports failure only with the exact text "false" in `success`. */
  predicate Failed(response: Node)
  {
    "success" in response.fields && response.fields["success"] == "false"
  }

  /** The `message` field, or the empty text when it is missing. */
  function Message(response: Node): string
  {
    if "message" in response.fields then response.fields["message"] else ""
  }

  /** The envelope check of `APIRequest`: a failed reply raises `APIError(message)`, any other passes through. */
  function Gate(response: Node): (r: Result<Node, Error>)
    ensures r.Err? <==> Failed(response)
    ensures r.Err? ==> r.error == APIError(Message(response))
    ensures r.Ok? ==> r.value == response
  {
    if Failed(response) then Err(APIError(Message(response))) else Ok(response)
  }

  /** A missing `success` field, or any text other than "false", counts as success. */
  lemma SuccessUnlessFalse(response: Node, text: string)
    requires text != "false"
    ensures Gate(response.(fields := response.fields - {"success"})).Ok?
    ensures Gate(response.(fields := response.fields["success" := text], arrays := response.arrays - {"success"})).Ok?
  {
  }

  /** `UnityWebRequest.Result` after the request finished, with the body of a successful one. */
  datatype WebResult =
    | WebSuccess(response: Node)
    | ConnectionError
    | ProtocolError
    | DataProcessingError

  /** Which continuation of the callback revision runs. */
  datatype Continuation = RunOnSuccess(response: Node) | RunOnError(message: string) | RunNeither

  /**
   * `GetRequest`'s switch followed by the envelope check: only a successful transfer
   * reaches either continuation; every transport failure runs neither.
   */
  function Dispatch(result: WebResult): (c: Continuation)
    ensures c.RunOnSuccess? <==> result.WebSuccess? && !Failed(result.response)
    ensures c.RunOnSuccess? ==> c.response == result.response
    ensures c.RunOnError? <==> result.WebSuccess? && Failed(result.response)
    ensures c.RunOnError? ==> c.message == Message(result.response)
  {
    match result
    case WebSuccess(response) =>
      (match Gate(response)
       case Ok(node) => RunOnSuccess(node)
       case Err(e) => RunOnError(e.message))
    case _ => RunNeither
  }

  /** What awaiting `AsyncWebRequest.GET` yields: a response node, or an exception. */
  datatype Reply = Received(response: Node) | Faulted

  /**
   * `response[key].AsArray` as SimpleJSON reads it: the array held under `key`; null
   * when `key` holds a value that is not an array; and, when `key` is absent, the
   * fresh empty array that the lazy placeholder node creates.
   */
  function ArrayAt(response: Node, key: string): Option<seq<JsonObject>>
  {
    if key in response.arrays then Some(response.arrays[key])
    else if key in response.fields then None
    else Some([])
  }

  /**
   * `AsArray[0]`: indexing a null array raises; an index past the end of an array
   * yields SimpleJSON's placeholder node, which reads as an object with no fields.
   */
  function FirstElement(found: Option<seq<JsonObject>>): (r: Result<JsonObject, Error>)
    ensures found.None? <==> r.Err?
    ensures r.Err? ==> r.error == NullReference
    ensures found.Some? && |found.value| > 0 ==> r == Ok(found.value[0])
    ensures found.Some? && |found.value| == 0 ==> r == Ok(map[])
  {
    match found
    case None => Err(NullReference)
    case Some(elements) => if |elements| > 0 then Ok(elements[0]) else Ok(map[])
  }

  /** The records a result list holds: one per array element, in order; none when the array is null. */
  function Decoded<T>(found: Option<seq<JsonObject>>, decode: JsonObject -> T): (records: seq<T>)
  {
    if found.None? then [] else seq(|found.value|, i requires 0 <= i < |found.value| => decode(found.value[i]))
  }

  /**
   * Fetching one record and listing them read the same reply consistently: when the
   * list is non-empty, the fetched record is its first entry. An array that is null
   * makes the fetch raise and the list empty; a missing array makes the list empty
   * while the fetch decodes the empty placeholder.
   */
  lemma FetchAgreesWithList<T>(response: Node, key: string, decode: JsonObject -> T)
    ensures var list := Decoded(ArrayAt(response, key), decode);
      |list| > 0 ==> FirstElement(ArrayAt(response, key)).Ok?
                     && decode(FirstElement(ArrayAt(response, key)).value) == list[0]
    ensures FirstElement(ArrayAt(response, key)).Err? <==> key !in response.arrays && key in response.fields
    ensures FirstElement(ArrayAt(response, key)).Err? ==> Decoded(ArrayAt(response, key), decode) == []
    ensures key !in response.arrays && key !in response.fields ==>
      Decoded(ArrayAt(response, key), decode) == [] && FirstElement(ArrayAt(response, key)) == Ok(map[])
  {
  }

  /** The `foreach` that builds a result list: one record per element, in order; none when the array is null. */
  method DecodeArray<T>(found: Option<seq<JsonObject>>, decode: JsonObject -> T) returns (records: seq<T>)
    ensures records == Decoded(found, decode)
    ensures found.None? ==> records == []
    ensures found.Some? ==> |records| == |found.value|
    ensures found.Some? ==> forall i :: 0 <= i < |records| ==> records[i] == decode(found.value[i])
  {
    records := [];
    if found.Some? {
      var elements := found.value;
      for i := 0 to |elements|
        invariant |records| == i
        invariant forall j :: 0 <= j < i ==> records[j] == decode(elements[j])
      {
        records := records + [decode(elements[i])];
      }
    }
  }
}
