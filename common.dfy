/**
 * Values shared by the pages and the auth context: optional values, the
 * multipart request body a handler builds, and the abstract outcome of a
 * network request that the model receives instead of calling the network.
 */
module Common {

  datatype Option<+T> = None | Some(value: T)

  /** A file the user picked in a file input; only its identity matters here. */
  datatype File = File(name: string)

  /** The value of one appended FormData entry: a string or a file. */
  datatype Part = TextPart(text: string) | FilePart(file: File)

  /** One `formData.append(key, value)` call, kept in append order. */
  datatype FormEntry = FormEntry(key: string, part: Part)

  /** A POST request to the API; `path` is relative to the configured base URL. */
  datatype Request = Request(path: string, authorization: Option<string>, body: seq<FormEntry>)

  /**
   * Reading `.message` from a response body decoded as JSON. `ParseThrew`
   * stands for every way this throws: a body that is not JSON, and a body
   * that is the JSON literal `null` (reading a property of null throws).
   * `Parsed(None)` is a decoded value without a string `message`.
   */
  datatype ParsedBody = ParseThrew(error: string) | Parsed(message: Option<string>)

  /** A response as the handlers see it: the `ok` flag, the raw text and its JSON reading. */
  datatype Response = Response(ok: bool, text: string, json: ParsedBody)

  /** An awaited `fetch`: it completes with any HTTP status, or it throws. */
  datatype FetchOutcome = Completed(response: Response) | Threw(error: string)

  /** What a submit handler does once its request is answered. */
  datatype Effect = NavigateTo(path: string) | ShowError(message: string)

  /** JavaScript truthiness of an optional string: absent and "" are falsy. */
  predicate Truthy(v: Option<string>): (r: bool)
    ensures r <==> v != None && v != Some("")
  {
    v.Some? && v.value != ""
  }

  /** `v || fallback` for an optional string `v`. */
  function OrElse(v: Option<string>, fallback: string): (r: string)
    ensures Truthy(v) ==> r == v.value
    ensures !Truthy(v) ==> r == fallback
  {
    if Truthy(v) then v.value else fallback
  }
}
