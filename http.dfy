/** The backend as the application sees it: the requests it sends, the replies it gets,
    and the `{ data: ... }` envelope its resource endpoints use. */
module Http {
  import opened Js

  /** A browser `File` handed to the upload endpoint; its contents are not modelled. */
  datatype FileRef = FileRef(name: string)

  /** The resource operations the application calls. The query strings are built by the
      application; here each filter keeps the value it is built from (a template literal
      renders it with `String(...)`). Write operations send their payload under `data`. */
  datatype Endpoint =
    | StudentProfilesByStudentId(studentId: string)         // GET student-profiles, filter studentId
    | StudentProfilesByCollege(college: string)             // GET student-profiles, filter college
    | CreateStudentProfile(data: Value)                     // POST student-profiles
    | UpdateStudentProfile(documentId: string, data: Value) // PUT student-profiles/:documentId
    | UploadFile(file: FileRef)                             // POST upload, multipart
    | CollegeProfiles                                       // GET college-profiles, no filter
    | CollegeProfilesByUserId(userId: Value)                // GET college-profiles, filter userId
    | CollegeProfilesByUser(id: Value)                      // GET college-profiles, filter user.id
    | CreateCollegeProfile(data: Value)                     // POST college-profiles
    | UpdateCollegeProfile(documentId: string, data: Value) // PUT college-profiles/:documentId
    | DeleteCollegeProfile(documentId: string)              // DELETE college-profiles/:documentId
    | CurrentUser                                           // GET users/me

  /** Every request carries the bearer token in its Authorization header. */
  datatype Request = Request(token: string, endpoint: Endpoint)

  /** What one request produced: either the call itself rejected (network failure), or a
      response with a status and the outcome of parsing its body as JSON. */
  datatype Reply =
    | Failed
    | Reply(status: int, json: Result<Value>)
  {
    /** `res.ok`: the status is in the 2xx range. */
    predicate Ok() {
      Reply? && 200 <= status <= 299
    }
  }

  /** The envelope the backend wraps a payload in. */
  function Envelope(payload: Value): Value {
    Obj(map["data" := payload])
  }

  /** The read shape shared by the helpers: null unless the reply is ok and parses, then the
      first element of `data` if it is truthy, else null. Optional chaining on both steps means
      a missing `data` reaches null without throwing. */
  function FirstOfData(reply: Reply): Value {
    if !reply.Ok() then Null
    else match reply.json
      case Thrown => Null
      case Ok(json) => OrNull(OptFirst(OptGet(json, "data")))
  }

  /** The write shape shared by the helpers: null unless the reply is ok and parses, then the
      `data` field itself if it is truthy, else null. */
  function DataOrNull(reply: Reply): Value {
    if !reply.Ok() then Null
    else match reply.json
      case Thrown => Null
      case Ok(json) => OrNull(OptGet(json, "data"))
  }

  /** What a read helper promises of its result `r`: a record or null; null on a failed call,
      a non-ok status or a body that is not JSON; null when `data` is missing or an empty
      array; otherwise the first element of a `data` array whenever that element is truthy.
      A `data` that is present but not an array is indexed as JavaScript indexes it: a single
      record without a property "0", a number or a boolean gives null. */
  ghost predicate ReadsFirstRecord(reply: Reply, r: Value) {
    && (r == Null || Truthy(r))
    && (!reply.Ok() || reply.json.Thrown? ==> r == Null)
    && (reply.Ok() && reply.json.Ok? ==>
          var data := OptGet(reply.json.value, "data");
          && (Nullish(data) ==> r == Null)
          && (data.Arr? && data.items == [] ==> r == Null)
          && (data.Arr? && data.items != [] ==> r == if Truthy(data.items[0]) then data.items[0] else Null)
          && (!Nullish(data) && !data.Arr? ==> r == OrNull(OptFirst(data))))
  }

  /** What a create or update helper promises of its result `r`: null on a failed call, a
      non-ok status or a body that is not JSON; otherwise the reply's `data` unchanged when it
      is truthy, and null when it is not. */
  ghost predicate ReturnsData(reply: Reply, r: Value) {
    && (!reply.Ok() || reply.json.Thrown? ==> r == Null)
    && (reply.Ok() && reply.json.Ok? ==>
          var data := OptGet(reply.json.value, "data");
          && (Truthy(data) ==> r == data)
          && (!Truthy(data) ==> r == Null))
  }
}

/** What a page does to the browser, recorded instead of performed. */
module Browser {
  import opened Js
  import opened Http

  /** A request sent, a client-side navigation (`router.push`), or a blocking `alert`. */
  datatype Effect = Send(request: Request) | Navigate(path: string) | Alert(message: string)

  /** A JSON record kept in local storage: absent (or empty), present but not JSON, or parsed. */
  datatype Stored = Missing | Unparsable | Parsed(value: Value)

  /** The effects of sending these requests in order. */
  function Sends(requests: seq<Request>): (effects: seq<Effect>)
    ensures |effects| == |requests|
    ensures forall i :: 0 <= i < |requests| ==> effects[i] == Send(requests[i])
  {
    if requests == [] then [] else [Send(requests[0])] + Sends(requests[1..])
  }
}
