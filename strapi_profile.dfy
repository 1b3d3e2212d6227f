/** The student and college profile helpers of the backend client. Each helper sends one
    request and reduces the reply to a record, a flag or null; every helper catches its own
    errors, so none of them throws. Each function here takes the reply to the request its
    namesake sends. */
module StrapiProfile {
  import opened Js
  import opened Http
  import opened CollegeRecord

  /** getStudentProfile, replying to `StudentProfilesByStudentId`: the first matching profile. */
  function GetStudentProfile(reply: Reply): (profile: Value)
    ensures ReadsFirstRecord(reply, profile)
  {
    FirstOfData(reply)
  }

  /** createStudentProfile, replying to `CreateStudentProfile`: the created record. */
  function CreateStudentProfile(reply: Reply): (created: Value)
    ensures ReturnsData(reply, created)
  {
    DataOrNull(reply)
  }

  /** updateStudentProfile, replying to `UpdateStudentProfile`: the updated record. */
  function UpdateStudentProfile(reply: Reply): (updated: Value)
    ensures ReturnsData(reply, updated)
  {
    DataOrNull(reply)
  }

  /** The id and URL of an uploaded media file. */
  datatype Uploaded = Uploaded(id: Value, url: Value)

  /** uploadFile, replying to `UploadFile`: the upload endpoint answers with a bare array of
      media records; the first one's id and url are returned. */
  function UploadFile(reply: Reply): (r: Option<Uploaded>)
    ensures r.Some? <==>
              && reply.Ok() && reply.json.Ok?
              && reply.json.value.Arr? && |reply.json.value.items| > 0
              && Truthy(reply.json.value.items[0])
    ensures r.Some? ==>
              var media := reply.json.value.items[0];
              r.value == Uploaded(OptGet(media, "id"), OptGet(media, "url"))
  {
    if !reply.Ok() then None
    else match reply.json
      case Thrown => None
      case Ok(json) =>
        if json.Arr? && Truthy(OptFirst(json)) then
          var media := OptFirst(json);
          Some(Uploaded(OptGet(media, "id"), OptGet(media, "url")))
        else None
  }

  /** The fields a student profile needs before it counts as completed. */
  const StudentRequiredKeys: set<string> := {"name", "college", "course", "graduationYear", "about"}

  predicate StudentProfileComplete(profile: Value)
    ensures StudentProfileComplete(profile) ==> profile.Obj? && "name" in profile.fields
  {
    && Truthy(profile)
    && Truthy(OptGet(profile, "name"))
    && Truthy(OptGet(profile, "college"))
    && Truthy(OptGet(profile, "course"))
    && Truthy(OptGet(profile, "graduationYear"))
    && Truthy(OptGet(profile, "about"))
  }

  /** hasCompletedProfile, given the reply to the getStudentProfile call it makes: false when
      there is no profile, otherwise true exactly when every required field is non-empty. */
  function HasCompletedProfile(reply: Reply): (done: bool)
    ensures GetStudentProfile(reply) == Null ==> !done
    ensures done <==>
              var profile := GetStudentProfile(reply);
              Truthy(profile) && forall k :: k in StudentRequiredKeys ==> Truthy(OptGet(profile, k))
  {
    var profile := GetStudentProfile(reply);
    StudentCompleteMeansRequiredPresent(profile);
    StudentProfileComplete(profile)
  }

  /** Student completeness is "every required key holds a truthy value". */
  lemma StudentCompleteMeansRequiredPresent(profile: Value)
    ensures StudentProfileComplete(profile) <==>
              Truthy(profile) && forall k :: k in StudentRequiredKeys ==> Truthy(OptGet(profile, k))
  {
    if Truthy(profile) && forall k :: k in StudentRequiredKeys ==> Truthy(OptGet(profile, k)) {
      assert "name" in StudentRequiredKeys && "college" in StudentRequiredKeys;
      assert "course" in StudentRequiredKeys && "graduationYear" in StudentRequiredKeys;
      assert "about" in StudentRequiredKeys;
    }
  }

  /** getCollegeProfile, replying to the unfiltered `CollegeProfiles` query: the first record. */
  function GetCollegeProfile(reply: Reply): (profile: Value)
    ensures ReadsFirstRecord(reply, profile)
  {
    FirstOfData(reply)
  }

  /** getCollegeProfileById, replying to `CollegeProfilesByUserId`. Only the body is read with
      optional chaining, so a body without `data` makes the indexing throw, which the helper's
      catch turns into null; a null body short-circuits the whole chain. */
  function GetCollegeProfileById(reply: Reply): (profile: Value)
    ensures ReadsFirstRecord(reply, profile)
  {
    if !reply.Ok() then Null
    else match reply.json
      case Thrown => Null
      case Ok(json) =>
        if Nullish(json) then Null
        else match First(OptGet(json, "data"))
          case Thrown => Null
          case Ok(first) => OrNull(first)
  }

  /** The throwing path of getCollegeProfileById ends where getCollegeProfile's optional
      chaining does: both return the same record for every reply. */
  lemma ByIdAgreesWithUnfiltered(reply: Reply)
    ensures GetCollegeProfileById(reply) == GetCollegeProfile(reply)
  {
  }

  /** createCollegeProfile, replying to `CreateCollegeProfile`: the created record. */
  function CreateCollegeProfile(reply: Reply): (created: Value)
    ensures ReturnsData(reply, created)
  {
    DataOrNull(reply)
  }

  /** updateCollegeProfile, replying to `UpdateCollegeProfile`: the updated record. */
  function UpdateCollegeProfile(reply: Reply): (updated: Value)
    ensures ReturnsData(reply, updated)
  {
    DataOrNull(reply)
  }

  /** deleteCollegeProfile, replying to `DeleteCollegeProfile`: the status flag, false when
      the call itself failed. The body is never read. */
  function DeleteCollegeProfile(reply: Reply): (deleted: bool)
    ensures deleted <==> reply.Reply? && 200 <= reply.status <= 299
  {
    reply.Ok()
  }

  /** hasCompletedCollegeProfile, given the reply to the getCollegeProfile call it makes. The
      document id it is passed takes no part in the answer. */
  function HasCompletedCollegeProfile(docId: string, reply: Reply): (done: bool)
    ensures GetCollegeProfile(reply) == Null ==> !done
    ensures done <==>
              var profile := GetCollegeProfile(reply);
              Truthy(profile) && forall k :: k in RequiredKeys ==> Truthy(OptGet(profile, k))
  {
    var profile := GetCollegeProfile(reply);
    CompleteMeansRequiredPresent(profile);
    CollegeProfileComplete(profile)
  }

  /** Whatever document id is passed, the verdict is the same. */
  lemma HasCompletedIgnoresDocId(docId1: string, docId2: string, reply: Reply)
    ensures HasCompletedCollegeProfile(docId1, reply) == HasCompletedCollegeProfile(docId2, reply)
  {
  }

  /** A successful create or update of this module hands back the record inside the envelope
      unchanged, so a created record carrying `id: 1` comes back with `id: 1`. */
  lemma CreateUnwrapsEnvelope(status: int, record: Value)
    requires 200 <= status <= 299 && Truthy(record)
    ensures CreateCollegeProfile(Reply(status, Ok(Envelope(record)))) == record
    ensures UpdateCollegeProfile(Reply(status, Ok(Envelope(record)))) == record
    ensures CreateStudentProfile(Reply(status, Ok(Envelope(record)))) == record
    ensures UpdateStudentProfile(Reply(status, Ok(Envelope(record)))) == record
  {
  }

  /** A reply carrying a single record under `data` instead of an array gives null from every
      first-record read, since the record has no property "0". */
  lemma SingleRecordReadsNull(status: int, fields: map<string, Value>)
    requires 200 <= status <= 299 && "0" !in fields
    ensures GetStudentProfile(Reply(status, Ok(Envelope(Obj(fields))))) == Null
    ensures GetCollegeProfile(Reply(status, Ok(Envelope(Obj(fields))))) == Null
    ensures GetCollegeProfileById(Reply(status, Ok(Envelope(Obj(fields))))) == Null
  {
  }

  /** A query that matches nothing answers `{ data: [] }`, and the lookup gives null; with at
      least one match it gives the first. */
  lemma ReadOfEnvelope(status: int, records: seq<Value>)
    requires 200 <= status <= 299
    ensures records == [] ==> GetStudentProfile(Reply(status, Ok(Envelope(Arr(records))))) == Null
    ensures records != [] && Truthy(records[0]) ==>
              GetStudentProfile(Reply(status, Ok(Envelope(Arr(records))))) == records[0]
  {
  }
}
