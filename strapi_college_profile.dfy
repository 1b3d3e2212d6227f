/** The college profile helpers of the backend client's second module. Its getCollegeProfile
    asks the backend who the current user is before it queries that user's profile, so it takes
    the backend as a function from request to reply and reports the requests it sent. The
    other helpers send one request and take its reply. */
module StrapiCollegeProfile {
  import opened Js
  import opened Http
  import opened CollegeRecord
  import StrapiProfile

  /** The requests a helper sent, in order, and what it returned. */
  datatype Exchange<T> = Exchange(sent: seq<Request>, result: T)

  /** getCollegeProfile: first `users/me`; only when that succeeds and its body is a record,
      a profile query filtered on exactly the `id` it returned, reduced to its first record. */
  function GetCollegeProfile(token: string, backend: Request -> Reply): (x: Exchange<Value>)
    ensures 1 <= |x.sent| <= 2 && x.sent[0] == Request(token, CurrentUser)
    ensures var me := backend(Request(token, CurrentUser));
            (|x.sent| == 2 <==> me.Ok() && me.json.Ok? && !Nullish(me.json.value))
    ensures |x.sent| == 1 ==> x.result == Null
    ensures |x.sent| == 2 ==>
              var me := backend(Request(token, CurrentUser));
              && x.sent[1] == Request(token, CollegeProfilesByUser(OptGet(me.json.value, "id")))
              && ReadsFirstRecord(backend(x.sent[1]), x.result)
  {
    var me := Request(token, CurrentUser);
    var meReply := backend(me);
    if !meReply.Ok() then Exchange([me], Null)
    else match meReply.json
      case Thrown => Exchange([me], Null)
      case Ok(user) =>
        // reading `id` of a null body throws, and the catch answers null
        match Get(user, "id")
        case Thrown => Exchange([me], Null)
        case Ok(userId) =>
          var query := Request(token, CollegeProfilesByUser(userId));
          Exchange([me, query], FirstOfData(backend(query)))
  }

  /** A non-ok `users/me` ends the lookup with null before any profile query is sent. */
  lemma NoProfileQueryWithoutUser(token: string, backend: Request -> Reply)
    requires !backend(Request(token, CurrentUser)).Ok()
    ensures GetCollegeProfile(token, backend) == Exchange([Request(token, CurrentUser)], Null)
  {
  }

  /** getCollegeProfileById, replying to `CollegeProfilesByUserId`: unlike its namesake in the
      other helper module it returns the whole `data` field, not its first element. */
  function GetCollegeProfileById(reply: Reply): (data: Value)
    ensures ReturnsData(reply, data)
  {
    DataOrNull(reply)
  }

  /** The two getCollegeProfileById helpers differ on a query that matches nothing: this one
      returns the (truthy) empty array, the other one null. */
  lemma ByIdVariantsDiffer(status: int)
    requires 200 <= status <= 299
    ensures GetCollegeProfileById(Reply(status, Ok(Envelope(Arr([]))))) == Arr([])
    ensures StrapiProfile.GetCollegeProfileById(Reply(status, Ok(Envelope(Arr([]))))) == Null
  {
  }

  /** createCollegeProfile, replying to `CreateCollegeProfile`: the created record. */
  function CreateCollegeProfile(reply: Reply): (created: Value)
    ensures ReturnsData(reply, created)
  {
    DataOrNull(reply)
  }

  /** updateCollegeProfile, replying to `UpdateCollegeProfile`: the updated record. */
  function UpdateCollegeProfile(reply: Reply): (updated: Value)
    ensures ReturnsData(reply, updated)
  {
    DataOrNull(reply)
  }

  /** A successful create or update of this module hands back the record inside the envelope
      unchanged. */
  lemma CreateUnwrapsEnvelope(status: int, record: Value)
    requires 200 <= status <= 299 && Truthy(record)
    ensures CreateCollegeProfile(Reply(status, Ok(Envelope(record)))) == record
    ensures UpdateCollegeProfile(Reply(status, Ok(Envelope(record)))) == record
  {
  }

  /** deleteCollegeProfile, replying to `DeleteCollegeProfile`: the status flag, false when
      the call itself failed. */
  function DeleteCollegeProfile(reply: Reply): (deleted: bool)
    ensures deleted <==> reply.Reply? && 200 <= reply.status <= 299
  {
    reply.Ok()
  }

  /** hasCompletedCollegeProfile: the completeness of what getCollegeProfile finds; it can only
      hold once the profile query was actually sent. */
  function HasCompletedCollegeProfile(token: string, backend: Request -> Reply): (done: bool)
    ensures GetCollegeProfile(token, backend).result == Null ==> !done
    ensures done <==>
              var profile := GetCollegeProfile(token, backend).result;
              Truthy(profile) && forall k :: k in RequiredKeys ==> Truthy(OptGet(profile, k))
    ensures done ==> |GetCollegeProfile(token, backend).sent| == 2
  {
    var profile := GetCollegeProfile(token, backend).result;
    CompleteMeansRequiredPresent(profile);
    CollegeProfileComplete(profile)
  }
}
