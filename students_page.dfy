/** The college's student list page: it loads the student profiles of the college whose name
    is cached in the browser, projects each raw record onto the list's shape, and renders an
    avatar, a row of skill chips and a profile link per student. */
module StudentsPage {
  import opened Js
  import opened Http
  import opened Browser

  /** One row of the list. The projection only relabels and defaults fields of the raw profile,
      so the fields keep the raw values (the page's type casts do not convert anything). */
  datatype Student = Student(
    id: string,
    documentId: Value,
    name: Value,
    email: Value,
    department: Value,
    year: Value,
    status: string,
    course: Value,
    graduationYear: Value,
    skills: Value,
    avatarUrl: Value)

  /** The list shape of one raw student profile. Reading a field of a null record throws. */
  function Project(raw: Value): (r: Result<Student>)
    ensures r.Thrown? <==> Nullish(raw)
    ensures r.Ok? ==>
              var s := r.value;
              && s.documentId == OptGet(raw, "studentId")
              && s.status == "Active"
              && s.course == OptGet(raw, "course")
              && s.graduationYear == OptGet(raw, "graduationYear")
              && (Nullish(OptGet(raw, "id")) ==> s.id == "")
              && (!Nullish(OptGet(raw, "id")) ==> s.id == ToStr(OptGet(raw, "id")))
              && (OptGet(raw, "id").Num? ==> s.id == IntToDecimal(OptGet(raw, "id").n))
    ensures r.Ok? ==>
              var s := r.value;
              && Truthy(s.name) && Truthy(s.email)
              && (Truthy(OptGet(raw, "name")) ==> s.name == OptGet(raw, "name"))
              && (!Truthy(OptGet(raw, "name")) ==> s.name == Str("Unknown Student"))
              && (Truthy(OptGet(raw, "email")) ==> s.email == OptGet(raw, "email"))
              && (!Truthy(OptGet(raw, "email")) ==> s.email == Str("No email"))
    ensures r.Ok? ==>
              var s := r.value;
              && (Truthy(OptGet(raw, "department")) ==> s.department == OptGet(raw, "department"))
              && (!Truthy(OptGet(raw, "department")) ==> s.department == OptGet(raw, "course"))
              && (Truthy(OptGet(raw, "year")) ==> s.year == OptGet(raw, "year"))
              && (!Truthy(OptGet(raw, "year")) ==> s.year == OptGet(raw, "graduationYear"))
    ensures r.Ok? ==>
              var s := r.value;
              && Truthy(s.skills)
              && (Truthy(OptGet(raw, "skills")) ==> s.skills == OptGet(raw, "skills"))
              && (!Truthy(OptGet(raw, "skills")) ==> s.skills == Arr([]))
              && (Truthy(OptGet(raw, "avatarUrl")) ==> s.avatarUrl == OptGet(raw, "avatarUrl"))
              && (!Truthy(OptGet(raw, "avatarUrl")) ==> s.avatarUrl == Null)
  {
    if Nullish(raw) then Thrown
    else
      var rawId := OptGet(raw, "id");
      Ok(Student(
        id := if Nullish(rawId) then "" else ToStr(rawId),
        documentId := OptGet(raw, "studentId"),
        name := Or(OptGet(raw, "name"), Str("Unknown Student")),
        email := Or(OptGet(raw, "email"), Str("No email")),
        department := Or(OptGet(raw, "department"), OptGet(raw, "course")),
        year := Or(OptGet(raw, "year"), OptGet(raw, "graduationYear")),
        status := "Active",
        course := OptGet(raw, "course"),
        graduationYear := OptGet(raw, "graduationYear"),
        skills := Or(OptGet(raw, "skills"), Arr([])),
        avatarUrl := Or(OptGet(raw, "avatarUrl"), Null)))
  }

  /** The projection of every fetched record, in order (`Array.prototype.map`); it throws as
      soon as one record is null. */
  function ProjectAll(records: seq<Value>): (r: Result<seq<Student>>)
    ensures r.Thrown? <==> exists i :: 0 <= i < |records| && Nullish(records[i])
    ensures r.Ok? ==> |r.value| == |records|
    ensures r.Ok? ==> forall i :: 0 <= i < |records| ==> Project(records[i]) == Ok(r.value[i])
  {
    if records == [] then Ok([])
    else match Project(records[0])
      case Thrown => Thrown
      case Ok(first) =>
        match ProjectAll(records[1..])
        case Thrown =>
          ghost var i :| 0 <= i < |records[1..]| && Nullish(records[1..][i]);
          assert Nullish(records[i + 1]);
          Thrown
        case Ok(rest) =>
          assert forall i :: 1 <= i < |records| ==> records[i] == records[1..][i - 1];
          Ok([first] + rest)
  }

  /** The avatar letter a word contributes: its first character upper-cased. An empty word
      contributes nothing, since its first character is undefined and `join` renders that as "". */
  function Lead(word: string): (r: string)
    ensures |r| <= 1
  {
    if word == "" then "" else [UpperChar(word[0])]
  }

  /** The avatar initials: the name split on single spaces, the first character of every
      piece, the first two of those joined, upper-cased. Empty pieces still take one of the
      two places, so a leading space leaves one letter at most. */
  function Initials(name: string): (r: string)
    ensures |r| <= 2
    ensures var words := Split(name, ' ');
            r == Lead(words[0]) + (if |words| > 1 then Lead(words[1]) else "")
    ensures name != "" && name[0] != ' ' ==> |r| >= 1 && r[0] == UpperChar(name[0])
    ensures ' ' !in name ==> r == Lead(name)
  {
    var words := Split(name, ' ');
    var firsts := seq(|words|, i requires 0 <= i < |words| => if words[i] == "" then "" else [words[i][0]]);
    var kept := firsts[..if |firsts| < 2 then |firsts| else 2];
    var joined := Concat(kept);
    InitialsClosedForm(words, firsts, kept, joined);
    SplitHead(name, ' ');
    ToUpper(joined)
  }

  lemma InitialsClosedForm(words: seq<string>, firsts: seq<string>, kept: seq<string>, joined: string)
    requires |words| >= 1 && |firsts| == |words|
    requires forall i :: 0 <= i < |words| ==> firsts[i] == if words[i] == "" then "" else [words[i][0]]
    requires kept == firsts[..if |firsts| < 2 then |firsts| else 2]
    requires joined == Concat(kept)
    ensures ToUpper(joined) == Lead(words[0]) + (if |words| > 1 then Lead(words[1]) else "")
  {
    var tail := if |words| > 1 then firsts[1] else "";
    assert Concat(kept[1..]) == tail by {
      if |words| > 1 {
        assert kept[1..] == [firsts[1]];
        assert Concat([firsts[1]]) == firsts[1] + Concat([]);
      } else {
        assert kept[1..] == [];
      }
    }
    assert joined == firsts[0] + tail;
    var upper := ToUpper(joined);
    var want := Lead(words[0]) + (if |words| > 1 then Lead(words[1]) else "");
    assert |upper| == |want|;
    forall k | 0 <= k < |upper|
      ensures upper[k] == want[k]
    {
      if k < |firsts[0]| {
        assert joined[k] == firsts[0][k];
      } else {
        assert joined[k] == tail[k - |firsts[0]|];
      }
    }
  }

  /** What the avatar circle shows: the avatar image when there is a URL, otherwise the
      initials of a string name. Splitting a name that is not a string throws while rendering. */
  datatype Avatar = Image(src: Value) | Letters(text: string) | Unrenderable

  function AvatarOf(s: Student): (a: Avatar)
    ensures a.Image? <==> Truthy(s.avatarUrl)
    ensures a.Image? ==> a.src == s.avatarUrl
    ensures !Truthy(s.avatarUrl) && s.name.Str? ==> a == Letters(Initials(s.name.s))
    ensures a.Letters? ==> s.name.Str? && a.text == Initials(s.name.s) && |a.text| <= 2
    ensures a.Unrenderable? <==> !Truthy(s.avatarUrl) && !s.name.Str?
  {
    if Truthy(s.avatarUrl) then Image(s.avatarUrl)
    else if s.name.Str? then Letters(Initials(s.name.s))
    else Unrenderable
  }

  /** The skill chips of a row: at most the first four skills, then a "+N more" chip. */
  datatype Chips = Chips(shown: seq<Value>, more: Option<nat>)

  /** `v > 0` for the `length` property of an object: a positive number, or `true`, which
      compares as 1. */
  predicate PositiveLength(v: Value) {
    (v.Num? && v.n > 0) || v == Bool(true)
  }

  /** The chip row is drawn when `skills` has a positive length. Every non-empty array of
      skills has one. A non-empty string has one too, and so does an object whose `length`
      property is positive; neither has the array methods the chips are drawn with, so the
      rendering throws. */
  function SkillChips(skills: Value): (r: Result<Option<Chips>>)
    ensures r.Thrown? <==>
              || (skills.Str? && skills.s != "")
              || (skills.Obj? && PositiveLength(OptGet(skills, "length")))
    ensures r == Ok(None) <==>
              && !(skills.Arr? && |skills.items| > 0)
              && !(skills.Str? && skills.s != "")
              && !(skills.Obj? && PositiveLength(OptGet(skills, "length")))
    ensures r.Ok? && r.value.Some? ==>
              var n := |skills.items|;
              var c := r.value.value;
              && skills.Arr? && n > 0
              && |c.shown| == (if n < 4 then n else 4) && c.shown == skills.items[..|c.shown|]
              && (c.more.Some? <==> n > 4)
              && (c.more.Some? ==> c.more.value == n - 4)
              && |c.shown| + (if c.more.Some? then c.more.value else 0) == n
  {
    match skills
    case Arr(items) =>
      if |items| == 0 then Ok(None)
      else
        var shown := items[..if |items| < 4 then |items| else 4];
        Ok(Some(Chips(shown, if |items| > 4 then Some(|items| - 4) else None)))
    case Str(s) => if s == "" then Ok(None) else Thrown
    case Obj(_) => if PositiveLength(OptGet(skills, "length")) then Thrown else Ok(None)
    case _ => Ok(None)
  }

  /** The "View Profile" button: navigates to the student's public profile, and only for a
      student with a document id. */
  function ProfileLink(s: Student): (path: Option<string>)
    ensures path.Some? <==> Truthy(s.documentId)
    ensures path.Some? ==> path.value == "/profile?userId=" + ToStr(s.documentId)
    ensures path.Some? && s.documentId.Str? ==> path.value == "/profile?userId=" + s.documentId.s
  {
    if Truthy(s.documentId) then Some("/profile?userId=" + ToStr(s.documentId)) else None
  }

  /** `fetchData`: the parsed body, whatever the status; it throws when the call fails or the
      body is not JSON. */
  function FetchJson(reply: Reply): Result<Value> {
    match reply
    case Failed => Thrown
    case Reply(_, json) => json
  }

  /** What one run of fetchStudents decides: the requests sent, and the list it stores (None
      when it leaves the list as it was). */
  datatype Fetch = Fetch(sent: seq<Request>, list: Option<seq<Student>>)

  /** fetchStudents as data. It needs a token; it asks for the college profiles and, when there
      is one, takes the college name cached in the browser; it then queries the students of that
      college and projects them. Each failure empties the list. */
  function FetchStudentsSpec(token: Option<string>, cachedCollegeName: Option<string>, backend: Request -> Reply): (f: Fetch)
    ensures !Present(token) ==> f == Fetch([], Some([]))
    ensures Present(token) ==> 1 <= |f.sent| <= 2 && f.sent[0] == Request(token.value, CollegeProfiles)
    ensures !Present(cachedCollegeName) ==> |f.sent| <= 1 && f.list == Some([])
    ensures |f.sent| == 2 ==>
              && Present(token) && Present(cachedCollegeName)
              && f.sent[1] == Request(token.value, StudentProfilesByCollege(cachedCollegeName.value))
    ensures Present(token) && Present(cachedCollegeName) ==>
              var first := FetchJson(backend(Request(token.value, CollegeProfiles)));
              (|f.sent| == 2 <==>
                 && first.Ok?
                 && OptGet(first.value, "data").Arr? && |OptGet(first.value, "data").items| > 0)
    ensures |f.sent| == 2 ==>
              var data := FetchJson(backend(f.sent[1]));
              && (data.Thrown? ==> f.list == Some([]))
              && (data.Ok? && OptGet(data.value, "data").Arr? ==>
                    var projected := ProjectAll(OptGet(data.value, "data").items);
                    f.list == Some(if projected.Ok? then projected.value else []))
    ensures f.list.None? <==>
              && |f.sent| == 2
              && var data := FetchJson(backend(f.sent[1]));
                 data.Ok? && !OptGet(data.value, "data").Arr?
    ensures f.list.Some? && f.list.value != [] ==>
              && |f.sent| == 2
              && var data := FetchJson(backend(f.sent[1]));
              && data.Ok? && OptGet(data.value, "data").Arr?
              && ProjectAll(OptGet(data.value, "data").items) == Ok(f.list.value)
  {
    if !Present(token) then Fetch([], Some([]))
    else
      var colleges := Request(token.value, CollegeProfiles);
      match FetchJson(backend(colleges))
      case Thrown => Fetch([colleges], Some([]))
      case Ok(collegeData) =>
        var profiles := OptGet(collegeData, "data");
        var name :=
          if Truthy(profiles) && profiles.Arr? && |profiles.items| > 0 && cachedCollegeName.Some?
          then cachedCollegeName.value else "";
        if name == "" then Fetch([colleges], Some([]))
        else
          var students := Request(token.value, StudentProfilesByCollege(name));
          match FetchJson(backend(students))
          case Thrown => Fetch([colleges, students], Some([]))
          case Ok(data) =>
            var records := OptGet(data, "data");
            if records.Arr? then
              match ProjectAll(records.items)
              case Thrown => Fetch([colleges, students], Some([]))
              case Ok(list) => Fetch([colleges, students], Some(list))
            else Fetch([colleges, students], None)
  }

  /** What the list area shows. */
  datatype ListView = Spinner | NoStudents | Rows(students: seq<Student>)

  /** The page's state: the students listed, the loading flag, and what it did to the browser. */
  class StudentList {
    var students: seq<Student>
    var loading: bool
    var effects: seq<Effect>

    constructor ()
      ensures students == [] && loading && effects == []
    {
      students := [];
      loading := true;
      effects := [];
    }

    function View(): (v: ListView)
      reads this
      ensures v.Spinner? <==> loading
      ensures v.NoStudents? <==> !loading && students == []
      ensures !loading && students != [] ==> v == Rows(students)
    {
      if loading then Spinner else if students == [] then NoStudents else Rows(students)
    }

    /** The mount effect. Whatever happens, loading is over afterwards. */
    method FetchStudents(token: Option<string>, cachedCollegeName: Option<string>, backend: Request -> Reply)
      modifies this
      ensures !loading
      ensures var f := FetchStudentsSpec(token, cachedCollegeName, backend);
              && effects == old(effects) + Sends(f.sent)
              && students == (if f.list.Some? then f.list.value else old(students))
    {
      loading := true;
      if !Present(token) {
        students := [];
        loading := false;
        return;
      }
      var colleges := Request(token.value, CollegeProfiles);
      effects := effects + [Send(colleges)];
      var collegeData := FetchJson(backend(colleges));
      if collegeData.Thrown? {
        students := [];
        loading := false;
        return;
      }
      var currentCollegeName := "";
      var profiles := OptGet(collegeData.value, "data");
      if Truthy(profiles) && profiles.Arr? && |profiles.items| > 0 {
        currentCollegeName := if cachedCollegeName.Some? then cachedCollegeName.value else "";
      }
      if currentCollegeName == "" {
        students := [];
        loading := false;
        return;
      }
      var query := Request(token.value, StudentProfilesByCollege(currentCollegeName));
      effects := effects + [Send(query)];
      var data := FetchJson(backend(query));
      if data.Thrown? {
        students := [];
      } else {
        var records := OptGet(data.value, "data");
        if records.Arr? {
          var projected := ProjectAll(records.items);
          students := if projected.Ok? then projected.value else [];
        }
      }
      loading := false;
    }

    /** The row button: the navigation it causes, if any. */
    method HandleProfileClick(s: Student)
      modifies this
      ensures var link := ProfileLink(s);
              effects == old(effects) + (if link.Some? then [Navigate(link.value)] else [])
      ensures students == old(students) && loading == old(loading)
    {
      var link := ProfileLink(s);
      if link.Some? {
        effects := effects + [Navigate(link.value)];
      }
    }
  }
}
