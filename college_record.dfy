/** The college profile record shared by the backend helpers and the college pages: its six
    user-editable fields and the completeness rule. */
module CollegeRecord {
  import opened Js

  /** The six fields a college can fill in; every input of the setup and edit forms is named
      after one of them. */
  datatype Field = CollegeName | Description | Ranking | Location | NumberOfStudents | EstablishmentDate

  /** The record key (and form input name) of a field. */
  function Key(f: Field): string {
    match f
    case CollegeName => "collegeName"
    case Description => "description"
    case Ranking => "ranking"
    case Location => "location"
    case NumberOfStudents => "numberOfStudents"
    case EstablishmentDate => "establishmentDate"
  }

  const EditableKeys: set<string> :=
    {"collegeName", "description", "ranking", "location", "numberOfStudents", "establishmentDate"}

  /** The fields a profile needs before it counts as completed; the ranking is optional. */
  const RequiredKeys: set<string> :=
    {"collegeName", "description", "location", "numberOfStudents", "establishmentDate"}

  /** Distinct fields have distinct keys, and the keys are exactly the editable ones. */
  lemma KeyInjective(f: Field, g: Field)
    ensures Key(f) == Key(g) ==> f == g
    ensures Key(f) in EditableKeys
    ensures f != Ranking <==> Key(f) in RequiredKeys
  {
  }

  /** The update body built from a record: exactly the six editable fields, each copied from
      the record (undefined where the record has none). */
  function EditablePayload(record: Value): (payload: Value)
    ensures payload.Obj? && payload.fields.Keys == EditableKeys
    ensures forall f: Field :: payload.fields[Key(f)] == OptGet(record, Key(f))
  {
    Obj(map[
      "collegeName" := OptGet(record, "collegeName"),
      "description" := OptGet(record, "description"),
      "ranking" := OptGet(record, "ranking"),
      "location" := OptGet(record, "location"),
      "numberOfStudents" := OptGet(record, "numberOfStudents"),
      "establishmentDate" := OptGet(record, "establishmentDate")
    ])
  }

  /** The completeness check of both backend helper modules: a profile exists and its
      collegeName, description, location, numberOfStudents and establishmentDate are all
      truthy (an empty string counts as missing). */
  predicate CollegeProfileComplete(profile: Value)
    ensures CollegeProfileComplete(profile) ==> profile.Obj? && "collegeName" in profile.fields
  {
    && Truthy(profile)
    && Truthy(OptGet(profile, "collegeName"))
    && Truthy(OptGet(profile, "description"))
    && Truthy(OptGet(profile, "location"))
    && Truthy(OptGet(profile, "numberOfStudents"))
    && Truthy(OptGet(profile, "establishmentDate"))
  }

  /** Completeness is "every required key holds a truthy value". */
  lemma CompleteMeansRequiredPresent(profile: Value)
    ensures CollegeProfileComplete(profile) <==>
              Truthy(profile) && forall k :: k in RequiredKeys ==> Truthy(OptGet(profile, k))
  {
    if Truthy(profile) && forall k :: k in RequiredKeys ==> Truthy(OptGet(profile, k)) {
      assert "collegeName" in RequiredKeys;
      assert "description" in RequiredKeys;
      assert "location" in RequiredKeys;
      assert "numberOfStudents" in RequiredKeys;
      assert "establishmentDate" in RequiredKeys;
    }
  }

  /** The ranking plays no part in completeness: overwriting it never changes the verdict. */
  lemma RankingNotRequired(fields: map<string, Value>, ranking: Value)
    ensures CollegeProfileComplete(Obj(fields)) == CollegeProfileComplete(Obj(fields["ranking" := ranking]))
  {
    var g := fields["ranking" := ranking];
    forall k | k in RequiredKeys
      ensures OptGet(Obj(g), k) == OptGet(Obj(fields), k)
    {
      assert k != "ranking";
    }
    CompleteMeansRequiredPresent(Obj(fields));
    CompleteMeansRequiredPresent(Obj(g));
  }
}
