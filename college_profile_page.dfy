/** The college's profile page: it loads the college's profile, shows it, and lets the college
    edit the six editable fields and save them or cancel. */
module CollegeProfilePage {
  import opened Js
  import opened Http
  import opened Browser
  import opened CollegeRecord
  import StrapiProfile

  /** `{ ...record, [key]: value }`: the record's own fields with `key` set to `value`. */
  function SetField(record: Value, key: string, value: Value): (r: Value)
    ensures r.Obj? && OptGet(r, key) == value
    ensures record.Obj? ==> r.fields.Keys == record.fields.Keys + {key}
    ensures record.Obj? ==> forall k :: k != key ==> OptGet(r, k) == OptGet(record, k)
  {
    var own := if record.Obj? then record.fields else map[];
    Obj(own[key := value])
  }

  /** The `documentId` of the user record kept in the browser: a missing record reads as `{}`,
      so the id is undefined; parsing a malformed record, or reading a field of a stored `null`,
      throws. */
  function StoredDocId(stored: Stored): (r: Result<Value>)
    ensures stored.Missing? ==> r == Ok(Undefined)
    ensures r.Thrown? <==> stored.Unparsable? || (stored.Parsed? && Nullish(stored.value))
    ensures stored.Parsed? && r.Ok? ==> r.value == OptGet(stored.value, "documentId")
  {
    match stored
    case Missing => Ok(Undefined)
    case Unparsable => Thrown
    case Parsed(v) => Get(v, "documentId")
  }

  /** What the page shows. */
  datatype Screen = Loading | NoProfile | Showing(record: Value)

  const LoginPath := "/auth/login"
  const SetupPath := "/auth/college-profile"

  class ProfileEditor {
    var profile: Value
    var editedProfile: Value
    var editing: bool
    var saving: bool
    var loading: bool
    var effects: seq<Effect>

    /** Between two handlers: each of the two records is null or a truthy record, one is null
        exactly when the other is, and no save is under way. */
    ghost predicate Valid()
      reads this
    {
      && (profile == Null || Truthy(profile))
      && (editedProfile == Null || Truthy(editedProfile))
      && (profile == Null <==> editedProfile == Null)
      && !saving
    }

    constructor ()
      ensures Valid()
      ensures profile == Null && editedProfile == Null
      ensures !editing && !saving && loading && effects == []
    {
      profile := Null;
      editedProfile := Null;
      editing := false;
      saving := false;
      loading := true;
      effects := [];
    }

    /** The record on screen: the edited copy while editing, the saved profile otherwise. */
    function DisplayProfile(): (r: Value)
      reads this
      ensures editing ==> r == editedProfile
      ensures !editing ==> r == profile
      ensures Valid() ==> (r == Null <==> profile == Null)
    {
      if editing then editedProfile else profile
    }

    function View(): (s: Screen)
      reads this
      ensures s.Loading? <==> loading
      ensures !loading && !Truthy(profile) ==> s == NoProfile
      ensures !loading && Truthy(profile) ==> s == Showing(if editing then editedProfile else profile)
    {
      if loading then Loading
      else if !Truthy(profile) then NoProfile
      else Showing(DisplayProfile())
    }

    /** loadProfile: with no token, off to the login page and no request. Otherwise the profile
        of the stored user is fetched; a profile found becomes both the saved and the edited
        record, a missing one sends the college to the setup page. Loading always ends. */
    method LoadProfile(token: Option<string>, storedUser: Stored, backend: Request -> Reply)
      requires Valid()
      modifies this
      ensures Valid() && !loading && editing == old(editing)
      ensures !Present(token) ==>
                && effects == old(effects) + [Navigate(LoginPath)]
                && profile == old(profile) && editedProfile == old(editedProfile)
      ensures Present(token) && StoredDocId(storedUser).Thrown? ==>
                && effects == old(effects)
                && profile == old(profile) && editedProfile == old(editedProfile)
      ensures Present(token) && StoredDocId(storedUser).Ok? ==>
                var request := Request(token.value, CollegeProfilesByUserId(StoredDocId(storedUser).value));
                var data := StrapiProfile.GetCollegeProfileById(backend(request));
                && (Truthy(data) ==>
                      && profile == data && editedProfile == data
                      && effects == old(effects) + [Send(request)])
                && (!Truthy(data) ==>
                      && profile == old(profile) && editedProfile == old(editedProfile)
                      && effects == old(effects) + [Send(request), Navigate(SetupPath)])
    {
      loading := true;
      if !Present(token) {
        effects := effects + [Navigate(LoginPath)];
        loading := false;
        return;
      }
      var docId := StoredDocId(storedUser);
      if docId.Thrown? {
        loading := false;
        return;
      }
      var request := Request(token.value, CollegeProfilesByUserId(docId.value));
      effects := effects + [Send(request)];
      var data := StrapiProfile.GetCollegeProfileById(backend(request));
      if Truthy(data) {
        profile := data;
        editedProfile := data;
      } else {
        effects := effects + [Navigate(SetupPath)];
      }
      loading := false;
    }

    /** The "Edit Profile" button. */
    method StartEditing()
      requires Valid()
      modifies this`editing
      ensures Valid() && editing
    {
      editing := true;
    }

    /** handleInputChange: sets one field of the edited copy; with no edited copy there
        stays none. */
    method HandleInputChange(field: Field, value: string)
      requires Valid()
      modifies this`editedProfile
      ensures Valid()
      ensures editedProfile ==
                if Truthy(old(editedProfile)) then SetField(old(editedProfile), Key(field), Str(value)) else Null
    {
      editedProfile := if Truthy(editedProfile) then SetField(editedProfile, Key(field), Str(value)) else Null;
    }

    /** handleSave: nothing happens without an edited copy or a saved profile with a document
        id. Without a token, an alert and the login page. Otherwise the six editable fields of
        the edited copy are sent; the record the backend returns becomes both the saved and the
        edited record and editing ends, and a failed update changes nothing but an alert. */
    method HandleSave(token: Option<string>, backend: Request -> Reply)
      requires Valid()
      modifies this
      ensures Valid() && loading == old(loading)
      ensures !Truthy(old(editedProfile)) || !Truthy(OptGet(old(profile), "documentId")) ==>
                && effects == old(effects) && editing == old(editing)
                && profile == old(profile) && editedProfile == old(editedProfile)
      ensures Truthy(old(editedProfile)) && Truthy(OptGet(old(profile), "documentId")) && !Present(token) ==>
                && effects == old(effects) + [Alert("Please login first"), Navigate(LoginPath)]
                && editing == old(editing)
                && profile == old(profile) && editedProfile == old(editedProfile)
      ensures Truthy(old(editedProfile)) && Truthy(OptGet(old(profile), "documentId")) && Present(token) ==>
                var request := Request(token.value,
                  UpdateCollegeProfile(ToStr(OptGet(old(profile), "documentId")), EditablePayload(old(editedProfile))));
                var updated := StrapiProfile.UpdateCollegeProfile(backend(request));
                && (Truthy(updated) ==>
                      && profile == updated && editedProfile == updated && !editing
                      && effects == old(effects) + [Send(request), Alert("Profile updated successfully!")])
                && (!Truthy(updated) ==>
                      && profile == old(profile) && editedProfile == old(editedProfile)
                      && editing == old(editing)
                      && effects == old(effects) + [Send(request), Alert("Failed to update profile")])
    {
      var docId := OptGet(profile, "documentId");
      if !Truthy(editedProfile) || !Truthy(docId) {
        return;
      }
      saving := true;
      if !Present(token) {
        effects := effects + [Alert("Please login first"), Navigate(LoginPath)];
        saving := false;
        return;
      }
      var request := Request(token.value, UpdateCollegeProfile(ToStr(docId), EditablePayload(editedProfile)));
      effects := effects + [Send(request)];
      var updated := StrapiProfile.UpdateCollegeProfile(backend(request));
      if Truthy(updated) {
        profile := updated;
        editedProfile := updated;
        editing := false;
        effects := effects + [Alert("Profile updated successfully!")];
      } else {
        effects := effects + [Alert("Failed to update profile")];
      }
      saving := false;
    }

    /** handleCancel: the edited copy goes back to the saved profile and editing ends; nothing
        is sent. */
    method HandleCancel()
      requires Valid()
      modifies this`editedProfile, this`editing
      ensures Valid() && editedProfile == profile && !editing
    {
      editedProfile := profile;
      editing := false;
    }
  }

  /** Editing a field and cancelling puts back what was on screen, without any request. */
  method EditThenCancel(page: ProfileEditor, field: Field, value: string)
    requires page.Valid() && !page.editing
    modifies page
    ensures page.Valid() && page.View() == old(page.View())
    ensures page.profile == old(page.profile) && page.effects == old(page.effects)
  {
    page.StartEditing();
    page.HandleInputChange(field, value);
    page.HandleCancel();
  }
}
