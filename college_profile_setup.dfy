/** The college profile setup form: six text inputs and a submit that creates the profile. */
module CollegeProfileSetup {
  import opened Js
  import opened Http
  import opened Browser
  import opened CollegeRecord

  /** The form's state, one string per editable field. */
  datatype Form = Form(
    collegeName: string,
    description: string,
    ranking: string,
    location: string,
    numberOfStudents: string,
    establishmentDate: string)
  {
    function Get(f: Field): string {
      match f
      case CollegeName => collegeName
      case Description => description
      case Ranking => ranking
      case Location => location
      case NumberOfStudents => numberOfStudents
      case EstablishmentDate => establishmentDate
    }

    /** `{ ...prev, [name]: value }` for the input named after `f`: that field takes the value,
        every other field keeps its own. */
    function Set(f: Field, v: string): (r: Form)
      ensures r.Get(f) == v
      ensures forall g: Field :: g != f ==> r.Get(g) == Get(g)
    {
      match f
      case CollegeName => this.(collegeName := v)
      case Description => this.(description := v)
      case Ranking => this.(ranking := v)
      case Location => this.(location := v)
      case NumberOfStudents => this.(numberOfStudents := v)
      case EstablishmentDate => this.(establishmentDate := v)
    }
  }

  const EmptyForm := Form("", "", "", "", "", "")

  /** The record posted under `data`: the six fields as strings, nothing else. */
  function FormPayload(form: Form): (payload: Value)
    ensures payload.Obj? && payload.fields.Keys == EditableKeys
    ensures forall f: Field :: payload.fields[Key(f)] == Str(form.Get(f))
  {
    Obj(map[
      "collegeName" := Str(form.collegeName),
      "description" := Str(form.description),
      "ranking" := Str(form.ranking),
      "location" := Str(form.location),
      "numberOfStudents" := Str(form.numberOfStudents),
      "establishmentDate" := Str(form.establishmentDate)
    ])
  }

  /** The posted body is the edit page's update body of the same values: the setup page and the
      edit page write the same six fields. */
  lemma PayloadIsEditablePayload(form: Form)
    ensures FormPayload(form) == EditablePayload(FormPayload(form))
  {
    var p := FormPayload(form);
    var q := EditablePayload(p);
    forall k | k in EditableKeys
      ensures q.fields[k] == p.fields[k]
    {
      assert k == "collegeName" || k == "description" || k == "ranking" || k == "location"
          || k == "numberOfStudents" || k == "establishmentDate";
    }
    assert q.fields == p.fields;
  }

  const LoginPath := "/auth/login"
  const DashboardPath := "/colleges/dashboard"
  const CreateFailedMessage := "Failed to create college profile. Please try again."

  /** What one submit does. With no token: an alert and the login page, nothing sent. Otherwise
      the form is posted; the HTTP client rejects a failed call and any status outside 2xx,
      which ends in the failure alert; a 200 or 201 leads to the dashboard, and any other 2xx
      status does nothing more. */
  function SubmitEffects(token: Option<string>, form: Form, backend: Request -> Reply): (effects: seq<Effect>)
    ensures !Present(token) ==> effects == [Alert("Please login first"), Navigate(LoginPath)]
    ensures Present(token) ==>
              && 1 <= |effects| <= 2
              && effects[0] == Send(Request(token.value, CreateCollegeProfile(FormPayload(form))))
    ensures (exists i :: 0 <= i < |effects| && effects[i].Send?) <==> Present(token)
    ensures forall i :: 1 <= i < |effects| ==> !effects[i].Send?
    ensures Present(token) ==>
              var reply := backend(Request(token.value, CreateCollegeProfile(FormPayload(form))));
              reply.Ok() && reply.status != 200 && reply.status != 201 ==> |effects| == 1
    ensures Navigate(DashboardPath) in effects <==>
              && Present(token)
              && var reply := backend(Request(token.value, CreateCollegeProfile(FormPayload(form))));
                 reply.Reply? && (reply.status == 200 || reply.status == 201)
    ensures Alert(CreateFailedMessage) in effects <==>
              && Present(token)
              && !backend(Request(token.value, CreateCollegeProfile(FormPayload(form)))).Ok()
  {
    if !Present(token) then [Alert("Please login first"), Navigate(LoginPath)]
    else
      var request := Request(token.value, CreateCollegeProfile(FormPayload(form)));
      var reply := backend(request);
      if !reply.Ok() then [Send(request), Alert(CreateFailedMessage)]
      else if reply.status == 200 || reply.status == 201 then [Send(request), Navigate(DashboardPath)]
      else [Send(request)]
  }

  class SetupForm {
    var form: Form
    var loading: bool
    var effects: seq<Effect>

    constructor ()
      ensures form == EmptyForm && !loading && effects == []
    {
      form := EmptyForm;
      loading := false;
      effects := [];
    }

    /** handleInputChange for the input named after `f`. */
    method HandleInputChange(f: Field, v: string)
      modifies this`form
      ensures form == old(form).Set(f, v)
    {
      form := form.Set(f, v);
    }

    /** handleSubmit: the effects of one submit of the current form; the form is kept, and the
        loading flag is down again afterwards. */
    method HandleSubmit(token: Option<string>, backend: Request -> Reply)
      modifies this`loading, this`effects
      ensures form == old(form) && !loading
      ensures effects == old(effects) + SubmitEffects(token, form, backend)
    {
      loading := true;
      if !Present(token) {
        effects := effects + [Alert("Please login first"), Navigate(LoginPath)];
        loading := false;
        return;
      }
      var request := Request(token.value, CreateCollegeProfile(FormPayload(form)));
      effects := effects + [Send(request)];
      var reply := backend(request);
      if !reply.Ok() {
        effects := effects + [Alert(CreateFailedMessage)];
      } else if reply.status == 200 || reply.status == 201 {
        effects := effects + [Navigate(DashboardPath)];
      }
      loading := false;
    }
  }
}
