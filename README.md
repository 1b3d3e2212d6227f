# FOMO colleges: a Dafny model of the college-side client

This project models the logic of the college side of the FOMO web client:

- how an image URL from the backend is resolved;
- how the backend helper modules reduce each reply to a record, a flag or null, and decide
  whether a profile is complete;
- how the students page turns raw student records into list rows: fallbacks, avatar initials,
  skill chips and the profile link;
- the profile page's load, edit, save and cancel handlers;
- the setup form that creates a college profile;
- the user badge on the landing page.

JavaScript values are a datatype (`Js.Value`) with undefined, null, booleans, integers, strings,
arrays and objects. Truthiness, `||`, property reads with and without optional chaining,
`String(v)`, `split`, `join` and `toUpperCase` are written out in module `Js`. An expression that
may throw yields a `Result`.

A network call is an input. It is either a failed call or a status with the outcome of parsing
the body (`Http.Reply`). Every helper that sends one request is a function of that request's
reply. The two-step `getCollegeProfile` and the page handlers take the backend as a function from
request to reply. The pages are classes whose fields are the page's state. Each page also keeps a
log of what it did to the browser (requests sent, navigations, alerts), so a contract can say
that no request was sent.

Modules:

- `Js`: value semantics.
- `Http`, `Browser`: requests, replies, the `{ data }` envelope, page effects and stored records.
- `ImageUrl`: getImageUrl.
- `CollegeRecord`: the six editable college fields, the update payload and the completeness rule.
- `StrapiProfile`: the first backend helper module.
- `StrapiCollegeProfile`: the second backend helper module.
- `StudentsPage`: the students list.
- `CollegeProfilePage`: the profile view and editor.
- `CollegeProfileSetup`: the setup form.
- `HomePage`: the user badge.

Behaviour of the code worth noting:

- Create and update helpers accept every 2xx status, not only 200 and 201.
- The students page does not redirect when no token is stored. It only empties the list.
- The profile page imports `getCollegeProfileById` from `lib/strapi/profile.ts`. That variant
  takes the first element of `data`. The whole-`data` variant in `lib/strapi/collegeProfile.ts`
  is modelled too, and the two are proved to differ on an empty result.
- An empty word in a student's name still takes one of the two initial slots. So a name with a
  leading space shows one letter at most.

## Model

| member | source | states |
|---|---|---|
| ImageUrl.GetImageUrl | lib/utils.ts:13-24 | null exactly for a missing or empty URL; an `http://` or `https://` URL unchanged; any other URL gets the base prepended, so the base is a prefix and the URL the rest |
| ImageUrl.EmptyBaseKeepsUrl | lib/utils.ts:22-23 | with an empty base, a non-empty relative URL comes back unchanged |
| ImageUrl.GetImageUrlIdempotent | lib/utils.ts:17-23 | resolving twice equals resolving once when the base is empty or itself absolute |
| Js.Split | app/colleges/students/page.tsx:290-291 | splitting on a separator gives at least one piece |
| Js.JoinSplit | app/colleges/students/page.tsx:290-291 | joining the pieces of a split with the separator gives back the string |
| Js.SplitPiecesFree | app/colleges/students/page.tsx:290-291 | no piece of a split contains the separator |
| Js.SplitHead | app/colleges/students/page.tsx:290-291 | without a separator the split is the whole string; with one, the first piece ends before the first separator and a second piece follows |
| Js.ToUpper | app/colleges/students/page.tsx:295 | upper-casing keeps the length and maps every character |
| StrapiProfile.GetStudentProfile | lib/strapi/profile.ts:48-69 | null or a truthy record; null on a failed call, a non-ok status, a body that is not JSON, a missing or empty `data`; otherwise the first element of `data`, and for a `data` that is not an array its property "0" (so null for a single record) |
| StrapiProfile.ReadOfEnvelope | lib/strapi/profile.ts:61-64 | `{ data: [] }` gives null; a non-empty `data` gives its first record |
| StrapiProfile.SingleRecordReadsNull | lib/strapi/profile.ts:64 | a 2xx reply whose `data` is a single record (no property "0") gives null from all three first-record reads |
| StrapiProfile.CreateStudentProfile | lib/strapi/profile.ts:74-97 | an ok parsed reply gives its `data` when truthy; any failure gives null |
| StrapiProfile.UpdateStudentProfile | lib/strapi/profile.ts:102-129 | an ok parsed reply gives its `data` when truthy; any failure gives null |
| StrapiProfile.UploadFile | lib/strapi/profile.ts:134-176 | a result exactly when the reply is ok and parses to an array with a truthy first element, and then that element's `id` and `url` |
| StrapiProfile.HasCompletedProfile | lib/strapi/profile.ts:181-196 | false when no profile is found; true exactly when name, college, course, graduationYear and about are all truthy |
| StrapiProfile.StudentProfileComplete | lib/strapi/profile.ts:189-195 | a complete student profile is an object that has at least a name |
| StrapiProfile.StudentCompleteMeansRequiredPresent | lib/strapi/profile.ts:189-195 | student completeness is "every required key holds a truthy value" |
| StrapiProfile.GetCollegeProfile | lib/strapi/profile.ts:224-240 | the same first-record read as getStudentProfile, on the unfiltered query, including a non-array `data` |
| StrapiProfile.GetCollegeProfileById | lib/strapi/profile.ts:245-264 | the same first-record read, including a non-array `data`; a body without `data` throws inside and ends in null |
| StrapiProfile.ByIdAgreesWithUnfiltered | lib/strapi/profile.ts:259-263 | the throwing read and the optional-chaining read agree on every reply |
| StrapiProfile.CreateCollegeProfile | lib/strapi/profile.ts:269-292 | an ok parsed reply gives its `data` when truthy; any failure gives null |
| StrapiProfile.CreateUnwrapsEnvelope | lib/strapi/profile.ts:282-288 | the four create and update helpers of this module hand back the record inside a 2xx envelope unchanged |
| StrapiProfile.UpdateCollegeProfile | lib/strapi/profile.ts:297-324 | an ok parsed reply gives its `data` when truthy; any failure gives null |
| StrapiProfile.DeleteCollegeProfile | lib/strapi/profile.ts:329-348 | true exactly when the call succeeded with a 2xx status |
| StrapiProfile.HasCompletedCollegeProfile | lib/strapi/profile.ts:353-368 | false when no profile is found; otherwise true exactly when every required field (all but the ranking) is truthy |
| StrapiProfile.HasCompletedIgnoresDocId | lib/strapi/profile.ts:353-368 | the document id argument never changes the verdict |
| CollegeRecord.CompleteMeansRequiredPresent | lib/strapi/collegeProfile.ts:181-191 | college completeness is "a profile exists and collegeName, description, location, numberOfStudents and establishmentDate are truthy" |
| CollegeRecord.CollegeProfileComplete | lib/strapi/collegeProfile.ts:181-191 | a complete college profile is an object that has at least a college name |
| CollegeRecord.RankingNotRequired | lib/strapi/collegeProfile.ts:185-191 | overwriting the ranking never changes completeness |
| CollegeRecord.EditablePayload | app/colleges/profile/page.tsx:101-108 | the update body has exactly the six editable keys, each copied from the record |
| CollegeRecord.KeyInjective | app/auth/college-profile/page.tsx:8-15 | distinct fields have distinct keys; the ranking is the one key not required |
| StrapiCollegeProfile.GetCollegeProfile | lib/strapi/collegeProfile.ts:31-65 | `users/me` first; a second request only when it is ok and parses to a non-nullish body, filtered on exactly the `id` it returned; otherwise null; with two requests, the first-record read of the second reply |
| StrapiCollegeProfile.NoProfileQueryWithoutUser | lib/strapi/collegeProfile.ts:40-43 | a non-ok `users/me` ends in null with only that request sent |
| StrapiCollegeProfile.GetCollegeProfileById | lib/strapi/collegeProfile.ts:70-89 | the whole `data` field when truthy; null on any failure |
| StrapiCollegeProfile.ByIdVariantsDiffer | lib/strapi/collegeProfile.ts:84 | on `{ data: [] }` this variant returns the empty array, the other one null |
| StrapiCollegeProfile.CreateCollegeProfile | lib/strapi/collegeProfile.ts:94-117 | an ok parsed reply gives its `data` when truthy; any failure gives null |
| StrapiCollegeProfile.UpdateCollegeProfile | lib/strapi/collegeProfile.ts:122-149 | an ok parsed reply gives its `data` when truthy; any failure gives null |
| StrapiCollegeProfile.CreateUnwrapsEnvelope | lib/strapi/collegeProfile.ts:111-112 | the create and update helpers of this module hand back the record inside a 2xx envelope unchanged |
| StrapiCollegeProfile.DeleteCollegeProfile | lib/strapi/collegeProfile.ts:154-173 | true exactly when the call succeeded with a 2xx status |
| StrapiCollegeProfile.HasCompletedCollegeProfile | lib/strapi/collegeProfile.ts:178-192 | false when the two-step lookup finds nothing; otherwise true exactly when every required field is truthy; true only after the profile query was sent |
| StudentsPage.Project | app/colleges/students/page.tsx:76-95 | a nullish record throws; otherwise `String(id)` or "" for a nullish id, documentId from studentId, name and email with their defaults, department or course, year or graduationYear, status "Active", the raw skills when truthy or [], avatarUrl or null |
| StudentsPage.ProjectAll | app/colleges/students/page.tsx:75-96 | throws exactly when some record is nullish; otherwise the same number of rows, row i projected from record i |
| StudentsPage.Initials | app/colleges/students/page.tsx:290-295 | at most two characters: the upper-cased first characters of the first two pieces of the name, so the first letter of a name without a leading space, and the one letter of a one-word name |
| StudentsPage.InitialsClosedForm | app/colleges/students/page.tsx:290-295 | the map, slice, join and upper-case pipeline equals the lead letters of the first two pieces |
| StudentsPage.AvatarOf | app/colleges/students/page.tsx:281-296 | the image exactly when avatarUrl is truthy; otherwise the initials of a string name, and nothing drawable exactly when the name is not a string |
| StudentsPage.SkillChips | app/colleges/students/page.tsx:350-363 | no chips for an empty or missing list; a throw for a non-empty string or an object with a positive `length`; otherwise the first min(4, n) skills and a "+N more" chip exactly when n > 4, with N = n - 4 |
| StudentsPage.ProfileLink | app/colleges/students/page.tsx:112-116 | a link exactly when documentId is truthy, and then `/profile?userId=` followed by `String(documentId)` |
| StudentsPage.FetchStudentsSpec | app/colleges/students/page.tsx:31-107 | no token: no request and an empty list; the student query is sent exactly when the college profiles reply parses with a non-empty `data` array and a college name is cached, and it filters on that name; its records' projection is stored, an empty list on any throw, and the list is kept exactly when the reply's `data` is not an array |
| StudentsPage.StudentList.View | app/colleges/students/page.tsx:255-272 | spinner while loading, the empty state for no students, otherwise a row for each stored student |
| StudentsPage.StudentList.constructor | app/colleges/students/page.tsx:25-26 | no students and loading |
| StudentsPage.StudentList.FetchStudents | app/colleges/students/page.tsx:31-107 | loading ends; the requests sent and the list stored are those of FetchStudentsSpec |
| StudentsPage.StudentList.HandleProfileClick | app/colleges/students/page.tsx:112-116 | navigates exactly to the profile link when there is one; nothing else changes |
| CollegeProfilePage.SetField | app/colleges/profile/page.tsx:76-83 | the named key takes the value; every other key keeps its value |
| CollegeProfilePage.StoredDocId | app/colleges/profile/page.tsx:47-49 | undefined when nothing is stored; a throw exactly for an unparsable record or a stored null; otherwise the record's documentId |
| CollegeProfilePage.ProfileEditor.constructor | app/colleges/profile/page.tsx:29-35 | no profile, not editing, not saving, loading |
| CollegeProfilePage.ProfileEditor.View | app/colleges/profile/page.tsx:145-166 | the spinner while loading; with a profile, the edited copy while editing and the saved profile otherwise |
| CollegeProfilePage.ProfileEditor.DisplayProfile | app/colleges/profile/page.tsx:166 | the edited copy while editing, the saved profile otherwise; null exactly when there is no profile |
| CollegeProfilePage.ProfileEditor.LoadProfile | app/colleges/profile/page.tsx:37-64 | no token: off to login, no request; a found profile becomes both records; none found: off to the setup page; loading ends in every case |
| CollegeProfilePage.ProfileEditor.StartEditing | app/colleges/profile/page.tsx:249-251 | editing starts |
| CollegeProfilePage.ProfileEditor.HandleInputChange | app/colleges/profile/page.tsx:70-84 | only the named field of the edited copy changes; a null copy stays null |
| CollegeProfilePage.ProfileEditor.HandleSave | app/colleges/profile/page.tsx:86-126 | nothing without an edited copy or a document id; no token: alert and login; otherwise the six editable fields are sent to that document; success sets both records to the reply and ends editing; failure changes nothing but an alert; saving ends |
| CollegeProfilePage.ProfileEditor.HandleCancel | app/colleges/profile/page.tsx:128-131 | the edited copy is the saved profile again and editing ends, with no request |
| CollegeProfilePage.EditThenCancel | app/colleges/profile/page.tsx:128-131 | edit, change a field and cancel: the screen shows what it showed before and no request was sent |
| CollegeProfileSetup.Form.Set | app/auth/college-profile/page.tsx:35-39 | the named field takes the value and the other five keep theirs |
| CollegeProfileSetup.FormPayload | app/auth/college-profile/page.tsx:64-71 | exactly the six form fields, each copied from the form |
| CollegeProfileSetup.PayloadIsEditablePayload | app/auth/college-profile/page.tsx:64-71 | the setup body is the edit page's update body of the same values |
| CollegeProfileSetup.SubmitEffects | app/auth/college-profile/page.tsx:43-91 | no token: alert and login, no request; otherwise the form is posted once; the dashboard only on status 200 or 201; the failure alert exactly on a failed call or a non-2xx status |
| CollegeProfileSetup.SetupForm.constructor | app/auth/college-profile/page.tsx:19-27 | all six fields empty, not loading |
| CollegeProfileSetup.SetupForm.HandleInputChange | app/auth/college-profile/page.tsx:30-40 | the form with the named field set |
| CollegeProfileSetup.SetupForm.HandleSubmit | app/auth/college-profile/page.tsx:43-91 | the effects of SubmitEffects; the form is unchanged and loading is false afterwards |
| HomePage.UsernameAbbreviation | app/page.tsx:32 | undefined for a nullish username; the upper-cased first two characters of a string; throws for any other value |
| HomePage.Prefix2 | app/page.tsx:32 | `substring(0, 2)`: the first two characters, or the whole of a shorter string |
| HomePage.ParsedUser | app/page.tsx:27-36 | throws for a nullish record; username or "User"; the stored abbreviation when truthy, else the username's first two characters upper-cased, else "U"; logged in as a college |
| HomePage.AbbreviationFromUsername | app/page.tsx:32 | a badge drawn from a non-empty username has one or two characters, the upper-cased leading ones |
| HomePage.StoredUser | app/page.tsx:25-36 | no user when nothing is stored or parsing fails; otherwise the parsed user |
| HomePage.Home.constructor | app/page.tsx:20 | no user |
| HomePage.Home.Mount | app/page.tsx:22-40 | the user is set only when one could be built; it reports an uncaught throw exactly for an unparsable record or one the badge cannot be built from, and then the user is unchanged |

## Left out

- HTTP transport, URL building and `encodeURIComponent`. A request is an endpoint with the values
  its query is built from.
- Multipart upload bodies. A file is a name only.
- `JSON.parse` and `JSON.stringify`. A stored record is missing, unparsable or a parsed value. Dropping undefined fields when a body is serialised is not modelled.
- `getAuthToken`: `lib/strapi/auth` is not part of this model. The token is a parameter.
- The students page's `fetchData` comes from a module that is not part of this model. It is
  modelled like the `fetchData` of `lib/tools.ts`: the parsed body whatever the status, throwing
  only on a failed call or a body that is not JSON.
- `cn`, `backendurl`, `KERALA_COLLEGES`, environment variables and fallback hosts. The image URL
  base is a parameter.
- `console` logging, JSX rendering, styling, locale date formatting and the sidebar scroll lock.
- Concurrency: a handler runs to completion before the next one starts. A reply arriving after
  unmount is not modelled.
- Numbers are integers. Floating point and NaN are left out.
- Js.ToUpper: maps ASCII letters only, not the full Unicode case mapping.
- Js.ToStr: an object prints as `[object Object]` whatever its `toString`.
- StudentsPage.SkillChips: a `length` property that is a string or an array, which JavaScript
  converts to a number before comparing it with 0, is treated as not positive.
- Strings are sequences of characters, not of UTF-16 code units.
- CollegeProfilePage.SetField: spreading a value that is not an object (an array or a string) is
  modelled as starting from an empty object.
- CollegeProfilePage.ProfileEditor.HandleSave: the catch branch with its "Please try again"
  alert is not modelled. `updateCollegeProfile` catches every error itself, so that branch
  cannot be reached.
- HomePage.Home.Mount: the error boundary that receives the effect's uncaught error is not
  modelled. The throw is only reported, and the user stays as it was.
- The `saving` and `loading` flags are also raised while a request is in flight. Only their
  values between handlers are stated.
