/** The landing page's user badge, read from the user record kept in the browser. */
module HomePage {
  import opened Js
  import opened Browser

  /** The user shown in the top bar. */
  datatype User = User(username: Value, abbreviation: Value, loggedIn: bool, userType: string)

  /** `s.substring(0, 2)`: at most the first two characters. */
  function Prefix2(s: string): (p: string)
    ensures |p| == (if |s| < 2 then |s| else 2) && p == s[..|p|]
  {
    if |s| < 2 then s else s[..2]
  }

  /** `username?.substring(0, 2).toUpperCase()`: undefined for a nullish username; any other
      value that is not a string has no `substring` method, so the call throws. */
  function UsernameAbbreviation(username: Value): (r: Result<Value>)
    ensures Nullish(username) ==> r == Ok(Undefined)
    ensures username.Str? ==> r == Ok(Str(ToUpper(Prefix2(username.s))))
    ensures r.Thrown? <==> !Nullish(username) && !username.Str?
  {
    if Nullish(username) then Ok(Undefined)
    else if username.Str? then Ok(Str(ToUpper(Prefix2(username.s))))
    else Thrown
  }

  /** The parsedUser literal built from a parsed record. A nullish record makes reading
      `username` throw. The abbreviation is the stored one when truthy; else the first two
      characters of the username in upper case (evaluated only then); else "U". */
  function ParsedUser(parsed: Value): (r: Result<User>)
    ensures r.Thrown? <==>
              || Nullish(parsed)
              || (!Truthy(OptGet(parsed, "abbreviation"))
                  && !Nullish(OptGet(parsed, "username")) && !OptGet(parsed, "username").Str?)
    ensures r.Ok? ==> r.value.loggedIn && r.value.userType == "college"
    ensures r.Ok? ==> r.value.username == if Truthy(OptGet(parsed, "username")) then OptGet(parsed, "username") else Str("User")
    ensures r.Ok? && Truthy(OptGet(parsed, "abbreviation")) ==> r.value.abbreviation == OptGet(parsed, "abbreviation")
    ensures r.Ok? && !Truthy(OptGet(parsed, "abbreviation")) ==>
              var u := OptGet(parsed, "username");
              && (Truthy(u) ==> r.value.abbreviation == Str(ToUpper(Prefix2(u.s))))
              && (!Truthy(u) ==> r.value.abbreviation == Str("U"))
  {
    match Get(parsed, "username")
    case Thrown => Thrown
    case Ok(u) =>
      var abbr := OptGet(parsed, "abbreviation");
      if Truthy(abbr) then Ok(User(Or(u, Str("User")), abbr, true, "college"))
      else match UsernameAbbreviation(u)
        case Thrown => Thrown
        case Ok(a) => Ok(User(Or(u, Str("User")), Or(a, Str("U")), true, "college"))
  }

  /** A badge drawn from the username shows one or two of its leading characters, upper-cased,
      and never more than two. */
  lemma {:induction false} AbbreviationFromUsername(parsed: Value, name: string)
    requires parsed.Obj? && OptGet(parsed, "username") == Str(name) && name != ""
    requires !Truthy(OptGet(parsed, "abbreviation"))
    ensures ParsedUser(parsed).Ok?
    ensures var a := ParsedUser(parsed).value.abbreviation;
            && a.Str? && 1 <= |a.s| <= 2
            && a.s[0] == UpperChar(name[0])
            && (|name| >= 2 ==> a.s[1] == UpperChar(name[1]))
  {
    var p := Prefix2(name);
    assert |p| >= 1 && p[0] == name[0];
    assert |ToUpper(p)| == |p|;
  }

  /** The user the page keeps after mounting: none when nothing is stored (or the empty
      string); none either when parsing or building the badge throws, since the effect then
      fails before it sets anything. */
  function StoredUser(stored: Stored): (r: Option<User>)
    ensures stored.Missing? || stored.Unparsable? ==> r.None?
    ensures r.Some? <==> stored.Parsed? && ParsedUser(stored.value).Ok?
    ensures r.Some? ==> r.value == ParsedUser(stored.value).value
  {
    match stored
    case Missing => None
    case Unparsable => None
    case Parsed(v) => if ParsedUser(v).Ok? then Some(ParsedUser(v).value) else None
  }

  class Home {
    var user: Option<User>

    constructor ()
      ensures user == None
    {
      user := None;
    }

    /** The mount effect: the badge is set only when one could be built. The effect has no
        catch, so a stored record that is not JSON, or one the badge cannot be built from,
        makes it throw out of the effect; `threw` reports that. */
    method Mount(stored: Stored) returns (threw: bool)
      modifies this
      ensures user == if StoredUser(stored).Some? then StoredUser(stored) else old(user)
      ensures threw <==> stored.Unparsable? || (stored.Parsed? && ParsedUser(stored.value).Thrown?)
      ensures threw ==> user == old(user)
    {
      threw := false;
      match stored
      case Missing =>
      case Unparsable =>
        threw := true;
      case Parsed(v) =>
        var built := ParsedUser(v);
        if built.Thrown? {
          threw := true;
        } else {
          user := Some(built.value);
        }
    }
  }
}
