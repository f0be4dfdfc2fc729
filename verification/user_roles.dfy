/** The front end's reading of the role claim: `parseRoles`, `useUser` and
    `useOrganisationId`. */
module UserRoles {
  import opened Wrappers
  import opened Text

  datatype RoleType = Admin | Customer

  datatype Role = Role(kind: RoleType, organisationId: Option<string>)

  /** The type word and the id of a role piece: the text before the first `:`
      and the text between the first and the second `:`, when there is one. */
  function TypeAndId(piece: string): (r: (string, Option<string>))
    ensures ':' !in r.0
    ensures r.1.Some? ==> ':' !in r.1.value
    ensures ':' !in piece ==> r == (piece, None)
  {
    var parts := Split(piece, ':');
    if ':' !in piece then
      SplitJoin([piece], ':');
      (piece, None)
    else (parts[0], if |parts| >= 2 then Some(parts[1]) else None)
  }

  /** One piece of the role claim. `ADMIN` wins over any id; any other type
      needs a non-empty id, and only `CUSTOMER` is known. */
  function ParseRole(piece: string): (r: Result<Role, string>)
    ensures TypeAndId(piece).0 == "ADMIN" <==> r == Ok(Role(Admin, None))
    ensures TypeAndId(piece).0 != "ADMIN" && !Truthy(TypeAndId(piece).1) ==> r == Err("Missing id")
    ensures r.Ok? && r.value.kind == Customer ==>
              TypeAndId(piece).0 == "CUSTOMER" && r.value.organisationId == TypeAndId(piece).1 &&
              Truthy(r.value.organisationId)
    ensures r.Err? ==> r.error in {"Missing id", "Invalid role"}
  {
    var (kind, id) := TypeAndId(piece);
    if kind == "ADMIN" then Ok(Role(Admin, None))
    else if !Truthy(id) then Err("Missing id")
    else if kind == "CUSTOMER" then Ok(Role(Customer, id))
    else Err("Invalid role")
  }

  /** `parseRoles`: one role per comma-separated piece, in order; the first
      piece that fails fails the whole claim. */
  function ParseRoles(claim: string): (r: Result<seq<Role>, string>)
    ensures r.Ok? ==> forall k :: 0 <= k < |Split(claim, ',')| ==> ParseRole(Split(claim, ',')[k]).Ok?
    ensures (forall k :: 0 <= k < |Split(claim, ',')| ==> ParseRole(Split(claim, ',')[k]).Ok?) ==> r.Ok?
    ensures r.Ok? ==> (|r.value| == |Split(claim, ',')| &&
              forall k :: 0 <= k < |r.value| ==> r.value[k] == ParseRole(Split(claim, ',')[k]).value)
    ensures r.Err? ==> exists k :: 0 <= k < |Split(claim, ',')| && ParseRole(Split(claim, ',')[k]) == Err(r.error)
  {
    ParseAll(Split(claim, ','))
  }

  function ParseAll(pieces: seq<string>): (r: Result<seq<Role>, string>)
    ensures r.Ok? <==> forall k :: 0 <= k < |pieces| ==> ParseRole(pieces[k]).Ok?
    ensures r.Ok? ==> |r.value| == |pieces| && forall k :: 0 <= k < |pieces| ==> r.value[k] == ParseRole(pieces[k]).value
    ensures r.Err? ==> exists k :: 0 <= k < |pieces| && ParseRole(pieces[k]) == Err(r.error) &&
                                    forall j :: 0 <= j < k ==> ParseRole(pieces[j]).Ok?
    decreases |pieces|
  {
    if pieces == [] then Ok([])
    else
      match ParseRole(pieces[0])
      case Err(e) => Err(e)
      case Ok(role) =>
        var rest := ParseAll(pieces[1..]);
        ParseAllStep(pieces, rest);
        match rest
        case Err(e) => Err(e)
        case Ok(roles) => Ok([role] + roles)
  }

  /** What a parsed first piece and the parse of the rest give. */
  lemma ParseAllStep(pieces: seq<string>, rest: Result<seq<Role>, string>)
    requires pieces != [] && ParseRole(pieces[0]).Ok?
    requires rest.Ok? <==> forall k :: 0 <= k < |pieces| - 1 ==> ParseRole(pieces[1..][k]).Ok?
    requires rest.Ok? ==> (|rest.value| == |pieces| - 1 &&
               forall k :: 0 <= k < |pieces| - 1 ==> rest.value[k] == ParseRole(pieces[1..][k]).value)
    requires rest.Err? ==> exists k :: 0 <= k < |pieces| - 1 && ParseRole(pieces[1..][k]) == Err(rest.error) &&
                                       forall j :: 0 <= j < k ==> ParseRole(pieces[1..][j]).Ok?
    ensures rest.Ok? <==> forall k :: 0 <= k < |pieces| ==> ParseRole(pieces[k]).Ok?
    ensures rest.Ok? ==> forall k :: 0 <= k < |pieces| ==>
              ([ParseRole(pieces[0]).value] + rest.value)[k] == ParseRole(pieces[k]).value
    ensures rest.Err? ==> exists k :: 0 <= k < |pieces| && ParseRole(pieces[k]) == Err(rest.error) &&
                                       forall j :: 0 <= j < k ==> ParseRole(pieces[j]).Ok?
  {
    assert forall k :: 1 <= k < |pieces| ==> pieces[k] == pieces[1..][k - 1];
    if rest.Err? {
      var k :| 0 <= k < |pieces| - 1 && ParseRole(pieces[1..][k]) == Err(rest.error) &&
               forall j :: 0 <= j < k ==> ParseRole(pieces[1..][j]).Ok?;
      assert ParseRole(pieces[k + 1]) == Err(rest.error);
    }
  }

  /** `CUSTOMER:<id>` gives a customer role for that id, and so does any longer
      piece that continues with a `:`. */
  lemma CustomerRole(id: string, rest: string)
    requires id != "" && ':' !in id
    requires rest == "" || rest[0] == ':'
    ensures ParseRole("CUSTOMER:" + id + rest) == Ok(Role(Customer, Some(id)))
  {
    var piece := "CUSTOMER:" + id + rest;
    assert piece == "CUSTOMER" + (":" + (id + rest));
    assert piece[8] == ':';
    SplitPrefix("CUSTOMER", ":" + (id + rest), ':');
    assert (":" + (id + rest))[1..] == id + rest;
    SplitPrefix(id, rest, ':');
    if rest != "" {
      assert rest == [':'] + rest[1..];
    } else {
      assert id + rest == id;
    }
    assert Split(id + rest, ':')[0] == id;
  }

  /** `ADMIN` ignores whatever follows it. */
  lemma AdminRole(rest: string)
    requires rest == "" || rest[0] == ':'
    ensures ParseRole("ADMIN" + rest) == Ok(Role(Admin, None))
  {
    SplitPrefix("ADMIN", rest, ':');
    if rest == "" {
      assert "ADMIN" + rest == "ADMIN";
    } else {
      assert rest == [':'] + rest[1..];
      assert ':' in "ADMIN" + rest by {
        assert ("ADMIN" + rest)[5] == ':';
      }
    }
  }

  /** The `ANONYMOUS` role the sign-in router grants has no id, so the front
      end rejects a claim that holds it. */
  lemma AnonymousRejected(claim: string, k: nat)
    requires k < |Split(claim, ',')| && Split(claim, ',')[k] == "ANONYMOUS"
    ensures ParseRoles(claim).Err?
  {
    assert ParseRole("ANONYMOUS") == Err("Missing id");
  }

  /** The signed-in account as the front end holds it. */
  datatype Account = Account(firstName: string, lastName: string, email: string, claims: map<string, string>)

  datatype User = User(firstName: string, lastName: string, email: string,
                       organisationId: Option<string>, roles: seq<Role>)

  const RoleClaim := "extension_Role"

  /** `useUser`: needs an account and a non-empty role claim that parses; the
      initial organisation is the first role's. */
  function UseUser(account: Option<Account>): (r: Result<User, string>)
    ensures account.None? ==> r == Err("Missing accounts")
    ensures account.Some? && (RoleClaim !in account.value.claims || account.value.claims[RoleClaim] == "") ==>
              r == Err("Missing roles")
    ensures r.Ok? ==>
      && RoleClaim in account.value.claims
      && ParseRoles(account.value.claims[RoleClaim]) == Ok(r.value.roles)
      && |r.value.roles| >= 1
      && r.value.organisationId == r.value.roles[0].organisationId
      && r.value.email == account.value.email
  {
    if account.None? then Err("Missing accounts")
    else
      var a := account.value;
      if RoleClaim !in a.claims || a.claims[RoleClaim] == "" then Err("Missing roles")
      else
        match ParseRoles(a.claims[RoleClaim])
        case Err(e) => Err(e)
        case Ok(roles) => Ok(User(a.firstName, a.lastName, a.email, roles[0].organisationId, roles))
  }

  /** `useOrganisationId`: the user's organisation, which must be set. */
  function UseOrganisationId(account: Option<Account>): (r: Result<string, string>)
    ensures r.Ok? ==> UseUser(account).Ok? && UseUser(account).value.organisationId == Some(r.value) && r.value != ""
    ensures UseUser(account).Ok? && !Truthy(UseUser(account).value.organisationId) ==>
              r == Err("Missing organisation ID")
    ensures UseUser(account).Err? ==> r == Err(UseUser(account).error)
  {
    var user :- UseUser(account);
    if !Truthy(user.organisationId) then Err("Missing organisation ID") else Ok(user.organisationId.value)
  }

  /** An admin who is listed first has no organisation, whatever follows. */
  lemma AdminFirstHasNoOrganisation(account: Account)
    requires RoleClaim in account.claims
    requires UseUser(Some(account)).Ok?
    requires ParseRole(Split(account.claims[RoleClaim], ',')[0]).value.kind == Admin
    ensures UseOrganisationId(Some(account)) == Err("Missing organisation ID")
  {
  }
}
