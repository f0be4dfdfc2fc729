/** The API-connector endpoint the identity provider calls at sign-in: the
    claims of the handler become fields of a `Continue` response, a failed
    handler a block page. */
module AuthPlugin {
  import opened Wrappers
  import opened Errors
  import Authentication

  type Fields = map<string, string>

  const ConnectorVersion := "1.0.0"
  const BlockMessage := "You are not authorized to access this resource."

  /** The fields before any claim is written. */
  const ContinueBase: Fields := map["version" := ConnectorVersion, "action" := "Continue"]

  /** The block page's body. */
  const BlockPage: Fields :=
    map["version" := ConnectorVersion, "action" := "ShowBlockPage", "userMessage" := BlockMessage]

  /** `claims.forEach(claim => response[claim.id] = claim.value)` over `base`. */
  function WriteClaims(base: Fields, claims: seq<Authentication.Claim>): Fields
    decreases |claims|
  {
    if claims == [] then base
    else
      var last := claims[|claims| - 1];
      WriteClaims(base, claims[..|claims| - 1])[last.id := last.value]
  }

  /** The field a key ends up with: the value of the last claim with that id,
      or the base value when no claim has it; no other keys appear. */
  lemma {:induction false} LastClaimWins(base: Fields, claims: seq<Authentication.Claim>, key: string)
    ensures var f := WriteClaims(base, claims);
      && (key in f <==> key in base || exists k :: 0 <= k < |claims| && claims[k].id == key)
      && (forall k :: (0 <= k < |claims| && claims[k].id == key &&
                       (forall j :: k < j < |claims| ==> claims[j].id != key)) ==> f[key] == claims[k].value)
      && ((forall k :: 0 <= k < |claims| ==> claims[k].id != key) && key in base ==> f[key] == base[key])
    decreases |claims|
  {
    if claims != [] {
      var front := claims[..|claims| - 1];
      LastClaimWins(base, front, key);
      assert forall k :: 0 <= k < |front| ==> front[k] == claims[k];
    }
  }

  /** The endpoint's answer: a status and a body. */
  datatype ConnectorReply = ConnectorReply(status: int, body: Fields)

  /** Build the `Continue` response, one claim after another. */
  method ContinueResponse(claims: seq<Authentication.Claim>) returns (fields: Fields)
    ensures fields == WriteClaims(ContinueBase, claims)
  {
    fields := ContinueBase;
    var i := 0;
    while i < |claims|
      invariant 0 <= i <= |claims|
      invariant fields == WriteClaims(ContinueBase, claims[..i])
    {
      assert claims[..i + 1][..i] == claims[..i];
      fields := fields[claims[i].id := claims[i].value];
      i := i + 1;
    }
    assert claims[..|claims|] == claims;
  }

  /** `POST /`: `email` is the body's `email` when it is a string, `None`
      otherwise, which fails before the handler runs; `handled` is the
      handler's outcome. Both outcomes of the handler answer 200. */
  method Post(email: Option<string>, handled: Result<seq<Authentication.Claim>, Thrown>)
    returns (r: Result<ConnectorReply, Thrown>)
    ensures email.None? ==> r == Err(Validation)
    ensures email.Some? && handled.Err? ==> r == Ok(ConnectorReply(200, BlockPage))
    ensures email.Some? && handled.Ok? ==> r == Ok(ConnectorReply(200, WriteClaims(ContinueBase, handled.value)))
  {
    if email.None? {
      return Err(Validation);
    }
    if handled.Err? {
      return Ok(ConnectorReply(200, BlockPage));
    }
    var fields := ContinueResponse(handled.value);
    return Ok(ConnectorReply(200, fields));
  }

  /** Claims that avoid the names `version` and `action` leave the
      connector's own fields alone. */
  lemma ReservedFieldsKept(claims: seq<Authentication.Claim>)
    requires forall k :: 0 <= k < |claims| ==> claims[k].id != "action" && claims[k].id != "version"
    ensures var f := WriteClaims(ContinueBase, claims);
      "action" in f && "version" in f && f["action"] == "Continue" && f["version"] == ConnectorVersion
  {
    LastClaimWins(ContinueBase, claims, "action");
    LastClaimWins(ContinueBase, claims, "version");
  }

  /** The sign-in handler's claims land in their own fields and continue the
      sign-in; no claims at all still continue it, without extra fields. */
  lemma HandlerClaimsContinue(options: set<Authentication.AuthOption>, email: string, env: Env,
                              associated: Option<seq<string>>, allCustomers: Option<seq<string>>)
    ensures var claims := Authentication.Claims(options, email, env, associated, allCustomers);
      var f := WriteClaims(ContinueBase, claims);
      && "action" in f && f["action"] == "Continue"
      && (claims != [] ==> Authentication.RoleClaim in f && f[Authentication.RoleClaim] == claims[2].value)
      && (claims == [] ==> f == ContinueBase)
  {
    var claims := Authentication.Claims(options, email, env, associated, allCustomers);
    forall k | 0 <= k < |claims|
      ensures claims[k].id != "action" && claims[k].id != "version"
    {
      assert |claims[k].id| > 7;
    }
    ReservedFieldsKept(claims);
    if claims != [] {
      LastClaimWins(ContinueBase, claims, Authentication.RoleClaim);
    }
  }

  /** A claim named `action` overrides the connector's own action. */
  lemma ClaimCanOverrideAction(value: string)
    ensures WriteClaims(ContinueBase, [Authentication.Claim("action", value)])["action"] == value
  {
    LastClaimWins(ContinueBase, [Authentication.Claim("action", value)], "action");
  }
}
