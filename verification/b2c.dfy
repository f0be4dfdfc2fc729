/** The front end's sign-in state, kept in a store over the identity
    provider's browser client: reading an account from its ID-token claims,
    restoring a cached sign-in, and the store's actions. Calls to the client
    are recorded; what the client answers is a parameter. */
module B2C {
  import opened Wrappers

  /** A claim's value: a string, or a list of strings. */
  datatype ClaimValue = Text(text: string) | List(items: seq<string>)

  type Claims = map<string, ClaimValue>

  /** Whether a claim, read as `claims.name`, is truthy: a missing claim is
      `undefined`, an empty string is falsy, and any list is truthy. */
  predicate Present(claims: Claims, name: string) {
    name in claims && (claims[name].Text? ==> claims[name].text != "")
  }

  /** `const [email] = claims.emails`: the first element of a list, the first
      character of a string, or `undefined` when either is empty; destructuring
      a missing claim throws. */
  function FirstEmail(claims: Claims): (r: Result<Option<string>, string>)
    ensures "emails" !in claims <==> r.Err?
    ensures "emails" in claims && claims["emails"].List? ==>
              r == Ok(if claims["emails"].items == [] then None else Some(claims["emails"].items[0]))
  {
    if "emails" !in claims then Err(NotIterable)
    else match claims["emails"]
      case List(items) => Ok(if items == [] then None else Some(items[0]))
      case Text(s) => Ok(if s == "" then None else Some([s[0]]))
  }

  const InvalidClaims := "Invalid claims"
  const InvalidAccount := "Invalid account"
  const NotIterable := "claims.emails is not iterable"
  const NoAccountFound := "No account found"

  /** The account the front end keeps: the identity claims as they were read,
      and the whole claims object. */
  datatype Account = Account(id: ClaimValue, firstName: ClaimValue, lastName: ClaimValue,
                             email: string, claims: Claims)

  /** `getAccountDetails`: missing claims, a missing `emails` claim, or an
      empty subject, given name, family name or first email fail. */
  function AccountDetails(idTokenClaims: Option<Claims>): (r: Result<Account, string>)
    ensures idTokenClaims.None? ==> r == Err(InvalidClaims)
    ensures idTokenClaims.Some? ==>
              (r.Ok? <==> FirstEmail(idTokenClaims.value).Ok? &&
                          Present(idTokenClaims.value, "sub") && Present(idTokenClaims.value, "given_name") &&
                          Present(idTokenClaims.value, "family_name") &&
                          FirstEmail(idTokenClaims.value).value.Some? &&
                          FirstEmail(idTokenClaims.value).value.value != "")
    ensures r.Ok? ==> r.value.claims == idTokenClaims.value &&
                      r.value.id == idTokenClaims.value["sub"] &&
                      r.value.firstName == idTokenClaims.value["given_name"] &&
                      r.value.lastName == idTokenClaims.value["family_name"] &&
                      Some(r.value.email) == FirstEmail(idTokenClaims.value).value
    ensures r.Err? ==> r.error in {InvalidClaims, InvalidAccount, NotIterable}
  {
    if idTokenClaims.None? then Err(InvalidClaims)
    else
      var claims := idTokenClaims.value;
      var email :- FirstEmail(claims);
      if !Present(claims, "sub") || !Present(claims, "given_name") || !Present(claims, "family_name") ||
         email.None? || email.value == "" then Err(InvalidAccount)
      else Ok(Account(claims["sub"], claims["given_name"], claims["family_name"], email.value, claims))
  }

  /** A complete set of identity claims gives the account, with the first
      listed email. */
  lemma CompleteClaims(claims: Claims, sub: string, given: string, family: string, emails: seq<string>)
    requires "sub" in claims && "given_name" in claims && "family_name" in claims && "emails" in claims
    requires claims["sub"] == Text(sub) && claims["given_name"] == Text(given) &&
             claims["family_name"] == Text(family) && claims["emails"] == List(emails)
    requires sub != "" && given != "" && family != "" && emails != [] && emails[0] != ""
    ensures AccountDetails(Some(claims)) == Ok(Account(Text(sub), Text(given), Text(family), emails[0], claims))
  {
  }

  const MissingConfiguration := "Missing configuration"

  /** The provider's start-up check: the client id, the policy and the
      authority must each be set and non-empty. */
  function CheckConfiguration(clientId: Option<string>, policy: Option<string>, authority: Option<string>)
    : (r: Result<(), string>)
    ensures r.Ok? <==> Truthy(clientId) && Truthy(policy) && Truthy(authority)
    ensures r.Err? ==> r.error == MissingConfiguration
  {
    if !Truthy(clientId) || !Truthy(policy) || !Truthy(authority) then Err(MissingConfiguration)
    else Ok(())
  }

  datatype Status = NotAuthenticated | Authenticating | Authenticated | Error

  /** The store's `account` entry: never set, set to `null`, or an account. */
  datatype AccountSlot = Absent | Null | Has(account: Account)

  datatype Information = Information(status: Status, account: AccountSlot)

  /** `restoreAuthentication`: `cached` holds the ID-token claims of the
      client's cached accounts; the first one, if any, is signed in. */
  function Restore(cached: seq<Option<Claims>>): (r: Result<Information, string>)
    ensures cached == [] ==> r == Ok(Information(NotAuthenticated, Absent))
    ensures cached != [] ==> (r.Ok? <==> AccountDetails(cached[0]).Ok?)
    ensures cached != [] && r.Ok? ==> r.value == Information(Authenticated, Has(AccountDetails(cached[0]).value))
  {
    if cached == [] then Ok(Information(NotAuthenticated, Absent))
    else
      var account :- AccountDetails(cached[0]);
      Ok(Information(Authenticated, Has(account)))
  }

  /** A call the store makes on the browser client or on session storage. */
  datatype ClientCall =
    | ClearInteractionStatus
    | SsoSilent
    | LoginRedirect(state: Option<string>)
    | LogoutRedirect
    | HandleRedirect
    | AcquireTokenSilent

  /** What `acquireTokenSilent` or the code around it throws. */
  datatype TokenError = InteractionRequired | Failure(message: string)

  /** What `handleRedirectPromise` resolves to: nothing, or a response with
      the account's claims when it has an account, and its state. */
  datatype RedirectResponse = RedirectResponse(account: Option<Option<Claims>>, state: Option<string>)

  /** The store. `set` merges: an entry the update does not name keeps its
      value. */
  class AuthStore {
    var status: Status
    var account: AccountSlot
    var calls: seq<ClientCall>

    /** The store starts from the restored sign-in. */
    constructor (restored: Information)
      ensures status == restored.status && account == restored.account && calls == []
    {
      status := restored.status;
      account := restored.account;
      calls := [];
    }

    /** `onRedirect`: a redirect response with an account signs it in and
        gives back the response's state; anything else marks the user signed
        out and leaves the account entry as it was. Bad claims throw before
        the store changes. */
    method OnRedirect(response: Option<RedirectResponse>) returns (r: Result<Option<string>, string>)
      modifies this
      ensures calls == old(calls) + [HandleRedirect]
      ensures response.Some? && response.value.account.Some? ==>
                var details := AccountDetails(response.value.account.value);
                && (details.Err? ==> r == Err(details.error) && status == old(status) && account == old(account))
                && (details.Ok? ==> r == Ok(response.value.state) && status == Authenticated &&
                                    account == Has(details.value))
      ensures !(response.Some? && response.value.account.Some?) ==>
                r == Ok(None) && status == NotAuthenticated && account == old(account)
    {
      calls := calls + [HandleRedirect];
      if response.Some? && response.value.account.Some? {
        var details := AccountDetails(response.value.account.value);
        if details.Err? {
          return Err(details.error);
        }
        status, account := Authenticated, Has(details.value);
        return Ok(response.value.state);
      }
      status := NotAuthenticated;
      return Ok(None);
    }

    /** `signInSilent`: the status is `Authenticating` before the client is
        asked; `sso` is its answer (an account's claims, no account, or a
        thrown message). Any failure leaves the status `Authenticating`. */
    method SignInSilent(sso: Result<Option<Option<Claims>>, string>) returns (r: Result<(), string>)
      modifies this
      ensures calls == old(calls) + [SsoSilent]
      ensures sso.Err? ==> r == Err(sso.error)
      ensures sso == Ok(None) ==> r == Err(NoAccountFound)
      ensures sso.Ok? && sso.value.Some? ==>
                var details := AccountDetails(sso.value.value);
                (details.Err? ==> r == Err(details.error)) &&
                (details.Ok? ==> r == Ok(()) && status == Authenticated && account == Has(details.value))
      ensures r.Err? ==> status == Authenticating && account == old(account)
    {
      status := Authenticating;
      calls := calls + [SsoSilent];
      if sso.Err? {
        return Err(sso.error);
      }
      if sso.value.None? {
        return Err(NoAccountFound);
      }
      var details := AccountDetails(sso.value.value);
      if details.Err? {
        return Err(details.error);
      }
      status, account := Authenticated, Has(details.value);
      return Ok(());
    }

    /** `signInUp(from)`: clear the interaction flag, mark `Authenticating`,
        then redirect to sign-in carrying `from` as the state. */
    method SignInUp(from: Option<string>)
      modifies this
      ensures status == Authenticating && account == old(account)
      ensures calls == old(calls) + [ClearInteractionStatus, LoginRedirect(from)]
    {
      calls := calls + [ClearInteractionStatus];
      status := Authenticating;
      calls := calls + [LoginRedirect(from)];
    }

    /** `signOut`: clear the interaction flag, drop the account, then redirect
        to sign-out. */
    method SignOut()
      modifies this
      ensures status == NotAuthenticated && account == Null
      ensures calls == old(calls) + [ClearInteractionStatus, LogoutRedirect]
    {
      calls := calls + [ClearInteractionStatus];
      status, account := NotAuthenticated, Null;
      calls := calls + [LogoutRedirect];
    }

    /** `getRequestToken`: `accounts` is how many accounts the client holds
        and `token` what `acquireTokenSilent` gives. An interaction-required
        failure starts an interactive sign-in and is still thrown. */
    method GetRequestToken(accounts: nat, token: Result<string, TokenError>) returns (r: Result<string, TokenError>)
      modifies this
      ensures accounts == 0 ==> r == Err(Failure(NoAccountFound)) && calls == old(calls) &&
                                status == old(status) && account == old(account)
      ensures accounts > 0 ==> r == token
      ensures accounts > 0 && token == Err(InteractionRequired) ==>
                status == Authenticating && account == old(account) &&
                calls == old(calls) + [AcquireTokenSilent, ClearInteractionStatus, LoginRedirect(None)]
      ensures accounts > 0 && token != Err(InteractionRequired) ==>
                status == old(status) && account == old(account) && calls == old(calls) + [AcquireTokenSilent]
    {
      if accounts == 0 {
        return Err(Failure(NoAccountFound));
      }
      calls := calls + [AcquireTokenSilent];
      if token == Err(InteractionRequired) {
        SignInUp(None);
      }
      return token;
    }
  }
}
