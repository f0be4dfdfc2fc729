/** `getUserAccessConfiguration` of the proxy router: the item ids a caller may
    read and write, taken from the claims of the bearer token it presents. */
module ProxyRouter {
  import opened Wrappers
  import opened Text
  import opened Errors

  /** `ItemAccessConfiguration`: folder ids readable and writable by the caller. */
  datatype ItemAccess = ItemAccess(read: seq<string>, write: seq<string>)

  const EmptyAccess := ItemAccess([], [])

  const ReadClaim := "extension_ApprovedReadItems"
  const WriteClaim := "extension_ApprovedWriteItems"

  /** The verified token payload: claim name to claim text. */
  type Claims = map<string, string>

  /** The token in an `authorization` header: the second space-separated word,
      whatever the first word says. */
  function BearerToken(header: Option<string>): (r: Option<string>)
    ensures r.Some? ==> r.value != "" && ' ' !in r.value
    ensures !Truthy(header) ==> r.None?
    ensures Truthy(header) ==>
              (r.Some? <==> |Split(header.value, ' ')| >= 2 && Split(header.value, ' ')[1] != "")
    ensures r.Some? ==> r.value == Split(header.value, ' ')[1]
  {
    if !Truthy(header) then None
    else
      var words := Split(header.value, ' ');
      if |words| >= 2 && words[1] != "" then Some(words[1]) else None
  }

  /** A header of the form `<scheme> <token>` (section 2.1 of RFC 6750 with the
      scheme `Bearer`) yields the token; the scheme word is not checked. */
  lemma BearerTokenOfHeader(scheme: string, token: string)
    requires ' ' !in scheme && ' ' !in token && token != ""
    ensures BearerToken(Some(scheme + " " + token)) == Some(token)
  {
    SplitJoin([scheme, token], ' ');
    assert Join([scheme, token], ' ') == scheme + " " + token;
  }

  /** Whatever follows the second word after a space is ignored: the token of
      `<scheme> <token> <more words>` is still the second word. */
  lemma BearerTokenOfWords(scheme: string, token: string, rest: string)
    requires ' ' !in scheme && ' ' !in token && token != ""
    requires rest == "" || rest[0] == ' '
    ensures BearerToken(Some(scheme + " " + token + rest)) == Some(token)
  {
    var t := [' '] + (token + rest);
    assert scheme + " " + token + rest == scheme + t;
    SplitPrefix(scheme, t, ' ');
    assert t[0] == ' ' && t[1..] == token + rest;
    assert Split(t, ' ') == [""] + Split(token + rest, ' ');
    SplitPrefix(token, rest, ' ');
    assert Split(rest, ' ')[0] == "";
    assert token + "" == token;
  }

  /** A claim split on `,` when it is present and non-empty, else no ids. */
  function ClaimList(claim: Option<string>): (r: seq<string>)
    ensures !Truthy(claim) ==> r == []
    ensures Truthy(claim) ==> Join(r, ',') == claim.value && |r| >= 1
  {
    if Truthy(claim) then
      JoinSplit(claim.value, ',');
      Split(claim.value, ',')
    else []
  }

  /** Ids joined with `,` into a claim come back unchanged, as long as no id is
      empty or holds a comma. */
  lemma {:induction false} ClaimListOfJoin(ids: seq<string>)
    requires forall k :: 0 <= k < |ids| ==> ids[k] != "" && ',' !in ids[k]
    ensures ClaimList(Some(Join(ids, ','))) == ids
  {
    if ids != [] {
      SplitJoin(ids, ',');
      assert |Join(ids, ',')| >= |ids[0]| by {
        JoinStartsWithFirst(ids, ',');
      }
    }
  }

  lemma {:induction false} JoinStartsWithFirst(ids: seq<string>, sep: char)
    requires ids != []
    ensures StartsWith(Join(ids, sep), ids[0])
  {
    if |ids| > 1 {
      assert Join(ids, sep) == ids[0] + ([sep] + Join(ids[1..], sep));
    }
  }

  /** The access lists read from verified claims. */
  function AccessOfClaims(payload: Claims): ItemAccess {
    ItemAccess(
      ClaimList(if ReadClaim in payload then Some(payload[ReadClaim]) else None),
      ClaimList(if WriteClaim in payload then Some(payload[WriteClaim]) else None))
  }

  /** The router's token-verification state: the key store is fetched once, on
      the first request that presents a token, and kept for the process. */
  class AccessResolver {
    var storeLoaded: bool

    constructor ()
      ensures !storeLoaded
    {
      storeLoaded := false;
    }

    /** `getUserAccessConfiguration(request)`. `verify` stands for verifying a
        token against the key store: the claims it carries, or `None` when
        verification fails. */
    method GetUserAccessConfiguration(authorization: Option<string>, openIdUrl: Option<string>,
                                      verify: string -> Option<Claims>)
      returns (r: Result<ItemAccess, Thrown>)
      modifies this
      ensures BearerToken(authorization).None? ==> r == Ok(EmptyAccess) && storeLoaded == old(storeLoaded)
      ensures BearerToken(authorization).Some? && !old(storeLoaded) && !Truthy(openIdUrl) ==>
        r == Err(Generic("OPENID_CONFIGURATION_URL not set")) && !storeLoaded
      ensures BearerToken(authorization).Some? && (old(storeLoaded) || Truthy(openIdUrl)) ==>
        storeLoaded &&
        r == Ok(match verify(BearerToken(authorization).value)
                case None => EmptyAccess
                case Some(payload) => AccessOfClaims(payload))
    {
      var token := BearerToken(authorization);
      if token.None? {
        return Ok(EmptyAccess);
      }
      if !storeLoaded {
        if !Truthy(openIdUrl) {
          return Err(Generic("OPENID_CONFIGURATION_URL not set"));
        }
        storeLoaded := true;
      }
      var decoded := verify(token.value);
      if decoded.None? {
        return Ok(EmptyAccess);
      }
      return Ok(AccessOfClaims(decoded.value));
    }
  }
}
