/** The request rewriting the drive proxy applies before forwarding to Microsoft
    Graph: the forwarded path and the request and response header rewrites. */
module ProxyUtils {
  import opened Wrappers
  import opened Text

  /** `preparePath(request, prefix)`: the raw url up to its first `?` (the empty
      path when there is no url), with the first occurrence of a non-empty
      prefix removed. */
  function PreparePath(url: Option<string>, prefix: Option<string>): (r: string)
    ensures '?' !in r
    ensures url.None? ==> r == ""
    ensures url.Some? && !Truthy(prefix) ==> r == TakeUntil(url.value, '?')
    ensures url.Some? && Truthy(prefix) && StartsWith(TakeUntil(url.value, '?'), prefix.value) ==>
              r == TakeUntil(url.value, '?')[|prefix.value|..]
    ensures url.Some? && Truthy(prefix) && !Contains(TakeUntil(url.value, '?'), prefix.value) ==>
              r == TakeUntil(url.value, '?')
    ensures url.Some? && Truthy(prefix) && Contains(TakeUntil(url.value, '?'), prefix.value) ==>
              var d, i := TakeUntil(url.value, '?'), IndexOf(TakeUntil(url.value, '?'), prefix.value).value;
              r == d[..i] + d[i + |prefix.value|..]
  {
    var dest := if url.Some? then TakeUntil(url.value, '?') else "";
    if !Truthy(prefix) then dest
    else match IndexOf(dest, prefix.value)
      case None => dest
      case Some(i) =>
        assert StartsWith(dest, prefix.value) ==> i == 0;
        RemovalKeepsOut(dest, prefix.value, '?');
        dest[..i] + dest[i + |prefix.value|..]
  }

  /** The prefix is removed wherever it first occurs, not only at the front:
      `a/p` under the prefix `/p` is forwarded as `a`. */
  lemma PrefixRemovedInside()
    ensures PreparePath(Some("a/p"), Some("/p")) == "a"
  {
    var d := "a/p";
    assert '?' !in d;
    assert TakeUntil(d, '?') == d;
    assert !StartsWith(d, "/p");
    assert d[1..] == "/p" && StartsWith(d[1..], "/p");
    assert IndexOf(d, "/p") == Some(1);
    assert d[..1] + d[3..] == "a";
  }

  /** Removing a piece of a string cannot bring in a character it lacked. */
  lemma RemovalKeepsOut(s: string, pat: string, c: char)
    requires c !in s
    ensures c !in ReplaceFirst(s, pat, "")
  {
    match IndexOf(s, pat)
    case None =>
    case Some(i) =>
      assert ReplaceFirst(s, pat, "") == s[..i] + s[i + |pat|..];
  }

  /** The header names the rewrites touch. */
  const StrictTransportSecurity := "strict-transport-security"
  const ContentSecurityPolicy := "Content-Security-Policy"
  const CacheControl := "Cache-Control"
  const Authorization := "authorization"

  /** A mutable header object, keyed by header name as written. */
  class Headers {
    var entries: map<string, string>

    constructor (entries: map<string, string>)
      ensures this.entries == entries
    {
      this.entries := entries;
    }

    /** `prepareResponseHeaders`: drop the transport-security pin and the content
        security policy, cache for 30 seconds, keep every other header. */
    method PrepareResponseHeaders()
      modifies this
      ensures StrictTransportSecurity !in entries && ContentSecurityPolicy !in entries
      ensures CacheControl in entries && entries[CacheControl] == "max-age=30"
      ensures forall k :: k !in {StrictTransportSecurity, ContentSecurityPolicy, CacheControl} ==>
                (k in entries <==> k in old(entries)) &&
                (k in entries ==> entries[k] == old(entries)[k])
    {
      entries := entries - {StrictTransportSecurity, ContentSecurityPolicy};
      entries := entries[CacheControl := "max-age=30"];
    }

    /** The rewrite installed by `prepareRequestHeaders`: send the app token as
        a bearer credential, or throw when no token was obtained. */
    method PrepareRequestHeaders(token: Option<string>) returns (r: Result<(), string>)
      modifies this
      ensures token.None? ==> r == Err("No token found") && entries == old(entries)
      ensures token.Some? ==> r.Ok? && entries == old(entries)[Authorization := "Bearer " + token.value]
    {
      if token.None? {
        return Err("No token found");
      }
      entries := entries[Authorization := "Bearer " + token.value];
      return Ok(());
    }
  }
}
