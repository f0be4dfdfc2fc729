/** What the two OneDrive resource providers share: change detection between
    old and new properties, the cache of Graph clients, and the pieces of the
    request paths they build. */
module GraphShared {
  import opened Wrappers

  /** A resource's properties as the provider receives them; a missing key is
      `undefined`. All the providers' properties are strings. */
  type Props = map<string, string>

  function Prop(props: Props, key: string): Option<string> {
    if key in props then Some(props[key]) else None
  }

  /** `${props.key}` in a template string. */
  function Str(props: Props, key: string): string {
    if key in props then props[key] else "undefined"
  }

  /** `isDifferent`: deep inequality, which for strings and `undefined` is
      plain inequality. */
  predicate IsDifferent(olds: Props, news: Props, key: string) {
    Prop(olds, key) != Prop(news, key)
  }

  /** `a` is `b` with some elements left out, in the same order. */
  predicate SubsequenceOf(a: seq<string>, b: seq<string>)
    decreases |b|
  {
    a == [] || (b != [] && if a[0] == b[0] then SubsequenceOf(a[1..], b[1..]) else SubsequenceOf(a, b[1..]))
  }

  /** `checkForChanges`: the listed properties whose old and new values
      differ, in the order listed. */
  function CheckForChanges(olds: Props, news: Props, properties: seq<string>): (r: seq<string>)
    ensures forall p :: p in r <==> p in properties && IsDifferent(olds, news, p)
    ensures SubsequenceOf(r, properties)
    decreases |properties|
  {
    if properties == [] then []
    else
      var rest := CheckForChanges(olds, news, properties[1..]);
      if IsDifferent(olds, news, properties[0]) then [properties[0]] + rest
      else
        assert rest == [] || rest[0] != properties[0];
        rest
  }

  /** Comparing properties with themselves finds no change. */
  lemma {:induction false} NoChangesAgainstItself(props: Props, properties: seq<string>)
    ensures CheckForChanges(props, props, properties) == []
    decreases |properties|
  {
    if properties != [] {
      NoChangesAgainstItself(props, properties[1..]);
    }
  }

  /** Properties that all agree give no change, whatever else differs. */
  lemma {:induction false} NoChangesWhenAllAgree(olds: Props, news: Props, properties: seq<string>)
    requires forall k :: 0 <= k < |properties| ==> !IsDifferent(olds, news, properties[k])
    ensures CheckForChanges(olds, news, properties) == []
    decreases |properties|
  {
    if properties != [] {
      NoChangesWhenAllAgree(olds, news, properties[1..]);
    }
  }

  /** A Graph client, identified by what it was built from. */
  datatype Client = Client(clientId: string, clientSecret: string, tenantId: string, version: string)

  const DefaultVersion := "beta"

  /** The cache key of a client. */
  function ClientKey(clientId: string, tenantId: string, version: string): string {
    clientId + "-" + tenantId + "-" + version
  }

  /** The module's client cache. */
  class ClientCache {
    var clients: map<string, Client>

    /** Every cached client sits under its own key. */
    predicate Valid()
      reads this
    {
      forall key :: key in clients ==> ClientKey(clients[key].clientId, clients[key].tenantId, clients[key].version) == key
    }

    constructor ()
      ensures clients == map[] && Valid()
    {
      clients := map[];
    }

    /** `createOrGetClient`: the client cached under the key of the client id,
        tenant and version (`beta` unless given) is reused, whatever secret is
        passed; otherwise a new client is built and cached. */
    method CreateOrGetClient(clientId: string, clientSecret: string, tenantId: string, version: Option<string>)
      returns (c: Client)
      requires Valid()
      modifies this
      ensures Valid()
      ensures var key := ClientKey(clientId, tenantId, version.GetOr(DefaultVersion));
        && ClientKey(c.clientId, c.tenantId, c.version) == key
        && (key in old(clients) ==> c == old(clients)[key] && clients == old(clients))
        && (key !in old(clients) ==>
              c == Client(clientId, clientSecret, tenantId, version.GetOr(DefaultVersion)) &&
              clients == old(clients)[key := c])
    {
      var v := version.GetOr(DefaultVersion);
      var key := ClientKey(clientId, tenantId, v);
      if key in clients {
        return clients[key];
      }
      c := Client(clientId, clientSecret, tenantId, v);
      clients := clients[key := c];
    }
  }

  /** Characters `encodeURIComponent` leaves alone. */
  predicate Unreserved(c: char) {
    'A' <= c <= 'Z' || 'a' <= c <= 'z' || '0' <= c <= '9' ||
    c == '-' || c == '_' || c == '.' || c == '!' || c == '~' || c == '*' || c == '\'' || c == '(' || c == ')'
  }

  function HexDigit(n: nat): (c: char)
    requires n < 16
    ensures Unreserved(c)
  {
    if n < 10 then '0' + n as char else 'A' + (n - 10) as char
  }

  /** The UTF-8 bytes of a Unicode scalar value. */
  function Utf8(cp: nat): (bytes: seq<nat>)
    ensures 1 <= |bytes| <= 4 && forall k :: 0 <= k < |bytes| ==> bytes[k] < 256
  {
    if cp < 0x80 then [cp]
    else if cp < 0x800 then [0xC0 + (cp / 64) % 32, 0x80 + cp % 64]
    else if cp < 0x10000 then [0xE0 + (cp / 4096) % 16, 0x80 + (cp / 64) % 64, 0x80 + cp % 64]
    else [0xF0 + (cp / 262144) % 8, 0x80 + (cp / 4096) % 64, 0x80 + (cp / 64) % 64, 0x80 + cp % 64]
  }

  /** `%XX` for each byte, upper-case hexadecimal. */
  function PercentBytes(bytes: seq<nat>): (s: string)
    requires forall k :: 0 <= k < |bytes| ==> bytes[k] < 256
    ensures forall k :: 0 <= k < |s| ==> s[k] == '%' || Unreserved(s[k])
    ensures |s| == 3 * |bytes|
  {
    if bytes == [] then []
    else ['%', HexDigit(bytes[0] / 16), HexDigit(bytes[0] % 16)] + PercentBytes(bytes[1..])
  }

  /** `encodeURIComponent`: unreserved characters stay, every other character
      becomes the percent-escapes of its UTF-8 bytes. */
  function EncodeURIComponent(s: string): (e: string)
    ensures forall k :: 0 <= k < |e| ==> e[k] == '%' || Unreserved(e[k])
    ensures (forall k :: 0 <= k < |s| ==> Unreserved(s[k])) ==> e == s
    decreases |s|
  {
    if s == [] then []
    else
      (if Unreserved(s[0]) then [s[0]] else PercentBytes(Utf8(s[0] as nat))) + EncodeURIComponent(s[1..])
  }

  /** An encoded name holds no character that would end a path segment or
      start a path's `:` suffix. */
  lemma EncodedNameIsOneSegment(name: string)
    ensures '/' !in EncodeURIComponent(name) && ':' !in EncodeURIComponent(name)
    ensures '?' !in EncodeURIComponent(name) && '#' !in EncodeURIComponent(name)
  {
  }

  /** A Graph request a provider makes: the verb, the path, and what it
      sends. */
  datatype GraphCall = Put(path: string, body: string) | Patch(path: string, name: string)
                     | Post(path: string, name: string, conflictBehavior: string) | Delete(path: string)

  /** The outcome of `diff`; `replacements` is its `replaces`. */
  datatype DiffResult = DiffResult(stables: seq<string>, deleteBeforeReplace: bool, replacements: seq<string>,
                                   changes: bool)

  /** The properties whose change means a new resource. */
  const ReplaceKeys := ["tenantId", "clientId", "clientSecret", "driveId", "folderId"]

  /** `DELETE /drives/<driveId>/items/<id>`, for both providers. */
  function DeleteCall(id: string, props: Props): (c: GraphCall)
    ensures c.Delete? && c.path == ItemPath(Str(props, "driveId"), id)
  {
    Delete(ItemPath(Str(props, "driveId"), id))
  }

  function ItemPath(driveId: string, id: string): string {
    "/drives/" + driveId + "/items/" + id
  }
}
