/** Sign-in enrichment: the domain lists, the cache of customer folders per
    email, and the claims handed back to the identity provider. */
module Authentication {
  import opened Wrappers
  import opened Text
  import opened Seqs
  import opened Errors
  import ProxyRouter

  // ---------------------------------------------------------------------
  // Domain lists

  /** An email address in `domain`: it ends with `@domain`. */
  predicate InDomain(email: string, domain: string) {
    EndsWith(email, "@" + domain)
  }

  /** Whether `email` is in one of the comma-separated domains of the
      environment variable `name`; an unset variable lists nothing, a set one
      is split even when empty. */
  predicate OnDomainList(env: Env, name: string, email: string) {
    name in env &&
    exists k :: 0 <= k < |Split(env[name], ',')| && InDomain(email, Split(env[name], ',')[k])
  }

  /** `isDomainOnAllowlist`. */
  function OnAllowlist(env: Env, email: string): bool {
    OnDomainList(env, "ALLOWED_DOMAINS", email)
  }

  /** `isDomainOnAdminList`. */
  function OnAdminList(env: Env, email: string): bool {
    OnDomainList(env, "ADMIN_DOMAINS", email)
  }

  /** A single listed domain admits exactly the addresses in that domain. */
  lemma SingleDomain(env: Env, name: string, email: string)
    requires name in env && ',' !in env[name]
    ensures OnDomainList(env, name, email) <==> InDomain(email, env[name])
  {
    SplitJoin([env[name]], ',');
    assert Join([env[name]], ',') == env[name];
  }

  /** A subdomain is not the domain: an address ending in `.domain` is not in
      `domain`. */
  lemma NoSubdomainMatch(email: string, domain: string)
    requires EndsWith(email, "." + domain)
    ensures !InDomain(email, domain)
  {
    assert email[|email| - |domain| - 1] == ("." + domain)[0];
  }

  // ---------------------------------------------------------------------
  // The customer-folder cache

  /** A child of the customer folder, with whether it has a folder facet. */
  datatype Child = Child(id: string, folder: bool)

  /** `getCustomerFolders`: the ids of the children that are folders, in
      order. */
  function CustomerIds(children: seq<Child>): (r: seq<string>)
    ensures |r| <= |children|
    ensures forall k :: 0 <= k < |children| && children[k].folder ==> children[k].id in r
    ensures forall x :: x in r ==> exists k :: 0 <= k < |children| && children[k].folder && children[k].id == x
    decreases |children|
  {
    if children == [] then []
    else
      var rest := CustomerIds(children[1..]);
      assert forall k :: 1 <= k < |children| ==> children[k] == children[1..][k - 1];
      if children[0].folder then [children[0].id] + rest else rest
  }

  /** Email to customer-folder ids. */
  type Cache = map<string, seq<string>>

  /** One email of one customer's user list merged into the cache. */
  function Grant(entries: Cache, email: string, id: string): Cache {
    if email !in entries then entries[email := [id]]
    else if id in entries[email] then entries
    else entries[email := entries[email] + [id]]
  }

  /** A customer's whole user list merged in, in list order. */
  function GrantAll(entries: Cache, id: string, emails: seq<string>): Cache
    decreases |emails|
  {
    if emails == [] then entries
    else Grant(GrantAll(entries, id, emails[..|emails| - 1]), emails[|emails| - 1], id)
  }

  /** No list in the cache repeats an id. */
  predicate DuplicateFree(entries: Cache) {
    forall e :: e in entries ==> NoDuplicates(entries[e])
  }

  /** Merging a user list: every listed email gains the customer, an existing
      list only grows at its end, nothing else changes, and lists stay free of
      duplicates. */
  lemma {:induction false} GrantAllSpec(entries: Cache, id: string, emails: seq<string>)
    ensures var r := GrantAll(entries, id, emails);
      && (forall e :: e in r <==> e in entries || e in emails)
      && (forall e :: e in emails ==> id in r[e])
      && (forall e :: e in entries ==> |entries[e]| <= |r[e]| && r[e][..|entries[e]|] == entries[e])
      && (forall e :: e in entries && e !in emails ==> r[e] == entries[e])
      && (forall e, x :: e in r && x in r[e] ==> (e in entries && x in entries[e]) || (x == id && e in emails))
      && (DuplicateFree(entries) ==> DuplicateFree(r))
    decreases |emails|
  {
    if emails != [] {
      var front := emails[..|emails| - 1];
      var last := emails[|emails| - 1];
      GrantAllSpec(entries, id, front);
      var mid := GrantAll(entries, id, front);
      GrantSpec(mid, last, id);
      assert forall e :: e in emails <==> e in front || e == last;
      var r := Grant(mid, last, id);
      forall e | e in entries
        ensures |entries[e]| <= |r[e]| && r[e][..|entries[e]|] == entries[e]
      {
        assert r[e][..|mid[e]|][..|entries[e]|] == r[e][..|entries[e]|];
      }
    }
  }

  /** One email merged in: the same facts for a single step. */
  lemma GrantSpec(entries: Cache, email: string, id: string)
    ensures var r := Grant(entries, email, id);
      && (forall e :: e in r <==> e in entries || e == email)
      && id in r[email]
      && (forall e :: e in entries ==> |entries[e]| <= |r[e]| && r[e][..|entries[e]|] == entries[e])
      && (forall e :: e in entries && e != email ==> r[e] == entries[e])
      && (forall e, x :: e in r && x in r[e] ==> (e in entries && x in entries[e]) || (x == id && e == email))
      && (DuplicateFree(entries) ==> DuplicateFree(r))
  {
    if email in entries && id !in entries[email] {
      var l := entries[email] + [id];
      assert l[..|entries[email]|] == entries[email];
      assert forall x :: x in l ==> x in entries[email] || x == id;
    }
  }

  /** The user lists of several customers merged in, in customer order.
      `emailsOf` gives the `Users.sidecar` emails of a customer folder, `None`
      when that file cannot be read or has no emails. */
  function MergeAll(entries: Cache, customers: seq<string>, emailsOf: string -> Option<seq<string>>): Cache
    decreases |customers|
  {
    if customers == [] then entries
    else
      var last := customers[|customers| - 1];
      GrantAll(MergeAll(entries, customers[..|customers| - 1], emailsOf), last, emailsOf(last).GetOr([]))
  }

  /** An email's entry after merging lists exactly the customers whose user
      lists name it (besides what it held before), without duplicates. */
  lemma {:induction false} MergeAllSpec(entries: Cache, customers: seq<string>,
                                         emailsOf: string -> Option<seq<string>>, email: string)
    ensures var r := MergeAll(entries, customers, emailsOf);
      && (email in r <==> (email in entries ||
            exists k :: 0 <= k < |customers| && email in emailsOf(customers[k]).GetOr([])))
      && (forall k :: 0 <= k < |customers| && email in emailsOf(customers[k]).GetOr([]) ==>
            customers[k] in r[email])
      && (email in r ==> forall x :: x in r[email] ==>
            (email in entries && x in entries[email]) ||
            exists k :: 0 <= k < |customers| && x == customers[k] && email in emailsOf(customers[k]).GetOr([]))
      && (email in entries ==> |entries[email]| <= |r[email]| && r[email][..|entries[email]|] == entries[email])
      && (DuplicateFree(entries) ==> DuplicateFree(r))
    decreases |customers|
  {
    if customers != [] {
      var front := customers[..|customers| - 1];
      var last := customers[|customers| - 1];
      MergeAllSpec(entries, front, emailsOf, email);
      var before := MergeAll(entries, front, emailsOf);
      GrantAllSpec(before, last, emailsOf(last).GetOr([]));
      assert forall k :: 0 <= k < |front| ==> customers[k] == front[k];
      var r := MergeAll(entries, customers, emailsOf);
      if email in entries {
        assert before[email][..|entries[email]|] == entries[email];
        assert r[email][..|before[email]|] == before[email];
        assert r[email][..|entries[email]|] == before[email][..|entries[email]|];
      }
    }
  }

  /** What `getCustomerFoldersByEmail` returns: a cached entry as it was when
      the call began, otherwise the entry after the merge, or nothing. */
  function Lookup(before: Cache, after: Cache, email: string): seq<string> {
    if email in before then before[email]
    else if email in after then after[email]
    else []
  }

  /** The process-wide `AccessCache`. */
  class AccessCache {
    var entries: Cache

    constructor ()
      ensures entries == map[]
    {
      entries := map[];
    }

    predicate Valid()
      reads this
    {
      DuplicateFree(entries)
    }

    /** The `emails.forEach` of one customer: add the customer to each email's
        list unless it is there already. */
    method Merge(id: string, emails: seq<string>)
      requires Valid()
      modifies this
      ensures Valid()
      ensures entries == GrantAll(old(entries), id, emails)
    {
      var i := 0;
      while i < |emails|
        invariant 0 <= i <= |emails|
        invariant entries == GrantAll(old(entries), id, emails[..i])
      {
        assert emails[..i + 1][..i] == emails[..i];
        var email := emails[i];
        if email !in entries {
          entries := entries[email := [id]];
        } else if id !in entries[email] {
          entries := entries[email := entries[email] + [id]];
        }
        i := i + 1;
      }
      assert emails[..|emails|] == emails;
      GrantAllSpec(old(entries), id, emails);
    }

    /** `getCustomerFoldersByEmail`: start merging every customer's user list
        and answer from the cache, waiting for the merge only on a miss.
        `customerFolder` is `CUSTOMER_FOLDER_ID`, `children` the listing of
        that folder. */
    method FoldersByEmail(email: string, customerFolder: Option<string>, children: seq<Child>,
                          emailsOf: string -> Option<seq<string>>)
      returns (r: Result<seq<string>, Thrown>)
      requires Valid()
      modifies this
      ensures Valid()
      ensures !Truthy(customerFolder) ==>
                r == Err(Generic("CUSTOMER_FOLDER_ID is missing")) && entries == old(entries)
      ensures Truthy(customerFolder) ==>
                && entries == MergeAll(old(entries), CustomerIds(children), emailsOf)
                && r == Ok(Lookup(old(entries), entries, email))
    {
      if !Truthy(customerFolder) {
        return Err(Generic("CUSTOMER_FOLDER_ID is missing"));
      }
      var customers := CustomerIds(children);
      var hit := email in entries;
      var cached := if hit then entries[email] else [];
      var i := 0;
      while i < |customers|
        invariant 0 <= i <= |customers|
        invariant Valid()
        invariant entries == MergeAll(old(entries), customers[..i], emailsOf)
      {
        assert customers[..i + 1][..i] == customers[..i];
        Merge(customers[i], emailsOf(customers[i]).GetOr([]));
        i := i + 1;
      }
      assert customers[..|customers|] == customers;
      if hit {
        return Ok(cached);
      }
      return Ok(if email in entries then entries[email] else []);
    }
  }

  /** On a miss the answer names exactly the customers whose user lists hold
      the email, each once. */
  lemma CacheMissAnswer(before: Cache, children: seq<Child>, emailsOf: string -> Option<seq<string>>, email: string)
    requires DuplicateFree(before) && email !in before
    ensures var after := MergeAll(before, CustomerIds(children), emailsOf);
      var ids := Lookup(before, after, email);
      var customers := CustomerIds(children);
      && NoDuplicates(ids)
      && (forall x :: x in ids <==>
            exists k :: 0 <= k < |customers| && x == customers[k] && email in emailsOf(customers[k]).GetOr([]))
  {
    var customers := CustomerIds(children);
    MergeAllSpec(before, customers, emailsOf, email);
  }

  // ---------------------------------------------------------------------
  // Claims

  /** The template options the router was generated with. */
  datatype AuthOption = CustomerFolders | SharedFolders | Allowlist | AdminList | PublicAccess

  datatype Claim = Claim(id: string, value: string)

  const RoleClaim := "extension_Role"

  /** An element of the `roles` array: a string, or an array that `join`
      flattens with commas. */
  datatype RoleEntry = Word(word: string) | Group(words: seq<string>)

  function RoleText(entry: RoleEntry): string {
    match entry
    case Word(w) => w
    case Group(ws) => Join(ws, ',')
  }

  function RoleTexts(roles: seq<RoleEntry>): (r: seq<string>)
    ensures |r| == |roles|
    ensures forall k :: 0 <= k < |roles| ==> r[k] == RoleText(roles[k])
    decreases |roles|
  {
    if roles == [] then [] else [RoleText(roles[0])] + RoleTexts(roles[1..])
  }

  /** `CUSTOMER:<id>` for each associated customer. */
  function CustomerRoles(ids: seq<string>): (r: seq<string>)
    ensures |r| == |ids|
    ensures forall k :: 0 <= k < |ids| ==> r[k] == "CUSTOMER:" + ids[k]
    decreases |ids|
  {
    if ids == [] then [] else ["CUSTOMER:" + ids[0]] + CustomerRoles(ids[1..])
  }

  function Words(ws: seq<string>): (r: seq<RoleEntry>)
    ensures |r| == |ws|
    ensures forall k :: 0 <= k < |ws| ==> r[k] == Word(ws[k])
    decreases |ws|
  {
    if ws == [] then [] else [Word(ws[0])] + Words(ws[1..])
  }

  /** The folders of an `ANONYMOUS_*_FOLDERS` variable, when it is set and
      non-empty. */
  function AnonymousFolders(env: Env, name: string): seq<string> {
    if Truthy(EnvGet(env, name)) then Split(env[name], ',') else []
  }

  /** The handler's body. `associated` is what `getCustomerFoldersByEmail`
      gave (`None` when it threw), `allCustomers` what `getCustomerFolders`
      gives (`None` when it throws). `nested` chooses how the customer roles
      enter `roles`: as one array element, as the code has it, or spread. A
      thrown error is caught and ends in no claims. */
  function Assemble(nested: bool, options: set<AuthOption>, email: string, env: Env,
                    associated: Option<seq<string>>, allCustomers: Option<seq<string>>): (r: seq<Claim>)
    ensures r == [] || (|r| == 3 && r[0].id == ProxyRouter.ReadClaim && r[1].id == ProxyRouter.WriteClaim &&
                        r[2].id == RoleClaim)
  {
    if CustomerFolders in options && associated.None? then []
    else
      var mine := if CustomerFolders in options then associated.value else [];
      var shared := SharedFolders in options;
      var readable := mine + (if shared then AnonymousFolders(env, "ANONYMOUS_READ_FOLDERS") else []);
      var writable := mine + (if shared then AnonymousFolders(env, "ANONYMOUS_WRITE_FOLDERS") else []);
      var customerRoles :=
        if CustomerFolders !in options then []
        else if nested then [Group(CustomerRoles(mine))]
        else Words(CustomerRoles(mine));
      var anonymous := Allowlist in options && OnAllowlist(env, email);
      var admin := AdminList in options && OnAdminList(env, email);
      if admin && allCustomers.None? then []
      else
        var roles := (if admin then [Word("ADMIN")] else []) +
                     (if anonymous then [Word("ANONYMOUS")] else []) + customerRoles;
        var every := if admin then allCustomers.value else [];
        if PublicAccess !in options && |roles| == 0 then []
        else
          [Claim(ProxyRouter.ReadClaim, Join(readable + every, ',')),
           Claim(ProxyRouter.WriteClaim, Join(writable + every, ',')),
           Claim(RoleClaim, Join(RoleTexts(roles), ','))]
  }

  /** The handler as written: the customer roles are one nested element. */
  function ClaimsAsWritten(options: set<AuthOption>, email: string, env: Env,
                           associated: Option<seq<string>>, allCustomers: Option<seq<string>>): seq<Claim> {
    Assemble(true, options, email, env, associated, allCustomers)
  }

  /** The handler with the customer roles spread into `roles`. */
  function Claims(options: set<AuthOption>, email: string, env: Env,
                  associated: Option<seq<string>>, allCustomers: Option<seq<string>>): seq<Claim> {
    Assemble(false, options, email, env, associated, allCustomers)
  }

  /** As written, with customer folders enabled the no-roles guard never
      fires: a user with no customer folder and on no list still receives
      the three claims, with an empty role. */
  lemma NoRolesGuardCannotFire(email: string, env: Env)
    ensures var r := ClaimsAsWritten({CustomerFolders}, email, env, Some([]), None);
      |r| == 3 && r[2].value == ""
    ensures Claims({CustomerFolders}, email, env, Some([]), None) == []
  {
    var r := ClaimsAsWritten({CustomerFolders}, email, env, Some([]), None);
    assert RoleTexts([Group([])]) == [""];
    assert Join([""], ',') == "";
  }

  /** As written, the nested empty customer role leaves a trailing comma after
      an admin's role; spread, the role is `ADMIN` alone. */
  lemma AdminTrailingComma(email: string, env: Env, customers: seq<string>)
    requires OnAdminList(env, email)
    ensures var r := ClaimsAsWritten({CustomerFolders, AdminList}, email, env, Some([]), Some(customers));
      |r| == 3 && r[2].value == "ADMIN,"
    ensures var r := Claims({CustomerFolders, AdminList}, email, env, Some([]), Some(customers));
      |r| == 3 && r[2].value == "ADMIN"
  {
    assert RoleTexts([Word("ADMIN"), Group([])]) == ["ADMIN", ""];
    assert Join(["ADMIN", ""], ',') == "ADMIN" + [','] + "";
    assert RoleTexts([Word("ADMIN")] + Words(CustomerRoles([]))) == ["ADMIN"];
  }

  /** Whether the handler finds any role: an associated customer folder, the
      allowlist, or the admin list. */
  predicate HasRole(options: set<AuthOption>, email: string, env: Env, associated: seq<string>) {
    (CustomerFolders in options && associated != []) ||
    (Allowlist in options && OnAllowlist(env, email)) ||
    (AdminList in options && OnAdminList(env, email))
  }

  /** Unless public access is on, claims are granted exactly when a role is
      found and nothing failed, and the role claim is then never empty. */
  lemma ClaimsNeedARole(options: set<AuthOption>, email: string, env: Env,
                        associated: Option<seq<string>>, allCustomers: Option<seq<string>>)
    requires PublicAccess !in options
    ensures var r := Claims(options, email, env, associated, allCustomers);
      var failed := (CustomerFolders in options && associated.None?) ||
                    (AdminList in options && OnAdminList(env, email) && allCustomers.None?);
      && (r != [] <==> !failed && HasRole(options, email, env, associated.GetOr([])))
      && (r != [] ==> r[2].value != "")
  {
    var r := Claims(options, email, env, associated, allCustomers);
    if r != [] {
      var mine := if CustomerFolders in options then associated.GetOr([]) else [];
      var customerRoles := if CustomerFolders !in options then [] else Words(CustomerRoles(mine));
      var admin := AdminList in options && OnAdminList(env, email);
      var anonymous := Allowlist in options && OnAllowlist(env, email);
      var roles := (if admin then [Word("ADMIN")] else []) +
                   (if anonymous then [Word("ANONYMOUS")] else []) + customerRoles;
      assert r[2].value == Join(RoleTexts(roles), ',');
      JoinNonEmpty(RoleTexts(roles), ',');
    }
  }

  /** ADMIN leads the roles, ahead of ANONYMOUS, and an admin can read and
      write every customer folder. */
  lemma AdminFirst(options: set<AuthOption>, email: string, env: Env,
                   associated: Option<seq<string>>, customers: seq<string>)
    requires AdminList in options && OnAdminList(env, email)
    ensures var r := Claims(options, email, env, associated, Some(customers));
      r != [] ==>
        && StartsWith(r[2].value, "ADMIN")
        && (forall x :: x in customers ==> x in Split(r[0].value, ',') || ',' in x)
  {
    var r := Claims(options, email, env, associated, Some(customers));
    if r != [] {
      var mine := if CustomerFolders in options then associated.value else [];
      var customerRoles := if CustomerFolders !in options then [] else Words(CustomerRoles(mine));
      var anonymous := Allowlist in options && OnAllowlist(env, email);
      var roles := [Word("ADMIN")] + (if anonymous then [Word("ANONYMOUS")] else []) + customerRoles;
      JoinStartsWith(RoleTexts(roles), ',');
      assert RoleTexts(roles)[0] == "ADMIN";
      var shared := SharedFolders in options;
      var readable := mine + (if shared then AnonymousFolders(env, "ANONYMOUS_READ_FOLDERS") else []) + customers;
      forall x | x in customers
        ensures x in Split(r[0].value, ',') || ',' in x
      {
        if ',' !in x {
          JoinKeepsCommaFree(readable, ',', x);
        }
      }
    }
  }

  /** Folder ids as Graph gives them hold no comma. */
  predicate CommaFree(xs: seq<string>) {
    forall k :: 0 <= k < |xs| ==> ',' !in xs[k]
  }

  /** A non-empty, comma-free id is listed in a joined claim exactly when it
      is one of the joined ids. */
  lemma ListedIn(xs: seq<string>, f: string)
    requires CommaFree(xs) && f != "" && ',' !in f
    ensures f in Split(Join(xs, ','), ',') <==> f in xs
  {
    if xs != [] {
      SplitJoin(xs, ',');
    } else {
      assert Split("", ',') == [""];
    }
  }

  /** A claim joined from three comma-free lists lists a non-empty, comma-free
      id exactly when one of the three holds it. */
  lemma ListedInParts(mine: seq<string>, anon: seq<string>, every: seq<string>, f: string)
    requires CommaFree(mine) && CommaFree(anon) && CommaFree(every)
    requires f != "" && ',' !in f
    ensures f in Split(Join(mine + anon + every, ','), ',') <==> f in mine || f in anon || f in every
  {
    var xs := mine + anon + every;
    assert CommaFree(xs) by {
      forall k | 0 <= k < |xs|
        ensures ',' !in xs[k]
      {
        if k < |mine| {
          assert xs[k] == mine[k];
        } else if k < |mine| + |anon| {
          assert xs[k] == anon[k - |mine|];
        } else {
          assert xs[k] == every[k - |mine| - |anon|];
        }
      }
    }
    ListedIn(xs, f);
  }

  /** Which folders the read and write claims list: a folder is readable
      exactly when it is an associated customer folder, one of
      `ANONYMOUS_READ_FOLDERS` with shared folders enabled, or any customer
      folder for an admin; writable likewise with `ANONYMOUS_WRITE_FOLDERS`. */
  lemma AssembledFolders(nested: bool, options: set<AuthOption>, email: string, env: Env,
                         associated: Option<seq<string>>, allCustomers: Option<seq<string>>, f: string)
    requires f != "" && ',' !in f
    requires CommaFree(associated.GetOr([])) && CommaFree(allCustomers.GetOr([]))
    ensures var r := Assemble(nested, options, email, env, associated, allCustomers);
      var admin := AdminList in options && OnAdminList(env, email);
      var mine := CustomerFolders in options && f in associated.GetOr([]);
      var every := admin && f in allCustomers.GetOr([]);
      r != [] ==>
        && (f in Split(r[0].value, ',') <==>
              mine || (SharedFolders in options && f in AnonymousFolders(env, "ANONYMOUS_READ_FOLDERS")) || every)
        && (f in Split(r[1].value, ',') <==>
              mine || (SharedFolders in options && f in AnonymousFolders(env, "ANONYMOUS_WRITE_FOLDERS")) || every)
  {
    var r := Assemble(nested, options, email, env, associated, allCustomers);
    if r != [] {
      var mine := if CustomerFolders in options then associated.value else [];
      var shared := SharedFolders in options;
      var admin := AdminList in options && OnAdminList(env, email);
      var every := if admin then allCustomers.value else [];
      var readAnon := if shared then AnonymousFolders(env, "ANONYMOUS_READ_FOLDERS") else [];
      var writeAnon := if shared then AnonymousFolders(env, "ANONYMOUS_WRITE_FOLDERS") else [];
      assert r[0].value == Join(mine + readAnon + every, ',');
      assert r[1].value == Join(mine + writeAnon + every, ',');
      ListedInParts(mine, readAnon, every, f);
      ListedInParts(mine, writeAnon, every, f);
    }
  }

  lemma {:induction false} JoinStartsWith(xs: seq<string>, sep: char)
    requires xs != []
    ensures StartsWith(Join(xs, sep), xs[0])
  {
    if |xs| > 1 {
      assert Join(xs, sep) == xs[0] + ([sep] + Join(xs[1..], sep));
    }
  }

  /** A comma-free piece of a joined list comes back out of the split. */
  lemma {:induction false} JoinKeepsCommaFree(xs: seq<string>, sep: char, x: string)
    requires x in xs && sep !in x
    ensures x in Split(Join(xs, sep), sep)
    decreases |xs|
  {
    if |xs| == 1 {
      SplitJoin([x], sep);
    } else {
      var t := [sep] + Join(xs[1..], sep);
      assert Join(xs, sep) == xs[0] + t;
      if xs[0] == x {
        SplitPrefix(x, t, sep);
        assert t[0] == sep && t[1..] == Join(xs[1..], sep);
        assert Split(t, sep)[0] == "";
        assert x + "" == x;
      } else {
        JoinKeepsCommaFree(xs[1..], sep, x);
        SplitSuffix(xs[0], Join(xs[1..], sep), sep);
        var r := Split(Join(xs, sep), sep);
        var q := Split(Join(xs[1..], sep), sep);
        var j :| 0 <= j < |q| && q[j] == x;
        assert r[|r| - |q| + j] == q[j];
      }
    }
  }

  /** The pieces after a separator end the split of the whole. */
  lemma {:induction false} SplitSuffix(a: string, t: string, sep: char)
    ensures var r := Split(a + ([sep] + t), sep);
      var q := Split(t, sep);
      |r| > |q| && r[|r| - |q|..] == q
    decreases |a|
  {
    var whole := a + ([sep] + t);
    if a == [] {
      assert whole == [sep] + t;
      assert whole[1..] == t;
    } else {
      assert whole[0] == a[0];
      assert whole[1..] == a[1..] + ([sep] + t);
      SplitSuffix(a[1..], t, sep);
    }
  }

  /** The handler of the sign-in router, over the process-wide cache.
      `children` is the listing of the customer folder and `emailsOf` the user
      list of each customer folder. */
  method Enrich(cache: AccessCache, options: set<AuthOption>, email: string, env: Env,
                children: seq<Child>, emailsOf: string -> Option<seq<string>>)
    returns (claims: seq<Claim>)
    requires cache.Valid()
    modifies cache
    ensures cache.Valid()
    ensures var configured := Truthy(EnvGet(env, "CUSTOMER_FOLDER_ID"));
      && cache.entries == (if CustomerFolders in options && configured
                           then MergeAll(old(cache.entries), CustomerIds(children), emailsOf)
                           else old(cache.entries))
      && claims == Claims(options, email, env,
                          if configured then Some(Lookup(old(cache.entries), cache.entries, email)) else None,
                          if configured then Some(CustomerIds(children)) else None)
  {
    var folder := EnvGet(env, "CUSTOMER_FOLDER_ID");
    var associated: Option<seq<string>> := None;
    if CustomerFolders in options {
      var found := cache.FoldersByEmail(email, folder, children, emailsOf);
      if found.Ok? {
        associated := Some(found.value);
      }
    } else if Truthy(folder) {
      associated := Some(Lookup(cache.entries, cache.entries, email));
    }
    var allCustomers := if Truthy(folder) then Some(CustomerIds(children)) else None;
    claims := Claims(options, email, env, associated, allCustomers);
  }
}
