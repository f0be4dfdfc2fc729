/** The webhook endpoint: change notifications from Graph are turned into delta
    queries against the drive, the changes are filtered and classified, and a
    handler is called per change. A single slot keeps one notification in
    processing at a time. */
module Webhook {
  import opened Wrappers
  import opened Text
  import opened Seqs
  import opened Errors
  import opened Registrations

  /** The events handed to the handler. */
  datatype Event = FileCreated | FileUpdated | FileDeleted | FolderCreated | FolderUpdated | FolderDeleted

  /** The facets of a changed drive item the code reads; `created` is the
      creation time, when present. */
  datatype DriveItem = DriveItem(
    id: Option<string>,
    name: Option<string>,
    root: bool,
    deleted: bool,
    file: bool,
    folder: bool,
    created: Option<int>)

  /** A link in a delta response, with the `token` query parameter of its url. */
  datatype Link = Link(url: string, token: Option<string>)

  /** One delta response: its changes and its optional delta and next links. */
  datatype DeltaPage = DeltaPage(value: seq<DriveItem>, deltaLink: Option<Link>, nextLink: Option<Link>)

  /** The responses to one chain of delta requests: every page but the last
      points to the next one. */
  predicate WellLinked(pages: seq<DeltaPage>) {
    |pages| >= 1 &&
    forall k :: 0 <= k < |pages| ==> (pages[k].nextLink.Some? <==> k < |pages| - 1)
  }

  /** Every next link along the chain carries a token. */
  predicate TokensPresent(pages: seq<DeltaPage>) {
    forall k :: 0 <= k < |pages| - 1 && pages[k].nextLink.Some? ==> Truthy(pages[k].nextLink.value.token)
  }

  /** The changes of all pages, in page order. */
  function AllItems(pages: seq<DeltaPage>): seq<DriveItem>
    decreases |pages|
  {
    if pages == [] then [] else pages[0].value + AllItems(pages[1..])
  }

  /** The registration file's id, read when the module loads: an unset or
      empty `WEBHOOK_REGISTRATION_FILE_ID` stops the module. */
  function RegistrationFileId(env: Env): (r: Result<string, Thrown>)
    ensures r.Ok? <==> Truthy(EnvGet(env, "WEBHOOK_REGISTRATION_FILE_ID"))
    ensures r.Ok? ==> r.value != "" && EnvGet(env, "WEBHOOK_REGISTRATION_FILE_ID") == Some(r.value)
    ensures r.Err? ==> r.error == Generic("WEBHOOK_REGISTRATION_FILE_ID not set")
  {
    var id := EnvGet(env, "WEBHOOK_REGISTRATION_FILE_ID");
    if Truthy(id) then Ok(id.value) else Err(Generic("WEBHOOK_REGISTRATION_FILE_ID not set"))
  }

  /** `getChanges`: follow next links, concatenating changes; the delta link of
      the last page is the one returned. */
  function GetChanges(pages: seq<DeltaPage>): (r: Result<(seq<DriveItem>, Link), Thrown>)
    requires WellLinked(pages)
    ensures r.Ok? <==> TokensPresent(pages) && pages[|pages| - 1].deltaLink.Some?
    ensures r.Ok? ==> r.value == (AllItems(pages), pages[|pages| - 1].deltaLink.value)
    decreases |pages|
  {
    var page := pages[0];
    if page.nextLink.Some? then
      var next := page.nextLink.value;
      if !Truthy(next.token) then Err(Generic("No token in nextLink " + next.url))
      else
        assert WellLinked(pages[1..]) by {
          forall k | 0 <= k < |pages[1..]|
            ensures pages[1..][k].nextLink.Some? <==> k < |pages[1..]| - 1
          {
            assert pages[1..][k] == pages[k + 1];
          }
        }
        match GetChanges(pages[1..])
        case Err(e) =>
          assert !TokensPresent(pages[1..]) || pages[|pages| - 1].deltaLink.None?;
          Err(e)
        case Ok((more, link)) => Ok((page.value + more, link))
    else if page.deltaLink.None? then Err(Generic("No deltaLink in delta response. Possibly too many changes."))
    else
      assert pages[1..] == [];
      assert AllItems(pages) == page.value + [] == page.value;
      Ok((page.value, page.deltaLink.value))
  }

  /** Delta links on pages before the last are ignored. */
  lemma {:induction false} EarlierDeltaLinksIgnored(pages: seq<DeltaPage>, k: nat, link: Option<Link>)
    requires WellLinked(pages) && k < |pages| - 1
    ensures WellLinked(pages[k := pages[k].(deltaLink := link)])
    ensures GetChanges(pages[k := pages[k].(deltaLink := link)]) == GetChanges(pages)
    decreases |pages|
  {
    var changed := pages[k := pages[k].(deltaLink := link)];
    assert WellLinked(changed);
    assert WellLinked(pages[1..]) by {
      forall j | 0 <= j < |pages[1..]|
        ensures pages[1..][j].nextLink.Some? <==> j < |pages[1..]| - 1
      {
        assert pages[1..][j] == pages[j + 1];
      }
    }
    if k == 0 {
      assert changed[1..] == pages[1..];
    } else {
      EarlierDeltaLinksIgnored(pages[1..], k - 1, link);
      assert changed[1..] == pages[1..][k - 1 := pages[1..][k - 1].(deltaLink := link)];
    }
  }

  lemma {:induction false} AllItemsIgnoresLinks(a: seq<DeltaPage>, b: seq<DeltaPage>)
    requires |a| == |b| && forall k :: 0 <= k < |a| ==> a[k].value == b[k].value
    ensures AllItems(a) == AllItems(b)
    decreases |a|
  {
    if a != [] {
      AllItemsIgnoresLinks(a[1..], b[1..]);
    }
  }

  const SystemConfiguration := "System configuration (readonly)"

  /** A change the endpoint itself causes or that concerns the drive root: the
      root item, the system configuration item, or the registration file. */
  predicate IsOperational(fileId: string, change: DriveItem) {
    change.root || change.name == Some(SystemConfiguration) || change.id == Some(fileId)
  }

  predicate KeepChange(fileId: string, change: DriveItem) {
    !IsOperational(fileId, change)
  }

  /** `filterOperationalChanges`: drop exactly the operational changes, keeping
      the order of the rest. */
  function FilterOperationalChanges(fileId: string, changes: seq<DriveItem>): (r: seq<DriveItem>)
    ensures forall k :: 0 <= k < |r| ==> !IsOperational(fileId, r[k]) && r[k] in changes
    ensures forall k :: 0 <= k < |changes| && !IsOperational(fileId, changes[k]) ==> changes[k] in r
  {
    Filter((c: DriveItem) => KeepChange(fileId, c), changes)
  }

  /** Filtering twice filters no more than once. */
  lemma FilterIdempotent(fileId: string, changes: seq<DriveItem>)
    ensures FilterOperationalChanges(fileId, FilterOperationalChanges(fileId, changes))
         == FilterOperationalChanges(fileId, changes)
  {
    var once := FilterOperationalChanges(fileId, changes);
    FilterKeepsAll((c: DriveItem) => KeepChange(fileId, c), once);
  }

  /** Changes arriving over several pages are filtered page by page. */
  lemma FilterAcrossPages(fileId: string, a: seq<DriveItem>, b: seq<DriveItem>)
    ensures FilterOperationalChanges(fileId, a + b)
         == FilterOperationalChanges(fileId, a) + FilterOperationalChanges(fileId, b)
  {
    FilterConcat((c: DriveItem) => KeepChange(fileId, c), a, b);
  }

  // The match of `/\/drives\/([\S]+)\/root/` against a resource path.

  /** The end of the run of non-whitespace characters starting at `q`. */
  function RunEnd(s: string, q: nat): (r: nat)
    requires q <= |s|
    ensures q <= r <= |s|
    ensures forall k :: q <= k < r ==> !IsWhitespace(s[k])
    ensures r < |s| ==> IsWhitespace(s[r])
    decreases |s| - q
  {
    if q == |s| || IsWhitespace(s[q]) then q else RunEnd(s, q + 1)
  }

  predicate RootAt(s: string, e: nat) {
    e + 5 <= |s| && s[e..e + 5] == "/root"
  }

  /** The last position in `lo..hi` where `/root` starts. */
  function LastRoot(s: string, lo: nat, hi: int): (r: Option<nat>)
    ensures r.Some? ==> lo <= r.value <= hi && RootAt(s, r.value)
    ensures r.Some? ==> forall e :: r.value < e <= hi ==> !RootAt(s, e)
    ensures r.None? ==> forall e :: lo <= e <= hi ==> !RootAt(s, e)
    decreases hi - lo
  {
    if hi < lo then None
    else if RootAt(s, hi) then Some(hi)
    else LastRoot(s, lo, hi - 1)
  }

  /** The capture group of a match starting at `p`: after `/drives/`, the longest
      non-empty run without whitespace that is followed by `/root`. */
  function MatchAt(s: string, p: nat): (r: Option<string>)
    requires p <= |s|
    ensures r.Some? ==> r.value != [] && forall k :: 0 <= k < |r.value| ==> !IsWhitespace(r.value[k])
  {
    if !(p + 8 <= |s| && s[p..p + 8] == "/drives/") then None
    else
      var q := p + 8;
      match LastRoot(s, q + 1, RunEnd(s, q))
      case None => None
      case Some(e) => Some(s[q..e])
  }

  /** The leftmost match at or after `p`. */
  function FirstMatch(s: string, p: nat): Option<string>
    requires p <= |s|
    decreases |s| - p
  {
    if MatchAt(s, p).Some? then MatchAt(s, p)
    else if p == |s| then None
    else FirstMatch(s, p + 1)
  }

  /** `resource.match(...)[1]`: the drive id named by a resource path. */
  function ParseResource(resource: string): Option<string> {
    FirstMatch(resource, 0)
  }

  /** The resource the heartbeat registers, `/drives/<id>/root`, gives back the
      drive id, for any id without whitespace. */
  lemma ParseResourceOfRoot(driveId: string)
    requires driveId != [] && forall k :: 0 <= k < |driveId| ==> !IsWhitespace(driveId[k])
    ensures ParseResource("/drives/" + driveId + "/root") == Some(driveId)
  {
    var s := "/drives/" + driveId + "/root";
    assert s[0..8] == "/drives/";
    forall k | 8 <= k < |s|
      ensures !IsWhitespace(s[k])
    {
      if k < 8 + |driveId| {
        assert s[k] == driveId[k - 8];
      }
    }
    assert RunEnd(s, 8) == |s|;
    var e := |s| - 5;
    assert s[e..e + 5] == "/root";
    assert RootAt(s, e);
    var found := LastRoot(s, 9, |s|);
    assert found == Some(e);
    assert s[8..e] == driveId;
  }

  /** `Event` for one change: deleted items by their file facet; otherwise new
      when created strictly after the last check, folders before files. A
      change without a creation time is an error; one that is neither file nor
      folder gets no event. */
  function Classify(item: DriveItem, lastChecked: int): (r: Result<Option<Event>, Thrown>)
    ensures item.deleted ==> r == Ok(Some(if item.file then FileDeleted else FolderDeleted))
    ensures !item.deleted ==> (r.Err? <==> item.created.None?)
    ensures r.Ok? && r.value.Some? && r.value.value in {FolderCreated, FolderUpdated} ==> !item.deleted && item.folder
    ensures r.Ok? && r.value.Some? && r.value.value in {FileCreated, FileUpdated} ==> !item.deleted && item.file && !item.folder
    ensures r.Ok? && r.value.Some? && r.value.value in {FileCreated, FolderCreated} ==> item.created.value > lastChecked
    ensures !item.deleted && item.created.Some? && (item.file || item.folder) ==> r.Ok? && r.value.Some?
  {
    if item.deleted then Ok(Some(if item.file then FileDeleted else FolderDeleted))
    else if item.created.None? then Err(Generic("Item has no createdDateTime"))
    else
      var justCreated := item.created.value > lastChecked;
      if item.folder then Ok(Some(if justCreated then FolderCreated else FolderUpdated))
      else if item.file then Ok(Some(if justCreated then FileCreated else FileUpdated))
      else Ok(None)
  }

  datatype HandlerCall = HandlerCall(event: Event, item: DriveItem)

  /** The handler calls `items.map(...)` makes: every change that classifies
      gets its call, whether or not another change fails. */
  function Dispatch(items: seq<DriveItem>, lastChecked: int): (r: seq<HandlerCall>)
    ensures |r| <= |items|
    ensures forall k :: 0 <= k < |r| ==>
              r[k].item in items && Classify(r[k].item, lastChecked) == Ok(Some(r[k].event))
    ensures forall k :: 0 <= k < |items| && Classify(items[k], lastChecked).Ok? &&
                        Classify(items[k], lastChecked).value.Some? ==>
              HandlerCall(Classify(items[k], lastChecked).value.value, items[k]) in r
    decreases |items|
  {
    if items == [] then []
    else
      var rest := Dispatch(items[1..], lastChecked);
      assert forall k :: 1 <= k < |items| ==> items[k] == items[1..][k - 1];
      match Classify(items[0], lastChecked)
      case Ok(Some(e)) => [HandlerCall(e, items[0])] + rest
      case _ => rest
  }

  /** Whether `receiveAndBookmarkDelta` gets through: the resource names a
      drive, it has a registration, the delta chain can be followed, and a new
      token is at hand whenever changes remain to be bookmarked. */
  predicate Receivable(regs: seq<Registration>, resource: string, pages: seq<DeltaPage>, fileId: string)
    requires WellLinked(pages)
  {
    && ParseResource(resource).Some?
    && Get(regs, resource).Some?
    && GetChanges(pages).Ok?
    && (FilterOperationalChanges(fileId, GetChanges(pages).value.0) == [] ||
        Truthy(GetChanges(pages).value.1.token))
  }

  /** `receiveAndBookmarkDelta` at time `now`: read the drive id from the
      resource, look up its registration, fetch the changes (`pages` are the
      delta responses), drop operational ones and, when any remain, store the
      new delta token. Returns the changes and the previous check time (or
      `now` for a registration never checked). */
  method ReceiveAndBookmarkDelta(store: RegistrationFile, resource: string, pages: seq<DeltaPage>,
                                 fileId: string, now: int)
    returns (r: Result<(seq<DriveItem>, int), Thrown>)
    requires WellLinked(pages)
    modifies store
    ensures ParseResource(resource).None? ==>
      r == Err(Generic("Invalid resource " + resource)) && store.registrations == old(store.registrations)
    ensures ParseResource(resource).Some? && Get(old(store.registrations), resource).None? ==>
      r == Err(Generic("No registration for " + resource)) && store.registrations == old(store.registrations)
    ensures r.Ok? <==> Receivable(old(store.registrations), resource, pages, fileId)
    ensures r.Err? ==> store.registrations == old(store.registrations)
    ensures r.Ok? ==>
      var reg := Get(old(store.registrations), resource).value;
      && ParseResource(resource).Some?
      && GetChanges(pages).Ok?
      && r.value.0 == FilterOperationalChanges(fileId, GetChanges(pages).value.0)
      && r.value.1 == reg.lastChecked.GetOr(now)
      && (r.value.0 == [] ==> store.registrations == old(store.registrations))
      && (r.value.0 != [] ==>
            Truthy(GetChanges(pages).value.1.token) &&
            store.registrations == Update(old(store.registrations), resource,
                                          GetChanges(pages).value.1.token.value, now).value.0)
    ensures store.checkoutUser == old(store.checkoutUser)
  {
    var driveId := ParseResource(resource);
    if driveId.None? {
      return Err(Generic("Invalid resource " + resource));
    }
    var registration := Get(store.registrations, resource);
    if registration.None? {
      return Err(Generic("No registration for " + resource));
    }
    var lastChecked := registration.value.lastChecked.GetOr(now);
    var delta := GetChanges(pages);
    if delta.Err? {
      return Err(delta.error);
    }
    var (changes, deltaLink) := delta.value;
    var filtered := FilterOperationalChanges(fileId, changes);
    if |filtered| > 0 {
      if !Truthy(deltaLink.token) {
        return Err(Generic("No token in deltaLink " + deltaLink.url));
      }
      var _ := store.UpdateRegistration(resource, deltaLink.token.value, now);
    }
    return Ok((filtered, lastChecked));
  }

  /** A notification's `resource`. */
  datatype Notification = Notification(resource: string)

  /** `processWebhook`: only the first notification is looked at, and every
      failure, an empty notification list included, ends in no handler call
      and no error. */
  method ProcessWebhook(store: RegistrationFile, notifications: seq<Notification>, pages: seq<DeltaPage>,
                        fileId: string, now: int)
    returns (calls: seq<HandlerCall>)
    requires WellLinked(pages)
    modifies store
    ensures notifications == [] ==> calls == [] && store.registrations == old(store.registrations)
    ensures notifications != [] && ParseResource(notifications[0].resource).None? ==> calls == []
    ensures notifications != [] && Receivable(old(store.registrations), notifications[0].resource, pages, fileId) ==>
              calls == Dispatch(FilterOperationalChanges(fileId, GetChanges(pages).value.0),
                                Get(old(store.registrations), notifications[0].resource).value.lastChecked.GetOr(now))
    ensures !(notifications != [] && Receivable(old(store.registrations), notifications[0].resource, pages, fileId)) ==>
              calls == [] && store.registrations == old(store.registrations)
    ensures forall k :: 0 <= k < |calls| ==>
              calls[k].item in AllItems(pages) && !IsOperational(fileId, calls[k].item)
    ensures store.checkoutUser == old(store.checkoutUser)
  {
    if notifications == [] {
      return [];
    }
    var received := ReceiveAndBookmarkDelta(store, notifications[0].resource, pages, fileId, now);
    if received.Err? {
      return [];
    }
    var (items, lastChecked) := received.value;
    calls := Dispatch(items, lastChecked);
  }

  /** The coalescer's slot: no work yet, work in progress, or work finished. */
  datatype Slot = Empty | Pending | Settled

  /** The endpoint's answer to a POST. */
  datatype WebhookReply = Echo(token: string) | Accepted | Rejected(error: Thrown)

  /** The webhook endpoint with its single slot. */
  class WebhookEndpoint {
    var slot: Slot

    constructor ()
      ensures slot == Empty
    {
      slot := Empty;
    }

    /** One POST, with the status of the pending work awaited: a validation
        request is answered with its token; while work is pending the
        notification is acknowledged and dropped; otherwise the body
        must parse (`body` is `None` when it does not) and new work fills the
        slot. `started` says whether new work began. */
    method Receive(validationToken: Option<string>, body: Option<seq<Notification>>)
      returns (reply: WebhookReply, started: bool)
      modifies this
      ensures Truthy(validationToken) ==> reply == Echo(validationToken.value) && !started && slot == old(slot)
      ensures !Truthy(validationToken) && old(slot) == Pending ==> reply == Accepted && !started && slot == Pending
      ensures !Truthy(validationToken) && old(slot) != Pending && body.None? ==>
                reply == Rejected(Validation) && !started && slot == old(slot)
      ensures !Truthy(validationToken) && old(slot) != Pending && body.Some? ==>
                reply == Accepted && started && slot == Pending
      ensures started ==> old(slot) != Pending
    {
      if Truthy(validationToken) {
        return Echo(validationToken.value), false;
      }
      if slot == Pending {
        return Accepted, false;
      }
      if body.None? {
        return Rejected(Validation), false;
      }
      slot := Pending;
      return Accepted, true;
    }

    /** One POST as written: the status check does not await
        `promiseStatus`, which answers with a promise, so the comparison with
        the pending status never holds and pending work never holds back a
        notification. */
    method ReceiveAsWritten(validationToken: Option<string>, body: Option<seq<Notification>>)
      returns (reply: WebhookReply, started: bool)
      modifies this
      ensures Truthy(validationToken) ==> reply == Echo(validationToken.value) && !started && slot == old(slot)
      ensures !Truthy(validationToken) && body.None? ==>
                reply == Rejected(Validation) && !started && slot == old(slot)
      ensures !Truthy(validationToken) && body.Some? ==>
                reply == Accepted && started && slot == Pending
    {
      if Truthy(validationToken) {
        return Echo(validationToken.value), false;
      }
      if body.None? {
        return Rejected(Validation), false;
      }
      slot := Pending;
      return Accepted, true;
    }

    /** The work in the slot finishes; it never fails, since `processWebhook`
        catches everything. */
    method Settle()
      modifies this
      ensures old(slot) == Pending ==> slot == Settled
      ensures old(slot) != Pending ==> slot == old(slot)
    {
      if slot == Pending {
        slot := Settled;
      }
    }
  }

  /** As written, a second notification arriving while the first one's work is
      still pending starts work of its own. */
  method OverlappingPostsAsWritten(first: seq<Notification>, second: seq<Notification>)
    returns (startedFirst: bool, startedSecond: bool)
    ensures startedFirst && startedSecond
  {
    var endpoint := new WebhookEndpoint();
    var _, a := endpoint.ReceiveAsWritten(None, Some(first));
    var _, b := endpoint.ReceiveAsWritten(None, Some(second));
    startedFirst, startedSecond := a, b;
  }

  /** With the status awaited, the second notification is acknowledged and
      dropped while the first one's work is pending, and taken once it has
      settled. */
  method OverlappingPosts(first: seq<Notification>, second: seq<Notification>, third: seq<Notification>)
    returns (startedFirst: bool, startedSecond: bool, startedThird: bool)
    ensures startedFirst && !startedSecond && startedThird
  {
    var endpoint := new WebhookEndpoint();
    var _, a := endpoint.Receive(None, Some(first));
    var _, b := endpoint.Receive(None, Some(second));
    endpoint.Settle();
    var _, c := endpoint.Receive(None, Some(third));
    startedFirst, startedSecond, startedThird := a, b, c;
  }
}
