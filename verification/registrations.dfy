/** The webhook registration document: a JSON file in the drive holding one
    record per subscribed resource, and the operations that read and rewrite it,
    plus the file's checkout lock and the subscription request. Timestamps are
    integers (milliseconds). */
module Registrations {
  import opened Wrappers
  import opened Seqs
  import opened Text

  /** `OnedriveWebhookRegistration`. */
  datatype Registration = Registration(
    registrationId: string,
    driveId: string,
    resource: string,
    token: string,
    nonce: string,
    expirationDateTime: int,
    lastChecked: Option<int>)

  /** `registrations.findIndex(reg => reg.resource === resource)`, `None` for -1. */
  function FindIndex(regs: seq<Registration>, resource: string): (r: Option<nat>)
    ensures r.Some? ==> r.value < |regs| && regs[r.value].resource == resource
    ensures r.Some? ==> forall j :: 0 <= j < r.value ==> regs[j].resource != resource
    ensures r.None? <==> forall j :: 0 <= j < |regs| ==> regs[j].resource != resource
    decreases |regs|
  {
    if regs == [] then None
    else if regs[0].resource == resource then Some(0)
    else match FindIndex(regs[1..], resource)
      case None => None
      case Some(i) => Some(i + 1)
  }

  /** `getWebhookRegistration`: the first record for `resource`, if any. */
  function Get(regs: seq<Registration>, resource: string): (r: Option<Registration>)
    ensures r.Some? ==> r.value in regs && r.value.resource == resource
    ensures r.None? <==> forall j :: 0 <= j < |regs| ==> regs[j].resource != resource
  {
    match FindIndex(regs, resource)
    case None => None
    case Some(i) => Some(regs[i])
  }

  /** The immer `produce` step of `updateWebhookRegistration`: the first record
      for `resource` gets the new token and check time, and is returned. */
  function Update(regs: seq<Registration>, resource: string, token: string, lastChecked: int)
    : (r: Result<(seq<Registration>, Registration), string>)
    ensures r.Err? <==> Get(regs, resource).None?
    ensures r.Err? ==> r.error == "No registration found"
    ensures r.Ok? ==>
      var (updated, reg) := r.value;
      var i := FindIndex(regs, resource).value;
      && |updated| == |regs|
      && (forall j :: 0 <= j < |regs| && j != i ==> updated[j] == regs[j])
      && updated[i] == regs[i].(token := token, lastChecked := Some(lastChecked))
      && Get(updated, resource) == Some(reg)
  {
    match FindIndex(regs, resource)
    case None => Err("No registration found")
    case Some(i) =>
      var updated := regs[i := regs[i].(token := token, lastChecked := Some(lastChecked))];
      assert FindIndex(updated, resource) == Some(i) by {
        FindIndexAfterChange(regs, i, updated[i], resource);
      }
      Ok((updated, updated[i]))
  }

  /** The immer `produce` step of `refreshWebhookRegistration`: only the first
      matching record's expiry changes. */
  function Refresh(regs: seq<Registration>, resource: string, expiry: int)
    : (r: Result<(seq<Registration>, Registration), string>)
    ensures r.Err? <==> Get(regs, resource).None?
    ensures r.Err? ==> r.error == "No registration found"
    ensures r.Ok? ==>
      var (updated, reg) := r.value;
      var i := FindIndex(regs, resource).value;
      && |updated| == |regs|
      && (forall j :: 0 <= j < |regs| && j != i ==> updated[j] == regs[j])
      && updated[i] == regs[i].(expirationDateTime := expiry)
      && Get(updated, resource) == Some(reg)
  {
    match FindIndex(regs, resource)
    case None => Err("No registration found")
    case Some(i) =>
      var updated := regs[i := regs[i].(expirationDateTime := expiry)];
      assert FindIndex(updated, resource) == Some(i) by {
        FindIndexAfterChange(regs, i, updated[i], resource);
      }
      Ok((updated, updated[i]))
  }

  /** Rewriting the first match with a record for the same resource leaves the
      first match where it was. */
  lemma {:induction false} FindIndexAfterChange(regs: seq<Registration>, i: nat, x: Registration, resource: string)
    requires FindIndex(regs, resource) == Some(i)
    requires x.resource == resource
    ensures FindIndex(regs[i := x], resource) == Some(i)
    decreases |regs|
  {
    if i > 0 {
      assert regs[i := x][1..] == regs[1..][i - 1 := x];
      FindIndexAfterChange(regs[1..], i - 1, x, resource);
    }
  }

  predicate Keeps(resource: string, reg: Registration) {
    reg.resource != resource
  }

  /** The records `deleteWebhookRegistration` keeps: all whose resource differs. */
  function Without(regs: seq<Registration>, resource: string): (r: seq<Registration>)
    ensures Get(r, resource).None?
    ensures forall j :: 0 <= j < |regs| && regs[j].resource != resource ==> regs[j] in r
    ensures forall j :: 0 <= j < |r| ==> r[j] in regs
  {
    Filter((reg: Registration) => Keeps(resource, reg), regs)
  }

  /** Deleting a resource leaves the record of every other resource in place. */
  lemma {:induction false} GetAfterWithout(regs: seq<Registration>, resource: string, other: string)
    requires other != resource
    ensures Get(Without(regs, resource), other) == Get(regs, other)
    decreases |regs|
  {
    if regs != [] {
      var w := Without(regs, resource);
      var rest := Without(regs[1..], resource);
      GetAfterWithout(regs[1..], resource, other);
      GetFirst(regs, other);
      if Keeps(resource, regs[0]) {
        assert w == [regs[0]] + rest;
        GetFirst(w, other);
        assert w[1..] == rest;
      } else {
        assert w == rest;
      }
    }
  }

  /** The lookup checks the first record, then the rest. */
  lemma GetFirst(regs: seq<Registration>, resource: string)
    requires regs != []
    ensures Get(regs, resource) ==
            if regs[0].resource == resource then Some(regs[0]) else Get(regs[1..], resource)
  {
  }

  /** Milliseconds in the thirty days a subscription is renewed for. */
  const ThirtyDays := 30 * 24 * 60 * 60 * 1000

  /** The request `createSubscription` posts. */
  datatype SubscriptionRequest = SubscriptionRequest(
    changeType: string, notificationUrl: string, resource: string, expirationDateTime: int, clientState: string)

  /** Where Graph sends notifications. */
  datatype Server = Server(secure: bool, host: string, path: string)

  function NotificationUrl(server: Server): (r: string)
    ensures server.secure ==> |r| >= 8 && r[..8] == "https://" && r[8..] == server.host + server.path
    ensures !server.secure ==> |r| >= 7 && r[..7] == "http://" && r[7..] == server.host + server.path
  {
    (if server.secure then "https" else "http") + "://" + server.host + server.path
  }

  /** `createSubscription`: notifications of updates under `resource`, with a
      fresh `clientState` (`uuid` stands for `randomUUID()`). */
  function SubscriptionFor(resource: string, expiry: int, server: Server, uuid: string): SubscriptionRequest {
    SubscriptionRequest("updated", NotificationUrl(server), resource, expiry, uuid)
  }

  /** A template-literal interpolation of an environment variable: an unset one
      reads as `undefined`. */
  function EnvText(env: Env, name: string): string {
    if name in env then env[name] else "undefined"
  }

  /** The server `createOrUpdateWebhookRegistration` registers: HTTPS on the
      container app's host, path `/webhook`. */
  function WebhookServer(env: Env): Server {
    Server(true, EnvText(env, "CONTAINER_APP_NAME") + "." + EnvText(env, "CONTAINER_APP_ENV_DNS_SUFFIX"), "/webhook")
  }

  /** The subscriptions the heartbeat requests notify an HTTPS url ending in
      `/webhook`, on the container app's host (`undefined` standing in for an
      unset variable). */
  lemma WebhookSubscriptionUrl(env: Env, resource: string, expiry: int, uuid: string)
    ensures var req := SubscriptionFor(resource, expiry, WebhookServer(env), uuid);
      && req.changeType == "updated" && req.resource == resource && req.clientState == uuid
      && StartsWith(req.notificationUrl, "https://")
      && EndsWith(req.notificationUrl, "/webhook")
      && ("CONTAINER_APP_NAME" !in env ==> StartsWith(req.notificationUrl, "https://undefined."))
  {
    var host := WebhookServer(env).host;
    var url := "https://" + host + "/webhook";
    assert NotificationUrl(WebhookServer(env)) == url;
    assert url[|url| - 8..] == "/webhook";
    if "CONTAINER_APP_NAME" !in env {
      assert url[..18] == "https://undefined.";
    }
  }

  /** What Graph answers to a subscription request: the fields the code reads. */
  datatype Subscription = Subscription(id: Option<string>, clientState: Option<string>)

  /** The webhook registration file: its JSON content and its checkout lock
      (`CheckoutUserLookupId`, absent when nobody holds it). */
  class RegistrationFile {
    var registrations: seq<Registration>
    var checkoutUser: Option<int>

    constructor (registrations: seq<Registration>, checkoutUser: Option<int>)
      ensures this.registrations == registrations && this.checkoutUser == checkoutUser
    {
      this.registrations := registrations;
      this.checkoutUser := checkoutUser;
    }

    /** `hasFileBeenCheckedOut`: the lock id is truthy, so an id of 0 reads as
        not checked out. */
    function HasBeenCheckedOut(): (r: bool)
      reads this
      ensures r <==> checkoutUser.Some? && checkoutUser.value != 0
    {
      match checkoutUser
      case None => false
      case Some(u) => u != 0
    }

    /** `createWebhookRegistration`: push one record, without a check time, at
        the end of the document. */
    method Create(driveId: string, subscriptionId: string, nonce: string, resource: string,
                  expiry: int, token: string) returns (reg: Registration)
      modifies this
      ensures reg == Registration(subscriptionId, driveId, resource, token, nonce, expiry, None)
      ensures registrations == old(registrations) + [reg]
      ensures checkoutUser == old(checkoutUser)
    {
      reg := Registration(subscriptionId, driveId, resource, token, nonce, expiry, None);
      registrations := registrations + [reg];
    }

    /** `deleteWebhookRegistration`: drop every record for `resource`. */
    method Delete(resource: string)
      modifies this
      ensures registrations == Without(old(registrations), resource)
      ensures checkoutUser == old(checkoutUser)
    {
      registrations := Without(registrations, resource);
    }

    /** `updateWebhookRegistration`: write back the updated document and return
        the updated record; the document is untouched when nothing matches. */
    method UpdateRegistration(resource: string, token: string, lastChecked: int)
      returns (r: Result<Registration, string>)
      modifies this
      ensures var u := Update(old(registrations), resource, token, lastChecked);
        && (u.Err? ==> r == Err(u.error) && registrations == old(registrations))
        && (u.Ok? ==> r == Ok(u.value.1) && registrations == u.value.0)
      ensures checkoutUser == old(checkoutUser)
    {
      var u := Update(registrations, resource, token, lastChecked);
      if u.Err? {
        return Err(u.error);
      }
      registrations := u.value.0;
      return Ok(u.value.1);
    }

    /** `refreshWebhookRegistration`: write back the document with the first
        matching record's expiry changed. */
    method RefreshRegistration(resource: string, expiry: int) returns (r: Result<Registration, string>)
      modifies this
      ensures var u := Refresh(old(registrations), resource, expiry);
        && (u.Err? ==> r == Err(u.error) && registrations == old(registrations))
        && (u.Ok? ==> r == Ok(u.value.1) && registrations == u.value.0)
      ensures checkoutUser == old(checkoutUser)
    {
      var u := Refresh(registrations, resource, expiry);
      if u.Err? {
        return Err(u.error);
      }
      registrations := u.value.0;
      return Ok(u.value.1);
    }

    /** `createOrUpdateWebhookRegistration` at time `now`: an existing record is
        only renewed for thirty days; otherwise a subscription is requested
        (`created` is Graph's answer) and recorded with the token `latest`. */
    method CreateOrUpdate(driveId: string, resource: string, now: int, created: Subscription)
      returns (r: Result<Registration, string>)
      modifies this
      ensures Get(old(registrations), resource).Some? ==>
        r.Ok? && registrations == Refresh(old(registrations), resource, now + ThirtyDays).value.0 &&
        r.value == old(Get(registrations, resource)).value.(expirationDateTime := now + ThirtyDays)
      ensures Get(old(registrations), resource).None? && !Truthy(created.clientState) ==>
        r == Err("No client state returned from subscription creation") && registrations == old(registrations)
      ensures Get(old(registrations), resource).None? && Truthy(created.clientState) && !Truthy(created.id) ==>
        r == Err("No subscription id returned from subscription creation") && registrations == old(registrations)
      ensures Get(old(registrations), resource).None? && Truthy(created.clientState) && Truthy(created.id) ==>
        r == Ok(Registration(created.id.value, driveId, resource, "latest", created.clientState.value,
                             now + ThirtyDays, None)) &&
        registrations == old(registrations) + [r.value]
      ensures checkoutUser == old(checkoutUser)
    {
      var existing := Get(registrations, resource);
      if existing.Some? {
        r := RefreshRegistration(resource, now + ThirtyDays);
        return;
      }
      if !Truthy(created.clientState) {
        return Err("No client state returned from subscription creation");
      }
      if !Truthy(created.id) {
        return Err("No subscription id returned from subscription creation");
      }
      var reg := Create(driveId, created.id.value, created.clientState.value, resource, now + ThirtyDays, "latest");
      return Ok(reg);
    }
  }

  /** After an update the resource's record carries the new token and check
      time, and no other resource's record changes. */
  lemma GetAfterUpdate(regs: seq<Registration>, resource: string, other: string, token: string, at: int)
    requires Get(regs, resource).Some?
    ensures Get(Update(regs, resource, token, at).value.0, resource) ==
              Some(Get(regs, resource).value.(token := token, lastChecked := Some(at)))
    ensures other != resource ==> Get(Update(regs, resource, token, at).value.0, other) == Get(regs, other)
  {
    var i := FindIndex(regs, resource).value;
    var updated := Update(regs, resource, token, at).value.0;
    if other != resource {
      FindIndexOther(regs, i, updated[i], resource, other);
    }
  }

  /** Rewriting a record of one resource does not move the first record of
      another resource. */
  lemma {:induction false} FindIndexOther(regs: seq<Registration>, i: nat, x: Registration, resource: string, other: string)
    requires i < |regs| && regs[i].resource == resource && x.resource == resource && other != resource
    ensures FindIndex(regs[i := x], other) == FindIndex(regs, other)
    decreases |regs|
  {
    if i > 0 && regs[0].resource != other {
      assert regs[i := x][1..] == regs[1..][i - 1 := x];
      FindIndexOther(regs[1..], i - 1, x, resource, other);
    } else if i == 0 {
      assert regs[i := x][1..] == regs[1..];
    }
  }
}
