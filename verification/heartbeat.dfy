/** The webhook heartbeat job: it is meant to let one worker at a time check
    out the registration file, create or renew the drive's webhook subscription
    and check the file back in; a cancel message checks the file in on every
    configured drive. What the job does to the outside world is recorded as a
    trace of actions. */
module Heartbeat {
  import opened Wrappers
  import opened Text
  import opened Registrations
  import Webhook

  /** An observable step of the job. `Post` is a message to the parent thread,
      `Print` a line on the console, `Halt` the end of the process. */
  datatype Action =
    | Post(message: string)
    | Print(line: string)
    | Halt
    | CheckOut(driveId: string, fileId: string)
    | CheckIn(driveId: string, fileId: string)
    | Register(driveId: string, fileId: string, resource: string)
    | Failure(message: string)

  const Started := "WEBHOOK:heartbeat:started"
  const Retreated := "WEBHOOK:heartbeat:retreated"
  const Completed := "WEBHOOK:heartbeat:completed"
  const Cancelled := "WEBHOOK:heartbeat:cancelled"
  const NoFileId := "WEBHOOK_REGISTRATION_FILE_ID not set"

  /** `event(name)`: posted to the parent thread when there is one, printed
      otherwise. */
  function Event(underWorker: bool, name: string): (a: Action)
    ensures underWorker <==> a.Post?
    ensures a.Post? || a.Print?
  {
    if underWorker then Post("event/" + name) else Print("event/" + name)
  }

  /** `exit()`: a `done` message to the parent thread, or the end of the
      process. Only the latter stops the job. */
  function Exit(underWorker: bool): (a: Action)
    ensures a == Halt <==> !underWorker
  {
    if underWorker then Post("done") else Halt
  }

  /** The resource whose changes the job subscribes to. */
  function RootResource(driveId: string): string {
    "/drives/" + driveId + "/root"
  }

  /** The main body as written: the two `exit()` calls stop the job only when
      there is no parent thread. `checkedOut` is the answer of
      `hasFileBeenCheckedOut`, `aborted` the state of the abort signal, and
      `registered` the outcome of `createOrUpdateWebhookRegistration`. */
  function ScriptAsWritten(underWorker: bool, checkedOut: bool, aborted: bool, fileId: Option<string>,
                           driveId: string, registered: Result<Registration, string>): (t: seq<Action>)
    ensures t != [] && t[0] == Event(underWorker, Started)
  {
    var start := [Event(underWorker, Started)];
    if !Truthy(fileId) then start + [Failure(NoFileId)]
    else
      var retreat := if checkedOut then [Event(underWorker, Retreated), Exit(underWorker)] else [];
      if checkedOut && !underWorker then start + retreat
      else
        var leave := if aborted then [Exit(underWorker)] else [];
        if aborted && !underWorker then start + retreat + leave
        else start + retreat + leave + Work(underWorker, fileId.value, driveId, registered)
  }

  /** Check out, register, and on success check in and report completion. */
  function Work(underWorker: bool, fileId: string, driveId: string, registered: Result<Registration, string>)
    : (t: seq<Action>)
    ensures |t| >= 3 && t[0] == CheckOut(driveId, fileId) && t[1] == Register(driveId, fileId, RootResource(driveId))
    ensures registered.Err? ==> t[2] == Failure(registered.error) && |t| == 3
    ensures registered.Ok? ==> t[2] == CheckIn(driveId, fileId) && t[|t| - 1] == Exit(underWorker)
  {
    [CheckOut(driveId, fileId), Register(driveId, fileId, RootResource(driveId))] +
    match registered
    case Err(e) => [Failure(e)]
    case Ok(_) => [CheckIn(driveId, fileId), Event(underWorker, Completed), Exit(underWorker)]
  }

  /** The main body with the two `exit()` calls ending the job in every case,
      as the messages around them say. */
  function Script(underWorker: bool, checkedOut: bool, aborted: bool, fileId: Option<string>,
                  driveId: string, registered: Result<Registration, string>): (t: seq<Action>)
    ensures t != [] && t[0] == Event(underWorker, Started)
    ensures !Truthy(fileId) ==> t == [Event(underWorker, Started), Failure(NoFileId)]
    ensures Truthy(fileId) && checkedOut ==>
              t == [Event(underWorker, Started), Event(underWorker, Retreated), Exit(underWorker)]
    ensures Truthy(fileId) && !checkedOut && aborted ==> t == [Event(underWorker, Started), Exit(underWorker)]
    ensures Truthy(fileId) && !checkedOut && !aborted ==>
              t == [Event(underWorker, Started)] + Work(underWorker, fileId.value, driveId, registered)
  {
    var start := [Event(underWorker, Started)];
    if !Truthy(fileId) then start + [Failure(NoFileId)]
    else if checkedOut then start + [Event(underWorker, Retreated), Exit(underWorker)]
    else if aborted then start + [Exit(underWorker)]
    else start + Work(underWorker, fileId.value, driveId, registered)
  }

  /** As written, a worker that finds the file checked out by another process
      announces its retreat and then checks the file out all the same. */
  lemma RetreatDoesNotStopWorker(fileId: string, driveId: string, registered: Result<Registration, string>)
    requires fileId != ""
    ensures var t := ScriptAsWritten(true, true, false, Some(fileId), driveId, registered);
      t[1] == Event(true, Retreated) && t[3] == CheckOut(driveId, fileId)
  {
  }

  /** Once the job retreats or sees the abort signal, it neither checks out nor
      registers anything. */
  lemma ExitEndsTheJob(underWorker: bool, checkedOut: bool, aborted: bool, fileId: Option<string>,
                       driveId: string, registered: Result<Registration, string>)
    requires checkedOut || aborted
    ensures forall k :: 0 <= k < |Script(underWorker, checkedOut, aborted, fileId, driveId, registered)| ==>
              !Script(underWorker, checkedOut, aborted, fileId, driveId, registered)[k].CheckOut? &&
              !Script(underWorker, checkedOut, aborted, fileId, driveId, registered)[k].Register?
  {
  }

  /** Without a parent thread both versions agree: `process.exit` really ends
      the job. */
  lemma AgreeWithoutWorker(checkedOut: bool, aborted: bool, fileId: Option<string>,
                           driveId: string, registered: Result<Registration, string>)
    ensures ScriptAsWritten(false, checkedOut, aborted, fileId, driveId, registered)
         == Script(false, checkedOut, aborted, fileId, driveId, registered)
  {
  }

  /** The check-in steps of `cancel` for the drives `ds`, in order. */
  function CheckInAll(underWorker: bool, ds: seq<string>, fileId: string): (t: seq<Action>)
    ensures |t| == if underWorker then 2 * |ds| else |ds|
    decreases |ds|
  {
    if ds == [] then []
    else CheckInAll(underWorker, ds[..|ds| - 1], fileId) + CheckInStep(underWorker, ds[|ds| - 1], fileId)
  }

  /** One drive of `cancel`: a check-in attempt whose failure is swallowed,
      then `cancelled` to the parent thread when there is one. */
  function CheckInStep(underWorker: bool, driveId: string, fileId: string): seq<Action> {
    [CheckIn(driveId, fileId)] + if underWorker then [Post("cancelled")] else []
  }

  /** One more drive appends its check-in steps. */
  lemma CheckInNext(underWorker: bool, ds: seq<string>, i: nat, fileId: string)
    requires i < |ds|
    ensures CheckInAll(underWorker, ds[..i + 1], fileId) ==
            CheckInAll(underWorker, ds[..i], fileId) + CheckInStep(underWorker, ds[i], fileId)
  {
    assert ds[..i + 1][..i] == ds[..i];
  }

  /** Every configured drive gets its check-in, in the configured order. */
  lemma {:induction false} CheckInAllVisitsEveryDrive(underWorker: bool, ds: seq<string>, fileId: string, k: nat)
    requires k < |ds|
    ensures var w := if underWorker then 2 else 1;
      CheckInAll(underWorker, ds, fileId)[k * w] == CheckIn(ds[k], fileId)
    decreases |ds|
  {
    var w := if underWorker then 2 else 1;
    var front := ds[..|ds| - 1];
    if k < |ds| - 1 {
      CheckInAllVisitsEveryDrive(underWorker, front, fileId, k);
      assert front[k] == ds[k];
      assert k * w < |CheckInAll(underWorker, front, fileId)| by {
        assert k * w < (k + 1) * w <= |front| * w;
      }
    } else {
      assert |CheckInAll(underWorker, front, fileId)| == k * w;
    }
  }

  /** The job's state as the main body and the cancel handler share it. */
  class Job {
    const underWorker: bool
    var aborted: bool
    var trace: seq<Action>

    constructor (underWorker: bool)
      ensures this.underWorker == underWorker && !aborted && trace == []
    {
      this.underWorker := underWorker;
      aborted := false;
      trace := [];
    }

    /** The main body, for the first configured drive, against the
        registration file `store`; `created` is what Graph answers to a
        subscription request, `now` the time. `registered` is the outcome of
        the registration step when the job gets that far. */
    method Run(store: RegistrationFile, drives: seq<string>, fileId: Option<string>, now: int,
               created: Subscription)
      returns (registered: Option<Result<Registration, string>>)
      requires |drives| >= 1
      modifies this, store
      ensures var reached := Truthy(fileId) && !old(store.HasBeenCheckedOut()) && !old(aborted);
        && (registered.Some? <==> reached)
        && (!reached ==> store.registrations == old(store.registrations))
        && (reached ==> (registered.value.Err? <==>
              Get(old(store.registrations), RootResource(drives[0])).None? &&
              !(Truthy(created.clientState) && Truthy(created.id))))
      ensures var reached := Truthy(fileId) && !old(store.HasBeenCheckedOut()) && !old(aborted);
        var resource := RootResource(drives[0]);
        var existing := Get(old(store.registrations), resource);
        && (reached && existing.Some? ==>
              registered == Some(Ok(existing.value.(expirationDateTime := now + ThirtyDays))) &&
              store.registrations == Refresh(old(store.registrations), resource, now + ThirtyDays).value.0)
        && (reached && existing.None? && Truthy(created.clientState) && Truthy(created.id) ==>
              registered == Some(Ok(Registration(created.id.value, drives[0], resource, "latest",
                                                 created.clientState.value, now + ThirtyDays, None))) &&
              store.registrations == old(store.registrations) + [registered.value.value])
        && (reached && registered.value.Err? ==> store.registrations == old(store.registrations))
      ensures trace == old(trace) +
        Script(underWorker, old(store.HasBeenCheckedOut()), old(aborted), fileId, drives[0],
               registered.GetOr(Err("")))
      ensures aborted == old(aborted) && store.checkoutUser == old(store.checkoutUser)
    {
      var driveId := drives[0];
      var before := trace;
      var start := Event(underWorker, Started);
      if !Truthy(fileId) {
        trace := before + [start, Failure(NoFileId)];
        return None;
      }
      var checkedOut := store.HasBeenCheckedOut();
      if checkedOut {
        trace := before + [start, Event(underWorker, Retreated), Exit(underWorker)];
        return None;
      }
      if aborted {
        trace := before + [start, Exit(underWorker)];
        return None;
      }
      var resource := RootResource(driveId);
      var outcome := store.CreateOrUpdate(driveId, resource, now, created);
      registered := Some(outcome);
      trace := before + Script(underWorker, false, false, fileId, driveId, outcome);
    }

    /** `cancel`: raise the abort signal, announce it, then check the file in
        on every configured drive; a missing file id fails on the first drive. */
    method Cancel(drives: seq<string>, fileId: Option<string>)
      modifies this
      ensures aborted
      ensures drives != [] && !Truthy(fileId) ==>
                trace == old(trace) + [Event(underWorker, Cancelled), Failure(NoFileId)]
      ensures drives == [] || Truthy(fileId) ==>
                trace == old(trace) + [Event(underWorker, Cancelled)] + CheckInAll(underWorker, drives, fileId.GetOr(""))
    {
      aborted := true;
      var t := trace + [Event(underWorker, Cancelled)];
      var i := 0;
      assert drives[..0] == [];
      while i < |drives|
        invariant 0 <= i <= |drives|
        invariant i > 0 ==> Truthy(fileId)
        invariant t == old(trace) + [Event(underWorker, Cancelled)] + CheckInAll(underWorker, drives[..i], fileId.GetOr(""))
        invariant aborted
      {
        if !Truthy(fileId) {
          assert drives[..i] == [];
          trace := t + [Failure(NoFileId)];
          return;
        }
        CheckInNext(underWorker, drives, i, fileId.value);
        t := t + CheckInStep(underWorker, drives[i], fileId.value);
        i := i + 1;
      }
      assert drives[..|drives|] == drives;
      trace := t;
    }
  }

  /** The resource the job registers is the one the webhook endpoint reads the
      drive id back from. */
  lemma RegisteredResourceParses(driveId: string)
    requires driveId != [] && forall k :: 0 <= k < |driveId| ==> !IsWhitespace(driveId[k])
    ensures Webhook.ParseResource(RootResource(driveId)) == Some(driveId)
  {
    Webhook.ParseResourceOfRoot(driveId);
  }
}
