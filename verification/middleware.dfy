/** The proxy's request hooks: the approved-drive gate and the Graph version
    parameter. */
module Middleware {
  import opened Wrappers
  import opened Errors

  const DriveNotApproved := "You are requesting a drive that is not approved"
  const NoVersion := "No version header provided"

  /** `verifyDriveAccess(configuration)` applied to a request whose `driveId`
      route parameter is `driveId` (`None` when the parameter is absent, which
      the schema rejects). `drives` is `None` when the configuration has none. */
  function VerifyDriveAccess(drives: Option<seq<string>>, driveId: Option<string>): (r: Result<(), Thrown>)
    ensures driveId.None? ==> r == Err(Validation)
    ensures driveId.Some? ==>
      (r.Ok? <==> drives.Some? && driveId.value in drives.value)
    ensures r.Err? && driveId.Some? ==> r.error == Api(ApiError(NotAuthorised, DriveNotApproved))
  {
    if driveId.None? then Err(Validation)
    else if drives.None? || driveId.value !in drives.value then
      Err(Api(ApiError(NotAuthorised, DriveNotApproved)))
    else Ok(())
  }

  /** The part of a request the hooks read and write. */
  class Request {
    const params: map<string, string>
    var version: Option<string>

    constructor (params: map<string, string>)
      ensures this.params == params && version.None?
    {
      this.params := params;
      version := None;
    }

    /** `processGraphVersion`: copy a non-empty `version` route parameter onto
        the request; an empty one is a bad request, a missing one a schema
        failure. */
    method ProcessGraphVersion() returns (r: Result<(), Thrown>)
      modifies this
      ensures "version" !in params ==> r == Err(Validation) && version == old(version)
      ensures "version" in params && params["version"] == "" ==>
        r == Err(Api(ApiError(BadRequest, NoVersion))) && version == old(version)
      ensures "version" in params && params["version"] != "" ==>
        r.Ok? && version == Some(params["version"])
    {
      if "version" !in params {
        return Err(Validation);
      }
      var v := params["version"];
      if v == "" {
        return Err(Api(ApiError(BadRequest, NoVersion)));
      }
      version := Some(v);
      return Ok(());
    }
  }
}
