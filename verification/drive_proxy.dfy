/** The drive proxy's routes: which requests against an approved drive are
    forwarded to Microsoft Graph, at item level (by folder ancestry) and at drive
    level (by configuration flags). */
module DriveProxy {
  import opened Wrappers
  import opened Errors
  import opened Ancestry
  import opened ProxyUtils
  import opened DriveConfig
  import opened Middleware
  import opened ProxyRouter

  datatype Method = GET | PUT | POST | DELETE | PATCH | HEAD | OPTIONS

  /** The four methods the router registers. */
  predicate Routed(m: Method) {
    m == GET || m == PUT || m == POST || m == DELETE
  }

  predicate Writes(m: Method) {
    m == PUT || m == POST || m == DELETE
  }

  // The item routes (`/items/:itemId` with or without a trailing wildcard), or
  // the drive routes (the drive root with or without a trailing wildcard).
  datatype Target = Item(itemId: string) | DriveRoot

  /** The request's fate: forwarded to the given Graph path, rejected by a thrown
      error, or not matched by any route. */
  datatype Response = Forwarded(path: string) | Failed(error: Thrown) | NoRoute

  const FolderReadDenied := "You do not have permission to access this folder"
  const FolderWriteDenied := "You do not have permission to access & edit this folder"
  const DriveReadDenied := "You do not have permission to access this drive"
  const DriveWriteDenied := "You do not have permission to access & edit this drive"

  /** Every item lookup the proxy makes walks without a depth bound. */
  predicate ItemWalkEnds(R: Remote, target: Target) {
    target.Item? ==> Ends(R, StripColon(target.itemId))
  }

  /** Turns the answer of an unbounded `isInFolder` into the handler's verdict: a
      failed lookup propagates as a plain error, a negative answer is refused. */
  function Gate(answer: Result<bool, WalkError>, denied: string): (r: Result<(), Thrown>)
    ensures r.Ok? <==> answer == Ok(true)
    ensures answer == Ok(false) ==> r == Err(Api(ApiError(NotAuthorised, denied)))
    ensures answer.Err? ==> r == Err(Generic(NoAccessMessage))
  {
    match answer
    case Err(_) => Err(Generic(NoAccessMessage))
    case Ok(true) => Ok(())
    case Ok(false) => Err(Api(ApiError(NotAuthorised, denied)))
  }

  /** The item-level check of `handlerItemRequest`: reads need the item inside a
      readable folder, writes inside a writable folder. */
  function AuthorizeItem(R: Remote, access: ItemAccess, m: Method, itemId: string): (r: Result<(), Thrown>)
    requires Ends(R, StripColon(itemId))
    ensures m == GET ==> (r.Ok? <==> Search(R, access.read, itemId, Unbounded, 0) == Ok(true))
    ensures Writes(m) ==> (r.Ok? <==> Search(R, access.write, itemId, Unbounded, 0) == Ok(true))
  {
    if m == GET then Gate(Search(R, access.read, itemId, Unbounded, 0), FolderReadDenied)
    else if Writes(m) then Gate(Search(R, access.write, itemId, Unbounded, 0), FolderWriteDenied)
    else Ok(())
  }

  /** The drive-level check of `handleDriveRequest`: the configuration flags alone. */
  function AuthorizeDrive(config: DriveConfiguration, m: Method): (r: Result<(), Thrown>)
    ensures m == GET ==> (r.Ok? <==> config.read)
    ensures Writes(m) ==> (r.Ok? <==> config.write)
    ensures r.Err? ==> r.error.Api? && r.error.api.kind == NotAuthorised
  {
    if m == GET && !config.read then Err(Api(ApiError(NotAuthorised, DriveReadDenied)))
    else if Writes(m) && !config.write then Err(Api(ApiError(NotAuthorised, DriveWriteDenied)))
    else Ok(())
  }

  /** One request through the router: the approved-drive hook, then the route's
      handler, which forwards to `preparePath(request, prefix)`. `userAccess` is
      what `getUserAccessConfiguration` yields, `None` when the router has none. */
  function Handle(R: Remote, config: DriveConfiguration, userAccess: Option<ItemAccess>,
                  driveId: Option<string>, m: Method, target: Target,
                  url: Option<string>, prefix: Option<string>): (r: Response)
    requires ItemWalkEnds(R, target)
    ensures !Routed(m) <==> r == NoRoute
    ensures r.Forwarded? ==> driveId.Some? && driveId.value in config.drives
    ensures r.Forwarded? ==> r.path == PreparePath(url, prefix)
    ensures Routed(m) && VerifyDriveAccess(Some(config.drives), driveId).Err? ==>
              r == Failed(VerifyDriveAccess(Some(config.drives), driveId).error)
    ensures Routed(m) && target.Item? && VerifyDriveAccess(Some(config.drives), driveId).Ok? ==>
              (r.Forwarded? <==> AuthorizeItem(R, userAccess.GetOr(EmptyAccess), m, target.itemId).Ok?)
    ensures Routed(m) && target.DriveRoot? && VerifyDriveAccess(Some(config.drives), driveId).Ok? ==>
              (r.Forwarded? <==> AuthorizeDrive(config, m).Ok?)
  {
    var hook := VerifyDriveAccess(Some(config.drives), driveId);
    if !Routed(m) then NoRoute
    else if hook.Err? then Failed(hook.error)
    else
      var verdict :=
        if target.Item? then AuthorizeItem(R, userAccess.GetOr(EmptyAccess), m, target.itemId)
        else AuthorizeDrive(config, m);
      if verdict.Err? then Failed(verdict.error)
      else Forwarded(PreparePath(url, prefix))
  }

  /** Without an access-configuration provider no item request is forwarded. */
  lemma NoProviderNoItems(R: Remote, config: DriveConfiguration, driveId: Option<string>,
                          m: Method, itemId: string, url: Option<string>, prefix: Option<string>)
    requires Ends(R, StripColon(itemId))
    ensures !Handle(R, config, None, driveId, m, Item(itemId), url, prefix).Forwarded?
  {
    NoFolders(R, itemId, Unbounded, 0);
  }

  /** A write is decided by the writable folders alone: the readable ones are not
      consulted. */
  lemma WritesIgnoreReadList(R: Remote, config: DriveConfiguration, read1: seq<string>, read2: seq<string>,
                             write: seq<string>, driveId: Option<string>, m: Method, itemId: string,
                             url: Option<string>, prefix: Option<string>)
    requires Ends(R, StripColon(itemId)) && Writes(m)
    ensures Handle(R, config, Some(ItemAccess(read1, write)), driveId, m, Item(itemId), url, prefix)
         == Handle(R, config, Some(ItemAccess(read2, write)), driveId, m, Item(itemId), url, prefix)
  {
  }

  /** Drive-level requests never look at the folder tree, so any drive state
      gives the same answer. */
  lemma DriveRequestsIgnoreTree(R1: Remote, R2: Remote, config: DriveConfiguration, access: Option<ItemAccess>,
                                driveId: Option<string>, m: Method, url: Option<string>, prefix: Option<string>)
    ensures Handle(R1, config, access, driveId, m, DriveRoot, url, prefix)
         == Handle(R2, config, access, driveId, m, DriveRoot, url, prefix)
  {
  }
}
