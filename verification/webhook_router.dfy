/** The webhook router's handler: which sidecar files a newly created folder
    gets, decided by where the folder sits under the customer folder or the
    shared-resources folder. */
module WebhookRouter {
  import opened Wrappers
  import opened Errors
  import opened Ancestry
  import Webhook

  /** The two folder ids the router is configured with. */
  datatype Folders = Folders(shared: string, customer: string)

  /** `register`: both folder ids must be set, the shared one is checked first. */
  function Configure(env: Env): (r: Result<Folders, Thrown>)
    ensures r.Ok? <==> Truthy(EnvGet(env, "SHARED_RESOURCE_FOLDER_ID")) && Truthy(EnvGet(env, "CUSTOMER_FOLDER_ID"))
    ensures r.Ok? ==> r.value == Folders(env["SHARED_RESOURCE_FOLDER_ID"], env["CUSTOMER_FOLDER_ID"])
    ensures !Truthy(EnvGet(env, "SHARED_RESOURCE_FOLDER_ID")) ==>
              r == Err(Generic("SHARED_RESOURCE_FOLDER_ID is missing"))
  {
    var shared := EnvGet(env, "SHARED_RESOURCE_FOLDER_ID");
    var customer := EnvGet(env, "CUSTOMER_FOLDER_ID");
    if !Truthy(shared) then Err(Generic("SHARED_RESOURCE_FOLDER_ID is missing"))
    else if !Truthy(customer) then Err(Generic("CUSTOMER_FOLDER_ID is missing"))
    else Ok(Folders(shared.value, customer.value))
  }

  /** The sidecar files the handler creates. */
  datatype Sidecars = NoSidecar | CustomerAndUsers | SectionSidecar | CategorySidecar

  /** The walks the handler may make from `id` end, which the unbounded ones need. */
  predicate HandlerWalksEnd(R: Remote, item: Webhook.DriveItem) {
    item.id.Some? ==> Ends(R, StripColon(item.id.value))
  }

  /** The ancestry question `isInFolder(id, folder, {depth})` with an
      unreachable item turned into the thrown error. */
  function InFolder(R: Remote, id: string, folder: string, depth: Depth): (r: Result<bool, Thrown>)
    requires WalkEnds(R, id, depth)
    ensures r.Ok? <==> Search(R, [folder], id, depth, 0).Ok?
    ensures r.Ok? ==> r.value == Search(R, [folder], id, depth, 0).value
    ensures r.Err? ==> r.error == Generic(NoAccessMessage)
  {
    match Search(R, [folder], id, depth, 0)
    case Ok(b) => Ok(b)
    case Err(_) => Err(Generic(NoAccessMessage))
  }

  /** The handler for one event on one changed item, against the drive `R`. */
  function Route(R: Remote, folders: Folders, event: Webhook.Event, item: Webhook.DriveItem)
    : (r: Result<Sidecars, Thrown>)
    requires HandlerWalksEnd(R, item)
    ensures !Truthy(item.id) ==> r == Err(Generic("Item ID is missing"))
    ensures Truthy(item.id) && event != Webhook.FolderCreated ==> r == Ok(NoSidecar)
    ensures Truthy(item.id) && event == Webhook.FolderCreated && !item.folder ==>
              r == Err(Generic("Item is not a folder"))
    ensures r.Ok? && r.value != NoSidecar ==>
              event == Webhook.FolderCreated && item.folder &&
              item.id.value != folders.customer && item.id.value != folders.shared
  {
    if !Truthy(item.id) then Err(Generic("Item ID is missing"))
    else
      var id := item.id.value;
      if event != Webhook.FolderCreated then Ok(NoSidecar)
      else if !item.folder then Err(Generic("Item is not a folder"))
      else if id == folders.customer || id == folders.shared then Ok(NoSidecar)
      else
        var directCustomer :- InFolder(R, id, folders.customer, Bounded(0));
        if directCustomer then Ok(CustomerAndUsers)
        else
          var deepCustomer :- InFolder(R, id, folders.customer, Unbounded);
          if deepCustomer then Ok(SectionSidecar)
          else
            var directShared :- InFolder(R, id, folders.shared, Bounded(0));
            if directShared then Ok(CategorySidecar)
            else
              var deepShared :- InFolder(R, id, folders.shared, Unbounded);
              if deepShared then Ok(SectionSidecar) else Ok(NoSidecar)
  }

  /** A new folder item with an id, other than the two configured folders,
      which are set. */
  predicate NewFolder(folders: Folders, item: Webhook.DriveItem) {
    folders.customer != "" && folders.shared != "" &&
    item.id.Some? && item.id.value != "" && item.folder &&
    item.id.value != folders.customer && item.id.value != folders.shared
  }

  /** A folder created directly inside the customer folder gets the customer
      and users sidecars. */
  lemma CustomerChild(R: Remote, folders: Folders, item: Webhook.DriveItem)
    requires HandlerWalksEnd(R, item) && NewFolder(folders, item)
    requires StripColon(item.id.value) in R && R[StripColon(item.id.value)] == Some(folders.customer)
    ensures Route(R, folders, Webhook.FolderCreated, item) == Ok(CustomerAndUsers)
  {
    var id := item.id.value;
    assert Search(R, [folders.customer], id, Bounded(0), 0) == Ok(true);
  }

  /** A folder created directly inside the shared folder, and not under the
      customer folder, gets the category sidecar. */
  lemma SharedChild(R: Remote, folders: Folders, item: Webhook.DriveItem)
    requires HandlerWalksEnd(R, item) && NewFolder(folders, item)
    requires StripColon(item.id.value) in R && R[StripColon(item.id.value)] == Some(folders.shared)
    requires Search(R, [folders.customer], item.id.value, Unbounded, 0) == Ok(false)
    ensures Route(R, folders, Webhook.FolderCreated, item) == Ok(CategorySidecar)
  {
    var id := item.id.value;
    assert Search(R, [folders.shared], id, Bounded(0), 0) == Ok(true);
  }

  /** A folder created deeper inside the customer folder, below one of its
      children, gets a section sidecar. */
  lemma DeepCustomer(R: Remote, folders: Folders, item: Webhook.DriveItem)
    requires HandlerWalksEnd(R, item) && NewFolder(folders, item)
    requires Search(R, [folders.customer], item.id.value, Bounded(0), 0) == Ok(false)
    requires Search(R, [folders.customer], item.id.value, Unbounded, 0) == Ok(true)
    ensures Route(R, folders, Webhook.FolderCreated, item) == Ok(SectionSidecar)
  {
  }

  /** A folder created deeper inside the shared folder, and not under the
      customer folder, gets a section sidecar too. */
  lemma DeepShared(R: Remote, folders: Folders, item: Webhook.DriveItem)
    requires HandlerWalksEnd(R, item) && NewFolder(folders, item)
    requires Search(R, [folders.customer], item.id.value, Bounded(0), 0) == Ok(false)
    requires Search(R, [folders.customer], item.id.value, Unbounded, 0) == Ok(false)
    requires Search(R, [folders.shared], item.id.value, Bounded(0), 0) == Ok(false)
    requires Search(R, [folders.shared], item.id.value, Unbounded, 0) == Ok(true)
    ensures Route(R, folders, Webhook.FolderCreated, item) == Ok(SectionSidecar)
  {
  }

  /** A folder under neither configured folder gets no sidecar. */
  lemma Outside(R: Remote, folders: Folders, item: Webhook.DriveItem)
    requires HandlerWalksEnd(R, item) && NewFolder(folders, item)
    requires Search(R, [folders.customer], item.id.value, Unbounded, 0) == Ok(false)
    requires Search(R, [folders.shared], item.id.value, Unbounded, 0) == Ok(false)
    ensures Route(R, folders, Webhook.FolderCreated, item) == Ok(NoSidecar)
  {
  }

  /** Sidecars are made only for folders under one of the two configured
      folders, at any depth. */
  lemma SidecarsOnlyUnderConfiguredFolders(R: Remote, folders: Folders, item: Webhook.DriveItem)
    requires HandlerWalksEnd(R, item)
    ensures var r := Route(R, folders, Webhook.FolderCreated, item);
      r.Ok? && r.value != NoSidecar ==>
        Search(R, [folders.customer], item.id.value, Unbounded, 0) == Ok(true) ||
        Search(R, [folders.shared], item.id.value, Unbounded, 0) == Ok(true)
  {
    var r := Route(R, folders, Webhook.FolderCreated, item);
    if r.Ok? && r.value != NoSidecar {
      var id := item.id.value;
      if Search(R, [folders.customer], id, Bounded(0), 0) == Ok(true) {
        BoundedMatchIsMatch(R, [folders.customer], id, 0, 0);
      } else if Search(R, [folders.shared], id, Bounded(0), 0) == Ok(true) {
        BoundedMatchIsMatch(R, [folders.shared], id, 0, 0);
      }
    }
  }
}
