/** The Pulumi provider for a folder in a drive: where `create` posts it, the
    outputs it records, how `update` renames it, and what `diff` reports. */
module OneDriveFolder {
  import opened Wrappers
  import opened GraphShared

  /** The provider's inputs. */
  datatype FolderInputs = FolderInputs(clientId: string, clientSecret: string, tenantId: string,
                                       name: string, driveId: string, folderId: Option<string>)

  /** Where a new folder is posted: under a folder item when a folder id is
      set, under the drive's root otherwise. */
  function ChildrenPath(driveId: string, folderId: Option<string>): string {
    "/drives/" + driveId + (if Truthy(folderId) then "/items/" + folderId.value else "/root") + "/children"
  }

  /** A folder id that is set names the parent item; an unset or empty one
      means the drive's root. */
  lemma ChildrenPathParent(driveId: string, folderId: Option<string>)
    ensures Truthy(folderId) ==> ChildrenPath(driveId, folderId) == ItemPath(driveId, folderId.value) + "/children"
    ensures !Truthy(folderId) ==> ChildrenPath(driveId, folderId) == "/drives/" + driveId + "/root/children"
  {
    if Truthy(folderId) {
      assert ChildrenPath(driveId, folderId) == ("/drives/" + driveId + "/items/" + folderId.value) + "/children";
    }
  }

  /** `create`: post a folder with the given name, renamed by Graph on a
      clash, then record the inputs, with `folderId` only when one is set;
      `id` is the id Graph gives the new item. */
  function Create(inputs: FolderInputs, id: string): (r: (string, Props, GraphCall))
    ensures r.0 == id
    ensures r.2 == Post(ChildrenPath(inputs.driveId, inputs.folderId), inputs.name, "rename")
    ensures "folderId" in r.1 <==> Truthy(inputs.folderId)
    ensures "folderId" in r.1 ==> r.1["folderId"] == inputs.folderId.value
    ensures r.1.Keys - {"folderId"} == {"tenantId", "clientId", "clientSecret", "driveId", "name"}
    ensures Prop(r.1, "tenantId") == Some(inputs.tenantId) && Prop(r.1, "clientId") == Some(inputs.clientId)
    ensures Prop(r.1, "clientSecret") == Some(inputs.clientSecret) && Prop(r.1, "driveId") == Some(inputs.driveId)
    ensures Prop(r.1, "name") == Some(inputs.name)
  {
    var outs := map["tenantId" := inputs.tenantId, "clientId" := inputs.clientId,
                     "clientSecret" := inputs.clientSecret, "driveId" := inputs.driveId,
                     "name" := inputs.name];
    var outs' := if Truthy(inputs.folderId) then outs["folderId" := inputs.folderId.value] else outs;
    (id, outs', Post(ChildrenPath(inputs.driveId, inputs.folderId), inputs.name, "rename"))
  }

  /** `update`: rename the item in place, found through the old outputs; the
      outputs keep everything but the new name. */
  function Update(id: string, olds: Props, news: FolderInputs): (r: (GraphCall, Props))
    ensures r.0 == Patch(ItemPath(Str(olds, "driveId"), id), news.name)
    ensures r.1.Keys == olds.Keys + {"name"}
    ensures r.1["name"] == news.name
    ensures forall k :: k in olds && k != "name" ==> r.1[k] == olds[k]
  {
    (Patch(ItemPath(Str(olds, "driveId"), id), news.name), olds["name" := news.name])
  }

  /** `diff`: a changed credential or location replaces the folder, a new name
      renames it. The same five keys are also declared stable. */
  function Diff(olds: Props, news: Props): (r: DiffResult)
    ensures r.stables == ReplaceKeys && !r.deleteBeforeReplace
    ensures forall p :: p in r.replacements <==> p in ReplaceKeys && IsDifferent(olds, news, p)
    ensures SubsequenceOf(r.replacements, ReplaceKeys)
    ensures r.changes <==> IsDifferent(olds, news, "name") || r.replacements != []
  {
    var deltas := CheckForChanges(olds, news, ["name"]);
    var replacing := CheckForChanges(olds, news, ReplaceKeys);
    DiffResult(ReplaceKeys, false, replacing, |deltas| > 0 || |replacing| > 0)
  }

  /** A folder compared with its own outputs has nothing to do. */
  lemma DiffAgainstItself(props: Props)
    ensures Diff(props, props) == DiffResult(ReplaceKeys, false, [], false)
  {
    NoChangesAgainstItself(props, ReplaceKeys);
  }

  /** A new name alone renames the folder in place. */
  lemma RenameUpdatesInPlace(olds: Props, name: string)
    requires Prop(olds, "name") != Some(name)
    ensures var d := Diff(olds, olds["name" := name]);
      d.changes && d.replacements == []
  {
    var news := olds["name" := name];
    NoChangesWhenAllAgree(olds, news, ReplaceKeys);
    assert IsDifferent(olds, news, "name");
  }

  /** A key that changes is reported both as a replacement and, unchanged, in
      the stable list: the two lists overlap whenever a replacement is due. */
  lemma ReplacementsAreDeclaredStable(olds: Props, news: Props)
    ensures forall p :: p in Diff(olds, news).replacements ==> p in Diff(olds, news).stables
  {
  }
}
