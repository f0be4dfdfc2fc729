/** The Pulumi provider for a file in a drive: where `create` uploads it, the
    outputs it records, how `update` changes it, and what `diff` reports. */
module OneDriveFile {
  import opened Wrappers
  import opened GraphShared

  /** The provider's inputs. */
  datatype FileInputs = FileInputs(clientId: string, clientSecret: string, tenantId: string,
                                   name: string, content: string, driveId: string, folderId: Option<string>)

  /** The parent an upload goes under: a folder item when a folder id is
      set, the drive's root otherwise. */
  function UploadParent(driveId: string, folderId: Option<string>): string {
    "/drives/" + driveId + if Truthy(folderId) then "/items/" + folderId.value + ":" else "/root:"
  }

  /** The upload path: the parent, then the encoded name as one segment, then
      `:/content`. */
  function UploadPath(driveId: string, folderId: Option<string>, name: string): (p: string)
    ensures p == UploadParent(driveId, folderId) + "/" + EncodeURIComponent(name) + ":/content"
  {
    UploadParent(driveId, folderId) + "/" + EncodeURIComponent(name) + ":/content"
  }

  /** Whatever the name, it stays one path segment: the text between the
      parent and `:/content` is the encoded name, with no `/` or `:` in it. */
  lemma UploadPathKeepsName(driveId: string, folderId: Option<string>, name: string)
    ensures var p := UploadPath(driveId, folderId, name);
      var start := |UploadParent(driveId, folderId)| + 1;
      && start <= |p| - 9
      && p[start..|p| - 9] == EncodeURIComponent(name)
      && p[|p| - 9..] == ":/content"
      && forall k :: start <= k < |p| - 9 ==> p[k] != '/' && p[k] != ':'
  {
    var parent := UploadParent(driveId, folderId);
    var e := EncodeURIComponent(name);
    var p := UploadPath(driveId, folderId, name);
    assert p == (parent + "/") + e + ":/content";
    assert p[|parent| + 1..|p| - 9] == e;
    EncodedNameIsOneSegment(name);
    forall k | |parent| + 1 <= k < |p| - 9
      ensures p[k] != '/' && p[k] != ':'
    {
      assert p[k] == e[k - |parent| - 1];
    }
  }

  /** `create`: upload the content, then record the inputs, with `folderId`
      only when one is set; `id` is the id Graph gives the new item. */
  function Create(inputs: FileInputs, id: string): (r: (string, Props, GraphCall))
    ensures r.0 == id
    ensures r.2 == Put(UploadPath(inputs.driveId, inputs.folderId, inputs.name), inputs.content)
    ensures "folderId" in r.1 <==> Truthy(inputs.folderId)
    ensures "folderId" in r.1 ==> r.1["folderId"] == inputs.folderId.value
    ensures r.1.Keys - {"folderId"} == {"tenantId", "clientId", "clientSecret", "driveId", "name", "content"}
    ensures Prop(r.1, "tenantId") == Some(inputs.tenantId) && Prop(r.1, "clientId") == Some(inputs.clientId)
    ensures Prop(r.1, "clientSecret") == Some(inputs.clientSecret) && Prop(r.1, "driveId") == Some(inputs.driveId)
    ensures Prop(r.1, "name") == Some(inputs.name) && Prop(r.1, "content") == Some(inputs.content)
  {
    var outs := map["tenantId" := inputs.tenantId, "clientId" := inputs.clientId,
                     "clientSecret" := inputs.clientSecret, "driveId" := inputs.driveId,
                     "name" := inputs.name, "content" := inputs.content];
    var outs' := if Truthy(inputs.folderId) then outs["folderId" := inputs.folderId.value] else outs;
    (id, outs', Put(UploadPath(inputs.driveId, inputs.folderId, inputs.name), inputs.content))
  }

  /** `update`: replace the content and rename the item in place, found
      through the old outputs; the outputs keep everything but the new name
      and content. */
  function Update(id: string, olds: Props, news: FileInputs): (r: (seq<GraphCall>, Props))
    ensures r.0 == [Put(ItemPath(Str(olds, "driveId"), id) + "/content", news.content),
                    Patch(ItemPath(Str(olds, "driveId"), id), news.name)]
    ensures r.1.Keys == olds.Keys + {"name", "content"}
    ensures r.1["name"] == news.name && r.1["content"] == news.content
    ensures forall k :: k in olds && k != "name" && k != "content" ==> r.1[k] == olds[k]
  {
    var path := ItemPath(Str(olds, "driveId"), id);
    ([Put(path + "/content", news.content), Patch(path, news.name)],
     olds["name" := news.name]["content" := news.content])
  }

  /** `diff`: a changed credential or location replaces the file; any change
      at all, including to the name or content, is a change. */
  function Diff(olds: Props, news: Props): (r: DiffResult)
    ensures r.stables == [] && !r.deleteBeforeReplace
    ensures forall p :: p in r.replacements <==> p in ReplaceKeys && IsDifferent(olds, news, p)
    ensures SubsequenceOf(r.replacements, ReplaceKeys)
    ensures r.changes <==> IsDifferent(olds, news, "name") || IsDifferent(olds, news, "content") || r.replacements != []
  {
    var deltas := CheckForChanges(olds, news, ["name", "content"]);
    var replacing := CheckForChanges(olds, news, ReplaceKeys);
    DiffResult([], false, replacing, |deltas| > 0 || |replacing| > 0)
  }

  /** A file compared with its own outputs has nothing to do. */
  lemma DiffAgainstItself(props: Props)
    ensures Diff(props, props) == DiffResult([], false, [], false)
  {
    NoChangesAgainstItself(props, ReplaceKeys);
  }

  /** New content alone updates the file in place. */
  lemma ContentChangeUpdatesInPlace(olds: Props, content: string)
    requires Prop(olds, "content") != Some(content)
    ensures var d := Diff(olds, olds["content" := content]);
      d.changes && d.replacements == []
  {
    var news := olds["content" := content];
    NoChangesWhenAllAgree(olds, news, ReplaceKeys);
    assert IsDifferent(olds, news, "content");
  }
}
