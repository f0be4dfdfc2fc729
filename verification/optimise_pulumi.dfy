/** The build step that prunes the Azure Pulumi package: which folders it
    empties. A module the infrastructure does not use goes whole; a module
    it uses loses only its dated API-version folders, except where preview
    versions are enabled. The folder listing is a parameter. */
module OptimisePulumi {
  import opened Text

  const ModulesToKeep := ["resources", "storage", "types", "cdn", "operationalinsights", "app", "insights"]
  const EnablePreviewFor := ["insights"]

  function Join2(path: string, name: string): string {
    path + "/" + name
  }

  /** `path.split('/').pop()`. */
  function LastSegment(path: string): string {
    var parts := Split(path, '/');
    parts[|parts| - 1]
  }

  /** Splitting text with a last separator puts what follows it last. */
  lemma {:induction false} SplitLast(s: string, name: string, sep: char)
    requires sep !in name
    ensures Split(s + [sep] + name, sep) == Split(s, sep) + [name]
    decreases |s|
  {
    if s == [] {
      assert s + [sep] + name == [sep] + name;
      SplitJoin([name], sep);
    } else {
      var t := s + [sep] + name;
      assert t[0] == s[0] && t[1..] == s[1..] + [sep] + name;
      SplitLast(s[1..], name, sep);
    }
  }

  /** The last segment of a joined path is the name joined on. */
  lemma LastSegmentOfJoin(path: string, name: string)
    requires '/' !in name
    ensures LastSegment(Join2(path, name)) == name
  {
    assert Join2(path, name) == path + ['/'] + name;
    SplitLast(path, name, '/');
  }

  /** The regular expression `v\d{8}(?:preview)?$`: the name ends in `v` and
      eight digits, optionally followed by `preview`. */
  predicate IsVersionFolder(name: string) {
    var n := |name|;
    (n >= 9 && name[n - 9] == 'v' && forall k :: n - 8 <= k < n ==> IsAsciiDigit(name[k])) ||
    (n >= 16 && name[n - 16] == 'v' && name[n - 7..] == "preview" &&
     forall k :: n - 15 <= k < n - 7 ==> IsAsciiDigit(name[k]))
  }

  /** Dated stable and preview versions are version folders; a bare name or a
      short date is not. */
  lemma VersionFolderNames()
    ensures IsVersionFolder("v20230401") && IsVersionFolder("v20230401preview")
    ensures IsVersionFolder("latestv20230401")
    ensures !IsVersionFolder("v2023") && !IsVersionFolder("latest") && !IsVersionFolder("v20230401beta")
  {
    assert "v20230401beta"[4] == '3';
    assert "latest"[0] == 'l';
  }

  /** The version folders among `names`, each joined onto `path`. */
  function VersionFolders(path: string, names: seq<string>): (r: seq<string>)
    ensures |r| <= |names|
    ensures forall p :: p in r <==> exists x :: x in names && IsVersionFolder(x) && p == Join2(path, x)
    decreases |names|
  {
    if names == [] then []
    else
      var rest := VersionFolders(path, names[1..]);
      assert forall x :: x in names[1..] ==> x in names;
      assert forall x :: x in names ==> x == names[0] || x in names[1..];
      if IsVersionFolder(names[0]) then [Join2(path, names[0])] + rest else rest
  }

  /** `getPreviousVersionFolders`: nothing for a module with preview versions
      enabled, else its version folders. `listing` gives the folder names
      under a path. */
  function PreviousVersionFolders(path: string, listing: string -> seq<string>): (r: seq<string>)
    ensures LastSegment(path) in EnablePreviewFor ==> r == []
    ensures LastSegment(path) !in EnablePreviewFor ==>
              forall p :: p in r <==> exists x :: x in listing(path) && IsVersionFolder(x) && p == Join2(path, x)
  {
    if LastSegment(path) in EnablePreviewFor then [] else VersionFolders(path, listing(path))
  }

  /** Whether `p` is selected for module `m` under `root`: the module folder
      itself when the module is not kept, else one of its version folders. */
  predicate Contributes(root: string, m: string, p: string, listing: string -> seq<string>) {
    if m in ModulesToKeep then p in PreviousVersionFolders(Join2(root, m), listing)
    else p == Join2(root, m)
  }

  /** What each module contributes, flattened in module order. */
  function ModuleFolders(root: string, modules: seq<string>, listing: string -> seq<string>): (r: seq<string>)
    ensures forall k, p :: 0 <= k < |modules| && Contributes(root, modules[k], p, listing) ==> p in r
    ensures forall p :: p in r ==> exists k :: 0 <= k < |modules| && Contributes(root, modules[k], p, listing)
    decreases |modules|
  {
    if modules == [] then []
    else
      var path := Join2(root, modules[0]);
      var here := if modules[0] in ModulesToKeep then PreviousVersionFolders(path, listing) else [path];
      var rest := ModuleFolders(root, modules[1..], listing);
      ModuleFoldersStep(root, modules, listing, here, rest);
      here + rest
  }

  lemma ModuleFoldersStep(root: string, modules: seq<string>, listing: string -> seq<string>,
                          here: seq<string>, rest: seq<string>)
    requires modules != []
    requires forall p :: p in here <==> Contributes(root, modules[0], p, listing)
    requires forall k, p :: 0 <= k < |modules[1..]| && Contributes(root, modules[1..][k], p, listing) ==> p in rest
    requires forall p :: p in rest ==> exists k :: 0 <= k < |modules[1..]| && Contributes(root, modules[1..][k], p, listing)
    ensures forall k, p :: 0 <= k < |modules| && Contributes(root, modules[k], p, listing) ==> p in here + rest
    ensures forall p :: p in here + rest ==> exists k :: 0 <= k < |modules| && Contributes(root, modules[k], p, listing)
  {
    forall k, p | 0 <= k < |modules| && Contributes(root, modules[k], p, listing)
      ensures p in here + rest
    {
      if k > 0 {
        assert modules[1..][k - 1] == modules[k];
      }
    }
    forall p | p in here + rest
      ensures exists k :: 0 <= k < |modules| && Contributes(root, modules[k], p, listing)
    {
      if p !in here {
        var k :| 0 <= k < |modules[1..]| && Contributes(root, modules[1..][k], p, listing);
        assert modules[k + 1] == modules[1..][k];
      }
    }
  }

  /** `getFolders`: the contributions of the modules listed under `root`. */
  function Folders(root: string, listing: string -> seq<string>): (r: seq<string>)
    ensures forall m :: m in listing(root) && m !in ModulesToKeep ==> Join2(root, m) in r
  {
    ModuleFolders(root, listing(root), listing)
  }

  /** `getFoldersToClean`: the selection at the root of the Pulumi package, then that of its
      `types/enums` folder. */
  function FoldersToClean(root: string, listing: string -> seq<string>): (r: seq<string>)
    ensures forall p :: p in r <==> p in Folders(root, listing) || p in Folders(Join2(root, "types/enums"), listing)
  {
    Folders(root, listing) + Folders(Join2(root, "types/enums"), listing)
  }

  /** The insights module keeps all its versions: whatever it holds, nothing
      under it is selected. */
  lemma InsightsKeepsEverything(root: string, listing: string -> seq<string>)
    ensures PreviousVersionFolders(Join2(root, "insights"), listing) == []
  {
    LastSegmentOfJoin(root, "insights");
  }

  /** A kept module other than insights contributes exactly its version
      folders. */
  lemma KeptModuleLosesVersions(root: string, name: string, listing: string -> seq<string>)
    requires name in ModulesToKeep && name != "insights"
    ensures forall p :: p in PreviousVersionFolders(Join2(root, name), listing) <==>
                        exists x :: x in listing(Join2(root, name)) && IsVersionFolder(x) && p == Join2(root, name) + "/" + x
  {
    assert '/' !in name;
    LastSegmentOfJoin(root, name);
  }
}
