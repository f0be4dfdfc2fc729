/** The pipeline step that decides which of the api and app directories
    changed since the last successful build, and publishes `API_CHANGED` or
    `APP_CHANGED` for each. The output of `git diff --name-only` is a
    parameter. */
module DetermineChanges {
  import opened Wrappers
  import opened Text
  import Seqs

  const Directories := ["api", "app"]

  const MissingDefinitionId := "Missing DEFINITION_ID"

  /** The ASCII upper case of a directory name. */
  function Upper(s: string): (u: string)
    ensures |u| == |s|
    ensures forall k :: 0 <= k < |s| ==> u[k] == if 'a' <= s[k] <= 'z' then s[k] - 'a' + 'A' else s[k]
  {
    seq(|s|, k requires 0 <= k < |s| => if 'a' <= s[k] <= 'z' then s[k] - 'a' + 'A' else s[k])
  }

  /** The variable published for a changed directory. */
  function Variable(dir: string): string {
    Upper(dir) + "_CHANGED"
  }

  predicate NonEmpty(line: string) {
    line != ""
  }

  /** The changed paths: the diff's lines, blank ones dropped. */
  function ChangedFiles(diff: string): (files: seq<string>)
    ensures forall f :: f in files <==> f in Split(diff, '\n') && f != ""
    ensures forall k :: 0 <= k < |files| ==> '\n' !in files[k]
  {
    var files := Seqs.Filter(NonEmpty, Split(diff, '\n'));
    assert forall f :: f in Split(diff, '\n') && f != "" ==> f in files by {
      var lines := Split(diff, '\n');
      forall f | f in lines && f != ""
        ensures f in files
      {
        var k :| 0 <= k < |lines| && lines[k] == f;
      }
    }
    files
  }

  /** Whether some path starts with the directory's name, as plain text. */
  predicate Touches(files: seq<string>, dir: string) {
    exists k :: 0 <= k < |files| && StartsWith(files[k], dir)
  }

  /** The variables published for the directories, in order, that a path
      touches. */
  function Published(files: seq<string>, dirs: seq<string>): (vars: seq<string>)
    ensures |vars| <= |dirs|
    ensures forall d :: d in dirs && Touches(files, d) ==> Variable(d) in vars
    ensures forall v :: v in vars ==> exists d :: d in dirs && Touches(files, d) && v == Variable(d)
    decreases |dirs|
  {
    if dirs == [] then []
    else
      var rest := Published(files, dirs[1..]);
      if Touches(files, dirs[0]) then [Variable(dirs[0])] + rest else rest
  }

  /** The step: `FORCE_ALL` set to exactly `True` publishes both directories
      without looking at the diff; otherwise a missing `DEFINITION_ID` is an
      error, and each directory is published when a changed path starts with
      its name. */
  function Determine(forceAll: Option<string>, definitionId: Option<string>, diff: string): (r: Result<seq<string>, string>)
    ensures forceAll == Some("True") ==> r == Ok([Variable("api"), Variable("app")])
    ensures forceAll != Some("True") ==> (r.Err? <==> !Truthy(definitionId))
    ensures r.Err? ==> r.error == MissingDefinitionId
    ensures forceAll != Some("True") && r.Ok? ==>
              forall d :: d in Directories ==> (Variable(d) in r.value <==> Touches(ChangedFiles(diff), d))
  {
    if forceAll == Some("True") then Ok([Variable("api"), Variable("app")])
    else if !Truthy(definitionId) then Err(MissingDefinitionId)
    else
      var vars := Published(ChangedFiles(diff), Directories);
      assert Variable("api") != Variable("app") by {
        assert Variable("api")[2] == 'I' && Variable("app")[2] == 'P';
      }
      Ok(vars)
  }

  /** The changed paths of a diff that lists one path are that path. */
  lemma OnePathDiff(path: string)
    requires path != "" && '\n' !in path
    ensures ChangedFiles(path + "\n") == [path]
  {
    assert Join([path, ""], '\n') == path + "\n";
    SplitJoin([path, ""], '\n');
    assert Seqs.Filter(NonEmpty, [""]) == [];
  }

  /** A path under `apiary/` touches the api directory and not the app one. */
  lemma ApiaryTouchesApi()
    ensures Published(["apiary/x"], Directories) == [Variable("api")]
  {
    var path := "apiary/x";
    assert [path][0] == path;
    assert StartsWith(path, "api") && !StartsWith(path, "app");
    assert Touches([path], "api") && !Touches([path], "app");
    assert Directories[1..] == ["app"];
    assert Published([path], ["app"]) == [];
  }

  /** The directory test is a plain prefix test: a change under `apiary/`
      flags the api directory. */
  lemma PrefixNotDirectory(definitionId: string)
    requires definitionId != ""
    ensures Determine(None, Some(definitionId), "apiary/x\n") == Ok(["API_CHANGED"])
  {
    ApiaryDiff(definitionId);
    ApiaryTouchesApi();
    ApiVariable();
  }

  lemma ApiaryDiff(definitionId: string)
    requires definitionId != ""
    ensures Determine(None, Some(definitionId), "apiary/x\n") == Ok(Published(["apiary/x"], Directories))
  {
    var path := "apiary/x";
    assert path + "\n" == "apiary/x\n";
    OnePathDiff(path);
  }

  lemma ApiVariable()
    ensures Variable("api") == "API_CHANGED"
  {
    assert Upper("api") == "API";
  }

  /** Any other value of `FORCE_ALL`, such as `true`, is not a force. */
  lemma ForceIsCaseSensitive(diff: string)
    ensures Determine(Some("true"), None, diff) == Err(MissingDefinitionId)
  {
  }
}
