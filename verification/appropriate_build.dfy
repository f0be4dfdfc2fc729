/** The deployment step that picks which container image tag to deploy: the
    current build's tag when it is the newest, else the first tag, newest
    first, whose number is below the current build id. The registry's tag
    list, newest first, is a parameter. */
module AppropriateBuild {
  import opened Wrappers
  import opened Text
  import opened DebugLevel
  import Seqs

  function TrimEnd(s: string): (t: string)
    ensures t == [] || !IsWhitespace(t[|t| - 1])
    ensures |t| <= |s| && t == s[..|t|]
    decreases |s|
  {
    if s != [] && IsWhitespace(s[|s| - 1]) then TrimEnd(s[..|s| - 1]) else s
  }

  predicate AllDigits(s: string) {
    forall k :: 0 <= k < |s| ==> IsAsciiDigit(s[k])
  }

  /** `Number(s)` for the numerals build ids are made of: surrounding white
      space is ignored, blank text is 0, a run of decimal digits is its value,
      and anything else is NaN. */
  function ToNumber(s: string): (r: JsNumber)
    ensures TrimEnd(TrimStart(s)) == [] ==> r == Finite(0)
    ensures AllDigits(s) && s != [] ==> r == Finite(ValueOf(s, 10))
    ensures r.NaN? <==> !AllDigits(TrimEnd(TrimStart(s)))
  {
    var t := TrimEnd(TrimStart(s));
    DigitsNeedNoTrim(s);
    if AllDigits(t) then Finite(ValueOf(t, 10)) else NaN
  }

  /** Trimming leaves a numeral unchanged. */
  lemma DigitsNeedNoTrim(s: string)
    ensures AllDigits(s) && s != [] ==> TrimEnd(TrimStart(s)) == s
  {
    if AllDigits(s) && s != [] {
      assert !IsWhitespace(s[0]) && !IsWhitespace(s[|s| - 1]);
    }
  }

  /** `Number(tag) < Number(build)`: any comparison with NaN is false. */
  predicate Older(tag: string, build: string) {
    var a := ToNumber(tag);
    var b := ToNumber(build);
    a.Finite? && b.Finite? && a.value < b.value
  }

  /** `tags.find(tag => Number(tag) < Number(build))`, as an index. */
  function FindOlder(tags: seq<string>, build: string): (r: Option<nat>)
    ensures r.Some? ==> r.value < |tags| && Older(tags[r.value], build) &&
                        forall j :: 0 <= j < r.value ==> !Older(tags[j], build)
    ensures r.None? <==> forall j :: 0 <= j < |tags| ==> !Older(tags[j], build)
  {
    Seqs.First(tag => Older(tag, build), tags)
  }

  const NoBuildId := "No build id found"
  const NoRegistry := "No container registry found"
  const NoTags := "No tags found"

  function NoAppropriateTag(build: string): string {
    "No appropriate tag found for " + build
  }

  /** The tag the script sets as `build-id`, from `BUILD_ID`,
      `CONTAINER_REGISTRY` and the registry's tags. A blank first tag counts
      as no tags, and a blank tag found by the search counts as none found. */
  function SelectBuild(buildId: Option<string>, registry: Option<string>, tags: seq<string>): (r: Result<string, string>)
    ensures !Truthy(buildId) ==> r == Err(NoBuildId)
    ensures Truthy(buildId) && !Truthy(registry) ==> r == Err(NoRegistry)
    ensures Truthy(buildId) && Truthy(registry) && (tags == [] || tags[0] == "") ==> r == Err(NoTags)
    ensures Truthy(buildId) && Truthy(registry) && tags != [] && tags[0] == buildId.value ==> r == Ok(tags[0])
    ensures r.Ok? ==> r.value != "" &&
                      exists k :: 0 <= k < |tags| && tags[k] == r.value &&
                                  ((k == 0 && r.value == buildId.value) ||
                                   (Older(r.value, buildId.value) && forall j :: 0 <= j < k ==> !Older(tags[j], buildId.value)))
    ensures r.Err? ==> r.error in {NoBuildId, NoRegistry, NoTags} || (buildId.Some? && r.error == NoAppropriateTag(buildId.value))
  {
    if !Truthy(buildId) then Err(NoBuildId)
    else if !Truthy(registry) then Err(NoRegistry)
    else if tags == [] || tags[0] == "" then Err(NoTags)
    else if tags[0] == buildId.value then Ok(tags[0])
    else match FindOlder(tags, buildId.value)
      case Some(k) => if tags[k] == "" then Err(NoAppropriateTag(buildId.value)) else Ok(tags[k])
      case None => Err(NoAppropriateTag(buildId.value))
  }

  /** Past the newest tag, the first older tag in the list is chosen. */
  lemma FirstOlderTagChosen(build: string, registry: string, tags: seq<string>, k: nat)
    requires build != "" && registry != "" && k < |tags|
    requires tags[0] != "" && tags[0] != build && tags[k] != ""
    requires Older(tags[k], build) && forall j :: 0 <= j < k ==> !Older(tags[j], build)
    ensures SelectBuild(Some(build), Some(registry), tags) == Ok(tags[k])
  {
    FoundAt(tags, build, k);
    FoundTagChosen(build, registry, tags, k);
  }

  /** Past the newest tag, a tag found by the search is chosen unless blank. */
  lemma FoundTagChosen(build: string, registry: string, tags: seq<string>, k: nat)
    requires build != "" && registry != "" && k < |tags| && tags[0] != "" && tags[0] != build
    requires FindOlder(tags, build) == Some(k) && tags[k] != ""
    ensures SelectBuild(Some(build), Some(registry), tags) == Ok(tags[k])
  {
  }

  /** The search finds the first older tag. */
  lemma FoundAt(tags: seq<string>, build: string, k: nat)
    requires k < |tags| && Older(tags[k], build) && forall j :: 0 <= j < k ==> !Older(tags[j], build)
    ensures FindOlder(tags, build) == Some(k)
  {
    var r := FindOlder(tags, build);
    assert r.Some?;
    assert !(r.value < k);
    assert !(r.value > k);
  }

  /** When no tag is older than the build, deployment stops. */
  lemma NoOlderTagFails(build: string, registry: string, tags: seq<string>)
    requires build != "" && registry != "" && tags != [] && tags[0] != "" && tags[0] != build
    requires forall j :: 0 <= j < |tags| ==> !Older(tags[j], build)
    ensures SelectBuild(Some(build), Some(registry), tags) == Err(NoAppropriateTag(build))
  {
  }

  /** A build id that is not a number matches no older tag. */
  lemma NonNumericBuildFails(build: string, registry: string, tags: seq<string>)
    requires build != "" && registry != "" && tags != [] && tags[0] != "" && tags[0] != build
    requires !AllDigits(TrimEnd(TrimStart(build)))
    ensures SelectBuild(Some(build), Some(registry), tags) == Err(NoAppropriateTag(build))
  {
    assert forall j :: 0 <= j < |tags| ==> !Older(tags[j], build);
  }

  /** Past the newest tag, a blank tag found by the search ends it with no
      tag. */
  lemma BlankFoundTagFails(build: string, registry: string, tags: seq<string>, k: nat)
    requires build != "" && registry != "" && k < |tags| && tags[0] != "" && tags[0] != build
    requires FindOlder(tags, build) == Some(k) && tags[k] == ""
    ensures SelectBuild(Some(build), Some(registry), tags) == Err(NoAppropriateTag(build))
  {
  }

  /** A one-digit numeral reads as its digit. */
  lemma SingleDigit(s: string)
    requires |s| == 1 && IsAsciiDigit(s[0])
    ensures ToNumber(s) == Finite(s[0] as int - '0' as int)
  {
    assert AllDigits(s);
    assert s[..0] == [];
    assert ValueOf(s, 10) == DigitOf(s[0]);
  }

  /** The choice goes by list order, not by size: with tags 3 then 7 and
      build 8, tag 3 is chosen although 7 is the largest older one. */
  lemma FirstOlderIsNotLargest()
    ensures SelectBuild(Some("8"), Some("registry"), ["3", "7"]) == Ok("3")
    ensures Older("7", "8") && ToNumber("7").value > ToNumber("3").value
  {
    SingleDigit("8");
    SingleDigit("3");
    SingleDigit("7");
    var tags := ["3", "7"];
    FoundAt(tags, "8", 0);
    FoundTagChosen("8", "registry", tags, 0);
  }

  /** A blank tag reads as 0, so it is older than any positive build and
      stops the search; being falsy, it then counts as no tag found. */
  lemma BlankTagStopsSearch()
    ensures SelectBuild(Some("5"), Some("registry"), ["9", "", "4"]) == Err(NoAppropriateTag("5"))
    ensures Older("4", "5")
  {
    SingleDigit("5");
    SingleDigit("9");
    SingleDigit("4");
    assert ToNumber("") == Finite(0);
    var tags := ["9", "", "4"];
    assert !Older(tags[0], "5");
    FoundAt(tags, "5", 1);
    BlankFoundTagFails("5", "registry", tags, 1);
  }
}
