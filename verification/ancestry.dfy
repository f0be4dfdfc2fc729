/** `isInFolder`: decides whether a drive item lies inside one of a list of folders
    by walking parent links upwards, fetching each node at most once into a cache
    that lives for one top-level call.

    The remote drive is a map from an item id to the id of its parent reference
    (`None` for an item without one); an id missing from the map is an item that
    does not exist or that the caller may not read. */
module Ancestry {
  import opened Wrappers
  import opened Text

  type Remote = map<string, Option<string>>

  /** A cached node: its id and its parent reference id. */
  datatype TreeItem = TreeItem(id: string, parent: Option<string>)

  /** `options.depth`: a number of hops, or `Infinity` (the default). */
  datatype Depth = Bounded(limit: nat) | Unbounded

  /** `folderIds`: one folder id, or a list of them. */
  datatype FolderIds = One(id: string) | Many(ids: seq<string>)

  /** The failure thrown when a node cannot be fetched. */
  datatype WalkError = NoAccess

  const NoAccessMessage := "This folder does not exist or you do not have permission to access it"

  /** A single folder id is looked up as a one-element list. */
  function FolderList(f: FolderIds): (r: seq<string>)
    ensures f.One? ==> r == [f.id]
    ensures f.Many? ==> r == f.ids
  {
    match f
    case One(id) => [id]
    case Many(ids) => ids
  }

  /** Each id is looked up with only its first `:` removed. */
  function StripColon(id: string): (r: string)
    ensures ':' !in id ==> r == id
    ensures ':' in id ==> |r| == |id| - 1
    decreases |id|
  {
    if id == [] then []
    else if id[0] == ':' then id[1..]
    else [id[0]] + StripColon(id[1..])
  }

  /** Removing the first `:` is `id.replace(":", "")`. */
  lemma {:induction false} StripColonIsReplace(id: string)
    ensures StripColon(id) == ReplaceFirst(id, ":", "")
    decreases |id|
  {
    if id != [] && id[0] != ':' {
      StripColonIsReplace(id[1..]);
      ReplaceAfterFirst(id);
    } else if id != [] {
      assert StartsWith(id, ":");
      assert id[..0] + "" + id[1..] == id[1..];
    }
  }

  /** A first character other than `:` is kept by the replacement. */
  lemma ReplaceAfterFirst(id: string)
    requires id != [] && id[0] != ':'
    ensures ReplaceFirst(id, ":", "") == [id[0]] + ReplaceFirst(id[1..], ":", "")
  {
    assert !StartsWith(id, ":");
    match IndexOf(id[1..], ":")
    case None =>
      assert [id[0]] + id[1..] == id;
    case Some(i) =>
      assert IndexOf(id, ":") == Some(i + 1);
      assert id[..i + 1] + "" + id[i + 2..] == [id[0]] + (id[1..][..i] + "" + id[1..][i + 1..]);
  }

  /** The next key the walk visits after `key`: the colon-stripped parent, if the
      node exists and its parent reference is a non-empty id. */
  function Step(R: Remote, key: string): Option<string> {
    if key in R && Truthy(R[key]) then Some(StripColon(R[key].value)) else None
  }

  /** The chain of keys starting at `key` stops within `n` hops. */
  predicate ChainEnds(R: Remote, key: string, n: nat)
    decreases n
  {
    Step(R, key).None? || (n > 0 && ChainEnds(R, Step(R, key).value, n - 1))
  }

  /** The parent chain from `key` has no cycle: it stops within as many hops as
      the drive has items. */
  predicate Ends(R: Remote, key: string) {
    ChainEnds(R, key, |R|)
  }

  /** The number of hops before the chain from `key` stops. */
  function Dist(R: Remote, key: string, n: nat): nat
    requires ChainEnds(R, key, n)
    decreases n
  {
    if Step(R, key).None? then 0 else 1 + Dist(R, Step(R, key).value, n - 1)
  }

  lemma {:induction false} ChainEndsMono(R: Remote, key: string, n: nat, m: nat)
    requires ChainEnds(R, key, n) && n <= m
    ensures ChainEnds(R, key, m) && Dist(R, key, m) == Dist(R, key, n)
    decreases n
  {
    if Step(R, key).Some? {
      ChainEndsMono(R, Step(R, key).value, n - 1, m - 1);
    }
  }

  /** One hop along an acyclic chain lands on an acyclic chain that is shorter. */
  lemma StepEnds(R: Remote, key: string)
    requires Ends(R, key) && Step(R, key).Some?
    ensures Ends(R, Step(R, key).value)
    ensures Dist(R, Step(R, key).value, |R|) < Dist(R, key, |R|)
  {
    ChainEndsMono(R, Step(R, key).value, |R| - 1, |R|);
  }

  /** The walk stops early on every path when depth is unbounded. */
  predicate WalkEnds(R: Remote, id: string, depth: Depth) {
    depth.Unbounded? ==> Ends(R, StripColon(id))
  }

  function Measure(R: Remote, id: string, depth: Depth, cur: nat): nat
    requires WalkEnds(R, id, depth)
  {
    match depth
    case Unbounded => Dist(R, StripColon(id), |R|)
    case Bounded(limit) => if cur <= limit then limit - cur else 0
  }

  /** What `isInFolder(id, folders, {depth}, {currentDepth: cur, ...})` settles
      on, for a drive that does not change during the call. */
  function Search(R: Remote, F: seq<string>, id: string, depth: Depth, cur: nat): Result<bool, WalkError>
    requires WalkEnds(R, id, depth)
    decreases Measure(R, id, depth, cur)
  {
    var key := StripColon(id);
    if key in F then Ok(true)
    else if key !in R then Err(NoAccess)
    else if Truthy(R[key]) && R[key].value in F then Ok(true)
    else if depth.Bounded? && cur >= depth.limit then Ok(false)
    else if Truthy(R[key]) then
      assert WalkEnds(R, R[key].value, depth) &&
        Measure(R, R[key].value, depth, cur + 1) < Measure(R, id, depth, cur) by {
        assert Step(R, key) == Some(StripColon(R[key].value));
        if depth.Unbounded? {
          StepEnds(R, key);
        }
      }
      Search(R, F, R[key].value, depth, cur + 1)
    else Ok(false)
  }

  /** The cache of one top-level call (`meta.tree`). */
  class Tree {
    var items: map<string, TreeItem>

    /** `createNewMeta`: every top-level call starts from an empty cache. */
    constructor ()
      ensures items == map[]
    {
      items := map[];
    }

    /** Every cached node is what the drive holds for that id. */
    predicate Mirrors(R: Remote)
      reads this
    {
      forall k :: k in items ==> k in R && items[k] == TreeItem(k, R[k])
    }
  }

  /** `enrichNode`: fetch `id` and store `{id, parent}` in the cache; a failed
      fetch throws the fixed no-access error and leaves the cache as it was. */
  method EnrichNode(R: Remote, tree: Tree, id: string) returns (r: Result<TreeItem, WalkError>)
    modifies tree
    ensures id in R ==> r == Ok(TreeItem(id, R[id])) && tree.items == old(tree.items)[id := r.value]
    ensures id !in R ==> r == Err(NoAccess) && tree.items == old(tree.items)
  {
    if id !in R {
      return Err(NoAccess);
    }
    var node := TreeItem(id, R[id]);
    tree.items := tree.items[id := node];
    return Ok(node);
  }

  /** One hop of `isInFolder`, reading nodes through the shared cache. */
  method Walk(R: Remote, tree: Tree, id: string, F: seq<string>, depth: Depth, cur: nat)
    returns (r: Result<bool, WalkError>)
    requires WalkEnds(R, id, depth)
    requires tree.Mirrors(R)
    modifies tree
    ensures r == Search(R, F, id, depth, cur)
    ensures tree.Mirrors(R)
    ensures old(tree.items).Keys <= tree.items.Keys
    ensures StripColon(id) in F ==> tree.items == old(tree.items)
    decreases Measure(R, id, depth, cur)
  {
    var key := StripColon(id);
    if key in F {
      return Ok(true);
    }
    if key !in tree.items {
      var fetched := EnrichNode(R, tree, key);
      if fetched.Err? {
        return Err(fetched.error);
      }
    }
    var item := tree.items[key];
    if Truthy(item.parent) && item.parent.value in F {
      return Ok(true);
    }
    if depth.Bounded? && cur >= depth.limit {
      return Ok(false);
    }
    if Truthy(item.parent) {
      assert Step(R, key) == Some(StripColon(R[key].value));
      if depth.Unbounded? {
        StepEnds(R, key);
      }
      r := Walk(R, tree, item.parent.value, F, depth, cur + 1);
      return;
    }
    return Ok(false);
  }

  /** `isInFolder(client, id, folderIds, options)` with a fresh cache. */
  method IsInFolder(R: Remote, id: string, folders: FolderIds, depth: Depth) returns (r: Result<bool, WalkError>)
    requires WalkEnds(R, id, depth)
    ensures r == Search(R, FolderList(folders), id, depth, 0)
  {
    var tree := new Tree();
    r := Walk(R, tree, id, FolderList(folders), depth, 0);
  }

  /** The key visited at level `i` of the walk from `id`, if the chain gets there. */
  function KeyAt(R: Remote, id: string, i: nat): Option<string>
    decreases i
  {
    if i == 0 then Some(StripColon(id)) else Next(R, KeyAt(R, id, i - 1))
  }

  /** One hop from a level, or none past the end of the chain. */
  function Next(R: Remote, level: Option<string>): Option<string> {
    match level
    case None => None
    case Some(k) => Step(R, k)
  }

  /** Level `i` matches: its key, or the raw id of its parent reference, is one
      of the folders. */
  predicate HitAt(R: Remote, F: seq<string>, id: string, i: nat) {
    KeyAt(R, id, i).Some? &&
    var k := KeyAt(R, id, i).value;
    k in F || (k in R && Truthy(R[k]) && R[k].value in F)
  }

  /** Every key on the first `n + 1` levels can be fetched. */
  predicate Fetchable(R: Remote, id: string, n: nat) {
    forall i :: 0 <= i <= n && KeyAt(R, id, i).Some? ==> KeyAt(R, id, i).value in R
  }

  /** After one hop the levels of the walk shift down by one. */
  lemma {:induction false} KeyAtShift(R: Remote, id: string, i: nat)
    requires StripColon(id) in R && Truthy(R[StripColon(id)])
    ensures KeyAt(R, id, i + 1) == KeyAt(R, R[StripColon(id)].value, i)
    decreases i
  {
    if i > 0 {
      KeyAtShift(R, id, i - 1);
      NextLevel(R, id, i);
      NextLevel(R, R[StripColon(id)].value, i - 1);
    } else {
      FirstHop(R, id);
    }
  }

  /** Level `i + 1` is one hop from level `i`. */
  lemma NextLevel(R: Remote, id: string, i: nat)
    ensures KeyAt(R, id, i + 1) == Next(R, KeyAt(R, id, i))
  {
  }

  /** Level 1 is the parent's own level 0. */
  lemma FirstHop(R: Remote, id: string)
    requires StripColon(id) in R && Truthy(R[StripColon(id)])
    ensures KeyAt(R, id, 1) == KeyAt(R, R[StripColon(id)].value, 0)
  {
    assert KeyAt(R, id, 1) == Next(R, KeyAt(R, id, 0));
  }

  /** An id that is itself one of the folders is inside, whatever the drive holds. */
  lemma DirectMatch(R: Remote, F: seq<string>, id: string, depth: Depth)
    requires WalkEnds(R, id, depth)
    requires StripColon(id) in F
    ensures Search(R, F, id, depth, 0) == Ok(true)
    ensures Search(map[], F, id, Bounded(0), 0) == Ok(true)
  {
  }

  /** With depth `d` the walk answers true exactly when the item or one of its
      first `d + 1` ancestors is one of the folders (every node being readable). */
  lemma {:induction false} BoundedSearch(R: Remote, F: seq<string>, id: string, d: nat, cur: nat)
    requires cur <= d
    requires Fetchable(R, id, d - cur)
    ensures Search(R, F, id, Bounded(d), cur) ==
      Ok(exists i :: 0 <= i <= d - cur && HitAt(R, F, id, i))
    decreases d - cur
  {
    var key := StripColon(id);
    assert KeyAt(R, id, 0) == Some(key);
    if HitAt(R, F, id, 0) {
    } else if cur == d {
    } else if Truthy(R[key]) {
      var p := R[key].value;
      forall i | 0 <= i <= d - (cur + 1) && KeyAt(R, p, i).Some?
        ensures KeyAt(R, p, i).value in R
      {
        KeyAtShift(R, id, i);
      }
      BoundedSearch(R, F, p, d, cur + 1);
      forall i | 0 <= i <= d - (cur + 1)
        ensures HitAt(R, F, id, i + 1) == HitAt(R, F, p, i)
      {
        KeyAtShift(R, id, i);
      }
      if exists i :: 0 <= i <= d - cur && HitAt(R, F, id, i) {
        var i :| 0 <= i <= d - cur && HitAt(R, F, id, i);
        assert i != 0;
        assert HitAt(R, F, p, i - 1);
      }
    } else {
      forall i | 1 <= i <= d - cur
        ensures KeyAt(R, id, i).None?
      {
        NoParentNoLevels(R, id, i);
      }
    }
  }

  /** Past a node without a parent reference the chain has no further levels. */
  lemma {:induction false} NoParentNoLevels(R: Remote, id: string, i: nat)
    requires i >= 1
    requires Step(R, StripColon(id)).None?
    ensures KeyAt(R, id, i).None?
    decreases i
  {
    if i > 1 {
      NoParentNoLevels(R, id, i - 1);
    }
  }

  /** Depth 0 accepts exactly the item itself or its direct parent. */
  lemma DepthZero(R: Remote, F: seq<string>, id: string)
    requires StripColon(id) in R
    ensures Search(R, F, id, Bounded(0), 0) == Ok(HitAt(R, F, id, 0))
  {
    BoundedSearch(R, F, id, 0, 0);
  }

  /** An unbounded walk over an acyclic chain gives what a walk bounded by any
      depth at least the chain's length gives. */
  lemma {:induction false} UnboundedIsDeepBounded(R: Remote, F: seq<string>, id: string, d: nat, cur: nat)
    requires Ends(R, StripColon(id))
    requires cur + Dist(R, StripColon(id), |R|) <= d
    ensures Search(R, F, id, Unbounded, cur) == Search(R, F, id, Bounded(d), cur)
    decreases Dist(R, StripColon(id), |R|)
  {
    var key := StripColon(id);
    if key in R && Truthy(R[key]) {
      assert Step(R, key) == Some(StripColon(R[key].value));
      StepEnds(R, key);
      UnboundedIsDeepBounded(R, F, R[key].value, d, cur + 1);
    }
  }

  /** With unbounded depth the walk answers true exactly when some level of the
      chain matches (every node being readable). */
  lemma UnboundedSearch(R: Remote, F: seq<string>, id: string)
    requires Ends(R, StripColon(id))
    requires Fetchable(R, id, Dist(R, StripColon(id), |R|))
    ensures Search(R, F, id, Unbounded, 0) ==
      Ok(exists i :: 0 <= i <= Dist(R, StripColon(id), |R|) && HitAt(R, F, id, i))
  {
    var d := Dist(R, StripColon(id), |R|);
    UnboundedIsDeepBounded(R, F, id, d, 0);
    BoundedSearch(R, F, id, d, 0);
  }

  /** A deeper bound never turns a match into a non-match. */
  lemma {:induction false} DepthMonotone(R: Remote, F: seq<string>, id: string, d: nat, cur: nat)
    requires cur <= d
    requires Search(R, F, id, Bounded(d), cur) == Ok(true)
    ensures Search(R, F, id, Bounded(d + 1), cur) == Ok(true)
    decreases d - cur
  {
    var key := StripColon(id);
    if key !in F && !(Truthy(R[key]) && R[key].value in F) {
      DepthMonotone(R, F, R[key].value, d, cur + 1);
    }
  }

  /** A match within some depth bound is a match of the unbounded walk. */
  lemma {:induction false} BoundedMatchIsMatch(R: Remote, F: seq<string>, id: string, d: nat, cur: nat)
    requires Ends(R, StripColon(id)) && cur <= d
    requires Search(R, F, id, Bounded(d), cur) == Ok(true)
    ensures Search(R, F, id, Unbounded, cur) == Ok(true)
    decreases d - cur
  {
    var key := StripColon(id);
    if key !in F && !(Truthy(R[key]) && R[key].value in F) {
      assert Step(R, key) == Some(StripColon(R[key].value));
      StepEnds(R, key);
      BoundedMatchIsMatch(R, F, R[key].value, d, cur + 1);
    }
  }

  /** Without folders nothing is inside. */
  lemma {:induction false} NoFolders(R: Remote, id: string, depth: Depth, cur: nat)
    requires WalkEnds(R, id, depth)
    ensures Search(R, [], id, depth, cur) != Ok(true)
    decreases Measure(R, id, depth, cur)
  {
    var key := StripColon(id);
    if key in R && Truthy(R[key]) && !(depth.Bounded? && cur >= depth.limit) {
      assert Step(R, key) == Some(StripColon(R[key].value));
      if depth.Unbounded? {
        StepEnds(R, key);
      }
      NoFolders(R, R[key].value, depth, cur + 1);
    }
  }

  /** Only the first `:` is removed: `"abc:"` and `"abc"` share a cache entry,
      while `"a:b:"` is looked up as `"ab:"`. */
  lemma ColonExamples()
    ensures StripColon("abc:") == StripColon("abc") == "abc"
    ensures StripColon("a:b:") == "ab:"
  {
    assert StripColon(":") == "" && StripColon("") == "";
    assert StripColon(":b:") == "b:";
  }

  /** A three-level drive: `42` sits in `10`, which sits in `1`. Depth 0 sees
      only `42` and `10`; depth 1 also sees `1`; an unknown id is refused. */
  lemma ThreeLevels()
    ensures
      var R := map["42" := Some("10"), "10" := Some("1"), "1" := None];
      && Search(R, ["1"], "42", Bounded(0), 0) == Ok(false)
      && Search(R, ["1"], "42", Bounded(1), 0) == Ok(true)
      && Search(R, ["1"], "7", Bounded(1), 0) == Err(NoAccess)
  {
  }
}
