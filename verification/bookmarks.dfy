/**
 * The bookmark store of the app component: an in-memory list of saved
 * plans, newest first, written through to one storage slot on every change.
 */
module Bookmarks {
  import opened Types
  import opened Json
  import opened BookmarkCodec

  /** The in-memory list and the text the storage slot holds (`None`: the slot is empty). */
  datatype Store = Store(bookmarks: seq<SavedRecipe>, slot: Option<string>)

  // ---------------------------------------------------------------------
  // Loading and persisting
  // ---------------------------------------------------------------------

  /**
   * Reading the slot at mount time. A missing value and the empty string
   * (both falsy) leave the list empty; any other text is parsed, and `None`
   * stands for a text the parse throws on.
   */
  function Load(slot: Option<string>): (r: Option<seq<SavedRecipe>>)
    ensures slot == None || slot == Some("") ==> r == Some([])
    ensures slot.Some? && slot.value != "" ==> r == Deserialize(slot.value)
  {
    match slot
    case None => Some([])
    case Some(text) => if text == "" then Some([]) else Deserialize(text)
  }

  /** The slot holds exactly the in-memory list: reloading it now would give the same list. */
  predicate Consistent(st: Store)
  {
    Load(st.slot) == Some(st.bookmarks)
  }

  /** The stored text of a list is never empty, so it is never mistaken for a missing value. */
  lemma SerializeNonEmpty(bs: seq<SavedRecipe>)
    ensures Serialize(bs) != "" && Serialize(bs)[0] == '['
  {
  }

  /**
   * The app's mount: the list starts empty and becomes the stored list, if
   * there is one. `None` when the stored text cannot be parsed: the source
   * does not recover from that.
   */
  function Mount(slot: Option<string>): (r: Option<Store>)
    ensures r.Some? ==> r.value.slot == slot && Consistent(r.value)
    ensures r.Some? <==> Load(slot).Some?
    ensures slot == None ==> r == Some(Store([], None))
  {
    match Load(slot)
    case None => None
    case Some(bs) => Some(Store(bs, slot))
  }

  /** `saveBookmarks`: replace the list and write all of it to the slot. */
  function Persist(bs: seq<SavedRecipe>): (st: Store)
    ensures st.bookmarks == bs
    ensures st.slot.Some? && Consistent(st)
  {
    SerializeNonEmpty(bs);
    DeserializeSerialize(bs);
    Store(bs, Some(Serialize(bs)))
  }

  /** A store written by `Persist` reloads as its list after a restart. */
  lemma MountAfterPersist(bs: seq<SavedRecipe>)
    ensures Mount(Persist(bs).slot) == Some(Persist(bs))
  {
  }

  // ---------------------------------------------------------------------
  // Looking up by the weak key
  // ---------------------------------------------------------------------

  /** Some entry of the list has the same key as `p` (the `some` of the saved-state check). */
  function AnySameKey(bs: seq<SavedRecipe>, p: RecipeResponse): (r: bool)
    ensures r <==> exists i :: 0 <= i < |bs| && SameKey(bs[i].plan, p)
  {
    if |bs| == 0 then false
    else if SameKey(bs[0].plan, p) then true
    else
      assert forall i :: 1 <= i < |bs| ==> bs[i] == bs[1..][i - 1];
      AnySameKey(bs[1..], p)
  }

  /** `findIndex` with the weak key: the first entry whose key is that of `p`. */
  function FindIndex(bs: seq<SavedRecipe>, p: RecipeResponse): (r: Option<nat>)
    ensures r.Some? ==> r.value < |bs| && SameKey(bs[r.value].plan, p)
    ensures r.Some? ==> forall k :: 0 <= k < r.value ==> !SameKey(bs[k].plan, p)
    ensures r.None? ==> forall k :: 0 <= k < |bs| ==> !SameKey(bs[k].plan, p)
  {
    if |bs| == 0 then None
    else if SameKey(bs[0].plan, p) then Some(0)
    else
      match FindIndex(bs[1..], p)
      case None => None
      case Some(i) => Some(i + 1)
  }

  /**
   * The key comparison of the toggle reads `dishes[0].name` without a guard,
   * so it throws on a plan without dishes. The scan does not throw when the
   * list is empty, or when the plan has a dish and every entry the scan
   * looks at, up to and including the first match, has one too.
   */
  predicate ScanSafe(bs: seq<SavedRecipe>, p: RecipeResponse)
  {
    && (|bs| == 0 || |p.dishes| > 0)
    && forall i :: 0 <= i < |bs| && (forall k :: 0 <= k < i ==> !SameKey(bs[k].plan, p)) ==>
         |bs[i].plan.dishes| > 0
  }

  /** Every entry has a key of its own. */
  predicate UniqueKeys(bs: seq<SavedRecipe>)
  {
    forall i, j :: 0 <= i < j < |bs| ==> !SameKey(bs[i].plan, bs[j].plan)
  }

  // ---------------------------------------------------------------------
  // Toggle and delete
  // ---------------------------------------------------------------------

  /** `splice(i, 1)`: the list without its `i`-th entry. */
  function RemoveAt(bs: seq<SavedRecipe>, i: nat): (r: seq<SavedRecipe>)
    requires i < |bs|
    ensures |r| == |bs| - 1
    ensures forall k :: 0 <= k < i ==> r[k] == bs[k]
    ensures forall k :: i <= k < |r| ==> r[k] == bs[k + 1]
  {
    bs[..i] + bs[i + 1..]
  }

  /**
   * The bookmark the toggle adds: the plan with its creation time set, the
   * clock rendered in decimal as its identity, and the dish text as its query.
   * The two clock readings are separate calls and may differ.
   */
  function NewBookmark(p: RecipeResponse, query: string, idTime: int, createdTime: int): (r: SavedRecipe)
    ensures SameKey(r.plan, p)
    ensures r.plan.createdAt == Some(createdTime) && r.originalQuery == query
    ensures r.plan.(createdAt := p.createdAt) == p
    ensures ParseNumber(r.id) == Some((idTime, []))
  {
    NumberRoundTrip(idTime, []);
    assert NumberText(idTime) + [] == NumberText(idTime);
    SavedRecipe(p.(createdAt := Some(createdTime)), NumberText(idTime), query)
  }

  /**
   * The list after the bookmark button is pressed for plan `p`: the first
   * entry with the same key is removed; if there is none, a new bookmark is
   * put in front.
   */
  function Toggle(bs: seq<SavedRecipe>, p: RecipeResponse, query: string, idTime: int, createdTime: int)
    : (r: seq<SavedRecipe>)
    requires ScanSafe(bs, p)
    ensures AnySameKey(bs, p) ==> |r| == |bs| - 1
    ensures AnySameKey(bs, p) ==>
      exists i :: 0 <= i < |bs| && SameKey(bs[i].plan, p) && (forall k :: 0 <= k < i ==> !SameKey(bs[k].plan, p))
                  && r == bs[..i] + bs[i + 1..]
    ensures !AnySameKey(bs, p) ==> |r| == |bs| + 1 && r[1..] == bs
    ensures !AnySameKey(bs, p) ==> r[0] == NewBookmark(p, query, idTime, createdTime)
  {
    match FindIndex(bs, p)
    case Some(i) => RemoveAt(bs, i)
    case None => [NewBookmark(p, query, idTime, createdTime)] + bs
  }

  /** `filter(b => b.id !== id)`: every entry with that identity goes, the rest stay in order. */
  function Delete(bs: seq<SavedRecipe>, id: string): (r: seq<SavedRecipe>)
    ensures forall b :: b in r <==> b in bs && b.id != id
    ensures |r| <= |bs|
    ensures (forall k :: 0 <= k < |bs| ==> bs[k].id != id) ==> r == bs
  {
    if |bs| == 0 then []
    else if bs[0].id == id then Delete(bs[1..], id)
    else [bs[0]] + Delete(bs[1..], id)
  }

  // ---------------------------------------------------------------------
  // Properties
  // ---------------------------------------------------------------------

  /** The saved-state check and the toggle agree: a plan shows as saved exactly when a toggle would remove it. */
  lemma SavedIffToggleRemoves(bs: seq<SavedRecipe>, p: RecipeResponse)
    ensures AnySameKey(bs, p) <==> FindIndex(bs, p).Some?
  {
  }

  /** Toggling a plan, then toggling a plan with the same key, gives back the list that was there before. */
  lemma ToggleTwiceRestores(bs: seq<SavedRecipe>, p: RecipeResponse, q: RecipeResponse,
                            query: string, query': string, t1: int, t2: int, t3: int, t4: int)
    requires ScanSafe(bs, p) && |p.dishes| > 0
    requires !AnySameKey(bs, p)
    requires SameKey(q, p)
    ensures ScanSafe(Toggle(bs, p, query, t1, t2), q)
    ensures Toggle(Toggle(bs, p, query, t1, t2), q, query', t3, t4) == bs
  {
    var once := Toggle(bs, p, query, t1, t2);
    assert SameKey(once[0].plan, q);
    assert FindIndex(once, q) == Some(0);
    assert once[1..] == bs;
  }

  /** With unique keys, a toggle flips whether the list holds the plan's key. */
  lemma ToggleFlipsKey(bs: seq<SavedRecipe>, p: RecipeResponse, query: string, idTime: int, createdTime: int)
    requires ScanSafe(bs, p)
    requires UniqueKeys(bs)
    ensures AnySameKey(Toggle(bs, p, query, idTime, createdTime), p) == !AnySameKey(bs, p)
  {
    var r := Toggle(bs, p, query, idTime, createdTime);
    match FindIndex(bs, p)
    case Some(i) =>
      forall j | 0 <= j < |r|
        ensures !SameKey(r[j].plan, p)
      {
        var j' := if j < i then j else j + 1;
        assert r[j] == bs[j'];
        assert !SameKey(bs[i].plan, bs[j'].plan) || !SameKey(bs[j'].plan, bs[i].plan);
      }
    case None =>
      assert SameKey(r[0].plan, p);
  }

  /** A toggle keeps every key held by at most one entry. */
  lemma ToggleKeepsUniqueKeys(bs: seq<SavedRecipe>, p: RecipeResponse, query: string, idTime: int, createdTime: int)
    requires ScanSafe(bs, p)
    requires UniqueKeys(bs)
    ensures UniqueKeys(Toggle(bs, p, query, idTime, createdTime))
  {
    var r := Toggle(bs, p, query, idTime, createdTime);
    match FindIndex(bs, p)
    case Some(i) =>
      forall a, b | 0 <= a < b < |r|
        ensures !SameKey(r[a].plan, r[b].plan)
      {
        var a' := if a < i then a else a + 1;
        var b' := if b < i then b else b + 1;
        assert r[a] == bs[a'] && r[b] == bs[b'];
      }
    case None =>
      forall a, b | 0 <= a < b < |r|
        ensures !SameKey(r[a].plan, r[b].plan)
      {
        if a == 0 {
          assert r[b] == bs[b - 1];
        } else {
          assert r[a] == bs[a - 1] && r[b] == bs[b - 1];
        }
      }
  }

  /** Deleting keeps the relative order: deleting from a concatenation deletes from each part. */
  lemma {:induction false} DeleteAppend(a: seq<SavedRecipe>, b: seq<SavedRecipe>, id: string)
    ensures Delete(a + b, id) == Delete(a, id) + Delete(b, id)
  {
    if |a| > 0 {
      assert (a + b)[1..] == a[1..] + b;
      DeleteAppend(a[1..], b, id);
    } else {
      assert a + b == b;
    }
  }

  /** Deleting twice by the same identity is deleting once. */
  lemma DeleteIdempotent(bs: seq<SavedRecipe>, id: string)
    ensures Delete(Delete(bs, id), id) == Delete(bs, id)
  {
    var r := Delete(bs, id);
    assert forall k :: 0 <= k < |r| ==> r[k] in r;
  }

  /** A delete keeps every key held by at most one entry. */
  lemma {:induction false} DeleteKeepsUniqueKeys(bs: seq<SavedRecipe>, id: string)
    requires UniqueKeys(bs)
    ensures UniqueKeys(Delete(bs, id))
  {
    if |bs| > 0 {
      var tail := bs[1..];
      assert UniqueKeys(tail) by {
        forall i, j | 0 <= i < j < |tail|
          ensures !SameKey(tail[i].plan, tail[j].plan)
        {
          assert tail[i] == bs[i + 1] && tail[j] == bs[j + 1];
        }
      }
      DeleteKeepsUniqueKeys(tail, id);
      if bs[0].id != id {
        var r := Delete(bs, id);
        var rt := Delete(tail, id);
        assert r == [bs[0]] + rt;
        forall j | 0 < j < |r|
          ensures !SameKey(r[0].plan, r[j].plan)
        {
          assert r[j] == rt[j - 1];
          assert rt[j - 1] in rt;
          var k :| 0 <= k < |tail| && tail[k] == rt[j - 1];
          assert tail[k] == bs[k + 1];
        }
      }
    }
  }

  /** Bookmarks added at different clock readings get different identities. */
  lemma DistinctTimesGiveDistinctIds(p: RecipeResponse, q: RecipeResponse, query: string, query': string,
                                     t1: int, t2: int, c1: int, c2: int)
    requires t1 != t2
    ensures NewBookmark(p, query, t1, c1).id != NewBookmark(q, query', t2, c2).id
  {
    NumberTextInjective(t1, t2);
  }
}
