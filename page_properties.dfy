/**
 * What one page of `process_object_versions` does to the accumulators,
 * stated per key: every total grows by the number and the summed size of
 * exactly the versions that map to that key.
 */
module PageProperties {
  import opened Text
  import opened WorkspaceIndex
  import opened Aggregation

  function SizeSum(vs: seq<VerDoc>): int {
    if vs == [] then 0 else SizeSum(vs[..|vs| - 1]) + vs[|vs| - 1].size
  }

  /** The count and byte total of a run of versions. */
  function Tally(vs: seq<VerDoc>): Counts {
    Counts(|vs|, SizeSum(vs))
  }

  lemma TallySnoc(vs: seq<VerDoc>, v: VerDoc)
    ensures Tally(vs + [v]) == Tally(vs).WithVersion(v.size)
  {
    assert (vs + [v])[..|vs|] == vs;
  }

  /** The versions of `vs` counted under user key `k`, in order. */
  function WithUserKey(page: Page, vs: seq<VerDoc>, k: UserKey): (r: seq<VerDoc>)
    ensures forall v | v in r :: v in vs && OnPage(page, v) && UserKeyOf(page, v) == k
    ensures forall v | v in vs && OnPage(page, v) && UserKeyOf(page, v) == k :: v in r
  {
    if vs == [] then []
    else
      var v := vs[|vs| - 1];
      var prev := WithUserKey(page, vs[..|vs| - 1], k);
      assert vs == vs[..|vs| - 1] + [v];
      if OnPage(page, v) && UserKeyOf(page, v) == k then prev + [v] else prev
  }

  /** The versions of `vs` counted under workspace key `k`, in order. */
  function WithWsKey(page: Page, vs: seq<VerDoc>, k: WsKey): (r: seq<VerDoc>)
    ensures forall v | v in r :: v in vs && OnPage(page, v) && WsKeyOf(page, v) == k
    ensures forall v | v in vs && OnPage(page, v) && WsKeyOf(page, v) == k :: v in r
  {
    if vs == [] then []
    else
      var v := vs[|vs| - 1];
      var prev := WithWsKey(page, vs[..|vs| - 1], k);
      assert vs == vs[..|vs| - 1] + [v];
      if OnPage(page, v) && WsKeyOf(page, v) == k then prev + [v] else prev
  }

  /** The versions of `vs` counted under type key `k`: only types whose prefix is included. */
  function WithTypeKey(page: Page, vs: seq<VerDoc>, inclTypes: set<string>, k: TypeKey): (r: seq<VerDoc>)
    ensures forall v | v in r :: v in vs && Typed(page, v, inclTypes) && TypeKeyOf(page, v) == k
    ensures forall v | v in vs && Typed(page, v, inclTypes) && TypeKeyOf(page, v) == k :: v in r
  {
    if vs == [] then []
    else
      var v := vs[|vs| - 1];
      var prev := WithTypeKey(page, vs[..|vs| - 1], inclTypes, k);
      assert vs == vs[..|vs| - 1] + [v];
      if Typed(page, v, inclTypes) && TypeKeyOf(page, v) == k then prev + [v] else prev
  }

  /** The user totals after a page: old total plus the tally of the versions mapped to that key. */
  lemma {:induction false} FoldUsersTotals(m: map<UserKey, Counts>, page: Page, vs: seq<VerDoc>, k: UserKey)
    ensures Get(FoldUsers(m, page, vs), k) == Get(m, k).Plus(Tally(WithUserKey(page, vs, k)))
  {
    if vs != [] {
      var init, v := vs[..|vs| - 1], vs[|vs| - 1];
      assert vs == init + [v];
      FoldUsersTotals(m, page, init, k);
      UserFilterStep(page, init, v, k);
      UserFoldStep(m, page, init, v, k);
      TallySnoc(WithUserKey(page, init, k), v);
    }
  }

  /** One version of the user filter: it is kept exactly when it maps to `k`. */
  lemma UserFilterStep(page: Page, init: seq<VerDoc>, v: VerDoc, k: UserKey)
    ensures OnPage(page, v) && UserKeyOf(page, v) == k ==> WithUserKey(page, init + [v], k) == WithUserKey(page, init, k) + [v]
    ensures !(OnPage(page, v) && UserKeyOf(page, v) == k) ==> WithUserKey(page, init + [v], k) == WithUserKey(page, init, k)
  {
    assert (init + [v])[..|init|] == init;
  }

  /** One version of the user fold: it adds to key `k` exactly when it maps to `k`. */
  lemma UserFoldStep(m: map<UserKey, Counts>, page: Page, init: seq<VerDoc>, v: VerDoc, k: UserKey)
    ensures OnPage(page, v) && UserKeyOf(page, v) == k ==> Get(FoldUsers(m, page, init + [v]), k) == Get(FoldUsers(m, page, init), k).WithVersion(v.size)
    ensures !(OnPage(page, v) && UserKeyOf(page, v) == k) ==> Get(FoldUsers(m, page, init + [v]), k) == Get(FoldUsers(m, page, init), k)
  {
    assert (init + [v])[..|init|] == init;
  }

  /**
   * The workspace totals after a page: old total plus the tally of the
   * versions mapped to that key; other workspaces are untouched.
   */
  lemma {:induction false} FoldWorkspacesTotals(m: map<WsKey, Counts>, page: Page, vs: seq<VerDoc>, k: WsKey)
    ensures Get(FoldWorkspaces(m, page, vs), k) == Get(m, k).Plus(Tally(WithWsKey(page, vs, k)))
    ensures k.0 != page.ws ==> Get(FoldWorkspaces(m, page, vs), k) == Get(m, k)
  {
    if vs != [] {
      var init, v := vs[..|vs| - 1], vs[|vs| - 1];
      assert vs == init + [v];
      FoldWorkspacesTotals(m, page, init, k);
      WsFilterStep(page, init, v, k);
      WsFoldStep(m, page, init, v, k);
      TallySnoc(WithWsKey(page, init, k), v);
    }
  }

  /** One version of the workspace filter: it is kept exactly when it maps to `k`. */
  lemma WsFilterStep(page: Page, init: seq<VerDoc>, v: VerDoc, k: WsKey)
    ensures OnPage(page, v) && WsKeyOf(page, v) == k ==> WithWsKey(page, init + [v], k) == WithWsKey(page, init, k) + [v]
    ensures !(OnPage(page, v) && WsKeyOf(page, v) == k) ==> WithWsKey(page, init + [v], k) == WithWsKey(page, init, k)
  {
    assert (init + [v])[..|init|] == init;
  }

  /** One version of the workspace fold: it adds to key `k` exactly when it maps to `k`. */
  lemma WsFoldStep(m: map<WsKey, Counts>, page: Page, init: seq<VerDoc>, v: VerDoc, k: WsKey)
    ensures OnPage(page, v) && WsKeyOf(page, v) == k ==> Get(FoldWorkspaces(m, page, init + [v]), k) == Get(FoldWorkspaces(m, page, init), k).WithVersion(v.size)
    ensures !(OnPage(page, v) && WsKeyOf(page, v) == k) ==> Get(FoldWorkspaces(m, page, init + [v]), k) == Get(FoldWorkspaces(m, page, init), k)
  {
    assert (init + [v])[..|init|] == init;
  }

  /**
   * The type totals after a page: old total plus the tally of the versions
   * mapped to that key; a type prefix outside `inclTypes` is never counted.
   */
  lemma {:induction false} FoldTypesTotals(m: map<TypeKey, Counts>, page: Page, vs: seq<VerDoc>, inclTypes: set<string>, k: TypeKey)
    ensures Get(FoldTypes(m, page, vs, inclTypes), k) == Get(m, k).Plus(Tally(WithTypeKey(page, vs, inclTypes, k)))
    ensures k.1 !in inclTypes ==> WithTypeKey(page, vs, inclTypes, k) == []
  {
    if vs != [] {
      var init, v := vs[..|vs| - 1], vs[|vs| - 1];
      assert vs == init + [v];
      FoldTypesTotals(m, page, init, inclTypes, k);
      TypeFilterStep(page, init, v, inclTypes, k);
      TypeFoldStep(m, page, init, v, inclTypes, k);
      TallySnoc(WithTypeKey(page, init, inclTypes, k), v);
    }
  }

  /** One version of the type filter: it is kept exactly when it maps to `k`. */
  lemma TypeFilterStep(page: Page, init: seq<VerDoc>, v: VerDoc, inclTypes: set<string>, k: TypeKey)
    ensures Typed(page, v, inclTypes) && TypeKeyOf(page, v) == k ==> WithTypeKey(page, init + [v], inclTypes, k) == WithTypeKey(page, init, inclTypes, k) + [v]
    ensures !(Typed(page, v, inclTypes) && TypeKeyOf(page, v) == k) ==> WithTypeKey(page, init + [v], inclTypes, k) == WithTypeKey(page, init, inclTypes, k)
  {
    assert (init + [v])[..|init|] == init;
  }

  /** One version of the type fold: it adds to key `k` exactly when it maps to `k`. */
  lemma TypeFoldStep(m: map<TypeKey, Counts>, page: Page, init: seq<VerDoc>, v: VerDoc, inclTypes: set<string>, k: TypeKey)
    ensures Typed(page, v, inclTypes) && TypeKeyOf(page, v) == k ==> Get(FoldTypes(m, page, init + [v], inclTypes), k) == Get(FoldTypes(m, page, init, inclTypes), k).WithVersion(v.size)
    ensures !(Typed(page, v, inclTypes) && TypeKeyOf(page, v) == k) ==> Get(FoldTypes(m, page, init + [v], inclTypes), k) == Get(FoldTypes(m, page, init, inclTypes), k)
  {
    assert (init + [v])[..|init|] == init;
  }

  /** Versions whose object is not on the page are skipped: folding only the joined ones gives the same result. */
  lemma {:induction false} FoldPageSkipsOrphans(a: Aggregates, page: Page, vs: seq<VerDoc>, inclTypes: set<string>, listTypes: set<string>)
    ensures FoldPage(a, page, vs, inclTypes, listTypes) == FoldPage(a, page, Joined(page, vs), inclTypes, listTypes)
  {
    if vs != [] {
      var v := vs[|vs| - 1];
      var prev := Joined(page, vs[..|vs| - 1]);
      FoldPageSkipsOrphans(a, page, vs[..|vs| - 1], inclTypes, listTypes);
      if OnPage(page, v) {
        assert (prev + [v])[..|prev|] == prev;
      }
    }
  }

  /** The listing keys a run of versions may touch. */
  function ListedKeys(page: Page, vs: seq<VerDoc>, listTypes: set<string>): set<string> {
    set v | v in vs && Listed(page, v, listTypes) :: ListingKey(v.ws, v.id)
  }

  /**
   * The listing after a page: old entries stay and never lose version
   * number; every listed version has an entry at least as new; keys of no
   * listed version are untouched.
   */
  lemma FoldListingKeepsNewest(m: map<string, Listing>, page: Page, vs: seq<VerDoc>, listTypes: set<string>)
    ensures var r := FoldListing(m, page, vs, listTypes);
      && (forall key | key in m :: key in r && r[key].ver >= m[key].ver)
      && (forall v | v in vs && Listed(page, v, listTypes) ::
            ListingKey(v.ws, v.id) in r && r[ListingKey(v.ws, v.id)].ver >= v.ver)
      && (forall key | key !in ListedKeys(page, vs, listTypes) ::
            (key in r <==> key in m) && (key in r ==> r[key] == m[key]))
  {
    FoldListingKeepsOld(m, page, vs, listTypes);
    FoldListingCoversListed(m, page, vs, listTypes);
    FoldListingOnlyListed(m, page, vs, listTypes);
  }

  lemma {:induction false} FoldListingKeepsOld(m: map<string, Listing>, page: Page, vs: seq<VerDoc>, listTypes: set<string>)
    ensures var r := FoldListing(m, page, vs, listTypes);
      forall key | key in m :: key in r && r[key].ver >= m[key].ver
  {
    if vs != [] {
      FoldListingKeepsOld(m, page, vs[..|vs| - 1], listTypes);
    }
  }

  lemma {:induction false} FoldListingCoversListed(m: map<string, Listing>, page: Page, vs: seq<VerDoc>, listTypes: set<string>)
    ensures var r := FoldListing(m, page, vs, listTypes);
      forall v | v in vs && Listed(page, v, listTypes) :: ListingKey(v.ws, v.id) in r && r[ListingKey(v.ws, v.id)].ver >= v.ver
  {
    if vs != [] {
      var init, v := vs[..|vs| - 1], vs[|vs| - 1];
      FoldListingCoversListed(m, page, init, listTypes);
      assert vs == init + [v];
    }
  }

  lemma {:induction false} FoldListingOnlyListed(m: map<string, Listing>, page: Page, vs: seq<VerDoc>, listTypes: set<string>)
    ensures var r := FoldListing(m, page, vs, listTypes);
      forall key | key !in ListedKeys(page, vs, listTypes) :: (key in r <==> key in m) && (key in r ==> r[key] == m[key])
  {
    if vs != [] {
      var init, v := vs[..|vs| - 1], vs[|vs| - 1];
      FoldListingOnlyListed(m, page, init, listTypes);
      assert vs == init + [v];
      assert ListedKeys(page, init, listTypes) <= ListedKeys(page, vs, listTypes);
    }
  }


  /** Every entry the page writes is built from a listed version with that key, from the version's own object. */
  lemma {:induction false} FoldListingEntriesFromVersions(m: map<string, Listing>, page: Page, vs: seq<VerDoc>, listTypes: set<string>)
    ensures var r := FoldListing(m, page, vs, listTypes);
      forall key | key in r && !(key in m && r[key] == m[key]) ::
        exists v | v in vs && Listed(page, v, listTypes) && ListingKey(v.ws, v.id) == key ::
          r[key] == ListingOf(page.objs[v.id], v)
  {
    if vs != [] {
      var init, v := vs[..|vs| - 1], vs[|vs| - 1];
      FoldListingEntriesFromVersions(m, page, init, listTypes);
      assert vs == init + [v];
      var prev := FoldListing(m, page, init, listTypes);
      var r := FoldListing(m, page, vs, listTypes);
      if Listed(page, v, listTypes) {
        forall key | key in r && !(key in m && r[key] == m[key])
          ensures exists w | w in vs && Listed(page, w, listTypes) && ListingKey(w.ws, w.id) == key ::
            r[key] == ListingOf(page.objs[w.id], w)
        {
          if key == ListingKey(v.ws, v.id) && r[key] == ListingOf(page.objs[v.id], v) {
            assert v in vs;
          } else {
            var w :| w in init && Listed(page, w, listTypes) && ListingKey(w.ws, w.id) == key &&
              prev[key] == ListingOf(page.objs[w.id], w);
            assert w in vs;
          }
        }
      }
    }
  }

  /** Every type total has a user total under the same owner, visibility and deleted state. */
  predicate TypesCovered(a: Aggregates) {
    forall k | k in a.types :: (k.0, k.2, k.3) in a.users
  }

  /** A page keeps every type total backed by a user total. */
  lemma {:induction false} FoldPageKeepsTypesCovered(a: Aggregates, page: Page, vs: seq<VerDoc>, inclTypes: set<string>, listTypes: set<string>)
    requires TypesCovered(a)
    ensures TypesCovered(FoldPage(a, page, vs, inclTypes, listTypes))
  {
    if vs != [] {
      FoldPageKeepsTypesCovered(a, page, vs[..|vs| - 1], inclTypes, listTypes);
    }
  }

  /**
   * The versions a non-empty page counts are exactly the versions of the
   * page's workspace with object id in `(lo, hi]` whose object is among the
   * page's objects, each as many times as the store holds it, and the
   * returned number is how many there are.
   */
  lemma PageCountsJoinedVersions(a: Aggregates, index: map<int, WsEntry>, objs: seq<ObjDoc>, versions: seq<VerDoc>,
                                 inclTypes: set<string>, listTypes: set<string>, lo: int, hi: int)
    requires objs != [] && PageReady(index, objs)
    ensures var page := PageOf(index, objs);
      var counted := Joined(page, VersionQuery(versions, page.ws, lo, hi));
      && PageResult(a, index, objs, versions, inclTypes, listTypes, lo, hi).1 == |counted|
      && (forall v :: v in counted <==>
            v in versions && v.ws == objs[|objs| - 1].ws && lo < v.id <= hi && exists o | o in objs :: o.id == v.id)
      && (forall v :: multiset(counted)[v] ==
            if v.ws == page.ws && lo < v.id <= hi && v.id in page.objs then multiset(versions)[v] else 0)
  {
    var page := PageOf(index, objs);
    JoinedCounts(page, VersionQuery(versions, page.ws, lo, hi));
    VersionQueryCounts(versions, page.ws, lo, hi);
    forall v | v in versions && v.ws == objs[|objs| - 1].ws && lo < v.id <= hi && exists o | o in objs :: o.id == v.id
      ensures v.id in page.objs
    {
      var o :| o in objs && o.id == v.id;
    }
  }
}
