/**
 * What the whole scan of `process_objects` promises about workspaces it
 * skips and about the shape of the accumulators.
 */
module ScanProperties {
  import opened Text
  import opened WorkspaceIndex
  import opened Paging
  import opened Aggregation
  import opened PageProperties
  import opened ObjectScan

  /** The workspaces of `order` that are not excluded, in order. */
  function NotExcluded(order: seq<int>, excludeWs: set<int>): (r: seq<int>)
    ensures forall w | w in r :: w in order && w !in excludeWs
    ensures forall w | w in order && w !in excludeWs :: w in r
  {
    if order == [] then []
    else
      var prev := NotExcluded(order[..|order| - 1], excludeWs);
      var w := order[|order| - 1];
      if w in excludeWs then prev else prev + [w]
  }

  /** Skipping the excluded workspaces up front gives the same accumulators: they contribute nothing. */
  lemma {:induction false} ExcludedContributeNothing(a: Aggregates, index: map<int, WsEntry>, order: seq<int>, excludeWs: set<int>,
                                                     objects: seq<ObjDoc>, versions: seq<VerDoc>, inclTypes: set<string>, listTypes: set<string>)
    requires forall w | w in order :: w in index
    ensures RunFold(a, index, order, excludeWs, objects, versions, inclTypes, listTypes)
      == RunFold(a, index, NotExcluded(order, excludeWs), excludeWs, objects, versions, inclTypes, listTypes)
  {
    if order != [] {
      var init, w := order[..|order| - 1], order[|order| - 1];
      var prev := NotExcluded(init, excludeWs);
      ExcludedContributeNothing(a, index, init, excludeWs, objects, versions, inclTypes, listTypes);
      if w !in excludeWs {
        assert (prev + [w])[..|prev|] == prev;
      }
    }
  }

  /** Whether a listing key names an object of workspace `w`. */
  ghost predicate OwnedBy(key: string, w: int) {
    exists id :: key == ListingKey(w, id)
  }

  /** The listing entries of the objects of workspace `w`. */
  ghost function OwnListing(listing: map<string, Listing>, w: int): (r: map<string, Listing>)
    ensures forall key :: key in r <==> key in listing && OwnedBy(key, w)
    ensures forall key | key in r :: r[key] == listing[key]
  {
    map key | key in listing && OwnedBy(key, w) :: listing[key]
  }

  /** Rewriting only keys that `w` does not own leaves the entries of `w` as they were. */
  lemma OwnListingUntouched(before: map<string, Listing>, after: map<string, Listing>, written: set<string>, w: int)
    requires forall key | key !in written :: (key in after <==> key in before) && (key in after ==> after[key] == before[key])
    requires forall key | OwnedBy(key, w) :: key !in written
    ensures OwnListing(after, w) == OwnListing(before, w)
  {
    assert forall key :: key in OwnListing(after, w) <==> key in OwnListing(before, w);
  }

  /** The totals of workspace `w`, for deleted and for standing objects. */
  function WsTotalsOf(a: Aggregates, w: int): (Counts, Counts) {
    (Get(a.workspaces, (w, Del)), Get(a.workspaces, (w, Std)))
  }

  /** Two accumulator states agree on one workspace's totals and listing entries. */
  ghost predicate SameForWorkspace(a: Aggregates, b: Aggregates, w: int) {
    WsTotalsOf(a, w) == WsTotalsOf(b, w) && OwnListing(a.listing, w) == OwnListing(b.listing, w)
  }

  /** One page of workspace `ws` leaves the totals and the listing entries of every other workspace alone. */
  lemma PageLeavesOthers(a: Aggregates, index: map<int, WsEntry>, ws: int, lim: int, objects: seq<ObjDoc>,
                         versions: seq<VerDoc>, inclTypes: set<string>, listTypes: set<string>, w: int)
    requires ws in index && w != ws
    ensures SameForWorkspace(a, PageResult(a, index, PageObjects(objects, ws, lim), versions, inclTypes, listTypes, lim - LIMIT, lim).0, w)
  {
    var objs := PageObjects(objects, ws, lim);
    if objs != [] {
      var page := PageOf(index, objs);
      var vs := VersionQuery(versions, ws, lim - LIMIT, lim);
      var r := FoldPage(a, page, vs, inclTypes, listTypes);
      FoldWorkspacesTotals(a.workspaces, page, vs, (w, Del));
      FoldWorkspacesTotals(a.workspaces, page, vs, (w, Std));
      var listed := ListedKeys(page, vs, listTypes);
      FoldListingKeepsNewest(a.listing, page, vs, listTypes);
      forall key | OwnedBy(key, w)
        ensures key !in listed
      {
        var id :| key == ListingKey(w, id);
        if key in listed {
          var v :| v in vs && Listed(page, v, listTypes) && ListingKey(v.ws, v.id) == key;
          ListingKeyInjective(v.ws, v.id, w, id);
        }
      }
      OwnListingUntouched(a.listing, r.listing, listed, w);
    }
  }

  lemma {:induction false} PagesLeaveOthers(a: Aggregates, index: map<int, WsEntry>, ws: int, top: int, objects: seq<ObjDoc>,
                                            versions: seq<VerDoc>, inclTypes: set<string>, listTypes: set<string>, w: int)
    requires ws in index && w != ws
    decreases top
    ensures SameForWorkspace(a, PagesFold(a, index, ws, top, objects, versions, inclTypes, listTypes), w)
  {
    if top > 0 {
      var prev := PagesFold(a, index, ws, top - LIMIT, objects, versions, inclTypes, listTypes);
      PagesLeaveOthers(a, index, ws, top - LIMIT, objects, versions, inclTypes, listTypes, w);
      PageLeavesOthers(prev, index, ws, top, objects, versions, inclTypes, listTypes, w);
    }
  }

  /**
   * A workspace that is excluded, or not in the index order at all, ends
   * the scan with the totals and listing entries it started with.
   */
  lemma {:induction false} SkippedWorkspaceUntouched(a: Aggregates, index: map<int, WsEntry>, order: seq<int>, excludeWs: set<int>,
                                                     objects: seq<ObjDoc>, versions: seq<VerDoc>, inclTypes: set<string>, listTypes: set<string>, w: int)
    requires forall x | x in order :: x in index
    requires w in excludeWs || w !in order
    ensures SameForWorkspace(a, RunFold(a, index, order, excludeWs, objects, versions, inclTypes, listTypes), w)
  {
    if order != [] {
      var init, ws := order[..|order| - 1], order[|order| - 1];
      assert order == init + [ws];
      var prev := RunFold(a, index, init, excludeWs, objects, versions, inclTypes, listTypes);
      SkippedWorkspaceUntouched(a, index, init, excludeWs, objects, versions, inclTypes, listTypes, w);
      if ws !in excludeWs {
        PagesLeaveOthers(prev, index, ws, LastLimit(index[ws].numObj), objects, versions, inclTypes, listTypes, w);
      }
    }
  }

  /** Every type total of the scan is backed by a user total of the same owner, visibility and deleted state. */
  lemma {:induction false} ScanKeepsTypesCovered(a: Aggregates, index: map<int, WsEntry>, order: seq<int>, excludeWs: set<int>,
                                                 objects: seq<ObjDoc>, versions: seq<VerDoc>, inclTypes: set<string>, listTypes: set<string>)
    requires forall x | x in order :: x in index
    requires TypesCovered(a)
    ensures TypesCovered(RunFold(a, index, order, excludeWs, objects, versions, inclTypes, listTypes))
  {
    if order != [] {
      var init, ws := order[..|order| - 1], order[|order| - 1];
      ScanKeepsTypesCovered(a, index, init, excludeWs, objects, versions, inclTypes, listTypes);
      if ws !in excludeWs {
        PagesKeepTypesCovered(RunFold(a, index, init, excludeWs, objects, versions, inclTypes, listTypes),
                              index, ws, LastLimit(index[ws].numObj), objects, versions, inclTypes, listTypes);
      }
    }
  }

  lemma {:induction false} PagesKeepTypesCovered(a: Aggregates, index: map<int, WsEntry>, ws: int, top: int, objects: seq<ObjDoc>,
                                                 versions: seq<VerDoc>, inclTypes: set<string>, listTypes: set<string>)
    requires ws in index && TypesCovered(a)
    decreases top
    ensures TypesCovered(PagesFold(a, index, ws, top, objects, versions, inclTypes, listTypes))
  {
    if top > 0 {
      var lim := top;
      var prev := PagesFold(a, index, ws, top - LIMIT, objects, versions, inclTypes, listTypes);
      PagesKeepTypesCovered(a, index, ws, top - LIMIT, objects, versions, inclTypes, listTypes);
      var objs := PageObjects(objects, ws, lim);
      if objs != [] {
        FoldPageKeepsTypesCovered(prev, PageOf(index, objs), VersionQuery(versions, ws, lim - LIMIT, lim), inclTypes, listTypes);
      }
    }
  }
}
