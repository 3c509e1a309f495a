/**
 * The totals of the whole scan of `process_objects`: after every
 * workspace and every page, each accumulator key holds the count and the
 * summed size of exactly the versions counted under it, and the listing
 * holds for every listed version an entry at least as new.
 */
module ScanTotals {
  import opened WorkspaceIndex
  import opened Paging
  import opened Aggregation
  import opened PageProperties
  import opened ObjectScan

  lemma {:induction false} TallyAppend(xs: seq<VerDoc>, ys: seq<VerDoc>)
    ensures Tally(xs + ys) == Tally(xs).Plus(Tally(ys))
  {
    if ys != [] {
      var init, v := ys[..|ys| - 1], ys[|ys| - 1];
      assert ys == init + [v];
      assert xs + ys == (xs + init) + [v];
      TallyAppend(xs, init);
      TallySnoc(xs + init, v);
      TallySnoc(init, v);
    } else {
      assert xs + ys == xs;
    }
  }

  /** Adding two runs one after the other is adding their concatenation. */
  lemma PlusTallies(c: Counts, xs: seq<VerDoc>, ys: seq<VerDoc>)
    ensures c.Plus(Tally(xs)).Plus(Tally(ys)) == c.Plus(Tally(xs + ys))
  {
    TallyAppend(xs, ys);
  }

  lemma PlusZero(c: Counts)
    ensures c.Plus(Tally([])) == c
  {
  }

  /*
   * The versions counted under a user key: on one page (none when the
   * page has no objects), on the pages of one workspace, and in the whole
   * scan, in the order the scan counts them.
   */

  function PageUserVersions(index: map<int, WsEntry>, objs: seq<ObjDoc>, versions: seq<VerDoc>, lo: int, hi: int, k: UserKey): seq<VerDoc>
    requires PageReady(index, objs)
  {
    if objs == [] then []
    else
      var page := PageOf(index, objs);
      WithUserKey(page, VersionQuery(versions, page.ws, lo, hi), k)
  }

  function PagesUserVersions(index: map<int, WsEntry>, ws: int, top: int, objects: seq<ObjDoc>, versions: seq<VerDoc>, k: UserKey): seq<VerDoc>
    requires ws in index
    decreases top
  {
    if top <= 0 then []
    else
      PagesUserVersions(index, ws, top - LIMIT, objects, versions, k)
        + PageUserVersions(index, PageObjects(objects, ws, top), versions, top - LIMIT, top, k)
  }

  function ScanUserVersions(index: map<int, WsEntry>, order: seq<int>, excludeWs: set<int>, objects: seq<ObjDoc>,
                            versions: seq<VerDoc>, k: UserKey): seq<VerDoc>
    requires forall w | w in order :: w in index
  {
    if order == [] then []
    else
      var prev := ScanUserVersions(index, order[..|order| - 1], excludeWs, objects, versions, k);
      var w := order[|order| - 1];
      if w in excludeWs then prev
      else prev + PagesUserVersions(index, w, LastLimit(index[w].numObj), objects, versions, k)
  }

  /* The versions counted under a workspace key, page by page and workspace by workspace. */

  function PageWsVersions(index: map<int, WsEntry>, objs: seq<ObjDoc>, versions: seq<VerDoc>, lo: int, hi: int, k: WsKey): seq<VerDoc>
    requires PageReady(index, objs)
  {
    if objs == [] then []
    else
      var page := PageOf(index, objs);
      WithWsKey(page, VersionQuery(versions, page.ws, lo, hi), k)
  }

  function PagesWsVersions(index: map<int, WsEntry>, ws: int, top: int, objects: seq<ObjDoc>, versions: seq<VerDoc>, k: WsKey): seq<VerDoc>
    requires ws in index
    decreases top
  {
    if top <= 0 then []
    else
      PagesWsVersions(index, ws, top - LIMIT, objects, versions, k)
        + PageWsVersions(index, PageObjects(objects, ws, top), versions, top - LIMIT, top, k)
  }

  function ScanWsVersions(index: map<int, WsEntry>, order: seq<int>, excludeWs: set<int>, objects: seq<ObjDoc>,
                          versions: seq<VerDoc>, k: WsKey): seq<VerDoc>
    requires forall w | w in order :: w in index
  {
    if order == [] then []
    else
      var prev := ScanWsVersions(index, order[..|order| - 1], excludeWs, objects, versions, k);
      var w := order[|order| - 1];
      if w in excludeWs then prev
      else prev + PagesWsVersions(index, w, LastLimit(index[w].numObj), objects, versions, k)
  }

  /* The versions counted under a type key, page by page and workspace by workspace. */

  function PageTypeVersions(index: map<int, WsEntry>, objs: seq<ObjDoc>, versions: seq<VerDoc>, inclTypes: set<string>,
                            lo: int, hi: int, k: TypeKey): seq<VerDoc>
    requires PageReady(index, objs)
  {
    if objs == [] then []
    else
      var page := PageOf(index, objs);
      WithTypeKey(page, VersionQuery(versions, page.ws, lo, hi), inclTypes, k)
  }

  function PagesTypeVersions(index: map<int, WsEntry>, ws: int, top: int, objects: seq<ObjDoc>, versions: seq<VerDoc>,
                             inclTypes: set<string>, k: TypeKey): seq<VerDoc>
    requires ws in index
    decreases top
  {
    if top <= 0 then []
    else
      PagesTypeVersions(index, ws, top - LIMIT, objects, versions, inclTypes, k)
        + PageTypeVersions(index, PageObjects(objects, ws, top), versions, inclTypes, top - LIMIT, top, k)
  }

  function ScanTypeVersions(index: map<int, WsEntry>, order: seq<int>, excludeWs: set<int>, objects: seq<ObjDoc>,
                            versions: seq<VerDoc>, inclTypes: set<string>, k: TypeKey): seq<VerDoc>
    requires forall w | w in order :: w in index
  {
    if order == [] then []
    else
      var prev := ScanTypeVersions(index, order[..|order| - 1], excludeWs, objects, versions, inclTypes, k);
      var w := order[|order| - 1];
      if w in excludeWs then prev
      else prev + PagesTypeVersions(index, w, LastLimit(index[w].numObj), objects, versions, inclTypes, k)
  }

  /* The versions that go into the listing, page by page and workspace by workspace. */

  function PageListedVersions(index: map<int, WsEntry>, objs: seq<ObjDoc>, versions: seq<VerDoc>, listTypes: set<string>,
                              lo: int, hi: int): set<VerDoc>
    requires PageReady(index, objs)
  {
    if objs == [] then {}
    else
      var page := PageOf(index, objs);
      set v | v in VersionQuery(versions, page.ws, lo, hi) && Listed(page, v, listTypes)
  }

  function PagesListedVersions(index: map<int, WsEntry>, ws: int, top: int, objects: seq<ObjDoc>, versions: seq<VerDoc>,
                               listTypes: set<string>): set<VerDoc>
    requires ws in index
    decreases top
  {
    if top <= 0 then {}
    else
      PagesListedVersions(index, ws, top - LIMIT, objects, versions, listTypes)
        + PageListedVersions(index, PageObjects(objects, ws, top), versions, listTypes, top - LIMIT, top)
  }

  function ScanListedVersions(index: map<int, WsEntry>, order: seq<int>, excludeWs: set<int>, objects: seq<ObjDoc>,
                              versions: seq<VerDoc>, listTypes: set<string>): set<VerDoc>
    requires forall w | w in order :: w in index
  {
    if order == [] then {}
    else
      var prev := ScanListedVersions(index, order[..|order| - 1], excludeWs, objects, versions, listTypes);
      var w := order[|order| - 1];
      if w in excludeWs then prev
      else prev + PagesListedVersions(index, w, LastLimit(index[w].numObj), objects, versions, listTypes)
  }

  /*
   * User totals.
   */

  lemma PageUserTotals(a: Aggregates, index: map<int, WsEntry>, objs: seq<ObjDoc>, versions: seq<VerDoc>,
                       inclTypes: set<string>, listTypes: set<string>, lo: int, hi: int, k: UserKey)
    requires PageReady(index, objs)
    ensures Get(PageResult(a, index, objs, versions, inclTypes, listTypes, lo, hi).0.users, k)
      == Get(a.users, k).Plus(Tally(PageUserVersions(index, objs, versions, lo, hi, k)))
  {
    if objs != [] {
      var page := PageOf(index, objs);
      var vs := VersionQuery(versions, page.ws, lo, hi);
      calc {
        Get(PageResult(a, index, objs, versions, inclTypes, listTypes, lo, hi).0.users, k);
        Get(FoldUsers(a.users, page, vs), k);
        { FoldUsersTotals(a.users, page, vs, k); }
        Get(a.users, k).Plus(Tally(WithUserKey(page, vs, k)));
        Get(a.users, k).Plus(Tally(PageUserVersions(index, objs, versions, lo, hi, k)));
      }
    } else {
      PlusZero(Get(a.users, k));
    }
  }

  lemma {:induction false} PagesUserTotals(a: Aggregates, index: map<int, WsEntry>, ws: int, top: int, objects: seq<ObjDoc>,
                                           versions: seq<VerDoc>, inclTypes: set<string>, listTypes: set<string>, k: UserKey)
    requires ws in index
    ensures Get(PagesFold(a, index, ws, top, objects, versions, inclTypes, listTypes).users, k)
      == Get(a.users, k).Plus(Tally(PagesUserVersions(index, ws, top, objects, versions, k)))
    decreases top
  {
    if top > 0 {
      var prev := PagesFold(a, index, ws, top - LIMIT, objects, versions, inclTypes, listTypes);
      var objs := PageObjects(objects, ws, top);
      var done := PagesUserVersions(index, ws, top - LIMIT, objects, versions, k);
      var page := PageUserVersions(index, objs, versions, top - LIMIT, top, k);
      calc {
        Get(PagesFold(a, index, ws, top, objects, versions, inclTypes, listTypes).users, k);
        { PagesFoldStep(a, index, ws, top, objects, versions, inclTypes, listTypes); }
        Get(PageResult(prev, index, objs, versions, inclTypes, listTypes, top - LIMIT, top).0.users, k);
        { PageUserTotals(prev, index, objs, versions, inclTypes, listTypes, top - LIMIT, top, k); }
        Get(prev.users, k).Plus(Tally(page));
        { PagesUserTotals(a, index, ws, top - LIMIT, objects, versions, inclTypes, listTypes, k); }
        Get(a.users, k).Plus(Tally(done)).Plus(Tally(page));
        { PlusTallies(Get(a.users, k), done, page); }
        Get(a.users, k).Plus(Tally(done + page));
        Get(a.users, k).Plus(Tally(PagesUserVersions(index, ws, top, objects, versions, k)));
      }
    } else {
      PlusZero(Get(a.users, k));
    }
  }

  /** Over the whole scan, every user total grows by the tally of exactly the versions counted under its key. */
  lemma {:induction false} ScanUserTotals(a: Aggregates, index: map<int, WsEntry>, order: seq<int>, excludeWs: set<int>,
                                          objects: seq<ObjDoc>, versions: seq<VerDoc>, inclTypes: set<string>, listTypes: set<string>, k: UserKey)
    requires forall w | w in order :: w in index
    ensures Get(RunFold(a, index, order, excludeWs, objects, versions, inclTypes, listTypes).users, k)
      == Get(a.users, k).Plus(Tally(ScanUserVersions(index, order, excludeWs, objects, versions, k)))
  {
    if order != [] {
      var init, w := order[..|order| - 1], order[|order| - 1];
      var prev := RunFold(a, index, init, excludeWs, objects, versions, inclTypes, listTypes);
      var done := ScanUserVersions(index, init, excludeWs, objects, versions, k);
      ScanUserTotals(a, index, init, excludeWs, objects, versions, inclTypes, listTypes, k);
      if w !in excludeWs {
        var pages := PagesUserVersions(index, w, LastLimit(index[w].numObj), objects, versions, k);
        calc {
          Get(RunFold(a, index, order, excludeWs, objects, versions, inclTypes, listTypes).users, k);
          Get(PagesFold(prev, index, w, LastLimit(index[w].numObj), objects, versions, inclTypes, listTypes).users, k);
          { PagesUserTotals(prev, index, w, LastLimit(index[w].numObj), objects, versions, inclTypes, listTypes, k); }
          Get(prev.users, k).Plus(Tally(pages));
          Get(a.users, k).Plus(Tally(done)).Plus(Tally(pages));
          { PlusTallies(Get(a.users, k), done, pages); }
          Get(a.users, k).Plus(Tally(done + pages));
          Get(a.users, k).Plus(Tally(ScanUserVersions(index, order, excludeWs, objects, versions, k)));
        }
      }
    } else {
      PlusZero(Get(a.users, k));
    }
  }

  /*
   * Workspace totals.
   */

  lemma PageWsTotals(a: Aggregates, index: map<int, WsEntry>, objs: seq<ObjDoc>, versions: seq<VerDoc>,
                       inclTypes: set<string>, listTypes: set<string>, lo: int, hi: int, k: WsKey)
    requires PageReady(index, objs)
    ensures Get(PageResult(a, index, objs, versions, inclTypes, listTypes, lo, hi).0.workspaces, k)
      == Get(a.workspaces, k).Plus(Tally(PageWsVersions(index, objs, versions, lo, hi, k)))
  {
    if objs != [] {
      var page := PageOf(index, objs);
      var vs := VersionQuery(versions, page.ws, lo, hi);
      calc {
        Get(PageResult(a, index, objs, versions, inclTypes, listTypes, lo, hi).0.workspaces, k);
        Get(FoldWorkspaces(a.workspaces, page, vs), k);
        { FoldWorkspacesTotals(a.workspaces, page, vs, k); }
        Get(a.workspaces, k).Plus(Tally(WithWsKey(page, vs, k)));
        Get(a.workspaces, k).Plus(Tally(PageWsVersions(index, objs, versions, lo, hi, k)));
      }
    } else {
      PlusZero(Get(a.workspaces, k));
    }
  }

  lemma {:induction false} PagesWsTotals(a: Aggregates, index: map<int, WsEntry>, ws: int, top: int, objects: seq<ObjDoc>,
                                           versions: seq<VerDoc>, inclTypes: set<string>, listTypes: set<string>, k: WsKey)
    requires ws in index
    ensures Get(PagesFold(a, index, ws, top, objects, versions, inclTypes, listTypes).workspaces, k)
      == Get(a.workspaces, k).Plus(Tally(PagesWsVersions(index, ws, top, objects, versions, k)))
    decreases top
  {
    if top > 0 {
      var prev := PagesFold(a, index, ws, top - LIMIT, objects, versions, inclTypes, listTypes);
      var objs := PageObjects(objects, ws, top);
      var done := PagesWsVersions(index, ws, top - LIMIT, objects, versions, k);
      var page := PageWsVersions(index, objs, versions, top - LIMIT, top, k);
      calc {
        Get(PagesFold(a, index, ws, top, objects, versions, inclTypes, listTypes).workspaces, k);
        { PagesFoldStep(a, index, ws, top, objects, versions, inclTypes, listTypes); }
        Get(PageResult(prev, index, objs, versions, inclTypes, listTypes, top - LIMIT, top).0.workspaces, k);
        { PageWsTotals(prev, index, objs, versions, inclTypes, listTypes, top - LIMIT, top, k); }
        Get(prev.workspaces, k).Plus(Tally(page));
        { PagesWsTotals(a, index, ws, top - LIMIT, objects, versions, inclTypes, listTypes, k); }
        Get(a.workspaces, k).Plus(Tally(done)).Plus(Tally(page));
        { PlusTallies(Get(a.workspaces, k), done, page); }
        Get(a.workspaces, k).Plus(Tally(done + page));
        Get(a.workspaces, k).Plus(Tally(PagesWsVersions(index, ws, top, objects, versions, k)));
      }
    } else {
      PlusZero(Get(a.workspaces, k));
    }
  }

  /** Over the whole scan, every workspace total grows by the tally of exactly the versions counted under its key. */
  lemma {:induction false} ScanWsTotals(a: Aggregates, index: map<int, WsEntry>, order: seq<int>, excludeWs: set<int>,
                                          objects: seq<ObjDoc>, versions: seq<VerDoc>, inclTypes: set<string>, listTypes: set<string>, k: WsKey)
    requires forall w | w in order :: w in index
    ensures Get(RunFold(a, index, order, excludeWs, objects, versions, inclTypes, listTypes).workspaces, k)
      == Get(a.workspaces, k).Plus(Tally(ScanWsVersions(index, order, excludeWs, objects, versions, k)))
  {
    if order != [] {
      var init, w := order[..|order| - 1], order[|order| - 1];
      var prev := RunFold(a, index, init, excludeWs, objects, versions, inclTypes, listTypes);
      var done := ScanWsVersions(index, init, excludeWs, objects, versions, k);
      ScanWsTotals(a, index, init, excludeWs, objects, versions, inclTypes, listTypes, k);
      if w !in excludeWs {
        var pages := PagesWsVersions(index, w, LastLimit(index[w].numObj), objects, versions, k);
        calc {
          Get(RunFold(a, index, order, excludeWs, objects, versions, inclTypes, listTypes).workspaces, k);
          Get(PagesFold(prev, index, w, LastLimit(index[w].numObj), objects, versions, inclTypes, listTypes).workspaces, k);
          { PagesWsTotals(prev, index, w, LastLimit(index[w].numObj), objects, versions, inclTypes, listTypes, k); }
          Get(prev.workspaces, k).Plus(Tally(pages));
          Get(a.workspaces, k).Plus(Tally(done)).Plus(Tally(pages));
          { PlusTallies(Get(a.workspaces, k), done, pages); }
          Get(a.workspaces, k).Plus(Tally(done + pages));
          Get(a.workspaces, k).Plus(Tally(ScanWsVersions(index, order, excludeWs, objects, versions, k)));
        }
      }
    } else {
      PlusZero(Get(a.workspaces, k));
    }
  }

  /*
   * Type totals.
   */

  lemma PageTypeTotals(a: Aggregates, index: map<int, WsEntry>, objs: seq<ObjDoc>, versions: seq<VerDoc>,
                       inclTypes: set<string>, listTypes: set<string>, lo: int, hi: int, k: TypeKey)
    requires PageReady(index, objs)
    ensures Get(PageResult(a, index, objs, versions, inclTypes, listTypes, lo, hi).0.types, k)
      == Get(a.types, k).Plus(Tally(PageTypeVersions(index, objs, versions, inclTypes, lo, hi, k)))
  {
    if objs != [] {
      var page := PageOf(index, objs);
      var vs := VersionQuery(versions, page.ws, lo, hi);
      calc {
        Get(PageResult(a, index, objs, versions, inclTypes, listTypes, lo, hi).0.types, k);
        Get(FoldTypes(a.types, page, vs, inclTypes), k);
        { FoldTypesTotals(a.types, page, vs, inclTypes, k); }
        Get(a.types, k).Plus(Tally(WithTypeKey(page, vs, inclTypes, k)));
        Get(a.types, k).Plus(Tally(PageTypeVersions(index, objs, versions, inclTypes, lo, hi, k)));
      }
    } else {
      PlusZero(Get(a.types, k));
    }
  }

  lemma {:induction false} PagesTypeTotals(a: Aggregates, index: map<int, WsEntry>, ws: int, top: int, objects: seq<ObjDoc>,
                                           versions: seq<VerDoc>, inclTypes: set<string>, listTypes: set<string>, k: TypeKey)
    requires ws in index
    ensures Get(PagesFold(a, index, ws, top, objects, versions, inclTypes, listTypes).types, k)
      == Get(a.types, k).Plus(Tally(PagesTypeVersions(index, ws, top, objects, versions, inclTypes, k)))
    decreases top
  {
    if top > 0 {
      var prev := PagesFold(a, index, ws, top - LIMIT, objects, versions, inclTypes, listTypes);
      var objs := PageObjects(objects, ws, top);
      var done := PagesTypeVersions(index, ws, top - LIMIT, objects, versions, inclTypes, k);
      var page := PageTypeVersions(index, objs, versions, inclTypes, top - LIMIT, top, k);
      calc {
        Get(PagesFold(a, index, ws, top, objects, versions, inclTypes, listTypes).types, k);
        { PagesFoldStep(a, index, ws, top, objects, versions, inclTypes, listTypes); }
        Get(PageResult(prev, index, objs, versions, inclTypes, listTypes, top - LIMIT, top).0.types, k);
        { PageTypeTotals(prev, index, objs, versions, inclTypes, listTypes, top - LIMIT, top, k); }
        Get(prev.types, k).Plus(Tally(page));
        { PagesTypeTotals(a, index, ws, top - LIMIT, objects, versions, inclTypes, listTypes, k); }
        Get(a.types, k).Plus(Tally(done)).Plus(Tally(page));
        { PlusTallies(Get(a.types, k), done, page); }
        Get(a.types, k).Plus(Tally(done + page));
        Get(a.types, k).Plus(Tally(PagesTypeVersions(index, ws, top, objects, versions, inclTypes, k)));
      }
    } else {
      PlusZero(Get(a.types, k));
    }
  }

  /** Over the whole scan, every type total grows by the tally of exactly the versions counted under its key. */
  lemma {:induction false} ScanTypeTotals(a: Aggregates, index: map<int, WsEntry>, order: seq<int>, excludeWs: set<int>,
                                          objects: seq<ObjDoc>, versions: seq<VerDoc>, inclTypes: set<string>, listTypes: set<string>, k: TypeKey)
    requires forall w | w in order :: w in index
    ensures Get(RunFold(a, index, order, excludeWs, objects, versions, inclTypes, listTypes).types, k)
      == Get(a.types, k).Plus(Tally(ScanTypeVersions(index, order, excludeWs, objects, versions, inclTypes, k)))
  {
    if order != [] {
      var init, w := order[..|order| - 1], order[|order| - 1];
      var prev := RunFold(a, index, init, excludeWs, objects, versions, inclTypes, listTypes);
      var done := ScanTypeVersions(index, init, excludeWs, objects, versions, inclTypes, k);
      ScanTypeTotals(a, index, init, excludeWs, objects, versions, inclTypes, listTypes, k);
      if w !in excludeWs {
        var pages := PagesTypeVersions(index, w, LastLimit(index[w].numObj), objects, versions, inclTypes, k);
        calc {
          Get(RunFold(a, index, order, excludeWs, objects, versions, inclTypes, listTypes).types, k);
          Get(PagesFold(prev, index, w, LastLimit(index[w].numObj), objects, versions, inclTypes, listTypes).types, k);
          { PagesTypeTotals(prev, index, w, LastLimit(index[w].numObj), objects, versions, inclTypes, listTypes, k); }
          Get(prev.types, k).Plus(Tally(pages));
          Get(a.types, k).Plus(Tally(done)).Plus(Tally(pages));
          { PlusTallies(Get(a.types, k), done, pages); }
          Get(a.types, k).Plus(Tally(done + pages));
          Get(a.types, k).Plus(Tally(ScanTypeVersions(index, order, excludeWs, objects, versions, inclTypes, k)));
        }
      }
    } else {
      PlusZero(Get(a.types, k));
    }
  }

  /*
   * The listing.
   */

  /** No entry of the listing ever loses version number, and every listed version has an entry at least as new. */
  predicate ListingCovers(before: map<string, Listing>, after: map<string, Listing>, listed: set<VerDoc>) {
    && (forall key | key in before :: key in after && after[key].ver >= before[key].ver)
    && (forall v | v in listed :: ListingKey(v.ws, v.id) in after && after[ListingKey(v.ws, v.id)].ver >= v.ver)
  }

  lemma ListingCoversTrans(m1: map<string, Listing>, m2: map<string, Listing>, m3: map<string, Listing>,
                           s1: set<VerDoc>, s2: set<VerDoc>)
    requires ListingCovers(m1, m2, s1) && ListingCovers(m2, m3, s2)
    ensures ListingCovers(m1, m3, s1 + s2)
  {
  }

  lemma PageListingCovers(a: Aggregates, index: map<int, WsEntry>, objs: seq<ObjDoc>, versions: seq<VerDoc>,
                          inclTypes: set<string>, listTypes: set<string>, lo: int, hi: int)
    requires PageReady(index, objs)
    ensures ListingCovers(a.listing, PageResult(a, index, objs, versions, inclTypes, listTypes, lo, hi).0.listing,
                          PageListedVersions(index, objs, versions, listTypes, lo, hi))
  {
    if objs != [] {
      var page := PageOf(index, objs);
      FoldListingKeepsOld(a.listing, page, VersionQuery(versions, page.ws, lo, hi), listTypes);
      FoldListingCoversListed(a.listing, page, VersionQuery(versions, page.ws, lo, hi), listTypes);
    }
  }

  lemma {:induction false} PagesListingCovers(a: Aggregates, index: map<int, WsEntry>, ws: int, top: int, objects: seq<ObjDoc>,
                                              versions: seq<VerDoc>, inclTypes: set<string>, listTypes: set<string>)
    requires ws in index
    ensures ListingCovers(a.listing, PagesFold(a, index, ws, top, objects, versions, inclTypes, listTypes).listing,
                          PagesListedVersions(index, ws, top, objects, versions, listTypes))
    decreases top
  {
    if top > 0 {
      var prev := PagesFold(a, index, ws, top - LIMIT, objects, versions, inclTypes, listTypes);
      PagesListingCovers(a, index, ws, top - LIMIT, objects, versions, inclTypes, listTypes);
      PagesFoldStep(a, index, ws, top, objects, versions, inclTypes, listTypes);
      PageListingCovers(prev, index, PageObjects(objects, ws, top), versions, inclTypes, listTypes, top - LIMIT, top);
      ListingCoversTrans(a.listing, prev.listing, PagesFold(a, index, ws, top, objects, versions, inclTypes, listTypes).listing,
                         PagesListedVersions(index, ws, top - LIMIT, objects, versions, listTypes),
                         PageListedVersions(index, PageObjects(objects, ws, top), versions, listTypes, top - LIMIT, top));
    }
  }

  /** Over the whole scan, the listing holds for every listed version an entry at least as new, and no entry goes back. */
  lemma {:induction false} ScanListingCovers(a: Aggregates, index: map<int, WsEntry>, order: seq<int>, excludeWs: set<int>,
                                             objects: seq<ObjDoc>, versions: seq<VerDoc>, inclTypes: set<string>, listTypes: set<string>)
    requires forall w | w in order :: w in index
    ensures ListingCovers(a.listing, RunFold(a, index, order, excludeWs, objects, versions, inclTypes, listTypes).listing,
                          ScanListedVersions(index, order, excludeWs, objects, versions, listTypes))
  {
    if order != [] {
      var init, w := order[..|order| - 1], order[|order| - 1];
      var prev := RunFold(a, index, init, excludeWs, objects, versions, inclTypes, listTypes);
      ScanListingCovers(a, index, init, excludeWs, objects, versions, inclTypes, listTypes);
      if w !in excludeWs {
        PagesListingCovers(prev, index, w, LastLimit(index[w].numObj), objects, versions, inclTypes, listTypes);
        ListingCoversTrans(a.listing, prev.listing, RunFold(a, index, order, excludeWs, objects, versions, inclTypes, listTypes).listing,
                           ScanListedVersions(index, init, excludeWs, objects, versions, listTypes),
                           PagesListedVersions(index, w, LastLimit(index[w].numObj), objects, versions, listTypes));
      }
    }
  }

  /**
   * What `process_objects` ends with, from empty accumulators: each user,
   * workspace and type total is the count and summed size of exactly the
   * versions the scan counted under that key, and the listing has for each
   * listed version an entry of that version or a newer one.
   */
  lemma ScanFromEmpty(index: map<int, WsEntry>, order: seq<int>, excludeWs: set<int>, objects: seq<ObjDoc>,
                      versions: seq<VerDoc>, inclTypes: set<string>, listTypes: set<string>)
    requires forall w | w in order :: w in index
    ensures var r := RunFold(Empty, index, order, excludeWs, objects, versions, inclTypes, listTypes);
      && (forall k: UserKey :: Get(r.users, k) == Tally(ScanUserVersions(index, order, excludeWs, objects, versions, k)))
      && (forall k: WsKey :: Get(r.workspaces, k) == Tally(ScanWsVersions(index, order, excludeWs, objects, versions, k)))
      && (forall k: TypeKey :: Get(r.types, k) == Tally(ScanTypeVersions(index, order, excludeWs, objects, versions, inclTypes, k)))
      && (forall v | v in ScanListedVersions(index, order, excludeWs, objects, versions, listTypes) ::
            ListingKey(v.ws, v.id) in r.listing && r.listing[ListingKey(v.ws, v.id)].ver >= v.ver)
  {
    var r := RunFold(Empty, index, order, excludeWs, objects, versions, inclTypes, listTypes);
    forall k: UserKey ensures Get(r.users, k) == Tally(ScanUserVersions(index, order, excludeWs, objects, versions, k)) {
      ScanUserTotals(Empty, index, order, excludeWs, objects, versions, inclTypes, listTypes, k);
    }
    forall k: WsKey ensures Get(r.workspaces, k) == Tally(ScanWsVersions(index, order, excludeWs, objects, versions, k)) {
      ScanWsTotals(Empty, index, order, excludeWs, objects, versions, inclTypes, listTypes, k);
    }
    forall k: TypeKey ensures Get(r.types, k) == Tally(ScanTypeVersions(index, order, excludeWs, objects, versions, inclTypes, k)) {
      ScanTypeTotals(Empty, index, order, excludeWs, objects, versions, inclTypes, listTypes, k);
    }
    ScanListingCovers(Empty, index, order, excludeWs, objects, versions, inclTypes, listTypes);
  }
}
