/**
 * `process_objects`: every workspace of the index, in the index's
 * iteration order, is read page by page; a page is the workspace's
 * objects with id in `(lim - LIMIT, lim]` and the versions of the same id
 * range, and is handed to `process_object_versions`.  Workspaces in the
 * exclusion set are skipped.
 */
module ObjectScan {
  import opened WorkspaceIndex
  import opened Paging
  import opened Aggregation
  import opened PageProperties

  /** The object records of the page ending at `lim`. */
  function PageObjects(objects: seq<ObjDoc>, ws: int, lim: int): (r: seq<ObjDoc>)
    ensures forall o | o in r :: o.ws == ws
  {
    ObjectQuery(objects, ws, lim - LIMIT, lim)
  }

  /**
   * The accumulators after the pages of workspace `ws` that end at
   * `LIMIT, 2 * LIMIT, ..., top`, in that order (no page when `top <= 0`).
   */
  function PagesFold(a: Aggregates, index: map<int, WsEntry>, ws: int, top: int, objects: seq<ObjDoc>,
                     versions: seq<VerDoc>, inclTypes: set<string>, listTypes: set<string>): Aggregates
    requires ws in index
    decreases top
  {
    if top <= 0 then a
    else
      var prev := PagesFold(a, index, ws, top - LIMIT, objects, versions, inclTypes, listTypes);
      PageResult(prev, index, PageObjects(objects, ws, top), versions, inclTypes, listTypes, top - LIMIT, top).0
  }

  /** The end of the last page of a workspace of `n` objects: the last value `xrange(LIMIT, n + LIMIT, LIMIT)` yields, or 0. */
  function LastLimit(n: int): (top: int)
    ensures top == PageCount(n) * LIMIT
  {
    if n <= 0 then 0 else ((n - 1) / LIMIT + 1) * LIMIT
  }

  /** `LastLimit` is the last of the page limits, or 0 when there are none. */
  lemma LastLimitIsLastPage(n: int)
    ensures PageLimits(n) == [] ==> LastLimit(n) == 0
    ensures PageLimits(n) != [] ==> LastLimit(n) == PageLimits(n)[|PageLimits(n)| - 1]
  {
  }

  /** One workspace: nothing when excluded, otherwise all of its pages. */
  function WorkspaceFold(a: Aggregates, index: map<int, WsEntry>, ws: int, excludeWs: set<int>, objects: seq<ObjDoc>,
                         versions: seq<VerDoc>, inclTypes: set<string>, listTypes: set<string>): Aggregates
    requires ws in index
  {
    if ws in excludeWs then a
    else PagesFold(a, index, ws, LastLimit(index[ws].numObj), objects, versions, inclTypes, listTypes)
  }

  /** The workspaces of `order`, one after the other. */
  function RunFold(a: Aggregates, index: map<int, WsEntry>, order: seq<int>, excludeWs: set<int>, objects: seq<ObjDoc>,
                   versions: seq<VerDoc>, inclTypes: set<string>, listTypes: set<string>): Aggregates
    requires forall w | w in order :: w in index
  {
    if order == [] then a
    else
      var prev := RunFold(a, index, order[..|order| - 1], excludeWs, objects, versions, inclTypes, listTypes);
      WorkspaceFold(prev, index, order[|order| - 1], excludeWs, objects, versions, inclTypes, listTypes)
  }

  /**
   * `process_objects`, with the collections as inputs and `order` the
   * iteration order of the workspace index.
   */
  method ProcessObjects(workspaces: map<int, WsEntry>, order: seq<int>, excludeWs: set<int>, objects: seq<ObjDoc>,
                        versions: seq<VerDoc>, inclTypes: set<string>, listTypes: set<string>)
    returns (acc: Accumulators)
    requires forall w | w in order :: w in workspaces
    ensures fresh(acc)
    ensures acc.State() == RunFold(Empty, workspaces, order, excludeWs, objects, versions, inclTypes, listTypes)
  {
    acc := new Accumulators();
    for i := 0 to |order|
      invariant acc.State() == RunFold(Empty, workspaces, order[..i], excludeWs, objects, versions, inclTypes, listTypes)
    {
      var ws := order[i];
      assert order[..i + 1][..i] == order[..i];
      if ws in excludeWs {
        continue;
      }
      ScanWorkspace(acc, workspaces, ws, objects, versions, inclTypes, listTypes);
    }
    assert order[..|order|] == order;
  }

  /** The page loop of `process_objects` for one workspace that is not excluded. */
  method ScanWorkspace(acc: Accumulators, workspaces: map<int, WsEntry>, ws: int, objects: seq<ObjDoc>,
                       versions: seq<VerDoc>, inclTypes: set<string>, listTypes: set<string>)
    requires ws in workspaces
    modifies acc
    ensures acc.State() == PagesFold(old(acc.State()), workspaces, ws, LastLimit(workspaces[ws].numObj), objects, versions, inclTypes, listTypes)
  {
    var wsobjcount := workspaces[ws].numObj;
    ghost var start := acc.State();
    ghost var k, done := 0, 0;
    var lim := LIMIT;
    while lim < wsobjcount + LIMIT
      invariant 0 <= k <= PageCount(wsobjcount) && done == k * LIMIT && done == lim - LIMIT
      invariant acc.State() == PagesFold(start, workspaces, ws, done, objects, versions, inclTypes, listTypes)
      decreases wsobjcount + LIMIT - lim
    {
      PageLoopTest(wsobjcount, k);
      var objs := PageObjects(objects, ws, lim);
      var vers := acc.ProcessObjectVersions(workspaces, objs, versions, inclTypes, listTypes, lim - LIMIT, lim);
      PagesFoldStep(start, workspaces, ws, lim, objects, versions, inclTypes, listTypes);
      done := lim;
      lim := lim + LIMIT;
      k := k + 1;
    }
    PageLoopTest(wsobjcount, k);
  }

  /** The page ending at `top` comes after the pages before it. */
  lemma PagesFoldStep(a: Aggregates, index: map<int, WsEntry>, ws: int, top: int, objects: seq<ObjDoc>,
                      versions: seq<VerDoc>, inclTypes: set<string>, listTypes: set<string>)
    requires ws in index && top > 0
    ensures PagesFold(a, index, ws, top, objects, versions, inclTypes, listTypes)
      == PageResult(PagesFold(a, index, ws, top - LIMIT, objects, versions, inclTypes, listTypes), index,
                    PageObjects(objects, ws, top), versions, inclTypes, listTypes, top - LIMIT, top).0
  {
  }
}
