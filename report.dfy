/**
 * The post-processing in `main` before the three result documents are
 * written: the object count is dropped from every workspace entry (whose
 * per-deleted-state totals were accumulated beside it), and each user's
 * type totals are attached to that user's usage totals.
 */
module Report {
  import opened WorkspaceIndex
  import opened Aggregation
  import opened PageProperties

  /** A workspace as written out: the index entry without its object count, plus its totals. */
  datatype WsReport = WsReport(shd: int, vis: Visibility, owner: string, name: string, totals: map<DelState, Counts>)

  /** A user as written out: totals by visibility and deleted state, and the type totals under `types`. */
  datatype UserReport = UserReport(usage: map<(Visibility, DelState), Counts>, types: map<(string, Visibility, DelState), Counts>)

  /** The totals of one workspace: a deleted state appears only once a version was counted under it. */
  function WsTotals(wsData: map<WsKey, Counts>, w: int): (t: map<DelState, Counts>)
    ensures forall d: DelState :: (d in t <==> (w, d) in wsData) && (d in t ==> t[d] == wsData[(w, d)])
  {
    map d: DelState | (w, d) in wsData :: wsData[(w, d)]
  }

  function WsReportOf(e: WsEntry, totals: map<DelState, Counts>): WsReport {
    WsReport(e.shd, e.vis, e.owner, e.name, totals)
  }

  /**
   * The loop `for wsid in ws: del ws[wsid][WS_OBJ_CNT]`, with `order` the
   * iteration order of the index: every workspace keeps its sharing count,
   * visibility, owner and name, loses its object count and carries its
   * totals.
   */
  method StripObjectCounts(index: map<int, WsEntry>, wsData: map<WsKey, Counts>, order: seq<int>)
    returns (report: map<int, WsReport>)
    requires forall w :: w in order <==> w in index
    ensures report.Keys == index.Keys
    ensures forall w | w in report ::
      && report[w].shd == index[w].shd && report[w].vis == index[w].vis
      && report[w].owner == index[w].owner && report[w].name == index[w].name
      && report[w].totals == WsTotals(wsData, w)
  {
    report := map[];
    for i := 0 to |order|
      invariant report.Keys == set w | w in order[..i]
      invariant forall w | w in report :: w in index && report[w] == WsReportOf(index[w], WsTotals(wsData, w))
    {
      var wsid := order[i];
      assert order[..i + 1] == order[..i] + [wsid];
      report := report[wsid := WsReportOf(index[wsid], WsTotals(wsData, wsid))];
    }
    assert order[..|order|] == order;
    assert forall w :: w in report <==> w in index;
  }

  /** The usage totals of user `u`. */
  function UsageOf(users: map<UserKey, Counts>, u: string): (m: map<(Visibility, DelState), Counts>)
    ensures forall vis: Visibility, d: DelState ::
      ((vis, d) in m <==> (u, vis, d) in users) && ((vis, d) in m ==> m[(vis, d)] == users[(u, vis, d)])
  {
    map k | k in users && k.0 == u :: (k.1, k.2) := users[k]
  }

  /** The type totals of user `u`, an empty map when there are none. */
  function TypesOf(types: map<TypeKey, Counts>, u: string): (m: map<(string, Visibility, DelState), Counts>)
    ensures forall k | k in types && k.0 == u :: (k.1, k.2, k.3) in m && m[(k.1, k.2, k.3)] == types[k]
    ensures forall k | k in m :: (u, k.0, k.1, k.2) in types && types[(u, k.0, k.1, k.2)] == m[k]
  {
    map k | k in types && k.0 == u :: (k.1, k.2, k.3) := types[k]
  }

  function UserReportOf(users: map<UserKey, Counts>, types: map<TypeKey, Counts>, u: string): UserReport {
    UserReport(UsageOf(users, u), TypesOf(types, u))
  }

  /** The users with usage totals. */
  function Owners(users: map<UserKey, Counts>): set<string> {
    set k | k in users :: k.0
  }

  /**
   * The loop `for u in objdata: objdata[u][TYPES] = typedata[u]`, with
   * `order` the iteration order of the user totals: every user with usage
   * totals gets them together with its type totals; a user with no type
   * totals gets an empty map.
   */
  method FoldTypesIntoUsers(users: map<UserKey, Counts>, types: map<TypeKey, Counts>, order: seq<string>)
    returns (report: map<string, UserReport>)
    requires forall u :: u in order <==> u in Owners(users)
    ensures report.Keys == Owners(users)
    ensures forall u | u in report :: report[u] == UserReport(UsageOf(users, u), TypesOf(types, u))
  {
    report := map[];
    for i := 0 to |order|
      invariant forall u :: u in report <==> u in order[..i]
      invariant forall u | u in report :: report[u] == UserReportOf(users, types, u)
    {
      var u := order[i];
      assert order[..i + 1] == order[..i] + [u];
      report := report[u := UserReportOf(users, types, u)];
    }
    assert order[..|order|] == order;
    SameKeys(report, Owners(users), order);
  }

  lemma SameKeys<K, V>(m: map<K, V>, s: set<K>, order: seq<K>)
    requires forall k :: k in m <==> k in order
    requires forall k :: k in order <==> k in s
    ensures m.Keys == s
  {
  }

  /**
   * When every type total is backed by a user total (which the scan
   * guarantees), attaching type totals to users loses none of them.
   */
  lemma TypesAllReported(users: map<UserKey, Counts>, types: map<TypeKey, Counts>, report: map<string, UserReport>)
    requires TypesCovered(Aggregates(users, map[], types, map[]))
    requires report.Keys == Owners(users)
    requires forall u | u in report :: report[u] == UserReport(UsageOf(users, u), TypesOf(types, u))
    ensures forall k | k in types :: k.0 in report && (k.1, k.2, k.3) in report[k.0].types && report[k.0].types[(k.1, k.2, k.3)] == types[k]
  {
    forall k | k in types
      ensures k.0 in report
    {
      assert (k.0, k.2, k.3) in users;
    }
  }
}
