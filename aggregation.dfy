/**
 * The per-page aggregation (`process_object_versions`,
 * `update_object_list`): the versions of one page of objects are joined to
 * the page's object records by object id and their counts and sizes are
 * added into three accumulators, while the object listing keeps the
 * highest version seen of each listed object.
 *
 * The source's auto-vivifying nested dictionaries are maps keyed by
 * tuples, read with an explicit zero for a missing key:
 *   users       (owner, visibility, deleted-state)        -> counts
 *   workspaces  (workspace id, deleted-state)             -> counts
 *   types       (owner, type prefix, visibility, deleted) -> counts
 *   listing     "ws.<wsid>.obj.<objid>"                   -> listing entry
 */
module Aggregation {
  import opened Text
  import opened WorkspaceIndex

  /** `del` or `std`: taken from the object record, never from the version. */
  datatype DelState = Del | Std

  /** The `cnt` and `byte` entries of an accumulator. */
  datatype Counts = Counts(cnt: int, bytes: int) {
    /** One more version of the given size. */
    function WithVersion(size: int): Counts {
      Counts(cnt + 1, bytes + size)
    }

    function Plus(other: Counts): Counts {
      Counts(cnt + other.cnt, bytes + other.bytes)
    }
  }

  const Zero := Counts(0, 0)

  /** A record of the objects collection, with the fields the job asks for. */
  datatype ObjDoc = ObjDoc(ws: int, id: int, deleted: bool, name: string)

  /** A record of the object versions collection; the save date is kept as an opaque string. */
  datatype VerDoc = VerDoc(ws: int, id: int, size: int, typ: string, ver: int, savedBy: string, saveDate: string)

  /** An entry of the object listing. */
  datatype Listing = Listing(deleted: bool, name: string, savedBy: string, ver: int, typ: string, saveDate: string)

  type UserKey = (string, Visibility, DelState)
  type WsKey = (int, DelState)
  type TypeKey = (string, string, Visibility, DelState)

  /** The four accumulators as values. */
  datatype Aggregates = Aggregates(
    users: map<UserKey, Counts>,
    workspaces: map<WsKey, Counts>,
    types: map<TypeKey, Counts>,
    listing: map<string, Listing>)

  const Empty := Aggregates(map[], map[], map[], map[])

  /** A read of an auto-vivifying accumulator: zero for a key never written. */
  function Get<K(!new)>(m: map<K, Counts>, k: K): Counts {
    if k in m then m[k] else Zero
  }

  /** Add one version of the given size under a key; every other key reads as before. */
  function Bump<K(!new)>(m: map<K, Counts>, k: K, size: int): (r: map<K, Counts>)
    ensures r.Keys == m.Keys + {k}
    ensures Get(r, k) == Get(m, k).WithVersion(size)
    ensures forall j | j != k :: Get(r, j) == Get(m, j)
  {
    m[k := Get(m, k).WithVersion(size)]
  }

  function DelStateOf(o: ObjDoc): DelState {
    if o.deleted then Del else Std
  }

  /** The module part of a type name: everything before the first '-', or all of it when there is none. */
  function TypePrefix(t: string): string {
    if t == [] || t[0] == '-' then [] else [t[0]] + TypePrefix(t[1..])
  }

  /** The prefix is the longest dash-free start of the type name. */
  lemma {:induction false} TypePrefixBeforeFirstDash(t: string)
    ensures var p := TypePrefix(t);
      && p <= t
      && '-' !in p
      && (|p| < |t| ==> t[|p|] == '-')
  {
    if t != [] && t[0] != '-' {
      TypePrefixBeforeFirstDash(t[1..]);
    }
  }

  /** The key of an object in the listing. */
  function ListingKey(ws: int, id: int): string {
    "ws." + IntToString(ws) + ".obj." + IntToString(id)
  }

  /** Two listing keys are equal only for the same workspace and object. */
  lemma ListingKeyInjective(ws1: int, id1: int, ws2: int, id2: int)
    requires ListingKey(ws1, id1) == ListingKey(ws2, id2)
    ensures ws1 == ws2 && id1 == id2
  {
    ListingKeyParts(IntToString(ws1), IntToString(id1), IntToString(ws2), IntToString(id2));
    IntToStringInjective(ws1, ws2);
    IntToStringInjective(id1, id2);
  }

  /** The workspace part of a listing key is the text between "ws." and the next dot. */
  lemma ListingKeyParts(a: string, c: string, b: string, d: string)
    requires '.' !in a && '.' !in b
    requires "ws." + a + ".obj." + c == "ws." + b + ".obj." + d
    ensures a == b && c == d
  {
    var k1, k2 := "ws." + a + ".obj." + c, "ws." + b + ".obj." + d;
    assert k1[3..] == a + ("." + ("obj." + c));
    assert k2[3..] == b + ("." + ("obj." + d));
    SplitAtFirstDot(a, "obj." + c, b, "obj." + d);
    assert c == ("obj." + c)[4..];
    assert d == ("obj." + d)[4..];
  }

  /** A dot-free prefix ends at the first dot. */
  lemma SplitAtFirstDot(a: string, x: string, b: string, y: string)
    requires '.' !in a && '.' !in b
    requires a + ("." + x) == b + ("." + y)
    ensures a == b && x == y
  {
    var s := a + ("." + x);
    DotAfter(a, x);
    DotAfter(b, y);
    assert a == s[..|a|];
    assert b == s[..|b|];
    assert x == s[|a| + 1..];
    assert y == (b + ("." + y))[|b| + 1..];
  }

  /** The position of the first dot, or the length when there is none. */
  function FirstDot(s: string): (i: nat)
    ensures i <= |s|
  {
    if s == [] || s[0] == '.' then 0 else 1 + FirstDot(s[1..])
  }

  lemma {:induction false} DotAfter(a: string, x: string)
    requires '.' !in a
    ensures FirstDot(a + ("." + x)) == |a|
  {
    if a != [] {
      assert (a + ("." + x))[1..] == a[1..] + ("." + x);
      DotAfter(a[1..], x);
    }
  }

  /** The listing entry for a version: deleted flag and name from the object, the rest from the version. */
  function ListingOf(o: ObjDoc, v: VerDoc): Listing {
    Listing(o.deleted, o.name, v.savedBy, v.ver, v.typ, v.saveDate)
  }

  /**
   * `update_object_list`: the entry under the version's key ends up with
   * the larger of the stored and the incoming version number, a tie going
   * to the incoming version; no other entry changes.
   */
  function UpdatedListing(m: map<string, Listing>, o: ObjDoc, v: VerDoc): (r: map<string, Listing>)
    ensures var key := ListingKey(v.ws, v.id);
      && r.Keys == m.Keys + {key}
      && (forall k | k in m && k != key :: r[k] == m[k])
      && (r[key] == ListingOf(o, v) || (key in m && r[key] == m[key]))
      && r[key].ver >= v.ver
      && (key in m ==> r[key].ver >= m[key].ver)
      && (r[key].ver == v.ver ==> r[key] == ListingOf(o, v))
  {
    var key := ListingKey(v.ws, v.id);
    if key in m && m[key].ver > v.ver then m else m[key := ListingOf(o, v)]
  }

  /** What a page's versions are joined against: its workspace's owner and visibility, and its objects by id. */
  datatype Page = Page(ws: int, owner: string, vis: Visibility, objs: map<int, ObjDoc>)

  /** The `id2obj` loop: each object under its id, a later record overwriting an earlier one. */
  function Id2Obj(objs: seq<ObjDoc>): (m: map<int, ObjDoc>)
    ensures m.Keys == set o | o in objs :: o.id
    ensures forall id | id in m :: m[id] in objs && m[id].id == id
  {
    if objs == [] then map[]
    else
      var o := objs[|objs| - 1];
      var m := Id2Obj(objs[..|objs| - 1])[o.id := o];
      assert objs == objs[..|objs| - 1] + [o];
      m
  }

  /** The object query of a page: the workspace's objects with id in `(lo, hi]`, in store order. */
  function ObjectQuery(objects: seq<ObjDoc>, ws: int, lo: int, hi: int): (r: seq<ObjDoc>)
    ensures forall o | o in r :: o.ws == ws && lo < o.id <= hi
    ensures forall o | o in objects && o.ws == ws && lo < o.id <= hi :: o in r
  {
    if objects == [] then []
    else
      var o := objects[|objects| - 1];
      var prev := ObjectQuery(objects[..|objects| - 1], ws, lo, hi);
      assert objects == objects[..|objects| - 1] + [o];
      if o.ws == ws && lo < o.id <= hi then prev + [o] else prev
  }

  /** The version query of a page: the workspace's versions with object id in `(lo, hi]`, in store order. */
  function VersionQuery(versions: seq<VerDoc>, ws: int, lo: int, hi: int): (r: seq<VerDoc>)
    ensures forall v | v in r :: v.ws == ws && lo < v.id <= hi
    ensures forall v | v in versions && v.ws == ws && lo < v.id <= hi :: v in r
  {
    if versions == [] then []
    else
      var v := versions[|versions| - 1];
      var prev := VersionQuery(versions[..|versions| - 1], ws, lo, hi);
      assert versions == versions[..|versions| - 1] + [v];
      if v.ws == ws && lo < v.id <= hi then prev + [v] else prev
  }

  /** The object query keeps each matching record as often as the store holds it, and nothing else. */
  lemma {:induction false} ObjectQueryCounts(objects: seq<ObjDoc>, ws: int, lo: int, hi: int)
    ensures forall o :: multiset(ObjectQuery(objects, ws, lo, hi))[o]
                          == if o.ws == ws && lo < o.id <= hi then multiset(objects)[o] else 0
  {
    if objects != [] {
      var init, last := objects[..|objects| - 1], objects[|objects| - 1];
      assert objects == init + [last];
      ObjectQueryCounts(init, ws, lo, hi);
    }
  }

  /** The version query keeps each matching record as often as the store holds it, and nothing else. */
  lemma {:induction false} VersionQueryCounts(versions: seq<VerDoc>, ws: int, lo: int, hi: int)
    ensures forall v :: multiset(VersionQuery(versions, ws, lo, hi))[v]
                          == if v.ws == ws && lo < v.id <= hi then multiset(versions)[v] else 0
  {
    if versions != [] {
      var init, last := versions[..|versions| - 1], versions[|versions| - 1];
      assert versions == init + [last];
      VersionQueryCounts(init, ws, lo, hi);
    }
  }

  /** A version is counted when its object is on the page; others belong to objects made after the page was read. */
  predicate OnPage(page: Page, v: VerDoc) {
    v.id in page.objs
  }

  /** The user key a counted version adds to: owner and visibility from the index, deleted state from the object. */
  function UserKeyOf(page: Page, v: VerDoc): UserKey
    requires OnPage(page, v)
  {
    (page.owner, page.vis, DelStateOf(page.objs[v.id]))
  }

  function WsKeyOf(page: Page, v: VerDoc): WsKey
    requires OnPage(page, v)
  {
    (page.ws, DelStateOf(page.objs[v.id]))
  }

  function TypeKeyOf(page: Page, v: VerDoc): TypeKey
    requires OnPage(page, v)
  {
    (page.owner, TypePrefix(v.typ), page.vis, DelStateOf(page.objs[v.id]))
  }

  /** A version that is counted per type: on the page, with an included type prefix. */
  predicate Typed(page: Page, v: VerDoc, inclTypes: set<string>) {
    OnPage(page, v) && TypePrefix(v.typ) in inclTypes
  }

  /** A version that goes into the listing: on the page, with a listed type prefix. */
  predicate Listed(page: Page, v: VerDoc, listTypes: set<string>) {
    OnPage(page, v) && TypePrefix(v.typ) in listTypes
  }

  /*
   * The loop over a page's versions, in order, one accumulator at a time
   * (the source updates all four in the same iteration; they do not
   * depend on each other).
   */

  function FoldUsers(m: map<UserKey, Counts>, page: Page, vs: seq<VerDoc>): map<UserKey, Counts> {
    if vs == [] then m
    else
      var prev := FoldUsers(m, page, vs[..|vs| - 1]);
      var v := vs[|vs| - 1];
      if OnPage(page, v) then Bump(prev, UserKeyOf(page, v), v.size) else prev
  }

  function FoldWorkspaces(m: map<WsKey, Counts>, page: Page, vs: seq<VerDoc>): map<WsKey, Counts> {
    if vs == [] then m
    else
      var prev := FoldWorkspaces(m, page, vs[..|vs| - 1]);
      var v := vs[|vs| - 1];
      if OnPage(page, v) then Bump(prev, WsKeyOf(page, v), v.size) else prev
  }

  function FoldTypes(m: map<TypeKey, Counts>, page: Page, vs: seq<VerDoc>, inclTypes: set<string>): map<TypeKey, Counts> {
    if vs == [] then m
    else
      var prev := FoldTypes(m, page, vs[..|vs| - 1], inclTypes);
      var v := vs[|vs| - 1];
      if Typed(page, v, inclTypes) then Bump(prev, TypeKeyOf(page, v), v.size) else prev
  }

  function FoldListing(m: map<string, Listing>, page: Page, vs: seq<VerDoc>, listTypes: set<string>): map<string, Listing> {
    if vs == [] then m
    else
      var prev := FoldListing(m, page, vs[..|vs| - 1], listTypes);
      var v := vs[|vs| - 1];
      if Listed(page, v, listTypes) then UpdatedListing(prev, page.objs[v.id], v) else prev
  }

  /** The four accumulators after a run of a page's versions, skipping those whose object is not on the page. */
  function FoldPage(a: Aggregates, page: Page, vs: seq<VerDoc>, inclTypes: set<string>, listTypes: set<string>): Aggregates {
    Aggregates(
      FoldUsers(a.users, page, vs),
      FoldWorkspaces(a.workspaces, page, vs),
      FoldTypes(a.types, page, vs, inclTypes),
      FoldListing(a.listing, page, vs, listTypes))
  }

  /** The versions the loop counts, in order. */
  function Joined(page: Page, vs: seq<VerDoc>): (r: seq<VerDoc>)
    ensures |r| <= |vs|
    ensures forall v | v in r :: v in vs && OnPage(page, v)
    ensures forall v | v in vs && OnPage(page, v) :: v in r
  {
    if vs == [] then []
    else
      var prev := Joined(page, vs[..|vs| - 1]);
      var v := vs[|vs| - 1];
      assert vs == vs[..|vs| - 1] + [v];
      if OnPage(page, v) then prev + [v] else prev
  }

  /** The join keeps each version whose object is on the page as often as the query returned it, and nothing else. */
  lemma {:induction false} JoinedCounts(page: Page, vs: seq<VerDoc>)
    ensures forall v :: multiset(Joined(page, vs))[v] == if OnPage(page, v) then multiset(vs)[v] else 0
  {
    if vs != [] {
      var init, last := vs[..|vs| - 1], vs[|vs| - 1];
      assert vs == init + [last];
      JoinedCounts(page, init);
    }
  }

  /** `process_object_versions` needs the workspace of the page's last object in the index. */
  predicate PageReady(index: map<int, WsEntry>, objs: seq<ObjDoc>) {
    objs != [] ==> objs[|objs| - 1].ws in index
  }

  /** The join context of a non-empty page: the workspace of its last object, as the source takes it. */
  function PageOf(index: map<int, WsEntry>, objs: seq<ObjDoc>): (page: Page)
    requires objs != [] && PageReady(index, objs)
    ensures page.ws == objs[|objs| - 1].ws && page.objs.Keys == set o | o in objs :: o.id
  {
    var ws := objs[|objs| - 1].ws;
    Page(ws, index[ws].owner, index[ws].vis, Id2Obj(objs))
  }

  /**
   * What one version whose object is on the page adds: a count and its
   * size to its user key and its workspace key, to its type key when the
   * type prefix is included, and an update of its listing entry when the
   * prefix is listed.
   */
  function AddedVersion(a: Aggregates, page: Page, v: VerDoc, inclTypes: set<string>, listTypes: set<string>): Aggregates
    requires OnPage(page, v)
  {
    Aggregates(
      Bump(a.users, UserKeyOf(page, v), v.size),
      Bump(a.workspaces, WsKeyOf(page, v), v.size),
      if TypePrefix(v.typ) in inclTypes then Bump(a.types, TypeKeyOf(page, v), v.size) else a.types,
      if TypePrefix(v.typ) in listTypes then UpdatedListing(a.listing, page.objs[v.id], v) else a.listing)
  }

  /** Folding one more version whose object is on the page is one `AddedVersion` step. */
  lemma FoldPageSnoc(a: Aggregates, page: Page, done: seq<VerDoc>, v: VerDoc, inclTypes: set<string>, listTypes: set<string>)
    requires OnPage(page, v)
    ensures FoldPage(a, page, done + [v], inclTypes, listTypes)
      == AddedVersion(FoldPage(a, page, done, inclTypes, listTypes), page, v, inclTypes, listTypes)
  {
    assert (done + [v])[..|done|] == done;
  }

  /**
   * `process_object_versions`: the accumulators after the page and the
   * number of versions counted.  An empty page changes nothing.
   */
  function PageResult(a: Aggregates, index: map<int, WsEntry>, objs: seq<ObjDoc>, versions: seq<VerDoc>,
                      inclTypes: set<string>, listTypes: set<string>, lo: int, hi: int): (Aggregates, nat)
    requires PageReady(index, objs)
  {
    if objs == [] then (a, 0)
    else
      var page := PageOf(index, objs);
      var vs := VersionQuery(versions, page.ws, lo, hi);
      (FoldPage(a, page, vs, inclTypes, listTypes), |Joined(page, vs)|)
  }

  /** The accumulators the source threads through its calls and updates in place. */
  class Accumulators {
    var userData: map<UserKey, Counts>
    var wsData: map<WsKey, Counts>
    var typeData: map<TypeKey, Counts>
    var objList: map<string, Listing>

    function State(): Aggregates
      reads this
    {
      Aggregates(userData, wsData, typeData, objList)
    }

    constructor ()
      ensures State() == Empty
    {
      userData, wsData, typeData, objList := map[], map[], map[], map[];
    }

    /** `update_object_list`. */
    method UpdateObjectList(obj: ObjDoc, version: VerDoc)
      modifies this`objList
      ensures objList == UpdatedListing(old(objList), obj, version)
    {
      var objKbid := "ws." + IntToString(version.ws) + ".obj." + IntToString(version.id);
      if objKbid in objList && objList[objKbid].ver > version.ver {
        return;
      }
      objList := objList[objKbid := Listing(obj.deleted, obj.name, version.savedBy, version.ver, version.typ, version.saveDate)];
    }

    /** `process_object_versions` for one page of objects and the id range `(startId, endId]`. */
    method ProcessObjectVersions(workspaces: map<int, WsEntry>, objects: seq<ObjDoc>, versions: seq<VerDoc>,
                                 inclTypes: set<string>, listTypes: set<string>, startId: int, endId: int)
      returns (vers: nat)
      requires PageReady(workspaces, objects)
      modifies this
      ensures State() == PageResult(old(State()), workspaces, objects, versions, inclTypes, listTypes, startId, endId).0
      ensures vers == PageResult(old(State()), workspaces, objects, versions, inclTypes, listTypes, startId, endId).1
      ensures objects == [] ==> State() == old(State()) && vers == 0
    {
      var id2obj := ObjectsById(objects);
      if id2obj == map[] {
        assert objects != [] ==> objects[0].id in id2obj;
        return 0;
      }
      var ws := objects[|objects| - 1].ws;
      var wsowner := workspaces[ws].owner;
      var wspub := workspaces[ws].vis;
      var res := VersionQuery(versions, ws, startId, endId);
      vers := CountVersions(Page(ws, wsowner, wspub, id2obj), res, inclTypes, listTypes);
    }

    /** The loop building `id2obj`. */
    static method ObjectsById(objects: seq<ObjDoc>) returns (id2obj: map<int, ObjDoc>)
      ensures id2obj == Id2Obj(objects)
    {
      id2obj := map[];
      for i := 0 to |objects|
        invariant id2obj == Id2Obj(objects[..i])
      {
        assert objects[..i + 1][..i] == objects[..i];
        id2obj := id2obj[objects[i].id := objects[i]];
      }
      assert objects[..|objects|] == objects;
    }

    /** The loop over the page's versions. */
    method CountVersions(page: Page, res: seq<VerDoc>, inclTypes: set<string>, listTypes: set<string>)
      returns (vers: nat)
      modifies this
      ensures State() == FoldPage(old(State()), page, res, inclTypes, listTypes)
      ensures vers == |Joined(page, res)|
    {
      ghost var before := State();
      vers := 0;
      for j := 0 to |res|
        invariant State() == FoldPage(before, page, res[..j], inclTypes, listTypes)
        invariant vers == |Joined(page, res[..j])|
      {
        var v := res[j];
        assert res[..j + 1] == res[..j] + [v];
        if v.id !in page.objs {
          assert State() == FoldPage(before, page, res[..j + 1], inclTypes, listTypes);
          continue;
        }
        vers := vers + 1;
        FoldPageSnoc(before, page, res[..j], v, inclTypes, listTypes);
        AddVersion(page, v, inclTypes, listTypes);
      }
      assert res[..|res|] == res;
    }

    /** The body of the version loop for a version whose object is on the page. */
    method AddVersion(page: Page, v: VerDoc, inclTypes: set<string>, listTypes: set<string>)
      requires OnPage(page, v)
      modifies this
      ensures State() == AddedVersion(old(State()), page, v, inclTypes, listTypes)
    {
      var o := page.objs[v.id];
      var deleted := if o.deleted then Del else Std;
      userData := userData[(page.owner, page.vis, deleted) := Get(userData, (page.owner, page.vis, deleted)).WithVersion(v.size)];
      wsData := wsData[(page.ws, deleted) := Get(wsData, (page.ws, deleted)).WithVersion(v.size)];
      var t := TypePrefix(v.typ);
      if t in inclTypes {
        typeData := typeData[(page.owner, t, page.vis, deleted) := Get(typeData, (page.owner, t, page.vis, deleted)).WithVersion(v.size)];
      }
      if t in listTypes {
        UpdateObjectList(o, v);
      }
    }
  }
}
