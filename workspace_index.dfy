/**
 * The workspace index (`process_workspaces`): one entry per workspace
 * record, giving its owner, name, declared object count, visibility and
 * the number of users it is shared with.  The store's answers are inputs:
 * the workspace records, the ids named by access-control records that
 * grant the wildcard user `*`, and each workspace's access-control count.
 */
module WorkspaceIndex {

  datatype Visibility = Pub | Priv

  /** A record of the workspaces collection, with the fields the job asks for. */
  datatype WsDoc = WsDoc(id: int, numObj: int, owner: string, deleted: bool, name: string)

  /** An index entry: `shd`, `pub`, `numObj`, `owner` and `name` of the source's per-workspace dictionary. */
  datatype WsEntry = WsEntry(shd: int, vis: Visibility, numObj: int, owner: string, name: string)

  function DocIds(docs: seq<WsDoc>): set<int> {
    set d | d in docs :: d.id
  }

  /** The entry the first loop writes for a record: private, shared with every ACL holder but one. */
  function EntryOf(d: WsDoc, aclCount: nat): WsEntry {
    WsEntry(aclCount as int - 1, Priv, d.numObj, d.owner, d.name)
  }

  /** The first loop: every record's entry, a later record overwriting an earlier one with the same id. */
  function Indexed(docs: seq<WsDoc>, aclCounts: map<int, nat>): (m: map<int, WsEntry>)
    requires forall d | d in docs :: d.id in aclCounts
    ensures m.Keys == DocIds(docs)
    ensures forall w | w in m :: m[w].vis == Priv
  {
    if docs == [] then map[]
    else
      var d := docs[|docs| - 1];
      var m := Indexed(docs[..|docs| - 1], aclCounts)[d.id := EntryOf(d, aclCounts[d.id])];
      assert docs == docs[..|docs| - 1] + [d];
      m
  }

  /** One public grant takes the wildcard user off the shared count, unless the count is not positive. */
  function Unshare(shd: int): int {
    if shd > 0 then shd - 1 else shd
  }

  /** The second loop, over the ACLs that grant `*`. */
  function MarkedPublic(m: map<int, WsEntry>, pubs: seq<int>): (r: map<int, WsEntry>)
    requires forall p | p in pubs :: p in m
    ensures r.Keys == m.Keys
  {
    if pubs == [] then m
    else
      var prev := MarkedPublic(m, pubs[..|pubs| - 1]);
      var p := pubs[|pubs| - 1];
      prev[p := prev[p].(vis := Pub, shd := Unshare(prev[p].shd))]
  }

  /**
   * `process_workspaces`.  A wildcard grant for an id with no workspace
   * record is excluded: the source then compares an empty dictionary
   * with 0 and subtracts 1 from it, which raises `TypeError`.
   */
  method ProcessWorkspaces(docs: seq<WsDoc>, pubs: seq<int>, aclCounts: map<int, nat>)
    returns (workspaces: map<int, WsEntry>)
    requires forall d | d in docs :: d.id in aclCounts
    requires forall p | p in pubs :: p in DocIds(docs)
    ensures workspaces == MarkedPublic(Indexed(docs, aclCounts), pubs)
  {
    workspaces := map[];
    var i := 0;
    while i < |docs|
      invariant 0 <= i <= |docs|
      invariant workspaces == Indexed(docs[..i], aclCounts)
    {
      var ws := docs[i];
      assert docs[..i + 1][..i] == docs[..i];
      var aclCount: int := aclCounts[ws.id];
      workspaces := workspaces[ws.id := WsEntry(aclCount - 1, Priv, ws.numObj, ws.owner, ws.name)];
      i := i + 1;
    }
    assert docs[..i] == docs;
    workspaces := MarkPublic(workspaces, pubs);
  }

  /** The second loop of `process_workspaces`, over the ACLs that grant `*`. */
  method MarkPublic(indexed: map<int, WsEntry>, pubs: seq<int>) returns (workspaces: map<int, WsEntry>)
    requires forall p | p in pubs :: p in indexed
    ensures workspaces == MarkedPublic(indexed, pubs)
  {
    workspaces := indexed;
    var j := 0;
    while j < |pubs|
      invariant 0 <= j <= |pubs|
      invariant workspaces == MarkedPublic(indexed, pubs[..j])
    {
      var pr := pubs[j];
      assert pubs[..j + 1][..j] == pubs[..j];
      ghost var marked := workspaces[pr].(vis := Pub, shd := Unshare(workspaces[pr].shd));
      workspaces := workspaces[pr := workspaces[pr].(vis := Pub)];
      if workspaces[pr].shd > 0 {
        workspaces := workspaces[pr := workspaces[pr].(shd := workspaces[pr].shd - 1)];
      }
      assert workspaces[pr] == marked;
      j := j + 1;
    }
    assert pubs[..j] == pubs;
  }

  /** `Unshare` applied `k` times. */
  function UnshareTimes(shd: int, k: nat): int {
    if k == 0 then shd else Unshare(UnshareTimes(shd, k - 1))
  }

  /** Repeated grants stop taking users off at zero, and never touch a count that is already zero or negative. */
  lemma {:induction false} UnshareTimesClosedForm(shd: int, k: nat)
    ensures UnshareTimes(shd, k) == if shd <= 0 then shd else if shd - k > 0 then shd - k else 0
  {
    if k > 0 {
      UnshareTimesClosedForm(shd, k - 1);
    }
  }

  /** Marking keeps owner, name and object count, and sets visibility and shared count per grant. */
  lemma {:induction false} MarkedPublicEntry(m: map<int, WsEntry>, pubs: seq<int>, w: int)
    requires forall p | p in pubs :: p in m
    requires w in m
    ensures var e := MarkedPublic(m, pubs)[w];
      && e.owner == m[w].owner && e.name == m[w].name && e.numObj == m[w].numObj
      && (e.vis == Pub <==> w in pubs || m[w].vis == Pub)
      && (w !in pubs ==> e.vis == m[w].vis)
      && e.shd == UnshareTimes(m[w].shd, multiset(pubs)[w])
  {
    if pubs != [] {
      var init := pubs[..|pubs| - 1];
      MarkedPublicEntry(m, init, w);
      assert pubs == init + [pubs[|pubs| - 1]];
      assert multiset(pubs) == multiset(init) + multiset{pubs[|pubs| - 1]};
    }
  }

  /** The record with that id that comes last: the one whose entry the first loop leaves in place. */
  predicate IsLastWithId(docs: seq<WsDoc>, i: int) {
    0 <= i < |docs| && forall j | i < j < |docs| :: docs[j].id != docs[i].id
  }

  lemma {:induction false} IndexedLastWins(docs: seq<WsDoc>, aclCounts: map<int, nat>, i: int)
    requires forall d | d in docs :: d.id in aclCounts
    requires IsLastWithId(docs, i)
    ensures Indexed(docs, aclCounts)[docs[i].id] == EntryOf(docs[i], aclCounts[docs[i].id])
  {
    if i < |docs| - 1 {
      var init := docs[..|docs| - 1];
      assert init[i] == docs[i];
      IndexedLastWins(init, aclCounts, i);
    }
  }

  /**
   * What `process_workspaces` promises for each workspace: owner, name and
   * object count come from its last record; it is public exactly when
   * some wildcard grant names it; its shared count is the ACL count less
   * one, less one more per wildcard grant as long as it stays positive.
   */
  lemma ProcessWorkspacesEntry(docs: seq<WsDoc>, pubs: seq<int>, aclCounts: map<int, nat>, i: int)
    requires forall d | d in docs :: d.id in aclCounts
    requires forall p | p in pubs :: p in DocIds(docs)
    requires IsLastWithId(docs, i)
    ensures var w := docs[i].id;
      var index := MarkedPublic(Indexed(docs, aclCounts), pubs);
      var shd: int := aclCounts[w] as int - 1;
      var grants: int := multiset(pubs)[w];
      && w in index
      && index[w].owner == docs[i].owner && index[w].name == docs[i].name
      && index[w].numObj == docs[i].numObj
      && (index[w].vis == Pub <==> w in pubs)
      && index[w].shd == (if shd <= 0 then shd else if shd - grants > 0 then shd - grants else 0)
  {
    var w := docs[i].id;
    var indexed := Indexed(docs, aclCounts);
    IndexedLastWins(docs, aclCounts, i);
    MarkedPublicEntry(indexed, pubs, w);
    UnshareTimesClosedForm(aclCounts[w] as int - 1, multiset(pubs)[w]);
  }

  /** The index has exactly one entry per workspace id in the records. */
  lemma ProcessWorkspacesKeys(docs: seq<WsDoc>, pubs: seq<int>, aclCounts: map<int, nat>)
    requires forall d | d in docs :: d.id in aclCounts
    requires forall p | p in pubs :: p in DocIds(docs)
    ensures MarkedPublic(Indexed(docs, aclCounts), pubs).Keys == DocIds(docs)
  {
  }
}
