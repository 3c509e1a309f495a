# Workspace statistics, modelled in Dafny

A model of the core of `scripts/workspace_statistics.py`. The job reads a
configuration file, indexes every workspace of a workspace store, and then
reads the store's objects and object versions page by page. It adds up the
number and the total size of the object versions:

- per user, by visibility (`pub`/`priv`) and by deleted state (`del`/`std`);
- per workspace, by deleted state;
- per user and type prefix, for the configured types.

It also keeps a listing of the newest version of each object whose type is
configured for listing.

Modules, one per part of the job:

| file | module | what it models |
|---|---|---|
| `wrappers.dfy` | `Wrappers` | `Option` and `Result` |
| `text.dfy` | `Text` | decimal rendering of ints (`str`) and Python's `int()` on strings |
| `config.dfy` | `Config` | `get_config`, `process_optional_key`, `process_config_string_list`; the parsed file is a `ConfigObj` class whose `sections` map the methods reassign; every `sys.exit(1)` is a `ConfigError` result |
| `workspace_index.dfy` | `WorkspaceIndex` | `process_workspaces`: two loops over the workspace records and the wildcard ACL records |
| `paging.dfy` | `Paging` | the `xrange(LIMIT, n + LIMIT, LIMIT)` page limits and their id ranges |
| `aggregation.dfy` | `Aggregation` | `process_object_versions` and `update_object_list`: the `Accumulators` class holds the four accumulators as map fields; the pure `FoldPage`/`PageResult` functions are their specification |
| `page_properties.dfy` | `PageProperties` | per-key totals of one page, skipped orphan versions, type gating, the listing keeping the newest version |
| `objects.dfy` | `ObjectScan` | `process_objects`: the loop over workspaces and the loop over pages |
| `scan_properties.dfy` | `ScanProperties` | excluded workspaces contribute nothing; type totals stay backed by user totals |
| `scan_totals.dfy` | `ScanTotals` | the totals and the listing after the whole scan, against the versions counted on every page of every workspace |
| `report.dfy` | `Report` | the post-processing in `main`: object counts dropped from the index, type totals attached to users |

The store's collections are inputs: the workspace records, the wildcard ACL
records, the ACL count per workspace, the object records and the version
records. Each is a sequence in store order. A query is a filter of the
sequence that keeps that order. A Python dict's iteration order is an
`order` parameter: a sequence of the dict's keys.

## Model

| member | source | states |
|---|---|---|
| `Text.NatToString` | scripts/workspace_statistics.py:239 | the rendering of a natural is a non-empty digit string whose value is the number and which has no leading zero |
| `Text.IntToString` | scripts/workspace_statistics.py:239 | `str` of an int is non-empty and has no '.'; it starts with a digit exactly when the number is not negative |
| `Text.IntToStringInjective` | scripts/workspace_statistics.py:239 | different ints render differently |
| `Text.TrimLeftSuffix` | scripts/workspace_statistics.py:172 | stripping leading whitespace leaves a suffix of the string that does not start with whitespace, and every character dropped is whitespace |
| `Text.TrimRightPrefix` | scripts/workspace_statistics.py:172 | stripping trailing whitespace leaves a prefix of the string that does not end with whitespace, and every character dropped is whitespace |
| `Text.StripSplit` | scripts/workspace_statistics.py:172 | a string is whitespace, then its stripped form, then whitespace |
| `Text.ParseIntOfLiteral` | scripts/workspace_statistics.py:172 | `int()` of whitespace, an optional sign, one or more digits and whitespace is the value of the digits, negated for '-' |
| `Text.ParseIntIsLiteral` | scripts/workspace_statistics.py:172 | whenever `int()` succeeds, the string has that shape and the result is that value |
| `Text.ParseIntOfIntToString` | scripts/workspace_statistics.py:195 | `int(str(n)) == n` for every int |
| `Config.OptionalValue` | scripts/workspace_statistics.py:145-149 | the value is None exactly when the key is missing or its value is the empty string; otherwise it is the stored value |
| `Config.ConfigObj.ProcessOptionalKey` | scripts/workspace_statistics.py:145-149 | returns that value and writes it back under the key, changing no other entry |
| `Config.StringSetValue` | scripts/workspace_statistics.py:203-211 | an empty value becomes None; a scalar becomes a one-element set, a list becomes the set of its items |
| `Config.ConfigObj.ProcessConfigStringList` | scripts/workspace_statistics.py:203-211 | replaces just that entry with its set form |
| `Config.PortError` | scripts/workspace_statistics.py:171-175 | the port is accepted exactly when it is already an int or a string `int()` accepts |
| `Config.ConnectionsError` | scripts/workspace_statistics.py:160-182 | no error only when both sections are present |
| `Config.ConfigObj.CheckConnection` | scripts/workspace_statistics.py:161-175 | reports a missing section, the first missing or empty host/port/db, or a bad port; on success it replaces only the port, with its int value |
| `Config.ConfigObj.CheckConnections` | scripts/workspace_statistics.py:160-182 | both loops over the two sections, the connection loop then the credential loop: the first error, or both sections with their port, user and password normalised |
| `Config.ConfigObj.CheckCredentials` | scripts/workspace_statistics.py:177-182 | normalises user and password to None-if-empty and fails exactly when a user comes without a password |
| `Config.ConnectionErrorIffUnusable` | scripts/workspace_statistics.py:160-182 | a section passes the connection and credential checks exactly when it has the section, a non-empty host, port and db, a valid port, and no user without a password |
| `Config.NormalisedConnection` | scripts/workspace_statistics.py:172-182 | keeps the keys and adds `user`/`pwd`; the port becomes an int; user and password become their None-if-empty values, None exactly when missing or empty; every other entry keeps its value |
| `Config.FirstBadId` | scripts/workspace_statistics.py:193-198 | None exactly when every exclusion id parses as an int; otherwise an unparsable item of the list |
| `Config.FirstBadIdAt` | scripts/workspace_statistics.py:193-198 | the reported id is the first unparsable item |
| `Config.ParseWorkspaceIds` | scripts/workspace_statistics.py:192-199 | the loop succeeds exactly when every item parses, failing on the first bad one; on success it returns the set of the parsed ids |
| `Config.ListsErrorIffNotReady` | scripts/workspace_statistics.py:185-199 | the source section passes the list steps exactly when `types`, `list-objects` and `exclude-ws` are present and every exclusion id parses |
| `Config.ConfigObj.ProcessSourceLists` | scripts/workspace_statistics.py:185-199 | on success replaces the two type lists with their set forms and a non-empty exclusion entry with its set of ids |
| `Config.NormalisedConnectionKeepsLists` | scripts/workspace_statistics.py:172-186 | normalising the connection entries leaves the three list entries as they were |
| `Config.ListsUnaffectedByConnection` | scripts/workspace_statistics.py:172-199 | the list checks give the same verdict before and after the connection entries are normalised |
| `Config.FirstErrorIffUnusable` | scripts/workspace_statistics.py:152-200 | the configuration is rejected exactly when it is not usable: both sections, their connection values, credentials and the source's lists |
| `Config.ConfigObj.GetConfig` | scripts/workspace_statistics.py:152-200 | fails exactly when there is a first error, and with that error; otherwise it returns the normalised source and target sections and writes them back |
| `Config.NormalisedSourceShape` | scripts/workspace_statistics.py:185-200 | after success both ports are ints, a user always has a password, the type lists are None or non-empty sets, and the exclusion entry is a set of ids or was empty |
| `WorkspaceIndex.Indexed` | scripts/workspace_statistics.py:223-230 | the first loop gives one entry per workspace id, all private |
| `WorkspaceIndex.MarkedPublic` | scripts/workspace_statistics.py:231-234 | the second loop keeps the set of workspace ids |
| `WorkspaceIndex.ProcessWorkspaces` | scripts/workspace_statistics.py:215-235 | the two loops compute the index as the records, then the wildcard grants, applied in order |
| `WorkspaceIndex.MarkPublic` | scripts/workspace_statistics.py:231-234 | the loop over the wildcard grants computes `MarkedPublic` of the index, grant by grant in order |
| `WorkspaceIndex.UnshareTimesClosedForm` | scripts/workspace_statistics.py:232-234 | k grants take a positive shared count down by k but not below zero; a count that is not positive is left alone |
| `WorkspaceIndex.MarkedPublicEntry` | scripts/workspace_statistics.py:231-234 | a grant sets `pub` and leaves owner, name and object count alone; the shared count is decremented once per grant while positive |
| `WorkspaceIndex.IndexedLastWins` | scripts/workspace_statistics.py:223-230 | a workspace's entry comes from its last record |
| `WorkspaceIndex.ProcessWorkspacesEntry` | scripts/workspace_statistics.py:215-235 | owner, name and object count come from the last record; `pub` exactly when some wildcard grant names the workspace; shared count is ACL count − 1, reduced once per grant while positive |
| `WorkspaceIndex.ProcessWorkspacesKeys` | scripts/workspace_statistics.py:215-235 | the index has exactly the workspace ids of the records |
| `Paging.PageLimits` | scripts/workspace_statistics.py:313 | there are `ceil(n / LIMIT)` pages (none for `n <= 0`) and the k-th ends at `(k + 1) * LIMIT` |
| `Paging.PageLoopTest` | scripts/workspace_statistics.py:313 | the loop test `lim < n + LIMIT` holds for the k-th limit exactly when k is below the page count |
| `Paging.PageLimitsAreXRange` | scripts/workspace_statistics.py:313 | a value is a page limit exactly when it is a multiple of LIMIT in `[LIMIT, n + LIMIT)` |
| `Paging.PagesContiguous` | scripts/workspace_statistics.py:313-319 | the id ranges `(lim - LIMIT, lim]` start at 0, follow one another without gap or overlap, each starts below n and the last reaches n |
| `Paging.PageOfId` | scripts/workspace_statistics.py:313-319 | every id in `1..n` lies in exactly one page, the page `(id - 1) / LIMIT` |
| `Aggregation.Bump` | scripts/workspace_statistics.py:279-287 | incrementing the count and the size of one auto-vivified key leaves every other key as it was |
| `Aggregation.TypePrefixBeforeFirstDash` | scripts/workspace_statistics.py:284 | the type prefix is a dash-free prefix of the type name that ends at the first '-' or at the end |
| `Aggregation.ListingKeyInjective` | scripts/workspace_statistics.py:239 | two listing keys are equal only for the same workspace id and object id |
| `Aggregation.UpdatedListing` | scripts/workspace_statistics.py:238-249 | the entry under the version's key ends with the larger version number; a tie goes to the incoming version, which takes its deleted flag and name from the object; no other entry changes |
| `Aggregation.Accumulators.UpdateObjectList` | scripts/workspace_statistics.py:238-249 | updates the listing as `UpdatedListing` says and changes nothing else |
| `Aggregation.Id2Obj` | scripts/workspace_statistics.py:259-261 | the map has one entry per object id of the page, and each entry is a record of the page with that id |
| `Aggregation.ObjectQuery` | scripts/workspace_statistics.py:319-321 | keeps exactly the objects of the workspace with id in `(lo, hi]` |
| `Aggregation.ObjectQueryCounts` | scripts/workspace_statistics.py:319-321 | each matching object record is kept as many times as the store holds it, and every other record zero times |
| `Aggregation.VersionQuery` | scripts/workspace_statistics.py:269-272 | keeps exactly the versions of the workspace with object id in `(lo, hi]` |
| `Aggregation.VersionQueryCounts` | scripts/workspace_statistics.py:269-272 | each matching version record is kept as many times as the store holds it, and every other record zero times |
| `Aggregation.Joined` | scripts/workspace_statistics.py:274-276 | the counted versions are exactly those whose object is on the page |
| `Aggregation.JoinedCounts` | scripts/workspace_statistics.py:274-278 | each version whose object is on the page is counted as many times as the query returned it, and every other version zero times |
| `Aggregation.Accumulators.constructor` | scripts/workspace_statistics.py:293-300 | the accumulators start empty |
| `Aggregation.Accumulators.ProcessObjectVersions` | scripts/workspace_statistics.py:253-290 | the new state and the returned count are the two parts of `PageResult` of the old state; an empty page changes nothing and returns 0 |
| `Aggregation.Accumulators.ObjectsById` | scripts/workspace_statistics.py:259-261 | the loop builds `Id2Obj` of the page |
| `Aggregation.Accumulators.CountVersions` | scripts/workspace_statistics.py:273-290 | the version loop ends with `FoldPage` of the old state and counts the joined versions |
| `Aggregation.FoldPageSnoc` | scripts/workspace_statistics.py:273-289 | folding one more joined version is one `AddedVersion` step: a count and the size go to its user and workspace keys, to its type key when the prefix is included, and its listing entry is updated when the prefix is listed |
| `Aggregation.Accumulators.AddVersion` | scripts/workspace_statistics.py:277-289 | one iteration on a joined version performs that step on the fields |
| `PageProperties.FoldUsersTotals` | scripts/workspace_statistics.py:277-281 | after a page, each user total is the old total plus the count and summed size of the joined versions that map to that owner, visibility and the object's deleted state |
| `PageProperties.FoldWorkspacesTotals` | scripts/workspace_statistics.py:277-283 | each workspace total grows by the count and size of its joined versions; a workspace other than the page's is untouched |
| `PageProperties.FoldTypesTotals` | scripts/workspace_statistics.py:284-287 | each type total grows by the count and size of the joined versions with that type prefix; a prefix outside the included types gets nothing |
| `PageProperties.FoldPageSkipsOrphans` | scripts/workspace_statistics.py:275-276 | skipping versions whose object is not on the page is the same as folding only the joined versions |
| `PageProperties.FoldListingKeepsNewest` | scripts/workspace_statistics.py:288-289 | after a page, no listing entry loses version number, every listed version has an entry at least as new, and keys of no listed version are untouched |
| `PageProperties.FoldListingEntriesFromVersions` | scripts/workspace_statistics.py:288-289 | every new or replaced listing entry is built from a listed version with that key and from that version's object |
| `PageProperties.FoldPageKeepsTypesCovered` | scripts/workspace_statistics.py:279-287 | a page keeps every type total backed by a user total with the same owner, visibility and deleted state |
| `PageProperties.PageCountsJoinedVersions` | scripts/workspace_statistics.py:262-290 | a page counts exactly the workspace's versions in the id range whose object is among the page's objects, each as many times as the store holds it, and returns how many |
| `ObjectScan.PageObjects` | scripts/workspace_statistics.py:319-321 | all objects of a page belong to the workspace being scanned |
| `ObjectScan.ProcessObjects` | scripts/workspace_statistics.py:293-332 | the fresh accumulators are `RunFold` of the empty state over the workspaces in index order |
| `ObjectScan.ScanWorkspace` | scripts/workspace_statistics.py:313-331 | the page loop applies `PageResult` for the pages ending at LIMIT, 2·LIMIT, … up to the last page limit, in order, with the same id range for the object and the version query |
| `ObjectScan.LastLimit` | scripts/workspace_statistics.py:313 | the last page of a workspace of n objects ends at the page count times LIMIT |
| `ObjectScan.LastLimitIsLastPage` | scripts/workspace_statistics.py:313 | that end is the last page limit the `xrange` yields, or 0 when it yields none |
| `ScanProperties.NotExcluded` | scripts/workspace_statistics.py:310-312 | keeps exactly the workspaces of the order that are not excluded |
| `ScanProperties.ExcludedContributeNothing` | scripts/workspace_statistics.py:303-331 | scanning the full order gives the same accumulators as scanning it with the excluded workspaces removed |
| `ScanProperties.PageLeavesOthers` | scripts/workspace_statistics.py:313-331 | a page of one workspace leaves the totals and listing entries of every other workspace unchanged |
| `ScanProperties.PagesLeaveOthers` | scripts/workspace_statistics.py:313-331 | the same holds for all pages of a workspace |
| `ScanProperties.SkippedWorkspaceUntouched` | scripts/workspace_statistics.py:303-331 | an excluded workspace, or one not in the index, ends the scan with the totals and listing entries it started with |
| `ScanProperties.ScanKeepsTypesCovered` | scripts/workspace_statistics.py:293-332 | the whole scan keeps every type total backed by a user total |
| `ScanProperties.PagesKeepTypesCovered` | scripts/workspace_statistics.py:313-331 | all pages of one workspace keep every type total backed by a user total |
| `ScanTotals.ScanUserTotals` | scripts/workspace_statistics.py:293-331 | over the whole scan, a user total grows by the count and summed size of exactly the versions counted under that owner, visibility and deleted state, on every page of every workspace that is not excluded |
| `ScanTotals.ScanWsTotals` | scripts/workspace_statistics.py:293-331 | the same for each workspace total |
| `ScanTotals.ScanTypeTotals` | scripts/workspace_statistics.py:293-331 | the same for each type total, counting only included type prefixes |
| `ScanTotals.ScanListingCovers` | scripts/workspace_statistics.py:293-331 | over the whole scan, no listing entry loses version number and every listed version has an entry of its version or a newer one |
| `ScanTotals.ScanFromEmpty` | scripts/workspace_statistics.py:293-332 | from empty accumulators, every user, workspace and type total is the count and summed size of exactly the versions counted under its key, and the listing holds each listed version or a newer one |
| `ScanTotals.PagesUserTotals` | scripts/workspace_statistics.py:313-331 | over the pages of one workspace, a user total grows by the tally of the versions counted under it |
| `ScanTotals.PagesWsTotals` | scripts/workspace_statistics.py:313-331 | the same for workspace totals |
| `ScanTotals.PagesTypeTotals` | scripts/workspace_statistics.py:313-331 | the same for type totals |
| `ScanTotals.PagesListingCovers` | scripts/workspace_statistics.py:313-331 | over the pages of one workspace, the listing covers every listed version and no entry goes back |
| `Report.WsTotals` | scripts/workspace_statistics.py:282-283 | a workspace has a total for a deleted state exactly when a version was counted under it, and it is that total |
| `Report.StripObjectCounts` | scripts/workspace_statistics.py:388-389 | every workspace keeps its shared count, visibility, owner and name, loses its object count and carries its totals |
| `Report.UsageOf` | scripts/workspace_statistics.py:390-391 | a user's usage holds exactly that user's totals, by visibility and deleted state |
| `Report.TypesOf` | scripts/workspace_statistics.py:390-391 | a user's type totals hold exactly that user's entries of the type accumulator |
| `Report.FoldTypesIntoUsers` | scripts/workspace_statistics.py:390-391 | every user with totals gets its usage and its type totals, an empty map when it has none |
| `Report.TypesAllReported` | scripts/workspace_statistics.py:390-391 | when type totals are backed by user totals, as the scan ensures, every type total appears in its user's report |

## Left out

- Reading and writing: the configuration file check and the parser, the Mongo connection, authentication and queries. The collections are inputs and a query is a filter of them. The JSON output files and the output directory are also out.
- Logging, timing, `print_table`, argument parsing (`_parseArgs`), `chunkiter` and `mkdir_p` are out.
- `MAX_WS` is out: it is -1, so its `break` never fires.
- The save date is an opaque string: `isoformat` is not modelled.
- Python dict iteration order is the `order` parameter. The methods ask only that every element of `order` is a key of the dict, so the model also allows an order that misses or repeats keys; Python visits each key exactly once.
- The workspace totals `workspaces[ws][del]` live in their own map keyed by workspace id and deleted state. The source stores them inside the index entries; `Report.StripObjectCounts` joins the two again.
- `WorkspaceIndex.ProcessWorkspaces` requires every wildcard grant to name an indexed workspace. For any other id, Python 2 auto-creates an entry whose shared count is a dict, and the job then crashes.
- `ObjectScan.ProcessObjects` takes the type lists and the exclusion list as sets. When `types` or `list-objects` is empty, `get_config` stores None, and `t in None` crashes at the first counted version; that case is out. An empty `exclude-ws` is left as it was: the empty string makes `ws in ''` raise a TypeError, which is out, while an empty list tests like the empty set, which is covered.
- `Config.ConfigObj.GetConfig`: when a key among `types`, `list-objects` and `exclude-ws` is missing, or the port is a list, the source crashes. The model reports these as `MissingKey` and `PortNotScalar` errors. On failure the contract does not say which sections were already rewritten.
- `Text.ParseIntOfLiteral` and `Text.ParseIntIsLiteral` do not model one quirk of Python 2's `int()`: it accepts whitespace between the sign and the digits.
- `main` as a whole is out: the config, index, scan and report steps are modelled but not chained into one method.
