/**
 * Reading and normalising the job's configuration (`get_config`,
 * `process_optional_key`, `process_config_string_list`).  The parsed
 * configuration file is a map from section name to a section, and a
 * section maps keys to values; normalisation overwrites section entries
 * in place, so the parsed file is an object whose `sections` field the
 * methods reassign.  Every `sys.exit(1)` of the source is an error
 * result here.
 */
module Config {
  import opened Wrappers
  import opened Text

  const SOURCE := "SourceMongo"
  const TARGET := "TargetMongo"

  const HOST := "host"
  const PORT := "port"
  const DB := "db"
  const USER := "user"
  const PWD := "pwd"

  const TYPES := "types"
  const LIST_OBJS := "list-objects"
  const EXCLUDE_WS := "exclude-ws"

  /** A configuration value: what the file parser produces, and what normalisation puts in its place. */
  datatype Value =
    | Str(s: string)            // a scalar, as the parser returns it
    | List(items: seq<string>)  // a comma-separated list, as the parser returns it
    | Int(n: int)
    | Nothing                   // Python's None
    | StrSet(strs: set<string>)
    | IntSet(ints: set<int>)

  type Section = map<string, Value>

  datatype ConfigError =
    | MissingSection(section: string)
    | MissingValue(section: string, key: string)
    | BadPort(section: string)
    | PortNotScalar(section: string)
    | PasswordRequired(section: string)
    | MissingKey(section: string, key: string)
    | BadWorkspaceId(id: string)

  /** The parser only ever produces strings and lists of strings. */
  predicate IsRaw(v: Value) {
    v.Str? || v.List?
  }

  predicate RawConfig(co: map<string, Section>) {
    forall sec | sec in co :: forall key | key in co[sec] :: IsRaw(co[sec][key])
  }

  /** Python truthiness of a value. */
  predicate Truthy(v: Value) {
    match v
    case Str(s) => s != ""
    case List(items) => items != []
    case Int(n) => n != 0
    case Nothing => false
    case StrSet(strs) => strs != {}
    case IntSet(ints) => ints != {}
  }

  /** A required key is missing when it is absent, empty or None. */
  predicate MissingOrEmpty(section: Section, key: string) {
    key !in section || section[key] == Str("") || section[key] == Nothing
  }

  /** The value `process_optional_key` stores and returns: the entry, with an empty string read as None. */
  function OptionalValue(section: Section, key: string): (v: Value)
    ensures v == Nothing <==> MissingOrEmpty(section, key)
    ensures v != Nothing ==> key in section && v == section[key]
  {
    if key !in section || section[key] == Str("") then Nothing else section[key]
  }

  /**
   * The value `process_config_string_list` stores: None for an empty entry,
   * a singleton set for a scalar, the set of the items for a list.
   */
  function StringSetValue(v: Value): (r: Value)
    requires IsRaw(v)
    ensures r == Nothing <==> !Truthy(v)
    ensures r != Nothing ==> r.StrSet? && r.strs != {}
    ensures r != Nothing ==> forall x :: x in r.strs <==> (if v.List? then x in v.items else x == v.s)
  {
    if !Truthy(v) then Nothing
    else if v.List? then
      var strs := set x | x in v.items;
      assert v.items[0] in strs;
      StrSet(strs)
    else StrSet({v.s})
  }

  /** `int(port)`: `None` where the text is not an integer; a list port makes Python raise `TypeError`. */
  function PortError(sec: string, port: Value): (r: Option<ConfigError>)
    ensures r.None? <==> port.Int? || (port.Str? && ParseInt(port.s).Some?)
  {
    match port
    case Str(p) => if ParseInt(p).None? then Some(BadPort(sec)) else None
    case Int(_) => None
    case _ => Some(PortNotScalar(sec))
  }

  function PortNumber(port: Value): int
    requires port.Int? || (port.Str? && ParseInt(port.s).Some?)
  {
    if port.Int? then port.n else ParseInt(port.s).value
  }

  /** The first failing check of one connection section: section, host, port, db, then the port's format. */
  function ConnectionError(co: map<string, Section>, sec: string): Option<ConfigError> {
    if sec !in co then Some(MissingSection(sec))
    else if MissingOrEmpty(co[sec], HOST) then Some(MissingValue(sec, HOST))
    else if MissingOrEmpty(co[sec], PORT) then Some(MissingValue(sec, PORT))
    else if MissingOrEmpty(co[sec], DB) then Some(MissingValue(sec, DB))
    else PortError(sec, co[sec][PORT])
  }

  /** A user name needs a password. */
  function CredentialsError(section: Section, sec: string): Option<ConfigError> {
    if OptionalValue(section, USER) != Nothing && OptionalValue(section, PWD) == Nothing
    then Some(PasswordRequired(sec))
    else None
  }

  /** The items of the exclusion entry: a scalar counts as a one-item list. */
  function ExcludeItems(v: Value): seq<string>
    requires IsRaw(v)
  {
    if v.List? then v.items else [v.s]
  }

  /** The first item that is not an integer. */
  function FirstBadId(items: seq<string>): (r: Option<string>)
    ensures r.None? <==> forall i | 0 <= i < |items| :: ParseInt(items[i]).Some?
    ensures r.Some? ==> r.value in items && ParseInt(r.value).None?
  {
    if items == [] then None
    else if ParseInt(items[0]).None? then Some(items[0])
    else
      var r := FirstBadId(items[1..]);
      assert forall i | 1 <= i < |items| :: items[i] == items[1..][i - 1];
      r
  }

  /**
   * The checks on the source's type lists and exclusion list.  A missing
   * `types`, `list-objects` or `exclude-ws` key makes Python raise
   * `KeyError`.
   */
  function ListsError(section: Section): Option<ConfigError> {
    if TYPES !in section then Some(MissingKey(SOURCE, TYPES))
    else if LIST_OBJS !in section then Some(MissingKey(SOURCE, LIST_OBJS))
    else if EXCLUDE_WS !in section then Some(MissingKey(SOURCE, EXCLUDE_WS))
    else
      var ex := section[EXCLUDE_WS];
      if Truthy(ex) && IsRaw(ex) && FirstBadId(ExcludeItems(ex)).Some?
      then Some(BadWorkspaceId(FirstBadId(ExcludeItems(ex)).value))
      else None
  }

  /**
   * The error `get_config` stops at, checks taken in the source's order:
   * both connection sections, then both credential pairs, then the
   * source's type lists and exclusion list.
   */
  function FirstError(co: map<string, Section>): Option<ConfigError> {
    if ConnectionsError(co).Some? then ConnectionsError(co) else ListsError(co[SOURCE])
  }

  /** The checks of the two loops over the source and target sections. */
  function ConnectionsError(co: map<string, Section>): (r: Option<ConfigError>)
    ensures r.None? ==> SOURCE in co && TARGET in co
  {
    if ConnectionError(co, SOURCE).Some? then ConnectionError(co, SOURCE)
    else if ConnectionError(co, TARGET).Some? then ConnectionError(co, TARGET)
    else if CredentialsError(co[SOURCE], SOURCE).Some? then CredentialsError(co[SOURCE], SOURCE)
    else CredentialsError(co[TARGET], TARGET)
  }

  /** What a usable configuration satisfies, stated as independent conditions rather than as a sequence of checks. */
  predicate UsableConnection(co: map<string, Section>, sec: string) {
    && sec in co
    && !MissingOrEmpty(co[sec], HOST)
    && !MissingOrEmpty(co[sec], PORT)
    && !MissingOrEmpty(co[sec], DB)
    && (co[sec][PORT].Int? || (co[sec][PORT].Str? && ParseInt(co[sec][PORT].s).Some?))
    && (OptionalValue(co[sec], USER) != Nothing ==> OptionalValue(co[sec], PWD) != Nothing)
  }

  predicate Usable(co: map<string, Section>) {
    && RawConfig(co)
    && UsableConnection(co, SOURCE)
    && UsableConnection(co, TARGET)
    && ListsReady(co[SOURCE])
  }

  lemma ConnectionErrorIffUnusable(co: map<string, Section>, sec: string)
    ensures (ConnectionError(co, sec).None? && CredentialsError(co[sec], sec).None?) <==> UsableConnection(co, sec)
  {
  }

  lemma ListsErrorIffNotReady(section: Section)
    requires forall key | key in section :: IsRaw(section[key])
    ensures ListsError(section).None? <==> ListsReady(section)
  {
    if ListsError(section).None? && Truthy(section[EXCLUDE_WS]) {
      var items := ExcludeItems(section[EXCLUDE_WS]);
      forall item | item in items ensures ParseInt(item).Some? {
        var i :| 0 <= i < |items| && items[i] == item;
      }
    }
  }

  /** `get_config` fails exactly when one of the conditions of a usable configuration does not hold. */
  lemma FirstErrorIffUnusable(co: map<string, Section>)
    requires RawConfig(co)
    ensures FirstError(co).None? <==> Usable(co)
  {
    ConnectionErrorIffUnusable(co, SOURCE);
    ConnectionErrorIffUnusable(co, TARGET);
    if SOURCE in co {
      ListsErrorIffNotReady(co[SOURCE]);
    }
  }

  /** A connection section after normalisation: port as an int, empty user and password as None. */
  function NormalisedConnection(section: Section): (r: Section)
    requires PORT in section
    requires section[PORT].Int? || (section[PORT].Str? && ParseInt(section[PORT].s).Some?)
    ensures r.Keys == section.Keys + {USER, PWD}
    ensures r[PORT] == Int(PortNumber(section[PORT]))
    ensures r[USER] == Nothing <==> MissingOrEmpty(section, USER)
    ensures r[PWD] == Nothing <==> MissingOrEmpty(section, PWD)
    ensures r[USER] == OptionalValue(section, USER) && r[PWD] == OptionalValue(section, PWD)
    ensures forall key | key in section && key != PORT && key != USER && key != PWD :: r[key] == section[key]
  {
    KeysDistinct();
    section[PORT := Int(PortNumber(section[PORT]))]
           [USER := OptionalValue(section, USER)]
           [PWD := OptionalValue(section, PWD)]
  }

  /** The exclusion entry after normalisation: a set of ids when it is non-empty, else left as it was. */
  function ExcludeValue(ex: Value): Value
    requires IsRaw(ex)
    requires Truthy(ex) ==> forall item | item in ExcludeItems(ex) :: ParseInt(item).Some?
  {
    if Truthy(ex)
    then IntSet(set item | item in ExcludeItems(ex) && ParseInt(item).Some? :: ParseInt(item).value)
    else ex
  }

  /** The three list entries of the source section are present, as parsed, and the exclusion ids are integers. */
  predicate ListsReady(section: Section) {
    && TYPES in section && LIST_OBJS in section && EXCLUDE_WS in section
    && IsRaw(section[TYPES]) && IsRaw(section[LIST_OBJS]) && IsRaw(section[EXCLUDE_WS])
    && (Truthy(section[EXCLUDE_WS]) ==>
          forall item | item in ExcludeItems(section[EXCLUDE_WS]) :: ParseInt(item).Some?)
  }

  /** The source section after its type lists and exclusion list are normalised. */
  function NormalisedLists(section: Section): (r: Section)
    requires ListsReady(section)
    ensures r.Keys == section.Keys
  {
    section[TYPES := StringSetValue(section[TYPES])]
           [LIST_OBJS := StringSetValue(section[LIST_OBJS])]
           [EXCLUDE_WS := ExcludeValue(section[EXCLUDE_WS])]
  }

  /** Normalising the connection entries leaves the list entries as they were. */
  lemma NormalisedConnectionKeepsLists(section: Section)
    requires PORT in section
    requires section[PORT].Int? || (section[PORT].Str? && ParseInt(section[PORT].s).Some?)
    ensures var c := NormalisedConnection(section);
      && (TYPES in c <==> TYPES in section) && (TYPES in c ==> c[TYPES] == section[TYPES])
      && (LIST_OBJS in c <==> LIST_OBJS in section) && (LIST_OBJS in c ==> c[LIST_OBJS] == section[LIST_OBJS])
      && (EXCLUDE_WS in c <==> EXCLUDE_WS in section) && (EXCLUDE_WS in c ==> c[EXCLUDE_WS] == section[EXCLUDE_WS])
  {
    KeysDistinct();
  }

  /** The list checks see the same entries before and after the connection entries are normalised. */
  lemma ListsUnaffectedByConnection(section: Section)
    requires PORT in section
    requires section[PORT].Int? || (section[PORT].Str? && ParseInt(section[PORT].s).Some?)
    ensures ListsError(NormalisedConnection(section)) == ListsError(section)
    ensures ListsReady(NormalisedConnection(section)) <==> ListsReady(section)
  {
    NormalisedConnectionKeepsLists(section);
  }

  /** The source section as `get_config` returns it. */
  function NormalisedSource(section: Section): Section
    requires PORT in section
    requires section[PORT].Int? || (section[PORT].Str? && ParseInt(section[PORT].s).Some?)
    requires ListsReady(section)
  {
    NormalisedConnectionKeepsLists(section);
    NormalisedLists(NormalisedConnection(section))
  }

  /**
   * What the rest of the job may rely on after a successful `get_config`:
   * both ports are ints, a user always comes with a password, the two type
   * lists are None or non-empty sets, and the exclusion entry is a set of
   * ids or was empty to begin with.
   */
  lemma NormalisedSourceShape(co: map<string, Section>)
    requires Usable(co)
    ensures var src := NormalisedSource(co[SOURCE]);
      && src[PORT].Int? && NormalisedConnection(co[TARGET])[PORT].Int?
      && (src[USER] != Nothing ==> src[PWD] != Nothing)
      && (src[TYPES] == Nothing || (src[TYPES].StrSet? && src[TYPES].strs != {}))
      && (src[LIST_OBJS] == Nothing || (src[LIST_OBJS].StrSet? && src[LIST_OBJS].strs != {}))
      && (src[EXCLUDE_WS].IntSet? || !Truthy(src[EXCLUDE_WS]))
  {
    KeysDistinct();
    var section := co[SOURCE];
    assert IsRaw(section[TYPES]) && IsRaw(section[LIST_OBJS]) && IsRaw(section[EXCLUDE_WS]);
    var src := NormalisedSource(section);
    assert src[USER] == OptionalValue(section, USER);
    assert src[PWD] == OptionalValue(section, PWD);
  }

  /** The key names the normalisation writes are pairwise different. */
  lemma KeysDistinct()
    ensures PORT != USER && PORT != PWD && USER != PWD
    ensures TYPES !in {PORT, USER, PWD} && LIST_OBJS !in {PORT, USER, PWD, TYPES}
    ensures EXCLUDE_WS !in {PORT, USER, PWD, TYPES, LIST_OBJS}
    ensures SOURCE != TARGET
  {
    assert PORT[0] != USER[0];
  }

  /** What passing the connection checks guarantees about the parsed file. */
  lemma ConnectionsPassed(co: map<string, Section>)
    requires RawConfig(co)
    requires ConnectionsError(co).None?
    ensures SOURCE in co && TARGET in co && SOURCE != TARGET
    ensures PORT in co[SOURCE] && PortError(SOURCE, co[SOURCE][PORT]).None?
    ensures PORT in co[TARGET] && PortError(TARGET, co[TARGET][PORT]).None?
    ensures forall key | key in NormalisedConnection(co[SOURCE]) && key in {TYPES, LIST_OBJS, EXCLUDE_WS} ::
              IsRaw(NormalisedConnection(co[SOURCE])[key])
  {
    NormalisedConnectionKeepsLists(co[SOURCE]);
    KeysDistinct();
  }

  /** The four section rewrites of `CheckConnections`, in order, give both sections normalised. */
  lemma ConnectionsState(co: map<string, Section>)
    requires SOURCE in co && PORT in co[SOURCE] && PortError(SOURCE, co[SOURCE][PORT]).None?
    requires TARGET in co && PORT in co[TARGET] && PortError(TARGET, co[TARGET][PORT]).None?
    ensures var a := co[SOURCE := co[SOURCE][PORT := Int(PortNumber(co[SOURCE][PORT]))]];
      var b := a[TARGET := a[TARGET][PORT := Int(PortNumber(a[TARGET][PORT]))]];
      var c := b[SOURCE := b[SOURCE][USER := OptionalValue(b[SOURCE], USER)][PWD := OptionalValue(b[SOURCE], PWD)]];
      var d := c[TARGET := c[TARGET][USER := OptionalValue(c[TARGET], USER)][PWD := OptionalValue(c[TARGET], PWD)]];
      d == co[SOURCE := NormalisedConnection(co[SOURCE])][TARGET := NormalisedConnection(co[TARGET])]
  {
    KeysDistinct();
    PortUpdateKeepsCredentials(co[SOURCE], SOURCE, Int(PortNumber(co[SOURCE][PORT])));
    PortUpdateKeepsCredentials(co[TARGET], TARGET, Int(PortNumber(co[TARGET][PORT])));
  }

  /** The configuration `get_config` ends with when every check passes. */
  lemma SourceListsPassed(co: map<string, Section>, fin: map<string, Section>)
    requires RawConfig(co) && ConnectionsError(co).None?
    requires PORT in co[SOURCE] && PortError(SOURCE, co[SOURCE][PORT]).None?
    requires PORT in co[TARGET] && PortError(TARGET, co[TARGET][PORT]).None?
    requires ListsReady(NormalisedConnection(co[SOURCE]))
    requires fin == co[SOURCE := NormalisedConnection(co[SOURCE])][TARGET := NormalisedConnection(co[TARGET])]
                      [SOURCE := NormalisedLists(NormalisedConnection(co[SOURCE]))]
    ensures FirstError(co).None? && Usable(co)
    ensures ListsReady(co[SOURCE])
    ensures fin[SOURCE] == NormalisedSource(co[SOURCE]) && fin[TARGET] == NormalisedConnection(co[TARGET])
    ensures fin == co[SOURCE := fin[SOURCE]][TARGET := fin[TARGET]]
  {
    ListsUnaffectedByConnection(co[SOURCE]);
    ListsErrorIffNotReady(co[SOURCE]);
    FirstErrorIffUnusable(co);
    KeysDistinct();
    RewriteTwice(co, SOURCE, TARGET, NormalisedConnection(co[SOURCE]), NormalisedConnection(co[TARGET]),
                 NormalisedLists(NormalisedConnection(co[SOURCE])));
  }

  /** Writing `s`, then `t`, then `s` again is writing `t` and the last value of `s`. */
  lemma RewriteTwice(m: map<string, Section>, s: string, t: string, x: Section, y: Section, z: Section)
    requires s != t
    ensures var r := m[s := x][t := y][s := z];
      r[s] == z && r[t] == y && r == m[s := z][t := y]
  {
    assert m[s := x][t := y][s := z] == m[s := z][t := y];
  }

  /** Converting the port leaves the credential entries, and so the credential check, as they were. */
  lemma PortUpdateKeepsCredentials(section: Section, sec: string, port: Value)
    ensures OptionalValue(section[PORT := port], USER) == OptionalValue(section, USER)
    ensures OptionalValue(section[PORT := port], PWD) == OptionalValue(section, PWD)
    ensures CredentialsError(section[PORT := port], sec) == CredentialsError(section, sec)
  {
    KeysDistinct();
  }

  /** The parsed configuration file. */
  class ConfigObj {
    var sections: map<string, Section>

    constructor (parsed: map<string, Section>)
      ensures sections == parsed
    {
      sections := parsed;
    }

    /** `process_optional_key`: read the entry, store None for an absent or empty one, and return what was stored. */
    method ProcessOptionalKey(section: string, key: string) returns (v: Value)
      requires section in sections
      modifies this
      ensures v == OptionalValue(old(sections)[section], key)
      ensures sections == old(sections)[section := old(sections)[section][key := v]]
    {
      v := if key in sections[section] then sections[section][key] else Nothing;
      v := if v == Str("") then Nothing else v;
      sections := sections[section := sections[section][key := v]];
    }

    /** `process_config_string_list`: replace a list entry by the set of its items. */
    method ProcessConfigStringList(name: string, section: string)
      requires section in sections && name in sections[section] && IsRaw(sections[section][name])
      modifies this
      ensures sections == old(sections)[section := old(sections)[section][name := StringSetValue(old(sections)[section][name])]]
    {
      var c := sections[section][name];
      var r;
      if Truthy(c) {
        if !c.List? {
          r := StrSet({c.s});
        } else {
          r := StrSet(set x | x in c.items);
        }
      } else {
        r := Nothing;
      }
      sections := sections[section := sections[section][name := r]];
    }

    /** The checks of the first loop of `get_config` for one section, converting its port to an int. */
    method CheckConnection(sec: string) returns (err: Option<ConfigError>)
      modifies this
      ensures err == ConnectionError(old(sections), sec)
      ensures err.None? ==> sections == old(sections)[sec := old(sections)[sec][PORT := Int(PortNumber(old(sections)[sec][PORT]))]]
    {
      if sec !in sections {
        return Some(MissingSection(sec));
      }
      var keys := [HOST, PORT, DB];
      assert keys[0] == HOST && keys[1] == PORT && keys[2] == DB;
      var i := 0;
      while i < |keys|
        invariant 0 <= i <= |keys|
        invariant forall j | 0 <= j < i :: !MissingOrEmpty(sections[sec], keys[j])
        invariant sections == old(sections)
      {
        var key := keys[i];
        var v := if key in sections[sec] then sections[sec][key] else Nothing;
        if v == Str("") || v == Nothing {
          assert MissingOrEmpty(sections[sec], key);
          return Some(MissingValue(sec, key));
        }
        i := i + 1;
      }
      assert !MissingOrEmpty(sections[sec], keys[1]);
      err := PortError(sec, sections[sec][PORT]);
      if err.None? {
        sections := sections[sec := sections[sec][PORT := Int(PortNumber(sections[sec][PORT]))]];
      }
    }

    /** The second loop of `get_config` for one section: normalise user and password, and demand a password with a user. */
    method CheckCredentials(sec: string) returns (err: Option<ConfigError>)
      requires sec in sections
      modifies this
      ensures err == CredentialsError(old(sections)[sec], sec)
      ensures sections == old(sections)[sec := old(sections)[sec]
                [USER := OptionalValue(old(sections)[sec], USER)]
                [PWD := OptionalValue(old(sections)[sec], PWD)]]
    {
      var u := ProcessOptionalKey(sec, USER);
      var p := ProcessOptionalKey(sec, PWD);
      assert OptionalValue(old(sections)[sec][USER := u], PWD) == OptionalValue(old(sections)[sec], PWD);
      err := if u != Nothing && p == Nothing then Some(PasswordRequired(sec)) else None;
    }

    /**
     * `get_config` once the file has been parsed: the source and target
     * sections, validated and normalised, or the first error.
     */
    method GetConfig() returns (r: Result<(Section, Section), ConfigError>)
      requires RawConfig(sections)
      modifies this
      ensures r.Failure? <==> FirstError(old(sections)).Some?
      ensures r.Failure? ==> r.error == FirstError(old(sections)).value
      ensures r.Success? ==> Usable(old(sections))
      ensures r.Success? ==> r.value == (NormalisedSource(old(sections)[SOURCE]), NormalisedConnection(old(sections)[TARGET]))
      ensures r.Success? ==> sections == old(sections)[SOURCE := r.value.0][TARGET := r.value.1]
    {
      ghost var co := sections;
      var err := CheckConnections();
      if err.Some? { return Failure(err.value); }
      ConnectionsPassed(co);
      assert sections[SOURCE] == NormalisedConnection(co[SOURCE]);
      ListsUnaffectedByConnection(co[SOURCE]);
      err := ProcessSourceLists();
      if err.Some? { return Failure(err.value); }
      SourceListsPassed(co, sections);
      return Success((sections[SOURCE], sections[TARGET]));
    }

    /** The two loops of `get_config` over the source and target sections. */
    method CheckConnections() returns (err: Option<ConfigError>)
      modifies this
      ensures err == ConnectionsError(old(sections))
      ensures err.None? ==> sections == old(sections)[SOURCE := NormalisedConnection(old(sections)[SOURCE])]
                                                   [TARGET := NormalisedConnection(old(sections)[TARGET])]
    {
      ghost var co := sections;
      KeysDistinct();
      err := CheckConnection(SOURCE);
      if err.Some? { return; }
      assert (TARGET in sections <==> TARGET in co) && (TARGET in co ==> sections[TARGET] == co[TARGET]);
      err := CheckConnection(TARGET);
      if err.Some? { return; }
      PortUpdateKeepsCredentials(co[SOURCE], SOURCE, sections[SOURCE][PORT]);
      PortUpdateKeepsCredentials(co[TARGET], TARGET, sections[TARGET][PORT]);
      ConnectionsState(co);
      err := CheckCredentials(SOURCE);
      if err.Some? { return; }
      err := CheckCredentials(TARGET);
    }

    /** The tail of `get_config`: the two type lists, then the exclusion list, of the source section. */
    method ProcessSourceLists() returns (err: Option<ConfigError>)
      requires SOURCE in sections
      requires forall key | key in sections[SOURCE] && key in {TYPES, LIST_OBJS, EXCLUDE_WS} :: IsRaw(sections[SOURCE][key])
      modifies this
      ensures err == ListsError(old(sections)[SOURCE])
      ensures err.None? ==> ListsReady(old(sections)[SOURCE])
      ensures err.None? ==> sections == old(sections)[SOURCE := NormalisedLists(old(sections)[SOURCE])]
    {
      KeysDistinct();
      ghost var section := sections[SOURCE];
      if TYPES !in sections[SOURCE] { return Some(MissingKey(SOURCE, TYPES)); }
      ProcessConfigStringList(TYPES, SOURCE);
      ghost var step1 := section[TYPES := StringSetValue(section[TYPES])];
      assert sections == old(sections)[SOURCE := step1];
      if LIST_OBJS !in sections[SOURCE] { return Some(MissingKey(SOURCE, LIST_OBJS)); }
      ProcessConfigStringList(LIST_OBJS, SOURCE);
      ghost var step2 := step1[LIST_OBJS := StringSetValue(section[LIST_OBJS])];
      assert sections == old(sections)[SOURCE := step2];
      if EXCLUDE_WS !in sections[SOURCE] { return Some(MissingKey(SOURCE, EXCLUDE_WS)); }
      var exclude := sections[SOURCE][EXCLUDE_WS];
      assert exclude == section[EXCLUDE_WS];
      if Truthy(exclude) {
        var ids := ParseWorkspaceIds(ExcludeItems(exclude));
        if ids.Failure? { return Some(ids.error); }
        sections := sections[SOURCE := sections[SOURCE][EXCLUDE_WS := IntSet(ids.value)]];
      } else {
        assert step2 == step2[EXCLUDE_WS := exclude];
      }
      assert ListsReady(section);
      return None;
    }
  }

  /** The exclusion loop of `get_config`: every item must read as an integer; the result is the set of them. */
  method ParseWorkspaceIds(items: seq<string>) returns (r: Result<set<int>, ConfigError>)
    ensures r.Success? <==> FirstBadId(items).None?
    ensures r.Failure? ==> r.error == BadWorkspaceId(FirstBadId(items).value)
    ensures r.Success? ==> r.value == set item | item in items && ParseInt(item).Some? :: ParseInt(item).value
  {
    var ints: set<int> := {};
    var i := 0;
    while i < |items|
      invariant 0 <= i <= |items|
      invariant forall j | 0 <= j < i :: ParseInt(items[j]).Some?
      invariant ints == set item | item in items[..i] && ParseInt(item).Some? :: ParseInt(item).value
    {
      var n := ParseInt(items[i]);
      if n.None? {
        FirstBadIdAt(items, i);
        return Failure(BadWorkspaceId(items[i]));
      }
      assert items[..i + 1] == items[..i] + [items[i]];
      ints := ints + {n.value};
      i := i + 1;
    }
    assert items[..i] == items;
    return Success(ints);
  }

  lemma {:induction false} FirstBadIdAt(items: seq<string>, i: nat)
    requires i < |items| && ParseInt(items[i]).None?
    requires forall j | 0 <= j < i :: ParseInt(items[j]).Some?
    ensures FirstBadId(items) == Some(items[i])
  {
    if i > 0 {
      FirstBadIdAt(items[1..], i - 1);
    }
  }
}
