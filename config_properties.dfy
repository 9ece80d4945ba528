/** What normalize_repository_config guarantees, stated about the specification
    function SequelConfig.Normalize (which the method NormalizeRepositoryConfig is
    proved to compute). */
module ConfigProperties {
  import opened Wrappers
  import opened RubyStrings
  import opened RubyHash
  import opened RubyValues
  import opened SequelConfig

  /** The raw value the last entry named `s` holds, nil when there is none. */
  function RawValue(h: RawHash, s: Name): Value {
    match LastNamed(h, s)
    case None => VNil
    case Some(entry) => entry.1
  }

  // ---------------------------------------------------------------------------
  // The entry loop

  /** After the entry loop, a stringified key holds the rewritten value of the last
      raw entry with that name, and no other key is present. */
  lemma {:induction false} CoerceEntriesFind(prefix: RawHash, h: RawHash, root: string, s: Name)
    requires CoerceEntries(prefix, h, root).Success?
    ensures Find(CoerceEntries(prefix, h, root).value, s) == CoercedValue(prefix, h, root, s)
    ensures LastNamed(prefix, s).Some? ==> CoercedValue(prefix, h, root, s).Some?
    decreases |prefix|
  {
    if prefix != [] {
      var init := prefix[..|prefix| - 1];
      var entry := prefix[|prefix| - 1];
      CoerceEntriesFind(init, h, root, s);
    }
  }

  /** CoerceEntriesFind for every key at once. */
  lemma CoerceEntriesContent(prefix: RawHash, h: RawHash, root: string)
    requires CoerceEntries(prefix, h, root).Success?
    ensures forall s :: Find(CoerceEntries(prefix, h, root).value, s) == CoercedValue(prefix, h, root, s)
    ensures forall s :: LastNamed(prefix, s).Some? ==> CoercedValue(prefix, h, root, s).Some?
  {
    forall s
      ensures Find(CoerceEntries(prefix, h, root).value, s) == CoercedValue(prefix, h, root, s)
      ensures LastNamed(prefix, s).Some? ==> CoercedValue(prefix, h, root, s).Some?
    {
      CoerceEntriesFind(prefix, h, root, s);
    }
  }

  /** The entry loop builds a hash without repeated keys. */
  lemma {:induction false} CoerceEntriesDistinct(prefix: RawHash, h: RawHash, root: string)
    requires CoerceEntries(prefix, h, root).Success?
    ensures DistinctKeys(CoerceEntries(prefix, h, root).value)
    decreases |prefix|
  {
    if prefix != [] {
      var init := prefix[..|prefix| - 1];
      var entry := prefix[|prefix| - 1];
      CoerceEntriesDistinct(init, h, root);
      AssignDistinct(CoerceEntries(init, h, root).value, entry.0.name,
                     CoerceEntry(entry.0, entry.1, h, root).value);
    }
  }

  /** The entry loop succeeds only if every entry could be rewritten. */
  lemma {:induction false} CoerceEntrySucceeds(prefix: RawHash, h: RawHash, root: string, i: nat)
    requires i < |prefix| && CoerceEntries(prefix, h, root).Success?
    ensures CoerceEntry(prefix[i].0, prefix[i].1, h, root).Success?
    decreases |prefix|
  {
    if i < |prefix| - 1 {
      var init := prefix[..|prefix| - 1];
      assert init[i] == prefix[i];
      CoerceEntrySucceeds(init, h, root, i);
    }
  }

  // ---------------------------------------------------------------------------
  // The stages of Normalize

  /** A successful normalisation passed through every stage: the entry loop, the
      JRuby rewrite, the overrides and the url synthesis. */
  lemma Stages(h: RawHash, root: string, jruby: bool, maxConnections: Value, searchPath: Value, c: Config)
    returns (entries: Config, adapted: Config, pre: Config)
    requires Normalize(h, root, jruby, maxConnections, searchPath) == Success(c)
    ensures CoerceEntries(h, h, root) == Success(entries)
    ensures UseJdbc(entries, jruby) == Success(adapted)
    ensures pre == ApplyOverrides(adapted, maxConnections, searchPath)
    ensures AddUrl(pre) == Success(c)
    ensures forall s :: s != Url ==> Find(c, s) == Find(pre, s)
    ensures HasKey(c, Url) <==> HasKey(pre, Url) || NeedsUrl(pre)
  {
    entries := CoerceEntries(h, h, root).value;
    adapted := UseJdbc(entries, jruby).value;
    pre := ApplyOverrides(adapted, maxConnections, searchPath);
  }

  /** Keys other than the rewritten or derived ones hold what the entry loop stored. */
  lemma NormalizedFind(h: RawHash, root: string, jruby: bool, maxConnections: Value, searchPath: Value, c: Config, s: Name)
    requires Normalize(h, root, jruby, maxConnections, searchPath) == Success(c)
    requires s != Adapter && s != MaxConnections && s != SearchPath && s != Url
    ensures Find(c, s) == CoercedValue(h, h, root, s)
  {
    var entries, adapted, pre := Stages(h, root, jruby, maxConnections, searchPath, c);
    CoerceEntriesFind(h, h, root, s);
  }

  /** Which keys the normalised hash has. */
  lemma NormalizedHasKey(h: RawHash, root: string, jruby: bool, maxConnections: Value, searchPath: Value, c: Config, s: Name)
    requires Normalize(h, root, jruby, maxConnections, searchPath) == Success(c)
    ensures LastNamed(h, s).Some? ==> HasKey(c, s)
    ensures HasKey(c, s) ==> LastNamed(h, s).Some? || s == MaxConnections || s == SearchPath || s == Url
    ensures s == MaxConnections ==> HasKey(c, s)
    ensures s == SearchPath ==> (HasKey(c, s) <==> LastNamed(h, s).Some? || Truthy(searchPath))
  {
    var entries, adapted, pre := Stages(h, root, jruby, maxConnections, searchPath, c);
    CoerceEntriesFind(h, h, root, s);
    SameKeysSameHasKey(entries, adapted, s);
    if s != Url {
      assert Find(c, s) == Find(pre, s);
    }
  }

  /** Every key of the normalised hash is a stringified raw key, max_connections,
      search_path or url; every stringified raw key is kept; max_connections is always
      there and search_path is there exactly when given raw or as an override. */
  lemma NormalizedKeys(h: RawHash, root: string, jruby: bool, maxConnections: Value, searchPath: Value, c: Config)
    requires Normalize(h, root, jruby, maxConnections, searchPath) == Success(c)
    ensures forall s :: LastNamed(h, s).Some? ==> HasKey(c, s)
    ensures forall s :: HasKey(c, s) ==>
              LastNamed(h, s).Some? || s == MaxConnections || s == SearchPath || s == Url
    ensures HasKey(c, MaxConnections)
    ensures HasKey(c, SearchPath) <==> LastNamed(h, SearchPath).Some? || Truthy(searchPath)
  {
    forall s
      ensures LastNamed(h, s).Some? ==> HasKey(c, s)
      ensures HasKey(c, s) ==> LastNamed(h, s).Some? || s == MaxConnections || s == SearchPath || s == Url
    {
      NormalizedHasKey(h, root, jruby, maxConnections, searchPath, c, s);
    }
    NormalizedHasKey(h, root, jruby, maxConnections, searchPath, c, MaxConnections);
    NormalizedHasKey(h, root, jruby, maxConnections, searchPath, c, SearchPath);
  }

  // ---------------------------------------------------------------------------
  // port (line 63)

  /** `port` holds the to_i of the raw port, and is absent when the raw hash has none;
      a port that has no to_i makes the normalisation raise. */
  lemma NormalizedPort(h: RawHash, root: string, jruby: bool, maxConnections: Value, searchPath: Value, c: Config)
    requires Normalize(h, root, jruby, maxConnections, searchPath) == Success(c)
    ensures LastNamed(h, Port).None? ==> !HasKey(c, Port)
    ensures LastNamed(h, Port).Some? ==>
              ToI(RawValue(h, Port)).Success? && Find(c, Port) == Some(VInt(ToI(RawValue(h, Port)).value))
  {
    NormalizedFind(h, root, jruby, maxConnections, searchPath, c, Port);
    assert CoerceEntries(h, h, root).Success?;
    CoerceEntriesFind(h, h, root, Port);
    CoercedPort(h, root);
  }

  /** The entry rule for port, for the last raw entry named port. */
  lemma CoercedPort(h: RawHash, root: string)
    ensures LastNamed(h, Port).None? ==> CoercedValue(h, h, root, Port) == None
    ensures CoercedValue(h, h, root, Port).Some? ==>
              ToI(RawValue(h, Port)).Success? && CoercedValue(h, h, root, Port) == Some(VInt(ToI(RawValue(h, Port)).value))
  {
  }

  /** A raw port that is a boolean or an array has no to_i: normalisation raises. */
  lemma UncoercablePortRaises(h: RawHash, root: string, jruby: bool, maxConnections: Value, searchPath: Value)
    requires LastNamed(h, Port).Some? && (RawValue(h, Port).VBool? || RawValue(h, Port).VList?)
    ensures Normalize(h, root, jruby, maxConnections, searchPath).Failure?
  {
    UncoercablePortStopsEntryLoop(h, root);
  }

  /** UncoercablePortRaises, for the entry loop alone. */
  lemma UncoercablePortStopsEntryLoop(h: RawHash, root: string)
    requires LastNamed(h, Port).Some? && ToI(RawValue(h, Port)).Failure?
    ensures CoerceEntries(h, h, root).Failure?
  {
    if CoerceEntries(h, h, root).Success? {
      var e := LastNamed(h, Port).value;
      var i :| 0 <= i < |h| && h[i] == e;
      CoerceEntrySucceeds(h, h, root, i);
    }
  }

  /** Integer#to_i keeps an integer, String#to_i reads a digit string, nil.to_i is 0. */
  lemma PortCoercion(n: int, ds: string)
    requires ds != [] && AllDigits(ds)
    ensures ToI(VInt(n)) == Success(n)
    ensures ToI(VStr(IntToString(n))) == Success(n)
    ensures ToI(VStr(ds)) == Success(DecimalValue(ds))
    ensures ToI(VNil) == Success(0)
  {
    StringToIOfIntToString(n);
    StringToIOfDigits(ds);
  }

  // ---------------------------------------------------------------------------
  // adapter (lines 64-65, 71-72, 79-87)

  /** The aliases the entry loop rewrites; every other adapter value passes through. */
  lemma CanonicalAdapterCases(v: Value)
    ensures CanonicalAdapter(VStr("sqlite3")) == VStr("sqlite")
    ensures CanonicalAdapter(VStr("postgresql")) == VStr("postgres")
    ensures v != VStr("sqlite3") && v != VStr("postgresql") ==> CanonicalAdapter(v) == v
  {
  }

  /** Canonicalisation is a projection: its outputs are never rewritten again. */
  lemma CanonicalAdapterIdempotent(v: Value)
    ensures CanonicalAdapter(CanonicalAdapter(v)) == CanonicalAdapter(v)
  {
  }

  /** The normalised adapter is the canonical form of the raw adapter, with the JDBC
      prefix under JRuby; no adapter key appears when the raw hash has none. */
  lemma NormalizedAdapter(h: RawHash, root: string, jruby: bool, maxConnections: Value, searchPath: Value, c: Config)
    requires Normalize(h, root, jruby, maxConnections, searchPath) == Success(c)
    ensures LastNamed(h, Adapter).None? ==> !HasKey(c, Adapter)
    ensures LastNamed(h, Adapter).Some? ==>
              Find(c, Adapter) == Some(FinalAdapter(CanonicalAdapter(RawValue(h, Adapter)), jruby))
  {
    var entries, adapted, pre := Stages(h, root, jruby, maxConnections, searchPath, c);
    AdaptedAdapter(h, root, jruby, entries, adapted);
    assert Find(c, Adapter) == Find(pre, Adapter);
  }

  /** The entry rule for adapter rewrites the aliases and keeps everything else. */
  lemma CoercedAdapter(h: RawHash, root: string)
    ensures CoercedValue(h, h, root, Adapter)
         == if LastNamed(h, Adapter).Some? then Some(CanonicalAdapter(RawValue(h, Adapter))) else None
  {
  }

  /** The JRuby rewrite prefixes the adapter in place, and adds none. */
  lemma UseJdbcAdapter(entries: Config, jruby: bool, adapted: Config)
    requires UseJdbc(entries, jruby) == Success(adapted)
    ensures Find(adapted, Adapter)
         == if HasKey(entries, Adapter) then Some(FinalAdapter(Lookup(entries, Adapter), jruby)) else None
  {
  }

  /** NormalizedAdapter, stated on the first two stages. */
  lemma AdaptedAdapter(h: RawHash, root: string, jruby: bool, entries: Config, adapted: Config)
    requires CoerceEntries(h, h, root) == Success(entries)
    requires UseJdbc(entries, jruby) == Success(adapted)
    ensures Find(adapted, Adapter)
         == if LastNamed(h, Adapter).Some? then Some(FinalAdapter(CanonicalAdapter(RawValue(h, Adapter)), jruby)) else None
  {
    CoerceEntriesFind(h, h, root, Adapter);
    CoercedAdapter(h, root);
    UseJdbcAdapter(entries, jruby, adapted);
  }

  /** Under JRuby: raw postgresql and postgres both give jdbc:postgresql, mysql gives
      jdbc:mysql and sqlite3 gives jdbc:sqlite. */
  lemma JdbcAdapterExamples()
    ensures FinalAdapter(CanonicalAdapter(VStr("postgresql")), true) == VStr("jdbc:postgresql")
    ensures FinalAdapter(CanonicalAdapter(VStr("postgres")), true) == VStr("jdbc:postgresql")
    ensures FinalAdapter(CanonicalAdapter(VStr("mysql")), true) == VStr("jdbc:mysql")
    ensures FinalAdapter(CanonicalAdapter(VStr("sqlite3")), true) == VStr("jdbc:sqlite")
  {
  }

  /** Without JRuby the adapter is canonical, and normalising it again changes nothing. */
  lemma NativeAdapterStable(v: Value)
    ensures FinalAdapter(CanonicalAdapter(FinalAdapter(CanonicalAdapter(v), false)), false)
         == FinalAdapter(CanonicalAdapter(v), false)
  {
  }

  /** Under JRuby the prefix is added on every pass: a second normalisation of an
      already-prefixed adapter prefixes it again. */
  lemma JdbcPrefixRepeats()
    ensures FinalAdapter(CanonicalAdapter(VStr("jdbc:mysql")), true) == VStr("jdbc:jdbc:mysql")
  {
  }

  /** Under JRuby a truthy adapter that is not a string has no to_sym: normalisation raises. */
  lemma NonStringAdapterRaisesUnderJruby(h: RawHash, root: string, maxConnections: Value, searchPath: Value)
    requires LastNamed(h, Adapter).Some?
    requires Truthy(RawValue(h, Adapter)) && !RawValue(h, Adapter).VStr?
    ensures Normalize(h, root, true, maxConnections, searchPath).Failure?
  {
    NonStringAdapterStopsRewrite(h, root);
  }

  /** NonStringAdapterRaisesUnderJruby, for the first two stages. */
  lemma NonStringAdapterStopsRewrite(h: RawHash, root: string)
    requires LastNamed(h, Adapter).Some?
    requires Truthy(RawValue(h, Adapter)) && !RawValue(h, Adapter).VStr?
    ensures CoerceEntries(h, h, root).Success? ==> UseJdbc(CoerceEntries(h, h, root).value, true).Failure?
  {
    if CoerceEntries(h, h, root).Success? {
      CoerceEntriesFind(h, h, root, Adapter);
      CoercedAdapter(h, root);
    }
  }

  // ---------------------------------------------------------------------------
  // database (lines 66-70)

  /** For a SQLite raw adapter the database is ':memory:' kept verbatim or the raw
      database path expanded against root; otherwise it passes through. */
  lemma NormalizedDatabase(h: RawHash, root: string, jruby: bool, maxConnections: Value, searchPath: Value, c: Config)
    requires Normalize(h, root, jruby, maxConnections, searchPath) == Success(c)
    requires LastNamed(h, Database).Some?
    ensures !RawAdapterIsSqlite(h) ==> Find(c, Database) == Some(RawValue(h, Database))
    ensures RawAdapterIsSqlite(h) && RawValue(h, Database) == VStr(":memory:") ==>
              Find(c, Database) == Some(VStr(":memory:"))
    ensures RawAdapterIsSqlite(h) && RawValue(h, Database) != VStr(":memory:") ==>
              RawDatabase(h).VStr? && Find(c, Database) == Some(VStr(ExpandPath(RawDatabase(h).s, root)))
  {
    NormalizedFind(h, root, jruby, maxConnections, searchPath, c, Database);
    assert CoerceEntries(h, h, root).Success?;
    CoerceEntriesFind(h, h, root, Database);
    CoercedDatabase(h, root);
  }

  /** The entry rule for database, for the last raw entry named database. */
  lemma CoercedDatabase(h: RawHash, root: string)
    requires CoercedValue(h, h, root, Database).Some?
    ensures !RawAdapterIsSqlite(h) ==> CoercedValue(h, h, root, Database) == Some(RawValue(h, Database))
    ensures RawAdapterIsSqlite(h) && RawValue(h, Database) == VStr(":memory:") ==>
              CoercedValue(h, h, root, Database) == Some(VStr(":memory:"))
    ensures RawAdapterIsSqlite(h) && RawValue(h, Database) != VStr(":memory:") ==>
              RawDatabase(h).VStr? && CoercedValue(h, h, root, Database) == Some(VStr(ExpandPath(RawDatabase(h).s, root)))
  {
  }

  /** The SQLite decision looks the adapter up in the raw hash, so it does not depend
      on whether `adapter` comes before or after `database`: two raw hashes with the
      same entries in any order rewrite every entry alike. */
  lemma EntryRuleIgnoresOrder(h1: RawHash, h2: RawHash, root: string, key: Key, value: Value)
    requires DistinctKeys(h1) && DistinctKeys(h2)
    requires forall e :: e in h1 <==> e in h2
    ensures CoerceEntry(key, value, h1, root) == CoerceEntry(key, value, h2, root)
  {
    SameEntriesSameFind(h1, h2, Str(Adapter));
    SameEntriesSameFind(h1, h2, Sym(Adapter));
    SameEntriesSameFind(h1, h2, Str(Database));
    SameEntriesSameFind(h1, h2, Sym(Database));
    assert RawAdapterIsSqlite(h1) == RawAdapterIsSqlite(h2);
    assert SqlitePath(h1, root) == SqlitePath(h2, root);
  }

  // ---------------------------------------------------------------------------
  // max_connections and search_path (lines 90-92)

  /** max_connections is the global override if set, else the raw max_connections if
      truthy, else the raw pool (nil when absent); search_path is the global override
      if set, else the raw value. */
  lemma NormalizedOverrides(h: RawHash, root: string, jruby: bool, maxConnections: Value, searchPath: Value, c: Config)
    requires Normalize(h, root, jruby, maxConnections, searchPath) == Success(c)
    ensures Find(c, MaxConnections) == Some(
              if Truthy(maxConnections) then maxConnections
              else if Truthy(RawValue(h, MaxConnections)) then RawValue(h, MaxConnections)
              else RawValue(h, Pool))
    ensures Truthy(searchPath) ==> Find(c, SearchPath) == Some(searchPath)
    ensures !Truthy(searchPath) && LastNamed(h, SearchPath).Some? ==>
              Find(c, SearchPath) == Some(RawValue(h, SearchPath))
  {
    var entries, adapted, pre := Stages(h, root, jruby, maxConnections, searchPath, c);
    MaxConnectionsOfStages(h, root, jruby, maxConnections, searchPath, entries, adapted, c);
    SearchPathOfStages(h, root, jruby, maxConnections, searchPath, entries, adapted, c);
  }

  /** The max_connections part of NormalizedOverrides, stated on the stages. */
  lemma MaxConnectionsOfStages(h: RawHash, root: string, jruby: bool, maxConnections: Value, searchPath: Value,
                               entries: Config, adapted: Config, c: Config)
    requires CoerceEntries(h, h, root) == Success(entries)
    requires UseJdbc(entries, jruby) == Success(adapted)
    requires forall s :: s != Url ==> Find(c, s) == Find(ApplyOverrides(adapted, maxConnections, searchPath), s)
    ensures Find(c, MaxConnections) == Some(
              if Truthy(maxConnections) then maxConnections
              else if Truthy(RawValue(h, MaxConnections)) then RawValue(h, MaxConnections)
              else RawValue(h, Pool))
  {
    PlainAdapted(h, root, jruby, entries, adapted, MaxConnections);
    PlainAdapted(h, root, jruby, entries, adapted, Pool);
    assert Find(c, MaxConnections) == Find(ApplyOverrides(adapted, maxConnections, searchPath), MaxConnections);
  }

  /** The search_path part of NormalizedOverrides, stated on the stages. */
  lemma SearchPathOfStages(h: RawHash, root: string, jruby: bool, maxConnections: Value, searchPath: Value,
                           entries: Config, adapted: Config, c: Config)
    requires CoerceEntries(h, h, root) == Success(entries)
    requires UseJdbc(entries, jruby) == Success(adapted)
    requires forall s :: s != Url ==> Find(c, s) == Find(ApplyOverrides(adapted, maxConnections, searchPath), s)
    ensures Find(c, SearchPath) ==
              if Truthy(searchPath) then Some(searchPath)
              else if LastNamed(h, SearchPath).Some? then Some(RawValue(h, SearchPath))
              else None
  {
    PlainAdapted(h, root, jruby, entries, adapted, SearchPath);
    assert Find(c, SearchPath) == Find(ApplyOverrides(adapted, maxConnections, searchPath), SearchPath);
  }

  /** A key the entry loop does not rewrite holds its last raw value. */
  lemma PlainCoerced(h: RawHash, root: string, s: Name)
    requires s != Port && s != Adapter && s != Database
    ensures CoercedValue(h, h, root, s) == if LastNamed(h, s).Some? then Some(RawValue(h, s)) else None
  {
  }

  /** After the entry loop and the JRuby rewrite, a key neither rewrites holds its last
      raw value, and is there exactly when the raw hash has it. */
  lemma PlainAdapted(h: RawHash, root: string, jruby: bool, entries: Config, adapted: Config, s: Name)
    requires CoerceEntries(h, h, root) == Success(entries)
    requires UseJdbc(entries, jruby) == Success(adapted)
    requires s != Port && s != Adapter && s != Database
    ensures Find(adapted, s) == if LastNamed(h, s).Some? then Some(RawValue(h, s)) else None
    ensures Lookup(adapted, s) == RawValue(h, s)
  {
    CoerceEntriesFind(h, h, root, s);
    PlainCoerced(h, root, s);
  }

  // ---------------------------------------------------------------------------
  // url (lines 95-113)

  /** A url given in the raw hash is never overwritten. */
  lemma ExistingUrlKept(h: RawHash, root: string, jruby: bool, maxConnections: Value, searchPath: Value, c: Config)
    requires Normalize(h, root, jruby, maxConnections, searchPath) == Success(c)
    requires LastNamed(h, Url).Some?
    ensures Find(c, Url) == Some(RawValue(h, Url))
  {
    var entries, adapted, pre := Stages(h, root, jruby, maxConnections, searchPath, c);
    PlainAdapted(h, root, jruby, entries, adapted, Url);
    assert Find(pre, Url) == Some(RawValue(h, Url));
  }

  /** On an adapter of one line, ^(jdbc|do): is a test of the adapter's start. */
  lemma BridgeAdapterOnOneLine(a: string)
    requires '\n' !in a
    ensures IsBridgeAdapter(a) <==> StartsWith(a, "jdbc:") || StartsWith(a, "do:")
  {
    SingleLineOccurrence(a, "jdbc:", true);
    SingleLineOccurrence(a, "do:", true);
  }

  /** Without a raw url, a url is synthesised exactly when the final adapter is a string
      matching ^(jdbc|do):. */
  lemma UrlOnlyForBridgeAdapters(h: RawHash, root: string, jruby: bool, maxConnections: Value, searchPath: Value, c: Config)
    requires Normalize(h, root, jruby, maxConnections, searchPath) == Success(c)
    requires LastNamed(h, Url).None?
    ensures HasKey(c, Url) <==> Lookup(c, Adapter).VStr? && IsBridgeAdapter(Lookup(c, Adapter).s)
  {
    var entries, adapted, pre := Stages(h, root, jruby, maxConnections, searchPath, c);
    PlainAdapted(h, root, jruby, entries, adapted, Url);
    assert !HasKey(pre, Url);
    assert Lookup(c, Adapter) == Lookup(pre, Adapter);
  }

  /** The params hash holds every key but adapter, host, port and database, with
      search_path rewritten and every other value as it is, and nothing else. */
  lemma {:induction false} UrlParamsFind(c: Config, k: Name)
    requires DistinctKeys(c) && UrlParams(c).Success?
    ensures HasKey(c, k) && !IsUrlField(k) ==>
              ParamValue(k, Lookup(c, k)).Success? && Find(UrlParams(c).value, k) == Some(ParamValue(k, Lookup(c, k)).value)
    ensures HasKey(UrlParams(c).value, k) ==> HasKey(c, k) && !IsUrlField(k)
    decreases |c|
  {
    if c != [] {
      var init := c[..|c| - 1];
      var e := c[|c| - 1];
      DropLast(c);
      DropLastFind(c, k);
      UrlParamsFind(init, k);
      if k == e.0 {
        UrlParamsFind(init, e.0);
      }
    }
  }

  /** The params hash lists its keys in config order. */
  lemma {:induction false} UrlParamsKeys(c: Config)
    requires DistinctKeys(c) && UrlParams(c).Success?
    ensures Keys(UrlParams(c).value) == QueryKeys(Keys(c))
    decreases |c|
  {
    if c != [] {
      var init := c[..|c| - 1];
      var e := c[|c| - 1];
      DropLast(c);
      DropLastKeys(c);
      UrlParamsKeys(init);
      if !IsUrlField(e.0) {
        UrlParamsFind(init, e.0);
      }
    }
  }

  /** A synthesised url is appended last; the hash before it has distinct keys and
      the same entries, and the url is built from it and its params hash. */
  lemma NormalizedUrl(h: RawHash, root: string, jruby: bool, maxConnections: Value, searchPath: Value, c: Config)
    requires Normalize(h, root, jruby, maxConnections, searchPath) == Success(c)
    requires LastNamed(h, Url).None?
    requires Lookup(c, Adapter).VStr? && IsBridgeAdapter(Lookup(c, Adapter).s)
    ensures |c| > 0 && c[|c| - 1].0 == Url
    ensures DistinctKeys(c[..|c| - 1]) && NeedsUrl(c[..|c| - 1]) && UrlParams(c[..|c| - 1]).Success?
    ensures forall s :: s != Url ==> Find(c[..|c| - 1], s) == Find(c, s)
    ensures c[|c| - 1].1
         == VStr(SynthesisedUrl(Lookup(c, Adapter).s, c[..|c| - 1], QueryString(UrlParams(c[..|c| - 1]).value)))
    ensures Lookup(c, Url) == c[|c| - 1].1
  {
    var entries, adapted, pre := Stages(h, root, jruby, maxConnections, searchPath, c);
    PlainAdapted(h, root, jruby, entries, adapted, Url);
    CoerceEntriesDistinct(h, h, root);
    SameKeysDistinct(entries, adapted);
    OverridesDistinct(adapted, maxConnections, searchPath);
    assert !HasKey(pre, Url);
    assert Lookup(c, Adapter) == Lookup(pre, Adapter);
    assert NeedsUrl(pre);
    var url := VStr(SynthesisedUrl(Lookup(pre, Adapter).s, pre, QueryString(UrlParams(pre).value)));
    assert c == pre + [(Url, url)];
    assert c[..|c| - 1] == pre;
  }

  /** The port segment is ":<port>" for any integer port, 0 included, and empty when
      there is no port. */
  lemma PortSegmentCases(c: Config, n: int)
    ensures Lookup(c, Port) == VInt(n) ==> PortSegment(c) == ":" + IntToString(n)
    ensures !HasKey(c, Port) ==> PortSegment(c) == ""
  {
  }

  /** A raw `port: nil` normalises to 0, so a synthesised url carries ":0". */
  lemma NilPortBecomesZero(h: RawHash, root: string, jruby: bool, maxConnections: Value, searchPath: Value, c: Config)
    requires Normalize(h, root, jruby, maxConnections, searchPath) == Success(c)
    requires LastNamed(h, Port).Some? && RawValue(h, Port) == VNil
    ensures Find(c, Port) == Some(VInt(0)) && PortSegment(c) == ":0"
  {
    NormalizedPort(h, root, jruby, maxConnections, searchPath, c);
  }

  /** A search path of whitespace-free names that does not end in a comma comes out
      escaped but otherwise unchanged; an array is joined with commas; any other value
      has no `split`. */
  lemma SearchPathParamCases(s: string, xs: seq<string>, v: Value)
    requires forall x :: x in s ==> !IsSpace(x) && x != '\0'
    requires s == [] || s[|s| - 1] != ','
    ensures SearchPathParam(VStr(s)) == Success(VStr(Escape(s)))
    ensures SearchPathParam(VList(xs)) == Success(VStr(Escape(Join(xs, ","))))
    ensures (forall i :: 0 <= i < |s| ==> IsUriSafe(s[i])) ==> SearchPathParam(VStr(s)) == Success(VStr(s))
    ensures !v.VStr? && !v.VList? ==> SearchPathParam(v) == Failure(NoMethodError("split"))
  {
    SplitStripJoinClean(s, ',');
    if forall i :: 0 <= i < |s| ==> IsUriSafe(s[i]) {
      EscapeKeepsSafe(s);
    }
  }

  /** The only raise of the params loop is the NoMethodError of `split` (line 100). */
  lemma {:induction false} UrlParamsFailure(p: Config)
    ensures UrlParams(p).Failure? ==> UrlParams(p).error == NoMethodError("split")
    decreases |p|
  {
    if p != [] {
      UrlParamsFailure(p[..|p| - 1]);
    }
  }

  /** An entry search_path that is neither a string nor an array makes the params loop
      raise. */
  lemma {:induction false} UnsplittableSearchPathStopsParams(p: Config, i: nat)
    requires i < |p| && p[i].0 == SearchPath && !p[i].1.VStr? && !p[i].1.VList?
    ensures UrlParams(p) == Failure(NoMethodError("split"))
    decreases |p|
  {
    UrlParamsFailure(p);
    if i < |p| - 1 {
      UnsplittableSearchPathStopsParams(p[..|p| - 1], i);
    }
  }

  /** When a url is to be synthesised and the final search_path (the override if it is
      truthy, else the raw one) is neither a string nor an array, normalisation raises
      NoMethodError for `split`. */
  lemma UnsplittableSearchPathRaises(h: RawHash, root: string, jruby: bool, maxConnections: Value, searchPath: Value,
                                     entries: Config, adapted: Config)
    requires CoerceEntries(h, h, root) == Success(entries)
    requires UseJdbc(entries, jruby) == Success(adapted)
    requires NeedsUrl(ApplyOverrides(adapted, maxConnections, searchPath))
    requires Truthy(searchPath) || LastNamed(h, SearchPath).Some?
    requires var v := if Truthy(searchPath) then searchPath else RawValue(h, SearchPath);
             !v.VStr? && !v.VList?
    ensures Normalize(h, root, jruby, maxConnections, searchPath) == Failure(NoMethodError("split"))
  {
    var c := ApplyOverrides(adapted, maxConnections, searchPath);
    SearchPathOfStages(h, root, jruby, maxConnections, searchPath, entries, adapted, c);
    CoerceEntriesDistinct(h, h, root);
    SameKeysDistinct(entries, adapted);
    OverridesDistinct(adapted, maxConnections, searchPath);
    var i :| 0 <= i < |c| && c[i].0 == SearchPath;
    FindEntry(c, i);
    UnsplittableSearchPathStopsParams(c, i);
  }

  // ---------------------------------------------------------------------------
  // The table of environments (lines 31-41)

  /** Each environment of the raw table is normalised under its own name; the table
      keeps the raw names in order and nothing else. */
  lemma {:induction false} NormalizeAllFind(table: RawEnvironments, normalize: RawHash -> Result<Config, Error>, k: EnvKey)
    requires DistinctKeys(table) && NormalizeAll(table, normalize).Success?
    ensures Find(table, k).None? ==> Find(NormalizeAll(table, normalize).value, k).None?
    ensures Find(table, k).Some? ==>
              normalize(Find(table, k).value).Success?
              && Find(NormalizeAll(table, normalize).value, k) == Some(normalize(Find(table, k).value).value)
    decreases |table|
  {
    if table != [] {
      DropLast(table);
      DropLastFind(table, k);
      NormalizeAllFind(table[..|table| - 1], normalize, k);
    }
  }

  /** The normalised table lists the environments in the raw table's order. */
  lemma {:induction false} NormalizeAllKeys(table: RawEnvironments, normalize: RawHash -> Result<Config, Error>)
    requires DistinctKeys(table) && NormalizeAll(table, normalize).Success?
    ensures Keys(NormalizeAll(table, normalize).value) == Keys(table)
    decreases |table|
  {
    if table != [] {
      var init := table[..|table| - 1];
      DropLast(table);
      DropLastKeys(table);
      NormalizeAllKeys(init, normalize);
      NormalizeAllFind(init, normalize, table[|table| - 1].0);
    }
  }

  /** environment_for(name) answers the normalisation of the environment named
      name.to_s under a string key, else under a symbol key, else nil. */
  lemma EnvironmentForResolves(table: RawEnvironments, root: string, jruby: bool,
                               maxConnections: Value, searchPath: Value, name: string)
    requires DistinctKeys(table) && AllEnvironments(Some(table), root, jruby, maxConnections, searchPath).Success?
    ensures var envs := AllEnvironments(Some(table), root, jruby, maxConnections, searchPath).value;
            var k := if HasKey(table, EnvStr(name)) then EnvStr(name) else EnvSym(name);
            if HasKey(table, k) then
              Normalize(Find(table, k).value, root, jruby, maxConnections, searchPath).Success?
              && LookupEnvironment(envs, name) == Some(Normalize(Find(table, k).value, root, jruby, maxConnections, searchPath).value)
            else
              LookupEnvironment(envs, name).None?
  {
    var normalize := NormalizeUnder(root, jruby, maxConnections, searchPath);
    LookupNormalized(table, normalize, name);
    var k := if HasKey(table, EnvStr(name)) then EnvStr(name) else EnvSym(name);
    if HasKey(table, k) {
      assert normalize(Find(table, k).value) == Normalize(Find(table, k).value, root, jruby, maxConnections, searchPath);
    }
  }

  /** EnvironmentForResolves, for any normalisation of the environments. */
  lemma LookupNormalized(table: RawEnvironments, normalize: RawHash -> Result<Config, Error>, name: string)
    requires DistinctKeys(table) && NormalizeAll(table, normalize).Success?
    ensures var envs := NormalizeAll(table, normalize).value;
            var k := if HasKey(table, EnvStr(name)) then EnvStr(name) else EnvSym(name);
            if HasKey(table, k) then
              normalize(Find(table, k).value).Success?
              && LookupEnvironment(envs, name) == Some(normalize(Find(table, k).value).value)
            else
              LookupEnvironment(envs, name).None?
  {
    NormalizeAllFind(table, normalize, EnvStr(name));
    NormalizeAllFind(table, normalize, EnvSym(name));
  }

  /** The table is built only if every environment normalises. */
  lemma {:induction false} NormalizeAllNeedsEvery(table: RawEnvironments, normalize: RawHash -> Result<Config, Error>, i: nat)
    requires i < |table| && normalize(table[i].1).Failure?
    ensures NormalizeAll(table, normalize).Failure?
    decreases |table|
  {
    if i < |table| - 1 {
      NormalizeAllNeedsEvery(table[..|table| - 1], normalize, i);
    }
  }
}
