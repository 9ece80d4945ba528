/** configuration.rb: the normalisation of one environment's raw database settings
    into a driver-ready connection specification (normalize_repository_config), and
    the Configuration object that memoises the normalised table of environments.

    The Ruby method reads three pieces of global state, which are parameters here:
    `jruby` (SequelRails.jruby?), the application-wide `maxConnections` and
    `searchPath` overrides (nil when unset), and `root`. */
module SequelConfig {
  import opened Wrappers
  import opened RubyStrings
  import opened RubyHash
  import opened RubyValues

  /** The settings that go into the URL's body and are left out of its query string. */
  predicate IsUrlField(n: Name) {
    n == Adapter || n == Host || n == Port || n == Database
  }

  // ---------------------------------------------------------------------------
  // The entry loop (hash.each, lines 59-76)

  /** Adapter aliases: 'sqlite3' becomes 'sqlite', 'postgresql' becomes 'postgres'. */
  function CanonicalAdapter(v: Value): Value {
    if v == VStr("sqlite3") then VStr("sqlite")
    else if v == VStr("postgresql") then VStr("postgres")
    else v
  }

  predicate IsSqliteName(v: Value) {
    v == VStr("sqlite3") || v == VStr("sqlite")
  }

  /** The raw hash names a SQLite adapter, under the string key or the symbol key. */
  predicate RawAdapterIsSqlite(h: RawHash) {
    IsSqliteName(Lookup(h, Str(Adapter))) || IsSqliteName(Lookup(h, Sym(Adapter)))
  }

  /** `hash['database'] || hash[:database]`. */
  function RawDatabase(h: RawHash): Value {
    if Truthy(Lookup(h, Str(Database))) then Lookup(h, Str(Database)) else Lookup(h, Sym(Database))
  }

  /** File.expand_path(path, root), reduced to two facts: an absolute path is kept,
      a relative one is joined to `root`. */
  function ExpandPath(path: string, root: string): string {
    if StartsWith(path, "/") then path else root + "/" + path
  }

  /** The resolved SQLite file; File.expand_path raises TypeError on anything but a string. */
  function SqlitePath(h: RawHash, root: string): Result<Value, Error> {
    match RawDatabase(h)
    case VStr(p) => Success(VStr(ExpandPath(p, root)))
    case _ => Failure(TypeError)
  }

  /** The value stored under `key.to_s` for the raw entry (key, value). */
  function CoerceEntry(key: Key, value: Value, h: RawHash, root: string): Result<Value, Error> {
    if key.name == Port then
      (var n :- ToI(value); Success(VInt(n)))
    else if key.name == Adapter && value == VStr("sqlite3") then
      Success(VStr("sqlite"))
    else if key.name == Database && RawAdapterIsSqlite(h) then
      if value == VStr(":memory:") then Success(value) else SqlitePath(h, root)
    else if key.name == Adapter && value == VStr("postgresql") then
      Success(VStr("postgres"))
    else
      Success(value)
  }

  /** The config hash after the entry loop has visited `prefix`, a prefix of the raw
      hash `h` (the entry rules look values up in the whole of `h`). */
  function CoerceEntries(prefix: RawHash, h: RawHash, root: string): Result<Config, Error>
    decreases |prefix|
  {
    if prefix == [] then Success([])
    else
      var c :- CoerceEntries(prefix[..|prefix| - 1], h, root);
      var entry := prefix[|prefix| - 1];
      var v :- CoerceEntry(entry.0, entry.1, h, root);
      Success(Assign(c, entry.0.name, v))
  }

  /** The last raw entry whose key stringifies to `s`: the one whose value the
      stringified key ends up holding. */
  function LastNamed(h: RawHash, s: Name): (r: Option<(Key, Value)>)
    ensures r.Some? ==> r.value in h && r.value.0.name == s
    ensures r.None? <==> forall i :: 0 <= i < |h| ==> h[i].0.name != s
    decreases |h|
  {
    if h == [] then None
    else if h[|h| - 1].0.name == s then Some(h[|h| - 1])
    else LastNamed(h[..|h| - 1], s)
  }

  /** The value the entry loop stores under `s`, if it stores one. */
  function CoercedValue(prefix: RawHash, h: RawHash, root: string, s: Name): Option<Value> {
    match LastNamed(prefix, s)
    case None => None
    case Some(entry) =>
      match CoerceEntry(entry.0, entry.1, h, root)
      case Success(v) => Some(v)
      case Failure(_) => None
  }

  // ---------------------------------------------------------------------------
  // The JRuby rewrite (lines 79-87)

  /** The JDBC driver's spelling of a canonical adapter name. */
  function JdbcAdapterName(a: string): string {
    if a == "postgres" then "postgresql" else a
  }

  /** Under JRuby a present adapter `a` becomes "jdbc:<a>"; Symbol conversion
      (to_sym) fails on a value that is not a string. */
  function UseJdbc(c: Config, jruby: bool): (r: Result<Config, Error>)
    ensures r.Success? ==> Keys(r.value) == Keys(c)
    ensures r.Success? ==> forall s :: s != Adapter ==> Find(r.value, s) == Find(c, s)
  {
    if !jruby || !Truthy(Lookup(c, Adapter)) then Success(c)
    else
      match Lookup(c, Adapter)
      case VStr(a) => Success(Assign(c, Adapter, VStr("jdbc:" + JdbcAdapterName(a))))
      case _ => Failure(NoMethodError("to_sym"))
  }

  /** The adapter an environment ends with, given the canonical adapter `v`. */
  function FinalAdapter(v: Value, jruby: bool): Value {
    if jruby && Truthy(v) && v.VStr? then VStr("jdbc:" + JdbcAdapterName(v.s)) else v
  }

  // ---------------------------------------------------------------------------
  // Connection count and search path (lines 90-92)

  /** Lines 90-92. They touch max_connections and search_path only: max_connections
      becomes the global override if set, else the hash's own max_connections if
      truthy, else its pool (nil when absent); search_path becomes the global
      override if set, else stays as it is. */
  function ApplyOverrides(c: Config, maxConnections: Value, searchPath: Value): (r: Config)
    ensures forall s :: s != MaxConnections && s != SearchPath ==> Find(r, s) == Find(c, s)
    ensures Find(r, MaxConnections) == Some(
              if Truthy(maxConnections) then maxConnections
              else if Truthy(Lookup(c, MaxConnections)) then Lookup(c, MaxConnections)
              else Lookup(c, Pool))
    ensures Find(r, SearchPath) == if Truthy(searchPath) then Some(searchPath) else Find(c, SearchPath)
  {
    var withDefault :=
      if Truthy(Lookup(c, MaxConnections)) then c else Assign(c, MaxConnections, Lookup(c, Pool));
    var withMax :=
      if Truthy(maxConnections) then Assign(withDefault, MaxConnections, maxConnections) else withDefault;
    if Truthy(searchPath) then Assign(withMax, SearchPath, searchPath) else withMax
  }

  /** The overrides keep the keys distinct. */
  lemma OverridesDistinct(c: Config, maxConnections: Value, searchPath: Value)
    requires DistinctKeys(c)
    ensures DistinctKeys(ApplyOverrides(c, maxConnections, searchPath))
  {
    var withDefault := c;
    if !Truthy(Lookup(c, MaxConnections)) {
      withDefault := Assign(c, MaxConnections, Lookup(c, Pool));
      AssignDistinct(c, MaxConnections, Lookup(c, Pool));
    }
    var withMax := withDefault;
    if Truthy(maxConnections) {
      withMax := Assign(withDefault, MaxConnections, maxConnections);
      AssignDistinct(withDefault, MaxConnections, maxConnections);
    }
    var r := withMax;
    if Truthy(searchPath) {
      r := Assign(withMax, SearchPath, searchPath);
      AssignDistinct(withMax, SearchPath, searchPath);
    }
    assert r == ApplyOverrides(c, maxConnections, searchPath);
  }

  // ---------------------------------------------------------------------------
  // URL synthesis (lines 95-113)

  /** `adapter =~ /^(jdbc|do):/`, where `^` anchors at any line start. */
  predicate IsBridgeAdapter(a: string) {
    OccursAtLineStart(a, "jdbc:", true) || OccursAtLineStart(a, "do:", true)
  }

  /** The guard of line 95; Object#=~ answers nil for a value that is not a string. */
  predicate NeedsUrl(c: Config) {
    Lookup(c, Adapter).VStr? && IsBridgeAdapter(Lookup(c, Adapter).s) && !HasKey(c, Url)
  }

  /** search_path in the query string: a string is split on commas and each part
      stripped, an array is taken as it is; the parts are re-joined with commas and
      escaped. Anything else has no `split`. */
  function SearchPathParam(v: Value): Result<Value, Error> {
    match v
    case VStr(s) => Success(VStr(Escape(Join(StripEach(Split(s, ',')), ","))))
    case VList(xs) => Success(VStr(Escape(Join(xs, ","))))
    case _ => Failure(NoMethodError("split"))
  }

  function ParamValue(k: Name, v: Value): Result<Value, Error> {
    if k == SearchPath then SearchPathParam(v) else Success(v)
  }

  /** The params hash after the loop of lines 97-104 has visited `prefix`. */
  function UrlParams(prefix: Config): Result<Config, Error>
    decreases |prefix|
  {
    if prefix == [] then Success([])
    else
      var p :- UrlParams(prefix[..|prefix| - 1]);
      var entry := prefix[|prefix| - 1];
      if IsUrlField(entry.0) then Success(p)
      else
        var v :- ParamValue(entry.0, entry.1);
        Success(Assign(p, entry.0, v))
  }

  /** The keys of `ks` that the query string carries, in order. */
  function QueryKeys(ks: seq<Name>): seq<Name>
    decreases |ks|
  {
    if ks == [] then []
    else if IsUrlField(ks[|ks| - 1]) then QueryKeys(ks[..|ks| - 1])
    else QueryKeys(ks[..|ks| - 1]) + [ks[|ks| - 1]]
  }

  /** `params.map { |k, v| "#{k}=#{v}" }.join('&')`. */
  function QueryString(p: Config): string {
    Join(seq(|p|, i requires 0 <= i < |p| => Text(p[i].0) + "=" + ToS(p[i].1)), "&")
  }

  /** `":#{port}"` for a truthy port, otherwise empty. */
  function PortSegment(c: Config): string {
    if Truthy(Lookup(c, Port)) then ":" + ToS(Lookup(c, Port)) else ""
  }

  /** `'%s://%s%s/%s?%s'`. */
  function ServerUrl(adapter: string, host: string, port: string, database: string, query: string): string {
    adapter + "://" + host + port + "/" + database + "?" + query
  }

  function SynthesisedUrl(adapter: string, c: Config, query: string): string {
    if Contains(adapter, "sqlite") then adapter + ":" + ToS(Lookup(c, Database))
    else ServerUrl(adapter, ToS(Lookup(c, Host)), PortSegment(c), ToS(Lookup(c, Database)), query)
  }

  function AddUrl(c: Config): (r: Result<Config, Error>)
    ensures !NeedsUrl(c) ==> r == Success(c)
    ensures r.Success? ==> forall s :: s != Url ==> Find(r.value, s) == Find(c, s)
    ensures r.Success? ==> (HasKey(r.value, Url) <==> HasKey(c, Url) || NeedsUrl(c))
  {
    if NeedsUrl(c) then
      var p :- UrlParams(c);
      Success(Assign(c, Url, VStr(SynthesisedUrl(Lookup(c, Adapter).s, c, QueryString(p)))))
    else
      Success(c)
  }

  // ---------------------------------------------------------------------------
  // The whole normalisation

  /** What normalize_repository_config returns for the raw hash `h`. */
  function Normalize(h: RawHash, root: string, jruby: bool, maxConnections: Value, searchPath: Value)
    : Result<Config, Error>
  {
    var entries :- CoerceEntries(h, h, root);
    var adapted :- UseJdbc(entries, jruby);
    AddUrl(ApplyOverrides(adapted, maxConnections, searchPath))
  }

  /** The entry loop of lines 59-76: the raw entries rewritten into a new hash. */
  method CoerceAll(hash: RawHash, root: string) returns (r: Result<Config, Error>)
    ensures r == CoerceEntries(hash, hash, root)
  {
    var config: Config := [];
    var i := 0;
    while i < |hash|
      invariant 0 <= i <= |hash|
      invariant CoerceEntries(hash[..i], hash, root) == Success(config)
    {
      var key, value := hash[i].0, hash[i].1;
      var v := CoerceEntry(key, value, hash, root);
      CoerceEntriesStep(hash, root, i, config, v);
      if v.Failure? {
        return Failure(v.error);
      }
      config := Assign(config, key.name, v.value);
      i := i + 1;
    }
    assert hash[..|hash|] == hash;
    r := Success(config);
  }

  /** One turn of the entry loop: the entry is stored, or the loop raises what the
      entry rule raises. */
  lemma CoerceEntriesStep(hash: RawHash, root: string, i: nat, config: Config, v: Result<Value, Error>)
    requires i < |hash| && CoerceEntries(hash[..i], hash, root) == Success(config)
    requires v == CoerceEntry(hash[i].0, hash[i].1, hash, root)
    ensures v.Success? ==> CoerceEntries(hash[..i + 1], hash, root) == Success(Assign(config, hash[i].0.name, v.value))
    ensures v.Failure? ==> CoerceEntries(hash, hash, root) == Failure(v.error)
  {
    var p := hash[..i + 1];
    assert p[..|p| - 1] == hash[..i] && p[|p| - 1] == hash[i];
    if v.Failure? {
      CoerceEntriesFailureSticks(hash, i + 1, hash, root);
    }
  }

  /** The params loop of lines 96-104. */
  method CollectParams(config: Config) returns (r: Result<Config, Error>)
    ensures r == UrlParams(config)
  {
    var params: Config := [];
    var j := 0;
    while j < |config|
      invariant 0 <= j <= |config|
      invariant UrlParams(config[..j]) == Success(params)
    {
      var k, v := config[j].0, config[j].1;
      UrlParamsStep(config, j, params);
      if !IsUrlField(k) {
        var pv := ParamValue(k, v);
        if pv.Failure? {
          return Failure(pv.error);
        }
        params := Assign(params, k, pv.value);
      }
      j := j + 1;
    }
    assert config[..|config|] == config;
    r := Success(params);
  }

  /** One turn of the params loop: url fields are skipped, any other entry is stored,
      or the loop raises what ParamValue raises. */
  lemma UrlParamsStep(config: Config, j: nat, params: Config)
    requires j < |config| && UrlParams(config[..j]) == Success(params)
    ensures IsUrlField(config[j].0) ==> UrlParams(config[..j + 1]) == Success(params)
    ensures !IsUrlField(config[j].0) && ParamValue(config[j].0, config[j].1).Success? ==>
              UrlParams(config[..j + 1]) == Success(Assign(params, config[j].0, ParamValue(config[j].0, config[j].1).value))
    ensures !IsUrlField(config[j].0) && ParamValue(config[j].0, config[j].1).Failure? ==>
              UrlParams(config) == Failure(ParamValue(config[j].0, config[j].1).error)
  {
    var p := config[..j + 1];
    assert p[..|p| - 1] == config[..j] && p[|p| - 1] == config[j];
    if !IsUrlField(config[j].0) && ParamValue(config[j].0, config[j].1).Failure? {
      UrlParamsFailureSticks(config, j + 1);
    }
  }

  /** normalize_repository_config, step by step as the Ruby method builds its hash. */
  method NormalizeRepositoryConfig(hash: RawHash, root: string, jruby: bool, maxConnections: Value, searchPath: Value)
    returns (r: Result<Config, Error>)
    ensures r == Normalize(hash, root, jruby, maxConnections, searchPath)
  {
    var entries := CoerceAll(hash, root);
    if entries.Failure? {
      return Failure(entries.error);
    }
    var config := entries.value;

    // always use jdbc when running jruby
    if jruby {
      var adapter := Lookup(config, Adapter);
      if Truthy(adapter) {
        if !adapter.VStr? {
          return Failure(NoMethodError("to_sym"));
        }
        config := Assign(config, Adapter, VStr("jdbc:" + JdbcAdapterName(adapter.s)));
      }
    }
    assert UseJdbc(entries.value, jruby) == Success(config);
    ghost var adapted := config;

    if !Truthy(Lookup(config, MaxConnections)) {
      config := Assign(config, MaxConnections, Lookup(config, Pool));
    }
    if Truthy(maxConnections) {
      config := Assign(config, MaxConnections, maxConnections);
    }
    if Truthy(searchPath) {
      config := Assign(config, SearchPath, searchPath);
    }
    assert config == ApplyOverrides(adapted, maxConnections, searchPath);

    r := SynthesiseUrl(config);
    NormalizeStages(hash, root, jruby, maxConnections, searchPath, entries.value, adapted);
  }

  /** Lines 95-113: the url a bridge adapter needs, built from the other settings. */
  method SynthesiseUrl(config: Config) returns (r: Result<Config, Error>)
    ensures r == AddUrl(config)
  {
    var adapter := Lookup(config, Adapter);
    if adapter.VStr? && IsBridgeAdapter(adapter.s) && !HasKey(config, Url) {
      var params := CollectParams(config);
      if params.Failure? {
        return Failure(params.error);
      }
      var port := PortSegment(config);
      var url :=
        if Contains(adapter.s, "sqlite") then adapter.s + ":" + ToS(Lookup(config, Database))
        else ServerUrl(adapter.s, ToS(Lookup(config, Host)), port, ToS(Lookup(config, Database)),
                       QueryString(params.value));
      return Success(Assign(config, Url, VStr(url)));
    }
    r := Success(config);
  }

  /** Normalize is the composition of its stages. */
  lemma NormalizeStages(h: RawHash, root: string, jruby: bool, maxConnections: Value, searchPath: Value,
                        entries: Config, adapted: Config)
    requires CoerceEntries(h, h, root) == Success(entries)
    requires UseJdbc(entries, jruby) == Success(adapted)
    ensures Normalize(h, root, jruby, maxConnections, searchPath) == AddUrl(ApplyOverrides(adapted, maxConnections, searchPath))
  {
  }

  /** Once the entry loop has raised, the rest of the hash does not matter. */
  lemma {:induction false} CoerceEntriesFailureSticks(p: RawHash, n: nat, h: RawHash, root: string)
    requires n <= |p| && CoerceEntries(p[..n], h, root).Failure?
    ensures CoerceEntries(p, h, root) == CoerceEntries(p[..n], h, root)
    decreases |p|
  {
    if n < |p| {
      var init := p[..|p| - 1];
      assert init[..n] == p[..n];
      CoerceEntriesFailureSticks(init, n, h, root);
    } else {
      assert p[..n] == p;
    }
  }

  lemma {:induction false} UrlParamsFailureSticks(p: Config, n: nat)
    requires n <= |p| && UrlParams(p[..n]).Failure?
    ensures UrlParams(p) == UrlParams(p[..n])
    decreases |p|
  {
    if n < |p| {
      var init := p[..|p| - 1];
      assert init[..n] == p[..n];
      UrlParamsFailureSticks(init, n);
    } else {
      assert p[..n] == p;
    }
  }

  // ---------------------------------------------------------------------------
  // The table of environments (lines 31-41) and the Configuration object

  /** An environment name as a key of database.yml: a string or a symbol. */
  datatype EnvKey = EnvStr(envName: string) | EnvSym(envName: string)

  /** The raw database.yml table: environment name to raw settings. */
  type RawEnvironments = seq<(EnvKey, RawHash)>

  /** The normalised table: environment name (as given) to its connection settings. */
  type Environments = seq<(EnvKey, Config)>

  /** The table the reduce of lines 36-40 has built after visiting `prefix`, where
      `normalize` is the normalisation of one environment's settings. */
  function NormalizeAll(prefix: RawEnvironments, normalize: RawHash -> Result<Config, Error>)
    : Result<Environments, Error>
    decreases |prefix|
  {
    if prefix == [] then Success([])
    else
      var envs :- NormalizeAll(prefix[..|prefix| - 1], normalize);
      var environment := prefix[|prefix| - 1];
      var config :- normalize(environment.1);
      Success(Assign(envs, environment.0, config))
  }

  /** normalize_repository_config under fixed global settings. */
  function NormalizeUnder(root: string, jruby: bool, maxConnections: Value, searchPath: Value)
    : RawHash -> Result<Config, Error>
  {
    h => Normalize(h, root, jruby, maxConnections, searchPath)
  }

  /** `raw.reduce(...)`: a configuration whose raw table was never set (nil) has no
      `reduce`. */
  function AllEnvironments(raw: Option<RawEnvironments>, root: string, jruby: bool, maxConnections: Value, searchPath: Value)
    : Result<Environments, Error>
  {
    match raw
    case None => Failure(NoMethodError("reduce"))
    case Some(table) => NormalizeAll(table, NormalizeUnder(root, jruby, maxConnections, searchPath))
  }

  /** `environments[name.to_s] || environments[name.to_sym]`: a normalised hash is
      always truthy, so the symbol key is consulted only when the string key is absent. */
  function LookupEnvironment(envs: Environments, name: string): (r: Option<Config>)
    ensures HasKey(envs, EnvStr(name)) ==> r == Find(envs, EnvStr(name))
    ensures !HasKey(envs, EnvStr(name)) ==> r == Find(envs, EnvSym(name))
    ensures r.None? <==> !HasKey(envs, EnvStr(name)) && !HasKey(envs, EnvSym(name))
  {
    match Find(envs, EnvStr(name))
    case Some(config) => Some(config)
    case None => Find(envs, EnvSym(name))
  }

  /** default_schema_dump: the schema is dumped after migrations except in the test
      and production environments. */
  function DefaultSchemaDump(railsEnv: string): (r: bool)
    ensures r <==> railsEnv != "test" && railsEnv != "production"
  {
    !(railsEnv in ["test", "production"])
  }

  /** The options object. Its `environments` field is the memo @environments of line 36:
      None until the table has been built once. */
  class Configuration {
    var root: string
    var raw: Option<RawEnvironments>
    var maxConnections: Value
    var searchPath: Value
    var schemaDump: bool
    var loadDatabaseTasks: bool
    var environments: Option<Environments>

    /** `initialize` (lines 20-29), with Rails.root and Rails.env as parameters. */
    constructor (railsRoot: string, railsEnv: string)
      ensures root == railsRoot && raw == None
      ensures maxConnections == VNil && searchPath == VNil
      ensures schemaDump == DefaultSchemaDump(railsEnv) && loadDatabaseTasks
      ensures environments == None
    {
      root := railsRoot;
      raw := None;
      maxConnections := VNil;
      searchPath := VNil;
      schemaDump := DefaultSchemaDump(railsEnv);
      loadDatabaseTasks := true;
      environments := None;
    }

    /** `Configuration.for` (lines 11-17) on its first call: a new object with root and
        raw set. */
    constructor For(appRoot: string, databaseYml: RawEnvironments, railsEnv: string)
      ensures root == appRoot && raw == Some(databaseYml)
      ensures maxConnections == VNil && searchPath == VNil
      ensures schemaDump == DefaultSchemaDump(railsEnv) && loadDatabaseTasks
      ensures environments == None
    {
      root := appRoot;
      raw := Some(databaseYml);
      maxConnections := VNil;
      searchPath := VNil;
      schemaDump := DefaultSchemaDump(railsEnv);
      loadDatabaseTasks := true;
      environments := None;
    }

    /** `environments` (lines 35-41): built once with `||=` and then returned as stored.
        A raise leaves the memo unset, so the next call tries again. */
    method Environments(jruby: bool) returns (r: Result<Environments, Error>)
      modifies this`environments
      ensures old(environments).Some? ==> r == Success(old(environments).value) && environments == old(environments)
      ensures old(environments).None? ==> r == AllEnvironments(raw, root, jruby, maxConnections, searchPath)
      ensures old(environments).None? ==> environments == if r.Success? then Some(r.value) else None
    {
      if environments.Some? {
        return Success(environments.value);
      }
      if raw.None? {
        return Failure(NoMethodError("reduce"));
      }
      var table := raw.value;
      ghost var normalize := NormalizeUnder(root, jruby, maxConnections, searchPath);
      var normalized: Environments := [];
      var i := 0;
      while i < |table|
        invariant 0 <= i <= |table|
        invariant NormalizeAll(table[..i], normalize) == Success(normalized)
        invariant environments == None
      {
        var name, config := table[i].0, table[i].1;
        var c := NormalizeRepositoryConfig(config, root, jruby, maxConnections, searchPath);
        NormalizeAllStep(table, i, normalize, normalized, c);
        if c.Failure? {
          return Failure(c.error);
        }
        normalized := Assign(normalized, name, c.value);
        i := i + 1;
      }
      assert table[..|table|] == table;
      environments := Some(normalized);
      r := Success(normalized);
    }

    /** `environment_for` (lines 31-33). */
    method EnvironmentFor(name: EnvKey, jruby: bool) returns (r: Result<Option<Config>, Error>)
      modifies this`environments
      ensures old(environments).Some? ==>
                r == Success(LookupEnvironment(old(environments).value, name.envName)) && environments == old(environments)
      ensures old(environments).None? ==>
                match AllEnvironments(raw, root, jruby, maxConnections, searchPath)
                case Success(envs) => r == Success(LookupEnvironment(envs, name.envName)) && environments == Some(envs)
                case Failure(e) => r == Failure(e) && environments == None
    {
      var envs := Environments(jruby);
      if envs.Failure? {
        return Failure(envs.error);
      }
      r := Success(LookupEnvironment(envs.value, name.envName));
    }
  }

  lemma {:induction false} NormalizeAllFailureSticks(p: RawEnvironments, n: nat,
                                                      normalize: RawHash -> Result<Config, Error>)
    requires n <= |p| && NormalizeAll(p[..n], normalize).Failure?
    ensures NormalizeAll(p, normalize) == NormalizeAll(p[..n], normalize)
    decreases |p|
  {
    if n < |p| {
      var init := p[..|p| - 1];
      assert init[..n] == p[..n];
      NormalizeAllFailureSticks(init, n, normalize);
    } else {
      assert p[..n] == p;
    }
  }

  /** One turn of the reduce of lines 36-40. */
  lemma NormalizeAllStep(table: RawEnvironments, i: nat, normalize: RawHash -> Result<Config, Error>,
                         envs: Environments, c: Result<Config, Error>)
    requires i < |table| && NormalizeAll(table[..i], normalize) == Success(envs)
    requires c == normalize(table[i].1)
    ensures c.Success? ==> NormalizeAll(table[..i + 1], normalize) == Success(Assign(envs, table[i].0, c.value))
    ensures c.Failure? ==> NormalizeAll(table, normalize) == Failure(c.error)
  {
    var p := table[..i + 1];
    assert p[..|p| - 1] == table[..i] && p[|p| - 1] == table[i];
    if c.Failure? {
      NormalizeAllFailureSticks(table, i + 1, normalize);
    }
  }
}
