# sequel-rails: connection settings and JDBC storage tasks, in Dafny

This project models two parts of sequel-rails, the gem that plugs the Sequel
database toolkit into Rails, and proves their properties.

**The configuration normaliser** is `SequelRails::Configuration`:
- `normalize_repository_config` turns one environment's raw `database.yml` settings into the hash handed to `Sequel.connect`.
- `environments` builds, and memoises, the table of all environments.
- `environment_for` looks one environment up.
- `default_schema_dump` decides whether schemas are dumped.

**The JDBC storage tasks** are `SequelRails::Storage::Jdbc`:
- the engine predicates;
- the slicing of a MySQL url into its server root and query string;
- what create, drop, dump and load do for each engine, with the exact MySQL SQL;
- the memoised `collation`.

The model follows the code as written, including where it may surprise a reader. See "Behaviour of the code as written" below.

## How the Ruby is represented

- **Hashes.** A Ruby Hash is an association list, `seq<(K, V)>`, because Ruby hashes keep insertion order and the url's query string depends on that order.
  - `RubyHash.Find` is `Hash#[]`.
  - `RubyHash.Assign` is `Hash#[]=`: an existing key keeps its place and a new key goes at the end.
- **Values.** Values are `nil`, booleans, integers, strings and arrays of strings (`RubyValues.Value`).
  - Truthiness, `to_s` and `to_i` follow Ruby.
  - Raising an exception is returning `Failure(error)`. For example, `start_with?` on nil gives `NoMethodError("start_with?")`.
- **Setting names.** A setting name is a `RubyValues.Name`.
  - Each name the code reads (`adapter`, `database`, `host`, `port`, `max_connections`, `pool`, `search_path`, `url`) has its own constructor. `Other(text)` holds every other name.
  - `Text` and `NameOf` convert between names and strings. `RubyValues.NameTextRoundTrip` proves that every string has exactly one canonical name, so the representation loses nothing.
  - A raw key is `Str(name)` or `Sym(name)`, for a string key or a symbol key. `key.to_s` is its name.
  - An environment name is a plain string, under a string key or a symbol key (`SequelConfig.EnvKey`).
- **Global state as parameters.** `normalize_repository_config` reads global state, which the model passes in explicitly:
  - `jruby` stands for `SequelRails.jruby?`;
  - `maxConnections` and `searchPath` are the application-wide overrides, nil when unset;
  - `root` is the application root;
  - `Rails.env` is the parameter of `default_schema_dump`.
- **Imperative code stays imperative.** `SequelConfig.NormalizeRepositoryConfig` builds its hash step by step, with the two loops of the Ruby method. Its proof shows it computes the specification function `SequelConfig.Normalize`, and the properties are proved about that function.
  - `SequelConfig.Configuration` is a class whose `environments` field is the `@environments` memo.
  - `JdbcStorage.Jdbc` is a class whose `collationMemo` field is the `@collation` memo.
- **Side effects as return values.** A storage task returns the `Action` it would perform: `NoOp`, `Connect(url)`, `ConnectAndExecute(url, sql)`, `RemoveFileIfExists(path)` or `DelegateToPostgres(op)`. Raising `NotImplementedError` is a `Failure`.

## Behaviour of the code as written

- **Stringified names merge.** A raw string key and symbol key with the same name give one setting, holding the value of the later of the two entries.
- **Only `port` is coerced.** `pool: "5"` stays the string `"5"` in `max_connections`.
- **A nil port still produces `:0`.** `port: nil` becomes `0`, and 0 is truthy in Ruby, so a synthesised url contains `:0` (`ConfigProperties.NilPortBecomesZero`).
- **`max_connections` is always present.** It exists even when it is nil. With no overrides set, an empty raw hash normalises to `{"max_connections" => nil}`.
- **`pool` is kept** next to `max_connections`, and ends up in the url's query string.
- **Under JRuby the rewrite is not idempotent.** Normalising `jdbc:mysql` again gives `jdbc:jdbc:mysql` (`ConfigProperties.JdbcPrefixRepeats`). Without JRuby, normalising again changes nothing (`ConfigProperties.NativeAdapterStable`).
- **An unknown environment returns nil.** `environment_for` gives nil for a name the table does not hold, instead of raising. It still raises whatever building the table raises.
- **`^` and `$` anchor at lines, not at the whole string.** In `_root_url` and `_params` they match at any line start and line end. `_root_url` is therefore a prefix of the url only when the match is on the first line (`JdbcProperties.SingleLineRootUrl` and `JdbcProperties.RootUrlAtLineStart`). `_params` stops at the first newline.
- **`in_memory?` reads a different database setting.** It checks the `database` that `Storage::Abstract` supplies. The SQLite drop removes the normalised `config['database']`.

## Model

| member | source | states |
|---|---|---|
| SequelConfig.NormalizeRepositoryConfig | lib/sequel_rails/configuration.rb:58-116 | the method that builds the hash step by step returns exactly what `Normalize` specifies, raises included |
| SequelConfig.Normalize | lib/sequel_rails/configuration.rb:58-116 | the specification of `normalize_repository_config`, in four stages; its properties are the `ConfigProperties` lemmas below |
| SequelConfig.CoerceEntries | lib/sequel_rails/configuration.rb:59-76 | the specification of the `hash.each` loop over a prefix of the raw hash; see CoerceEntriesFind |
| SequelConfig.CoerceEntry | lib/sequel_rails/configuration.rb:61-75 | the rule that rewrites one raw entry; see CoercedPort, CoercedAdapter and CoercedDatabase |
| SequelConfig.CoerceAll | lib/sequel_rails/configuration.rb:59-76 | the `hash.each` loop returns the entry loop's specification `CoerceEntries`, or the first error an entry rule raises |
| SequelConfig.CoerceEntriesStep | lib/sequel_rails/configuration.rb:60-76 | one turn of the entry loop stores the rewritten value under `key.to_s`, or the whole loop raises that entry's error |
| ConfigProperties.CoerceEntriesFind | lib/sequel_rails/configuration.rb:60-76 | after the loop, each stringified name holds the rewritten value of the LAST raw entry with that name; a name no raw key has is absent |
| ConfigProperties.CoerceEntriesContent | lib/sequel_rails/configuration.rb:60-76 | CoerceEntriesFind for every name at once |
| ConfigProperties.CoerceEntriesDistinct | lib/sequel_rails/configuration.rb:59-61 | the hash the loop builds has no repeated key |
| ConfigProperties.CoerceEntrySucceeds | lib/sequel_rails/configuration.rb:60-76 | the loop succeeds only if every entry's rule succeeds |
| ConfigProperties.Stages | lib/sequel_rails/configuration.rb:58-116 | a successful normalisation passed the entry loop, the JRuby rewrite and the overrides; the url stage changes no key except `url`, and adds `url` exactly when it is needed |
| ConfigProperties.NormalizedFind | lib/sequel_rails/configuration.rb:60-76 | a name other than adapter, max_connections, search_path and url holds what the entry loop stored |
| ConfigProperties.NormalizedHasKey | lib/sequel_rails/configuration.rb:60-107 | every raw name is kept; every output name is a raw name, max_connections, search_path or url; max_connections is always present; search_path is present iff it was raw or an override |
| ConfigProperties.NormalizedKeys | lib/sequel_rails/configuration.rb:60-107 | NormalizedHasKey for every name at once |
| ConfigProperties.NormalizedPort | lib/sequel_rails/configuration.rb:62-63 | `port` is absent without a raw port, else it is the `to_i` of the last raw port |
| ConfigProperties.CoercedPort | lib/sequel_rails/configuration.rb:62-63 | the entry rule for port stores `to_i` of the raw value |
| ConfigProperties.UncoercablePortRaises | lib/sequel_rails/configuration.rb:63 | a boolean or array port has no `to_i`, so normalisation raises |
| ConfigProperties.UncoercablePortStopsEntryLoop | lib/sequel_rails/configuration.rb:60-63 | a port whose `to_i` raises makes the entry loop raise |
| ConfigProperties.PortCoercion | lib/sequel_rails/configuration.rb:63 | `to_i` keeps an integer, reads back a decimal string, parses a digit string, and turns nil into 0 |
| RubyStrings.StringToIOfIntToString | lib/sequel_rails/configuration.rb:63 | `String#to_i` inverts `Integer#to_s` |
| RubyStrings.StringToIOfDigits | lib/sequel_rails/configuration.rb:63 | `String#to_i` of a digit string is the number it denotes |
| RubyStrings.DecimalValueOfNatToString | lib/sequel_rails/configuration.rb:63 | the decimal digits of n denote n |
| ConfigProperties.CanonicalAdapterCases | lib/sequel_rails/configuration.rb:64-65 | sqlite3 becomes sqlite, postgresql becomes postgres, and every other value passes unchanged |
| ConfigProperties.CanonicalAdapterIdempotent | lib/sequel_rails/configuration.rb:64-72 | canonicalising twice is canonicalising once |
| ConfigProperties.CoercedAdapter | lib/sequel_rails/configuration.rb:64-72 | the entry rule for adapter stores the canonical form of the raw value |
| ConfigProperties.NormalizedAdapter | lib/sequel_rails/configuration.rb:64-87 | the final adapter is the canonical raw adapter, JDBC-prefixed under JRuby; with no raw adapter there is no adapter key |
| SequelConfig.UseJdbc | lib/sequel_rails/configuration.rb:79-87 | the JRuby rewrite keeps the keys in order and changes no setting but adapter |
| ConfigProperties.UseJdbcAdapter | lib/sequel_rails/configuration.rb:79-87 | the rewrite turns a present adapter `a` into `jdbc:a` (postgres spelled postgresql) and adds none |
| ConfigProperties.AdaptedAdapter | lib/sequel_rails/configuration.rb:60-87 | NormalizedAdapter, after the first two stages |
| ConfigProperties.JdbcAdapterExamples | lib/sequel_rails/configuration.rb:79-87 | under JRuby, raw postgresql and postgres give jdbc:postgresql, mysql gives jdbc:mysql and sqlite3 gives jdbc:sqlite |
| ConfigProperties.NativeAdapterStable | lib/sequel_rails/configuration.rb:64-72 | without JRuby, normalising an adapter again changes nothing |
| ConfigProperties.JdbcPrefixRepeats | lib/sequel_rails/configuration.rb:85 | under JRuby the prefix is added on every pass |
| ConfigProperties.NonStringAdapterRaisesUnderJruby | lib/sequel_rails/configuration.rb:80-81 | under JRuby a truthy adapter that is not a string has no `to_sym`, so normalisation raises |
| ConfigProperties.NonStringAdapterStopsRewrite | lib/sequel_rails/configuration.rb:80-81 | the same, for the JRuby rewrite stage |
| ConfigProperties.NormalizedDatabase | lib/sequel_rails/configuration.rb:66-70 | for a SQLite raw adapter (string or symbol key), ':memory:' is kept and any other database becomes the expanded path of `hash['database'] \|\| hash[:database]`; otherwise the value passes through |
| ConfigProperties.CoercedDatabase | lib/sequel_rails/configuration.rb:66-70 | the entry rule for database, case by case |
| ConfigProperties.EntryRuleIgnoresOrder | lib/sequel_rails/configuration.rb:66-70 | two raw hashes with the same entries in any order rewrite every entry alike, so adapter may come before or after database |
| SequelConfig.ApplyOverrides | lib/sequel_rails/configuration.rb:90-92 | max_connections becomes the override, else the own truthy value, else pool; search_path becomes the override if set; nothing else changes |
| SequelConfig.OverridesDistinct | lib/sequel_rails/configuration.rb:90-92 | the overrides keep the keys distinct |
| ConfigProperties.NormalizedOverrides | lib/sequel_rails/configuration.rb:90-92 | on the normalised hash, max_connections is the global override, else the raw truthy max_connections, else the raw pool (nil if absent); search_path is the override if set, else the raw value |
| ConfigProperties.MaxConnectionsOfStages | lib/sequel_rails/configuration.rb:90-91 | the max_connections half of NormalizedOverrides, stated on the stages |
| ConfigProperties.SearchPathOfStages | lib/sequel_rails/configuration.rb:92 | the search_path half, stated on the stages |
| ConfigProperties.PlainCoerced | lib/sequel_rails/configuration.rb:73-74 | a name the entry rules do not rewrite holds its last raw value |
| ConfigProperties.PlainAdapted | lib/sequel_rails/configuration.rb:73-87 | such a name holds its last raw value after the JRuby rewrite too |
| SequelConfig.AddUrl | lib/sequel_rails/configuration.rb:95-113 | url synthesis changes nothing unless the adapter is a string matching `^(jdbc\|do):` and there is no url; it changes no key but url, and url is present afterwards iff it was before or was needed |
| SequelConfig.SynthesiseUrl | lib/sequel_rails/configuration.rb:95-113 | the imperative url step returns exactly what AddUrl specifies |
| SequelConfig.CollectParams | lib/sequel_rails/configuration.rb:96-104 | the params loop returns the specification `UrlParams`, or the error `split` raises |
| SequelConfig.UrlParamsStep | lib/sequel_rails/configuration.rb:97-104 | one turn of the params loop skips a url field, stores any other entry, or makes the loop raise |
| SequelConfig.UrlParams | lib/sequel_rails/configuration.rb:96-104 | the specification of the params loop over a prefix of the config; see UrlParamsFind and UrlParamsKeys |
| ConfigProperties.ExistingUrlKept | lib/sequel_rails/configuration.rb:95-107 | a raw url is never overwritten |
| ConfigProperties.UrlOnlyForBridgeAdapters | lib/sequel_rails/configuration.rb:95 | without a raw url, a url is present iff the final adapter is a string matching `^(jdbc\|do):` |
| ConfigProperties.BridgeAdapterOnOneLine | lib/sequel_rails/configuration.rb:95 | on an adapter without a newline, `^(jdbc\|do):` holds iff the adapter starts with `jdbc:` or `do:` |
| ConfigProperties.UrlParamsFind | lib/sequel_rails/configuration.rb:97-104 | the params hash holds every key but adapter, host, port and database, with search_path rewritten and every other value as it is, and nothing else |
| ConfigProperties.UrlParamsKeys | lib/sequel_rails/configuration.rb:97-105 | the params hash lists its keys in config order |
| ConfigProperties.NormalizedUrl | lib/sequel_rails/configuration.rb:105-112 | a synthesised url is the last entry, built from the hash before it: `adapter:database` for an adapter containing sqlite, else `adapter://host:port/database?params` |
| ConfigProperties.PortSegmentCases | lib/sequel_rails/configuration.rb:106 | the port segment is `:` and the digits for any integer port, 0 included, and empty without a port |
| ConfigProperties.NilPortBecomesZero | lib/sequel_rails/configuration.rb:63-106 | a raw nil port normalises to 0, whose port segment is `:0` |
| ConfigProperties.SearchPathParamCases | lib/sequel_rails/configuration.rb:99-102 | a comma list without spaces survives split, strip and join unchanged; an array is joined with commas; any other value (nil, a boolean, an integer) raises NoMethodError for `split` |
| ConfigProperties.UrlParamsFailure | lib/sequel_rails/configuration.rb:97-104 | the params loop can raise only the NoMethodError of `split` |
| ConfigProperties.UnsplittableSearchPathStopsParams | lib/sequel_rails/configuration.rb:97-104 | a search_path entry that is neither a string nor an array makes the params loop raise |
| ConfigProperties.UnsplittableSearchPathRaises | lib/sequel_rails/configuration.rb:89-107 | when a url is synthesised and the final search_path (the truthy override, else the raw value) is neither a string nor an array, normalisation raises NoMethodError for `split` |
| RubyStrings.JoinFields | lib/sequel_rails/configuration.rb:100-101 | joining the fields of a split with its separator gives the string back |
| RubyStrings.SplitStripJoinClean | lib/sequel_rails/configuration.rb:100-101 | a string without whitespace or a trailing separator survives split, strip and join |
| RubyStrings.Escape | lib/sequel_rails/configuration.rb:101 | the escaped text holds only safe characters and `%` |
| RubyStrings.EscapeKeepsSafe | lib/sequel_rails/configuration.rb:101 | escaping leaves a string of safe characters (letters, digits, `,` and the rest of RFC 2396's unreserved and reserved set) alone |
| SequelConfig.Configuration.Environments | lib/sequel_rails/configuration.rb:35-41 | the first successful call builds and stores the table; later calls return the stored table unchanged; a raise leaves the memo unset |
| SequelConfig.NormalizeAllStep | lib/sequel_rails/configuration.rb:36-40 | one turn of the reduce stores the environment's normalised hash under its name, or the reduce raises |
| SequelConfig.NormalizeAll | lib/sequel_rails/configuration.rb:36-40 | the specification of the reduce over a prefix of the raw table; see NormalizeAllFind and NormalizeAllKeys |
| ConfigProperties.NormalizeAllFind | lib/sequel_rails/configuration.rb:36-40 | the table maps each raw environment name to the normalisation of its settings, and has no other names |
| ConfigProperties.NormalizeAllKeys | lib/sequel_rails/configuration.rb:36-40 | the table lists the environments in the raw order |
| ConfigProperties.NormalizeAllNeedsEvery | lib/sequel_rails/configuration.rb:36-40 | the table is built only if every environment normalises |
| SequelConfig.Configuration.EnvironmentFor | lib/sequel_rails/configuration.rb:31-33 | `environment_for` is the lookup in the memoised table, which it builds on first use; once the table is built, a lookup leaves it as it was |
| SequelConfig.LookupEnvironment | lib/sequel_rails/configuration.rb:32 | the string key wins; the symbol key is used only when the string key is absent; the answer is nil iff neither is there |
| ConfigProperties.EnvironmentForResolves | lib/sequel_rails/configuration.rb:31-41 | `environment_for(name)` is the normalisation of the raw environment under `name.to_s`, else under `name.to_sym`, else nil |
| ConfigProperties.LookupNormalized | lib/sequel_rails/configuration.rb:31-41 | EnvironmentForResolves for any per-environment normalisation |
| SequelConfig.DefaultSchemaDump | lib/sequel_rails/configuration.rb:54-56 | schemas are dumped iff the environment is neither test nor production |
| SequelConfig.Configuration.constructor | lib/sequel_rails/configuration.rb:20-29 | a new configuration has no raw table, no overrides, schema dumping by environment, database tasks on and no memo |
| SequelConfig.Configuration.For | lib/sequel_rails/configuration.rb:11-17 | the first `Configuration.for` call gives a configuration with the given root and raw table |
| RubyValues.NameTextRoundTrip | lib/sequel_rails/configuration.rb:61 | names and the strings `key.to_s` produces correspond one to one |
| JdbcProperties.EnginesExclusive | lib/sequel_rails/storage/jdbc.rb:4-14 | no adapter string satisfies two of the engine predicates |
| JdbcProperties.EnginePredicates | lib/sequel_rails/storage/jdbc.rb:4-14 | the predicates are prefix tests on the adapter string, and raise when the adapter is not a string |
| JdbcStorage.IsMysql | lib/sequel_rails/storage/jdbc.rb:4-6 | `_is_mysql?` raises exactly when the adapter is not a string, and otherwise tests the `jdbc:mysql` prefix |
| JdbcStorage.IsPostgres | lib/sequel_rails/storage/jdbc.rb:8-10 | `_is_postgres?` raises exactly when the adapter is not a string, and otherwise tests the `jdbc:postgresql` prefix |
| JdbcStorage.IsSqlite | lib/sequel_rails/storage/jdbc.rb:12-14 | `_is_sqlite?` raises exactly when the adapter is not a string, and otherwise tests the `jdbc:sqlite` prefix |
| JdbcStorage.InMemory | lib/sequel_rails/storage/jdbc.rb:80-83 | `in_memory?` raises exactly when the adapter is not a string, and is true iff the adapter is SQLite and the inherited database is `:memory:` |
| JdbcStorage.DbName | lib/sequel_rails/storage/jdbc.rb:20-22 | `db_name` as interpolated into the SQL; no contract of its own, used by MysqlTasks |
| JdbcStorage.CreateAction | lib/sequel_rails/storage/jdbc.rb:28-40 | the specification of `_create`; its cases are the `JdbcProperties` lemmas below |
| JdbcStorage.DropAction | lib/sequel_rails/storage/jdbc.rb:42-54 | the specification of `_drop`; its cases are the `JdbcProperties` lemmas below |
| JdbcStorage.PostgresOnly | lib/sequel_rails/storage/jdbc.rb:56-72 | `_dump` and `_load` succeed exactly on a Postgres adapter, by delegating the same task, and raise NotImplementedError exactly on another string adapter |
| JdbcStorage.Dispatch | lib/sequel_rails/storage/jdbc.rb:28-72 | a file is removed only by drop on SQLite, a url is connected to as it stands only by create on SQLite, SQL is executed only by create or drop on MySQL, and a task is delegated only on Postgres and as itself |
| JdbcProperties.InMemoryCases | lib/sequel_rails/storage/jdbc.rb:80-83 | `in_memory?` is false unless the adapter is SQLite, and then says whether the database is ':memory:' |
| JdbcProperties.InMemoryNoOp | lib/sequel_rails/storage/jdbc.rb:28-55 | an in-memory SQLite database is neither created nor dropped |
| JdbcProperties.SqliteFileTasks | lib/sequel_rails/storage/jdbc.rb:28-55 | for a SQLite file, create connects to the configured url, and drop removes the database file if it exists (and raises if the database is not a string) |
| JdbcProperties.MysqlTasks | lib/sequel_rails/storage/jdbc.rb:28-55 | MySQL create and drop execute their exact statements on a connection to `_root_url` followed by `_params` |
| JdbcProperties.PostgresDelegates | lib/sequel_rails/storage/jdbc.rb:28-72 | every task on jdbc:postgresql is delegated to the Postgres storage with the same operation |
| JdbcProperties.DumpLoadNotImplemented | lib/sequel_rails/storage/jdbc.rb:56-72 | dump and load raise NotImplementedError on any other adapter |
| JdbcProperties.UnknownEngineNoOp | lib/sequel_rails/storage/jdbc.rb:28-54 | create and drop do nothing, and raise nothing, for an adapter of no known engine |
| JdbcProperties.NonStringAdapterRaises | lib/sequel_rails/storage/jdbc.rb:4-14 | a missing or non-string adapter makes every task raise |
| JdbcProperties.CollationCases | lib/sequel_rails/storage/jdbc.rb:76-78 | the collation is the inherited one if there is one, else utf8_unicode_ci |
| JdbcStorage.CollationOf | lib/sequel_rails/storage/jdbc.rb:77 | `super \|\| 'utf8_unicode_ci'`; its cases are CollationCases |
| JdbcStorage.Jdbc.Collation | lib/sequel_rails/storage/jdbc.rb:76-78 | the memo is set once to the collation and returned from then on |
| JdbcStorage.Jdbc.CreateDatabase | lib/sequel_rails/storage/jdbc.rb:28-40 | `_create` returns the dispatched action; the collation memo is set exactly when the MySQL path reaches the CREATE statement, and is otherwise left as it was |
| JdbcStorage.Jdbc.constructor | lib/sequel_rails/storage/jdbc.rb:3 | a new storage object has the given config and an unset collation memo |
| JdbcStorage.WordDotRun | lib/sequel_rails/storage/jdbc.rb:17 | `[\w\.]*` matches the longest prefix of word characters and dots |
| JdbcStorage.DigitRun | lib/sequel_rails/storage/jdbc.rb:17 | `\d*` matches the longest prefix of digits |
| JdbcStorage.ServerPart | lib/sequel_rails/storage/jdbc.rb:17 | the server part is a prefix of the text |
| JdbcStorage.RootMatch | lib/sequel_rails/storage/jdbc.rb:17 | the root match is a prefix of the url |
| JdbcProperties.RootMatchOfServer | lib/sequel_rails/storage/jdbc.rb:16-18 | the root match of `jdbc:mysql://host:port/...` is exactly `jdbc:mysql://host:port` |
| JdbcProperties.ServerPartOfServer | lib/sequel_rails/storage/jdbc.rb:17 | the greedy match stops at the `/` after the host and port |
| JdbcProperties.WordDotRunOver | lib/sequel_rails/storage/jdbc.rb:17 | the word-and-dot run stops at the first other character |
| JdbcProperties.DigitRunOver | lib/sequel_rails/storage/jdbc.rb:17 | the digit run stops at the first non-digit |
| JdbcProperties.SingleLineRootUrl | lib/sequel_rails/storage/jdbc.rb:16-18 | on a one-line url, `_root_url` matches iff the url starts with `jdbc:mysql://`, and is then a prefix of it |
| JdbcProperties.NoLineStartNoRoot | lib/sequel_rails/storage/jdbc.rb:17 | a one-line text has no match away from its start |
| JdbcProperties.RootUrlAtLineStart | lib/sequel_rails/storage/jdbc.rb:17 | every root match sits at a line start of the url |
| JdbcStorage.ScanRootUrl | lib/sequel_rails/storage/jdbc.rb:17 | the scan finds a match iff `jdbc:mysql://` occurs at a line start, and the match begins with `jdbc:mysql://` |
| JdbcStorage.RootUrl | lib/sequel_rails/storage/jdbc.rb:16-18 | `_root_url` raises exactly when the url is not a string, and is non-nil iff `jdbc:mysql://` occurs at a line start of the url |
| JdbcStorage.FirstIndexOf | lib/sequel_rails/storage/jdbc.rb:25 | the position of the first `?`, or none iff there is no `?` |
| JdbcStorage.UpToNewline | lib/sequel_rails/storage/jdbc.rb:25 | `.*$` covers the text up to the first newline |
| JdbcProperties.ParamsShape | lib/sequel_rails/storage/jdbc.rb:24-26 | `_params` is nil iff the url has no `?`; otherwise it starts at the first `?` and runs to the end of its line, the end of the url on a one-line url |
| JdbcStorage.ScanParams | lib/sequel_rails/storage/jdbc.rb:25 | the scan finds nothing iff there is no `?`; a match begins with `?` and holds no newline |
| JdbcStorage.Params | lib/sequel_rails/storage/jdbc.rb:24-26 | `_params` raises exactly when the url is not a string, and is nil iff the url has no `?` |
| UrlContract.ServerUrlParams | lib/sequel_rails/configuration.rb:111 | `_params` of a server url is `?` followed by its query string, when nothing before the query has a `?` |
| UrlContract.ServerUrlRoot | lib/sequel_rails/configuration.rb:111 | `_root_url` of a jdbc:mysql server url is its scheme, host and port |
| UrlContract.MysqlServerUrlSlices | lib/sequel_rails/storage/jdbc.rb:16-26 | the storage slices a jdbc:mysql server url back into its root and `?query` |
| UrlContract.SynthesisedMysqlUrl | lib/sequel_rails/configuration.rb:95-111 | under JRuby a raw mysql environment without a url gets `jdbc:mysql://host:port/database?params` |
| UrlContract.MysqlCreateUsesSynthesisedUrl | lib/sequel_rails/configuration.rb:95-111 | creating the database of such an environment connects to `jdbc:mysql://host:port?params` (the url without `/database`) and runs the CREATE statement |
| UrlContract.MysqlCreateOnUrl | lib/sequel_rails/storage/jdbc.rb:28-35 | the same, for any jdbc:mysql configuration holding such a url |

## Left out

- `Sequel.connect`, `db.execute`, `FileUtils.rm` and `File.exists?` are I/O. The model returns the action that would be performed.
- `Configuration#connect` (lines 43-50) only hands the normalised hash to `Sequel.connect`, so it is not modelled.
- `SequelRails.setup`, the `mattr_accessor` singleton behind `Configuration.for`, `Rails.root`, `Rails.logger` and the remaining `OrderedOptions` setters are framework state. `Configuration.For` models only the first call.
- `SequelConfig.ExpandPath` does not model `File.expand_path` in full. It keeps an absolute path and joins a relative one to the root; `~`, `..` and `.` are not resolved.
- `RubyStrings.Escape` models `URI.escape` with RFC 2396's unreserved and reserved characters as the safe set. Other characters are percent-encoded as their UTF-8 bytes in upper-case hex.
- `RubyValues.ToS` does not escape quotes or backslashes inside an array's `inspect` form.
- `RubyValues.Value` has no symbols, floats or nested hashes. A symbol adapter such as the `:postgresql` of line 83 is immediately interpolated into a string, so the model uses the string directly.
- `RubyStrings.StringToI` reads base 10 only, as `to_i` does with no argument, but does not skip the optional `0d`/`0D` prefix that Ruby's integer parser accepts after the sign (`"0d12".to_i` is 12 in Ruby and 0 here), because that parser is not part of this model; a single underscore between two digits is skipped, as in Ruby.
- `Storage::Postgres` is a delegation target only. What `Storage::Abstract` supplies (charset, database, its own collation) is an input record, `JdbcStorage.Inherited`.
- `environments` on a raw table whose entries are not hashes, and concurrent calls to the memoised methods, are not modelled.
- `lib/sequel_rails/railties/controller_runtime.rb` is not part of this model. It is Rails controller glue around a log subscriber, with float millisecond arithmetic.
- `UrlContract.MysqlCreateUsesSynthesisedUrl` requires that the query string is one line, the host is made of word characters and dots, any port is not negative, and the database has no `?`. Without these, `_root_url` or `_params` slice a different part of the url.
