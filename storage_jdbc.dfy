/** storage/jdbc.rb: the database administration tasks (create, drop, dump, load) for
    a normalised environment whose adapter is a JDBC one. Each task is modelled as the
    action it would issue; the connection, the SQL execution and the file system are
    not modelled. What the parent class Storage::Abstract supplies (the charset, the
    `database` and its own collation) are inputs. */
module JdbcStorage {
  import opened Wrappers
  import opened RubyStrings
  import opened RubyHash
  import opened RubyValues

  /** The administration tasks. */
  datatype Op = Create | Drop | Dump(filename: string) | Load(filename: string)

  /** What a task does. */
  datatype Action =
    | NoOp                                      // returns without touching anything
    | Connect(url: Value)                       // Sequel.connect(url)
    | ConnectAndExecute(serverUrl: string, sql: string) // Sequel.connect(serverUrl) { |db| db.execute(sql) }
    | RemoveFileIfExists(path: string)          // FileUtils.rm path if File.exists? path
    | DelegateToPostgres(op: Op)                // Storage::Postgres.new(config).<op>

  /** What the parent class provides. */
  datatype Inherited = Inherited(charset: string, database: Value, collation: Option<string>)

  const MysqlPrefix: string := "jdbc:mysql"
  const PostgresPrefix: string := "jdbc:postgresql"
  const SqlitePrefix: string := "jdbc:sqlite"
  const MysqlRootPrefix: string := "jdbc:mysql://"
  const DefaultCollation: string := "utf8_unicode_ci"

  // ---------------------------------------------------------------------------
  // The engine predicates (lines 4-14)

  /** `config['adapter']`, on which `start_with?` must be callable. */
  function AdapterText(c: Config): Result<string, Error> {
    match Lookup(c, Adapter)
    case VStr(a) => Success(a)
    case _ => Failure(NoMethodError("start_with?"))
  }

  function IsMysql(c: Config): (r: Result<bool, Error>)
    ensures r.Success? <==> Lookup(c, Adapter).VStr?
    ensures r.Success? ==> (r.value <==> StartsWith(Lookup(c, Adapter).s, MysqlPrefix))
  {
    var a :- AdapterText(c);
    Success(StartsWith(a, MysqlPrefix))
  }

  function IsPostgres(c: Config): (r: Result<bool, Error>)
    ensures r.Success? <==> Lookup(c, Adapter).VStr?
    ensures r.Success? ==> (r.value <==> StartsWith(Lookup(c, Adapter).s, PostgresPrefix))
  {
    var a :- AdapterText(c);
    Success(StartsWith(a, PostgresPrefix))
  }

  function IsSqlite(c: Config): (r: Result<bool, Error>)
    ensures r.Success? <==> Lookup(c, Adapter).VStr?
    ensures r.Success? ==> (r.value <==> StartsWith(Lookup(c, Adapter).s, SqlitePrefix))
  {
    var a :- AdapterText(c);
    Success(StartsWith(a, SqlitePrefix))
  }

  // ---------------------------------------------------------------------------
  // Slicing the url (lines 16-26)

  /** The longest prefix of `s` made of word characters and dots: `[\w\.]*`. */
  function WordDotRun(s: string): (r: string)
    ensures |r| <= |s| && r == s[..|r|]
    ensures forall i :: 0 <= i < |r| ==> IsWordChar(r[i]) || r[i] == '.'
    ensures |r| == |s| || !(IsWordChar(s[|r|]) || s[|r|] == '.')
    decreases |s|
  {
    if s != [] && (IsWordChar(s[0]) || s[0] == '.') then [s[0]] + WordDotRun(s[1..]) else ""
  }

  /** The longest prefix of `s` made of digits: `\d*`. */
  function DigitRun(s: string): (r: string)
    ensures |r| <= |s| && r == s[..|r|]
    ensures AllDigits(r)
    ensures |r| == |s| || !IsDigit(s[|r|])
    decreases |s|
  {
    if s != [] && IsDigit(s[0]) then [s[0]] + DigitRun(s[1..]) else ""
  }

  /** The match of `[\w\.]*:?\d*` at the start of `s`: greedy, so the longest run of
      word characters and dots, a `:` if one follows, and the digits after it. */
  function ServerPart(s: string): (r: string)
    ensures |r| <= |s| && r == s[..|r|]
  {
    var host := WordDotRun(s);
    var after := s[|host|..];
    var colon := if after != [] && after[0] == ':' then ":" else "";
    var port := DigitRun(after[|colon|..]);
    assert after[..|colon| + |port|] == colon + port;
    host + colon + port
  }

  /** The match of `jdbc:mysql://[\w\.]*:?\d*` at the start of `s`. */
  function RootMatch(s: string): (r: string)
    requires StartsWith(s, MysqlRootPrefix)
    ensures |r| <= |s| && r == s[..|r|]
  {
    var part := ServerPart(s[|MysqlRootPrefix|..]);
    assert s[..|MysqlRootPrefix| + |part|] == s[..|MysqlRootPrefix|] + s[|MysqlRootPrefix|..][..|part|];
    MysqlRootPrefix + part
  }

  /** The first match of `^jdbc:mysql://[\w\.]*:?\d*` in `s`, where `^` holds at the
      start and after every newline; `atLineStart` says whether it holds before `s`. */
  function ScanRootUrl(s: string, atLineStart: bool): (r: Option<string>)
    ensures r.Some? <==> OccursAtLineStart(s, MysqlRootPrefix, atLineStart)
    ensures r.Some? ==> StartsWith(r.value, MysqlRootPrefix)
    decreases |s|
  {
    if atLineStart && StartsWith(s, MysqlRootPrefix) then Some(RootMatch(s))
    else if s == [] then None
    else ScanRootUrl(s[1..], s[0] == '\n')
  }

  /** `_root_url`; nil has no `scan`. */
  function RootUrl(c: Config): (r: Result<Option<string>, Error>)
    ensures r.Success? <==> Lookup(c, Url).VStr?
    ensures r.Success? ==> (r.value.Some? <==> OccursAtLineStart(Lookup(c, Url).s, MysqlRootPrefix, true))
  {
    match Lookup(c, Url)
    case VStr(u) => Success(ScanRootUrl(u, true))
    case _ => Failure(NoMethodError("scan"))
  }

  /** The position of the first `x` in `s`. */
  function FirstIndexOf(s: string, x: char): (r: Option<nat>)
    ensures r.None? <==> x !in s
    ensures r.Some? ==> r.value < |s| && s[r.value] == x && x !in s[..r.value]
    decreases |s|
  {
    if s == [] then None
    else if s[0] == x then Some(0)
    else
      match FirstIndexOf(s[1..], x)
      case None => None
      case Some(i) => assert s[1..][..i] == s[1..i + 1]; Some(i + 1)
  }

  /** The longest prefix of `s` without a newline: what `.*$` covers. */
  function UpToNewline(s: string): (r: string)
    ensures |r| <= |s| && r == s[..|r|]
    ensures '\n' !in r
    ensures |r| == |s| || s[|r|] == '\n'
    decreases |s|
  {
    if s == [] || s[0] == '\n' then "" else [s[0]] + UpToNewline(s[1..])
  }

  /** The first match of `\?.*$` in `s`. */
  function ScanParams(s: string): (r: Option<string>)
    ensures r.None? <==> '?' !in s
    ensures r.Some? ==> r.value != [] && r.value[0] == '?' && '\n' !in r.value
  {
    match FirstIndexOf(s, '?')
    case None => None
    case Some(i) => Some(UpToNewline(s[i..]))
  }

  /** `_params`; nil has no `scan`. */
  function Params(c: Config): (r: Result<Option<string>, Error>)
    ensures r.Success? <==> Lookup(c, Url).VStr?
    ensures r.Success? ==> (r.value.None? <==> '?' !in Lookup(c, Url).s)
  {
    match Lookup(c, Url)
    case VStr(u) => Success(ScanParams(u))
    case _ => Failure(NoMethodError("scan"))
  }

  /** String interpolation of a match that may be nil. */
  function OptToS(m: Option<string>): string {
    match m
    case None => ""
    case Some(s) => s
  }

  /** The server url a MySQL database is created or dropped on: `"#{_root_url}#{_params}"`. */
  function ServerConnectUrl(c: Config): Result<string, Error> {
    var root :- RootUrl(c);
    var params :- Params(c);
    Success(OptToS(root) + OptToS(params))
  }

  // ---------------------------------------------------------------------------
  // collation, in_memory? and the SQL (lines 20-22, 34, 48, 76-83)

  /** `super || 'utf8_unicode_ci'`. */
  function CollationOf(inherited: Option<string>): string {
    match inherited
    case Some(s) => s
    case None => DefaultCollation
  }

  /** `db_name`: `config['database']`, as it reads inside a string. */
  function DbName(c: Config): string {
    ToS(Lookup(c, Database))
  }

  function CreateSql(dbName: string, charset: string, collation: string): string {
    "CREATE DATABASE IF NOT EXISTS `" + dbName + "` DEFAULT CHARACTER SET " + charset + " DEFAULT COLLATE " + collation
  }

  function DropSql(dbName: string): string {
    "DROP DATABASE IF EXISTS `" + dbName + "`"
  }

  /** `in_memory?`: a SQLite configuration whose database is ':memory:'. */
  function InMemory(c: Config, inh: Inherited): (r: Result<bool, Error>)
    ensures r.Success? <==> Lookup(c, Adapter).VStr?
    ensures r == Success(true) <==> IsSqlite(c) == Success(true) && inh.database == VStr(":memory:")
  {
    var sqlite :- IsSqlite(c);
    Success(sqlite && inh.database == VStr(":memory:"))
  }

  // ---------------------------------------------------------------------------
  // The tasks (lines 28-72)

  function CreateAction(c: Config, inh: Inherited): Result<Action, Error> {
    var sqlite :- IsSqlite(c);
    if sqlite then
      var memory :- InMemory(c, inh);
      if memory then Success(NoOp) else Success(Connect(Lookup(c, Url)))
    else
      var mysql :- IsMysql(c);
      if mysql then
        var url :- ServerConnectUrl(c);
        Success(ConnectAndExecute(url, CreateSql(DbName(c), inh.charset, CollationOf(inh.collation))))
      else
        var postgres :- IsPostgres(c);
        if postgres then Success(DelegateToPostgres(Create)) else Success(NoOp)
  }

  function DropAction(c: Config, inh: Inherited): Result<Action, Error> {
    var sqlite :- IsSqlite(c);
    if sqlite then
      var memory :- InMemory(c, inh);
      if memory then Success(NoOp)
      else
        match Lookup(c, Database)
        // File.exists? raises TypeError on anything but a path
        case VStr(path) => Success(RemoveFileIfExists(path))
        case _ => Failure(TypeError)
    else
      var mysql :- IsMysql(c);
      if mysql then
        var url :- ServerConnectUrl(c);
        Success(ConnectAndExecute(url, DropSql(DbName(c))))
      else
        var postgres :- IsPostgres(c);
        if postgres then Success(DelegateToPostgres(Drop)) else Success(NoOp)
  }

  /** `_dump` and `_load`: only the Postgres adapter implements them. */
  function PostgresOnly(c: Config, op: Op): (r: Result<Action, Error>)
    ensures r.Success? <==> IsPostgres(c) == Success(true)
    ensures r.Success? ==> r.value == DelegateToPostgres(op)
    ensures r == Failure(NotImplementedError) <==> IsPostgres(c) == Success(false)
  {
    var postgres :- IsPostgres(c);
    if postgres then Success(DelegateToPostgres(op)) else Failure(NotImplementedError)
  }

  /** A file is removed only by drop, a url is connected to as it stands only by
      create, and a task is delegated only to Postgres and as itself. */
  function Dispatch(c: Config, inh: Inherited, op: Op): (r: Result<Action, Error>)
    ensures r.Success? && r.value.RemoveFileIfExists? ==> op == Drop && IsSqlite(c) == Success(true)
    ensures r.Success? && r.value.Connect? ==> op == Create && IsSqlite(c) == Success(true)
    ensures r.Success? && r.value.ConnectAndExecute? ==> (op == Create || op == Drop) && IsMysql(c) == Success(true)
    ensures r.Success? && r.value.DelegateToPostgres? ==> r.value.op == op && IsPostgres(c) == Success(true)
  {
    match op
    case Create => CreateAction(c, inh)
    case Drop => DropAction(c, inh)
    case Dump(_) => PostgresOnly(c, op)
    case Load(_) => PostgresOnly(c, op)
  }

  /** A Storage::Jdbc object: its normalised configuration, what the parent class
      supplies, and the memo @collation of line 77. */
  class Jdbc {
    const config: Config
    const inherited: Inherited
    var collationMemo: Option<string>

    /** The memo is unset or holds the collation it memoises. */
    predicate Valid()
      reads this
    {
      collationMemo.None? || collationMemo == Some(CollationOf(inherited.collation))
    }

    constructor (c: Config, inh: Inherited)
      ensures config == c && inherited == inh && collationMemo == None
      ensures Valid()
    {
      config := c;
      inherited := inh;
      collationMemo := None;
    }

    /** `collation`: `@collation ||= super || 'utf8_unicode_ci'`. */
    method Collation() returns (r: string)
      requires Valid()
      modifies this`collationMemo
      ensures r == CollationOf(inherited.collation)
      ensures collationMemo == Some(r)
      ensures Valid()
    {
      if collationMemo.None? {
        collationMemo := Some(CollationOf(inherited.collation));
      }
      r := collationMemo.value;
    }

    /** `_create`; the collation is read, and memoised, only on the MySQL path. */
    method CreateDatabase() returns (r: Result<Action, Error>)
      requires Valid()
      modifies this`collationMemo
      ensures r == Dispatch(config, inherited, Create)
      ensures Valid()
      ensures collationMemo ==
                if IsSqlite(config) == Success(false) && IsMysql(config) == Success(true) && ServerConnectUrl(config).Success?
                then Some(CollationOf(inherited.collation)) else old(collationMemo)
    {
      var sqlite :- IsSqlite(config);
      if sqlite {
        var memory := InMemory(config, inherited).value;
        if memory {
          return Success(NoOp);
        }
        return Success(Connect(Lookup(config, Url)));
      }
      var mysql := IsMysql(config).value;
      if mysql {
        var url :- ServerConnectUrl(config);
        var collation := Collation();
        return Success(ConnectAndExecute(url, CreateSql(DbName(config), inherited.charset, collation)));
      }
      var postgres := IsPostgres(config).value;
      if postgres {
        return Success(DelegateToPostgres(Create));
      }
      return Success(NoOp);
    }
  }
}
