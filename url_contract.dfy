/** The url the normaliser synthesises for a MySQL environment under JRuby is the one
    the JDBC storage slices: its root url is the server part and its `_params` the
    query string, so create and drop connect to the server without the database. */
module UrlContract {
  import opened Wrappers
  import opened RubyStrings
  import opened RubyHash
  import opened RubyValues
  import opened SequelConfig
  import opened ConfigProperties
  import opened JdbcStorage
  import opened JdbcProperties

  /** A text without newlines is its own first line. */
  lemma UpToNewlineWhole(s: string)
    requires '\n' !in s
    ensures UpToNewline(s) == s
  {
  }

  /** The first `?` of a text is the first `?` after a part without one. */
  lemma FirstIndexAfter(a: string, b: string)
    requires '?' !in a
    ensures FirstIndexOf(a + "?" + b, '?') == Some(|a|)
  {
    var s := a + "?" + b;
    assert s[|a|] == '?';
  }

  /** `_params` of a server url is `?` followed by its query string, when nothing before
      the query holds a `?` and the query is one line. */
  lemma ServerUrlParams(adapter: string, host: string, port: string, database: string, query: string)
    requires '?' !in adapter + "://" + host + port + "/" + database
    requires '\n' !in query
    ensures ScanParams(ServerUrl(adapter, host, port, database, query)) == Some("?" + query)
  {
    var a := adapter + "://" + host + port + "/" + database;
    assert ServerUrl(adapter, host, port, database, query) == a + "?" + query;
    FirstIndexAfter(a, query);
    assert (a + "?" + query)[|a|..] == "?" + query;
    UpToNewlineWhole("?" + query);
  }

  /** `_root_url` of a jdbc:mysql server url is its scheme, host and port. */
  lemma ServerUrlRoot(host: string, port: string, database: string, query: string)
    requires forall i :: 0 <= i < |host| ==> IsWordChar(host[i]) || host[i] == '.'
    requires port == "" || (port[0] == ':' && AllDigits(port[1..]))
    ensures ScanRootUrl(ServerUrl("jdbc:mysql", host, port, database, query), true)
         == Some(MysqlRootPrefix + host + port)
  {
    var tail := "/" + database + "?" + query;
    assert ServerUrl("jdbc:mysql", host, port, database, query) == MysqlRootPrefix + host + port + tail;
    RootMatchOfServer(host, port, tail);
  }

  /** The port segment of an integer port that is not negative is `:` and digits. */
  lemma PortSegmentDigits(c: Config)
    requires !HasKey(c, Port) || (Lookup(c, Port).VInt? && Lookup(c, Port).i >= 0)
    ensures PortSegment(c) == "" || (PortSegment(c)[0] == ':' && AllDigits(PortSegment(c)[1..]))
  {
    if HasKey(c, Port) {
      assert PortSegment(c)[1..] == NatToString(Lookup(c, Port).i);
    }
  }

  /** Nothing in the url before its query string is a `?`. */
  lemma NoQuestionMarkBeforeQuery(host: string, port: string, db: string)
    requires forall i :: 0 <= i < |host| ==> IsWordChar(host[i]) || host[i] == '.'
    requires port == "" || (port[0] == ':' && AllDigits(port[1..]))
    requires '?' !in db
    ensures '?' !in "jdbc:mysql" + "://" + host + port + "/" + db
  {
    assert forall i :: 0 <= i < |host| ==> host[i] != '?';
    if port != "" {
      assert port == [':'] + port[1..];
      assert forall i :: 0 <= i < |port[1..]| ==> port[1..][i] != '?';
    }
  }

  /** A jdbc:mysql configuration whose url is a server url: the storage slices it into
      the server root and the query string, and creating or dropping the database
      connects to the two joined. */
  lemma MysqlServerUrlSlices(c: Config, inh: Inherited, host: string, port: string, db: string, query: string)
    requires Lookup(c, Adapter) == VStr("jdbc:mysql")
    requires Lookup(c, Url) == VStr(ServerUrl("jdbc:mysql", host, port, db, query))
    requires forall i :: 0 <= i < |host| ==> IsWordChar(host[i]) || host[i] == '.'
    requires port == "" || (port[0] == ':' && AllDigits(port[1..]))
    requires '?' !in db && '\n' !in query
    ensures RootUrl(c) == Success(Some(MysqlRootPrefix + host + port))
    ensures Params(c) == Success(Some("?" + query))
    ensures ServerConnectUrl(c) == Success((MysqlRootPrefix + host + port) + ("?" + query))
  {
    ServerUrlRoot(host, port, db, query);
    NoQuestionMarkBeforeQuery(host, port, db);
    ServerUrlParams("jdbc:mysql", host, port, db, query);
  }

  /** The url a normalised configuration ends with, read from the entry appended last. */
  lemma AppendedServerUrl(c: Config)
    requires |c| > 0 && c[|c| - 1].0 == Url && Lookup(c, Url) == c[|c| - 1].1
    requires forall s :: s != Url ==> Find(c[..|c| - 1], s) == Find(c, s)
    requires UrlParams(c[..|c| - 1]).Success?
    requires c[|c| - 1].1 == VStr(SynthesisedUrl("jdbc:mysql", c[..|c| - 1], QueryString(UrlParams(c[..|c| - 1]).value)))
    ensures Lookup(c, Url) == VStr(ServerUrl("jdbc:mysql", ToS(Lookup(c, Host)), PortSegment(c),
              ToS(Lookup(c, Database)), QueryString(UrlParams(c[..|c| - 1]).value)))
  {
    var pre := c[..|c| - 1];
    MysqlSynthesisedUrl(pre, QueryString(UrlParams(pre).value));
    SameServerFields(pre, c);
  }

  /** An adapter without `sqlite` in it gets a server url. */
  lemma MysqlSynthesisedUrl(c: Config, query: string)
    ensures SynthesisedUrl("jdbc:mysql", c, query)
         == ServerUrl("jdbc:mysql", ToS(Lookup(c, Host)), PortSegment(c), ToS(Lookup(c, Database)), query)
  {
    MysqlIsNotSqlite();
  }

  /** Two hashes that agree on every key but url give the same server url fields. */
  lemma SameServerFields(a: Config, b: Config)
    requires forall s :: s != Url ==> Find(a, s) == Find(b, s)
    ensures Lookup(a, Host) == Lookup(b, Host)
    ensures PortSegment(a) == PortSegment(b)
    ensures Lookup(a, Database) == Lookup(b, Database)
  {
    assert Find(a, Host) == Find(b, Host);
    assert Find(a, Port) == Find(b, Port);
    assert Find(a, Database) == Find(b, Database);
  }

  lemma MysqlIsNotSqlite()
    ensures !Contains("jdbc:mysql", "sqlite")
  {
    MissingCharNotContained("jdbc:mysql", "sqlite", 't');
  }

  /** A jdbc:mysql server url is its server root, `/`, the database and `?` with the
      query string. */
  lemma MysqlServerUrlParts(host: string, port: string, db: string, query: string)
    ensures ServerUrl("jdbc:mysql", host, port, db, query) == (MysqlRootPrefix + host + port) + "/" + db + ("?" + query)
  {
    assert "jdbc:mysql" + "://" == MysqlRootPrefix;
  }

  /** Under JRuby a raw `mysql` adapter becomes jdbc:mysql. */
  lemma MysqlAdapterUnderJruby(h: RawHash, root: string, maxConnections: Value, searchPath: Value, c: Config)
    requires Normalize(h, root, true, maxConnections, searchPath) == Success(c)
    requires LastNamed(h, Adapter).Some? && RawValue(h, Adapter) == VStr("mysql")
    ensures Lookup(c, Adapter) == VStr("jdbc:mysql")
  {
    NormalizedAdapter(h, root, true, maxConnections, searchPath, c);
    JdbcAdapterExamples();
  }

  /** The url the normaliser synthesises for a raw `mysql` environment under JRuby. */
  lemma SynthesisedMysqlUrl(h: RawHash, root: string, maxConnections: Value, searchPath: Value, c: Config)
    requires Normalize(h, root, true, maxConnections, searchPath) == Success(c)
    requires LastNamed(h, Adapter).Some? && RawValue(h, Adapter) == VStr("mysql")
    requires LastNamed(h, Url).None?
    ensures Lookup(c, Adapter) == VStr("jdbc:mysql")
    ensures HasKey(c, Port) ==> Lookup(c, Port).VInt?
    ensures |c| > 0 && UrlParams(c[..|c| - 1]).Success?
    ensures Lookup(c, Url) == VStr(ServerUrl("jdbc:mysql", ToS(Lookup(c, Host)), PortSegment(c),
              ToS(Lookup(c, Database)), QueryString(UrlParams(c[..|c| - 1]).value)))
  {
    MysqlAdapterUnderJruby(h, root, maxConnections, searchPath, c);
    assert IsBridgeAdapter("jdbc:mysql");
    NormalizedUrl(h, root, true, maxConnections, searchPath, c);
    NormalizedPort(h, root, true, maxConnections, searchPath, c);
    AppendedServerUrl(c);
  }

  /** Under JRuby a raw `mysql` environment without a url gets a url that the JDBC
      storage slices back into its server root and its query string: creating its
      database connects to the root followed by the query string, without the
      `/<database>` segment. The url's query string is required to be one line. */
  lemma MysqlCreateUsesSynthesisedUrl(h: RawHash, root: string, maxConnections: Value, searchPath: Value,
                                      c: Config, inh: Inherited)
    requires Normalize(h, root, true, maxConnections, searchPath) == Success(c)
    requires LastNamed(h, Adapter).Some? && RawValue(h, Adapter) == VStr("mysql")
    requires LastNamed(h, Url).None?
    requires var host := ToS(Lookup(c, Host));
             forall i :: 0 <= i < |host| ==> IsWordChar(host[i]) || host[i] == '.'
    requires forall n :: Lookup(c, Port) == VInt(n) ==> n >= 0
    requires '?' !in ToS(Lookup(c, Database))
    requires |c| > 0 && UrlParams(c[..|c| - 1]).Success? && '\n' !in QueryString(UrlParams(c[..|c| - 1]).value)
    ensures var serverRoot := MysqlRootPrefix + ToS(Lookup(c, Host)) + PortSegment(c);
            var params := "?" + QueryString(UrlParams(c[..|c| - 1]).value);
            Lookup(c, Url) == VStr(serverRoot + "/" + ToS(Lookup(c, Database)) + params)
            && RootUrl(c) == Success(Some(serverRoot))
            && Params(c) == Success(Some(params))
            && Dispatch(c, inh, Create) == Success(ConnectAndExecute(serverRoot + params,
                 CreateSql(ToS(Lookup(c, Database)), inh.charset, CollationOf(inh.collation))))
  {
    SynthesisedMysqlUrl(h, root, maxConnections, searchPath, c);
    MysqlCreateOnUrl(c, inh);
  }

  /** MysqlCreateUsesSynthesisedUrl, for any hash holding such a url. */
  lemma MysqlCreateOnUrl(c: Config, inh: Inherited)
    requires Lookup(c, Adapter) == VStr("jdbc:mysql")
    requires HasKey(c, Port) ==> Lookup(c, Port).VInt?
    requires |c| > 0 && UrlParams(c[..|c| - 1]).Success?
    requires Lookup(c, Url) == VStr(ServerUrl("jdbc:mysql", ToS(Lookup(c, Host)), PortSegment(c),
               ToS(Lookup(c, Database)), QueryString(UrlParams(c[..|c| - 1]).value)))
    requires var host := ToS(Lookup(c, Host));
             forall i :: 0 <= i < |host| ==> IsWordChar(host[i]) || host[i] == '.'
    requires forall n :: Lookup(c, Port) == VInt(n) ==> n >= 0
    requires '?' !in ToS(Lookup(c, Database))
    requires '\n' !in QueryString(UrlParams(c[..|c| - 1]).value)
    ensures var serverRoot := MysqlRootPrefix + ToS(Lookup(c, Host)) + PortSegment(c);
            var params := "?" + QueryString(UrlParams(c[..|c| - 1]).value);
            Lookup(c, Url) == VStr(serverRoot + "/" + ToS(Lookup(c, Database)) + params)
            && RootUrl(c) == Success(Some(serverRoot))
            && Params(c) == Success(Some(params))
            && Dispatch(c, inh, Create) == Success(ConnectAndExecute(serverRoot + params,
                 CreateSql(ToS(Lookup(c, Database)), inh.charset, CollationOf(inh.collation))))
  {
    var host := ToS(Lookup(c, Host));
    var port := PortSegment(c);
    var db := ToS(Lookup(c, Database));
    var query := QueryString(UrlParams(c[..|c| - 1]).value);
    PortSegmentDigits(c);
    MysqlServerUrlSlices(c, inh, host, port, db, query);
    MysqlServerUrlParts(host, port, db, query);
    MysqlTasks(c, inh);
  }
}
