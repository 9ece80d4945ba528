/** What the JDBC storage tasks guarantee, stated about JdbcStorage.Dispatch and the
    url slicing functions. */
module JdbcProperties {
  import opened Wrappers
  import opened RubyStrings
  import opened RubyValues
  import opened JdbcStorage

  // ---------------------------------------------------------------------------
  // The engine predicates

  /** No adapter string starts with two of jdbc:mysql, jdbc:postgresql and jdbc:sqlite. */
  lemma EnginesExclusive(a: string)
    ensures !(StartsWith(a, MysqlPrefix) && StartsWith(a, PostgresPrefix))
    ensures !(StartsWith(a, MysqlPrefix) && StartsWith(a, SqlitePrefix))
    ensures !(StartsWith(a, PostgresPrefix) && StartsWith(a, SqlitePrefix))
  {
    if StartsWith(a, MysqlPrefix) {
      assert a[5] == MysqlPrefix[5] == 'm';
    }
    if StartsWith(a, PostgresPrefix) {
      assert a[5] == PostgresPrefix[5] == 'p';
    }
  }

  /** The predicates answer for the adapter string, and raise when it is not one. */
  lemma EnginePredicates(c: Config)
    ensures Lookup(c, Adapter).VStr? ==>
              IsMysql(c) == Success(StartsWith(Lookup(c, Adapter).s, "jdbc:mysql"))
              && IsPostgres(c) == Success(StartsWith(Lookup(c, Adapter).s, "jdbc:postgresql"))
              && IsSqlite(c) == Success(StartsWith(Lookup(c, Adapter).s, "jdbc:sqlite"))
    ensures !Lookup(c, Adapter).VStr? ==>
              IsMysql(c) == IsPostgres(c) == IsSqlite(c) == Failure(NoMethodError("start_with?"))
  {
  }

  /** in_memory? is false unless the adapter is SQLite, and then says whether the
      database is ':memory:'. */
  lemma InMemoryCases(c: Config, inh: Inherited)
    requires Lookup(c, Adapter).VStr?
    ensures !StartsWith(Lookup(c, Adapter).s, SqlitePrefix) ==> InMemory(c, inh) == Success(false)
    ensures StartsWith(Lookup(c, Adapter).s, SqlitePrefix) ==>
              InMemory(c, inh) == Success(inh.database == VStr(":memory:"))
  {
  }

  // ---------------------------------------------------------------------------
  // The tasks

  /** A SQLite database in memory is neither created nor dropped. */
  lemma InMemoryNoOp(c: Config, inh: Inherited)
    requires InMemory(c, inh) == Success(true)
    ensures Dispatch(c, inh, Create) == Success(NoOp)
    ensures Dispatch(c, inh, Drop) == Success(NoOp)
  {
  }

  /** For a SQLite file database, create only connects to the configured url and drop
      removes the database file if it exists; File.exists? raises on a database that
      is not a path. */
  lemma SqliteFileTasks(c: Config, inh: Inherited)
    requires Lookup(c, Adapter).VStr? && StartsWith(Lookup(c, Adapter).s, SqlitePrefix)
    requires inh.database != VStr(":memory:")
    ensures Dispatch(c, inh, Create) == Success(Connect(Lookup(c, Url)))
    ensures Lookup(c, Database).VStr? ==>
              Dispatch(c, inh, Drop) == Success(RemoveFileIfExists(Lookup(c, Database).s))
    ensures !Lookup(c, Database).VStr? ==> Dispatch(c, inh, Drop) == Failure(TypeError)
  {
  }

  /** MySQL create and drop run their exact statements on a connection to the root
      url followed by the query string of the configured url. */
  lemma MysqlTasks(c: Config, inh: Inherited)
    requires Lookup(c, Adapter).VStr? && StartsWith(Lookup(c, Adapter).s, MysqlPrefix)
    ensures Lookup(c, Url).VStr? ==>
              var u := Lookup(c, Url).s;
              var server := OptToS(ScanRootUrl(u, true)) + OptToS(ScanParams(u));
              var db := ToS(Lookup(c, Database));
              Dispatch(c, inh, Create) == Success(ConnectAndExecute(server,
                "CREATE DATABASE IF NOT EXISTS `" + db + "` DEFAULT CHARACTER SET " + inh.charset
                + " DEFAULT COLLATE " + CollationOf(inh.collation)))
              && Dispatch(c, inh, Drop) == Success(ConnectAndExecute(server, "DROP DATABASE IF EXISTS `" + db + "`"))
    ensures !Lookup(c, Url).VStr? ==>
              Dispatch(c, inh, Create) == Dispatch(c, inh, Drop) == Failure(NoMethodError("scan"))
  {
    EnginesExclusive(Lookup(c, Adapter).s);
  }

  /** Every task on a jdbc:postgresql adapter is handed to the Postgres storage. */
  lemma PostgresDelegates(c: Config, inh: Inherited, op: Op)
    requires Lookup(c, Adapter).VStr? && StartsWith(Lookup(c, Adapter).s, PostgresPrefix)
    ensures Dispatch(c, inh, op) == Success(DelegateToPostgres(op))
  {
    EnginesExclusive(Lookup(c, Adapter).s);
  }

  /** Dump and load exist only for Postgres. */
  lemma DumpLoadNotImplemented(c: Config, inh: Inherited, filename: string)
    requires Lookup(c, Adapter).VStr? && !StartsWith(Lookup(c, Adapter).s, PostgresPrefix)
    ensures Dispatch(c, inh, Dump(filename)) == Failure(NotImplementedError)
    ensures Dispatch(c, inh, Load(filename)) == Failure(NotImplementedError)
  {
  }

  /** An adapter of none of the three engines is neither created nor dropped, and
      nothing is raised. */
  lemma UnknownEngineNoOp(c: Config, inh: Inherited)
    requires Lookup(c, Adapter).VStr?
    requires var a := Lookup(c, Adapter).s;
             !StartsWith(a, MysqlPrefix) && !StartsWith(a, PostgresPrefix) && !StartsWith(a, SqlitePrefix)
    ensures Dispatch(c, inh, Create) == Success(NoOp)
    ensures Dispatch(c, inh, Drop) == Success(NoOp)
  {
  }

  /** A missing or non-string adapter has no start_with?: every task raises. */
  lemma NonStringAdapterRaises(c: Config, inh: Inherited, op: Op)
    requires !Lookup(c, Adapter).VStr?
    ensures Dispatch(c, inh, op) == Failure(NoMethodError("start_with?"))
  {
  }

  /** The collation is the inherited one when there is one, else utf8_unicode_ci. */
  lemma CollationCases(s: string)
    ensures CollationOf(Some(s)) == s
    ensures CollationOf(None) == "utf8_unicode_ci"
  {
  }

  // ---------------------------------------------------------------------------
  // Slicing the url

  /** The root match reads back the server part of a url: `jdbc:mysql://`, a host of
      word characters and dots, and an optional `:<digits>` port, up to the `/` that
      follows. */
  lemma RootMatchOfServer(host: string, port: string, tail: string)
    requires forall i :: 0 <= i < |host| ==> IsWordChar(host[i]) || host[i] == '.'
    requires port == "" || (port[0] == ':' && AllDigits(port[1..]))
    requires tail != [] && tail[0] == '/'
    ensures StartsWith(MysqlRootPrefix + host + port + tail, MysqlRootPrefix)
    ensures RootMatch(MysqlRootPrefix + host + port + tail) == MysqlRootPrefix + host + port
  {
    var s := MysqlRootPrefix + host + port + tail;
    assert s == MysqlRootPrefix + (host + port + tail);
    assert s[..|MysqlRootPrefix|] == MysqlRootPrefix;
    assert s[|MysqlRootPrefix|..] == host + port + tail;
    ServerPartOfServer(host, port, tail);
  }

  lemma ServerPartOfServer(host: string, port: string, tail: string)
    requires forall i :: 0 <= i < |host| ==> IsWordChar(host[i]) || host[i] == '.'
    requires port == "" || (port[0] == ':' && AllDigits(port[1..]))
    requires tail != [] && tail[0] == '/'
    ensures ServerPart(host + port + tail) == host + port
  {
    var s := host + port + tail;
    assert s == host + (port + tail);
    WordDotRunOver(host, port + tail);
    var after := s[|host|..];
    assert after == port + tail;
    if port == "" {
      assert after == tail;
    } else {
      assert after[1..] == port[1..] + tail;
      DigitRunOver(port[1..], tail);
    }
  }

  lemma {:induction false} WordDotRunOver(w: string, tail: string)
    requires forall i :: 0 <= i < |w| ==> IsWordChar(w[i]) || w[i] == '.'
    requires tail == [] || !(IsWordChar(tail[0]) || tail[0] == '.')
    ensures WordDotRun(w + tail) == w
    decreases |w|
  {
    if w != [] {
      assert (w + tail)[1..] == w[1..] + tail;
      WordDotRunOver(w[1..], tail);
    } else {
      assert w + tail == tail;
    }
  }

  lemma {:induction false} DigitRunOver(ds: string, tail: string)
    requires AllDigits(ds)
    requires tail == [] || !IsDigit(tail[0])
    ensures DigitRun(ds + tail) == ds
    decreases |ds|
  {
    if ds != [] {
      assert (ds + tail)[1..] == ds[1..] + tail;
      assert AllDigits(ds[1..]);
      DigitRunOver(ds[1..], tail);
    } else {
      assert ds + tail == tail;
    }
  }

  /** On a single line, `_root_url` matches exactly when the url starts with
      `jdbc:mysql://`, and is then a prefix of the url. */
  lemma SingleLineRootUrl(u: string)
    requires '\n' !in u
    ensures ScanRootUrl(u, true).Some? <==> StartsWith(u, MysqlRootPrefix)
    ensures ScanRootUrl(u, true).Some? ==>
              var r := ScanRootUrl(u, true).value; |r| <= |u| && r == u[..|r|] && StartsWith(r, MysqlRootPrefix)
  {
    if !StartsWith(u, MysqlRootPrefix) && u != [] {
      NoLineStartNoRoot(u[1..]);
    }
  }

  /** Past the first line start, a single-line text has no root match. */
  lemma {:induction false} NoLineStartNoRoot(u: string)
    requires '\n' !in u
    ensures ScanRootUrl(u, false).None?
    decreases |u|
  {
    if u != [] {
      assert u[0] != '\n';
      NoLineStartNoRoot(u[1..]);
    }
  }

  /** A root match anywhere is the match at some line start of the url. */
  lemma {:induction false} RootUrlAtLineStart(u: string, atLineStart: bool)
    requires ScanRootUrl(u, atLineStart).Some?
    ensures exists i :: 0 <= i <= |u| && (if i == 0 then atLineStart else u[i - 1] == '\n')
              && StartsWith(u[i..], MysqlRootPrefix) && ScanRootUrl(u, atLineStart) == Some(RootMatch(u[i..]))
    decreases |u|
  {
    if atLineStart && StartsWith(u, MysqlRootPrefix) {
      assert u[0..] == u;
    } else {
      RootUrlAtLineStart(u[1..], u[0] == '\n');
      var j :| 0 <= j <= |u[1..]| && (if j == 0 then u[0] == '\n' else u[1..][j - 1] == '\n')
               && StartsWith(u[1..][j..], MysqlRootPrefix) && ScanRootUrl(u[1..], u[0] == '\n') == Some(RootMatch(u[1..][j..]));
      assert u[1..][j..] == u[j + 1..];
    }
  }

  /** `_params` is the first `?` of the url and the rest of its line; nil when the url
      has no `?`. On a single line it is the suffix from the first `?`. */
  lemma ParamsShape(u: string)
    ensures ScanParams(u).None? <==> '?' !in u
    ensures ScanParams(u).Some? ==>
              var p := ScanParams(u).value;
              exists i :: 0 <= i && i + |p| <= |u| && '?' !in u[..i] && p == u[i..i + |p|]
                && p[0] == '?' && '\n' !in p && (i + |p| == |u| || u[i + |p|] == '\n')
    ensures ScanParams(u).Some? && '\n' !in u ==>
              var p := ScanParams(u).value; |p| <= |u| && p == u[|u| - |p|..]
  {
    match FirstIndexOf(u, '?')
    case None =>
    case Some(i) =>
      var p := UpToNewline(u[i..]);
      assert u[i..][..|p|] == u[i..i + |p|];
      if '\n' !in u {
        assert '\n' !in u[i..];
        assert p == u[i..];
        assert u[|u| - |p|..] == u[i..];
      }
  }
}
