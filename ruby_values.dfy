/** The Ruby values that appear in a database configuration, with the handful of
    their methods the modelled code calls (to_s, to_i, truthiness). */
module RubyValues {
  import opened Wrappers
  import opened RubyStrings
  import opened RubyHash

  /** The name of a setting: the string a key stringifies to. The names the modelled
      code reads have constructors of their own; Other holds every other name. */
  datatype Name =
    | Adapter | Database | Host | Port | MaxConnections | Pool | SearchPath | Url
    | Other(text: string)

  /** The string a name stands for. */
  function Text(n: Name): string {
    match n
    case Adapter => "adapter"
    case Database => "database"
    case Host => "host"
    case Port => "port"
    case MaxConnections => "max_connections"
    case Pool => "pool"
    case SearchPath => "search_path"
    case Url => "url"
    case Other(s) => s
  }

  /** The name a string stands for. */
  function NameOf(s: string): Name {
    if s == "adapter" then Adapter
    else if s == "database" then Database
    else if s == "host" then Host
    else if s == "port" then Port
    else if s == "max_connections" then MaxConnections
    else if s == "pool" then Pool
    else if s == "search_path" then SearchPath
    else if s == "url" then Url
    else Other(s)
  }

  /** A name in its only form: Other never holds one of the eight names. */
  predicate Canonical(n: Name) {
    n.Other? ==> NameOf(n.text) == n
  }

  /** Names and strings are in one-to-one correspondence: every string has exactly
      one canonical name. */
  lemma NameTextRoundTrip(s: string, n: Name)
    ensures Text(NameOf(s)) == s && Canonical(NameOf(s))
    ensures Canonical(n) ==> NameOf(Text(n)) == n
  {
  }

  /** A hash key: YAML gives string keys, Ruby code often uses symbols. */
  datatype Key = Str(name: Name) | Sym(name: Name)

  /** A configuration value: nil, a boolean, an integer, a string or an array of strings. */
  datatype Value = VNil | VBool(b: bool) | VInt(i: int) | VStr(s: string) | VList(items: seq<string>)

  /** The exceptions the modelled code can raise. */
  datatype Error =
    | NoMethodError(name: string)     // a method called on a value that lacks it
    | TypeError                       // a non-string where a path is needed
    | NotImplementedError

  /** A raw, per-environment settings hash. */
  type RawHash = seq<(Key, Value)>

  /** A normalised settings hash: its keys are the stringified setting names. */
  type Config = seq<(Name, Value)>

  /** Ruby truthiness: everything except nil and false. */
  predicate Truthy(v: Value) {
    v != VNil && v != VBool(false)
  }

  /** Hash#[]: the value under `k`, nil when absent. */
  function Lookup<K(==)>(h: seq<(K, Value)>, k: K): (v: Value)
    ensures !HasKey(h, k) ==> v == VNil
    ensures HasKey(h, k) ==> Find(h, k) == Some(v)
  {
    match Find(h, k)
    case Some(v) => v
    case None => VNil
  }

  /** Object#to_s, as string interpolation and sprintf('%s') use it. Array#to_s is
      Array#inspect; the escaping that inspect applies inside the quotes is not modelled. */
  function ToS(v: Value): string {
    match v
    case VNil => ""
    case VBool(b) => if b then "true" else "false"
    case VInt(i) => IntToString(i)
    case VStr(s) => s
    case VList(xs) => "[" + Join(seq(|xs|, j requires 0 <= j < |xs| => "\"" + xs[j] + "\""), ", ") + "]"
  }

  /** #to_i: Integer#to_i, String#to_i and NilClass#to_i; booleans and arrays have none. */
  function ToI(v: Value): Result<int, Error> {
    match v
    case VInt(i) => Success(i)
    case VStr(s) => Success(StringToI(s))
    case VNil => Success(0)
    case _ => Failure(NoMethodError("to_i"))
  }
}
