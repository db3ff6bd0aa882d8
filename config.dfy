/** The validated configuration: a database block (a union tagged by its
    `type`), an API-keys block and an optimisation block. Each field validator
    either hands its input back unchanged or records an error; as in the
    validation library the source relies on, every failing field is reported,
    in field order, and a field left out of the input takes its default
    without being validated. */
module Config {
  import opened Wrappers
  import opened Values

  datatype DatabaseType = Supabase | MongoDB | PostgreSQL

  /** The literal a configuration file uses for each database type. */
  function TypeName(t: DatabaseType): string
  {
    match t
    case Supabase => "supabase"
    case MongoDB => "mongodb"
    case PostgreSQL => "postgresql"
  }

  function ParseDatabaseType(s: string): (r: Option<DatabaseType>)
    ensures r.Some? <==> s in {"supabase", "mongodb", "postgresql"}
    ensures r.Some? ==> TypeName(r.value) == s
  {
    if s == "supabase" then Some(Supabase)
    else if s == "mongodb" then Some(MongoDB)
    else if s == "postgresql" then Some(PostgreSQL)
    else None
  }

  /** A field of the input document: left out, or given (possibly as null). */
  datatype Supplied<T> = Omitted | Given(value: T)

  /** Why a field was rejected. */
  datatype Issue =
    | Missing                          // a required field is absent
    | NotAString                       // null where a string is required
    | NotAnInteger                     // null where an integer is required
    | NotAnObject                      // null where a nested block is required
    | NotALiteral                      // `type` is not one of the three names
    | RequiredForType(t: DatabaseType) // a field the chosen type needs is null or ""
    | EmptyKey                         // an API key that is empty or all white space
    | TooSmall(min: int)               // below the lower bound
    | TooLarge(max: int)               // above the upper bound

  datatype FieldError = FieldError(loc: seq<string>, issue: Issue)

  /** True when the field was given, and given as null or as the empty string:
      what the per-type validators refuse. */
  predicate GivenFalsy(f: Supplied<Option<string>>)
  {
    f.Given? && (f.value.None? || f.value.value == "")
  }

  function Resolve<T>(f: Supplied<T>, default: T): T
  {
    match f
    case Omitted => default
    case Given(v) => v
  }

  function ErrorsOf<T>(name: string, r: Result<T, Issue>): seq<FieldError>
  {
    if r.Failure? then [FieldError([name], r.error)] else []
  }

  // ---------------------------------------------------------------- database

  datatype RawDatabase = RawDatabase(
    dbType: Supplied<Option<string>>,
    url: Supplied<Option<string>>,
    key: Supplied<Option<string>>,
    table: Supplied<Option<string>>,
    textColumn: Supplied<Option<string>>,
    idColumn: Supplied<Option<string>>,
    connectionString: Supplied<Option<string>>,
    database: Supplied<Option<string>>,
    collection: Supplied<Option<string>>,
    host: Supplied<Option<string>>,
    port: Supplied<Option<int>>,
    user: Supplied<Option<string>>,
    password: Supplied<Option<string>>)

  datatype DatabaseConfig = DatabaseConfig(
    dbType: DatabaseType,
    url: Option<string>,
    key: Option<string>,
    table: Option<string>,
    textColumn: Option<string>,
    idColumn: Option<string>,
    connectionString: Option<string>,
    database: Option<string>,
    collection: Option<string>,
    host: Option<string>,
    port: Option<int>,
    user: Option<string>,
    password: Option<string>)

  /** `text_column` and `id_column` are declared three times; the last
      declarations decide their defaults. */
  const DefaultTextColumn: string := "content"
  const DefaultIdColumn: string := "id"

  /** The `type` field: required, and one of the three literals. */
  function CheckType(f: Supplied<Option<string>>): (r: Result<DatabaseType, Issue>)
    ensures f.Omitted? ==> r == Failure(Missing)
    ensures r.Success? <==> f.Given? && f.value.Some? && f.value.value in {"supabase", "mongodb", "postgresql"}
    ensures r.Success? ==> f == Given(Some(TypeName(r.value)))
  {
    match f
    case Omitted => Failure(Missing)
    case Given(None) => Failure(NotALiteral)
    case Given(Some(s)) =>
      match ParseDatabaseType(s)
      case Some(t) => Success(t)
      case None => Failure(NotALiteral)
  }

  /** One of the per-type validators (`url`, `key`, `connection_string`,
      `host`): it fires only when the already validated type is `needed`, and
      then refuses a null or empty value. A field left out is not validated. */
  function RequiredFor(f: Supplied<Option<string>>, known: Option<DatabaseType>, needed: DatabaseType)
    : (r: Result<Option<string>, Issue>)
    ensures r.Failure? <==> known == Some(needed) && GivenFalsy(f)
    ensures r.Failure? ==> r.error == RequiredForType(needed)
    ensures r.Success? ==> r.value == (if f.Given? then f.value else None)
  {
    match f
    case Omitted => Success(None)
    case Given(v) =>
      if known == Some(needed) && !Truthy(if v.Some? then Str(v.value) else Null)
      then Failure(RequiredForType(needed))
      else Success(v)
  }

  /** What the database block demands of its input, stated field by field. */
  predicate DatabaseAcceptable(raw: RawDatabase)
  {
    && raw.dbType.Given? && raw.dbType.value.Some?
    && raw.dbType.value.value in {"supabase", "mongodb", "postgresql"}
    && (raw.dbType.value.value == "supabase" ==> !GivenFalsy(raw.url) && !GivenFalsy(raw.key))
    && (raw.dbType.value.value == "mongodb" ==> !GivenFalsy(raw.connectionString))
    && (raw.dbType.value.value == "postgresql" ==> !GivenFalsy(raw.host))
  }

  function ValidateDatabase(raw: RawDatabase): (r: Result<DatabaseConfig, seq<FieldError>>)
    ensures r.Success? <==> DatabaseAcceptable(raw)
    ensures r.Success? ==>
      && TypeName(r.value.dbType) == raw.dbType.value.value
      && r.value.url == Resolve(raw.url, None)
      && r.value.key == Resolve(raw.key, None)
      && r.value.table == Resolve(raw.table, None)
      && r.value.textColumn == Resolve(raw.textColumn, Some(DefaultTextColumn))
      && r.value.idColumn == Resolve(raw.idColumn, Some(DefaultIdColumn))
      && r.value.connectionString == Resolve(raw.connectionString, None)
      && r.value.database == Resolve(raw.database, None)
      && r.value.collection == Resolve(raw.collection, None)
      && r.value.host == Resolve(raw.host, None)
      && r.value.port == Resolve(raw.port, None)
      && r.value.user == Resolve(raw.user, None)
      && r.value.password == Resolve(raw.password, None)
    ensures r.Failure? ==> r.error != []
    ensures r.Failure? ==>
      (FieldError(["type"], Missing) in r.error <==> raw.dbType.Omitted?)
    ensures r.Failure? ==>
      (FieldError(["url"], RequiredForType(Supabase)) in r.error <==>
        raw.dbType == Given(Some("supabase")) && GivenFalsy(raw.url))
    ensures r.Failure? ==>
      (FieldError(["key"], RequiredForType(Supabase)) in r.error <==>
        raw.dbType == Given(Some("supabase")) && GivenFalsy(raw.key))
    ensures r.Failure? ==>
      (FieldError(["connection_string"], RequiredForType(MongoDB)) in r.error <==>
        raw.dbType == Given(Some("mongodb")) && GivenFalsy(raw.connectionString))
    ensures r.Failure? ==>
      (FieldError(["host"], RequiredForType(PostgreSQL)) in r.error <==>
        raw.dbType == Given(Some("postgresql")) && GivenFalsy(raw.host))
  {
    var t := CheckType(raw.dbType);
    var known := if t.Success? then Some(t.value) else None;
    var url := RequiredFor(raw.url, known, Supabase);
    var key := RequiredFor(raw.key, known, Supabase);
    var conn := RequiredFor(raw.connectionString, known, MongoDB);
    var host := RequiredFor(raw.host, known, PostgreSQL);
    var errors := ErrorsOf("type", t) + ErrorsOf("url", url) + ErrorsOf("key", key)
      + ErrorsOf("connection_string", conn) + ErrorsOf("host", host);
    if errors != [] then Failure(errors)
    else
      Success(DatabaseConfig(
        t.value, url.value, key.value,
        Resolve(raw.table, None),
        Resolve(raw.textColumn, Some(DefaultTextColumn)),
        Resolve(raw.idColumn, Some(DefaultIdColumn)),
        conn.value,
        Resolve(raw.database, None),
        Resolve(raw.collection, None),
        host.value,
        Resolve(raw.port, None),
        Resolve(raw.user, None),
        Resolve(raw.password, None)))
  }

  // ---------------------------------------------------------------- API keys

  datatype RawApiKeys = RawApiKeys(
    groq: Supplied<Option<string>>,
    pinecone: Supplied<Option<string>>,
    pineconeIndex: Supplied<Option<string>>)

  datatype ApiKeysConfig = ApiKeysConfig(groq: string, pinecone: string, pineconeIndex: string)

  const DefaultPineconeIndex: string := "autorag"

  /** A required API key: refused when absent, null, empty or all white space;
      otherwise returned unchanged (surrounding white space included). */
  function CheckKey(f: Supplied<Option<string>>): (r: Result<string, Issue>)
    ensures f.Omitted? ==> r == Failure(Missing)
    ensures f == Given(None) ==> r == Failure(NotAString)
    ensures f.Given? && f.value.Some? ==>
      (r.Success? <==> exists i :: 0 <= i < |f.value.value| && !IsSpace(f.value.value[i]))
    ensures r.Success? ==> f == Given(Some(r.value))
  {
    match f
    case Omitted => Failure(Missing)
    case Given(None) => Failure(NotAString)
    case Given(Some(s)) =>
      StripBlank(s);
      if s == "" || Strip(s) == "" then Failure(EmptyKey) else Success(s)
  }

  /** A plain string field with a default. */
  function CheckString(f: Supplied<Option<string>>, default: string): (r: Result<string, Issue>)
    ensures r.Failure? <==> f == Given(None)
    ensures r.Success? ==> r.value == (if f.Omitted? then default else f.value.value)
  {
    match f
    case Omitted => Success(default)
    case Given(None) => Failure(NotAString)
    case Given(Some(s)) => Success(s)
  }

  function ValidateApiKeys(raw: RawApiKeys): (r: Result<ApiKeysConfig, seq<FieldError>>)
    ensures r.Success? <==>
      && raw.groq.Given? && raw.groq.value.Some? && !AllSpace(raw.groq.value.value)
      && raw.pinecone.Given? && raw.pinecone.value.Some? && !AllSpace(raw.pinecone.value.value)
      && raw.pineconeIndex != Given(None)
    ensures r.Success? ==>
      && raw.groq == Given(Some(r.value.groq))
      && raw.pinecone == Given(Some(r.value.pinecone))
      && r.value.pineconeIndex == (if raw.pineconeIndex.Omitted? then DefaultPineconeIndex else raw.pineconeIndex.value.value)
    ensures r.Failure? ==> r.error != []
  {
    var groq := CheckKey(raw.groq);
    var pinecone := CheckKey(raw.pinecone);
    var index := CheckString(raw.pineconeIndex, DefaultPineconeIndex);
    var errors := ErrorsOf("groq", groq) + ErrorsOf("pinecone", pinecone) + ErrorsOf("pinecone_index", index);
    if errors != [] then Failure(errors)
    else Success(ApiKeysConfig(groq.value, pinecone.value, index.value))
  }

  // ------------------------------------------------------------ optimisation

  datatype RawOptimization = RawOptimization(
    numExperiments: Supplied<Option<int>>,
    testQuestions: Supplied<Option<int>>)

  datatype OptimizationConfig = OptimizationConfig(numExperiments: int, testQuestions: int)

  const DefaultNumExperiments: int := 20
  const MinNumExperiments: int := 1
  const MaxNumExperiments: int := 100
  const DefaultTestQuestions: int := 50
  const MinTestQuestions: int := 10
  const MaxTestQuestions: int := 500

  /** An integer field with a default and inclusive bounds; the default is
      taken without a bounds check. */
  function CheckBounded(f: Supplied<Option<int>>, default: int, lo: int, hi: int): (r: Result<int, Issue>)
    requires lo <= hi
    ensures f.Omitted? ==> r == Success(default)
    ensures f == Given(None) ==> r == Failure(NotAnInteger)
    ensures f.Given? && f.value.Some? ==>
      && (r.Success? <==> lo <= f.value.value <= hi)
      && (r.Success? ==> r.value == f.value.value)
      && (f.value.value < lo ==> r == Failure(TooSmall(lo)))
      && (f.value.value > hi ==> r == Failure(TooLarge(hi)))
  {
    match f
    case Omitted => Success(default)
    case Given(None) => Failure(NotAnInteger)
    case Given(Some(n)) =>
      if n < lo then Failure(TooSmall(lo))
      else if n > hi then Failure(TooLarge(hi))
      else Success(n)
  }

  /** Every accepted optimisation block lies within the documented ranges. */
  predicate OptimizationInRange(c: OptimizationConfig)
  {
    && MinNumExperiments <= c.numExperiments <= MaxNumExperiments
    && MinTestQuestions <= c.testQuestions <= MaxTestQuestions
  }

  function ValidateOptimization(raw: RawOptimization): (r: Result<OptimizationConfig, seq<FieldError>>)
    ensures r.Success? ==> OptimizationInRange(r.value)
    ensures r.Success? <==>
      && (raw.numExperiments.Given? ==> raw.numExperiments.value.Some? && 1 <= raw.numExperiments.value.value <= 100)
      && (raw.testQuestions.Given? ==> raw.testQuestions.value.Some? && 10 <= raw.testQuestions.value.value <= 500)
    ensures r.Success? ==>
      && r.value.numExperiments == (if raw.numExperiments.Omitted? then 20 else raw.numExperiments.value.value)
      && r.value.testQuestions == (if raw.testQuestions.Omitted? then 50 else raw.testQuestions.value.value)
    ensures r.Failure? ==> r.error != []
  {
    var n := CheckBounded(raw.numExperiments, DefaultNumExperiments, MinNumExperiments, MaxNumExperiments);
    var q := CheckBounded(raw.testQuestions, DefaultTestQuestions, MinTestQuestions, MaxTestQuestions);
    var errors := ErrorsOf("num_experiments", n) + ErrorsOf("test_questions", q);
    if errors != [] then Failure(errors)
    else Success(OptimizationConfig(n.value, q.value))
  }

  // ------------------------------------------------------------- whole file

  datatype RawConfig = RawConfig(
    database: Supplied<Option<RawDatabase>>,
    apiKeys: Supplied<Option<RawApiKeys>>,
    optimization: Supplied<Option<RawOptimization>>)

  datatype AppConfig = AppConfig(
    database: DatabaseConfig,
    apiKeys: ApiKeysConfig,
    optimization: OptimizationConfig)

  /** Errors of a nested block, placed under the block's name. */
  function Nested<T>(name: string, r: Result<T, seq<FieldError>>): (errors: seq<FieldError>)
    ensures |errors| == (if r.Failure? then |r.error| else 0)
  {
    if r.Success? then []
    else seq(|r.error|, i requires 0 <= i < |r.error| => FieldError([name] + r.error[i].loc, r.error[i].issue))
  }

  /** A required nested block: absent is `Missing`, null is `NotAnObject`,
      otherwise the block's own validation. */
  function Block<R, T>(name: string, f: Supplied<Option<R>>, validate: R -> Result<T, seq<FieldError>>)
    : (r: Result<T, seq<FieldError>>)
    ensures r.Success? <==> f.Given? && f.value.Some? && validate(f.value.value).Success?
    ensures r.Success? ==> r == validate(f.value.value)
    ensures r.Failure? ==>
      |r.error| == (if f.Given? && f.value.Some? then |validate(f.value.value).error| else 1)
  {
    match f
    case Omitted => Failure([FieldError([name], Missing)])
    case Given(None) => Failure([FieldError([name], NotAnObject)])
    case Given(Some(raw)) =>
      var v := validate(raw);
      if v.Success? then v else Failure(Nested(name, v))
  }

  /** The whole configuration: the three blocks are required, and it is
      accepted exactly when each block is. */
  function ValidateConfig(raw: RawConfig): (r: Result<AppConfig, seq<FieldError>>)
    ensures r.Success? <==>
      && raw.database.Given? && raw.database.value.Some? && DatabaseAcceptable(raw.database.value.value)
      && raw.apiKeys.Given? && raw.apiKeys.value.Some? && ValidateApiKeys(raw.apiKeys.value.value).Success?
      && raw.optimization.Given? && raw.optimization.value.Some?
      && ValidateOptimization(raw.optimization.value.value).Success?
    ensures r.Success? ==>
      && Success(r.value.database) == ValidateDatabase(raw.database.value.value)
      && Success(r.value.apiKeys) == ValidateApiKeys(raw.apiKeys.value.value)
      && Success(r.value.optimization) == ValidateOptimization(raw.optimization.value.value)
      && OptimizationInRange(r.value.optimization)
    ensures r.Failure? ==> r.error != []
  {
    var db := Block("database", raw.database, ValidateDatabase);
    var keys := Block("api_keys", raw.apiKeys, ValidateApiKeys);
    var opt := Block("optimization", raw.optimization, ValidateOptimization);
    if db.Success? && keys.Success? && opt.Success? then
      Success(AppConfig(db.value, keys.value, opt.value))
    else
      Failure((if db.Failure? then db.error else [])
        + (if keys.Failure? then keys.error else [])
        + (if opt.Failure? then opt.error else []))
  }

  /** A supabase block with a url and a key is accepted, whatever else it holds
      apart from the type. */
  lemma SupabaseWithCredentialsAccepted(raw: RawDatabase, url: string, key: string)
    requires raw.dbType == Given(Some("supabase"))
    requires url != "" && key != ""
    requires raw.url == Given(Some(url)) && raw.key == Given(Some(key))
    ensures ValidateDatabase(raw).Success?
    ensures ValidateDatabase(raw).value.dbType == Supabase
    ensures ValidateDatabase(raw).value.url == Some(url) && ValidateDatabase(raw).value.key == Some(key)
  {
  }
}
