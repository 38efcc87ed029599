/**
 * The value mapping of sqlitestore.go: how job arguments and results become
 * nullable text columns and back, with the JSON codec left abstract; and the
 * migration the store applies when it starts.
 */
module SQLite {
  import opened Wrappers
  import opened Tsq
  import opened Migrations

  /** A nullable text column: `valid` false is SQL NULL. */
  datatype NullString = NullString(text: string, valid: bool)

  /** The JSON encoder and decoder, as an abstract pair of partial maps. */
  datatype Codec = Codec(marshal: Value -> Result<string, string>, unmarshal: string -> Result<Value, string>)

  /** What the JSON encoder guarantees: whatever it encodes is non-empty text. */
  ghost predicate NonEmptyEncoding(c: Codec) {
    forall v :: c.marshal(v).Ok? ==> c.marshal(v).value != ""
  }

  /**
   * What `encoding/json` guarantees when decoding into `interface{}`: a
   * string always encodes, and its encoding decodes to the same string.
   * Numbers, structs and slices decode to other types, so nothing is assumed
   * about `Data` values.
   */
  ghost predicate StringsRoundTrip(c: Codec) {
    forall s :: c.marshal(Str(s)).Ok? && c.unmarshal(c.marshal(Str(s)).value) == Ok(Str(s))
  }

  /** The values that come back from the store as they went in, up to nil. */
  predicate Textual(v: Value) {
    v.Nil? || v.Str?
  }

  /** Empty text is written as NULL; any other text as itself. */
  function ToNullString(s: string): (r: NullString)
    ensures r.valid <==> s != ""
    ensures r.text == s
  {
    NullString(s, s != "")
  }

  /** `encode`: nil becomes empty text without consulting the codec. */
  function Encode(c: Codec, thing: Value): (r: Result<string, string>)
    ensures thing == Nil ==> r == Ok("")
    ensures thing != Nil ==> r == c.marshal(thing)
  {
    if thing == Nil then Ok("") else c.marshal(thing)
  }

  /** `decode`: NULL, and text whose JSON is null, both come back as "", never as nil. */
  function Decode(c: Codec, column: NullString): (r: Result<Value, string>)
    ensures !column.valid ==> r == Ok(Str(""))
    ensures r.Ok? ==> r.value != Nil
    ensures column.valid && c.unmarshal(column.text) == Ok(Nil) ==> r == Ok(Str(""))
    ensures column.valid && c.unmarshal(column.text) != Ok(Nil) ==> r == c.unmarshal(column.text)
  {
    if !column.valid then Ok(Str(""))
    else match c.unmarshal(column.text)
      case Err(e) => Err(e)
      case Ok(thing) => if thing == Nil then Ok(Str("")) else Ok(thing)
  }

  /** One row of the `Job` table. */
  datatype Row = Row(
    uuid: string,
    name: string,
    status: Status,
    arguments: NullString,
    result: NullString,
    created: int,
    updated: int)

  /**
   * The row `Store` inserts for a job. Arguments are encoded first, then the
   * result; the first encoding error is returned and no row is produced.
   */
  function EncodeRow(c: Codec, job: JobRecord): (r: Result<Row, string>)
    ensures Encode(c, job.arguments).Err? ==> r == Err(Encode(c, job.arguments).error)
    ensures Encode(c, job.arguments).Ok? && Encode(c, job.result).Err? ==> r == Err(Encode(c, job.result).error)
    ensures r.Ok? ==> && r.value.uuid == job.uuid && r.value.name == job.name && r.value.status == job.status
                      && r.value.created == job.created && r.value.updated == job.updated
    ensures r.Ok? <==> Encode(c, job.arguments).Ok? && Encode(c, job.result).Ok?
    ensures r.Ok? ==> && r.value.arguments == ToNullString(Encode(c, job.arguments).value)
                      && r.value.result == ToNullString(Encode(c, job.result).value)
    ensures r.Ok? && job.arguments == Nil ==> !r.value.arguments.valid
    ensures r.Ok? && job.result == Nil ==> !r.value.result.valid
  {
    match Encode(c, job.arguments)
    case Err(e) => Err(e)
    case Ok(arguments) =>
      match Encode(c, job.result)
      case Err(e) => Err(e)
      case Ok(result) =>
        Ok(Row(job.uuid, job.name, job.status, ToNullString(arguments), ToNullString(result), job.created, job.updated))
  }

  /** The column value `SetResult` writes: a nil result is written as NULL. */
  function EncodeResult(c: Codec, result: Value): (r: Result<NullString, string>)
    ensures result == Nil ==> r == Ok(NullString("", false))
    ensures result != Nil && c.marshal(result).Err? ==> r == Err(c.marshal(result).error)
    ensures result != Nil && c.marshal(result).Ok? ==> r == Ok(ToNullString(c.marshal(result).value))
  {
    match Encode(c, result)
    case Err(e) => Err(e)
    case Ok(value) => Ok(ToNullString(value))
  }

  /** `readJob` after the scan: decodes arguments, then result. */
  function ReadJob(c: Codec, row: Row): (r: Result<JobRecord, string>)
    ensures Decode(c, row.arguments).Err? ==> r == Err(Decode(c, row.arguments).error)
    ensures Decode(c, row.arguments).Ok? && Decode(c, row.result).Err? ==> r == Err(Decode(c, row.result).error)
    ensures r.Ok? <==> Decode(c, row.arguments).Ok? && Decode(c, row.result).Ok?
    ensures r.Ok? ==> r.value.arguments == Decode(c, row.arguments).value && r.value.result == Decode(c, row.result).value
    ensures r.Ok? ==> r.value.arguments != Nil && r.value.result != Nil
    ensures r.Ok? ==> && r.value.uuid == row.uuid && r.value.name == row.name && r.value.status == row.status
                      && r.value.created == row.created && r.value.updated == row.updated
  {
    match Decode(c, row.arguments)
    case Err(e) => Err(e)
    case Ok(arguments) =>
      match Decode(c, row.result)
      case Err(e) => Err(e)
      case Ok(result) => Ok(JobRecord(row.uuid, row.name, row.status, arguments, result, row.created, row.updated))
  }

  /** What a nil value reads back as. */
  function Normalized(v: Value): Value {
    if v == Nil then Str("") else v
  }

  /**
   * A job whose arguments and result are strings or nil can always be
   * stored, and reading its row back gives the job again, except that nil
   * arguments or a nil result come back as "".
   */
  lemma RowRoundTrip(c: Codec, job: JobRecord)
    requires NonEmptyEncoding(c) && StringsRoundTrip(c)
    requires Textual(job.arguments) && Textual(job.result)
    ensures EncodeRow(c, job).Ok?
    ensures ReadJob(c, EncodeRow(c, job).value) ==
            Ok(job.(arguments := Normalized(job.arguments), result := Normalized(job.result)))
  {
    ValueRoundTrip(c, job.arguments);
    ValueRoundTrip(c, job.result);
  }

  lemma ValueRoundTrip(c: Codec, v: Value)
    requires NonEmptyEncoding(c) && StringsRoundTrip(c)
    requires Textual(v)
    ensures Encode(c, v).Ok?
    ensures Decode(c, ToNullString(Encode(c, v).value)) == Ok(Normalized(v))
  {
    if v.Str? {
      assert c.marshal(Str(v.text)).Ok?;
      assert c.marshal(v).value != "";
      assert c.unmarshal(c.marshal(v).value) == Ok(v);
    }
  }

  /**
   * What `SetResult` writes is what `GetJob` reads back: a string result
   * comes back unchanged and a nil result comes back as "".
   */
  lemma ResultRoundTrip(c: Codec, result: Value)
    requires NonEmptyEncoding(c) && StringsRoundTrip(c)
    requires Textual(result)
    ensures EncodeResult(c, result).Ok?
    ensures Decode(c, EncodeResult(c, result).value) == Ok(Normalized(result))
  {
    ValueRoundTrip(c, result);
  }

  const CreateJobDBVersion: string := "V1__001_CreateJobDB"

  /**
   * `Start` after the connection is open: the one migration creating the job
   * table is registered and the migrations are run. `openErr` and `pingErr`
   * are the outcomes of opening and pinging the database, `createTableErr` that
   * of creating the version table, `createJobDB` that of creating the job table.
   */
  method Start(openErr: Option<string>, pingErr: Option<string>, createTableErr: Option<string>,
               createJobDB: Option<string>, table: VersionTable)
    returns (err: Option<string>, table': VersionTable, log: seq<string>)
    ensures openErr.Some? ==> err == openErr && table' == table && log == []
    ensures openErr.None? && pingErr.Some? ==> err == pingErr && table' == table && log == []
    ensures openErr.None? && pingErr.None? ==>
              RunResult(err, table', log) ==
              RunAll([Migration(CreateJobDBVersion, createJobDB)], createTableErr, table)
  {
    if openErr.Some? {
      return openErr, table, [];
    }
    if pingErr.Some? {
      return pingErr, table, [];
    }
    var migrations := new Migrations();
    migrations.Register(CreateJobDBVersion, createJobDB);
    assert migrations.migrations == [Migration(CreateJobDBVersion, createJobDB)];
    err, table', log := migrations.Run(createTableErr, table);
  }

  /** Starting against a fresh database creates the job table once; starting again does nothing. */
  lemma StartOnFreshDatabase(createJobDB: Option<string>)
    ensures var first := RunAll([Migration(CreateJobDBVersion, createJobDB)], None, map[]);
            && first.log == [RunningLine(CreateJobDBVersion)]
            && first.table == map[CreateJobDBVersion := createJobDB.None?]
            && first.err == createJobDB
            && (first.err.None? ==>
                  RunAll([Migration(CreateJobDBVersion, createJobDB)], None, first.table) == RunResult(None, first.table, []))
            && (first.err.Some? ==>
                  RunAll([Migration(CreateJobDBVersion, createJobDB)], None, first.table).err == Some(FailedBefore(CreateJobDBVersion)))
  {
    var ms := [Migration(CreateJobDBVersion, createJobDB)];
    assert ms[1..] == [];
    if createJobDB.None? {
      RunIdempotent(ms, map[]);
    }
  }
}
