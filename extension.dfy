/** The game-side extension (extension/src/lib.rs): the `execute` and
    `compare` commands the bootstrap calls with its results. Each writes
    one result file under `/tmp/arma_bench/<id>/` as JSON and then ends
    the game process; the JSON encoder is a `Codec` parameter and the
    process exit is the end of the method. */
module Extension {
  import opened Base
  import opened Decimal
  import opened Protocol
  import opened FileSystem

  const EXECUTE_FILE: string := "execute.txt"
  const COMPARE_FILE: string := "compare.txt"

  /** `/tmp/arma_bench/<id>/<file>`. */
  function ResultFile(id: string, file: string): Path
  {
    ["tmp", "arma_bench", id, file]
  }

  /** Different runs, or the two kinds of result of one run, never
      share a result file. */
  lemma ResultFileInjective(id: string, file: string, id': string, file': string)
    requires ResultFile(id, file) == ResultFile(id', file')
    ensures id == id' && file == file'
  {
    assert ResultFile(id, file)[2] == id && ResultFile(id', file')[2] == id';
  }

  lemma ResultKindsDiffer(id: string)
    ensures ResultFile(id, EXECUTE_FILE) != ResultFile(id, COMPARE_FILE)
  {
    assert ResultFile(id, EXECUTE_FILE)[3][0] != ResultFile(id, COMPARE_FILE)[3][0];
  }

  /** One tuple of the `_out` array the compare bootstrap collects: the
      script id as text, `diag_codePerformance`'s time and iterations, and
      the script's return value. */
  type Sample = (string, (F64, u32), Value)

  /** The `map`/`collect` of `compare`: one result per tuple, in order,
      each id parsed as a `u16`; the first id that does not parse panics. */
  function CompareRecords(data: seq<Sample>): (r: Run<seq<CompareResult>>)
    ensures r.Done? <==> forall k :: 0 <= k < |data| ==> ParseU16(data[k].0).Ok?
    ensures r.Panic? ==> r.message == "Failed to parse ID"
    ensures r.Done? ==> |r.value| == |data|
    ensures r.Done? ==> forall k :: 0 <= k < |data| ==>
      r.value[k] == CompareResult(ParseU16(data[k].0).value, data[k].1.0, data[k].1.1, data[k].2)
  {
    if |data| == 0 then Done([])
    else match ParseU16(data[0].0)
      case Err(_) => Panic("Failed to parse ID")
      case Ok(id) =>
        match CompareRecords(data[1..])
        case Panic(msg) => Panic(msg)
        case Done(rest) => Done([CompareResult(id, data[0].1.0, data[0].1.1, data[0].2)] + rest)
  }

  /** Tuples whose ids are the decimal text of `ids` convert without a
      panic, and every result carries the id it was printed from. */
  lemma CompareIdsRoundTrip(data: seq<Sample>, ids: seq<u16>)
    requires |data| == |ids|
    requires forall k :: 0 <= k < |data| ==> data[k].0 == ToDecimal(ids[k])
    ensures CompareRecords(data).Done?
    ensures forall k :: 0 <= k < |data| ==> CompareRecords(data).value[k].id == ids[k]
  {
    forall k | 0 <= k < |data|
      ensures ParseU16(data[k].0) == Ok(ids[k])
    {
      ParseToDecimal(ids[k]);
    }
  }

  /** An id that is not the decimal text of a `u16` ends `compare` with
      a panic. */
  lemma CompareBadId(data: seq<Sample>, k: nat)
    requires k < |data| && ParseU16(data[k].0).Err?
    ensures CompareRecords(data) == Panic("Failed to parse ID")
  {
  }

  /** `execute`: create `/tmp/arma_bench/<id>/execute.txt` (panicking when
      its directory is missing), write the `ExecuteResult` of the sample
      as JSON into it, and exit. */
  method Execute(fs: FileSystem, json: Codec<ExecuteResult>, id: string, data: (F64, u32), value: Value)
    returns (r: Run<()>)
    modifies fs`files
    ensures var path := ResultFile(id, EXECUTE_FILE);
      if path[..3] !in fs.dirs then
        r == Panic("Failed to create execute.txt") && fs.files == old(fs.files)
      else match json.encode(ExecuteResult(data.0, data.1, value))
        case Ok(bytes) => r == Done(()) && fs.files == old(fs.files)[path := Bytes(bytes)]
        case Err(_) => r == Panic("Failed to write execute.txt") && fs.files == old(fs.files)[path := Bytes([])]
  {
    var path := ResultFile(id, EXECUTE_FILE);
    var created := fs.CreateFile(path, Bytes([]));
    if !created {
      return Panic("Failed to create execute.txt");
    }
    var result := ExecuteResult(data.0, data.1, value);
    var encoded := json.encode(result);
    if encoded.Err? {
      return Panic("Failed to write execute.txt");
    }
    var _ := fs.CreateFile(path, Bytes(encoded.value));
    r := Done(());
  }

  /** `compare`: create `/tmp/arma_bench/<id>/compare.txt`, convert the
      samples, write the results as JSON, and exit. A bad id panics after
      the file was created, leaving it empty. */
  method Compare(fs: FileSystem, json: Codec<seq<CompareResult>>, id: string, data: seq<Sample>)
    returns (r: Run<()>)
    modifies fs`files
    ensures var path := ResultFile(id, COMPARE_FILE);
      if path[..3] !in fs.dirs then
        r == Panic("Failed to create compare.txt") && fs.files == old(fs.files)
      else match CompareRecords(data)
        case Panic(msg) => r == Panic(msg) && fs.files == old(fs.files)[path := Bytes([])]
        case Done(results) =>
          match json.encode(results)
          case Ok(bytes) => r == Done(()) && fs.files == old(fs.files)[path := Bytes(bytes)]
          case Err(_) => r == Panic("Failed to write compare.txt") && fs.files == old(fs.files)[path := Bytes([])]
  {
    var path := ResultFile(id, COMPARE_FILE);
    var created := fs.CreateFile(path, Bytes([]));
    if !created {
      return Panic("Failed to create compare.txt");
    }
    var results := CompareRecords(data);
    if results.Panic? {
      return Panic(results.message);
    }
    var encoded := json.encode(results.value);
    if encoded.Err? {
      return Panic("Failed to write compare.txt");
    }
    var _ := fs.CreateFile(path, Bytes(encoded.value));
    r := Done(());
  }
}
