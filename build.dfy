/** The server's request builder (server/src/build.rs): the scratch
    directory, the `tab` addon archive it writes there for one request,
    the bootstrap script that runs the benchmark and hands its results to
    the extension, and the clean-up when the built request is dropped. */
module Build {
  import opened Base
  import opened Bytes
  import opened Decimal
  import opened Protocol
  import Pbo
  import opened FileSystem

  /** The addon's `config.cpp`, byte for byte. */
  const CONFIG_CPP: string := @"
    class CfgPatches {
        class TAB {
            units[] = {};
            weapons[] = {};
            requiredVersion = 1.0;
            requiredAddons[] = {};
        };
    };

    class CfgFunctions {
        class TAB {
            class Bench {
                class Bootstrap {
                    file = ""\tab\bootstrap.sqf"";
                    preStart = 1;
                };
            };
        };
    };"

  /** The archive's `config.cpp` entry. */
  function ConfigEntry(): (e: Pbo.Entry)
    ensures e.name == "config.cpp"
  {
    Pbo.Entry("config.cpp", Utf8(CONFIG_CPP))
  }

  /** The twelve spaces that open every line of a bootstrap script. */
  const INDENT: string := "            "

  /** Seconds the extension's timeout allows each kind of run. */
  const EXECUTE_TIMEOUT: nat := 30
  const COMPARE_TIMEOUT: nat := 120

  /** What separates the ids inside the `forEach` array literal. */
  const SEPARATOR: string := "\", \""

  datatype BuiltRequest = BuiltRequest(path: Path)

  /** `<temp>/arma_bench/<uuid>`: the directory a built request owns. */
  function ScratchDir(temp: Path, uuid: string): Path
  {
    temp + ["arma_bench", uuid]
  }

  /** Every scratch directory lies under `temp`, and two requests with
      different uuids own disjoint trees: nothing lies under both. */
  lemma ScratchDirsDisjoint(temp: Path, uuid: string, other: string)
    requires uuid != other
    ensures Under(temp, ScratchDir(temp, uuid))
    ensures forall q :: Under(ScratchDir(temp, other), q) ==> !Under(ScratchDir(temp, uuid), q)
  {
    var mine, theirs := ScratchDir(temp, uuid), ScratchDir(temp, other);
    assert mine[..|temp|] == temp;
    forall q | Under(theirs, q)
      ensures !Under(mine, q)
    {
      assert q[|temp| + 1] == theirs[|temp| + 1] == other;
      assert mine[|temp| + 1] == uuid;
    }
  }

  function AddonsDir(temp: Path, uuid: string): Path
  {
    ScratchDir(temp, uuid) + ["addons"]
  }

  function PboPath(temp: Path, uuid: string): Path
  {
    AddonsDir(temp, uuid) + ["execute.pbo"]
  }

  /** The archive entry name of one compared script: its id, then
      `.sqfc` for compiled script or `.sqf` for source. */
  function FileName(item: CompareRequest): string
  {
    ToDecimal(item.id) + "." + (if item.sqfc then "sqfc" else "sqf")
  }

  function TimeoutLine(uuid: string, seconds: nat): string
  {
    "\"tab\" callExtension [\"timeout\", [\"" + uuid + "\", " + ToDecimal(seconds) + "]];"
  }

  function CallbackLine(command: string, uuid: string, results: string): string
  {
    "\"tab\" callExtension [\"" + command + "\", [\"" + uuid + "\", " + results + "]];"
  }

  const DIE_LINE: string := "\"tab\" callExtension [\"die\", []];"

  /** The lines of the bootstrap for `Request::Execute`. */
  function ExecuteLines(uuid: string): seq<string>
  {
    [ "diag_log \"creating timeout\";",
      TimeoutLine(uuid, EXECUTE_TIMEOUT),
      "diag_log \"starting benchmark\";",
      @"private _code = compile preprocessFileLineNumbers ""\tab\bench.sqf"";",
      "private _out = diag_codePerformance [_code];",
      "private _ret = call _code;",
      "diag_log \"benchmark complete, saving results\";",
      CallbackLine("execute", uuid, "_out, _ret"),
      "diag_log \"dying\";",
      DIE_LINE ]
  }

  /** The lines of the bootstrap for `Request::Compare`, whose loop runs
      over the scripts named by `ids`. */
  function CompareLines(uuid: string, ids: seq<string>): seq<string>
  {
    [ "diag_log \"creating timeout\";",
      TimeoutLine(uuid, COMPARE_TIMEOUT),
      "diag_log \"starting benchmark\";",
      "private _out = [];",
      "{",
      @"    private _code = compileScript [format[""\tab\%1.sqf"", _x]];",
      "    private _ret = [_x];",
      "    diag_log format[\"benchmarking %1\", _x];",
      "    _ret pushBack diag_codePerformance [_code];",
      "    _ret pushBack call _code;",
      "    _out pushBack _ret;",
      "} forEach [\"" + JoinIds(ids) + "\"];",
      "diag_log \"benchmark complete, saving results\";",
      CallbackLine("compare", uuid, "_out"),
      "diag_log \"dying\";",
      DIE_LINE ]
  }

  /** The script text: every line on a fresh line behind the indent, and
      the indent of the closing line of the raw string at the end. */
  function Render(lines: seq<string>): string
  {
    RenderLines(lines) + "\n" + INDENT
  }

  function RenderLines(lines: seq<string>): string
  {
    if |lines| == 0 then "" else RenderLines(lines[..|lines| - 1]) + "\n" + INDENT + lines[|lines| - 1]
  }

  /** `line` is a line of `text` starting at offset `i` (its newline). */
  predicate LineAt(text: string, line: string, i: int)
  {
    0 <= i && i + 13 + |line| <= |text| && text[i..i + 13 + |line|] == "\n" + INDENT + line
  }

  /** `text` holds `line` as one of its lines. */
  ghost predicate HasLine(text: string, line: string)
  {
    exists i :: LineAt(text, line, i)
  }

  lemma HasLineExtend(text: string, more: string, line: string)
    requires HasLine(text, line)
    ensures HasLine(text + more, line)
  {
    var i :| LineAt(text, line, i);
    assert (text + more)[i..i + 13 + |line|] == text[i..i + 13 + |line|];
    assert LineAt(text + more, line, i);
  }

  /** Every line given to `Render` is a line of the script. */
  lemma {:induction false} RenderHasLine(lines: seq<string>, k: nat)
    requires k < |lines|
    ensures HasLine(RenderLines(lines), lines[k])
    decreases |lines|
  {
    var init := lines[..|lines| - 1];
    var last := lines[|lines| - 1];
    var text := RenderLines(lines);
    if k == |lines| - 1 {
      var i := |RenderLines(init)|;
      assert text[i..i + 13 + |last|] == "\n" + INDENT + last;
      assert LineAt(text, last, i);
    } else {
      RenderHasLine(init, k);
      assert init[k] == lines[k];
      HasLineExtend(RenderLines(init), "\n" + INDENT + last, lines[k]);
      assert text == RenderLines(init) + ("\n" + INDENT + last);
    }
  }

  /** The script ends with its last line, then the closing indent. */
  lemma RenderEndsWith(lines: seq<string>)
    requires |lines| >= 1
    ensures var text := Render(lines);
      var tail := "\n" + INDENT + lines[|lines| - 1] + "\n" + INDENT;
      |tail| <= |text| && text[|text| - |tail|..] == tail
  {
  }

  /** `needle` occurs in `bytes` at offset `i`. */
  predicate BytesAt(bytes: seq<byte>, needle: seq<byte>, i: int)
  {
    0 <= i && i + |needle| <= |bytes| && bytes[i..i + |needle|] == needle
  }

  /** The bytes the archive stores for a script (`as_bytes()` of the
      rendered text) hold the bytes of each of its lines, behind the
      newline and the indent. */
  lemma BootstrapBytesHoldLine(lines: seq<string>, k: nat)
    requires k < |lines|
    ensures exists i :: BytesAt(Utf8(Render(lines)), Utf8("\n" + INDENT + lines[k]), i)
  {
    RenderHasLine(lines, k);
    var text := RenderLines(lines);
    var mid := "\n" + INDENT + lines[k];
    var i :| LineAt(text, lines[k], i);
    var pre, post := text[..i], text[i + |mid|..] + "\n" + INDENT;
    assert Render(lines) == pre + (mid + post);
    Utf8Append(pre, mid + post);
    Utf8Append(mid, post);
    var bytes := Utf8(Render(lines));
    assert bytes == Utf8(pre) + Utf8(mid) + Utf8(post);
    assert bytes[|Utf8(pre)|..|Utf8(pre)| + |Utf8(mid)|] == Utf8(mid);
    assert BytesAt(bytes, Utf8(mid), |Utf8(pre)|);
  }

  /** `ids.join("\", \"")`. */
  function JoinIds(ids: seq<string>): string
  {
    if |ids| == 0 then "" else if |ids| == 1 then ids[0] else ids[0] + SEPARATOR + JoinIds(ids[1..])
  }

  /** Reading the `forEach` array back: the text between the separators. */
  function SplitIds(s: string): (parts: seq<string>)
    ensures |parts| >= 1
    decreases |s|
  {
    if |s| < 4 then [s]
    else if s[..4] == SEPARATOR then [""] + SplitIds(s[4..])
    else var rest := SplitIds(s[1..]); [[s[0]] + rest[0]] + rest[1..]
  }

  predicate NoQuote(s: string)
  {
    forall i :: 0 <= i < |s| ==> s[i] != '"'
  }

  lemma {:induction false} SplitNoSeparator(a: string)
    requires NoQuote(a)
    ensures SplitIds(a) == [a]
    decreases |a|
  {
    if |a| >= 4 {
      assert a[..4][0] != SEPARATOR[0];
      SplitNoSeparator(a[1..]);
      assert [a[0]] + a[1..] == a;
    }
  }

  lemma {:induction false} SplitSeparator(a: string, b: string)
    requires NoQuote(a)
    ensures SplitIds(a + SEPARATOR + b) == [a] + SplitIds(b)
    decreases |a|
  {
    var s := a + SEPARATOR + b;
    if |a| == 0 {
      assert s == SEPARATOR + b;
      assert s[..4] == SEPARATOR;
      assert s[4..] == b;
    } else {
      assert s[..4][0] == a[0] != SEPARATOR[0];
      assert s[1..] == a[1..] + SEPARATOR + b;
      SplitSeparator(a[1..], b);
      assert [a[0]] + a[1..] == a;
    }
  }

  /** The `forEach` array lists exactly the ids, in order, provided none
      contains a quote. */
  lemma {:induction false} SplitJoin(ids: seq<string>)
    requires |ids| >= 1
    requires forall k :: 0 <= k < |ids| ==> NoQuote(ids[k])
    ensures SplitIds(JoinIds(ids)) == ids
    decreases |ids|
  {
    if |ids| == 1 {
      SplitNoSeparator(ids[0]);
    } else {
      SplitSeparator(ids[0], JoinIds(ids[1..]));
      SplitJoin(ids[1..]);
    }
  }

  /** The ids of the compared scripts as the loop collects them. */
  function IdStrings(items: seq<CompareRequest>): seq<string>
  {
    seq(|items|, k requires 0 <= k < |items| => ToDecimal(items[k].id))
  }

  /** One archive entry per compared script, in order. */
  function ItemEntries(items: seq<CompareRequest>): seq<Pbo.Entry>
  {
    seq(|items|, k requires 0 <= k < |items| => Pbo.Entry(FileName(items[k]), items[k].content))
  }

  /** The loop over the compared scripts: one more script adds its id
      and its archive entry at the end. */
  lemma CollectOneMore(items: seq<CompareRequest>, i: nat)
    requires i < |items|
    ensures IdStrings(items[..i + 1]) == IdStrings(items[..i]) + [ToDecimal(items[i].id)]
    ensures ItemEntries(items[..i + 1]) == ItemEntries(items[..i]) + [Pbo.Entry(FileName(items[i]), items[i].content)]
  {
  }

  /** The archive `build` writes for `request`. */
  function ArchiveFor(request: Request, uuid: string): Pbo.Archive
  {
    Pbo.Archive([("prefix", "tab")], [ConfigEntry()] + RequestEntries(request, uuid))
  }

  /** The entries that follow `config.cpp`: the request's own files and
      its bootstrap. */
  function RequestEntries(request: Request, uuid: string): seq<Pbo.Entry>
  {
    match request
    case Execute(content) =>
      [Pbo.Entry("bootstrap.sqf", Utf8(Render(ExecuteLines(uuid)))), Pbo.Entry("bench.sqf", Utf8(content))]
    case Compare(items) =>
      ItemEntries(items) + [Pbo.Entry("bootstrap.sqf", Utf8(Render(CompareLines(uuid, IdStrings(items)))))]
  }

  /** The archive part of `build`: the `prefix` property, `config.cpp`,
      then the request's own files and its bootstrap. */
  method FillArchive(pbo: Pbo.WritablePbo, request: Request, uuid: string)
    requires pbo.properties == [] && pbo.entries == []
    modifies pbo
    ensures pbo.Snapshot() == ArchiveFor(request, uuid)
  {
    pbo.AddProperty("prefix", "tab");
    var config := ConfigEntry();
    pbo.AddFile(config.name, config.content);
    assert pbo.entries == [ConfigEntry()];
    AddRequestFiles(pbo, request, uuid);
  }

  /** The `match` of `build`: the request's files, then its bootstrap,
      after the entries already added. */
  method AddRequestFiles(pbo: Pbo.WritablePbo, request: Request, uuid: string)
    modifies pbo
    ensures pbo.properties == old(pbo.properties)
    ensures pbo.entries == old(pbo.entries) + RequestEntries(request, uuid)
  {
    match request {
      case Execute(content) =>
        var bootstrap := Render(ExecuteLines(uuid));
        pbo.AddFile("bootstrap.sqf", Utf8(bootstrap));
        pbo.AddFile("bench.sqf", Utf8(content));
      case Compare(items) =>
        var ids := AddScripts(pbo, items);
        var bootstrap := Render(CompareLines(uuid, ids));
        pbo.AddFile("bootstrap.sqf", Utf8(bootstrap));
    }
  }

  /** The `for` loop of `build` over the compared scripts: it adds each
      script's entry and collects the ids, in order. */
  method AddScripts(pbo: Pbo.WritablePbo, items: seq<CompareRequest>) returns (ids: seq<string>)
    modifies pbo
    ensures ids == IdStrings(items)
    ensures pbo.properties == old(pbo.properties)
    ensures pbo.entries == old(pbo.entries) + ItemEntries(items)
  {
    ids := [];
    for i := 0 to |items|
      invariant ids == IdStrings(items[..i])
      invariant pbo.properties == old(pbo.properties)
      invariant pbo.entries == old(pbo.entries) + ItemEntries(items[..i])
    {
      ids := ids + [ToDecimal(items[i].id)];
      var filename := FileName(items[i]);
      pbo.AddFile(filename, items[i].content);
      CollectOneMore(items, i);
    }
    assert items[..|items|] == items;
  }

  /** An `Execute` archive holds `config.cpp`, the bootstrap and the
      benchmarked code, in that order, under the `tab` prefix. */
  lemma ExecuteArchive(content: string, uuid: string)
    ensures var a := ArchiveFor(Request.Execute(content), uuid);
      && a.properties == [("prefix", "tab")]
      && Pbo.Names(a.entries) == ["config.cpp", "bootstrap.sqf", "bench.sqf"]
      && a.entries[1].content == Utf8(Render(ExecuteLines(uuid)))
      && a.entries[2].content == Utf8(content)
  {
  }

  /** A `Compare` archive holds `config.cpp`, then every script under
      its `FileName` with its content unchanged, in request order, then
      the bootstrap. */
  lemma CompareArchive(items: seq<CompareRequest>, uuid: string)
    ensures var a := ArchiveFor(Request.Compare(items), uuid);
      && a.properties == [("prefix", "tab")]
      && |a.entries| == |items| + 2
      && a.entries[0] == ConfigEntry()
      && (forall k :: 0 <= k < |items| ==> a.entries[k + 1] == Pbo.Entry(FileName(items[k]), items[k].content))
      && a.entries[|items| + 1] == Pbo.Entry("bootstrap.sqf", Utf8(Render(CompareLines(uuid, IdStrings(items)))))
  {
  }

  /** An entry name is the id's digits, then a '.'. */
  lemma FileNameShape(item: CompareRequest)
    ensures var d := ToDecimal(item.id);
      |d| < |FileName(item)| && FileName(item)[|d|] == '.' &&
      forall i :: 0 <= i < |d| ==> IsDigit(FileName(item)[i])
  {
    var d := ToDecimal(item.id);
    assert forall i :: 0 <= i < |d| ==> FileName(item)[i] == d[i];
  }

  /** The entry name determines the script's id and kind. */
  lemma FileNameInjective(a: CompareRequest, b: CompareRequest)
    requires FileName(a) == FileName(b)
    ensures a.id == b.id && a.sqfc == b.sqfc
  {
    var da, db := ToDecimal(a.id), ToDecimal(b.id);
    FileNameShape(a);
    FileNameShape(b);
    assert da == FileName(a)[..|da|] == FileName(b)[..|db|] == db;
    ToDecimalInjective(a.id, b.id);
    assert FileName(a)[|da| + 1..] == (if a.sqfc then "sqfc" else "sqf");
    assert FileName(b)[|db| + 1..] == (if b.sqfc then "sqfc" else "sqf");
  }

  /** A script's entry name begins with a digit, so it never clashes with
      `config.cpp` or `bootstrap.sqf`. */
  lemma FileNameStartsWithDigit(item: CompareRequest)
    ensures |FileName(item)| >= 1 && IsDigit(FileName(item)[0])
  {
    assert FileName(item)[0] == ToDecimal(item.id)[0];
  }

  /** Scripts with distinct ids give an archive whose entry names are
      pairwise distinct. */
  lemma CompareNamesDistinct(items: seq<CompareRequest>, uuid: string)
    requires forall j, k :: 0 <= j < k < |items| ==> items[j].id != items[k].id
    ensures var names := Pbo.Names(ArchiveFor(Request.Compare(items), uuid).entries);
      forall j, k :: 0 <= j < k < |names| ==> names[j] != names[k]
  {
    var es := ArchiveFor(Request.Compare(items), uuid).entries;
    var names := Pbo.Names(es);
    CompareArchive(items, uuid);
    forall j, k | 0 <= j < k < |names|
      ensures names[j] != names[k]
    {
      if 1 <= j && k <= |items| {
        if names[j] == names[k] {
          FileNameInjective(items[j - 1], items[k - 1]);
        }
      } else if j == 0 && k <= |items| {
        FileNameStartsWithDigit(items[k - 1]);
        assert names[j][0] == 'c';
      } else if j == 0 {
        assert names[j][0] == 'c' && names[k][0] == 'b';
      } else {
        FileNameStartsWithDigit(items[j - 1]);
        assert names[k][0] == 'b';
      }
    }
  }

  /** The execute bootstrap arms a 30-second timeout for this build,
      reports `diag_codePerformance` and the return value under the
      build's id, and ends by asking the extension to kill the game. */
  lemma ExecuteBootstrap(uuid: string)
    ensures var text := Render(ExecuteLines(uuid));
      var tail := "\n" + INDENT + DIE_LINE + "\n" + INDENT;
      && HasLine(text, TimeoutLine(uuid, 30))
      && HasLine(text, CallbackLine("execute", uuid, "_out, _ret"))
      && |tail| <= |text| && text[|text| - |tail|..] == tail
  {
    var lines := ExecuteLines(uuid);
    RenderHasLine(lines, 1);
    RenderHasLine(lines, 7);
    HasLineExtend(RenderLines(lines), "\n" + INDENT, lines[1]);
    HasLineExtend(RenderLines(lines), "\n" + INDENT, lines[7]);
    assert Render(lines) == RenderLines(lines) + ("\n" + INDENT);
    RenderEndsWith(lines);
  }

  /** The compare bootstrap arms a 120-second timeout for this build,
      runs its loop over exactly the scripts' ids, reports the collected
      results under the build's id, and ends by asking the extension to
      kill the game. */
  lemma CompareBootstrap(uuid: string, items: seq<CompareRequest>)
    ensures var text := Render(CompareLines(uuid, IdStrings(items)));
      var tail := "\n" + INDENT + DIE_LINE + "\n" + INDENT;
      && HasLine(text, TimeoutLine(uuid, 120))
      && HasLine(text, "} forEach [\"" + JoinIds(IdStrings(items)) + "\"];")
      && HasLine(text, CallbackLine("compare", uuid, "_out"))
      && |tail| <= |text| && text[|text| - |tail|..] == tail
  {
    var lines := CompareLines(uuid, IdStrings(items));
    RenderHasLine(lines, 1);
    RenderHasLine(lines, 11);
    RenderHasLine(lines, 13);
    HasLineExtend(RenderLines(lines), "\n" + INDENT, lines[1]);
    HasLineExtend(RenderLines(lines), "\n" + INDENT, lines[11]);
    HasLineExtend(RenderLines(lines), "\n" + INDENT, lines[13]);
    assert Render(lines) == RenderLines(lines) + ("\n" + INDENT);
    RenderEndsWith(lines);
  }

  /** The loop's array, read back between its separators, is the list of
      the scripts' ids, and each of them parses back to its script's id;
      with no scripts the array holds a single empty string. */
  lemma ForEachIds(items: seq<CompareRequest>)
    ensures |items| == 0 ==> SplitIds(JoinIds(IdStrings(items))) == [""]
    ensures |items| >= 1 ==> SplitIds(JoinIds(IdStrings(items))) == IdStrings(items)
    ensures forall k :: 0 <= k < |items| ==> ParseU16(IdStrings(items)[k]) == Ok(items[k].id)
  {
    var ids := IdStrings(items);
    forall k | 0 <= k < |ids|
      ensures NoQuote(ids[k]) && ParseU16(ids[k]) == Ok(items[k].id)
    {
      ParseToDecimal(items[k].id);
    }
    if |items| >= 1 {
      SplitJoin(ids);
    }
  }

  /** `build`: create `<temp>/arma_bench/<uuid>/addons`, write the archive
      for `request` to `execute.pbo` in it, and hand back the directory
      above `addons`. */
  method Build(fs: FileSystem, request: Request, temp: Path, uuid: string) returns (built: BuiltRequest)
    modifies fs
    ensures built.path == ScratchDir(temp, uuid)
    ensures fs.dirs == old(fs.dirs) + Ancestry(AddonsDir(temp, uuid))
    ensures fs.files == old(fs.files)[PboPath(temp, uuid) := PboFile(ArchiveFor(request, uuid))]
  {
    var path := temp + ["arma_bench"] + [uuid] + ["addons"];
    assert path == AddonsDir(temp, uuid);
    fs.CreateDirAll(path);
    assert path[..|path|] == path && path[..|path|] in fs.dirs;
    assert path in fs.dirs;
    var pboPath := path + ["execute.pbo"];
    assert pboPath[..|pboPath| - 1] == path;
    assert pboPath == PboPath(temp, uuid);
    var created := fs.CreateFile(pboPath, Bytes([]));
    assert created;
    var pbo := new Pbo.WritablePbo();
    FillArchive(pbo, request, uuid);
    assert pbo.Snapshot() == ArchiveFor(request, uuid);
    var written := fs.CreateFile(pboPath, PboFile(pbo.Snapshot()));
    assert written;
    assert fs.files == old(fs.files)[pboPath := Bytes([])][pboPath := PboFile(pbo.Snapshot())];
    built := BuiltRequest(path[..|path| - 1]);
  }

  /** Dropping a built request removes its directory and everything in
      it, and panics when the directory is already gone. */
  method Drop(fs: FileSystem, built: BuiltRequest) returns (r: Run<()>)
    modifies fs
    ensures r == if built.path in old(fs.dirs) then Done(()) else Panic("Failed to remove temp directory")
    ensures r.Done? ==> fs.dirs == PrunedDirs(old(fs.dirs), built.path)
    ensures r.Done? ==> fs.files == PrunedFiles(old(fs.files), built.path)
    ensures r.Panic? ==> fs.dirs == old(fs.dirs) && fs.files == old(fs.files)
  {
    var ok := fs.RemoveDirAll(built.path);
    r := if ok then Done(()) else Panic("Failed to remove temp directory");
  }
}
