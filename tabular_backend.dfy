/**
 * `TabularBackend`'s persistence: `write_tables` writes its three tables to
 * the cache directory, `load_tables` replaces them from it, one table at a
 * time in a fixed order.
 */
module Backend {
  import opened Common
  import opened Miniz
  import opened CachePath
  import opened TableFiles
  import opened SaturationTable
  import opened SinglePhaseTable

  /** The three tables a backend owns, in the order they are written and loaded. */
  datatype Tables = Tables(logph: GridImage, logpT: GridImage, saturation: SatImage)

  /** msgpack for the two table types. */
  datatype Codecs = Codecs(grid: Codec<GridImage>, sat: Codec<SatImage>)

  /** The files after a write, and the error that stopped it, if any. */
  datatype Written = Written(files: Files, error: Option<WriteError>)

  /** The tables after a load, and the error that stopped it, if any. */
  datatype Loaded = Loaded(tables: Tables, error: Option<LoadError>)

  /** The compressed file of the `k`-th table under `dir`. */
  function TableFile(dir: string, k: nat): string
    requires k < 3
  {
    TablePath(dir, CompressedFileName(TableNames[k]))
  }

  /** The raw file of the `k`-th table under `dir`. */
  function RawTableFile(dir: string, k: nat): string
    requires k < 3
  {
    TablePath(dir, RawFileName(TableNames[k]))
  }

  /** The three compressed files under `dir`. */
  function CompressedTableFiles(dir: string): set<string> {
    {TableFile(dir, 0), TableFile(dir, 1), TableFile(dir, 2)}
  }

  /** The six files the backend writes under `dir`. */
  function AllTableFiles(dir: string): set<string> {
    CompressedTableFiles(dir) + {RawTableFile(dir, 0), RawTableFile(dir, 1), RawTableFile(dir, 2)}
  }

  /** The compressor terminates on each table's packed bytes. */
  ghost predicate CanWrite(z: Zlib, codecs: Codecs, t: Tables) {
    Writable(z, codecs.grid.pack(t.logph)) && Writable(z, codecs.grid.pack(t.logpT)) &&
    Writable(z, codecs.sat.pack(t.saturation))
  }

  /** The files `write_tables` may open: the compressed ones, and the raw ones when raw tables are saved. */
  function WrittenFiles(dir: string, saveRaw: bool): set<string> {
    if saveRaw then AllTableFiles(dir) else CompressedTableFiles(dir)
  }

  /**
   * Every path outside the files `write_tables` may open is present in
   * `files'` exactly when it is in `files`, with the same contents.
   */
  ghost predicate KeepsOthers(dir: string, saveRaw: bool, files: Files, files': Files) {
    forall p :: p !in WrittenFiles(dir, saveRaw) ==>
      (p in files' <==> p in files) && (p in files ==> files'[p] == files[p])
  }

  /** The write of table `k` keeps every file `write_tables` does not open. */
  lemma UntouchedKeepsOthers(dir: string, saveRaw: bool, k: nat, files: Files, files': Files)
    requires k < 3
    requires Untouched(files, files', TableFile(dir, k), RawTableFile(dir, k), saveRaw)
    ensures KeepsOthers(dir, saveRaw, files, files')
  {
  }

  /** Keeping the other files composes over consecutive writes. */
  lemma KeepsOthersTransitive(dir: string, saveRaw: bool, f1: Files, f2: Files, f3: Files)
    requires KeepsOthers(dir, saveRaw, f1, f2) && KeepsOthers(dir, saveRaw, f2, f3)
    ensures KeepsOthers(dir, saveRaw, f1, f3)
  {
  }

  /** What one compress call into a buffer the size of `sbuf` leaves in the buffer. */
  function OneShot(z: Zlib, sbuf: seq<byte>): seq<byte> {
    z.compress.run(sbuf, |sbuf|).out
  }

  /**
   * `write_tables` as the source has it: the three tables in order, each
   * with the source's `write_table`, which never fails.
   */
  function WriteTablesAsWritten(dir: string, files: Files, t: Tables, z: Zlib, codecs: Codecs, saveRaw: bool)
    : Files
  {
    var f1 := WriteTableAsWritten(files, dir, TableNames[0], t.logph, z, codecs.grid, saveRaw);
    var f2 := WriteTableAsWritten(f1, dir, TableNames[1], t.logpT, z, codecs.grid, saveRaw);
    WriteTableAsWritten(f2, dir, TableNames[2], t.saturation, z, codecs.sat, saveRaw)
  }

  /** The last step of `write_tables`: the saturation table. */
  ghost function WriteSaturation(dir: string, files: Files, t: Tables, z: Zlib, codecs: Codecs, saveRaw: bool)
    : (r: Written)
    requires Writable(z, codecs.sat.pack(t.saturation))
    ensures r.error.None? ==> files.Keys <= r.files.Keys && TableFile(dir, 2) in r.files
    ensures r.error.Some? ==> r.error.value.path == TableFile(dir, 2)
    ensures KeepsOthers(dir, saveRaw, files, r.files)
  {
    match WriteTableSpec(files, dir, TableNames[2], t.saturation, z, codecs.sat, saveRaw)
    case Failure(e) => Written(files, Some(e))
    case Success(f3) => UntouchedKeepsOthers(dir, saveRaw, 2, files, f3); Written(f3, None)
  }

  /** The last two steps of `write_tables`: the log(p)-T table, then the saturation table. */
  ghost function WriteFromLogpT(dir: string, files: Files, t: Tables, z: Zlib, codecs: Codecs, saveRaw: bool)
    : (r: Written)
    requires Writable(z, codecs.grid.pack(t.logpT)) && Writable(z, codecs.sat.pack(t.saturation))
    ensures r.error.None? ==> files.Keys <= r.files.Keys && TableFile(dir, 1) in r.files && TableFile(dir, 2) in r.files
    ensures r.error.Some? ==> r.error.value.path == TableFile(dir, 1) || r.error.value.path == TableFile(dir, 2)
    ensures KeepsOthers(dir, saveRaw, files, r.files)
  {
    match WriteTableSpec(files, dir, TableNames[1], t.logpT, z, codecs.grid, saveRaw)
    case Failure(e) => Written(files, Some(e))
    case Success(f2) =>
      UntouchedKeepsOthers(dir, saveRaw, 1, files, f2);
      var r := WriteSaturation(dir, f2, t, z, codecs, saveRaw);
      KeepsOthersTransitive(dir, saveRaw, files, f2, r.files);
      r
  }

  /**
   * `write_tables` into `dir`: the three tables in order, each with the
   * corrected `write_table`; the first failure stops the rest and leaves
   * the files written so far. Only the backend's own files change.
   */
  ghost function WriteTablesSpec(dir: string, files: Files, t: Tables, z: Zlib, codecs: Codecs, saveRaw: bool)
    : (r: Written)
    requires CanWrite(z, codecs, t)
    ensures r.error.None? ==> CompressedTableFiles(dir) <= r.files.Keys
    ensures r.error.Some? ==> r.error.value.path in CompressedTableFiles(dir)
    ensures KeepsOthers(dir, saveRaw, files, r.files)
  {
    match WriteTableSpec(files, dir, TableNames[0], t.logph, z, codecs.grid, saveRaw)
    case Failure(e) => Written(files, Some(e))
    case Success(f1) =>
      UntouchedKeepsOthers(dir, saveRaw, 0, files, f1);
      var r := WriteFromLogpT(dir, f1, t, z, codecs, saveRaw);
      KeepsOthersTransitive(dir, saveRaw, files, f1, r.files);
      r
  }

  /**
   * `load_tables` from `dir`: the three files in order, each table replaced
   * as soon as its own file loads; the first failure stops the rest and
   * leaves the tables loaded before it replaced.
   */
  ghost function LoadTablesSpec(dir: string, files: Files, prior: Tables, z: Zlib, codecs: Codecs): (r: Loaded)
    requires Loadable(z)
    ensures r.error.Some? ==> r.error.value.path in CompressedTableFiles(dir)
    ensures r.error.Some? ==> r.tables.saturation == prior.saturation
    ensures r.tables.logph != prior.logph ==>
              LoadTableSpec(files, dir, LoadFileNames[0], z, codecs.grid) == Success(r.tables.logph)
    ensures r.tables.logpT != prior.logpT ==>
              LoadTableSpec(files, dir, LoadFileNames[0], z, codecs.grid).Success? &&
              LoadTableSpec(files, dir, LoadFileNames[1], z, codecs.grid) == Success(r.tables.logpT)
    ensures r.error.None? <==>
              LoadTableSpec(files, dir, LoadFileNames[0], z, codecs.grid).Success? &&
              LoadTableSpec(files, dir, LoadFileNames[1], z, codecs.grid).Success? &&
              LoadTableSpec(files, dir, LoadFileNames[2], z, codecs.sat).Success?
  {
    LoadNamesMatchWriteNames();
    match LoadTableSpec(files, dir, LoadFileNames[0], z, codecs.grid)
    case Failure(e) => Loaded(prior, Some(e))
    case Success(t1) =>
      var after1 := prior.(logph := t1);
      match LoadTableSpec(files, dir, LoadFileNames[1], z, codecs.grid)
      case Failure(e) => Loaded(after1, Some(e))
      case Success(t2) =>
        var after2 := after1.(logpT := t2);
        match LoadTableSpec(files, dir, LoadFileNames[2], z, codecs.sat)
        case Failure(e) => Loaded(after2, Some(e))
        case Success(t3) => Loaded(after2.(saturation := t3), None)
  }

  class TabularBackend {
    /** `AS->backend_name()` and `AS->fluid_names()` of the evaluator the backend wraps. */
    const backendName: string
    const fluidNames: seq<string>
    var singlePhaseLogph: GridImage
    var singlePhaseLogpT: GridImage
    var pureSaturation: SatImage

    constructor (backendName: string, fluidNames: seq<string>, t: Tables)
      ensures this.backendName == backendName && this.fluidNames == fluidNames && Contents() == t
    {
      this.backendName := backendName;
      this.fluidNames := fluidNames;
      singlePhaseLogph, singlePhaseLogpT, pureSaturation := t.logph, t.logpT, t.saturation;
    }

    /** The three tables as one value. */
    function Contents(): Tables
      reads this
    {
      Tables(singlePhaseLogph, singlePhaseLogpT, pureSaturation)
    }

    /**
     * `write_tables`: resolve the cache directory under `home` and write the
     * three tables into it, stopping at the first failure.
     */
    method WriteTables(home: string, files: Files, z: Zlib, codecs: Codecs, saveRaw: bool)
      returns (r: Written)
      requires CanWrite(z, codecs, Contents())
      ensures r == WriteTablesSpec(CachePath.PathToTables(home, backendName, fluidNames), files,
                                   Contents(), z, codecs, saveRaw)
    {
      var dir := CachePath.PathToTables(home, backendName, fluidNames);
      var f1 := WriteTable(files, dir, "single_phase_logph", singlePhaseLogph, z, codecs.grid, saveRaw);
      if f1.Failure? {
        return Written(files, Some(f1.error));
      }
      var f2 := WriteTable(f1.value, dir, "single_phase_logpT", singlePhaseLogpT, z, codecs.grid, saveRaw);
      if f2.Failure? {
        return Written(f1.value, Some(f2.error));
      }
      var f3 := WriteTable(f2.value, dir, "pure_saturation", pureSaturation, z, codecs.sat, saveRaw);
      if f3.Failure? {
        return Written(f2.value, Some(f3.error));
      }
      return Written(f3.value, None);
    }

    /**
     * `load_tables`: resolve the cache directory under `home` and replace
     * each table from its compressed file in turn; a failure ends the load
     * with the tables before it already replaced.
     */
    method LoadTables(home: string, files: Files, z: Zlib, codecs: Codecs) returns (err: Option<LoadError>)
      requires Loadable(z)
      modifies this
      ensures Loaded(Contents(), err) ==
              LoadTablesSpec(CachePath.PathToTables(home, backendName, fluidNames), files, old(Contents()), z, codecs)
    {
      var dir := CachePath.PathToTables(home, backendName, fluidNames);
      var t1 := LoadTable(files, dir, "single_phase_logph.bin.z", z, codecs.grid);
      if t1.Failure? {
        return Some(t1.error);
      }
      singlePhaseLogph := t1.value;
      var t2 := LoadTable(files, dir, "single_phase_logpT.bin.z", z, codecs.grid);
      if t2.Failure? {
        return Some(t2.error);
      }
      singlePhaseLogpT := t2.value;
      var t3 := LoadTable(files, dir, "pure_saturation.bin.z", z, codecs.sat);
      if t3.Failure? {
        return Some(t3.error);
      }
      pureSaturation := t3.value;
      return None;
    }
  }

  /** A load reads only the file it is given: other files do not change its result. */
  lemma LoadTableReadsOneFile<T>(files: Files, files': Files, dir: string, filename: string, z: Zlib, codec: Codec<T>)
    requires Loadable(z)
    requires TablePath(dir, filename) in files && TablePath(dir, filename) in files'
    requires files[TablePath(dir, filename)] == files'[TablePath(dir, filename)]
    ensures LoadTableSpec(files, dir, filename, z, codec) == LoadTableSpec(files', dir, filename, z, codec)
  {
  }

  /** The six files of the backend under one directory are pairwise distinct. */
  lemma TableFilesDistinct(dir: string)
    ensures forall k, l :: 0 <= k < 3 && 0 <= l < 3 && k != l ==>
              TableFile(dir, k) != TableFile(dir, l) && RawTableFile(dir, k) != RawTableFile(dir, l)
    ensures forall k, l :: 0 <= k < 3 && 0 <= l < 3 ==> TableFile(dir, k) != RawTableFile(dir, l)
  {
    LoadNamesMatchWriteNames();
    forall k, l | 0 <= k < 3 && 0 <= l < 3
      ensures k != l ==> TableFile(dir, k) != TableFile(dir, l) && RawTableFile(dir, k) != RawTableFile(dir, l)
      ensures TableFile(dir, k) != RawTableFile(dir, l)
    {
      if k != l {
        DistinctNamesDistinctPaths(dir, CompressedFileName(TableNames[k]), CompressedFileName(TableNames[l]));
        DistinctNamesDistinctPaths(dir, RawFileName(TableNames[k]), RawFileName(TableNames[l]));
      }
      DistinctNamesDistinctPaths(dir, CompressedFileName(TableNames[k]), RawFileName(TableNames[l]));
    }
  }

  /** A write of one table leaves the load of any other table's file as it was. */
  lemma LoadSurvivesWrite<T, U>(files: Files, dir: string, filename: string, z: Zlib, codec: Codec<T>,
                                      name: string, table: U, tableCodec: Codec<U>, saveRaw: bool)
    requires Loadable(z) && Writable(z, tableCodec.pack(table))
    requires WriteTableSpec(files, dir, name, table, z, tableCodec, saveRaw).Success?
    requires TablePath(dir, filename) in files
    requires TablePath(dir, filename) != TablePath(dir, CompressedFileName(name))
    requires TablePath(dir, filename) != TablePath(dir, RawFileName(name))
    ensures LoadTableSpec(WriteTableSpec(files, dir, name, table, z, tableCodec, saveRaw).value,
                          dir, filename, z, codec) == LoadTableSpec(files, dir, filename, z, codec)
  {
    LoadTableReadsOneFile(files, WriteTableSpec(files, dir, name, table, z, tableCodec, saveRaw).value,
                          dir, filename, z, codec);
  }

  /** When each of the three files loads, `load_tables` replaces all three tables and succeeds. */
  lemma LoadTablesAllLoaded(dir: string, files: Files, prior: Tables, t: Tables, z: Zlib, codecs: Codecs)
    requires Loadable(z)
    requires LoadTableSpec(files, dir, LoadFileNames[0], z, codecs.grid) == Success(t.logph)
    requires LoadTableSpec(files, dir, LoadFileNames[1], z, codecs.grid) == Success(t.logpT)
    requires LoadTableSpec(files, dir, LoadFileNames[2], z, codecs.sat) == Success(t.saturation)
    ensures LoadTablesSpec(dir, files, prior, z, codecs) == Loaded(t, None)
  {
  }

  /**
   * `load_tables` stops at the first file that fails and reports that
   * file's own error, with the tables before it replaced and the others
   * as they were.
   */
  lemma LoadTablesStopsAtFirstFailure(dir: string, files: Files, prior: Tables, z: Zlib, codecs: Codecs)
    requires Loadable(z)
    ensures var L0 := LoadTableSpec(files, dir, LoadFileNames[0], z, codecs.grid);
            L0.Failure? ==> LoadTablesSpec(dir, files, prior, z, codecs) == Loaded(prior, Some(L0.error))
    ensures var L0 := LoadTableSpec(files, dir, LoadFileNames[0], z, codecs.grid);
            var L1 := LoadTableSpec(files, dir, LoadFileNames[1], z, codecs.grid);
            L0.Success? && L1.Failure? ==>
              LoadTablesSpec(dir, files, prior, z, codecs) == Loaded(prior.(logph := L0.value), Some(L1.error))
    ensures var L0 := LoadTableSpec(files, dir, LoadFileNames[0], z, codecs.grid);
            var L1 := LoadTableSpec(files, dir, LoadFileNames[1], z, codecs.grid);
            var L2 := LoadTableSpec(files, dir, LoadFileNames[2], z, codecs.sat);
            L0.Success? && L1.Success? && L2.Failure? ==>
              LoadTablesSpec(dir, files, prior, z, codecs) ==
              Loaded(prior.(logph := L0.value, logpT := L1.value), Some(L2.error))
  {
  }

  /**
   * The source's `write_tables` always stores all three compressed files,
   * each holding what one compress call left in a buffer the size of the
   * packed table, whatever code compress returned.
   */
  lemma AsWrittenStoresEveryTable(dir: string, files: Files, t: Tables, z: Zlib, codecs: Codecs, saveRaw: bool)
    ensures var r := WriteTablesAsWritten(dir, files, t, z, codecs, saveRaw);
            && TableFile(dir, 0) in r && r[TableFile(dir, 0)] == OneShot(z, codecs.grid.pack(t.logph))
            && TableFile(dir, 1) in r && r[TableFile(dir, 1)] == OneShot(z, codecs.grid.pack(t.logpT))
            && TableFile(dir, 2) in r && r[TableFile(dir, 2)] == OneShot(z, codecs.sat.pack(t.saturation))
  {
    TableFilesDistinct(dir);
    var f1 := WriteTableAsWritten(files, dir, TableNames[0], t.logph, z, codecs.grid, saveRaw);
    var f2 := WriteTableAsWritten(f1, dir, TableNames[1], t.logpT, z, codecs.grid, saveRaw);
    var f3 := WriteTableAsWritten(f2, dir, TableNames[2], t.saturation, z, codecs.sat, saveRaw);
    assert TableFile(dir, 0) in f1 && f1[TableFile(dir, 0)] == OneShot(z, codecs.grid.pack(t.logph));
    assert TableFile(dir, 1) in f2 && f2[TableFile(dir, 1)] == OneShot(z, codecs.grid.pack(t.logpT));
    assert f3[TableFile(dir, 2)] == OneShot(z, codecs.sat.pack(t.saturation));
    assert f2[TableFile(dir, 0)] == f1[TableFile(dir, 0)] by {
      assert TableFile(dir, 0) != TableFile(dir, 1) && TableFile(dir, 0) != RawTableFile(dir, 1);
    }
    assert f3[TableFile(dir, 0)] == f2[TableFile(dir, 0)] && f3[TableFile(dir, 1)] == f2[TableFile(dir, 1)] by {
      assert TableFile(dir, 0) != TableFile(dir, 2) && TableFile(dir, 0) != RawTableFile(dir, 2);
      assert TableFile(dir, 1) != TableFile(dir, 2) && TableFile(dir, 1) != RawTableFile(dir, 2);
    }
  }

  /**
   * The source's `write_tables` stores the packed tables in the raw files
   * when raw tables are saved, and no other file appears, disappears or
   * changes: not even the raw files when raw tables are not saved.
   */
  lemma AsWrittenKeepsOtherFiles(dir: string, files: Files, t: Tables, z: Zlib, codecs: Codecs, saveRaw: bool)
    ensures var r := WriteTablesAsWritten(dir, files, t, z, codecs, saveRaw);
            && (saveRaw ==> RawTableFile(dir, 0) in r && r[RawTableFile(dir, 0)] == codecs.grid.pack(t.logph))
            && (saveRaw ==> RawTableFile(dir, 1) in r && r[RawTableFile(dir, 1)] == codecs.grid.pack(t.logpT))
            && (saveRaw ==> RawTableFile(dir, 2) in r && r[RawTableFile(dir, 2)] == codecs.sat.pack(t.saturation))
            && KeepsOthers(dir, saveRaw, files, r)
  {
    TableFilesDistinct(dir);
    var f1 := WriteTableAsWritten(files, dir, TableNames[0], t.logph, z, codecs.grid, saveRaw);
    var f2 := WriteTableAsWritten(f1, dir, TableNames[1], t.logpT, z, codecs.grid, saveRaw);
    var f3 := WriteTableAsWritten(f2, dir, TableNames[2], t.saturation, z, codecs.sat, saveRaw);
    if saveRaw {
      assert RawTableFile(dir, 0) != TableFile(dir, 1) && RawTableFile(dir, 0) != RawTableFile(dir, 1);
      assert RawTableFile(dir, 0) != TableFile(dir, 2) && RawTableFile(dir, 0) != RawTableFile(dir, 2);
      assert RawTableFile(dir, 1) != TableFile(dir, 2) && RawTableFile(dir, 1) != RawTableFile(dir, 2);
    }
    UntouchedKeepsOthers(dir, saveRaw, 0, files, f1);
    UntouchedKeepsOthers(dir, saveRaw, 1, f1, f2);
    UntouchedKeepsOthers(dir, saveRaw, 2, f2, f3);
    KeepsOthersTransitive(dir, saveRaw, files, f1, f2);
    KeepsOthersTransitive(dir, saveRaw, files, f2, f3);
  }

  /** What the round trip of the cache relies on from miniz: a terminating decompressor that inverts compress. */
  ghost predicate CacheLaws(z: Zlib) {
    Loadable(z) && Inverts(z)
  }

  /** Each of the three tables deserializes back from its own serialized bytes. */
  predicate TablesPackLosslessly(codecs: Codecs, t: Tables) {
    PacksLosslessly(codecs.grid, t.logph) && PacksLosslessly(codecs.grid, t.logpT) &&
    PacksLosslessly(codecs.sat, t.saturation)
  }

  /** The three writes of `write_tables`, one after the other, all succeed, on tables that pack losslessly. */
  ghost predicate WritesSucceed(dir: string, files: Files, t: Tables, z: Zlib, codecs: Codecs, saveRaw: bool,
                                f1: Files, f2: Files, f3: Files) {
    && CanWrite(z, codecs, t) && TablesPackLosslessly(codecs, t)
    && WriteTableSpec(files, dir, TableNames[0], t.logph, z, codecs.grid, saveRaw) == Success(f1)
    && WriteTableSpec(f1, dir, TableNames[1], t.logpT, z, codecs.grid, saveRaw) == Success(f2)
    && WriteTableSpec(f2, dir, TableNames[2], t.saturation, z, codecs.sat, saveRaw) == Success(f3)
  }

  /** The first table loads back from the files all three writes leave. */
  lemma FirstTableLoadsBack(dir: string, files: Files, t: Tables, z: Zlib, codecs: Codecs, saveRaw: bool,
                            f1: Files, f2: Files, f3: Files)
    requires CacheLaws(z) && WritesSucceed(dir, files, t, z, codecs, saveRaw, f1, f2, f3)
    ensures LoadTableSpec(f3, dir, LoadFileNames[0], z, codecs.grid) == Success(t.logph)
  {
    LoadNamesMatchWriteNames();
    TableFilesDistinct(dir);
    WriteThenLoadTable(files, dir, TableNames[0], t.logph, z, codecs.grid, saveRaw);
    assert TablePath(dir, LoadFileNames[0]) == TableFile(dir, 0);
    assert TableFile(dir, 1) == TablePath(dir, CompressedFileName(TableNames[1]));
    assert RawTableFile(dir, 1) == TablePath(dir, RawFileName(TableNames[1]));
    assert TableFile(dir, 2) == TablePath(dir, CompressedFileName(TableNames[2]));
    assert RawTableFile(dir, 2) == TablePath(dir, RawFileName(TableNames[2]));
    LoadSurvivesWrite(f1, dir, LoadFileNames[0], z, codecs.grid, TableNames[1], t.logpT, codecs.grid, saveRaw);
    LoadSurvivesWrite(f2, dir, LoadFileNames[0], z, codecs.grid, TableNames[2], t.saturation, codecs.sat, saveRaw);
  }

  /** The second table loads back from the files all three writes leave. */
  lemma SecondTableLoadsBack(dir: string, files: Files, t: Tables, z: Zlib, codecs: Codecs, saveRaw: bool,
                             f1: Files, f2: Files, f3: Files)
    requires CacheLaws(z) && WritesSucceed(dir, files, t, z, codecs, saveRaw, f1, f2, f3)
    ensures LoadTableSpec(f3, dir, LoadFileNames[1], z, codecs.grid) == Success(t.logpT)
  {
    LoadNamesMatchWriteNames();
    TableFilesDistinct(dir);
    WriteThenLoadTable(f1, dir, TableNames[1], t.logpT, z, codecs.grid, saveRaw);
    assert TablePath(dir, LoadFileNames[1]) == TableFile(dir, 1);
    assert TableFile(dir, 2) == TablePath(dir, CompressedFileName(TableNames[2]));
    assert RawTableFile(dir, 2) == TablePath(dir, RawFileName(TableNames[2]));
    LoadSurvivesWrite(f2, dir, LoadFileNames[1], z, codecs.grid, TableNames[2], t.saturation, codecs.sat, saveRaw);
  }

  /** The third table loads back from the files all three writes leave. */
  lemma ThirdTableLoadsBack(dir: string, files: Files, t: Tables, z: Zlib, codecs: Codecs, saveRaw: bool,
                            f1: Files, f2: Files, f3: Files)
    requires CacheLaws(z) && WritesSucceed(dir, files, t, z, codecs, saveRaw, f1, f2, f3)
    ensures LoadTableSpec(f3, dir, LoadFileNames[2], z, codecs.sat) == Success(t.saturation)
  {
    LoadNamesMatchWriteNames();
    WriteThenLoadTable(f2, dir, TableNames[2], t.saturation, z, codecs.sat, saveRaw);
  }

  /**
   * Round trip of the cache: after `write_tables` succeeds, `load_tables`
   * from the same directory replaces every table with the one written,
   * whatever the tables held before.
   */
  lemma LoadTablesAfterWriteTables(dir: string, files: Files, t: Tables, prior: Tables, z: Zlib,
                                   codecs: Codecs, saveRaw: bool)
    requires CacheLaws(z) && CanWrite(z, codecs, t) && TablesPackLosslessly(codecs, t)
    requires WriteTablesSpec(dir, files, t, z, codecs, saveRaw).error.None?
    ensures LoadTablesSpec(dir, WriteTablesSpec(dir, files, t, z, codecs, saveRaw).files, prior, z, codecs)
            == Loaded(t, None)
  {
    var f1 := WriteTableSpec(files, dir, TableNames[0], t.logph, z, codecs.grid, saveRaw).value;
    var f2 := WriteTableSpec(f1, dir, TableNames[1], t.logpT, z, codecs.grid, saveRaw).value;
    var f3 := WriteTableSpec(f2, dir, TableNames[2], t.saturation, z, codecs.sat, saveRaw).value;
    assert WritesSucceed(dir, files, t, z, codecs, saveRaw, f1, f2, f3);
    FirstTableLoadsBack(dir, files, t, z, codecs, saveRaw, f1, f2, f3);
    SecondTableLoadsBack(dir, files, t, z, codecs, saveRaw, f1, f2, f3);
    ThirdTableLoadsBack(dir, files, t, z, codecs, saveRaw, f1, f2, f3);
    LoadTablesAllLoaded(dir, f3, prior, t, z, codecs);
  }
}
