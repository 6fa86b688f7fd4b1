/**
 * `load_table` and `write_table`: one table's trip between memory and its
 * compressed file in the cache directory. The filesystem is a map from path
 * to contents; msgpack is a codec given as a pair of functions; miniz is an
 * oracle (see module Miniz).
 */
module TableFiles {
  import opened Common
  import opened Miniz
  import opened CachePath

  /**
   * msgpack for one table type: `pack` is `msgpack::pack`; `unpack` is
   * `msgpack::unpack` followed by the table's `deserialize`, and gives
   * `None` where either throws.
   */
  datatype Codec<!T> = Codec(pack: T -> seq<byte>, unpack: seq<byte> -> Option<T>)

  /** Why a table file could not be loaded. */
  datatype LoadFailure =
    | FileUnreadable            // the file could not be read
    | UncompressFailed(code: int) // uncompress gave a code other than Z_OK and Z_BUF_ERROR
    | DeserializeFailed         // the uncompressed bytes are not a table of this type

  /** `UnableToLoadError`, with the path of the file it is about. */
  datatype LoadError = UnableToLoadError(path: string, why: LoadFailure)

  /** The corrected write's error: compress gave a code other than Z_OK and Z_BUF_ERROR. */
  datatype WriteError = CompressionError(path: string, code: int)

  /** Path to contents, for the files that exist and can be read. */
  type Files = map<string, seq<byte>>

  /** A decompressor the load loop terminates on, even for an empty file. */
  ghost predicate Loadable(z: Zlib) {
    Settles(z.uncompress) && z.uncompress.run([], 0).code != Z_BUF_ERROR
  }

  /** A compressor the retrying write terminates on for the payload `sbuf`. */
  ghost predicate Writable(z: Zlib, sbuf: seq<byte>) {
    Settles(z.compress) && CanGrow(z.compress, sbuf, |sbuf|)
  }

  /** The file of table `filename` under `dir`. */
  function TablePath(dir: string, filename: string): string { dir + "/" + filename }

  /**
   * What `load_table` gives for the file `filename` under `dir`: the table,
   * or `UnableToLoadError` for that file when it cannot be read, when
   * uncompress fails with anything but a too-small buffer, or when the
   * uncompressed bytes do not deserialize. The buffer starts at five times
   * the file's size.
   */
  ghost function LoadTableSpec<T>(files: Files, dir: string, filename: string, z: Zlib, codec: Codec<T>)
    : (r: Result<T, LoadError>)
    requires Loadable(z)
    ensures r.Failure? ==> r.error.path == dir + "/" + filename
    ensures r.Failure? && r.error.why.FileUnreadable? <==> TablePath(dir, filename) !in files
    ensures r.Failure? && r.error.why.UncompressFailed? ==>
              r.error.why.code != Z_OK && r.error.why.code != Z_BUF_ERROR
  {
    var path := TablePath(dir, filename);
    if path !in files then Failure(UnableToLoadError(path, FileUnreadable))
    else
      var raw := files[path];
      var res := Settled(z.uncompress, raw, Growth * |raw|);
      if res.code != Z_OK then Failure(UnableToLoadError(path, UncompressFailed(res.code)))
      else match codec.unpack(res.out)
        case None => Failure(UnableToLoadError(path, DeserializeFailed))
        case Some(t) => Success(t)
  }

  /**
   * `load_table`: read the file, uncompress it into a buffer five times its
   * size that grows five-fold while too small, and deserialize the bytes
   * uncompress produced.
   */
  method LoadTable<T>(files: Files, dir: string, filename: string, z: Zlib, codec: Codec<T>)
    returns (r: Result<T, LoadError>)
    requires Loadable(z)
    ensures r == LoadTableSpec(files, dir, filename, z, codec)
  {
    var path := TablePath(dir, filename);
    if path !in files {
      return Failure(UnableToLoadError(path, FileUnreadable));
    }
    var raw := files[path];
    var res := RetryGrowing(z.uncompress, raw, Growth * |raw|);
    if res.code != Z_OK {
      return Failure(UnableToLoadError(path, UncompressFailed(res.code)));
    }
    match codec.unpack(res.out)
    case None =>
      return Failure(UnableToLoadError(path, DeserializeFailed));
    case Some(t) =>
      return Success(t);
  }

  /**
   * A write of one table opens only its compressed file `zPath` and, when raw
   * tables are saved, its raw file `tabPath`: every other path is present
   * after it exactly when it was before, with the same contents.
   */
  ghost predicate Untouched(files: Files, files': Files, zPath: string, tabPath: string, saveRaw: bool) {
    forall p :: p != zPath && !(saveRaw && p == tabPath) ==>
      (p in files' <==> p in files) && (p in files ==> files'[p] == files[p])
  }

  /**
   * `write_table` as the source has it: pack, compress once into a buffer
   * exactly as large as the packed bytes, and write whatever the buffer
   * holds to `name.bin.z` whatever code compress returned; also write the
   * packed bytes to `name.bin` when raw tables are saved.
   */
  function WriteTableAsWritten<T>(files: Files, dir: string, name: string, table: T, z: Zlib,
                                  codec: Codec<T>, saveRaw: bool): (r: Files)
    ensures TablePath(dir, CompressedFileName(name)) in r
    ensures r[TablePath(dir, CompressedFileName(name))] == z.compress.run(codec.pack(table), |codec.pack(table)|).out
    ensures saveRaw ==> TablePath(dir, RawFileName(name)) in r &&
                        r[TablePath(dir, RawFileName(name))] == codec.pack(table)
    ensures Untouched(files, r, TablePath(dir, CompressedFileName(name)), TablePath(dir, RawFileName(name)), saveRaw)
  {
    var sbuf := codec.pack(table);
    var tabPath := dir + "/" + name + ".bin";
    var zPath := tabPath + ".z";
    var res := z.compress.run(sbuf, |sbuf|);
    var written := files[zPath := res.out];
    assert tabPath == TablePath(dir, RawFileName(name));
    assert zPath == TablePath(dir, CompressedFileName(name));
    if saveRaw then written[tabPath := sbuf] else written
  }

  /**
   * `write_table` corrected: compress with the same retry-with-growth as
   * `load_table`, from a buffer as large as the packed bytes, and fail
   * rather than write when compress reports an error. On success the two
   * files of the table are written and no other file changes.
   */
  ghost function WriteTableSpec<T>(files: Files, dir: string, name: string, table: T, z: Zlib,
                                   codec: Codec<T>, saveRaw: bool): (r: Result<Files, WriteError>)
    requires Writable(z, codec.pack(table))
    ensures r.Failure? ==> r.error.path == TablePath(dir, CompressedFileName(name))
    ensures r.Failure? ==> r.error.code != Z_OK && r.error.code != Z_BUF_ERROR
    ensures r.Success? ==> TablePath(dir, CompressedFileName(name)) in r.value
    ensures r.Success? ==> files.Keys <= r.value.Keys
    ensures r.Success? && saveRaw ==> TablePath(dir, RawFileName(name)) in r.value &&
                                      r.value[TablePath(dir, RawFileName(name))] == codec.pack(table)
    ensures r.Success? && !saveRaw ==>
              r.value.Keys == files.Keys + {TablePath(dir, CompressedFileName(name))}
    ensures r.Success? ==>
              Untouched(files, r.value, TablePath(dir, CompressedFileName(name)), TablePath(dir, RawFileName(name)), saveRaw)
  {
    var sbuf := codec.pack(table);
    var tabPath := TablePath(dir, RawFileName(name));
    var zPath := TablePath(dir, CompressedFileName(name));
    var res := Settled(z.compress, sbuf, |sbuf|);
    if res.code != Z_OK then Failure(CompressionError(zPath, res.code))
    else
      var written := files[zPath := res.out];
      Success(if saveRaw then written[tabPath := sbuf] else written)
  }

  /** The corrected `write_table`, as a sequence of steps. */
  method WriteTable<T>(files: Files, dir: string, name: string, table: T, z: Zlib,
                       codec: Codec<T>, saveRaw: bool) returns (r: Result<Files, WriteError>)
    requires Writable(z, codec.pack(table))
    ensures r == WriteTableSpec(files, dir, name, table, z, codec, saveRaw)
  {
    var sbuf := codec.pack(table);
    var tabPath := TablePath(dir, RawFileName(name));
    var zPath := TablePath(dir, CompressedFileName(name));
    var res := RetryGrowing(z.compress, sbuf, |sbuf|);
    if res.code != Z_OK {
      return Failure(CompressionError(zPath, res.code));
    }
    var written := files[zPath := res.out];
    if saveRaw {
      written := written[tabPath := sbuf];
    }
    return Success(written);
  }

  /** Uncompress undoes a successful compress (given a large enough buffer). */
  ghost predicate Inverts(z: Zlib) {
    forall data: seq<byte>, cap: nat :: z.compress.run(data, cap).code == Z_OK ==>
      forall cap2: nat ::
        z.uncompress.run(z.compress.run(data, cap).out, cap2).code == Z_BUF_ERROR ||
        z.uncompress.run(z.compress.run(data, cap).out, cap2) == ZResult(Z_OK, data)
  }

  /** Deserializing what `table` serializes to gives back `table`. */
  predicate PacksLosslessly<T(==)>(codec: Codec<T>, table: T) {
    codec.unpack(codec.pack(table)) == Some(table)
  }

  /**
   * Round trip of one table: after a successful corrected write, loading the
   * compressed file gives back the table that was written, when the
   * decompressor inverts the compressor and the table's own bytes
   * deserialize to it.
   */
  lemma WriteThenLoadTable<T>(files: Files, dir: string, name: string, table: T, z: Zlib,
                              codec: Codec<T>, saveRaw: bool)
    requires Loadable(z) && Writable(z, codec.pack(table)) && Inverts(z) && PacksLosslessly(codec, table)
    requires WriteTableSpec(files, dir, name, table, z, codec, saveRaw).Success?
    ensures LoadTableSpec(WriteTableSpec(files, dir, name, table, z, codec, saveRaw).value,
                          dir, CompressedFileName(name), z, codec) == Success(table)
  {
    var sbuf := codec.pack(table);
    var res := Settled(z.compress, sbuf, |sbuf|);
    var zPath := TablePath(dir, CompressedFileName(name));
    var written := WriteTableSpec(files, dir, name, table, z, codec, saveRaw).value;
    assert |TablePath(dir, RawFileName(name))| < |zPath|;
    assert written[zPath] == res.out;
    SettledIsTheOnlyOtherAnswer(z.uncompress, res.out, Growth * |res.out|, ZResult(Z_OK, sbuf));
  }

  /** A toy "stored" format: a header byte holding the payload length modulo 256. */
  function Stored(d: seq<byte>): seq<byte> {
    [(|d| % 256) as byte] + d
  }

  /**
   * A compressor writing the stored format. Like miniz's `compress`, it
   * answers `Z_BUF_ERROR` when the output does not fit, leaving the bytes
   * that did fit in the buffer.
   */
  function StoredZlib(): Zlib {
    Zlib(
      Engine((d: seq<byte>, cap: nat) =>
               if cap >= |d| + 1 then ZResult(Z_OK, Stored(d)) else ZResult(Z_BUF_ERROR, Stored(d)[..cap]),
             (d: seq<byte>) => |d| + 1),
      Engine((c: seq<byte>, cap: nat) =>
               if |c| == 0 || c[0] as int != (|c| - 1) % 256 then ZResult(Z_DATA_ERROR, [])
               else if cap >= |c| - 1 then ZResult(Z_OK, c[1..])
               else ZResult(Z_BUF_ERROR, []),
             (c: seq<byte>) => |c|))
  }

  /** Uncompressing what the toy compressor produced gives the payload back. */
  lemma StoredZlibInverts()
    ensures Loadable(StoredZlib()) && Settles(StoredZlib().compress) && Inverts(StoredZlib())
  {
    var z := StoredZlib();
    forall data: seq<byte>, cap: nat | z.compress.run(data, cap).code == Z_OK
      ensures forall cap2: nat ::
        z.uncompress.run(z.compress.run(data, cap).out, cap2).code == Z_BUF_ERROR ||
        z.uncompress.run(z.compress.run(data, cap).out, cap2) == ZResult(Z_OK, data)
    {
      var c := Stored(data);
      assert z.compress.run(data, cap).out == c;
      assert c[1..] == data;
    }
  }

  /** A codec for a table type with one flag. */
  function FlagCodec(): Codec<bool> {
    Codec((t: bool) => if t then [1] else [0],
          (b: seq<byte>) => if b == [1] then Some(true) else if b == [0] then Some(false) else None)
  }

  /**
   * The source's `write_table` loses any table whose packed form does not
   * compress into fewer bytes than it has: the truncated output is written
   * anyway and the next load fails. With the toy compressor, which adds a
   * header byte, the one-byte table `true` written as the source writes it
   * cannot be loaded back, while the corrected write stores it and it loads
   * back.
   */
  lemma AsWrittenWriteLosesIncompressibleTable(files: Files, dir: string, saveRaw: bool)
    ensures Loadable(StoredZlib()) && Writable(StoredZlib(), FlagCodec().pack(true))
    ensures LoadTableSpec(WriteTableAsWritten(files, dir, "pure_saturation", true, StoredZlib(), FlagCodec(), saveRaw),
                          dir, CompressedFileName("pure_saturation"), StoredZlib(), FlagCodec())
            == Failure(UnableToLoadError(TablePath(dir, CompressedFileName("pure_saturation")), UncompressFailed(Z_DATA_ERROR)))
    ensures WriteTableSpec(files, dir, "pure_saturation", true, StoredZlib(), FlagCodec(), saveRaw).Success?
    ensures LoadTableSpec(WriteTableSpec(files, dir, "pure_saturation", true, StoredZlib(), FlagCodec(), saveRaw).value,
                          dir, CompressedFileName("pure_saturation"), StoredZlib(), FlagCodec()) == Success(true)
  {
    var z, codec := StoredZlib(), FlagCodec();
    StoredZlibInverts();
    var name := "pure_saturation";
    var zPath := TablePath(dir, CompressedFileName(name));
    assert codec.pack(true) == [1];
    assert Stored([1]) == [1, 1];
    // as written: one byte of room for two bytes of output
    var asWritten := WriteTableAsWritten(files, dir, name, true, z, codec, saveRaw);
    assert |TablePath(dir, RawFileName(name))| < |zPath|;
    assert z.compress.run([1], 1) == ZResult(Z_BUF_ERROR, [1]);
    assert asWritten[zPath] == [1];
    SettledIsTheOnlyOtherAnswer(z.uncompress, [1], Growth, ZResult(Z_DATA_ERROR, []));
    // corrected: the retry finds room for the header
    assert z.compress.run([1], 5) == ZResult(Z_OK, [1, 1]);
    assert Attempts(z.compress, [1], 1, 1) == 1;
    assert Attempts(z.compress, [1], 1, 0) == 1;
    WriteThenLoadTable(files, dir, name, true, z, codec, saveRaw);
  }
}
