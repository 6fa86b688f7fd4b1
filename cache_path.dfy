/**
 * Where the tabular backend keeps its tables: one directory per backend and
 * fluid list under the user's home, and three files in it, one per table.
 */
module CachePath {

  /** Separator between fluid names in the directory name. */
  const FluidSeparator: string := "&"

  /** The fixed part of the path between the home directory and the backend name. */
  const TablesRoot: string := "/.CoolProp/Tables/"

  /** `strjoin`: the names with `sep` between consecutive ones. */
  function Join(names: seq<string>, sep: string): string {
    if |names| == 0 then ""
    else if |names| == 1 then names[0]
    else names[0] + sep + Join(names[1..], sep)
  }

  /** `path_to_tables`: `home/.CoolProp/Tables/backend(fluid1&fluid2&...)`. */
  function PathToTables(home: string, backendName: string, fluids: seq<string>): string {
    home + TablesRoot + backendName + "(" + Join(fluids, FluidSeparator) + ")"
  }

  /** `name` does not contain the fluid separator. */
  predicate NoSeparator(name: string) {
    forall k :: 0 <= k < |name| ==> name[k] != '&'
  }

  /**
   * Joining with `&` loses nothing when no name contains `&`: two non-empty
   * lists of such names join to the same string only if they are equal.
   */
  lemma {:induction false} JoinInjective(xs: seq<string>, ys: seq<string>)
    requires |xs| > 0 && |ys| > 0
    requires forall k :: 0 <= k < |xs| ==> NoSeparator(xs[k])
    requires forall k :: 0 <= k < |ys| ==> NoSeparator(ys[k])
    requires Join(xs, FluidSeparator) == Join(ys, FluidSeparator)
    ensures xs == ys
    decreases |xs|
  {
    var j := Join(xs, FluidSeparator);
    if |xs| == 1 && |ys| == 1 {
    } else if |xs| == 1 {
      SeparatorAfterHead(ys);
      assert false;
    } else if |ys| == 1 {
      SeparatorAfterHead(xs);
      assert false;
    } else {
      SeparatorAfterHead(xs);
      SeparatorAfterHead(ys);
      var a, b := xs[0], ys[0];
      if |a| < |b| {
        assert false;
      } else if |b| < |a| {
        assert false;
      }
      assert a == j[..|a|] == b;
      var restX, restY := Join(xs[1..], FluidSeparator), Join(ys[1..], FluidSeparator);
      assert restX == j[|a| + 1..];
      assert restY == j[|b| + 1..];
      JoinInjective(xs[1..], ys[1..]);
      assert xs == [a] + xs[1..];
      assert ys == [b] + ys[1..];
    }
  }

  /** In a join of two or more names the head is followed by the separator. */
  lemma SeparatorAfterHead(names: seq<string>)
    requires |names| > 1
    ensures |Join(names, FluidSeparator)| > |names[0]|
    ensures Join(names, FluidSeparator)[..|names[0]|] == names[0]
    ensures Join(names, FluidSeparator)[|names[0]|] == '&'
    ensures Join(names, FluidSeparator)[|names[0]| + 1..] == Join(names[1..], FluidSeparator)
  {
  }

  /**
   * The cache directory tells fluid lists apart: for one home directory and
   * one backend, two non-empty lists of `&`-free fluid names share a
   * directory only if they are the same list, in the same order.
   */
  lemma PathToTablesInjective(home: string, backendName: string, xs: seq<string>, ys: seq<string>)
    requires |xs| > 0 && |ys| > 0
    requires forall k :: 0 <= k < |xs| ==> NoSeparator(xs[k])
    requires forall k :: 0 <= k < |ys| ==> NoSeparator(ys[k])
    requires PathToTables(home, backendName, xs) == PathToTables(home, backendName, ys)
    ensures xs == ys
  {
    var prefix := home + TablesRoot + backendName + "(";
    var jx, jy := Join(xs, FluidSeparator), Join(ys, FluidSeparator);
    var px, py := PathToTables(home, backendName, xs), PathToTables(home, backendName, ys);
    assert px == prefix + jx + ")";
    assert py == prefix + jy + ")";
    assert jx == px[|prefix|..|px| - 1];
    assert jy == py[|prefix|..|py| - 1];
    JoinInjective(xs, ys);
  }

  /**
   * The order of the fluids is part of the directory: a mixture listed as
   * `a&b` is cached apart from the same mixture listed as `b&a`.
   */
  lemma PathToTablesOrderMatters(home: string, backendName: string, a: string, b: string)
    requires a != b && NoSeparator(a) && NoSeparator(b)
    ensures PathToTables(home, backendName, [a, b]) != PathToTables(home, backendName, [b, a])
  {
    if PathToTables(home, backendName, [a, b]) == PathToTables(home, backendName, [b, a]) {
      PathToTablesInjective(home, backendName, [a, b], [b, a]);
    }
  }

  /** The names under which `write_tables` writes the three tables, in order. */
  const TableNames: seq<string> := ["single_phase_logph", "single_phase_logpT", "pure_saturation"]

  /** The uncompressed file of a table, written only when raw tables are saved. */
  function RawFileName(name: string): string { name + ".bin" }

  /** The compressed file of a table. */
  function CompressedFileName(name: string): string { RawFileName(name) + ".z" }

  /** The file names `load_tables` reads, spelled out literally there, in order. */
  const LoadFileNames: seq<string> := ["single_phase_logph.bin.z", "single_phase_logpT.bin.z", "pure_saturation.bin.z"]

  /**
   * `load_tables` reads back exactly the compressed files `write_tables`
   * writes, table by table in the same order, and the six files the two
   * write are pairwise distinct.
   */
  lemma LoadNamesMatchWriteNames()
    ensures |LoadFileNames| == |TableNames| == 3
    ensures forall k :: 0 <= k < 3 ==> LoadFileNames[k] == CompressedFileName(TableNames[k])
    ensures forall k, l :: 0 <= k < 3 && 0 <= l < 3 && k != l ==>
              CompressedFileName(TableNames[k]) != CompressedFileName(TableNames[l]) &&
              RawFileName(TableNames[k]) != RawFileName(TableNames[l])
    ensures forall k, l :: 0 <= k < 3 && 0 <= l < 3 ==>
              CompressedFileName(TableNames[k]) != RawFileName(TableNames[l])
  {
    forall k, l | 0 <= k < 3 && 0 <= l < 3
      ensures CompressedFileName(TableNames[k]) != RawFileName(TableNames[l])
    {
      var c, r := CompressedFileName(TableNames[k]), RawFileName(TableNames[l]);
      assert c[|c| - 1] == 'z' && r[|r| - 1] == 'n';
    }
  }

  /** Files under one directory are distinct when their names are. */
  lemma DistinctNamesDistinctPaths(dir: string, a: string, b: string)
    requires a != b
    ensures dir + "/" + a != dir + "/" + b
  {
    var p := dir + "/";
    assert (p + a)[|p|..] == a && (p + b)[|p|..] == b;
  }
}
