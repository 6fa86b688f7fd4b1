# CoolProp tabular backend: table building and the table cache

This project models the core of CoolProp's tabular backend
(`src/Backends/Tabular/TabularBackends.cpp`) in Dafny and proves properties of
the model. The backend owns three tables: two single-phase grids, one over
log(p)-h and one over log(p)-T, and one pure-fluid saturation table. It
builds them from an equation-of-state evaluator, writes them to a cache
directory, and loads them back on a later run.

The model covers:

- **Building the saturation table** (`SaturationTable`, imperative). The
  table is a class over two arrays of rows, one for the liquid branch and one
  for the vapor branch. One loop runs over log-spaced pressures and skips an
  index when an update throws. A liquid failure skips the vapor attempt as
  well. A final unguarded update at the critical pressure fills row `N-1` of
  both branches. That row takes the loop's last pressure, not the critical
  pressure, and has no log columns.
- **Building a single-phase grid** (`SinglePhaseTable`, imperative). The grid
  is a class over the x and y sample arrays and one `array3` holding the 32
  grids. A nested loop samples both axes. At each point the build updates the
  state, then:
  - it skips the point when the update throws, the density is not a valid
    number, or the state is two-phase;
  - it writes the five state grids;
  - it writes viscosity and conductivity under their own guard;
  - it issues the 25 derivative requests unguarded, so a throwing request
    ends the whole build.
- **The decompress retry loop** (`Miniz`). The output buffer starts at five
  times the input size and grows five-fold on every "buffer too small"
  answer. The loop stops at the first other answer.
- **One table file** (`TableFiles`). `load_table` reads a file, decompresses
  it and deserializes it, and reports each failure as `UnableToLoadError` for
  that path. `write_table` writes `name.bin.z`, plus `name.bin` when raw
  tables are saved. There are two versions of the write: one as the source
  writes it, and a corrected one (see Findings).
- **The cache directory and the backend** (`CachePath`, `Backend`).
  - `path_to_tables` builds `home/.CoolProp/Tables/backend(fluid1&fluid2…)`.
  - `write_tables` and `load_tables` handle the three tables in a fixed
    order. The first failure stops the rest, and tables loaded before it
    stay replaced.

External pieces are oracles passed in as values of function type:

- the evaluator (`AS->update`, property getters, partial derivatives,
  `generate_update_pair`, triple and critical pressure);
- `exp`, `log` and `ValidNumber`;
- miniz's `compress` and `uncompress`;
- msgpack with each table's `deserialize`.

The filesystem is a map from path to contents. The home directory and the
`SAVE_RAW_TABLES` setting are parameters. A cell the source leaves at its
sentinel value is `Hole`.

Where the design text and the code disagree, the model follows the code:

- The design has compression retry with growth and fail with a compression
  error. The code compresses once and ignores the result code (see Findings).
  This is the one place where the model also gives a corrected version:
  `write_tables` as written is `Backend.WriteTablesAsWritten`, and the
  backend's `WriteTables` method uses the corrected write (see Left out).
- The design says point-level evaluator failures never propagate. In the
  code, the 25 derivative requests and the critical-point update are
  unguarded, so they do propagate.
- The design says a failed load leaves no partial result. The code has
  already replaced the tables loaded before the failure.
- The design names decompression errors separately. The code reports them
  as `UnableToLoadError`.

## Model

| member | source | states |
|---|---|---|
| `CachePath.PathToTablesInjective` | src/Backends/Tabular/TabularBackends.cpp:256-259 | For one home and backend, two non-empty lists of `&`-free fluid names give the same cache directory only if they are the same list |
| `CachePath.PathToTablesOrderMatters` | src/Backends/Tabular/TabularBackends.cpp:258 | The fluid order is part of the directory: `[a, b]` and `[b, a]` give different paths for distinct `&`-free names |
| `CachePath.JoinInjective` | src/Backends/Tabular/TabularBackends.cpp:258 | Joining `&`-free names with `&` is injective on non-empty lists (proved by induction) |
| `CachePath.LoadNamesMatchWriteNames` | src/Backends/Tabular/TabularBackends.cpp:264-272 | The k-th file `load_tables` reads is the compressed file (`name + ".bin" + ".z"`) of the k-th table `write_tables` writes; the six file names are pairwise distinct |
| `Miniz.Grown` | src/Backends/Tabular/TabularBackends.cpp:30-39 | The capacity never shrinks from the first attempt's, is zero exactly when the first one is, and each attempt's is five times the previous one |
| `Miniz.Attempts` | src/Backends/Tabular/TabularBackends.cpp:33-46 | The attempt the loop stops at answers something other than `Z_BUF_ERROR`, and every attempt before it answers `Z_BUF_ERROR` |
| `Miniz.RetryGrowing` | src/Backends/Tabular/TabularBackends.cpp:30-46 | The do-while ends with the first answer that is not `Z_BUF_ERROR`, returned with its output |
| `Miniz.SettledIsTheOnlyOtherAnswer` | src/Backends/Tabular/TabularBackends.cpp:33-46 | When every attempt is either "buffer too small" or one fixed answer, the loop returns that answer |
| `SaturationTable.LiquidFailureSkipsVapor` | src/Backends/Tabular/TabularBackends.cpp:103-113 | A throwing liquid update at a loop index leaves both the liquid row and the vapor row there empty |
| `SaturationTable.VaporFailureOnlyEmptiesVapor` | src/Backends/Tabular/TabularBackends.cpp:114-125 | A throwing vapor update after a successful liquid one empties the vapor row only; the liquid row holds all eight columns of the quality-0 state at that pressure |
| `SaturationTable.CriticalRowShape` | src/Backends/Tabular/TabularBackends.cpp:127-133 | Row `N-1` holds the pressure of loop index `N-2`, and the critical state's T, rhomolar, hmolar, smolar and umolar, with no log columns |
| `SaturationTable.SatPoint` | src/Backends/Tabular/TabularBackends.cpp:99-125 | One iteration writes the liquid and vapor rows of index `i` as the skip rules say, and no other index |
| `SaturationTable.SatLoop` | src/Backends/Tabular/TabularBackends.cpp:96-126 | After the loop, every index below `N-1` holds its liquid and vapor rows, row `N-1` is still empty, and the pressure left over is that of index `N-2` |
| `SaturationTable.PureFluidSaturationTableData.Build` | src/Backends/Tabular/TabularBackends.cpp:85-134 | Both branches are resized to `N` rows. Rows below `N-1` follow the skip rules, and row `N-1` is the critical row in both branches. `ok` is false exactly when the critical update threw, and then row `N-1` is empty |
| `SinglePhaseTable.DerivativeCalls` | src/Backends/Tabular/TabularBackends.cpp:224-252 | The build issues 25 derivative requests, one per derivative grid |
| `SinglePhaseTable.DerivativeCallsPattern` | src/Backends/Tabular/TabularBackends.cpp:224-252 | For each of T, p, rhomolar, hmolar, smolar in that order, the requests are the two first derivatives (by x at constant y, then by y at constant x), then the three second derivatives (xx, xy, yy) |
| `SinglePhaseTable.LinearSampleEndpoints` | src/Backends/Tabular/TabularBackends.cpp:158-161 | A linear axis starts at its minimum and ends at its maximum |
| `SinglePhaseTable.LinearSampleMonotone` | src/Backends/Tabular/TabularBackends.cpp:170-173 | A linear axis over `min <= max` is non-decreasing in its index |
| `SinglePhaseTable.RejectedPointIsHoleEverywhere` | src/Backends/Tabular/TabularBackends.cpp:185-201 | A point whose update throws, whose density is invalid or which is two-phase is a hole in all 32 grids and does not end the build |
| `SinglePhaseTable.TransportFailureIsIndependent` | src/Backends/Tabular/TabularBackends.cpp:206-219 | At an accepted point the five state grids are written. A throwing viscosity leaves both transport grids empty; a throwing conductivity leaves only conductivity empty |
| `SinglePhaseTable.DerivativeCellsArePrefix` | src/Backends/Tabular/TabularBackends.cpp:224-252 | The derivative grids written at a point are a prefix of the request order, and all of them when no request throws |
| `SinglePhaseTable.FillPoint` | src/Backends/Tabular/TabularBackends.cpp:203-252 | Writing an accepted point sets each of its 32 cells to the value the rules give and changes no cell of any other point; `threw` is true exactly when a derivative request threw |
| `SinglePhaseTable.FillDerivatives` | src/Backends/Tabular/TabularBackends.cpp:221-252 | The derivative block writes the derivative grids of the requests that returned before the first throw, and no other cell |
| `SinglePhaseTable.WriteXSample` | src/Backends/Tabular/TabularBackends.cpp:153-162 | Row `i` writes its x sample, keeping the samples of the earlier rows |
| `SinglePhaseTable.SkipPoint` | src/Backends/Tabular/TabularBackends.cpp:191-201 | Skipping a point whose cells all stay holes moves the build's frontier past it |
| `SinglePhaseTable.NextRow` | src/Backends/Tabular/TabularBackends.cpp:163-164 | Finishing row `i` is starting row `i+1`, and every y sample has been written |
| `SinglePhaseTable.VisitPoint` | src/Backends/Tabular/TabularBackends.cpp:178-252 | A visit to `(i, j)` leaves every point before and including it as the build rules say and every later point a hole; it throws exactly when the point is accepted and a derivative throws |
| `SinglePhaseTable.BuildRow` | src/Backends/Tabular/TabularBackends.cpp:163-253 | The inner loop either runs through row `i` with no point throwing, or stops at the first column that throws, with the cells after it left holes |
| `SinglePhaseTable.AbortedIsBuilt` | src/Backends/Tabular/TabularBackends.cpp:224-252 | A build stopped by a throwing derivative at `(i, j)` has visited exactly the points up to `(i, j)` in row-major order |
| `SinglePhaseTable.CompletedIsBuilt` | src/Backends/Tabular/TabularBackends.cpp:151-254 | A build that finishes both loops has visited every point and written every sample |
| `SinglePhaseTable.Resize` | src/Backends/Tabular/TabularBackends.cpp:141 | The resize gives samples and grids of shape `Nx x Ny`, all holes |
| `SinglePhaseTable.BuildGrids` | src/Backends/Tabular/TabularBackends.cpp:141-255 | Every visited point holds its cells and every other point is a hole. The x and y samples are written for the rows and columns reached, and no point passed before the end throws |
| `SinglePhaseTable.SinglePhaseGriddedTableData.Build` | src/Backends/Tabular/TabularBackends.cpp:136-255 | The table's own arrays are replaced by a build over its axes, as `BuildGrids` states, whether or not a derivative threw |
| `TableFiles.LoadTableSpec` | src/Backends/Tabular/TabularBackends.cpp:17-62 | A load fails with `UnableToLoadError` for the file's own path. The failure is "unreadable" exactly when the file is missing; an uncompress failure carries a code other than `Z_OK` and `Z_BUF_ERROR` |
| `TableFiles.LoadTable` | src/Backends/Tabular/TabularBackends.cpp:17-62 | The read, decompress loop and deserialize give what `LoadTableSpec` gives |
| `TableFiles.WriteTableAsWritten` | src/Backends/Tabular/TabularBackends.cpp:64-81 | The source's write stores whatever one compress call left in a buffer the size of the packed bytes as `name.bin.z`. It stores the packed bytes as `name.bin` when raw tables are saved. No other path appears, disappears or changes, including `name.bin` when raw tables are not saved |
| `TableFiles.WriteTableSpec` | src/Backends/Tabular/TabularBackends.cpp:64-81 | The corrected write fails only with a compress code other than `Z_OK` and `Z_BUF_ERROR`, for the `.bin.z` path. On success it stores `name.bin.z`, stores `name.bin` exactly when raw tables are saved. No other path appears, disappears or changes |
| `TableFiles.WriteTable` | src/Backends/Tabular/TabularBackends.cpp:64-81 | The corrected write as steps gives what `WriteTableSpec` gives |
| `TableFiles.WriteThenLoadTable` | src/Backends/Tabular/TabularBackends.cpp:17-81 | After a successful corrected write, loading the table's compressed file gives back the table written, given a decompressor that inverts compress and a table whose own packed bytes deserialize to it |
| `TableFiles.AsWrittenWriteLosesIncompressibleTable` | src/Backends/Tabular/TabularBackends.cpp:70-75 | A table whose compressed form is larger than its packed form cannot be loaded after the source's write. It can be loaded after the corrected write |
| `Backend.WriteSaturation` | src/Backends/Tabular/TabularBackends.cpp:266 | The last corrected write either stores the saturation file or fails for that path. No path outside the compressed files, and the raw files when raw tables are saved, appears, disappears or changes |
| `Backend.WriteFromLogpT` | src/Backends/Tabular/TabularBackends.cpp:265-266 | The last two corrected writes either store both files or fail for one of them. No path outside the compressed files, and the raw files when raw tables are saved, appears, disappears or changes |
| `Backend.WriteTablesSpec` | src/Backends/Tabular/TabularBackends.cpp:261-267 | `write_tables` with the corrected write either stores all three compressed files or fails for one of them. No path outside the compressed files, and the raw files when raw tables are saved, appears, disappears or changes |
| `Backend.AsWrittenStoresEveryTable` | src/Backends/Tabular/TabularBackends.cpp:261-267 | `write_tables` as written stores, for each of the three tables, the output of one compress call on its packed bytes, whatever the result code |
| `Backend.AsWrittenKeepsOtherFiles` | src/Backends/Tabular/TabularBackends.cpp:261-267 | `write_tables` as written stores the packed bytes as the raw files when raw tables are saved. No path outside the compressed files, and the raw files when raw tables are saved, appears, disappears or changes |
| `Backend.LoadTablesSpec` | src/Backends/Tabular/TabularBackends.cpp:268-273 | A failed load names one of the three files and keeps the saturation table. A table is replaced only by what its own file loads, and only after the files before it loaded. The load succeeds exactly when all three files load |
| `Backend.LoadTablesStopsAtFirstFailure` | src/Backends/Tabular/TabularBackends.cpp:268-273 | When a file fails to load, the error is that file's, the tables before it hold what their files loaded, and the later tables keep their earlier values |
| `Backend.TabularBackend.WriteTables` | src/Backends/Tabular/TabularBackends.cpp:261-267 | The method writes into the directory `path_to_tables` gives, as `WriteTablesSpec` says |
| `Backend.TabularBackend.LoadTables` | src/Backends/Tabular/TabularBackends.cpp:268-273 | The method replaces the backend's tables from that directory, as `LoadTablesSpec` says, leaving earlier tables replaced after a failure |
| `Backend.LoadTableReadsOneFile` | src/Backends/Tabular/TabularBackends.cpp:20-24 | A load depends on its own file only |
| `Backend.TableFilesDistinct` | src/Backends/Tabular/TabularBackends.cpp:264-266 | The six files the backend writes under one directory are pairwise distinct |
| `Backend.LoadSurvivesWrite` | src/Backends/Tabular/TabularBackends.cpp:264-272 | Writing one table does not change the load of another table's file |
| `Backend.LoadTablesAllLoaded` | src/Backends/Tabular/TabularBackends.cpp:268-273 | When all three files load, `load_tables` replaces all three tables and succeeds |
| `Backend.FirstTableLoadsBack` | src/Backends/Tabular/TabularBackends.cpp:264-270 | The log(p)-h grid loads back from the files the three corrected writes leave, when each table's packed bytes deserialize to it and decompress inverts compress |
| `Backend.SecondTableLoadsBack` | src/Backends/Tabular/TabularBackends.cpp:265-271 | The log(p)-T grid loads back from the files the three corrected writes leave, when each table's packed bytes deserialize to it and decompress inverts compress |
| `Backend.ThirdTableLoadsBack` | src/Backends/Tabular/TabularBackends.cpp:266-272 | The saturation table loads back from the files the three corrected writes leave, when each table's packed bytes deserialize to it and decompress inverts compress |
| `Backend.LoadTablesAfterWriteTables` | src/Backends/Tabular/TabularBackends.cpp:261-273 | After `write_tables` with the corrected write succeeds, `load_tables` from the same directory replaces every table with the one written, whatever the tables held before, when each table's packed bytes deserialize to it and decompress inverts compress |

## Left out

- Filesystem I/O (`get_binary_file_contents`, `std::ofstream`): modelled as a map from path to contents. A missing path stands for an unreadable file, and a write always succeeds.
- `make_dirs`: directories are not modelled, because the map of files has no directories.
- `get_home_dir` and `SAVE_RAW_TABLES`: parameters (`home`, `saveRaw`), because they are process-wide services.
- `clock()` timing and all debug printing, including the always-true debug flag of the single-phase build: they do not affect control flow.
- miniz's algorithms and msgpack's encoding: external libraries, modelled as oracles (`Engine`, `Codec`). The schema of each table is not modelled.
- The evaluator's internals and `exp`, `log`, `ValidNumber`: foreign or floating-point code, modelled as oracles over `real`. Floating-point rounding is not modelled.
- `SaturationTable.PureFluidSaturationTableData.Build`: requires `N >= 2`, because the spacing divides by `N - 1` and the critical row reuses index `N - 2`. The source does not check this.
- `SinglePhaseTable.SinglePhaseGriddedTableData.Build`: requires `Nx, Ny >= 2`, and a non-zero `ymin` for a log-spaced y axis, because the sample formulas divide by these. The source does not check them.
- `Evaluator.State`: the getters `T()`, `p()`, `rhomolar()`, `hmolar()`, `smolar()` and `umolar()` are modelled as fields that cannot throw. In the source the single-phase build calls them outside any `try` (TabularBackends.cpp:206-210), and a throw there would leave the build. In the saturation loop (TabularBackends.cpp:105-106) a getter's throw is caught, and the row would keep the columns written before it, with the rest holes. Neither case is modelled.
- The tables the backend holds are values (`GridImage`, `SatImage`), the content msgpack packs. How a built table's arrays become that value is not modelled.
- The saturation table's sixteen parallel arrays are modelled as two arrays of eight-field rows. The 32 grids of the single-phase table are one `array3` indexed by grid, then `i`, then `j`.
- The 25 straight-line derivative writes are modelled as a loop over the same requests in the same order.
- `TableFiles.LoadTable`: replaces a table only when deserialization succeeds. A `deserialize` that throws after writing some fields into the table is not modelled.
- `TableFiles.LoadTable`: assumes that `uncompress` does not answer "buffer too small" for an empty file. For an empty file the source's capacity is zero, and five times zero is zero, so such an answer would make the loop run forever.
- `Miniz.RetryGrowing`: assumes the oracle stops answering "buffer too small" once the buffer is large enough, because nothing else makes the source's loop terminate.
- `Backend.WriteSaturation`: composes the corrected write, so it promises a retried compression and an error on a bad code. The source's write never stops on a compress code and may store a truncated buffer; that write is `Backend.WriteTablesAsWritten`.
- `Backend.WriteFromLogpT`: composes the corrected write, for the same reason as `Backend.WriteSaturation`.
- `Backend.WriteTablesSpec`: composes the corrected write, for the same reason as `Backend.WriteSaturation`. What the source's `write_tables` does is stated by `Backend.AsWrittenStoresEveryTable` and `Backend.AsWrittenKeepsOtherFiles`.
- `Backend.LoadTablesAfterWriteTables` and the three `TableLoadsBack` lemmas: hold for the corrected write only. After the source's write a table whose compressed form is no smaller than its packed form does not load back (see Findings).
- `SinglePhaseTable.PointUpdate`: the evaluator's `generate_update_pair` is modelled as total. In the source it is called outside the `try` (TabularBackends.cpp:180), so a throw there would leave the build; that exit is not modelled.
- `Backend.TabularBackend.WriteTables`: uses the corrected write, which retries and reports a compression error. The source's write is modelled on its own by `TableFiles.WriteTableAsWritten` (see Findings).
- Building the three tables from `TabularBackend` and the interpolation that reads them are not part of this model.

## Findings

| source | as written | input that shows it | evidently intended | confidence | as-written member | corrected member |
|---|---|---|---|---|---|---|
| src/Backends/Tabular/TabularBackends.cpp:70-75 | `write_table` calls `compress` once, into a buffer exactly as large as the packed bytes. It ignores the result code and writes whatever the buffer holds as `name.bin.z` | a packed table that does not compress into fewer bytes, such as a one-byte payload under a compressor that adds a header: `compress` answers "buffer too small", the truncated buffer is written, and the next load fails with `Z_DATA_ERROR` | retry with a growing buffer, as `load_table` does, and report any other compress error instead of writing the file | medium; not executed | `TableFiles.WriteTableAsWritten`, `TableFiles.AsWrittenWriteLosesIncompressibleTable`, `Backend.AsWrittenStoresEveryTable` | `TableFiles.WriteTableSpec`, `TableFiles.WriteTable`, `TableFiles.WriteThenLoadTable` |
