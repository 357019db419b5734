# OSKAR imager, simulator and settings core in Dafny

This project models the sequential core of OSKAR, the radio interferometer simulator and imager. It proves properties of that model.

What is modelled:

- **The imager update engine** (`oskar_imager_update.c`). The model keeps the `oskar_Imager` fields it changes:
  - the plane store: planes, plane norms and weights grids;
  - the statistics of the w coordinates;
  - the five work columns.

  It models these operations:
  - the sort of the five columns by |w|, with the pointer array and the cycle-following loop;
  - `update`, with its loop over channel and polarisation planes;
  - the dispatch and error paths of `update_plane`;
  - `update_weights_grid`;
  - the one-time allocation of planes and grids;
  - `update_from_block`.
- **The imager driver** (`oskar_imager_run.c`):
  - the choice of the OSKAR visibility reader or the table (Measurement Set) reader;
  - the block counts and the time-range test of a block;
  - the coordinate pass before the full pass, each pass stopping at the first failing call;
  - progress reporting;
  - the chunks of table rows;
  - the split of uvw triples and the baseline/channel transpose.
- **The radial weighting kernel** (`private_imager_weight_radial.c`).
- **The Measurement Set writer for a visibility block** (`oskar_vis_block_write_ms.c`):
  - the checks it runs first;
  - the per-station order of autocorrelation and cross-correlation rows;
  - the polarisation expansion;
  - the coordinate assembly;
  - the sequence of table writes.
- **The visibility header constructor** (`oskar_vis_header_create.c`).
- **The block and work-unit arithmetic of the simulator** (`oskar_interferometer_run_block.c`), with the stop at the first failing simulation call.
- **The checked read of a tagged block** from a binary stream (`oskar_binary_stream_read.c`).
- **The deep copy of a station element model** (`oskar_element_copy.c`).
- **The settings value types** `DoubleList`, `DoubleRangeExt`, `Bool` and `InputDirectory`.
- **The settings log walk** (`oskar_settings_log.cpp`).
- **The command-line option parser** (`oskar_option_parser.cpp`).

## How the model is built

Each source file has one module. `Common` holds what the modules share:

- the status codes, which follow OSKAR's convention that every function returns at once when the status is already an error;
- `Option` and `Complex`;
- the precision and type codes of `oskar_Mem`;
- `RealBuffer`, an `oskar_Mem` of real values with its reallocation.

`VisBlockData` holds the visibility block value. The imager and the MS writer both read it.

Objects whose fields the C or C++ code updates in place are Dafny classes, and their methods carry `modifies` clauses. These are the imager, the imager driver, the simulator, the binary stream, the element model, the MS handle, the option parser and the settings types. Each loop of the source is a method with loop invariants. That method is proved against a specification function. The properties the source promises are then proved about that function as lemmas.

Several helpers are not part of this model. They become function-valued parameters, with no invented semantics:

- the gridding kernels (DFT, FFT and W-projection);
- `oskar_imager_select_data`, the time and uv filters, the coordinate and visibility rotations, `oskar_grid_weights_write`, `oskar_imager_check_init` and `sqrt`;
- the simulation of one baseline set;
- the tag index query;
- the settings string utilities (trim, starts_with, string_to_double, double_to_string_2, compare_vectors);
- the result of `ezOptionParser::parse`;
- the dependency test of the settings tree.

Where a property needs something of such a parameter, it is a `requires`. For example, `sqrt` must return the non-negative root. Precision conversion is the identity on values.

## Where the code and its documentation differ

In each case below, the model follows the code.

- **Pol check in the MS writer.** The second polarisation check of `oskar_vis_block_write_ms` (oskar/vis/src/oskar_vis_block_write_ms.c:130-135) compares the table's polarisation count with `num_pols_out`. That value was read from the same table a few lines earlier, so this half of the test never fails. The model keeps the test as written.
- **Reversed time range.** The time-range test of `oskar_imager_run.c` accepts a block when the range is reversed (`time_range[0] > time_range[1] >= 0`) and the block spans it, although no time is then selected (`ReversedRangeSpanned`).
- **Typo in the DoubleRangeExt comment.** The class comment of `DoubleRangeExt` writes the example range as "3.0 >= x >= 10.0". The clamping rules around it mean `3.0 <= x <= 10.0`, and the model uses the inclusive range.
- **Two `oskar_imager_update` signatures.** `oskar_imager_run.c` calls `oskar_imager_update` with an argument list that differs from the definition in `oskar_imager_update.c`. The two files come from different versions of the interface. The driver model therefore records its update calls as values and does not link them to the engine model.
- **`DoubleList::init`** sets the delimiter to a comma whatever its parameter string holds.

## Model

| member | source | states |
|---|---|---|
| ImagerSort.CompareAbsW | oskar/imager/src/oskar_imager_update.c:156-172 | the comparator returns 1, -1 or 0 exactly when abs(w0) is greater than, less than or equal to abs(w1) |
| ImagerSort.CompareIsTotalPreorder | oskar/imager/src/oskar_imager_update.c:156-172 | the comparison is antisymmetric, reflexive and transitive, and it ignores the signs of both arguments, so it orders by absolute value only |
| ImagerSort.Permute | oskar/imager/src/oskar_imager_update.c:192-219 | applying a pointer array gives one entry per pointer, and entry m is the input entry at that pointer |
| ImagerSort.SortPointers | oskar/imager/src/oskar_imager_update.c:190-191 | the pointer array is a permutation of 0..n-1 that lists the rows in non-decreasing order of abs(w) |
| ImagerSort.PutRow | oskar/imager/src/oskar_imager_update.c:204-216 | writing one row changes that row of the five columns and no other row, and leaves the columns beyond n alone |
| ImagerSort.CycleStep | oskar/imager/src/oskar_imager_update.c:202-210 | one step along a cycle moves the pointed-to row into place, marks the slot as fixed, keeps the cycle and pending-row invariant, and strictly reduces the number of unfixed slots |
| ImagerSort.FollowCycle | oskar/imager/src/oskar_imager_update.c:194-218 | following the cycle that starts at slot i places every row of the cycle, fixes slots 0..i, keeps the pointers a permutation and leaves the columns beyond n alone |
| ImagerSort.PlacedIsPermuted | oskar/imager/src/oskar_imager_update.c:192-219 | once every pointer is fixed, each of the five columns equals the input column permuted by one and the same pointer array |
| ImagerSort.PermutedSorted | oskar/imager/src/oskar_imager_update.c:190-191 | permuting w by the sorted pointer array gives a sequence that is non-decreasing in abs(w) |
| ImagerSort.SortByAbsW | oskar/imager/src/oskar_imager_update.c:174-265 | with an error status or no rows nothing changes; otherwise all five columns are permuted by one permutation, ww ends non-decreasing in absolute value, and entries beyond num_vis are untouched |
| ImagerUpdate.PlaneIndexInRange | oskar/imager/src/oskar_imager_update.c:408 | plane index num_im_pols*c+p lies below the number of planes for every channel c and polarisation p in range |
| ImagerUpdate.PlaneIndexInjective | oskar/imager/src/oskar_imager_update.c:408 | distinct (channel, polarisation) pairs update distinct planes |
| ImagerUpdate.PlaneIndexOnto | oskar/imager/src/oskar_imager_update.c:356-408 | every plane is reached by exactly the pair (j / num_im_pols, j % num_im_pols) |
| ImagerUpdate.Allocate | oskar/imager/src/oskar_imager_update.c:617-670 | allocation gives a store with the weights grids, and with the planes and norms unless in coordinate mode, for the given number of planes |
| ImagerUpdate.AllocateOnce | oskar/imager/src/oskar_imager_update.c:624-644 | existing weights grids are kept and missing ones are created empty; planes of plane_size squared cells and zero norms are created only outside coordinate mode and only when absent; allocating twice equals allocating once |
| ImagerUpdate.AccumulatedBounds | oskar/imager/src/oskar_imager_update.c:587-611 | accumulating a batch adds its length to ww_points and the sum of the squares of w to ww_rms, never raises ww_min or lowers ww_max, and leaves every abs(w) of the batch between them |
| ImagerUpdate.AccumulatedMinAttained | oskar/imager/src/oskar_imager_update.c:587-611 | the new ww_min is the old one or the abs(w) of some row of the batch |
| ImagerUpdate.AccumulatedConcat | oskar/imager/src/oskar_imager_update.c:587-611 | accumulating two batches one after the other equals accumulating their concatenation |
| ImagerUpdate.AccumulateW | oskar/imager/src/oskar_imager_update.c:594-610 | the statistics loop over the ww array computes the accumulation of its first n entries |
| ImagerUpdate.SelectFits | oskar/imager/src/oskar_imager_update.c:341-347 | when the selection helper returns no more rows than its input holds, no plane's selection exceeds the work-array size max_num_vis, which is the row count times the channel count unless snapshots are per channel |
| ImagerUpdate.Filter | oskar/imager/src/oskar_imager_update.c:396-400 | a filter keeps exactly the rows it accepts and never adds rows |
| ImagerUpdate.PlaneRows | oskar/imager/src/oskar_imager_update.c:364-400 | the rows that reach a plane are no more than the rows selected |
| ImagerUpdate.PsfRowsHaveUnitAmplitude | oskar/imager/src/oskar_imager_update.c:386-390 | when making a PSF, every row that reaches a plane has amplitude 1 |
| ImagerUpdate.PlaneRowsPassFilters | oskar/imager/src/oskar_imager_update.c:364-400 | every row that reaches a plane comes from a selected row that passed both the time and the uv filters |
| ImagerUpdate.Reweight | oskar/imager/src/oskar_imager_update.c:490-509 | reweighting returns one row per input row |
| ImagerUpdate.WsOf | oskar/imager/src/oskar_imager_update.c:403-405 | the w column of a batch: one entry per row, entry j being row j's w |
| ImagerUpdate.EnsureCells | oskar/imager/src/oskar_imager_update.c:562-565 | a weights grid grown for m cells has at least m cells and keeps its existing cells |
| ImagerUpdate.GridWeightsWritten | oskar/imager/src/oskar_imager_update.c:567-580 | writing the weights of a batch into a grid keeps its size |
| ImagerUpdate.PlaneStepFrame | oskar/imager/src/oskar_imager_update.c:435-548 | one plane update touches only slot i of the store: coordinate mode leaves planes and norms alone, full mode leaves weights grids and w statistics alone, and an error status or an empty batch changes nothing (and at line 551-614) |
| ImagerUpdate.UnknownMethodNotAvailable | oskar/imager/src/oskar_imager_update.c:490-534 | an unknown weighting or algorithm sets FUNCTION_NOT_AVAILABLE and leaves the plane and its norm unchanged |
| ImagerUpdate.WeightingIsApplied | oskar/imager/src/oskar_imager_update.c:490-509 | natural weighting keeps the rows, and radial weighting multiplies each weight by the length sqrt(u*u + v*v) |
| ImagerUpdate.CoordinatePassEffects | oskar/imager/src/oskar_imager_update.c:551-614 | in coordinate mode W-projection counts every row into ww_points, with each abs(w) between ww_min and ww_max; other algorithms leave the statistics alone; uniform weighting leaves the grid with at least grid_size squared cells |
| ImagerUpdate.Imager.AllocatePlanes | oskar/imager/src/oskar_imager_update.c:617-670 | with an error status the store is unchanged; otherwise it becomes Allocate of the old store and is ready for every plane |
| ImagerUpdate.Imager.constructor | oskar/imager/src/oskar_imager_update.c:341-347 | a new imager holds the given configuration, mode, plane store, w statistics and weight buffer, its work arrays start empty until the update sizes them, and it satisfies the imager invariant |
| ImagerUpdate.Imager.UpdateWeightsGrid | oskar/imager/src/oskar_imager_update.c:551-614 | the new status, store and statistics are the weights-grid step applied to the rows in the work columns |
| ImagerUpdate.Imager.ApplyWeighting | oskar/imager/src/oskar_imager_update.c:490-509 | the weighted rows and status are Reweight of the rows in the work columns |
| ImagerUpdate.Imager.UpdatePlane | oskar/imager/src/oskar_imager_update.c:435-548 | the new status, store and statistics are the plane step applied to the rows in the work columns, and the work columns are kept |
| ImagerUpdate.Imager.LoadRows | oskar/imager/src/oskar_imager_update.c:364-374 | after loading, the work columns hold exactly the given rows |
| ImagerUpdate.Imager.LoadBatch | oskar/imager/src/oskar_imager_update.c:403-405 | under W-projection in full mode the work columns hold a permutation of the rows that is sorted by abs(w); otherwise they hold the rows in order |
| ImagerUpdate.Imager.UpdateForPlane | oskar/imager/src/oskar_imager_update.c:360-423 | an empty selection changes nothing; otherwise the store and statistics are the plane step on the filtered rows (sorted by abs(w) under W-projection in full mode) for plane num_im_pols*c+p, and every other slot is unchanged |
| ImagerUpdate.Imager.UpdateChannel | oskar/imager/src/oskar_imager_update.c:358-424 | an error status leaves everything unchanged; the store stays ready; coordinate mode keeps planes and norms, and full mode keeps grids and statistics |
| ImagerUpdate.Imager.UpdateChannels | oskar/imager/src/oskar_imager_update.c:356-425 | the store stays ready; coordinate mode keeps planes and norms, and full mode keeps grids and statistics |
| ImagerUpdate.Imager.Update | oskar/imager/src/oskar_imager_update.c:267-432 | fail-fast order: a prior error changes nothing; one pol with an image type other than I or PSF gives INVALID_ARGUMENT before any allocation; a check_init error is returned; full mode without amplitudes gives MEMORY_NOT_ALLOCATED after the allocation |
| ImagerUpdate.Imager.AllocateWork | oskar/imager/src/oskar_imager_update.c:342-347 | the five work arrays are fresh and have exactly m elements |
| ImagerUpdate.Imager.UpdateAllPlanes | oskar/imager/src/oskar_imager_update.c:341-425 | after sizing the work arrays to max_num_vis, the plane loop keeps the store ready and keeps the part of the state that the mode does not touch |
| ImagerUpdate.Imager.UpdateFromBlock | oskar/imager/src/oskar_imager_update.c:59-153 | a prior error or a block without cross-correlations changes nothing; otherwise the imager takes the frequency, channel count and phase centre of the header |
| ImagerUpdate.PermutedRows | oskar/imager/src/oskar_imager_update.c:403-405 | permuting each of the five columns by one permutation permutes the rows they form |
| ImagerUpdate.UnitWeights | oskar/imager/src/oskar_imager_update.c:93-101 | the weights of a block are all 1 |
| ImagerUpdate.TimeCentroids | oskar/imager/src/oskar_imager_update.c:104-109 | row r gets the centroid of time r / num_baselines, that is start_mjd*86400 + (start_time + t + 0.5)*time_inc |
| ImagerUpdate.ChannelScratch | oskar/imager/src/oskar_imager_update.c:118-127 | the scratch of channel c holds, for each time t, the baselines copied from offset num_baselines*(num_channels*t + c) |
| ImagerUpdate.CopyContents | oskar/imager/src/oskar_imager_update.c:122-126 | oskar_mem_copy_contents writes count elements of the source from src_off into dst from dst_off, and leaves every other element |
| ImagerUpdate.CopyTime | oskar/imager/src/oskar_imager_update.c:122-126 | one time step extends the filled part of the scratch by one time |
| ImagerRun.ChooseReader | oskar/imager/src/oskar_imager_run.c:59-85 | a prior error is returned; a missing or empty file name gives FILE_IO before any reading; otherwise the table reader is chosen exactly when the name ends in ".MS" or ".ms" |
| ImagerRun.TableSuffixExact | oskar/imager/src/oskar_imager_run.c:75-77 | of all three-character endings, only ".MS" and ".ms" select the table reader, so ".Ms" and ".mS" do not |
| ImagerRun.ShortNamesAreVis | oskar/imager/src/oskar_imager_run.c:75 | a name shorter than three characters never selects the table reader |
| ImagerRun.NumBaselinesCountsPairs | oskar/imager/src/oskar_imager_run.c:123 | n(n-1)/2 is the number of unordered station pairs (and at line 305) |
| ImagerRun.NumPols | oskar/imager/src/oskar_imager_run.c:124 | there are 4 polarisations exactly for matrix amplitudes and 1 otherwise |
| ImagerRun.NumBlocksIsCeiling | oskar/imager/src/oskar_imager_run.c:125-126 | the block count is the ceiling of num_times / max_times_per_block |
| ImagerRun.InRangeIsOverlap | oskar/imager/src/oskar_imager_run.c:180-254 | for an ordered or open-ended time range, a block is read exactly when one of its times lies in the range |
| ImagerRun.ReversedRangeSpanned | oskar/imager/src/oskar_imager_run.c:186-187 | a reversed range selects no time, yet a block that spans it is still read |
| ImagerRun.PercentMonotone | oskar/imager/src/oskar_imager_run.c:202 | the percentage done never decreases as blocks complete (and at line 404) |
| ImagerRun.PercentBelowHundred | oskar/imager/src/oskar_imager_run.c:202 | it stays below 100 until the last block completes (and at line 404) |
| ImagerRun.PercentAll | oskar/imager/src/oskar_imager_run.c:202 | it reaches exactly 100 at the end (and at line 404) |
| ImagerRun.Progress | oskar/imager/src/oskar_imager_run.c:202-208 | reports come at most once per block; each raises percent_next by exactly 10; report k is at least 10(k+1) and at most 100; a pass that ends makes a last report of 100 (and at line 404-410) |
| ImagerRun.ProgressStep | oskar/imager/src/oskar_imager_run.c:202-208 | from one block to the next the percentage never falls, and it is 100 only at the last block |
| ImagerRun.VisDone | oskar/imager/src/oskar_imager_run.c:169-202 | after block i, i+1 blocks are done, a strictly increasing count that ends at the block count |
| ImagerRun.InRangeIndices | oskar/imager/src/oskar_imager_run.c:167-187 | the blocks the time-range test lets through, as indices that strictly increase, each of a block in range, with every in-range block among them |
| ImagerRun.VisPassSelects | oskar/imager/src/oskar_imager_run.c:169-200 | call k of a pass is the update call for the k-th block in the time range, so a pass makes one call per in-range block, none for any other block, and makes them in block order (and at line 236-266) |
| ImagerRun.TableChunks | oskar/imager/src/oskar_imager_run.c:372-379 | there is one chunk of table rows per started block of num_baselines rows |
| ImagerRun.ChunkAt | oskar/imager/src/oskar_imager_run.c:372 | chunk k starts at row num_baselines*k, which is below the row count |
| ImagerRun.ChunkStartBelow | oskar/imager/src/oskar_imager_run.c:372 | chunk k exists exactly when its start row is below the row count |
| ImagerRun.ChunksCoverRows | oskar/imager/src/oskar_imager_run.c:372-379 | chunks of 1 to num_baselines rows start at 0, each begins where the last ended, and the last ends at num_rows, so each row is read exactly once |
| ImagerRun.TableDone | oskar/imager/src/oskar_imager_run.c:404 | the rows done after each chunk strictly increase and end at num_rows (and at line 496) |
| ImagerRun.TablePass | oskar/imager/src/oskar_imager_run.c:372-411 | a table pass makes one update call per chunk, in order (and at line 435-503) |
| ImagerRun.TableTimeSettings | oskar/imager/src/oskar_imager_run.c:311-319 | the time settings are kept, or replaced by full time synthesis |
| ImagerRun.RegularDataKeepSettings | oskar/imager/src/oskar_imager_run.c:311-319 | a row count that is a multiple of num_baselines keeps the settings, and one row more forces start 0, end -1 and no snapshots when num_baselines > 1; with a single baseline every row count keeps them |
| ImagerRun.Driver.RunVisPasses | oskar/imager/src/oskar_imager_run.c:152-274 | entered with the status after the header and metadata: the coordinate-only pass runs exactly when weighting is uniform or the algorithm is W-projection, then check_init, then the full pass; each pass stops at the first failing call, nothing runs after a set status, and coordinate mode is off afterwards even after a failure |
| ImagerRun.Driver.constructor | oskar/imager/src/oskar_imager_run.c:96-106 | the driver starts outside coordinate mode with no update calls made |
| ImagerRun.Driver.VisBlocks | oskar/imager/src/oskar_imager_run.c:169-209 | the block loop breaks at a set status: it makes the calls of one pass up to and including the first that fails, and returns that call's status (and at line 236-267) |
| ImagerRun.Driver.RunTablePasses | oskar/imager/src/oskar_imager_run.c:303-503 | a table of fewer than two stations is refused with INVALID_ARGUMENT and no call; otherwise the same two fail-fast passes over the chunks of table rows |
| ImagerRun.Driver.TableChunkPasses | oskar/imager/src/oskar_imager_run.c:358-503 | the coordinate pass when needed, check_init, then the full pass over the chunks, each stopping at the first failing call |
| ImagerRun.Driver.TableRows | oskar/imager/src/oskar_imager_run.c:372-411 | the chunk loop breaks at a set status: it makes the calls of one pass over the chunks up to and including the first that fails, and returns its status (and at line 435-503) |
| ImagerRun.TwoPassesStop | oskar/imager/src/oskar_imager_run.c:152-274 | the two passes make a leading part of the planned calls, none after a status set on entry; the full pass starts only after a clear check_init; the status ends clear exactly when nothing failed, and then every planned call was made (and at line 358-503) |
| ImagerRun.ChunkNext | oskar/imager/src/oskar_imager_run.c:372-379 | chunk k holds min(num_baselines, rows left) rows, and the next chunk exists exactly when start_row + num_baselines is below num_rows and then starts there |
| ImagerRun.FewStationsNeverAdvance | oskar/imager/src/oskar_imager_run.c:305-312 | as written, fewer than two stations give num_baselines = 0, so the row count is divided by zero and start_row stays 0 after any number of steps of the loop at line 372 |
| ImagerRun.TableStatus | oskar/imager/src/oskar_imager_run.c:305-312 | the guard the table reader needs: fewer than two stations give INVALID_ARGUMENT, otherwise the status carries on, and a clear status guarantees num_baselines > 0 |
| ImagerRun.InterleaveIndex | oskar/imager/src/oskar_imager_run.c:390-395 | an interleaved uvw array holds u, v and w of row i at 3i, 3i+1 and 3i+2 |
| ImagerRun.Interleave | oskar/imager/src/oskar_imager_run.c:390-395 | the interleaved uvw array of n rows has 3n values |
| ImagerRun.SplitUvw | oskar/imager/src/oskar_imager_run.c:390-395 | u[i], v[i] and w[i] are taken from uvw[3i], uvw[3i+1] and uvw[3i+2] for every row, and nothing beyond the block changes (and at line 482-487) |
| ImagerRun.SplitIsInverse | oskar/imager/src/oskar_imager_run.c:390-395 | interleaving the split columns gives the uvw array back |
| ImagerRun.OutIndexInRange | oskar/imager/src/oskar_imager_run.c:472 | the output index of the transpose is inside the block |
| ImagerRun.InIndexInRange | oskar/imager/src/oskar_imager_run.c:473 | the input index of the transpose is inside the block |
| ImagerRun.OutIndexInjective | oskar/imager/src/oskar_imager_run.c:472 | distinct (channel, baseline, pol) triples are written to distinct output slots |
| ImagerRun.InIndexInjective | oskar/imager/src/oskar_imager_run.c:473 | distinct triples are read from distinct input slots |
| ImagerRun.TransposeBijective | oskar/imager/src/oskar_imager_run.c:466-478 | every slot of the block is the output index, and also the input index, of exactly the triple its position decodes to, so the transpose is a bijection |
| ImagerRun.Transpose | oskar/imager/src/oskar_imager_run.c:459-479 | out at (c*B+b)*P+p holds in at (b*C+c)*P+p for every channel, baseline and pol |
| ImagerRun.TransposedAll | oskar/imager/src/oskar_imager_run.c:466-478 | once every output slot below C*B*P is written, each triple's output slot holds its input value |
| ImagerRun.TransposeStep | oskar/imager/src/oskar_imager_run.c:472-473 | the assignment for one triple extends the transposed prefix by one slot |
| ImagerRun.TransposeChannel | oskar/imager/src/oskar_imager_run.c:466-478 | each channel pass extends the transposed prefix by one channel |
| ImagerRun.TransposeBaseline | oskar/imager/src/oskar_imager_run.c:468-477 | each baseline pass extends the transposed prefix by one baseline |
| WeightRadial.RadialWeights | imaging/src/private_imager_weight_radial.c:51-63 | one weight per point, each being the input weight times sqrt(u*u + v*v) |
| WeightRadial.RadialWeightSquared | imaging/src/private_imager_weight_radial.c:52-63 | the square of a radial weight is w*w*(u*u + v*v) |
| WeightRadial.OriginGetsZero | imaging/src/private_imager_weight_radial.c:52-63 | a point at u = v = 0 gets weight 0 |
| WeightRadial.NonNegativeWeights | imaging/src/private_imager_weight_radial.c:52-63 | non-negative input weights give non-negative outputs |
| WeightRadial.RadialWeightScales | imaging/src/private_imager_weight_radial.c:52-63 | the weight is linear in the baseline length: scaling u and v by k scales the weight by abs(k) |
| WeightRadial.WeightRadial | imaging/src/private_imager_weight_radial.c:36-65 | an error status changes nothing; otherwise weight_out is reallocated to num_points elements holding the radial weights, and uu, vv and weight_in are only read |
| VisBlockWriteMs.MeasurementSet.WriteVis | oskar/vis/src/oskar_vis_block_write_ms.c:175-196 | a visibility write is recorded after the earlier writes |
| VisBlockWriteMs.MeasurementSet.constructor | oskar/vis/src/oskar_vis_block_write_ms.c:123-150 | the table has its polarisation count, station count, start frequency and phase centre, and no writes yet |
| VisBlockWriteMs.MeasurementSet.WriteCoords | oskar/vis/src/oskar_vis_block_write_ms.c:179-204 | a coordinate write is recorded after the earlier writes |
| VisBlockWriteMs.Checks | oskar/vis/src/oskar_vis_block_write_ms.c:113-150 | no correlations means nothing to write; otherwise too many input pols or a station mismatch gives DIMENSION_MISMATCH, then a frequency or phase-centre difference above 1e-10 gives VALUE_MISMATCH; each outcome holds exactly under its condition |
| VisBlockWriteMs.ScalarToTwoPolsOverflows | oskar/vis/src/oskar_vis_block_write_ms.c:65-70 | as written, a scalar converted for a two-pol table gives four values where two fit |
| VisBlockWriteMs.Convert | oskar/vis/src/oskar_vis_block_write_ms.c:42-70 | the corrected conversion gives exactly num_pols_out values; it agrees with the code except for two-pol tables; a scalar into four pols gives [v, 0, 0, v] |
| VisBlockWriteMs.CrossBeforeAll | oskar/vis/src/oskar_vis_block_write_ms.c:56-63 | the running baseline index at station a1 is a1(2S-1-a1)/2, the number of pairs with a smaller first station |
| VisBlockWriteMs.CrossBeforeBounds | oskar/vis/src/oskar_vis_block_write_ms.c:56-63 | station a1 adds S-1-a1 baselines, and the count never exceeds the number of pairs |
| VisBlockWriteMs.CrossBeforeMonotone | oskar/vis/src/oskar_vis_block_write_ms.c:56-63 | the running baseline index never decreases from station to station |
| VisBlockWriteMs.RowsBeforeLength | oskar/vis/src/oskar_vis_block_write_ms.c:56-63 | the stations before a1 contribute a1 autocorrelation rows (if present) plus their cross rows |
| VisBlockWriteMs.RowsBeforePrefix | oskar/vis/src/oskar_vis_block_write_ms.c:56-63 | the rows of earlier stations come before those of later ones |
| VisBlockWriteMs.RowOrderIn | oskar/vis/src/oskar_vis_block_write_ms.c:56-63 | every output row is an autocorrelation of a station or a cross row (a1, a2) with a1 < a2 and a baseline index in range |
| VisBlockWriteMs.RowsBeforeIn | oskar/vis/src/oskar_vis_block_write_ms.c:56-63 | every row written for the stations before a1 is in range |
| VisBlockWriteMs.CrossRows | oskar/vis/src/oskar_vis_block_write_ms.c:59-61 | station a1 writes n cross rows when n of its partners are taken |
| VisBlockWriteMs.StationRows | oskar/vis/src/oskar_vis_block_write_ms.c:56-63 | station a1 writes one autocorrelation row (if present) and S-1-a1 cross rows (if present) |
| VisBlockWriteMs.RowOrderLength | oskar/vis/src/oskar_vis_block_write_ms.c:117-119 | one channel has S autocorrelation rows (if present) plus S(S-1)/2 cross rows (if present) |
| VisBlockWriteMs.AutoRowAt | oskar/vis/src/oskar_vis_block_write_ms.c:56-63 | station a1's autocorrelation sits at a1 plus the cross rows before it, ahead of its own cross rows |
| VisBlockWriteMs.StationRowAt | oskar/vis/src/oskar_vis_block_write_ms.c:56-63 | row i of station a1 sits in the channel's row order right after the rows of the earlier stations |
| VisBlockWriteMs.CrossRowBaseline | oskar/vis/src/oskar_vis_block_write_ms.c:56-63 | every cross row's baseline index is below the pair count |
| VisBlockWriteMs.CrossRowAt | oskar/vis/src/oskar_vis_block_write_ms.c:56-63 | cross row (a1, a2) sits after station a1's autocorrelation and carries the running baseline index of the pair |
| VisBlockWriteMs.ChannelAutoRow | oskar/vis/src/oskar_vis_block_write_ms.c:39-53 | the autocorrelation slot of station a1 holds the converted autocorrelation of the block for that time, channel and station |
| VisBlockWriteMs.VisOf | oskar/vis/src/oskar_vis_block_write_ms.c:39-53 | the converted amplitudes of a list of rows, one per row |
| VisBlockWriteMs.VisStep | oskar/vis/src/oskar_vis_block_write_ms.c:56-63 | appending a row appends its converted amplitude |
| VisBlockWriteMs.ChannelCrossRow | oskar/vis/src/oskar_vis_block_write_ms.c:39-53 | the slot of pair (a1, a2) holds the converted cross-correlation of its baseline |
| VisBlockWriteMs.ChannelVisLength | oskar/vis/src/oskar_vis_block_write_ms.c:117-119 | with cross-correlations a channel holds num_baseln_out visibilities |
| VisBlockWriteMs.TimeVisLayout | oskar/vis/src/oskar_vis_block_write_ms.c:39-53 | the visibilities of one time are the channels one after another, each of one row-order length |
| VisBlockWriteMs.ChannelsVisAt | oskar/vis/src/oskar_vis_block_write_ms.c:39-53 | in the first n channels of a time, slot R*c + j holds row j of channel c |
| VisBlockWriteMs.ChannelsVisLength | oskar/vis/src/oskar_vis_block_write_ms.c:39-53 | n channels hold R*n values, R being the row-order length |
| VisBlockWriteMs.CoordsAutoRow | oskar/vis/src/oskar_vis_block_write_ms.c:21-37 | autocorrelation rows get u = v = w = 0 |
| VisBlockWriteMs.CoordsOf | oskar/vis/src/oskar_vis_block_write_ms.c:21-37 | the coordinates of a list of rows, one per row |
| VisBlockWriteMs.CoordStep | oskar/vis/src/oskar_vis_block_write_ms.c:21-37 | appending a row appends its coordinate |
| VisBlockWriteMs.CoordsCrossRow | oskar/vis/src/oskar_vis_block_write_ms.c:21-37 | cross row (a1, a2) gets the coordinates of its baseline at that time |
| VisBlockWriteMs.AssembleChannel | oskar/vis/src/oskar_vis_block_write_ms.c:56-63 | the station loop of ASSEMBLE_VIS builds the visibilities of one channel in row order |
| VisBlockWriteMs.AssembleStation | oskar/vis/src/oskar_vis_block_write_ms.c:56-63 | one station appends its autocorrelation and then its cross rows, and advances the baseline counter to the next station's start |
| VisBlockWriteMs.AssembleCross | oskar/vis/src/oskar_vis_block_write_ms.c:56-63 | the inner loop over a2 > a1 appends station a1's cross rows with consecutive baseline indices |
| VisBlockWriteMs.AssembleVis | oskar/vis/src/oskar_vis_block_write_ms.c:39-53 | the channel loop builds the visibilities of one time |
| VisBlockWriteMs.AssembleCoords | oskar/vis/src/oskar_vis_block_write_ms.c:21-37 | the coordinate loop builds uu, vv and ww of one time in row order |
| VisBlockWriteMs.CoordsStation | oskar/vis/src/oskar_vis_block_write_ms.c:21-37 | one station appends its zero autocorrelation coordinates and its baselines' coordinates |
| VisBlockWriteMs.BlockWritesLength | oskar/vis/src/oskar_vis_block_write_ms.c:167-206 | each time makes one visibility write, plus one coordinate write when the block starts at channel 0 |
| VisBlockWriteMs.BlockWritesAt | oskar/vis/src/oskar_vis_block_write_ms.c:167-206 | time t writes its visibilities at row (start_time + t)*num_baseln_out, then (from channel 0 only) its coordinates with the exposure, interval and time centroid |
| VisBlockWriteMs.RowsDisjoint | oskar/vis/src/oskar_vis_block_write_ms.c:174-194 | the rows of an earlier time end before those of a later time begin |
| VisBlockWriteMs.WriteMs | oskar/vis/src/oskar_vis_block_write_ms.c:73-217 | a prior error, nothing to write, or a failed check writes nothing and returns the right status; a precision other than single or double gives BAD_DATA_TYPE; otherwise the table receives exactly the block's writes in time order |
| VisBlockWriteMs.WriteTime | oskar/vis/src/oskar_vis_block_write_ms.c:170-205 | one time appends its visibility write and its coordinate write |
| VisBlockData.CorrIndexInRange | oskar/vis/src/oskar_vis_block_write_ms.c:44-51 | the index of (time, channel, station or baseline) in a correlation array is inside the array |
| VisBlockData.CorrIndexInjective | oskar/vis/src/oskar_vis_block_write_ms.c:44-51 | distinct triples have distinct indices |
| VisBlockData.TwicePairCount | oskar/vis/src/oskar_vis_block_write_ms.c:117-119 | twice the pair count is n(n-1) |
| VisHeaderCreate.TagsPerBlock | oskar/vis/src/oskar_vis_header_create.c:44-46 | a block has between 1 and 6 tags |
| VisHeaderCreate.DefaultMax | oskar/vis/src/oskar_vis_header_create.c:49-57 | a positive maximum per block is kept, and a non-positive one becomes the total |
| VisHeaderCreate.Create | oskar/vis/src/oskar_vis_header_create.c:14-93 | a header is returned exactly when the status was clear, the amplitude type is complex and the allocation succeeded; otherwise the status says which of these failed |
| VisHeaderCreate.CreatedHeader | oskar/vis/src/oskar_vis_header_create.c:44-89 | tags are 1 + 4 (cross) + 1 (auto); the maxima fall back to the totals; the pol type is linear exactly for matrix types; all metadata start at 0; the flags are kept; the station offsets have num_stations elements of coord_precision |
| VisHeaderCreate.CreatedMaximaPositive | oskar/vis/src/oskar_vis_header_create.c:49-57 | with positive totals the header maxima are positive |
| VisHeaderCreate.TagsDetermineFlags | oskar/vis/src/oskar_vis_header_create.c:44-46 | the tag count is 1, 2, 5 or 6, and it determines which correlation types are written |
| InterferometerRunBlock.RangeEnd | oskar/interferometer/src/oskar_interferometer_run_block.c:64-71 | a range end is min(start + max - 1, total - 1) |
| InterferometerRunBlock.NumBlocksPositive | oskar/interferometer/src/oskar_interferometer_run_block.c:58-59 | there is at least one channel block |
| InterferometerRunBlock.BlockIndexSplits | oskar/interferometer/src/oskar_interferometer_run_block.c:58-61 | block_index = i_block_time*num_blocks_chan + i_block_chan, with i_block_chan below num_blocks_chan |
| InterferometerRunBlock.BlockStartInside | oskar/interferometer/src/oskar_interferometer_run_block.c:64-66 | the start of a block that exists is below the total |
| InterferometerRunBlock.RangeSizes | oskar/interferometer/src/oskar_interferometer_run_block.c:55-73 | num_chans_block is between 1 and its maximum, and the channel range lies in [0, total); likewise for times when the time block exists |
| InterferometerRunBlock.ChannelBlocksTile | oskar/interferometer/src/oskar_interferometer_run_block.c:64-73 | consecutive channel blocks meet with no gap or overlap, and the last ends at the last channel |
| InterferometerRunBlock.UnitCalls | oskar/interferometer/src/oskar_interferometer_run_block.c:120-134 | a work unit makes one simulation call per channel of the block |
| InterferometerRunBlock.WorkUnitDecomposes | oskar/interferometer/src/oskar_interferometer_run_block.c:91-96 | a work unit index below num_times_block*total_chunks is i_chunk*num_times_block + i_time, with i_time in range and i_chunk below total_chunks |
| InterferometerRunBlock.UnitsCallsInBlock | oskar/interferometer/src/oskar_interferometer_run_block.c:91-133 | every call has its time and channel inside the block, with simulation indices equal to the block start plus those, and a chunk below the chunk count |
| Common.UntilFailure | oskar/interferometer/src/oskar_interferometer_run_block.c:91-122 | the calls made are a prefix of the calls planned |
| Common.FirstFailureAny | oskar/interferometer/src/oskar_interferometer_run_block.c:91-122 | the run fails exactly when some planned call fails |
| Common.UntilFailureStops | oskar/interferometer/src/oskar_interferometer_run_block.c:91-122 | every call made before the last one succeeded; a failing run ends with the failing call, whose status it returns; a run without failure makes every call |
| Common.UntilFailureAppend | oskar/interferometer/src/oskar_interferometer_run_block.c:83-136 | running two lists of calls one after the other stops in the first when it fails, and otherwise goes on into the second |
| Common.RunFromClear | oskar/imager/src/oskar_imager_run.c:169-171 | a loop that breaks on a set status makes a leading part of its plan, ends with a clear status exactly when it was clear on entry and no call failed, and then makes the whole plan (and at line 236-238) |
| InterferometerRunBlock.Interferometer.RunBlock | oskar/interferometer/src/oskar_interferometer_run_block.c:28-144 | a prior error or a missing header (MEMORY_NOT_ALLOCATED) changes nothing; otherwise the block range is set; coordinate mode makes no calls; else the work units are run until the first failure and the work-unit counter moves past them; the host buffer block_index % 2 receives the block on success |
| InterferometerRunBlock.Interferometer.constructor | oskar/interferometer/src/oskar_interferometer_run_block.c:89-135 | the simulator starts with work unit 0, no previous sky chunk (-1), and no calls or copies made |
| InterferometerRunBlock.Interferometer.RunWorkUnits | oskar/interferometer/src/oskar_interferometer_run_block.c:83-136 | the while loop makes the calls of the work units from the counter up to num_times_block*total_chunks, stopping at the first failure, and returns its status |
| InterferometerRunBlock.Interferometer.RunWorkUnit | oskar/interferometer/src/oskar_interferometer_run_block.c:93-135 | the sky chunk is copied only when it differs from the previous one; the channel calls are made until one fails; the previous chunk index is updated |
| InterferometerRunBlock.Interferometer.RunChannels | oskar/interferometer/src/oskar_interferometer_run_block.c:120-134 | the channel loop makes its calls in order until one fails |
| InterferometerRunBlock.FailureStays | oskar/interferometer/src/oskar_interferometer_run_block.c:91 | once a work unit has failed, later work units add no calls and do not change the status |
| InterferometerRunBlock.FailureStaysSeq | oskar/interferometer/src/oskar_interferometer_run_block.c:122 | once a prefix of the channel calls has failed, the rest add no calls and keep its status |
| InterferometerRunBlock.UnitsStep | oskar/interferometer/src/oskar_interferometer_run_block.c:83-136 | without a failure so far, all planned calls were made and the next work unit adds its own calls until one of them fails, and its status is the run's |
| InterferometerRunBlock.CallsPassGuard | oskar/interferometer/src/oskar_interferometer_run_block.c:164-167 | every planned call passes the block-index guard of sim_baselines, so a call is a no-op exactly when its chunk has no sources |
| InterferometerRunBlock.OffsetMatchesLayout | oskar/interferometer/src/oskar_interferometer_run_block.c:246 | offset num_chans_block*t + c, scaled by the baseline count, is the visibility block's index of (t, c) |
| InterferometerRunBlock.OffsetsDistinct | oskar/interferometer/src/oskar_interferometer_run_block.c:246 | distinct (time, channel) pairs of the block get distinct offsets inside the block |
| InterferometerRunBlock.DispWidthIsDigits | oskar/interferometer/src/oskar_interferometer_run_block.c:263-268 | disp_width is the decimal digit count below 100000 (1 for 0), and 6 from 100000 up |
| InterferometerRunBlock.NumDigits | oskar/interferometer/src/oskar_interferometer_run_block.c:263-268 | the number of decimal digits of v is at least 1 |
| BinaryStreamRead.Available | utility/src/oskar_binary_stream_read.c:65-68 | a read gets the bytes from the position onwards, and all count of them exactly when the file holds them |
| BinaryStreamRead.Stream.Seek | utility/src/oskar_binary_stream_read.c:65 | a seek succeeds exactly for a non-negative offset, and then moves there |
| BinaryStreamRead.Stream.constructor | utility/src/oskar_binary_stream_read.c:65-66 | a stream holds the file's bytes and starts at position 0 |
| BinaryStreamRead.Stream.Read | utility/src/oskar_binary_stream_read.c:66 | a read fills the front of the buffer with the available bytes, leaves the rest alone and advances the position by the count read |
| BinaryStreamRead.ReadBlock | utility/src/oskar_binary_stream_read.c:43-71 | a null argument gives INVALID_ARGUMENT; a missing tag gives the query error; a buffer smaller than the block gives MEMORY_NOT_ALLOCATED; a bad seek or short read gives FILE_IO; the read bytes are the file's bytes at the block offset, and success means all of them |
| BinaryStreamRead.SuccessfulReadIsBlock | utility/src/oskar_binary_stream_read.c:65-70 | on success the buffer holds exactly the file bytes [offset, offset + size) |
| BinaryStreamRead.ReadDouble | utility/src/oskar_binary_stream_read.c:73-79 | a successful read finds the DOUBLE tag and fills the sizeof(double) buffer with its block; a larger block gives MEMORY_NOT_ALLOCATED |
| BinaryStreamRead.ReadInt | utility/src/oskar_binary_stream_read.c:81-87 | the same for the INT tag and sizeof(int) |
| ElementCopy.CopyHandlesLeaders | oskar/telescope/station/element/src/oskar_element_copy.c:60-91 | the destination has each handle the source has, holding the source's data; an existing handle keeps its precision and location; a new one has the destination's precision and location and exists only because the source had one |
| ElementCopy.CopyIntoEmptyIsDeep | oskar/telescope/station/element/src/oskar_element_copy.c:60-91 | copying into an element without handles reproduces every handle's data |
| ElementCopy.CopyFreq | oskar/telescope/station/element/src/oskar_element_copy.c:54-91 | per frequency, the frequency, l_max, coordinate flag and file names are the source's, and the handles are copied |
| ElementCopy.Resized | oskar/telescope/station/element/src/oskar_element_copy.c:48 | a resized per-frequency array has n entries, the old entries where they exist and the empty entry after them |
| ElementCopy.Element.constructor | oskar/telescope/station/element/src/oskar_element_copy.c:41-51 | an element starts with no frequencies, with its precision and memory location |
| ElementCopy.Element.ResizeFreqData | oskar/telescope/station/element/src/oskar_element_copy.c:48 | resizing keeps the leading entries and pads with empty ones |
| ElementCopy.CopyFrequencies | oskar/telescope/station/element/src/oskar_element_copy.c:52-92 | the loop copies every frequency entry |
| ElementCopy.Copy | oskar/telescope/station/element/src/oskar_element_copy.c:36-93 | an error status leaves dst untouched; otherwise dst takes src's type fields and frequency count, every entry is copied, and the memory location is never changed |
| DoubleList.Split | oskar/settings/types/src/oskar_DoubleList.cpp:89-92 | cutting at the delimiter gives at least one piece, and no piece holds the delimiter |
| DoubleList.JoinSplit | oskar/settings/types/src/oskar_DoubleList.cpp:89-115 | joining the pieces gives the string back |
| DoubleList.SplitJoin | oskar/settings/types/src/oskar_DoubleList.cpp:89-115 | splitting a join of delimiter-free strings gives them back |
| DoubleList.TokensJoin | oskar/settings/types/src/oskar_DoubleList.cpp:89-115 | the getline tokens of a join are the joined strings |
| DoubleList.JoinTokens | oskar/settings/types/src/oskar_DoubleList.cpp:89-92 | joining the tokens gives the string back, or the string less one trailing delimiter |
| DoubleList.Values | oskar/settings/types/src/oskar_DoubleList.cpp:89-98 | one value per token, in order |
| DoubleList.Formatted | oskar/settings/types/src/oskar_DoubleList.cpp:109-115 | one formatted string per value, in order |
| DoubleList.IndexOf | oskar/settings/types/src/oskar_DoubleList.cpp:89-92 | the position of the first delimiter in the string |
| DoubleList.DoubleList.FromString | oskar/settings/types/src/oskar_DoubleList.cpp:85-100 | it succeeds exactly when every token converts; the list is then the converted tokens, and otherwise it is unchanged |
| DoubleList.DoubleList.ToString | oskar/settings/types/src/oskar_DoubleList.cpp:107-116 | the formatted values, with the delimiter between consecutive ones only, and "" for an empty list |
| DoubleList.DoubleList.SetValue | oskar/settings/types/src/oskar_DoubleList.cpp:63-68 | it returns the parse result, replaces the value only on success and always rewrites str_value from the value |
| DoubleList.DoubleList.SetDefault | oskar/settings/types/src/oskar_DoubleList.cpp:54-61 | the default likewise, and a default that parses also becomes the value |
| DoubleList.DoubleList.Init | oskar/settings/types/src/oskar_DoubleList.cpp:47-52 | it succeeds and sets the delimiter to a comma |
| DoubleList.DoubleList.constructor | oskar/settings/types/src/oskar_DoubleList.cpp:42-45 | the list starts empty with a comma delimiter |
| DoubleList.DoubleList.Size | oskar/settings/types/src/oskar_DoubleList.cpp:75-78 | the number of values |
| DoubleList.DoubleList.ValuesPointer | oskar/settings/types/src/oskar_DoubleList.cpp:80-83 | null exactly for an empty list, otherwise the values |
| DoubleList.ComparisonsUseValues | oskar/settings/types/src/oskar_DoubleList.cpp:70-105 | is_default compares the value with the default through compare_vectors, and == compares the two values only, so it ignores the defaults and string forms; under a reflexive compare_vectors, equal values give == and a value equal to its default gives is_default |
| DoubleList.FormatRoundTrip | oskar/settings/types/src/oskar_DoubleList.cpp:85-116 | when each double prints as a non-empty string without the delimiter that parses back to itself, the string form of a list reads back as the same list |
| DoubleRangeExt.ClampSpec | oskar/settings/types/oskar_DoubleRangeExt.h:44-66 | a value inside the inclusive range is stored as itself; below the range, ext_min is stored if set and min otherwise; above it, ext_max or max; a stored string is one of the set extended strings |
| DoubleRangeExt.ClampIdempotent | oskar/settings/types/oskar_DoubleRangeExt.h:54-63 | storing a stored double again changes nothing |
| DoubleRangeExt.DefaultRangeIsAllDoubles | oskar/settings/types/oskar_DoubleRangeExt.h:64-66 | the default range [-DBL_MAX, DBL_MAX] keeps every finite double |
| DoubleRangeExt.DoubleRangeExt.constructor | oskar/settings/types/oskar_DoubleRangeExt.h:64-101 | the default state is the range of all doubles, with value and default 0.0 and no extended strings |
| DoubleRangeExt.DoubleRangeExt.Init | oskar/settings/types/oskar_DoubleRangeExt.h:44-53 | init sets the range and the extended strings and keeps the value |
| DoubleRangeExt.DoubleRangeExt.SetValue | oskar/settings/types/oskar_DoubleRangeExt.h:54-63 | the value is stored as the range rules say, and nothing else changes |
| DoubleRangeExt.DoubleRangeExt.SetDefault | oskar/settings/types/oskar_DoubleRangeExt.h:54-63 | the default is stored the same way and also becomes the value |
| DoubleRangeExt.DoubleRangeExt.Min | oskar/settings/types/oskar_DoubleRangeExt.h:84 | min() is the stored minimum |
| DoubleRangeExt.DoubleRangeExt.Max | oskar/settings/types/oskar_DoubleRangeExt.h:85 | max() is the stored maximum |
| DoubleRangeExt.DoubleRangeExt.ExtMin | oskar/settings/types/oskar_DoubleRangeExt.h:86 | ext_min() is the stored string |
| DoubleRangeExt.DoubleRangeExt.ExtMax | oskar/settings/types/oskar_DoubleRangeExt.h:87 | ext_max() is the stored string |
| BoolSetting.Bool.constructor | oskar/settings/types/src/oskar_Bool.cpp:39-42 | default and value start false |
| BoolSetting.Bool.Init | oskar/settings/types/src/oskar_Bool.cpp:48-53 | init returns true and resets both to false |
| BoolSetting.Bool.SetDefault | oskar/settings/types/src/oskar_Bool.cpp:55-60 | both become starts_with(s, "TRUE", false), so is_default holds, and it returns true |
| BoolSetting.Bool.SetValue | oskar/settings/types/src/oskar_Bool.cpp:67-71 | only the value changes, and it returns true |
| BoolSetting.Bool.GetDefault | oskar/settings/types/src/oskar_Bool.cpp:62-65 | the text of the default |
| BoolSetting.Bool.GetValue | oskar/settings/types/src/oskar_Bool.cpp:73-76 | the text of the value |
| BoolSetting.Text | oskar/settings/types/src/oskar_Bool.cpp:62-76 | the text is exactly "true" or "false", and "true" exactly for true |
| BoolSetting.TextRoundTrip | oskar/settings/types/src/oskar_Bool.cpp:55-76 | setting a Bool from another's text copies its truth value |
| BoolSetting.EqualityIgnoresDefault | oskar/settings/types/src/oskar_Bool.cpp:78-91 | == compares values only, so it ignores the defaults, and > never holds |
| InputDirectory.InputDirectory.constructor | oskar/settings/types/src/oskar_InputDirectory.cpp:38-40 | default and value start empty |
| InputDirectory.InputDirectory.Init | oskar/settings/types/src/oskar_InputDirectory.cpp:46-49 | init returns true and changes nothing |
| InputDirectory.InputDirectory.SetDefault | oskar/settings/types/src/oskar_InputDirectory.cpp:51-56 | trim(s) becomes both default and value, so is_default holds |
| InputDirectory.InputDirectory.SetValue | oskar/settings/types/src/oskar_InputDirectory.cpp:63-67 | trim(s) becomes the value only |
| InputDirectory.ComparisonsUseValues | oskar/settings/types/src/oskar_InputDirectory.cpp:58-87 | is_default compares value with default, == compares values only, and > never holds |
| SettingsLog.NodeEntry | oskar/apps/src/oskar_settings_log.cpp:43-51 | an empty value logs the label alone; a value of more than 35 bytes in UTF-8 logs "label: value" as a message; any other value logs a key/value line |
| SettingsLog.Utf8Length | oskar/apps/src/oskar_settings_log.cpp:45 | the strlen of the value: between one and four bytes per character, zero exactly for the empty value, and the character count for ASCII text |
| SettingsLog.LogNodeShape | oskar/apps/src/oskar_settings_log.cpp:38-54 | a node with unsatisfied dependencies logs nothing, its descendants included; a node logs something exactly when it is shown, and its own line comes first |
| SettingsLog.LogNodeDepths | oskar/apps/src/oskar_settings_log.cpp:43-54 | the walk writes no warnings, and everything below a node is deeper than the node |
| SettingsLog.LogChildrenAppend | oskar/apps/src/oskar_settings_log.cpp:53-54 | children are logged in index order |
| SettingsLog.Warnings | oskar/apps/src/oskar_settings_log.cpp:63-65 | one warning "Ignoring 'key'='value'" per failed key, in order |
| SettingsLog.LogEndsWithWarnings | oskar/apps/src/oskar_settings_log.cpp:58-66 | the log is the walk of the root's children at depth 0, with the root itself not logged, followed by exactly one warning per failed key |
| OptionParser.Arg | oskar/settings/src/oskar_option_parser.cpp:191-267 | get_arg(i) exists exactly when i < num_args = (len(first) - 1) + len(last), and it is argument i+1 of first followed by last |
| OptionParser.InputFilesAreArgs | oskar/settings/src/oskar_option_parser.cpp:224-244 | the input files are exactly the arguments get_arg returns, in order |
| OptionParser.HelpText | oskar/settings/src/oskar_option_parser.cpp:96-98 | the help gets " (default = D)" appended exactly when D is non-empty, one argument is expected and the flag is optional |
| OptionParser.UsageGrows | oskar/settings/src/oskar_option_parser.cpp:254-258 | adding a required name inserts " <name>" after the earlier required names, and adding an optional name appends " [name]" |
| OptionParser.Dashes | oskar/settings/src/oskar_option_parser.cpp:56-60 | the footer rule is n dashes |
| OptionParser.FlagNames | oskar/settings/src/oskar_option_parser.cpp:77-105 | a flag has its first name, and its second when given |
| OptionParser.VerdictOrder | oskar/settings/src/oskar_option_parser.cpp:130-178 | check_options tests --help, then --version, then --settings, then missing required flags, then unexpected arguments, then the argument count; it is ready exactly when all pass, and then every required argument exists |
| OptionParser.OptionParser.constructor | oskar/settings/src/oskar_option_parser.cpp:51-64 | the title, version and settings are stored, the footer is built, and every list starts empty |
| OptionParser.OptionParser.AddExample | oskar/settings/src/oskar_option_parser.cpp:71-74 | the example is appended, indented, with a newline |
| OptionParser.OptionParser.AddFlag | oskar/settings/src/oskar_option_parser.cpp:77-88 | one flag that takes no arguments is appended |
| OptionParser.OptionParser.AddFlagWithArgs | oskar/settings/src/oskar_option_parser.cpp:91-105 | one flag is appended with its defaults, argument count and the extended help |
| OptionParser.OptionParser.AddOptional | oskar/settings/src/oskar_option_parser.cpp:107-112 | the name and help are appended to the optional lists |
| OptionParser.OptionParser.AddRequired | oskar/settings/src/oskar_option_parser.cpp:114-119 | the name and help are appended to the required lists |
| OptionParser.OptionParser.PrintUsage | oskar/settings/src/oskar_option_parser.cpp:251-262 | the syntax is the title, " [OPTIONS]", the required names in <> and then the optional names in [] |
| OptionParser.OptionParser.CheckOptions | oskar/settings/src/oskar_option_parser.cpp:130-178 | it adds the info flags, stores the parse, returns true exactly when the verdict is ready, and builds the usage only when it prints it |
| OptionParser.OptionParser.GetInputFiles | oskar/settings/src/oskar_option_parser.cpp:224-244 | the files are the first arguments after the program name when there are enough of them and no trailing arguments, and the trailing arguments otherwise; the result is null exactly for none |
| OptionParser.OptionParser.SetDescription | oskar/settings/src/oskar_option_parser.cpp:269-272 | stores the description |
| OptionParser.OptionParser.SetSettings | oskar/settings/src/oskar_option_parser.cpp:274-277 | stores the settings text |
| OptionParser.OptionParser.SetTitle | oskar/settings/src/oskar_option_parser.cpp:279-282 | stores the title |
| OptionParser.OptionParser.SetVersion | oskar/settings/src/oskar_option_parser.cpp:284-289 | always stores the version, and the displayed version only when show is set |
| Common.RealBuffer.Realloc | imaging/src/private_imager_weight_radial.c:42 | a reallocated buffer has exactly n elements and keeps the leading ones |
| Common.RealBuffer.constructor | imaging/src/private_imager_weight_radial.c:42 | a new buffer has exactly n elements |

## Left out

**Numerics and hardware**
- Floating point: all values are mathematical reals or integers. Single versus double precision is modelled only where it selects a branch.
- GPUs, threads, mutexes, timers, FITS output and logging output are left out. The mutex-guarded work-unit counter is a plain integer.

**Imager**
- `oskar_imager_set_num_planes` is left out because it is not part of this model. `oskar_imager_check_init` gives the status it returns as a parameter.
- The gridding kernels, `select_data`, the filters, the rotations, `linear_to_stokes` and `grid_weights_write` are parameters whose frame is one plane slot. What they compute is not modelled.
- ImagerUpdate.Imager.UpdateChannel: states the frame and the readiness of the store, not the plane-by-plane result. That result is stated per plane by ImagerUpdate.Imager.UpdateForPlane.
- ImagerUpdate.Imager.UpdateChannels: states the frame and the readiness of the store only.
- ImagerUpdate.Imager.UpdateAllPlanes: states the frame and the readiness of the store only.
- ImagerUpdate.Imager.Update: states the error paths and the allocation. The success path does not state the planes.
- ImagerUpdate.Imager.UpdateFromBlock: states the early returns and the metadata it sets. The call to update for each channel is run but not stated. The weights, time centroids and scratch copies are stated by ImagerUpdate.UnitWeights, ImagerUpdate.TimeCentroids and ImagerUpdate.ChannelScratch.
- ImagerUpdate.Reweight: states only the row count. The meaning of each weighting is stated by ImagerUpdate.WeightingIsApplied. Uniform weighting goes through the grid lookup parameter.

**Imager driver**
- The actual reads of binary files and tables are left out, and so is `oskar_imager_finalise`. The driver records the update calls it would make, and the block headers and table rows it would read are given as values.
- The status checks at oskar/imager/src/oskar_imager_run.c:111-116, 138-143 and 330-338 are the status parameter with which the passes are entered. The reads inside a loop iteration and the update call after them are one step. That step's status is a parameter, and so is the status check_init leaves. A failed read in the coordinate pass does not stop the iteration at once; the next iteration then breaks. The model records the call as made, since oskar_imager_update returns at once on a set status. The early `break` after the reads at line 456 is the same step failing. Unlike the coordinate pass, the full table pass then never calls `oskar_imager_update`, yet the model still records that step's call before stopping.
- The dimension read of each block at line 174-177 is taken as succeeding, so a block's dimensions are known whether or not the block is in range.

**Simulator**
- The Jones, beam and correlation evaluation inside `sim_baselines` is left out, along with the horizon clip. The simulation of one call is a parameter that returns a status.
- InterferometerRunBlock.Interferometer.RunBlock: requires a positive `max_channels_per_block` and a positive channel count when the header is present. The source divides by the first and takes `% num_blocks_chan` at oskar/interferometer/src/oskar_interferometer_run_block.c:58-61 without checking either, so its callers must ensure both.

**Visibility blocks and the MS writer**
- When a block has no cross-correlations, the MS writer fills only the autocorrelation rows of its buffer of `num_baseln_out` rows. The model records the assembled rows only.
- `oskar_ms_write_vis` and `oskar_ms_write_coords` are recorded as a log of write values. D2R is a parameter.
- Unsigned and `int` overflow is left out, including the wrap-around of unsigned row indices, because the integers of the model are unbounded.

**Memory, streams and handles**
- Failures of `oskar_mem_create`, `oskar_mem_copy` and `oskar_mem_free` are left out, apart from the allocation flag of the header constructor.
- Errors from the tag-index query appear only as "tag not found". Byte decoding of the read double and int is left out.
- Handles are values, so aliasing between handles is not captured. The element model reads the source before writing so that an element copied onto itself keeps its values.
- Element copy: the per-frequency arrays are grouped as one sequence of records. `oskar_element_resize_freq_data` is taken to keep the leading entries and add empty ones. The copy functions' own statuses are left out.

**Settings types**
- The `DoubleRangeExt` parsing of its init string and set_value from a string are not visible in the header, so the model takes the parsed range and number as inputs.
- The settings tree is a datatype, and `dependencies_satisfied` is a function parameter.

**Option parser**
- `add_settings_options` and `get_double`, `get_int` and `get_string` are left out because they only forward to ezOptionParser.
- The parse itself, including isSet, gotRequired and gotExpected, is taken as given values.
- Printing to stdout and stderr is left out; only the usage syntax string is modelled.
- The `size_t` wrap-around of `num_args` with an empty first-argument list is left out. InputFilesAreArgs requires that first list to be non-empty, which ezOptionParser guarantees by always storing the program name. Arg handles every list and only requires an index of at least -1.

## Findings

| source | as written | input that shows it | evidently intended | confidence | as-written member | corrected member |
|---|---|---|---|---|---|---|
| oskar/vis/src/oskar_vis_block_write_ms.c:65-70 | COPY_SCALAR writes four values per element, whatever the table's polarisation count, into a buffer sized for num_pols_out values per element (lines 153-154) | a scalar block (num_pols_in = 1) written to a table with num_pols_out = 2 | a scalar becomes [v, v], the XX and YY values, for a two-pol table | not executed | VisBlockWriteMs.ScalarToTwoPolsOverflows | VisBlockWriteMs.Convert |
| oskar/imager/src/oskar_imager_run.c:305-312 | the table reader sets num_baselines = n(n-1)/2, divides num_rows by it and steps start_row by it, with no check on the station count | a Measurement Set with one station and at least one row: num_baselines = 0, num_rows / 0 and num_rows % 0 are undefined, and start_row += 0 never ends the loop at line 372 | a table of fewer than two stations is refused with an error status before any division | not executed | ImagerRun.FewStationsNeverAdvance | ImagerRun.TableStatus |
