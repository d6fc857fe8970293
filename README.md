# Blowout: a verified model of the simulation bookkeeping

Blowout simulates the plasma-wakefield "blowout" regime slice by slice. A
drive bunch crosses a plasma. The transverse positions `x, y` and normalised
velocities `bx, by` of a swarm of plasma electrons are kept in four
`(num_steps × num_parts)` arrays, one row per longitudinal slice `xi`. The
driver `SimFrame.sim` fills row `i + 1` from row `i`. First the positions
take an explicit Euler step with the old velocities. Then each particle's
velocity is kicked by the drive's field through `dbetadt`. For every row,
the ion cavity ("bubble") is extracted from a 2-D histogram of the electron
positions. On completion, one timestamp goes to the electrons, the ions, the
drive and the frame.

The model covers that core in Dafny:

- `SimFramework`: the frame as a class over the four `array2<real>` fields,
  with `sim` as a method. Its contract relates every row to the one before it.
  It also states the exact run of ion-cavity calls and where an error stops
  them, and how the timestamp is handed out.
- `Electrons`: the swarm of blowout/electrons.py with its grid and
  quadrant-symmetric random initialisers.
- `Generate`: the older classes of blowout/generate.py. These are the
  swarm that carries its own slice grid, the plain random box, the raising
  `timestamp` getters, and the filename derivation that keeps an explicit
  name bare.
- `Ions`: the per-step stores of blowout/ions.py. This covers the step
  counter, which slot each extraction writes and in which order, the pixel of
  the axis, and the flattening of the ragged per-slice fit records into a
  column table.
- `Support` and `Plasma`: the two-state completion timestamp (raising and
  non-raising), filename derivation through `strftime`, the dispatch of
  `_write_data`, and the column filtering of `_read_dict`.
- `Formulas`: `gamma` and `dbetadt` over exact reals. A gamma is a positive
  `g` with `g² (1 − βx² − βy²) = 1` rather than a square root.
- `Numerics`: the numpy operations used (`linspace`, `meshgrid`, `flatten`,
  row views and row assignment, `round`, Python's negative indexing).
- `Wrappers`: `Option`, `Result` and `Outcome`. Python exceptions become the
  `Support.Error` values of a `Result`.

Floating-point numbers are modelled as `real`. Random draws and the local
time are inputs. The drive's field, the particle gamma and the
image-processing library calls are function parameters.

## Model

| member | source | states |
|---|---|---|
| SimFramework.SimFrame.constructor | blowout/simframework.py:19-23 | a new frame holds the drive, swarm and ions it was given, and no timestamp |
| SimFramework.SimFrame.Sim | blowout/simframework.py:25-77 | with no slices, IndexError before any extraction. Otherwise the ion slots, counter and outcome are those of the run of `add_ion_ellipse` calls on rows 0…n−1 stopping at the first error. The rows satisfy `Ran`: each position row reached is the previous one drifted, each velocity row is the previous one kicked, and row 0 and the unreached rows are unchanged. On success, all four objects hold `now`; on failure, no timestamp changes |
| SimFramework.SimFrame.Push | blowout/simframework.py:39-68 | the loop and the last extraction leave rows and slots satisfying `Pushed` |
| SimFramework.SimFrame.Slices | blowout/simframework.py:39-66 | the loop stops at the first failed extraction. Its rows are those of `count` successful extractions, and the calls made agree with `Feed` |
| SimFramework.SimFrame.SimStep | blowout/simframework.py:39-66 | one pass over slice `i`: the rows become `SliceStep` of the old rows, the ions' counter advances by one, and the slots are those `AddAt` gives |
| SimFramework.SimFrame.DriftStage | blowout/simframework.py:44-45 | row `i + 1` of `x`, `y` becomes row `i` drifted with the old velocities; the other rows are unchanged |
| SimFramework.SimFrame.CavityStage | blowout/simframework.py:50 | the cavity of row `i` goes to the slot the counter names, with the counter advanced |
| SimFramework.SimFrame.KickStage | blowout/simframework.py:51-66 | row `i + 1` of `bx`, `by` becomes `KickRows` of row `i` at slice `xi_bubble[i]`; the other rows are unchanged |
| SimFramework.SimFrame.ExtractLast | blowout/simframework.py:68 | the extraction on the last row completes the run of calls over every row, or is where it fails |
| SimFramework.SimFrame.Complete | blowout/simframework.py:73-77 | the frame, drive, swarm, ions and both parameter objects all hold the same timestamp |
| SimFramework.SimFrame.PushPositions | blowout/simframework.py:44-45 | row `i + 1` of the positions is row `i` drifted; every other row is unchanged |
| SimFramework.SimFrame.KickCells | blowout/simframework.py:51-66 | cell `(i + 1, j)` of `bx`, `by` is `Advance` of the row-`i` cell; every other cell is unchanged |
| SimFramework.SimFrame.PushVelocities | blowout/simframework.py:51-66 | row `i + 1` of the velocities is `KickRows` of row `i`; every other row is unchanged |
| SimFramework.Drive.constructor | blowout/drive.py:15-22 | the drive holds its `gamma`, and reading its timestamp raises RuntimeError |
| SimFramework.Feed | blowout/simframework.py:39-68 | a run of calls keeps the slot count; success means every row was extracted; failure is an IndexError before the last row |
| SimFramework.FeedExtend | blowout/simframework.py:39-68 | after a failed call, later rows change nothing |
| SimFramework.FeedStep | blowout/simframework.py:39-50 | after a successful prefix, one more call is `AddAt` at the next counter value |
| SimFramework.FeedAdvance | blowout/simframework.py:39-50 | a successful prefix plus the call on row `i` either extends the successful run or is where the whole run stops |
| SimFramework.FeedSlots | blowout/simframework.py:39-68 | slots outside the range the calls reached keep their contents, and each slot a successful call reached holds a fit result |
| SimFramework.Kick | blowout/simframework.py:55-60 | the rate of change is zero where the drive's field vanishes, or when the drive's `gamma` is 0 |
| SimFramework.Advance | blowout/simframework.py:65-66 | in a vanishing field the velocity is unchanged |
| SimFramework.Drift | blowout/simframework.py:44-45 | particle `j` moves to `r[j] + b[j]·c·dt`, using the old velocity |
| SimFramework.DriftAtRest | blowout/simframework.py:44-45 | particles at rest do not move |
| SimFramework.KickRows | blowout/simframework.py:51-66 | one new velocity per particle |
| SimFramework.KickRowsAt | blowout/simframework.py:51-66 | particle `j`'s new velocity is its own `Advance`, independent of the other particles |
| SimFramework.KickRowsFieldFree | blowout/simframework.py:51-66 | where the field vanishes at every particle, the velocities are unchanged |
| SimFramework.IndexField | blowout/simframework.py:60 | numpy's `E[k]`: a pair yields entry `k` for `-2 <= k < 2`; a complex scalar, and any other index, raises IndexError |
| SimFramework.KickOneAsWritten | blowout/simframework.py:55-66 | one particle as written: the step succeeds exactly when the field value is an indexable pair, and otherwise raises IndexError |
| SimFramework.KickOneFromParts | blowout/simframework.py:55-66 | handed the real and imaginary parts as a pair, one particle's step is the model's `Advance` |
| SimFramework.KickRowsAsWritten | blowout/simframework.py:51-66 | the particle loop as written, for any field function: a full row of velocities, or the IndexError of the first failed `E[0]` / `E[1]` |
| SimFramework.KickRowsAsWrittenRaises | blowout/simframework.py:55-60 | with `E_fields` returning one complex number, the loop raises IndexError exactly when the row has a particle |
| SimFramework.KickRowsFromParts | blowout/simframework.py:51-66 | handed the real and imaginary parts as the pair `(Ex, Ey)`, the loop completes and writes exactly `KickRows`, the rows the model's `Sim` uses |
| SimFramework.DriftStep | blowout/simframework.py:44-45 | drifting row `i` extends the drifted prefix by one row |
| SimFramework.DriftedUnderKick | blowout/simframework.py:44-66 | writing a velocity row past the drifted prefix keeps the prefix drifted |
| SimFramework.KickStep | blowout/simframework.py:51-66 | kicking row `i` extends the kicked prefix by one row |
| SimFramework.KickedUnderDrift | blowout/simframework.py:44-66 | writing a position row past the kicked prefix keeps the prefix kicked |
| SimFramework.RanBeyond | blowout/simframework.py:39-68 | with no rows left, one more successful extraction changes nothing more |
| SimFramework.RanAtRest | blowout/simframework.py:39-66 | with no field and all particles at rest in row 0, every row reached equals row 0 |
| SimFramework.SliceStep | blowout/simframework.py:39-66 | one pass: row `i + 1` of the positions is drifted; the velocities are kicked only when the extraction passed |
| SimFramework.ProgressStep | blowout/simframework.py:39-66 | a completed slice extends the loop's progress and keeps the shape of the arrays |
| SimFramework.ProgressFailed | blowout/simframework.py:39-66 | a failed extraction at slice `i` leaves the rows of a run with `i` successful extractions |
| SimFramework.ProgressDone | blowout/simframework.py:39-68 | a loop over all slices but the last leaves the rows of `n − 1` successful extractions |
| SimFramework.PushedAfterFail | blowout/simframework.py:39-68 | a failure inside the loop is the outcome of the whole run |
| SimFramework.PushedAfterLast | blowout/simframework.py:39-68 | after the loop, the last extraction decides the outcome of the whole run |
| Electrons.PlasmaE.constructor | blowout/electrons.py:15-28 | four distinct arrays of `num_steps × num_parts`; reading the timestamp raises |
| Electrons.PlasmaE.Grid | blowout/electrons.py:81-107 | `num_pts²` particles; row 0 is the flattened meshgrid of the two linspaces; row-0 velocities are 0; `num_parts` reports `num_pts²` |
| Electrons.PlasmaE.Random | blowout/electrons.py:128-145 | `4·(requested div 4)` particles; row 0 is the draws mirrored into four blocks; row-0 velocities are 0 |
| Electrons.PlasmaE.NumParts | blowout/electrons.py:116-121 | the reported particle count is always the width of the arrays |
| Electrons.PlasmaE.SetTimestamp | blowout/electrons.py:44-46 | stamps both the swarm and its plasma parameters |
| Electrons.NewGrid | blowout/electrons.py:81-107 | the grid initialiser with the particle count `num_pts²`: IndexError exactly when there are no slices, otherwise the grid |
| Electrons.NewGridAsWritten | blowout/electrons.py:82-85 | every call raises NameError on `num_parts` |
| Electrons.NewRandom | blowout/electrons.py:128-145 | IndexError exactly when there are no slices, otherwise the mirrored swarm |
| Electrons.Zeros | blowout/electrons.py:106-107 | `n` zeros |
| Electrons.GridX | blowout/electrons.py:103-104 | one `x` per grid point |
| Electrons.GridY | blowout/electrons.py:103-105 | one `y` per grid point |
| Electrons.GridIndex | blowout/electrons.py:103-105 | particle `k < n²` of the grid has row `k div n` and column `k mod n`, both below `n` |
| Electrons.GridAt | blowout/electrons.py:97-105 | grid particle `k` sits at `(x_vec[k mod n], y_vec[k div n])` |
| Electrons.GridAxisEnds | blowout/electrons.py:97-98 | the axes run from `−mag` to `mag` |
| Electrons.GridInBox | blowout/electrons.py:97-105 | every grid point lies in `[−x_mag, x_mag] × [−y_mag, y_mag]` |
| Electrons.QuadrantCount | blowout/electrons.py:129-133 | the count used is a multiple of 4, at most the request and within 4 of it |
| Electrons.ScaleDraws | blowout/electrons.py:140-141 | each draw is scaled by the magnitude |
| Electrons.MirrorXAt | blowout/electrons.py:140-142 | `x[k] = x[k+2q]` and `x[k+q] = x[k+3q] = −x[k]` |
| Electrons.MirrorYAt | blowout/electrons.py:141-143 | `y[k] = y[k+q]` and `y[k+2q] = y[k+3q] = −y[k]` |
| Electrons.MirroredDrawsBounded | blowout/electrons.py:140-143 | draws in `[0, 1)` give positions strictly inside `(−mag, mag)` |
| Generate.Drive.constructor | blowout/generate.py:113-119 | the drive holds its parameters, and reading its timestamp raises |
| Generate.PlasmaE.constructor | blowout/generate.py:196-215 | `dt · c = dxi`; four distinct `(len(xi_bubble) × num_parts)` arrays; reading the timestamp raises |
| Generate.PlasmaE.Grid | blowout/generate.py:305-334 | `num_parts = num_pts²`; row 0 is on the grid and at rest; `num_parts` reports `num_pts²` |
| Generate.PlasmaE.Random | blowout/generate.py:355-372 | exactly `num_parts` particles at the spread draws, at rest |
| Generate.PlasmaE.NumParts | blowout/generate.py:343-348 | AttributeError exactly for the base class; otherwise the array width |
| Generate.Spread | blowout/generate.py:369-370 | one position per draw |
| Generate.SpreadAt | blowout/generate.py:369-370 | a draw in `[0, 1)` lands in `[−mag, mag)` and can be recovered from its position |
| Generate.RandomInBox | blowout/generate.py:369-370 | every particle of the random box starts in `[−x_mag, x_mag) × [−y_mag, y_mag)` |
| Generate.GridParticle | blowout/generate.py:324-332 | grid particle `k` sits at `(x_vec[c], y_vec[r])` with `r = k div n`, `c = k mod n`, both below `n` |
| Generate.NewGrid | blowout/generate.py:305-334 | IndexError exactly when there are no slices, otherwise the grid at rest |
| Generate.NewRandom | blowout/generate.py:355-372 | IndexError exactly when there are no slices, otherwise the spread draws at rest |
| Generate.TimestampToFilenameLegacy | blowout/generate.py:382-395 | an explicit name is returned bare. Otherwise the name is the timestamp, or the local time when the read raised RuntimeError, formatted with the pattern. Any other error propagates |
| Generate.LegacyFilenameTotal | blowout/generate.py:386-393 | a raising getter never makes the name fail; with no timestamp the local time is used |
| Generate.LegacyAgreesOnDerivedNames | blowout/generate.py:382-395 | derived names agree with blowout/support.py; an explicit name differs exactly by the suffix |
| Ions.PlasmaIons.constructor | blowout/ions.py:26-39 | counter 0; seven stores of `num_steps` slots each, the object ones empty; reading the timestamp raises |
| Ions.PlasmaIons.AddIonEllipse | blowout/ions.py:144-209 | without a step index the counter supplies the slot and advances by one; with an index it is unchanged. An out-of-range slot raises IndexError and writes nothing. Otherwise only that slot changes, as `Extract` says |
| Ions.PlasmaIons.ExtractInto | blowout/ions.py:159-209 | the slot becomes `Extract` of its old contents; nothing else changes |
| Ions.PlasmaIons.FitInto | blowout/ions.py:173-209 | the slot becomes `Fit` of its contents; nothing else changes |
| Ions.PlasmaIons.StoreImage | blowout/ions.py:160 | only the image of slot `s` changes |
| Ions.PlasmaIons.StoreCenter | blowout/ions.py:166-167 | only the centre indices of slot `s` change |
| Ions.PlasmaIons.StoreEllipse | blowout/ions.py:182 | only the stored region of slot `s` changes |
| Ions.PlasmaIons.StoreFit | blowout/ions.py:188-207 | only the properties, boundaries and fit of slot `s` change |
| Ions.PlasmaIons.SaveResults | blowout/ions.py:41-74 | stores the flattened table exactly when flattening succeeds; otherwise it reports the error and keeps the old table (longest-entry rule, corrected; the as-written rule is `FlattenResults(·, LastLength)`) |
| Ions.PlasmaIons.SetTimestamp | blowout/ions.py:83-85 | stamps both the ions and their plasma parameters |
| Ions.CenterBounds | blowout/ions.py:212-221 | when the extent holds the origin, the unrounded centre lies in `[0, rows]` on each axis |
| Ions.CenterIsAxisPixel | blowout/ions.py:215-221 | the unrounded centre is `rows·(0 − min)/(max − min)` on each axis |
| Ions.ImgCenterRounds | blowout/ions.py:212-223 | the centre indices are within half a pixel of the unrounded centre, and inside the image when the extent holds the origin |
| Ions.LabelAtIndex | blowout/ions.py:174 | the label lookup fails, with IndexError, exactly when an index is out of range after wrap-around |
| Ions.RegionMembers | blowout/ions.py:175 | the region has the label image's shape and holds exactly the pixels with the centre's label |
| Ions.CenterInRegion | blowout/ions.py:174-175 | the centre pixel belongs to its region |
| Ions.AddAt | blowout/ions.py:144-209 | a call at counter `slot` changes at most that slot; past the end it raises IndexError |
| Ions.ExtractEffect | blowout/ions.py:159-209 | writes happen in store order, and an IndexError keeps what was written before it. Success exactly when the centre is in range and the closed region has properties |
| Ions.StoredRegionIsUnclosed | blowout/ions.py:175-201 | the stored region is the one before closing; the fit is made on the boundary of the closed one, at twice its centroid |
| Ions.FieldOf | blowout/ions.py:56 | `result[name]`: TypeError for an unfilled slot, ValueError for a missing field |
| Ions.FieldLengths | blowout/ions.py:55-56 | one length per step |
| Ions.FieldLengthsAt | blowout/ions.py:55-56 | the lengths exist exactly when every step has the field, and are its lengths in order |
| Ions.FieldLengthsStep | blowout/ions.py:55-56 | one more step appends its length or ends with its error |
| Ions.FieldLengthsExtend | blowout/ions.py:55-56 | an error in a prefix of the steps is the error of all of them |
| Ions.MaxLen | blowout/ions.py:54-58 | the running maximum bounds every length and is one of them (0 for none) |
| Ions.MaxLenStep | blowout/ions.py:57-58 | one more length updates the maximum as the loop does |
| Ions.ColumnFormat | blowout/ions.py:60-63 | `object` exactly when the rule's length exceeds 1 (or the first dtype is object); otherwise the first step's dtype |
| Ions.ColumnFormatOf | blowout/ions.py:52-63 | a column's format exists exactly when its lengths do |
| Ions.Formats | blowout/ions.py:52-63 | one format per name |
| Ions.FormatsAt | blowout/ions.py:52-63 | the formats exist exactly when every column's does, and are those formats in order |
| Ions.FormatsStep | blowout/ions.py:52-63 | one more column appends its format or ends with its error |
| Ions.FormatsExtend | blowout/ions.py:52-63 | an error in a prefix of the names is the error of all of them |
| Ions.CellOf | blowout/ions.py:71 | an object cell takes the whole array; a scalar cell needs exactly one value, else ValueError |
| Ions.CellAt | blowout/ions.py:71 | a stored cell holds the field's values |
| Ions.FillRowCells | blowout/ions.py:70-71 | a flattened row holds, under each name, exactly that field's values |
| Ions.FillRowSucceeds | blowout/ions.py:70-71 | a row flattens when every cell does |
| Ions.FillRowExtend | blowout/ions.py:70-71 | an error in a prefix of the names is the row's error |
| Ions.FillRows | blowout/ions.py:69-71 | one row per step |
| Ions.FillRowsAt | blowout/ions.py:69-71 | row `i` is step `i` flattened |
| Ions.FillRowsSucceeds | blowout/ions.py:69-71 | the rows flatten when every row does |
| Ions.FillRowsExtend | blowout/ions.py:69-71 | an error in a prefix of the steps is the error of all of them |
| Ions.FlattenResults | blowout/ions.py:41-74 | IndexError with no steps, AttributeError when slot 0 was never filled. On success the columns are exactly `results[0]`'s names, in order, with one format each and one row per step |
| Ions.FlattenedCell | blowout/ions.py:65-71 | row `i`, column `name` holds exactly `results[i][name]` |
| Ions.ObjectColumns | blowout/ions.py:54-63 | with the longest-entry rule, a column is `object` exactly when some step's entry has more than one value (or the first dtype is object) |
| Ions.FlattenTotal | blowout/ions.py:52-71 | with the longest-entry rule, flattening succeeds whenever every step holds a record with the first step's fields, none empty |
| Ions.RaggedLengths | blowout/ions.py:54-58 | the lengths of the ragged column are 2 then 1 |
| Ions.RaggedFormats | blowout/ions.py:54-63 | the last-length rule types the ragged column as float; the longest-entry rule types it `object` |
| Ions.RaggedLastFails | blowout/ions.py:65-71 | under the float format, step 0's two values raise ValueError |
| Ions.RaggedMaxFlattens | blowout/ions.py:52-71 | the ragged column flattens under the longest-entry rule |
| Ions.LastLengthRejectsRagged | blowout/ions.py:60-71 | the as-written rule raises ValueError on the ragged column; the longest-entry rule flattens it as `object` |
| Ions.MeasureColumn | blowout/ions.py:54-58 | the inner loop yields the maximum of the lengths, or the first error |
| Ions.LayoutFormats | blowout/ions.py:52-63 | the outer loop yields `Formats` under the longest-entry rule |
| Ions.FillRowLoop | blowout/ions.py:70-71 | the name loop yields `FillRow` |
| Ions.FillTable | blowout/ions.py:69-71 | the step loop yields `FillRows` |
| Support.ReadStamp | blowout/support.py:35-40 | the stored time, or RuntimeError with the source's message while there is none; the `timestamp` getters of every class, including generate.py's `Drive` and `PlasmaE` (lines 121-126 and 259-264, the same code), read their stamp through it |
| Support.Timestamp.constructor | blowout/support.py:29-30 | no value; reading raises RuntimeError |
| Support.Timestamp.SetTimestamp | blowout/support.py:32-33 | after setting `t`, reading returns `t` |
| Support.RaisingRead | blowout/support.py:17-21 | reading a Timestamp object returns a time exactly when one is stored |
| Support.TimestampToFilename | blowout/support.py:10-25 | an explicit name gets `.{ftype}.h5`. Otherwise the stored time is formatted, or the local time when the read raised RuntimeError. It fails exactly for a read that returned None (TypeError) or raised something else |
| Support.TimestampToFilenameCorrected | blowout/support.py:17-23 | as above, but a read that returned None also falls back to the local time |
| Support.ParamsFilenameBeforeCompletion | blowout/support.py:17-23 | parameters without a timestamp cannot name their file as written, and can once corrected |
| Support.CorrectedFilenameTotal | blowout/support.py:17-23 | the corrected derivation never fails for either kind of getter |
| Support.FormatNameParts | blowout/support.py:23 | the formatted name is the formatted time followed by the suffix, unchanged |
| Support.FilenameSuffix | blowout/support.py:15-23 | every derived name ends in `.{ftype}.h5` |
| Support.StampPatternClosed | blowout/support.py:23 | every `%` of the time pattern starts a directive |
| Support.WriteDataRoute | blowout/support.py:86-90 | object data goes to the array writer; everything else to the scalar writer |
| Support.VisibleNamesMember | blowout/support.py:101-104 | a key is kept exactly when it does not start with `_` |
| Support.VisibleNamesAppend | blowout/support.py:101-104 | filtering keeps the keys' order |
| Support.RefsGroupsNeverRead | blowout/support.py:44 | the `_refs_<name>` groups are never read back as columns |
| Support.ReadDictLayout | blowout/support.py:93-110 | the layout is the visible keys in order. NotImplementedError for a visible key without references; IndexError when no key is visible |
| Plasma.PlasmaParams.constructor | blowout/plasma.py:14-23 | returns its arguments unchanged; `dt · c = dxi`; `num_steps = len(xi_bubble)`; the timestamp is None |
| Plasma.PlasmaParams.SetTimestamp | blowout/plasma.py:25-30 | after setting `t`, the getter returns `t` and never raises |
| Formulas.GammaAtRest | blowout/formulas.py:19 | `gamma(0, 0) = 1` |
| Formulas.GammaAtLeastOne | blowout/formulas.py:19 | a gamma exists only below the speed of light, and is at least 1 |
| Formulas.GammaUnique | blowout/formulas.py:19 | the defining relation fixes gamma |
| Formulas.GammaSymmetric | blowout/formulas.py:19 | invariant under sign flips and under swapping the axes |
| Formulas.DBetaDt | blowout/formulas.py:46-58 | zero field gives zero derivative |
| Formulas.DBetaDtLorentzForm | blowout/formulas.py:50-56 | equals `e/(γ m c)·(E − β(β·E))` |
| Formulas.DBetaDtPower | blowout/formulas.py:50-56 | `β·dβ/dt = e/(γ m c)·(β·E)(1 − β²)` |
| Formulas.DBetaDtLinear | blowout/formulas.py:55-56 | linear in the field |
| Formulas.DBetaDtAtRest | blowout/formulas.py:50-56 | at rest the derivative is `e/(m c)·(Ex, Ey)` |
| Formulas.DBetaDtSwap | blowout/formulas.py:55-56 | swapping the axes of velocity and field swaps the components |
| Formulas.DBetaDtIgnoresPosition | blowout/formulas.py:46-58 | the position does not enter |
| Numerics.Linspace | blowout/electrons.py:97-98 | `n` points |
| Numerics.LinspaceEnds | blowout/electrons.py:97-98 | the end points are the bounds |
| Numerics.LinspaceUniform | blowout/electrons.py:97-98 | consecutive points are one step apart, the overwritten last one included |
| Numerics.LinspaceBounded | blowout/electrons.py:97-98 | every point lies between the bounds |
| Numerics.MeshgridX | blowout/electrons.py:103 | one copy of the `x` axis per `y` value |
| Numerics.MeshgridY | blowout/electrons.py:103 | row `r` repeats `y_vec[r]` |
| Numerics.FlattenAt | blowout/electrons.py:104-105 | flat index `k` of an `rows × n` array is row `k div n`, column `k mod n` |
| Numerics.FlatMeshgridAt | blowout/electrons.py:103-105 | flat grid point `k` is `(x_vec[k mod n], y_vec[k div n])` |
| Numerics.FlatMeshgridLength | blowout/electrons.py:103-105 | one entry per grid point |
| Numerics.Row | blowout/simframework.py:50 | the row view holds that row's cells |
| Numerics.AssignRow | blowout/electrons.py:104-107 | `a[i, :] = v` changes row `i` to `v` and nothing else |
| Numerics.PyIndex | blowout/ions.py:174 | negative indices count from the end; anything outside `[−len, len)` raises IndexError |
| Numerics.RoundHalfEven | blowout/ions.py:223 | the nearest integer, with ties going to the even one |

## Left out

- The field formulas of blowout/Efield.py (the Faddeeva function `wofz`,
  `exp`, `sqrt`) are floating-point special functions and are not modelled.
  As written, `E_fields` (blowout/drive.py:59-65, and its older copy at
  blowout/generate.py:163-169, which passes `charge` instead of `q`) returns
  one complex number, so `E[0]` at blowout/simframework.py:60 raises
  IndexError (see "## Findings"). The model's drive field is the function
  parameter `eFields(x, y, xi)`, and it reads `(Ex, Ey)` as that number's
  real and imaginary parts.
- SimFramework.SimFrame.Sim: the particle gamma is the parameter `gammaOf`,
  required positive. `gamma` is not computed, because it needs a square root.
  Velocities at or above the speed of light, where numpy produces `nan` or
  `inf`, are not modelled.
- SimFramework.Drive.constructor: the drive of blowout/drive.py is reduced to
  its `gamma` and its timestamp. `sx`, `sy`, `sz` and `charge` only feed the
  field, which is a parameter. Its `write` is file output.
- The image-processing calls of `add_ion_ellipse` are the opaque functions of
  `Ions.Pipeline`: the histogram, labelling, binary closing, region
  properties, boundaries and Hough ellipse fit. So are the plotting of
  `draw_ellipse` (blowout/ions.py:126-142) and `perf_counter` timing.
- The debugger stop `ipdb.set_trace()` in `_save_results` (blowout/ions.py:73)
  is not modelled; the model continues as if it returned at once.
- HDF5 I/O is not modelled: every `write` method, blowout/load.py, the bodies
  of `_write_arrays`, `_write_scalars` and `_read_arrays`, the value-reading
  loop of `_read_dict` and `_checkversion`. That includes the `yind` dataset
  written from `_xind` (blowout/ions.py:113). Only the routing of
  `_write_data`, the name of the `_refs_` groups and the column layout of
  `_read_dict` are modelled.
- `scisalt.numpy.linspacestep` (blowout/plasma.py:20, blowout/generate.py:205)
  is not part of this model. The slice grid `xi_bubble` is an input.
- Randomness and the clock are inputs: `np.random.rand` gives the draws `u`,
  `v`, and `time.localtime()` gives `now`. `strftime` is modelled only for the
  six directives the filename pattern uses.
- Logging, the progress bar of `sim` and the repository's driver and plotting scripts are not
  modelled.
- `formulas.a` (blowout/formulas.py:25-40) is an older acceleration that `sim`
  does not call.
- Floating point is modelled as exact `real` arithmetic, so rounding in
  `linspace`, the Euler steps and `dbetadt` is not captured.
  `numpy.round` is modelled exactly (half to even).
- The `Drive` of blowout/generate.py has no setter for its timestamp, so the
  model has none either. Its property getters (`sx` … `gamma`) are constants
  of the class.
- Electrons.PlasmaE.Grid, Electrons.PlasmaE.Random, Generate.PlasmaE.Grid and
  Generate.PlasmaE.Random require at least one slice. The IndexError that
  writing row 0 raises without one is the error path of the matching
  `NewGrid` / `NewRandom` method.
- Support.Strftime: the fields of `Time` are unbounded naturals and every value
  is formatted, whereas `time.strftime` raises ValueError for out-of-range
  fields such as month 13. `sim` only stamps `time.localtime()`, whose fields
  are always in range.
- Ions.PlasmaIons.AddIonEllipse: the centre indices are stored as the rounded
  integers converted to `real`, as numpy does when it stores them in a float
  array. The histogram's bin count of 200 lives inside the opaque `hist2d`.

## Findings

| source | as written | input that shows it | evidently intended | confidence | as-written member | corrected member |
|---|---|---|---|---|---|---|
| blowout/electrons.py:84 | `PlasmaE_Grid` passes `num_parts` to the base constructor, but no such name is defined in `__init__`, so NameError is raised | any call, e.g. `PlasmaE_Grid(2, 1.0, 1.0, params)` | pass `num_pts * num_pts`, as blowout/generate.py:310 does and as the `num_parts` property (line 121) reports | not executed | Electrons.NewGridAsWritten | Electrons.NewGrid |
| blowout/ions.py:60-63 | the column format is chosen from `res_name_len`, the length of the last step's entry; the `maxlen` computed just above is never used | two steps whose field `a` holds two floats, then one: the column is typed float, and storing step 0's two values raises ValueError | choose `object` when `maxlen > 1` | not executed | Ions.LastLengthRejectsRagged | Ions.PlasmaIons.SaveResults |
| blowout/simframework.py:60 | `E_fields` returns the single complex number `E_complex` computes (blowout/drive.py:65), and `E[0]` indexes that numpy scalar, which raises IndexError | any run with at least two slices and one particle whose first extraction succeeds: slice 0, particle 0 fails after row 1 of the positions was drifted and one extraction was made; no velocity is written and no timestamp is set | read `Ex` and `Ey` as the real and imaginary parts, as `E_x` and `E_y` of blowout/Efield.py:18-23 do | not executed | SimFramework.KickRowsAsWrittenRaises | SimFramework.KickRowsFromParts |
| blowout/support.py:17-23 | only a RuntimeError from `cls.timestamp` falls back to the local time. `PlasmaParams.timestamp` (blowout/plasma.py:28-30) returns None before completion, and `strftime` then raises TypeError | `PlasmaParams.write()` before `sim` has run (blowout/plasma.py:85) | fall back to the local time when the timestamp is None | not executed | Support.ParamsFilenameBeforeCompletion | Support.TimestampToFilenameCorrected |
