# simsurvey survey simulation, modelled in Dafny

simsurvey simulates what a telescope survey would see of a population of
transients such as supernovae. A `SurveyPlan` is the table of pointings: the
time, band, sky noise, position and optional field id of each one. A
`SimulSurvey` ties a transient generator, a plan and an instrument registry
together. For every transient it selects the plan's epochs that fall inside
the transient's observer-frame window, either through the fields the
transient lies in or through custom pointings that contain it. It turns each
observed transient into a lightcurve: model flux, correlated calibration
covariance, optional blinded bias, and metadata. A `LightcurveCollection`
stores the lightcurve bodies beside a column store of their metadata.

The model has five modules:

- `Wrappers` (`wrappers.dfy`): `Option` and `Result`. `Result` stands for a
  value or the exception raised instead.
- `Plan` (`plan.dfy`): the pointing table as the class `SurveyPlan`. It covers
  `add_observation`, the epoch query `observed_on` (collect, sort by time,
  restrict to a window), the field lookup `get_obs_fields`, and the
  custom-pointing matcher `get_non_field_obs` (both as written and as
  intended).
- `Noise` (`noise.dfy`): the covariance matrix that `_get_lightcurve_`
  assembles in place. It is the per-row variance plus a fully correlated
  calibration term per band. The module also holds the blinded-bias lookup.
- `Collection` (`collection.dfy`): `LightcurveCollection` as a class. It
  holds the body list, the schema fixed by the first metadata item, and one
  column per schema key.
- `Survey` (`survey.dfy`): transients, windows and designs, the realization
  of one lightcurve, the `get_lightcurves` loop, the instrument registry, the
  blinded-bias draw, the `obs_fields` and `non_field_obs` caches, and the
  class `SimulSurvey`.

External computations are parameters.

| External computation | How the model takes it |
|---|---|
| Sky geometry (`SurveyField.coord_in_field`, `SurveyFieldBins.coord2field`) | A predicate `covers` and a function `locate`. |
| The sncosmo model | Its rest-frame time span, plus a noise-free band flux function `bandflux`. |
| The Cholesky-correlated Gaussian noise | One sequence `noise(i)` per transient. |
| The uniform samples of `set_blinded_bias` | A function `u` from band to [0, 1). |

Python exceptions become error values. Tables are sequences of rows;
dictionaries are `map`s, or association lists where their order matters
(`OrderedDict`, lightcurve metadata).

## Model

| member | source | states |
|---|---|---|
| Plan.FirstUnknown | simsurvey/cadence/simulsurvey.py:582 | None exactly when every field id is in the catalog; otherwise a requested id the catalog lacks |
| Plan.NewRows | simsurvey/cadence/simulsurvey.py:573-593 | the new rows of `add_observation`, or its error: no position at all; field ids without a catalog; only one of ra and dec. Ra/dec alone succeed exactly when all columns have one length, and get the NaN sentinel. Field ids alone, with a catalog, succeed exactly when every id has a centre and the columns have one length; the first unknown id is the error; each row takes its field's centre. Ra, dec and field ids together succeed exactly when all six columns have one length. Each row carries its own time, band and sky noise |
| Plan.SurveyPlan.AddObservation | simsurvey/cadence/simulsurvey.py:573-599 | the new rows are appended after the existing ones, unchanged and in order; on error the table is unchanged |
| Plan.Sentinels | simsurvey/cadence/simulsurvey.py:685 | the custom pointings are the rows without a field id, drawn from the table |
| Plan.SentinelsAppend | simsurvey/cadence/simulsurvey.py:685 | the custom pointings of two stacked tables are those of the first followed by those of the second |
| Plan.SentinelsEmpty | simsurvey/cadence/simulsurvey.py:685 | there is no custom pointing exactly when every row has a field id |
| Plan.Insert | simsurvey/cadence/simulsurvey.py:744-745 | inserting into a time-sorted table keeps it sorted and adds exactly one row, as a multiset |
| Plan.SortedCons | simsurvey/cadence/simulsurvey.py:744-745 | a row no later than every row of a sorted table can go in front |
| Plan.InsertBehind | simsurvey/cadence/simulsurvey.py:744-745 | a row no later than the new one stays in front of the insertion into the rest: sorted, one row more, as a multiset |
| Plan.SortByTime | simsurvey/cadence/simulsurvey.py:744-745 | the `argsort` by time: sorted and a permutation |
| Plan.Restrict | simsurvey/cadence/simulsurvey.py:749-751 | the window filter keeps only rows whose time lies in [t0, t1], inclusive |
| Plan.RestrictCount | simsurvey/cadence/simulsurvey.py:749-751 | each row occurs as often after the filter as before if its time is in the window, and not at all otherwise |
| Plan.RestrictSorted | simsurvey/cadence/simulsurvey.py:745-751 | filtering a sorted table keeps it sorted |
| Plan.FieldRows | simsurvey/cadence/simulsurvey.py:729-734 | an epoch is selected for field l exactly when some row with field id l has that time, band and noise |
| Plan.ByFieldsAppend | simsurvey/cadence/simulsurvey.py:728-734 | the rows collected for two lists of field ids concatenate |
| Plan.ByFieldsMembers | simsurvey/cadence/simulsurvey.py:728-734 | an epoch is collected exactly when it is a row of one of the requested fields |
| Plan.Normalise | simsurvey/cadence/simulsurvey.py:738-741 | a NumPy index in [-m, m) lands in [0, m) |
| Plan.ObservedOn | simsurvey/cadence/simulsurvey.py:719-751 | error exactly when neither fields nor custom pointings are given (the ValueError at 725) or a custom index lies outside [-m, m) for m sentinel rows (the IndexError at 738-741); otherwise sorted by time, inside the window, and as a multiset exactly the collected rows that lie in the window |
| Plan.ObservedFromPlan | simsurvey/cadence/simulsurvey.py:727-741 | every returned epoch is the time, band and noise of some row of the plan |
| Plan.HitsMembers | simsurvey/cadence/simulsurvey.py:691-712 | k is recorded for a position exactly when custom pointing k contains it; the list is strictly increasing |
| Plan.RecordPointing | simsurvey/cadence/simulsurvey.py:705-712 | one sentinel turn records k against every position it contains, and reports whether it contained any |
| Plan.MatchingSpec | simsurvey/cadence/simulsurvey.py:681-717 | None exactly when no pair matched, including when there are no custom pointings; otherwise entry l lists, ascending, the custom pointings containing position l |
| Plan.NoHitIffEmpty | simsurvey/cadence/simulsurvey.py:710-717 | a position no pointing contains gets the empty list, and only such a position |
| Plan.NoMatchIffNoHits | simsurvey/cadence/simulsurvey.py:714-717 | `observed` stays False exactly when every position's list is empty |
| Plan.NonFieldObsAsWritten | simsurvey/cadence/simulsurvey.py:681-717 | as written: no custom pointing gives None; a scalar position gives the flat match list; positions given as a list (even a list of one) fail with the unbound `single_coord` |
| Plan.UnboundSingleCoordWitness | simsurvey/cadence/simulsurvey.py:698-705 | one custom pointing containing one position given as a list: the code as written fails, while the intended matcher returns [[0]] |
| Plan.SurveyPlan.Empty | simsurvey/cadence/simulsurvey.py:534-547 | a plan with no pointings yet, with the width, height, field catalog and footprint test that `create` sets up before its first `add_observation` |
| Plan.SurveyPlan.GetObsFields | simsurvey/cadence/simulsurvey.py:671-679 | the catalog's field ids per position, present exactly when there is a catalog and some row has a field id |
| Plan.SurveyPlan.GetNonFieldObs | simsurvey/cadence/simulsurvey.py:681-717 | the sentinel loop computes exactly the intended matching (see Plan.MatchingSpec) |
| Noise.CovarianceSymmetric | simsurvey/cadence/simulsurvey.py:152-163 | the flux covariance matrix is symmetric |
| Noise.CovarianceEntries | simsurvey/cadence/simulsurvey.py:149-163 | off the diagonal: `flux_i*flux_j*e^2` for a shared band with `err_calib` e, else 0. On the diagonal: `skynoise^2 + abs(flux)/gain`, plus `flux_i^2*e^2` when calibrated |
| Noise.CalibrationScenario | simsurvey/cadence/simulsurvey.py:154-163 | two r-band epochs with error 0.01 and fluxes 100 and 120 correlate by 1.2 |
| Noise.AddRowTerms | simsurvey/cadence/simulsurvey.py:160-163 | the `k1` loop adds band b's calibration term to row k0 against every row of b, and changes no other entry |
| Noise.AddBandTerms | simsurvey/cadence/simulsurvey.py:159-163 | the double loop adds band b's calibration term to every pair of its rows |
| Noise.BuildCovariance | simsurvey/cadence/simulsurvey.py:149-163 | the matrix built in place is the covariance entry by entry; `save_cov` holds exactly when some row's band has a calibration error |
| Noise.BiasFor | simsurvey/cadence/simulsurvey.py:170-173 | the band's blinded bias, 0 when the band has none or no bias is set |
| Collection.Lookup | simsurvey/cadence/simulsurvey.py:891 | `meta[k]`: missing exactly when k is not a key, and the key's value when keys are distinct |
| Collection.SetKeyKeys | simsurvey/cadence/simulsurvey.py:180-186 | assigning a key keeps the key order, appending a new key at the end |
| Collection.SetKeyDistinct | simsurvey/cadence/simulsurvey.py:180-186 | assigning a key keeps the keys distinct |
| Collection.SetKeyLookup | simsurvey/cadence/simulsurvey.py:180-186 | after `meta[k] = v`, k holds v and every other key holds what it held |
| Collection.BodiesMetasSnoc | simsurvey/cadence/simulsurvey.py:872-876 | one more lightcurve adds its body and its metadata at the end of the lists the collection is built from |
| Collection.AppendRow | simsurvey/cadence/simulsurvey.py:888-892 | the per-key loop keeps every column and the column set, and fails exactly when the item lacks a remaining schema key; each value goes in as one entry (the corrected append of the Findings row) |
| Collection.Longest | simsurvey/cadence/simulsurvey.py:926 | the longest column is at least as long as every column and as long as one of them; 0 without columns |
| Collection.FirstRagged | simsurvey/cadence/simulsurvey.py:926 | none exactly when every column has length 1 or n; otherwise a column of neither length |
| Collection.MetaArray | simsurvey/cadence/simulsurvey.py:921-926 | the `meta` property's `dict_to_array`: no columns is an error; otherwise an array exactly when every column has length 1 or the longest length, with that many rows, else the error names a column that cannot be broadcast |
| Collection.MetaArrayUniform | simsurvey/cadence/simulsurvey.py:921-926 | columns of one common length n rebuild into an array of n rows |
| Collection.LongestUniform | simsurvey/cadence/simulsurvey.py:926 | the longest of columns of one length n is n |
| Collection.AppendAll | simsurvey/cadence/simulsurvey.py:887-892 | before each item the array is rebuilt and a failed rebuild stops the loop; then the item is appended, and an item without a schema key stops it; the column set is kept |
| Collection.Project | simsurvey/cadence/simulsurvey.py:853-860 | the metadata row of an item has exactly the schema keys, in schema order |
| Collection.ProjectOwnKeys | simsurvey/cadence/simulsurvey.py:894-903 | an item projected on its own keys is itself |
| Collection.ProjectLookup | simsurvey/cadence/simulsurvey.py:853-860 | looking a schema key up in an item's metadata row finds the item's value |
| Collection.AppendRowComplete | simsurvey/cadence/simulsurvey.py:888-892 | a complete item appends its value of each remaining key, as one entry, to that key's column, and leaves other columns alone |
| Collection.ColumnOf | simsurvey/cadence/simulsurvey.py:887-892 | the values of one key across the items, in item order |
| Collection.ColumnOfAppend | simsurvey/cadence/simulsurvey.py:887-892 | the column of a key over two batches is the two columns one after the other |
| Collection.StoresSnoc | simsurvey/cadence/simulsurvey.py:887-892 | appending a complete item's values to columns that store a list of metadata stores the list with the item at the end |
| Collection.AppendRowAsWritten | simsurvey/cadence/simulsurvey.py:888-903 | as written: `np.append` adds a value's flattened entries, so a key fails exactly when the item lacks it and a matrix contributes all its entries |
| Collection.FlattenSquare | simsurvey/cadence/simulsurvey.py:889-891 | flattening an n-by-n matrix yields n*n entries |
| Collection.AddOneAsWritten | simsurvey/cadence/simulsurvey.py:894-903 | as written: one `add` of one lightcurve's metadata rebuilds the array, raising its error, then appends the flattened values |
| Collection.AddOneTwoKeys | simsurvey/cadence/simulsurvey.py:899-903 | as written, adding `ra` and `fluxcov` appends `ra` as one entry and `fluxcov` flattened |
| Collection.MetaArrayTwoKeys | simsurvey/cadence/simulsurvey.py:921-926 | the rebuild of an `ra` and a `fluxcov` column of lengths a and f: rows max(a, f), or the first column that is neither 1 long nor the longest |
| Collection.FlattenedFluxcovAsWritten | simsurvey/cadence/simulsurvey.py:887-903 | as written, three lightcurves with a 2-by-2 `fluxcov` leave columns of 1 and 4, then 2 and 8 entries, and the third add raises on `ra` |
| Collection.FlattenedFluxcovFixed | simsurvey/cadence/simulsurvey.py:887-903 | with one entry per lightcurve the same three adds succeed and leave both columns 3 long |
| Collection.FlattenedFluxcovWitness | simsurvey/cadence/simulsurvey.py:887-903 | the as-written and the corrected append side by side on that input |
| Collection.Adjust | simsurvey/cadence/simulsurvey.py:852-856 | a slice bound is adjusted as Python adjusts it: into [0, n] for a positive step and [-1, n) for a negative one, counting negative bounds from the end |
| Collection.Walk | simsurvey/cadence/simulsurvey.py:852-856 | the positions from i in steps of `step` strictly before `stop`: all in [0, n), the first is i, consecutive ones differ by the step, and the last is the final one before `stop` |
| Collection.SliceIndices | simsurvey/cadence/simulsurvey.py:852-856 | the positions `[start:stop:step]` selects: all in [0, n), consecutive ones a step apart |
| Collection.SliceForward | simsurvey/cadence/simulsurvey.py:852-856 | with step 1 the slice is the contiguous range from the adjusted start to the adjusted stop |
| Collection.SliceReversed | simsurvey/cadence/simulsurvey.py:852-856 | `[::-1]` lists every position from the last to the first |
| Collection.AppendAllComplete | simsurvey/cadence/simulsurvey.py:887-892 | when every item is complete and the columns have one length, `_add_meta_` succeeds and each schema column grows by the items' values of its key, one entry per item, in item order |
| Collection.AppendAllSucceeds | simsurvey/cadence/simulsurvey.py:887-892 | a successful `_add_meta_` met no item without a schema key |
| Collection.AppendAllUniformErrors | simsurvey/cadence/simulsurvey.py:887-892 | on columns of one length under a non-empty schema every rebuild succeeds, so the only error is a missing key |
| Collection.AppendAllMissing | simsurvey/cadence/simulsurvey.py:887-892 | on columns of one length under a non-empty schema, `_add_meta_` fails exactly when some item lacks a schema key, and then with a missing key |
| Collection.AppendAllUniform | simsurvey/cadence/simulsurvey.py:887-892 | on columns of one length n: under a non-empty schema success exactly when every item is complete; on success the columns grow by the items' values to the common length n + items |
| Collection.LightcurveCollection.constructor | simsurvey/cadence/simulsurvey.py:797-806 | `LightcurveCollection(empty=True)`: no bodies and no schema |
| Collection.LightcurveCollection.AddLcs | simsurvey/cadence/simulsurvey.py:866-876 | the bodies are appended in order and nothing else changes |
| Collection.LightcurveCollection.CreateMeta | simsurvey/cadence/simulsurvey.py:905-911 | the schema is the given keys, with one empty column each |
| Collection.LightcurveCollection.AppendOne | simsurvey/cadence/simulsurvey.py:888-892 | one item's key loop computes Collection.AppendRow |
| Collection.LightcurveCollection.AddMeta | simsurvey/cadence/simulsurvey.py:878-903 | the first call fixes the schema from its first item; an empty first list is an IndexError; an existing schema is rebuilt even for an empty list; every item is added per Collection.AppendAll, so an empty first item fails with `EmptyMeta` and ragged columns with `RaggedColumn` |
| Collection.LightcurveCollection.AppendItems | simsurvey/cadence/simulsurvey.py:887-892 | the item loop computes Collection.AppendAll |
| Collection.LightcurveCollection.Add | simsurvey/cadence/simulsurvey.py:821-830 | the bodies are always appended; on success every item carries every schema key and the schema is non-empty; from a collection in lockstep, success holds exactly when every item is complete, and then each column grows by the batch's values of its key and bodies and columns stay in lockstep |
| Collection.LightcurveCollection.MetaRow | simsurvey/cadence/simulsurvey.py:858-860 | row i of the metadata has exactly the schema keys, in schema order |
| Collection.LightcurveCollection.Get | simsurvey/cadence/simulsurvey.py:849-860 | `lcs[i]` raises a TypeError without metadata and a ValueError for an empty schema; otherwise it succeeds exactly for -n <= i < n, and gives body i (counting from the end when negative) with its metadata row |
| Collection.LightcurveCollection.GetSlice | simsurvey/cadence/simulsurvey.py:852-856 | a TypeError without metadata, then a ValueError for step 0, then a ValueError for an empty schema; otherwise exactly the lightcurves `lcs[i]` at the positions the slice selects, in that order |
| Collection.LightcurveCollection.At | simsurvey/cadence/simulsurvey.py:853-856 | one lightcurve per given position, in order: the body at that position with that position's metadata row |
| Collection.LightcurveCollection.GetRow | simsurvey/cadence/simulsurvey.py:858-860 | under a non-empty schema, `lcs[i]` at a position i is body i with metadata row i |
| Collection.LightcurveCollection.AtGet | simsurvey/cadence/simulsurvey.py:852-856 | each lightcurve of the slice is the one `lcs[i]` gives at its position |
| Collection.LightcurveCollection.Load | simsurvey/cadence/simulsurvey.py:832-837 | the state becomes the saved snapshot |
| Collection.SaveLoadRoundTrip | simsurvey/cadence/simulsurvey.py:832-844 | loading a saved collection reproduces every lightcurve at every index |
| Collection.ReadBack | simsurvey/cadence/simulsurvey.py:849-860 | row j of a collection whose columns store a list of metadata is body j with metadata item j on the schema keys |
| Survey.Window | simsurvey/cadence/simulsurvey.py:347-350 | `[mjd + mintime*(1+z), mjd + maxtime*(1+z)]`: ordered for z >= -1, holding the date of peak when the model span does, and the plain span at z = 0 |
| Survey.DesignOf | simsurvey/cadence/simulsurvey.py:357-367 | None exactly when the query is empty; otherwise one row per epoch, with the gain, zp and zpsys of `instruments[band]` |
| Survey.DesignAt | simsurvey/cadence/simulsurvey.py:354-367 | transient k's query, with its fields, its matches and its window: an error exactly when the query fails, None exactly when it is empty, and otherwise a row per epoch with the instrument's gain, zp and zpsys |
| Survey.RowsKeepEpochs | simsurvey/cadence/simulsurvey.py:357-365 | a design built from sorted window epochs is sorted, in the window, and repeats pointings of the plan |
| Survey.DesignObserved | simsurvey/cadence/simulsurvey.py:354-367 | a yielded design is time-sorted, inside the transient's window, and every row repeats a pointing of the plan with its band's instrument |
| Survey.Pop | simsurvey/cadence/simulsurvey.py:141 | `p.pop(k)` fails exactly when k is missing; otherwise the rest has distinct keys, one entry fewer, and no new key |
| Survey.PopLookup | simsurvey/cadence/simulsurvey.py:141 | the popped value is `p[k]`; afterwards k is gone and every other key is unchanged |
| Survey.Extract | simsurvey/cadence/simulsurvey.py:141 | the three pops raise in the order ra, dec, mwebv_sfd98 for the first missing key, and succeed exactly when all three are present |
| Survey.ExtractLookup | simsurvey/cadence/simulsurvey.py:141 | the popped ra, dec and mwebv_sfd98 are the parameters' values; the model parameters are the rest |
| Survey.SetOptionalLookup | simsurvey/cadence/simulsurvey.py:182-186 | a conditional metadata assignment sets the key only when a value is given |
| Survey.SetOptionalDistinct | simsurvey/cadence/simulsurvey.py:182-186 | a conditional assignment keeps the keys distinct |
| Survey.LcMetaLookup | simsurvey/cadence/simulsurvey.py:180-186 | the lightcurve metadata holds ra, dec and mwebv_sfd98, fluxcov when kept, idx_orig when given, and otherwise the model parameters |
| Survey.LcMetaDistinct | simsurvey/cadence/simulsurvey.py:180-186 | the lightcurve metadata has distinct keys |
| Survey.Realize | simsurvey/cadence/simulsurvey.py:137-186 | fails with the missing parameter first, then an unknown band, then a zero gain; succeeds exactly otherwise, with distinct metadata keys |
| Survey.RealizeTable | simsurvey/cadence/simulsurvey.py:165-177 | flux is model plus noise; `fluxerr^2` is the diagonal of the covariance, untouched by the bias; the bias of bands not in the map is 0 |
| Survey.RealizeMeta | simsurvey/cadence/simulsurvey.py:180-186 | ra, dec and mwebv_sfd98 are as given; fluxcov is the matrix exactly when some band is calibrated; idx_orig is the tag when one is given; every other parameter is kept |
| Survey.RealizeLightcurve | simsurvey/cadence/simulsurvey.py:137-186 | building the covariance in place yields Survey.Realize |
| Survey.Present | simsurvey/cadence/simulsurvey.py:131-133 | the indices of the present entries, ascending, all of them |
| Survey.PresentAlike | simsurvey/cadence/simulsurvey.py:131-133 | entries present at the same positions have the same indices |
| Survey.GatheredSpec | simsurvey/cadence/simulsurvey.py:131-133 | when the loop completes, no entry failed, and the j-th value gathered is that of the j-th present entry |
| Survey.GatheredFails | simsurvey/cadence/simulsurvey.py:131-133 | when the loop fails, the error is that of an entry before which everything went through |
| Survey.GatheredStops | simsurvey/cadence/simulsurvey.py:131-133 | after the first error nothing changes the outcome |
| Survey.SimulatedTagged | simsurvey/cadence/simulsurvey.py:126-133 | on success: no query failed; one lightcurve per observed transient, in catalog order; each is that transient's realization, with its design and `idx_orig = k` |
| Survey.SimulatedFails | simsurvey/cadence/simulsurvey.py:117-133 | on failure, the error comes from transient k's query or from its realization, and every earlier transient went through |
| Survey.HoldsGet | simsurvey/cadence/simulsurvey.py:849-860 | row j of a collection holding simulated lightcurves reads back lightcurve j: its body, and its metadata on the schema keys |
| Survey.HoldsSnoc | simsurvey/cadence/simulsurvey.py:133 | a collection in the state of the simulated lightcurves plus one added holds them all |
| Survey.CollectedTagged | simsurvey/cadence/simulsurvey.py:126-133 | row j of the returned collection is the j-th observed transient k's lightcurve: its table holds k's design and its `idx_orig` reads back as k |
| Survey.AddRealized | simsurvey/cadence/simulsurvey.py:133 | `lcs.add(lc)` of one realized lightcurve keeps the collection holding exactly the realized lightcurves, metadata values included |
| Survey.CollectOne | simsurvey/cadence/simulsurvey.py:131-133 | one loop turn advances the collection (bodies and metadata columns) by the next turn of Survey.Simulated, or reports the turn's error |
| Survey.Collect | simsurvey/cadence/simulsurvey.py:116-133 | a fresh collection holding exactly the simulated lightcurves (bodies in order, and each key's column the lightcurves' values), or the loop's first error |
| Survey.Register | simsurvey/cadence/simulsurvey.py:292-303 | `instruments[band] = instprop`: the band holds the new instrument and every other band keeps its entry; an absent registry starts empty |
| Survey.SpecInstrument | simsurvey/cadence/simulsurvey.py:261-264 | a missing gain, then a missing zp, raises a KeyError; a gain or zp of None raises a ValueError; otherwise the instrument, with zpsys defaulting to "ab" |
| Survey.InstalledOk | simsurvey/cadence/simulsurvey.py:257-265 | `set_instruments` raises exactly when some entry lacks its gain or zp |
| Survey.InstalledLookup | simsurvey/cadence/simulsurvey.py:257-265 | on success every given band maps to its entry's instrument and every other band keeps its entry; the registry exists exactly when it did or some entry was given |
| Survey.InstalledFails | simsurvey/cadence/simulsurvey.py:257-265 | on failure the error is that of the first bad entry, and the entries before it are already installed |
| Survey.DrawBounds | simsurvey/cadence/simulsurvey.py:281-282 | `uniform(-v, v)` lies in [-v, v) for v > 0, and in (v, -v] for v < 0 |
| Survey.DrawNonNegative | simsurvey/cadence/simulsurvey.py:281-282 | for v >= 0 the draw lies in [-v, v], and below v when v > 0 |
| Survey.DrawNegative | simsurvey/cadence/simulsurvey.py:281-282 | for v < 0 the draw lies in (v, -v] |
| Survey.BiasDraws | simsurvey/cadence/simulsurvey.py:281-282 | one offset per band of the limits, each within plus or minus its limit |
| Survey.NonFieldAfterReset | simsurvey/cadence/simulsurvey.py:450-463 | after a reset, the first read of `non_field_obs` caches nothing and yields None for every transient; every later read yields the computed matches |
| Survey.NonFieldSettled | simsurvey/cadence/simulsurvey.py:452-463 | once the matches are cached, reading the property changes nothing |
| Survey.SimulSurvey.Empty | simsurvey/cadence/simulsurvey.py:45-68 | `SimulSurvey(empty=True)`: nothing set and every cache empty |
| Survey.SimulSurvey.SetTargetGenerator | simsurvey/cadence/simulsurvey.py:198-214 | the generator is replaced |
| Survey.SimulSurvey.SetPlan | simsurvey/cadence/simulsurvey.py:218-238 | the plan is replaced and both caches and the exist flag are emptied |
| Survey.SimulSurvey.AddInstrument | simsurvey/cadence/simulsurvey.py:287-306 | a known band without `force_it` raises and changes nothing; otherwise the registry gets the instrument (Survey.Register) |
| Survey.SimulSurvey.SetInstruments | simsurvey/cadence/simulsurvey.py:241-266 | the loop installs the entries through `add_instrument`, as Survey.Installed states |
| Survey.SimulSurvey.SetBlindedBias | simsurvey/cadence/simulsurvey.py:272-284 | the bias becomes the draws of Survey.BiasDraws |
| Survey.SimulSurvey.Create | simsurvey/cadence/simulsurvey.py:72-85 | sets what is given, in order; a failing instrument set stops before the bias |
| Survey.SimulSurvey.ObsFields | simsurvey/cadence/simulsurvey.py:441-447 | an empty cache is filled from the plan's field lookup, and the cache is returned |
| Survey.SimulSurvey.NonFieldObs | simsurvey/cadence/simulsurvey.py:449-463 | the matches are computed only when the cache is empty and the flag is False; the flag then records whether the cache is filled, and the view is returned |
| Survey.SimulSurvey.Observations | simsurvey/cadence/simulsurvey.py:339-367 | what the generator yields from the current caches: never more designs than transients |
| Survey.SimulSurvey.GetObservations | simsurvey/cadence/simulsurvey.py:329-367 | raises for a missing plan or instruments, an unknown cadence band, or a missing generator, without touching the caches; otherwise it reads both caches, then fails when there are no field ids, and otherwise yields every design |
| Survey.SimulSurvey.GetLightcurves | simsurvey/cadence/simulsurvey.py:94-135 | raises when something is unset. With no transients it returns an empty collection and runs no query. Otherwise it returns the query's error, or a collection holding exactly the simulated lightcurves, or the loop's error; the caches end as the progress-bar assignments followed by the query's reads leave them, and untouched beyond the assignments when a band is unknown |

## Left out

- The sncosmo simulation `realize_lcs`: the model takes a noise-free band flux function from the generator.
- `np.linalg.cholesky`, `np.random.randn` and the correlated noise draw: each transient's draw is a parameter `noise`, and the positive-definiteness of the covariance is not modelled.
- `np.sqrt`: the model stores the variance `fluxerr^2` rather than `fluxerr`.
- The blinded-bias factor `10**(-0.4*bias)`: the body stores each row's bias magnitude, and the flux is not scaled by it.
- `np.random.uniform`: its unit-interval sample is a parameter of Survey.SimulSurvey.SetBlindedBias.
- Floating point: times, fluxes and noise are exact `real`s.
- Sky geometry (`SurveyField`, `SurveyFieldBins`, `field_id_index`): taken as the function values `covers` and `locate` and the catalog of field centres.
- `load_opsim` (SQLite I/O) and `set_fields` (which calls helpers that do not exist).
- `LightcurveCollection.save` and `load` as pickle files: only the snapshot of state is modelled.
- `standardize_data` and astropy `Table` construction: bodies are opaque values and metadata columns are sequences. `dict_to_array` is modelled only as far as its row count and the broadcast error go (Collection.MetaArray); the record array it builds is the projected metadata row.
- NumPy dtypes of the metadata columns: `_create_meta_` fixes the key set only.
- `ProgressBar` and `print`: the progress-bar flag only triggers the two cache assignments it causes.
- The `__nature__` type checks of `set_target_generator` and `set_plan`, the `has_lightcurves` warning and the `BaseObject` property plumbing.
- The extra keyword arguments that `add_instrument` stores beside gain, zp, zpsys and err_calib.
- `set_instruments` with `zpsys` given explicitly as None: such an entry is read as having no zpsys, so it gets "ab".
- The `notebook` option and the transient generator's own drawing of parameters: the generator is a value with the drawn transients.
- Survey.SimulSurvey.ObsFields: requires a plan and a generator, where the source would fail with an AttributeError on None.
- Survey.SimulSurvey.NonFieldObs: requires a plan and a generator, where the source would fail with an AttributeError on None.
- Survey.SimulSurvey.NonFieldObs: computes the matches with the corrected matcher of the Findings row (Plan.SurveyPlan.GetNonFieldObs). The source raises an `UnboundLocalError` at simsurvey/cadence/simulsurvey.py:705 whenever the plan has custom pointings, on the second read after `set_plan`.
- Survey.SimulSurvey.GetLightcurves: with the progress bar, it reads `non_field_obs` through the same corrected matcher. The source raises the same `UnboundLocalError` on every such run with custom pointings.
- Collection.AppendRow: appends each metadata value as one entry, the corrected behaviour of the Findings row. The source's `np.append` flattens a matrix value such as `fluxcov` into all of its entries; that is modelled separately in Collection.AppendRowAsWritten.
- Collection.LightcurveCollection.Add: adds one entry per lightcurve and key, as Collection.AppendRow does, not the source's flattened `fluxcov` entries.
- Survey.Collect: builds the collection with the corrected one-entry-per-lightcurve append, so the metadata columns it states are not those the source would build when `fluxcov` is kept.
- Collection.LightcurveCollection.Get and Collection.LightcurveCollection.GetSlice: require bodies and columns in lockstep (`Valid`). After a failed add the source's columns can be ragged or out of step with the bodies, and what `dict_to_array` broadcasts then is not modelled.
- Collection.LightcurveCollection.GetSlice: after a failed first add of an empty list the body list exists but is empty, and a zero step raises a ValueError in the source. The model does not tell an unset body list from an empty one, so it reports `NoMeta` there.
- Collection.LightcurveCollection.AddMeta: an empty first metadata item creates an empty schema, after which every read of `meta` fails with `EmptyMeta`. The model stands for this failure as the ValueError of `max` over no columns; `dict_to_array` itself is not part of this model.
- Plan.SurveyPlan.Empty: starts from an empty pointing table, where `SurveyPlan(empty=True)` has none (None) and no width or height. On that object the source raises a TypeError from `get_non_field_obs`, from `observed_on` with a non-empty field list or with custom indices, from `get_obs_fields` with a catalog, and from a survey's observation query; the model answers these from the empty table instead (no matches, no epochs). A first `add_observation` behaves the same on both, since the source then stores the new rows as the table.
- Plan.SortByTime: specified only as sorted and a permutation, because NumPy's default `argsort` does not fix the order of equal times.
- Survey.Realize: a design row with gain 0, which NumPy would turn into an infinite variance, is an error `ZeroGain`.
- Survey.SimulSurvey.GetObservations: when `obs_fields` is None the `zip` raises a TypeError; the model reports `NoFieldIds`.
- Survey.SimulSurvey.GetLightcurves: the observation generator runs lazily inside `izip`. The model computes the designs of all transients first. This is equivalent, because the designs are pure and the loop stops at the first error. A lightcurve that cannot be added to the collection is reported only as `CollectionFailure`. Its relation to Survey.Simulated is not stated.
- Survey.Collect: when `lcs.add` fails, the model states only that the collection is well formed.

## Findings

| source | as written | input that shows it | evidently intended | confidence | as-written member | corrected member |
|---|---|---|---|---|---|---|
| simsurvey/cadence/simulsurvey.py:703-705 | with the positions given as a list (even a list of one), the first sentinel turn takes the `else` branch, which never assigns `single_coord`, so the next line raises `UnboundLocalError` | one custom pointing at (0, 0) that contains the single position (0, 0), passed as a list | record every sentinel k against every position it contains, one list per position | not executed | Plan.NonFieldObsAsWritten | Plan.SurveyPlan.GetNonFieldObs |
| simsurvey/cadence/simulsurvey.py:887-903 | `np.append` without an axis flattens each value, so a 2-by-2 `fluxcov` adds four entries for one lightcurve; the next read of `meta` cannot broadcast a 2-entry `ra` column against an 8-entry `fluxcov` column and raises | three lightcurves with `ra` and a 2-by-2 `fluxcov`, added one at a time | one metadata entry per lightcurve and key, so that row j of `meta` belongs to lightcurve j | not executed | Collection.FlattenedFluxcovWitness | Collection.AppendAllUniform |
