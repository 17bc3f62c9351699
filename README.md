# Trigger plots of gwsumm, modelled in Dafny

`gwsumm/plot/triggers.py` defines the plot types that gwsumm draws from
event-trigger tables (the output of an event trigger generator, "ETG",
such as Omicron):

- `TriggerDataPlot`, a scatter plot of one trigger column against another;
- `TriggerHistogramPlot`, a histogram of one column per channel;
- `TriggerRateDataPlot`, a time series of trigger rates.

Most of that file hands work to the plotting library. This project models
the data-shaping logic those classes run before anything is drawn:

- how tagged channel identifiers (`name#tag`, `name@tag`) are stripped to
  physical channel names (`allchannels`);
- the key under which a channel's triggers are cached;
- the memoised plot identifiers (`pid`);
- how one style dictionary per channel is built from the plot options,
  broadcasting scalars and cycling lists;
- the axis and colour limits that channel attributes supply as defaults,
  which never overwrite configured values;
- the live-time rate weighting of histograms and its axis-bound floors;
- the configuration checks of the rate plot;
- the rate plot's legend labels (a channel × bin cross product);
- the deterministic rate-series keys and their insert-if-absent into the
  global data cache (`globalv.DATA`);
- the rate plot's swap of its channel list while the time-series base
  class draws, and its restoration afterwards.

Modules:

- `Values.dfy` (module `Values`): the Python values that plot options
  hold, with their truthiness, `str()` and `repr()`. It also holds the
  exceptions the code can raise, `Result`/`Option`, and the dictionary
  operations `pop`, `setdefault` and `get`.
- `Strings.dfy` (module `Strings`): `str.split`, `str.strip('\n ')`,
  `in` on strings, ASCII `upper()`, the `re_cchar` sanitiser and decimal
  rendering of integers.
- `TriggerCommon.dfy` (module `TriggerCommon`): tag stripping,
  `allchannels`, the trigger cache key, label normalisation.
- `TriggerData.dfy` (module `TriggerData`): `TriggerDataPlot`.
- `TriggerHistogram.dfy` (module `TriggerHistogram`): `TriggerHistogramPlot`.
- `TriggerRate.dfy` (module `TriggerRate`): `TriggerRateDataPlot` and the
  data cache.

Each plot is a `class` whose fields are the ones the Python object updates:

- `pargs`, the remaining configuration, which `process` pops from and
  `setdefault`s into;
- `_pid`, the memoised identifier;
- `channels`, for the rate plot.

The loops that fill these fields are `for` loops. Each is proved against
a function over the loop's prefix (`BroadcastUpTo`, `GatherUpTo`,
`SampleUpTo`, `WeighUpTo`, `InsertAbsent`), and lemmas prove what the
source promises about those functions.

Lookups into other parts of gwsumm and gwpy are parameters of the methods:

- channel attributes, `attrsOf`;
- trigger counts and live times per cache key, `count` and `livetimeOf`;
- rate series, `binned` and `single`;
- the printable column name, `columnString`;
- the plotting library's colour and marker cycles, `colours` and `markers`;
- `str()` of a float, `showReal`;
- the character class of `re_cchar`, `cchar`.

## Model

| member | source | states |
|---|---|---|
| TriggerCommon.StripTag | gwsumm/plot/triggers.py:69 | the physical name is the prefix of the identifier before the first `#` or `@`, contains neither, and is followed by a tag mark when shorter |
| TriggerCommon.StripTagUntagged | gwsumm/plot/triggers.py:69 | stripping leaves an identifier unchanged exactly when it carries no tag |
| TriggerCommon.AllChannels | gwsumm/plot/triggers.py:69-70 | `allchannels` has one entry per identifier, in order, each the identifier's untagged prefix (duplicates are kept) |
| TriggerCommon.AllChannelsFixes | gwsumm/plot/triggers.py:69-70 | untagged identifiers pass through `allchannels` unchanged, and applying it twice is applying it once |
| TriggerCommon.StateName | gwsumm/plot/triggers.py:198-199 | the state's name when it has a non-empty one, otherwise exactly `All` |
| TriggerCommon.TriggerKeyChannel | gwsumm/plot/triggers.py:197-201 | the trigger cache key extends the channel, names the same physical channel, and is tagged exactly when the channel is |
| TriggerCommon.TriggerKeyInjective | gwsumm/plot/triggers.py:197-201 | under one state, two channels with the same cache key are the same channel |
| TriggerCommon.NormaliseLabels | gwsumm/plot/triggers.py:152-155 | a label string is split on commas, a list is taken item by item, every label is `str()`-ed and stripped of `'\n '`; any other value raises `TypeError` |
| TriggerCommon.SingleLabel | gwsumm/plot/triggers.py:153-155 | a comma-free label string gives exactly one label, stripped |
| TriggerCommon.LabelsStripped | gwsumm/plot/triggers.py:152-155 | normalised labels have no leading or trailing newlines or spaces: stripping them again changes nothing |
| TriggerData.ChooseFigure | gwsumm/plot/triggers.py:139-144 | a time figure exactly when the x column mentions `time`, a frequency figure exactly when it mentions `freq` but not `time`, on strings (substring) and lists (membership); `TypeError` otherwise |
| TriggerData.ColumnSuffixStuck | gwsumm/plot/triggers.py:116-118 | once a column cannot be sanitised, later columns add nothing |
| TriggerData.DataPidColumns | gwsumm/plot/triggers.py:111-120 | the pid is the upper case of base pid, `_<etg>` and `_<column>` for each set column in x, y, colour order, sanitised |
| TriggerData.DataPidUpper | gwsumm/plot/triggers.py:111-120 | a computed pid is already upper case, and it is exactly what is memoised |
| TriggerData.DataPidIgnoresColumnRole | gwsumm/plot/triggers.py:116-118 | the pid does not record which role a column plays: (time, snr, none) and (time, none, snr) share a pid |
| TriggerData.TriggerDataPlot.constructor | gwsumm/plot/triggers.py:79-102 | the configuration is the class defaults overridden by the keyword arguments, with the x, y and colour columns taken out of it |
| TriggerData.TriggerDataPlot.Pid | gwsumm/plot/triggers.py:111-120 | a memoised pid is returned unchanged; otherwise the pid is computed, memoised, and a `TypeError` leaves the partial pid memoised |
| TriggerData.TriggerDataPlot.SetPid | gwsumm/plot/triggers.py:122-124 | the setter memoises `str(id)` |
| TriggerData.TriggerDataPlot.PopLabels | gwsumm/plot/triggers.py:152-155 | the labels are the normalised `labels` option, defaulting to the channel names, and `labels` is removed |
| TriggerData.TriggerDataPlot.PopColourParams | gwsumm/plot/triggers.py:158-160 | `clim` falls back to `colorlim`, `logcolor` defaults to false, `colorlabel` to none; all four options are removed |
| TriggerData.BroadcastStuck | gwsumm/plot/triggers.py:167-180 | once the style loop has raised, it stays failed with the same state |
| TriggerData.BroadcastShape | gwsumm/plot/triggers.py:163-180 | the style loop succeeds exactly when every option is configured and no cycle it draws from is empty; then it pops exactly the style options, and each of the N dictionaries holds exactly those options with that channel's draw |
| TriggerData.BroadcastOk | gwsumm/plot/triggers.py:163-180 | a successful style loop yields N dictionaries each holding all ten options, `size_range`, `size_by` and `size_by_log` among them |
| TriggerData.StyleCycles | gwsumm/plot/triggers.py:174-180 | a list given for any option but `size_range` gives channel i its element i mod length |
| TriggerData.StyleBroadcasts | gwsumm/plot/triggers.py:177-180 | a non-list value, or any `size_range`, is the same for every channel |
| TriggerData.StyleDefaultPalette | gwsumm/plot/triggers.py:170-171 | with several channels an unset face colour cycles through the palette |
| TriggerData.Spread | gwsumm/plot/triggers.py:179-180 | drawing once per channel from a source assigns channel i its i-th draw, or raises `StopIteration` from an empty cycle |
| TriggerData.TriggerDataPlot.BroadcastStyles | gwsumm/plot/triggers.py:163-180 | the method's dictionaries and remaining configuration are those of the style-loop specification |
| TriggerData.SizeRangeFallback | gwsumm/plot/triggers.py:182-185 | only a single channel's `size_range` can change, and only from none to the colour limits when that channel is sized and the colour limits are set |
| TriggerData.RangeAttribute | gwsumm/plot/triggers.py:209-212 | a column reads `<column>_range`, and `peak_frequency` and `central_freq` both read `frequency_range` |
| TriggerData.ApplyRangeKeeps | gwsumm/plot/triggers.py:205-221 | a channel range never overwrites: configured options keep their values, only the axis's limit key can appear, true colour limits and a true size range stay |
| TriggerData.FillRanges | gwsumm/plot/triggers.py:205-221 | the loop over the x, y and colour columns leaves the limits that applying each column's range default in turn gives |
| TriggerData.RangesKeep | gwsumm/plot/triggers.py:205-221 | over the x, y and colour columns, configured options keep their values, only `xlim` and `ylim` can appear, true colour limits and a true size range stay |
| TriggerData.GatherKeys | gwsumm/plot/triggers.py:192-203 | the channel loop reads each channel's triggers under that channel's cache key, in channel order, and the trigger count only grows |
| TriggerData.GatherKeepsConfig | gwsumm/plot/triggers.py:192-221 | over the channel loop, configured options and true colour limits are never overwritten, and only `xlim` and `ylim` are added |
| TriggerData.GatherKeepsStyle | gwsumm/plot/triggers.py:192-221 | over the channel loop, a channel's style changes only on its own turn, and a true size range never changes |
| TriggerData.GatherStyleKeys | gwsumm/plot/triggers.py:192-221 | over the channel loop, every style dictionary keeps its set of options |
| TriggerData.GatherChannel | gwsumm/plot/triggers.py:192-221 | one pass of the channel loop takes the loop from its state after channel i to its state after channel i+1 |
| TriggerData.GatherChannels | gwsumm/plot/triggers.py:192-221 | the channel loop over the first m channels leaves the state the channel-loop specification gives |
| TriggerData.TriggerDataPlot.AddData | gwsumm/plot/triggers.py:192-221 | the method visits the shortest of channels, labels and style dictionaries and leaves the state the channel-loop specification gives |
| TriggerData.Processed | gwsumm/plot/triggers.py:134-224 | the data-shaping part of `process` fails exactly when the x column names no figure base, the labels are neither a string nor a sequence, or the style loop fails; each failure raises its own error (`TypeError`, `TypeError`, the style loop's `KeyError` or `StopIteration`) and leaves the options popped so far gone |
| TriggerData.ProcessedShape | gwsumm/plot/triggers.py:134-203 | on success the figure base follows the x column, the labels are the normalised `labels` option (the channel names by default), `logcolor` and `colorlabel` are the options' values, there is one style dictionary per channel holding every style option, and channel i's triggers are read under its cache key |
| TriggerData.ProcessedFrame | gwsumm/plot/triggers.py:152-221 | on success the labels, colouring and style options are popped; every other option keeps its value, and only `xlim` and `ylim` can be added |
| TriggerData.TriggerDataPlot.Process | gwsumm/plot/triggers.py:134-224 | the method returns exactly the outcome and leaves exactly the options that the data-shaping specification gives, on every path including the three failures |
| TriggerData.Min3 | gwsumm/plot/triggers.py:192 | a three-way `zip` is as long as its shortest list |
| TriggerHistogram.HistogramConfig | gwsumm/plot/triggers.py:358-361 | construction succeeds exactly when both `etg` and `column` are configured; `KeyError('etg')` first, then `KeyError('column')`; both are removed from the configuration |
| TriggerHistogram.HistogramPidShape | gwsumm/plot/triggers.py:363-372 | the histogram pid is the upper-cased sanitised ETG, `_`, the base pid verbatim, and, exactly when the column is set, `_` followed by the upper-cased sanitised column |
| TriggerHistogram.HistogramPidMemoAgrees | gwsumm/plot/triggers.py:363-372 | a computed pid is what is memoised, and nothing is memoised exactly when the ETG is not a string |
| TriggerHistogram.NewHistogramPlot | gwsumm/plot/triggers.py:357-360 | a histogram plot is built exactly when the merged configuration has `etg` and `column`, which are taken out of it; otherwise the `KeyError` is raised |
| TriggerHistogram.TriggerHistogramPlot.Pid | gwsumm/plot/triggers.py:363-372 | a memoised pid is returned unchanged; otherwise the pid is computed and memoised |
| TriggerHistogram.SampleProps | gwsumm/plot/triggers.py:396-416 | channel i's live time is read under its cache key; configured options keep their values; only `xlim` is added, exactly when some channel has an amplitude range, and it is the first such channel's range |
| TriggerHistogram.TriggerHistogramPlot.Sample | gwsumm/plot/triggers.py:396-416 | the loop's live times and configuration are those of the intended channel-loop specification |
| TriggerHistogram.CommonRange | gwsumm/plot/triggers.py:418-421 | with a `range` in the first histogram's arguments all arguments are unchanged; otherwise each gets `range` set to the common limits; no other option changes |
| TriggerHistogram.RangedWeighFails | gwsumm/plot/triggers.py:418-437 | settling the range does not touch the weights, so weighting the ranged arguments raises exactly when the span is zero and some histogram asks for rate weights |
| TriggerHistogram.DefaultRange | gwsumm/plot/triggers.py:418-421 | without a `range` in the first histogram's arguments every histogram gets the common limits, with one it is unchanged; no histogram arguments raise `IndexError`; the loop leaves exactly the arguments the range specification gives |
| TriggerHistogram.WeightIsRate | gwsumm/plot/triggers.py:427-431 | `weights=True` with a non-zero live time `d` becomes the rate weight `1/d`; only `weights=True` is replaced; at zero live time it stays `True` |
| TriggerHistogram.BoundKey | gwsumm/plot/triggers.py:426-437 | the rate floor goes to `xbound` exactly when the orientation is `horizontal`, and to `ybound` for any other orientation, `vertical` by default |
| TriggerHistogram.MakeHistProps | gwsumm/plot/triggers.py:425-439 | a histogram takes its label and weights out of its arguments, and `bottom` defaults to the `ybound` option |
| TriggerHistogram.WeighStuck | gwsumm/plot/triggers.py:424-441 | once the weighting loop has raised, it stays failed with the same state |
| TriggerHistogram.WeighFails | gwsumm/plot/triggers.py:427-437 | the weighting loop raises exactly when the plot's span is zero and some histogram asks for rate weights |
| TriggerHistogram.WeighKeeps | gwsumm/plot/triggers.py:432-437 | the bound floors never overwrite: configured options keep their values, only `xbound`/`ybound` are added, each new one holds half the inverse span, and every rate-weighted histogram's bound is set |
| TriggerHistogram.WeighHists | gwsumm/plot/triggers.py:424-441 | histogram i is made from its own arguments and live time and the configuration as its own floor left it |
| TriggerHistogram.WeighLegends | gwsumm/plot/triggers.py:424-441 | while the weighting loop runs, histogram i carries the label of its own arguments and the weight rule applied to its own weights and live time |
| TriggerHistogram.TriggerHistogramPlot.Weigh | gwsumm/plot/triggers.py:424-441 | the method's histograms and configuration are those of the weighting-loop specification over the shorter of live times and arguments |
| TriggerHistogram.TriggerHistogramPlot.Process | gwsumm/plot/triggers.py:378-441 | it succeeds exactly when there are histogram arguments and the span is non-zero or no histogram asks for rate weights; no histogram arguments raise `IndexError` and a zero span with rate weights `ZeroDivisionError`; the configuration afterwards is exactly what sampling the channels and then weighting the ranged arguments leave; there is one histogram per channel and argument set with its own label and weights; the configuration keeps every option but `figsize` and those the histogram and legend parsers pop, and gains at most `xlim`, `xbound` and `ybound`. The `xlim` default follows the intended line 416 (the channel's own `amplitude_range`, through `Sample`), not the line as written |
| TriggerRate.RateConfigError | gwsumm/plot/triggers.py:475-479 | a rate plot is refused exactly when `stride` is missing or `column` is given without `bins`, with the source's `ValueError` messages |
| TriggerRate.RateSetupReady | gwsumm/plot/triggers.py:468-482 | a rate plot is built exactly when the checks pass and an ETG is configured; its column is the given one or none; `stride` is kept; a set column comes with `bins`; the rate defaults are in place |
| TriggerRate.NewRatePlot | gwsumm/plot/triggers.py:474-482 | a rate plot is built exactly when its configuration checks pass, with the ETG and column taken out of the configuration; otherwise the error is raised |
| TriggerRate.BinningOf | gwsumm/plot/triggers.py:504-510 | popping the rate options fails exactly when `stride` is missing, or the column is set and `bins` is missing, and keeps the stride |
| TriggerRate.BinningRest | gwsumm/plot/triggers.py:504-510 | popping the rate options removes `stride` and, for a column with bins, `bins` and `operator`, and nothing else |
| TriggerRate.TriggerRatePlot.PopBinning | gwsumm/plot/triggers.py:504-510 | `stride` is required; without a column there is the single bin `_`; with one, `bins` is required and the operator defaults to `>=`; the result and the remaining options are those the rate-option specification gives |
| TriggerRate.RateLabelsGiven | gwsumm/plot/triggers.py:513-526 | a given label string wins and is split on commas, each label stripped |
| TriggerRate.RateLabelsCross | gwsumm/plot/triggers.py:516-520 | with a column and several channels there are \|channels\|·\|bins\| labels, and the label at i·\|bins\|+j names channel i and bin j; this follows the intended line 520 (the loop's own bin), not the line as written |
| TriggerRate.RateLabelsPerBin | gwsumm/plot/triggers.py:521-523 | with a column and one channel there is one label per bin, naming the bin |
| TriggerRate.RateLabelsChannels | gwsumm/plot/triggers.py:524-526 | without labels or a column the labels are the channel names |
| TriggerRate.TriggerRatePlot.SetLabels | gwsumm/plot/triggers.py:513-526 | the labels option is replaced by the computed labels; the several-channel labels follow the intended line 520, not the line as written |
| TriggerRate.RateLabelsAsWrittenCross | gwsumm/plot/triggers.py:516-520 | as written, with a column and several channels, the label at i·\|bins\|+j names channel i and the last bin, whatever j is |
| TriggerRate.RateLabelsAsWrittenAgrees | gwsumm/plot/triggers.py:513-526 | the labels as written and the intended labels succeed together and are equally many, and they are equal except in the several-channel branch with iterable bins |
| TriggerRate.CrossLabelsLastBin | gwsumm/plot/triggers.py:518-520 | with several channels and two bins that print differently, such as 5 and 8, the first label as written equals the intended label of the last bin and differs from the intended label of the first bin |
| TriggerRate.RateKeyParts | gwsumm/plot/triggers.py:548-550 | a rate key is `<channel>_<etg>_EVENT_RATE_<column>_<bin>`, starting with the channel and ending with the bin |
| TriggerRate.RateKeysOrder | gwsumm/plot/triggers.py:530-550 | the keys are channel-major: channel i's key for bin j sits at i·\|bins\|+j |
| TriggerRate.InsertAbsentKeeps | gwsumm/plot/triggers.py:551-552 | cached series are never replaced, and the cache afterwards holds the old keys and the new keys |
| TriggerRate.InsertAbsentFirst | gwsumm/plot/triggers.py:551-552 | a key that was not cached gets the series of its first entry |
| TriggerRate.InsertAbsentCached | gwsumm/plot/triggers.py:551-552 | entries whose keys are all cached change nothing |
| TriggerRate.InsertAbsentIdempotent | gwsumm/plot/triggers.py:551-552 | a repeated run adds nothing to the cache |
| TriggerRate.DataCache.AddIfAbsent | gwsumm/plot/triggers.py:551-552 | a series is cached under its key only when the key is absent |
| TriggerRate.InsertRow | gwsumm/plot/triggers.py:546-552 | the inner loop appends each entry's key in order and inserts each series into the cache only when its key is absent |
| TriggerRate.TriggerRatePlot.AddChannel | gwsumm/plot/triggers.py:530-552 | one channel contributes one key per bin with a rate, in bin order, and its series are inserted if absent; the trigger key follows the intended line 536, not the line as written |
| TriggerRate.TriggerRatePlot.Generate | gwsumm/plot/triggers.py:529-552 | the keys are those of the channel-major entries, and the cache is the old one with those entries inserted if absent; bins that cannot be iterated raise `TypeError`; the result and the cache are those the data-loop specification gives; the trigger key follows the intended line 536, not the line as written |
| TriggerRate.TriggerRatePlot.DrawRates | gwsumm/plot/triggers.py:555-559 | the base plot draws the rate keys; the channel list is restored when drawing succeeds and left swapped when it raises |
| TriggerRate.TriggerRatePlot.Process | gwsumm/plot/triggers.py:499-560 | it succeeds exactly when the rate options, the labels, the data loop and the drawing all succeed; a missing `stride` or `bins` raises `KeyError`, bad labels or bins `TypeError`, and drawing its own error, each leaving the options popped so far gone and the cache untouched up to the data loop; on success the options are the old ones without the rate options and with `labels` set to the computed labels, the channel list is restored, the cache holds the rate entries, and the result is their keys; the trigger key follows the intended line 536 and the several-channel labels the intended line 520, not the lines as written |
| TriggerRate.RateTriggerKeyDefect | gwsumm/plot/triggers.py:535-538 | the data loop as written raises `NameError` exactly for tagged channels, for example `H1:GDS-CALIB_STRAIN#omicron`; untagged channels get their cache key |
| TriggerHistogram.SampleAsWrittenFails | gwsumm/plot/triggers.py:415-416 | the histogram channel loop as written raises `NameError` exactly when some channel has an amplitude range, and otherwise agrees with the intended loop |
| TriggerHistogram.AmplitudeRangeNameError | gwsumm/plot/triggers.py:415-416 | one channel with an amplitude range makes the loop as written raise, where the intended loop sets it as `xlim` |

## Left out

- Drawing goes through gwpy and matplotlib and is not modelled. This covers the figures, `plot_table`, `hist`, `plot`, colour bars, legends, `add_loudest`, state-segment overlays and `finalize`.
- Segment arithmetic (`SegmentList`, `self.state.active`) is external. The model passes trigger counts and live times as functions of the cache key.
- The trigger, channel and rate lookups are parameters: `get_triggers`, `get_channel`, `get_table_column`, `event_rate` and `binned_event_rates`. A channel that does not resolve has no attributes.
- `ax.common_limits(data)` is a parameter (`limits`) of `DefaultRange`.
- `parse_plot_kwargs` and `parse_legend_kwargs` belong to the base class. The histogram arguments they parse are a parameter (`histargs`), and the option names they pop are a parameter (`consumed`) that the histogram `Process` removes from the configuration. The legend arguments themselves only feed the drawing.
- The rest of the base-class `process` in the rate plot is a parameter (`renders`). The model keeps only whether it raises.
- `re_cchar` lives in `gwsumm/utils`, which is not part of this model. The sanitiser replaces each character that an abstract predicate `cchar` selects with `_`.
- `str()` of a float is an abstract function `showReal`. Python's float formatting is not modelled.
- Floating-point handling is left out:
  - the infinite-ylim reset;
  - replacing zeros by `1e-100`;
  - parsing of horizontal lines;
  - the float conversions of `start`, `end` and `span`.

  The live time and the plot's span are `real` values.
- The reflective `set_<key>` dispatch is not modelled, nor are the title, log-scale and legend options it applies after the shaping.
- `TriggerTimeSeriesDataPlot` is outside the modelled core. Its configuration effects are therefore not modelled either: it pops and normalises `labels` (gwsumm/plot/triggers.py:287-290), reads `hline` without a default on every call, so a missing `hline` raises `KeyError` (322), and reads `logy` without a default only inside the loop over a channel's data, so a missing `logy` raises `KeyError` only once some channel has data (301-308), and `setdefault`s `ylim` from a channel's `amplitude_range` (318-319).
- The `_threadsafe` flag is not modelled; it is a hint to the scheduler.
- The `print` of an unresolved channel in the histogram loop is not modelled.
- `TriggerRateDataPlot.pid` (gwsumm/plot/triggers.py:484-493) is not modelled. As written it returns a local string without memoising it, and with a column set it assigns to the property itself.
- `TriggerPlotMixin.channels` is not modelled separately. A plot's `channels` field holds the raw identifiers, which is what the mixin's accessor stores and returns.
- The base class's `__init__` is not part of this model. The constructors (`TriggerDataPlot`, `NewHistogramPlot`, `RateSetup`, `NewRatePlot`) assume it stores the configuration as the class defaults updated by all keyword arguments. A keyword that the base constructor takes as a parameter of its own, such as `state` or `outdir`, would not reach the configuration there.
- The base classes' `pid` is a constructor argument (`basePid`). `TriggerDataPlot.Pid` assumes the base getter memoises the base pid into `_pid` before the ETG is appended, which is what line 115 relies on.
- Channel objects are identified with their names. `str(channel)` of a resolved channel is taken to be the identifier, and the rate plot's channels are identifier strings.
- Python 2 `cycle` objects passed as option values are not a separate kind of value. Lists stand for lists, tuples and cycles.
- `TriggerRate.TriggerRatePlot.DrawRates`: `outputfile` is only passed through to the base class and is not modelled.

Where the code and its documentation differ, the model follows the code:

- `allchannels` is documented as the unique channels, but it keeps one entry per identifier, duplicates included.
- Rate weighting at zero live time is described as falling back to no weighting. The code swallows the `ZeroDivisionError` and keeps `weights=True`.
- The rate floor `1/abs(span) * .5` is not guarded, so a zero span raises `ZeroDivisionError`.
- The histogram pid puts the ETG before the base pid, and only its ETG and column parts are upper-cased.
- The data-plot pid upper-cases the whole string and records which columns are set, but not their roles.

## Findings

| source | as written | input that shows it | evidently intended | confidence | as-written member | corrected member |
|---|---|---|---|---|---|---|
| gwsumm/plot/triggers.py:536 | the rate plot's cache key for a tagged channel reads `state`, a name that is not defined in `process` | a tagged channel such as `H1:GDS-CALIB_STRAIN#omicron` raises `NameError` | `self.state`, as at lines 198-199 | not executed | TriggerRate.RateTriggerKeyDefect | TriggerCommon.TriggerKeyChannel |
| gwsumm/plot/triggers.py:518-520 | the several-channel label reads `str(b)`, the name that the list comprehension leaks in Python 2, which holds the last bin; the loop's own variable is `bin` | channels `H1:A` and `L1:B`, column `snr`, bins [5, 8], operator `>=`: the labels are `H1:A snr $>=$ 8` twice, then `L1:B snr $>=$ 8` twice | `str(bin)`: the label of channel i and bin j names bin j | not executed | TriggerRate.CrossLabelsLastBin | TriggerRate.RateLabelsCross |
| gwsumm/plot/triggers.py:416 | the histogram's `xlim` default reads `c.amplitude_range`, and `c` is not defined in `process` | any channel whose attributes include `amplitude_range`, e.g. `L1:GDS-CALIB_STRAIN` | `channel.amplitude_range` | not executed | TriggerHistogram.SampleAsWrittenFails | TriggerHistogram.SampleProps |
