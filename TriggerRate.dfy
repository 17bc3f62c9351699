/** `TriggerRateDataPlot` of gwsumm/plot/triggers.py: a time series of
    trigger rates, one series per channel (and per column bin when a column
    is binned). Modelled here: the configuration checks and defaults of
    `__init__`, and the data-shaping part of `process` — the rate options,
    the legend labels, the rate-series keys and their insertion into the
    global data cache, and the temporary swap of the channel list while the
    time-series base class draws the series. */
module TriggerRate {
  import opened Strings
  import opened Values
  import opened TriggerCommon

  // ---------------------------------------------------------------------
  // Construction

  const StrideMissing := "'stride' must be configured for all rate plots."
  const BinsMissing := "'bins' must be configured for rate plots if 'column' is given."

  /** The checks `__init__` makes on the keyword arguments before anything
      else: a rate plot needs a `stride`, and a `column` needs `bins`. */
  function RateConfigError(kwargs: map<string, Value>): (r: Option<PlotError>)
    ensures r.None? <==> "stride" in kwargs && ("column" in kwargs ==> "bins" in kwargs)
    ensures "stride" !in kwargs ==> r == Some(ValueError(StrideMissing))
    ensures "stride" in kwargs && "column" in kwargs && "bins" !in kwargs ==> r == Some(ValueError(BinsMissing))
  {
    if "stride" !in kwargs then Some(ValueError(StrideMissing))
    else if "column" in kwargs && "bins" !in kwargs then Some(ValueError(BinsMissing))
    else None
  }

  /** The options `TriggerRateDataPlot.defaults` adds to (or overrides in)
      the time-series defaults. */
  const RateExtras: map<string, Value> := map[
    "column" := Null,
    "legend_bbox_to_anchor" := Seq([Real(1.15), Real(1.1)]),
    "legend_markerscale" := Int(3),
    "ylabel" := Str("Rate [Hz]")]

  /** The ETG, the column and the remaining configuration. */
  datatype RateConfig = RateConfig(etg: Value, column: Value, pargs: map<string, Value>)

  /** `__init__`: the checks, then the defaults merged with the keyword
      arguments, then `etg` (which must be configured) and `column` popped. */
  function RateSetup(baseDefaults: map<string, Value>, kwargs: map<string, Value>): (r: Result<RateConfig>)
  {
    var check := RateConfigError(kwargs);
    if check.Some? then Err(check.value)
    else
      var merged := baseDefaults + RateExtras + kwargs;
      if "etg" !in merged then Err(KeyError("etg"))
      else
        var rest := merged - {"etg"};
        Ok(RateConfig(merged["etg"], rest["column"], rest - {"column"}))
  }

  /** A rate plot is built exactly when the checks pass and an ETG is
      configured. Then the column is the configured one (none by default),
      the options `process` pops first are present, and every rate default
      not overridden is in place. */
  lemma RateSetupReady(baseDefaults: map<string, Value>, kwargs: map<string, Value>)
    ensures var r := RateSetup(baseDefaults, kwargs);
      r.Ok? <==> RateConfigError(kwargs).None? && ("etg" in kwargs || "etg" in baseDefaults)
    ensures var r := RateSetup(baseDefaults, kwargs);
      r.Ok? ==>
        r.value.column == GetOr(kwargs, "column", Null) &&
        "stride" in r.value.pargs && r.value.pargs["stride"] == kwargs["stride"] &&
        (Truthy(r.value.column) ==> "bins" in r.value.pargs) &&
        "etg" !in r.value.pargs && "column" !in r.value.pargs &&
        r.value.pargs["ylabel"] == GetOr(kwargs, "ylabel", Str("Rate [Hz]")) &&
        r.value.pargs["legend_markerscale"] == GetOr(kwargs, "legend_markerscale", Int(3))
  {
  }

  // ---------------------------------------------------------------------
  // Flattening

  /** The rows of a nested list comprehension, concatenated in order. */
  function Flatten<T>(rows: seq<seq<T>>): seq<T>
  {
    if rows == [] then [] else Flatten(rows[..|rows| - 1]) + rows[|rows| - 1]
  }

  /** Arithmetic helper for the row-offset proofs: one more row adds
      one more width. */
  lemma MulStep(i: nat, w: nat)
    ensures (i + 1) * w == i * w + w
  {
  }

  /** Arithmetic helper for the row-offset proofs: fewer rows take no
      more room. */
  lemma {:induction false} MulLe(a: nat, b: nat, w: nat)
    requires a <= b
    ensures a * w <= b * w
    decreases b - a
  {
    if a < b {
      MulLe(a, b - 1, w);
      MulStep(b - 1, w);
    }
  }

  /** Rows of equal width `w` flatten to `|rows| * w` elements. */
  lemma {:induction false} FlattenLength<T>(rows: seq<seq<T>>, w: nat)
    requires forall i :: 0 <= i < |rows| ==> |rows[i]| == w
    ensures |Flatten(rows)| == |rows| * w
  {
    if rows != [] {
      FlattenLength(rows[..|rows| - 1], w);
      MulStep(|rows| - 1, w);
    }
  }

  /** With rows of equal width `w`, element `j` of row `i` sits at `i*w + j`. */
  lemma {:induction false} FlattenAt<T>(rows: seq<seq<T>>, w: nat, i: nat, j: nat)
    requires forall k :: 0 <= k < |rows| ==> |rows[k]| == w
    requires i < |rows| && j < w
    ensures i * w + j < |Flatten(rows)| && Flatten(rows)[i * w + j] == rows[i][j]
    decreases |rows|
  {
    var n := |rows|;
    var init := rows[..n - 1];
    FlattenLength(init, w);
    MulStep(i, w);
    if i < n - 1 {
      FlattenAt(init, w, i, j);
      MulLe(i + 1, n - 1, w);
    }
  }

  /** Appending one row appends its elements. */
  lemma FlattenSnoc<T>(rows: seq<seq<T>>, row: seq<T>)
    ensures Flatten(rows + [row]) == Flatten(rows) + row
  {
    assert (rows + [row])[..|rows|] == rows;
  }

  // ---------------------------------------------------------------------
  // Labels

  /** One generated label: the leading words (the channel, or nothing),
      the column name, the comparison operator between dollar signs and
      the bin, joined by spaces. */
  function BinLabel(lead: seq<string>, cname: string, operator: Value, bin: Value, showReal: real -> string): string
  {
    Join(lead + [cname, "$" + ToStr(operator, showReal) + "$", ToStr(bin, showReal)], " ")
  }

  /** The channel × bin labels, one row per channel. */
  function LabelRows(channels: seq<string>, bins: seq<Value>, cname: string, operator: Value,
                     showReal: real -> string): (rows: seq<seq<string>>)
    ensures |rows| == |channels| && forall i :: 0 <= i < |rows| ==> |rows[i]| == |bins|
  {
    seq(|channels|, i requires 0 <= i < |channels| =>
      seq(|bins|, j requires 0 <= j < |bins| => BinLabel([channels[i]], cname, operator, bins[j], showReal)))
  }

  /** The legend labels of a rate plot, by precedence: labels given in the
      configuration (a comma-separated string or a list); without them and
      with a binned column, one label per channel and bin (channel-major)
      when there are several channels, else one per bin; else the channel
      names. Every label is `str()`-ed and stripped of newlines and spaces.
      Bins that cannot be iterated raise `TypeError`. */
  function RateLabels(given: Value, column: Value, channels: seq<string>, bins: Value, cname: string,
                      operator: Value, showReal: real -> string): Result<seq<string>>
  {
    if !given.Null? then NormaliseLabels(given, showReal)
    else if Truthy(column) then
      match Iterate(bins)
      case Err(e) => Err(e)
      case Ok(bs) =>
        if |channels| > 1 then Ok(StrippedStrs(Strs(Flatten(LabelRows(channels, bs, cname, operator, showReal))), showReal))
        else Ok(StrippedStrs(Strs(seq(|bs|, j requires 0 <= j < |bs| => BinLabel([], cname, operator, bs[j], showReal))), showReal))
    else Ok(StrippedStrs(Strs(channels), showReal))
  }

  /** Given labels win over everything; a string is split on commas. */
  lemma RateLabelsGiven(given: Value, column: Value, channels: seq<string>, bins: Value, cname: string,
                        operator: Value, showReal: real -> string)
    requires given.Str?
    ensures var r := RateLabels(given, column, channels, bins, cname, operator, showReal);
      r.Ok? && |r.value| == |Split(given.s, ',')| &&
      forall i :: 0 <= i < |r.value| ==> r.value[i] == Strip(Split(given.s, ',')[i])
  {
  }

  /** Label `j` of row `i` of the cross product, in the flattened list. */
  lemma CrossLabelAt(channels: seq<string>, bins: seq<Value>, cname: string, operator: Value,
                     showReal: real -> string, i: nat, j: nat)
    requires i < |channels| && j < |bins|
    ensures var flat := Flatten(LabelRows(channels, bins, cname, operator, showReal));
      |flat| == |channels| * |bins| && i * |bins| + j < |flat| &&
      flat[i * |bins| + j] == BinLabel([channels[i]], cname, operator, bins[j], showReal)
  {
    var rows := LabelRows(channels, bins, cname, operator, showReal);
    FlattenLength(rows, |bins|);
    FlattenAt(rows, |bins|, i, j);
  }

  /** Without given labels, several channels and a binned column give the
      channel-major cross product: the label of channel `i` and bin `j` is
      at `i * |bins| + j`. */
  lemma RateLabelsCross(column: Value, channels: seq<string>, bins: seq<Value>, cname: string,
                        operator: Value, showReal: real -> string, i: nat, j: nat)
    requires Truthy(column) && |channels| > 1
    requires i < |channels| && j < |bins|
    ensures var r := RateLabels(Null, column, channels, Seq(bins), cname, operator, showReal);
      r.Ok? && |r.value| == |channels| * |bins| && i * |bins| + j < |r.value| &&
      r.value[i * |bins| + j] == Strip(BinLabel([channels[i]], cname, operator, bins[j], showReal))
  {
    var flat := Flatten(LabelRows(channels, bins, cname, operator, showReal));
    assert RateLabels(Null, column, channels, Seq(bins), cname, operator, showReal) ==
           Ok(StrippedStrs(Strs(flat), showReal));
    CrossLabelAt(channels, bins, cname, operator, showReal, i, j);
    var k := i * |bins| + j;
    assert Strs(flat)[k] == Str(flat[k]);
  }

  /** Without given labels, one channel (or none) and a binned column give
      one label per bin, without the channel name. */
  lemma RateLabelsPerBin(column: Value, channels: seq<string>, bins: seq<Value>, cname: string,
                         operator: Value, showReal: real -> string)
    requires Truthy(column) && |channels| <= 1
    ensures var r := RateLabels(Null, column, channels, Seq(bins), cname, operator, showReal);
      r.Ok? && |r.value| == |bins| &&
      forall j :: 0 <= j < |bins| ==> r.value[j] == Strip(BinLabel([], cname, operator, bins[j], showReal))
  {
  }

  /** Without given labels or a column, the labels are the channel names. */
  lemma RateLabelsChannels(column: Value, channels: seq<string>, bins: Value, cname: string,
                           operator: Value, showReal: real -> string)
    requires !Truthy(column)
    ensures var r := RateLabels(Null, column, channels, bins, cname, operator, showReal);
      r.Ok? && |r.value| == |channels| && forall i :: 0 <= i < |channels| ==> r.value[i] == Strip(channels[i])
  {
  }

  /** The channel × bin labels as written: the label text reads `b`, the
      name the list comprehension over the channel and bin pairs leaves
      behind in Python 2, which holds the last bin, not the loop's own bin. */
  function LastBinRows(channels: seq<string>, bins: seq<Value>, cname: string, operator: Value,
                       showReal: real -> string): (rows: seq<seq<string>>)
    ensures |rows| == |channels| && forall i :: 0 <= i < |rows| ==> |rows[i]| == |bins|
  {
    seq(|channels|, i requires 0 <= i < |channels| =>
      seq(|bins|, j requires 0 <= j < |bins| => BinLabel([channels[i]], cname, operator, bins[|bins| - 1], showReal)))
  }

  /** The legend labels as written: like `RateLabels` except in the
      several-channel branch, where every label names the last bin. */
  function RateLabelsAsWritten(given: Value, column: Value, channels: seq<string>, bins: Value, cname: string,
                               operator: Value, showReal: real -> string): Result<seq<string>>
  {
    if !given.Null? || !Truthy(column) || |channels| <= 1 then RateLabels(given, column, channels, bins, cname, operator, showReal)
    else
      match Iterate(bins)
      case Err(e) => Err(e)
      case Ok(bs) => Ok(StrippedStrs(Strs(Flatten(LastBinRows(channels, bs, cname, operator, showReal))), showReal))
  }

  /** As written, the label of channel `i` and bin `j` (at `k = i * |bins| + j`)
      names the last bin whatever `j` is. */
  lemma RateLabelsAsWrittenCross(column: Value, channels: seq<string>, bins: seq<Value>, cname: string,
                                 operator: Value, showReal: real -> string, i: nat, j: nat, k: nat)
    requires Truthy(column) && |channels| > 1
    requires i < |channels| && j < |bins| && k == i * |bins| + j
    ensures var r := RateLabelsAsWritten(Null, column, channels, Seq(bins), cname, operator, showReal);
      r.Ok? && |r.value| == |channels| * |bins| && k < |r.value| &&
      r.value[k] == Strip(BinLabel([channels[i]], cname, operator, bins[|bins| - 1], showReal))
  {
    var rows := LastBinRows(channels, bins, cname, operator, showReal);
    var flat := Flatten(rows);
    assert RateLabelsAsWritten(Null, column, channels, Seq(bins), cname, operator, showReal) ==
           Ok(StrippedStrs(Strs(flat), showReal));
    FlattenLength(rows, |bins|);
    FlattenAt(rows, |bins|, i, j);
    assert Strs(flat)[k] == Str(flat[k]);
  }

  /** The labels as written differ from the intended ones only in which
      bin the several-channel labels name: elsewhere, and for bins that
      cannot be iterated, they are the same, and they always succeed
      together with the same number of labels. */
  lemma RateLabelsAsWrittenAgrees(given: Value, column: Value, channels: seq<string>, bins: Value, cname: string,
                                  operator: Value, showReal: real -> string)
    ensures var w := RateLabelsAsWritten(given, column, channels, bins, cname, operator, showReal);
      var r := RateLabels(given, column, channels, bins, cname, operator, showReal);
      (!(given.Null? && Truthy(column) && |channels| > 1) || Iterate(bins).Err? ==> w == r) &&
      (w.Ok? <==> r.Ok?) && (w.Ok? ==> |w.value| == |r.value|)
  {
    if given.Null? && Truthy(column) && |channels| > 1 && Iterate(bins).Ok? {
      var bs := Iterate(bins).value;
      FlattenLength(LastBinRows(channels, bs, cname, operator, showReal), |bs|);
      FlattenLength(LabelRows(channels, bs, cname, operator, showReal), |bs|);
    }
  }

  /** A label ends with the last character its bin prints as, when that
      character is not blank. */
  lemma BinLabelLast(lead: seq<string>, cname: string, operator: Value, bin: Value, showReal: real -> string)
    requires var t := ToStr(bin, showReal); t != [] && !IsBlank(t[|t| - 1])
    ensures var t := ToStr(bin, showReal); var l := Strip(BinLabel(lead, cname, operator, bin, showReal));
      l != [] && l[|l| - 1] == t[|t| - 1]
  {
    var parts := lead + [cname, "$" + ToStr(operator, showReal) + "$", ToStr(bin, showReal)];
    assert parts[|parts| - 1] == ToStr(bin, showReal);
    JoinLast(parts, " ");
    assert BinLabel(lead, cname, operator, bin, showReal) == Join(parts, " ");
    StripLast(Join(parts, " "));
  }

  /** The discrepancy: with several channels and at least two bins whose
      first and last print with different last characters (the bins 5 and
      8, say), the first label as written names the last bin, so it is the
      intended label of that bin and not the intended label of the first. */
  lemma CrossLabelsLastBin(column: Value, channels: seq<string>, bins: seq<Value>, cname: string,
                           operator: Value, showReal: real -> string)
    requires Truthy(column) && |channels| > 1 && |bins| > 1
    requires var first := ToStr(bins[0], showReal); var last := ToStr(bins[|bins| - 1], showReal);
      first != [] && last != [] && !IsBlank(first[|first| - 1]) && !IsBlank(last[|last| - 1]) &&
      first[|first| - 1] != last[|last| - 1]
    ensures var w := RateLabelsAsWritten(Null, column, channels, Seq(bins), cname, operator, showReal);
      var r := RateLabels(Null, column, channels, Seq(bins), cname, operator, showReal);
      w.Ok? && r.Ok? && |w.value| == |r.value| > |bins| &&
      w.value[0] == w.value[|bins| - 1] == r.value[|bins| - 1] && w.value[0] != r.value[0]
  {
    var n := |bins| - 1;
    var w := RateLabelsAsWritten(Null, column, channels, Seq(bins), cname, operator, showReal);
    var r := RateLabels(Null, column, channels, Seq(bins), cname, operator, showReal);
    var lastLabel := Strip(BinLabel([channels[0]], cname, operator, bins[n], showReal));
    var firstLabel := Strip(BinLabel([channels[0]], cname, operator, bins[0], showReal));
    assert lastLabel != firstLabel by {
      BinLabelLast([channels[0]], cname, operator, bins[0], showReal);
      BinLabelLast([channels[0]], cname, operator, bins[n], showReal);
    }
    assert w.Ok? && |w.value| == |channels| * |bins| && w.value[0] == lastLabel by {
      RateLabelsAsWrittenCross(column, channels, bins, cname, operator, showReal, 0, 0, 0);
    }
    assert w.value[n] == lastLabel by {
      RateLabelsAsWrittenCross(column, channels, bins, cname, operator, showReal, 0, n, n);
    }
    assert r.Ok? && |r.value| == |channels| * |bins| && r.value[0] == firstLabel by {
      RateLabelsCross(column, channels, bins, cname, operator, showReal, 0, 0);
      assert 0 * |bins| + 0 == 0;
    }
    assert r.value[n] == lastLabel by {
      RateLabelsCross(column, channels, bins, cname, operator, showReal, 0, n);
      assert 0 * |bins| + n == n;
    }
    assert |channels| * |bins| > |bins| by {
      MulLe(2, |channels|, |bins|);
    }
  }

  // ---------------------------------------------------------------------
  // Rate series and their keys

  /** A rate series: its values (computed by the rate utilities) and the
      channel it is labelled with. */
  datatype Series = Series(rates: seq<real>, channel: string)

  /** A rate series under the key it is cached as. */
  datatype Entry = Entry(key: string, series: Series)

  /** `<channel>_<etg>_EVENT_RATE_<column>_<bin>`, each part `str()`-ed. */
  function RateKey(channel: string, etg: Value, column: Value, bin: Value, showReal: real -> string): string
  {
    channel + "_" + ToStr(etg, showReal) + "_EVENT_RATE_" + ToStr(column, showReal) + "_" + ToStr(bin, showReal)
  }

  /** A rate key starts with the channel and the ETG and ends with the bin. */
  lemma RateKeyParts(channel: string, etg: Value, column: Value, bin: Value, showReal: real -> string)
    ensures var key := RateKey(channel, etg, column, bin, showReal);
      var head := channel + "_" + ToStr(etg, showReal) + "_EVENT_RATE_";
      head <= key && key[|key| - |ToStr(bin, showReal)|..] == ToStr(bin, showReal)
  {
    var head := channel + "_" + ToStr(etg, showReal) + "_EVENT_RATE_";
    PrefixSuffix(head, ToStr(column, showReal) + "_", ToStr(bin, showReal));
  }

  /** A concatenation starts with its first part and ends with its last. */
  lemma PrefixSuffix(head: string, mid: string, tail: string)
    ensures var s := head + mid + tail; head <= s && s[|s| - |tail|..] == tail
  {
    var s := head + mid + tail;
    assert s[..|head|] == head;
    assert s[|s| - |tail|..] == tail;
  }

  /** The rate series of one channel's triggers (read under `key`): one per
      bin from `binned` when a column is binned, else the single series
      `single` gives. */
  function RatesFor(key: string, column: Value, binned: string -> seq<Series>, single: string -> Series): seq<Series>
  {
    if Truthy(column) then binned(key) else [single(key)]
  }

  /** One channel's entries: `zip(bins, rates)`, each series labelled with
      the channel and keyed by channel, ETG, column and bin. */
  function RowEntries(channel: string, state: Option<string>, etg: Value, column: Value, bins: seq<Value>,
                      binned: string -> seq<Series>, single: string -> Series, showReal: real -> string): (row: seq<Entry>)
  {
    ZipEntries(channel, etg, column, bins, RatesFor(TriggerKey(channel, state), column, binned, single), showReal)
  }

  /** `zip(bins, rates)`, each pair made into an entry. */
  function ZipEntries(channel: string, etg: Value, column: Value, bins: seq<Value>, rates: seq<Series>,
                      showReal: real -> string): (row: seq<Entry>)
    ensures |row| == Min2(|bins|, |rates|)
    ensures forall j :: 0 <= j < |row| ==> row[j] == EntryAt(channel, etg, column, bins[j], rates[j], showReal)
  {
    seq(Min2(|bins|, |rates|), j requires 0 <= j < Min2(|bins|, |rates|) =>
      EntryAt(channel, etg, column, bins[j], rates[j], showReal))
  }

  /** One bin's series, labelled with the channel, under its rate key. */
  function EntryAt(channel: string, etg: Value, column: Value, bin: Value, rate: Series, showReal: real -> string): Entry
  {
    Entry(RateKey(channel, etg, column, bin, showReal), rate.(channel := channel))
  }

  function Rows(channels: seq<string>, state: Option<string>, etg: Value, column: Value, bins: seq<Value>,
                binned: string -> seq<Series>, single: string -> Series, showReal: real -> string): (rows: seq<seq<Entry>>)
    ensures |rows| == |channels|
  {
    seq(|channels|, i requires 0 <= i < |channels| => RowEntries(channels[i], state, etg, column, bins, binned, single, showReal))
  }

  /** The keys of a list of entries, in order. */
  function KeysOf(entries: seq<Entry>): (keys: seq<string>)
    ensures |keys| == |entries| && forall i :: 0 <= i < |entries| ==> keys[i] == entries[i].key
  {
    seq(|entries|, i requires 0 <= i < |entries| => entries[i].key)
  }

  /** The keys of two lists of entries, one after the other. */
  lemma KeysOfAppend(a: seq<Entry>, b: seq<Entry>)
    ensures KeysOf(a + b) == KeysOf(a) + KeysOf(b)
  {
  }

  /** When every channel has a series for every bin, the keys list holds
      channel `i`'s key for bin `j` at `k = i * |bins| + j`. */
  lemma RateKeysOrder(channels: seq<string>, state: Option<string>, etg: Value, column: Value, bins: seq<Value>,
                      binned: string -> seq<Series>, single: string -> Series, showReal: real -> string,
                      i: nat, j: nat, k: nat)
    requires forall c :: c in channels ==> |RatesFor(TriggerKey(c, state), column, binned, single)| >= |bins|
    requires i < |channels| && j < |bins| && k == i * |bins| + j
    ensures var keys := KeysOf(Flatten(Rows(channels, state, etg, column, bins, binned, single, showReal)));
      |keys| == |channels| * |bins| && k < |keys| && keys[k] == RateKey(channels[i], etg, column, bins[j], showReal)
  {
    RowsFlatKeyAt(channels, state, etg, column, bins, binned, single, showReal, i, j, k);
    RowsEntryKey(channels, state, etg, column, bins, binned, single, showReal, i, j);
  }

  /** Where entry `j` of channel `i`'s row lands among the flattened keys. */
  lemma RowsFlatKeyAt(channels: seq<string>, state: Option<string>, etg: Value, column: Value, bins: seq<Value>,
                      binned: string -> seq<Series>, single: string -> Series, showReal: real -> string,
                      i: nat, j: nat, k: nat)
    requires forall c :: c in channels ==> |RatesFor(TriggerKey(c, state), column, binned, single)| >= |bins|
    requires i < |channels| && j < |bins| && k == i * |bins| + j
    ensures var rows := Rows(channels, state, etg, column, bins, binned, single, showReal);
      var keys := KeysOf(Flatten(rows));
      |keys| == |channels| * |bins| && k < |keys| && j < |rows[i]| && keys[k] == rows[i][j].key
  {
    var rows := Rows(channels, state, etg, column, bins, binned, single, showReal);
    RowsWidth(channels, state, etg, column, bins, binned, single, showReal);
    FlattenKeyAt(rows, |bins|, i, j);
  }

  /** Entry `j` of channel `i`'s row carries that channel's key for bin `j`. */
  lemma RowsEntryKey(channels: seq<string>, state: Option<string>, etg: Value, column: Value, bins: seq<Value>,
                     binned: string -> seq<Series>, single: string -> Series, showReal: real -> string, i: nat, j: nat)
    requires forall c :: c in channels ==> |RatesFor(TriggerKey(c, state), column, binned, single)| >= |bins|
    requires i < |channels| && j < |bins|
    ensures var rows := Rows(channels, state, etg, column, bins, binned, single, showReal);
      j < |rows[i]| && rows[i][j].key == RateKey(channels[i], etg, column, bins[j], showReal)
  {
    var rows := Rows(channels, state, etg, column, bins, binned, single, showReal);
    assert channels[i] in channels;
    RowKeyAt(channels[i], state, etg, column, bins, binned, single, showReal, j);
    assert rows[i] == RowEntries(channels[i], state, etg, column, bins, binned, single, showReal);
  }

  /** When every channel has a series for every bin, every row has one
      entry per bin. */
  lemma RowsWidth(channels: seq<string>, state: Option<string>, etg: Value, column: Value, bins: seq<Value>,
                  binned: string -> seq<Series>, single: string -> Series, showReal: real -> string)
    requires forall c :: c in channels ==> |RatesFor(TriggerKey(c, state), column, binned, single)| >= |bins|
    ensures var rows := Rows(channels, state, etg, column, bins, binned, single, showReal);
      forall k :: 0 <= k < |rows| ==> |rows[k]| == |bins|
  {
    var rows := Rows(channels, state, etg, column, bins, binned, single, showReal);
    forall k | 0 <= k < |rows| ensures |rows[k]| == |bins| {
      assert channels[k] in channels;
      RowWidth(channels[k], state, etg, column, bins, binned, single, showReal);
    }
  }

  /** In rows of equal width `w`, the key of entry `j` of row `i` sits at
      `i * w + j` of the flattened keys. */
  lemma FlattenKeyAt(rows: seq<seq<Entry>>, w: nat, i: nat, j: nat)
    requires forall k :: 0 <= k < |rows| ==> |rows[k]| == w
    requires i < |rows| && j < w
    ensures var keys := KeysOf(Flatten(rows));
      |keys| == |rows| * w && i * w + j < |keys| && keys[i * w + j] == rows[i][j].key
  {
    FlattenLength(rows, w);
    FlattenAt(rows, w, i, j);
  }

  /** A channel with a series for every bin has one entry per bin. */
  lemma RowWidth(channel: string, state: Option<string>, etg: Value, column: Value, bins: seq<Value>,
                 binned: string -> seq<Series>, single: string -> Series, showReal: real -> string)
    requires |RatesFor(TriggerKey(channel, state), column, binned, single)| >= |bins|
    ensures |RowEntries(channel, state, etg, column, bins, binned, single, showReal)| == |bins|
  {
  }

  /** Entry `j` of a channel's row is keyed by the channel and bin `j`. */
  lemma RowKeyAt(channel: string, state: Option<string>, etg: Value, column: Value, bins: seq<Value>,
                 binned: string -> seq<Series>, single: string -> Series, showReal: real -> string, j: nat)
    requires |RatesFor(TriggerKey(channel, state), column, binned, single)| >= |bins| && j < |bins|
    ensures var row := RowEntries(channel, state, etg, column, bins, binned, single, showReal);
      j < |row| && row[j].key == RateKey(channel, etg, column, bins[j], showReal)
  {
  }

  // ---------------------------------------------------------------------
  // The global data cache

  /** `add_timeseries` for each entry whose key is not yet cached, in order. */
  function InsertAbsent(data: map<string, seq<Series>>, entries: seq<Entry>): map<string, seq<Series>>
  {
    if entries == [] then data
    else
      var prev := InsertAbsent(data, entries[..|entries| - 1]);
      var e := entries[|entries| - 1];
      if e.key in prev then prev else prev[e.key := [e.series]]
  }

  /** `InsertAbsent` of the first `k` entries, counted by index. */
  function InsertFirst(data: map<string, seq<Series>>, entries: seq<Entry>, k: nat): map<string, seq<Series>>
    requires k <= |entries|
    decreases k
  {
    if k == 0 then data
    else
      var prev := InsertFirst(data, entries, k - 1);
      var e := entries[k - 1];
      if e.key in prev then prev else prev[e.key := [e.series]]
  }

  lemma {:induction false} InsertFirstPrefix(data: map<string, seq<Series>>, entries: seq<Entry>, k: nat)
    requires k <= |entries|
    ensures InsertFirst(data, entries, k) == InsertAbsent(data, entries[..k])
    decreases k
  {
    if k > 0 {
      InsertFirstPrefix(data, entries, k - 1);
      assert entries[..k][..k - 1] == entries[..k - 1];
    }
  }

  /** Inserting one more entry. */
  lemma InsertAbsentSnoc(data: map<string, seq<Series>>, entries: seq<Entry>, e: Entry)
    ensures var prev := InsertAbsent(data, entries);
      InsertAbsent(data, entries + [e]) == if e.key in prev then prev else prev[e.key := [e.series]]
  {
    assert (entries + [e])[..|entries|] == entries;
  }

  /** Inserting two lists of entries is inserting their concatenation. */
  lemma {:induction false} InsertAbsentAppend(data: map<string, seq<Series>>, a: seq<Entry>, b: seq<Entry>)
    ensures InsertAbsent(InsertAbsent(data, a), b) == InsertAbsent(data, a + b)
    decreases |b|
  {
    if b == [] {
      assert a + b == a;
    } else {
      var init := b[..|b| - 1];
      var e := b[|b| - 1];
      InsertAbsentAppend(data, a, init);
      assert a + b == (a + init) + [e];
      InsertAbsentSnoc(data, a + init, e);
    }
  }

  /** Cached series are never replaced, and the keys after insertion are the
      old keys together with the entries' keys. */
  lemma {:induction false} InsertAbsentKeeps(data: map<string, seq<Series>>, entries: seq<Entry>)
    ensures var r := InsertAbsent(data, entries);
      (forall key :: key in data ==> key in r && r[key] == data[key]) &&
      (forall key :: key in r <==> key in data || key in KeysOf(entries))
  {
    if entries != [] {
      var init := entries[..|entries| - 1];
      InsertAbsentKeeps(data, init);
      assert KeysOf(entries) == KeysOf(init) + [entries[|entries| - 1].key];
    }
  }

  /** A key that was not cached gets the series of its first entry. */
  lemma {:induction false} InsertAbsentFirst(data: map<string, seq<Series>>, entries: seq<Entry>, i: nat)
    requires i < |entries| && entries[i].key !in data
    requires forall j :: 0 <= j < i ==> entries[j].key != entries[i].key
    ensures var r := InsertAbsent(data, entries); entries[i].key in r && r[entries[i].key] == [entries[i].series]
    decreases |entries|
  {
    var n := |entries|;
    var init := entries[..n - 1];
    if i < n - 1 {
      InsertAbsentFirst(data, init, i);
    } else {
      InsertAbsentKeeps(data, init);
      assert entries[i].key !in KeysOf(init) by {
        forall j | 0 <= j < n - 1 ensures KeysOf(init)[j] != entries[i].key {
          assert init[j] == entries[j];
        }
      }
    }
  }

  /** Inserting entries whose keys are all cached changes nothing. */
  lemma {:induction false} InsertAbsentCached(data: map<string, seq<Series>>, entries: seq<Entry>)
    requires forall i :: 0 <= i < |entries| ==> entries[i].key in data
    ensures InsertAbsent(data, entries) == data
  {
    if entries != [] {
      InsertAbsentCached(data, entries[..|entries| - 1]);
    }
  }

  /** A repeated run adds nothing to the cache. */
  lemma InsertAbsentIdempotent(data: map<string, seq<Series>>, entries: seq<Entry>)
    ensures InsertAbsent(InsertAbsent(data, entries), entries) == InsertAbsent(data, entries)
  {
    var once := InsertAbsent(data, entries);
    InsertAbsentKeeps(data, entries);
    forall i | 0 <= i < |entries| ensures entries[i].key in once {
      assert KeysOf(entries)[i] == entries[i].key;
    }
    InsertAbsentCached(once, entries);
  }

  /** One more row of entries: its keys follow the keys so far, and
      inserting it after the rows so far is inserting the longer prefix. */
  lemma FoldStep(data: map<string, seq<Series>>, rows: seq<seq<Entry>>, i: nat)
    requires i < |rows|
    ensures KeysOf(Flatten(rows[..i + 1])) == KeysOf(Flatten(rows[..i])) + KeysOf(rows[i])
    ensures InsertAbsent(InsertAbsent(data, Flatten(rows[..i])), rows[i]) == InsertAbsent(data, Flatten(rows[..i + 1]))
  {
    assert rows[..i + 1] == rows[..i] + [rows[i]];
    FlattenSnoc(rows[..i], rows[i]);
    InsertAbsentAppend(data, Flatten(rows[..i]), rows[i]);
    KeysOfAppend(Flatten(rows[..i]), rows[i]);
  }

  /** `globalv.DATA`: the process-wide cache of series by key. */
  class DataCache {
    var data: map<string, seq<Series>>

    constructor (data: map<string, seq<Series>>)
      ensures this.data == data
    {
      this.data := data;
    }

    /** `if key not in globalv.DATA: add_timeseries(series, key)`. */
    method AddIfAbsent(entry: Entry)
      modifies this
      ensures data == if entry.key in old(data) then old(data) else old(data)[entry.key := [entry.series]]
    {
      if entry.key !in data {
        data := data[entry.key := [entry.series]];
      }
    }
  }

  // ---------------------------------------------------------------------
  // The plot

  /** The rate options `process` pops: the stride, and for a binned column
      its printable name, its bins and the comparison operator. */
  datatype Binning = Binning(stride: Value, cname: string, bins: Value, operator: Value)

  /** The rate options `process` pops from `pargs`: a missing stride, or a
      binned column without bins, raises `KeyError`. */
  function BinningOf(pargs: map<string, Value>, column: Value, columnString: Value -> string): (r: Result<Binning>)
    ensures r.Err? <==> "stride" !in pargs || (Truthy(column) && "bins" !in pargs)
    ensures r.Ok? ==> r.value.stride == pargs["stride"]
  {
    if "stride" !in pargs then Err(KeyError("stride"))
    else if !Truthy(column) then Ok(Binning(pargs["stride"], "", Seq([Str("_")]), Null))
    else if "bins" !in pargs then Err(KeyError("bins"))
    else Ok(Binning(pargs["stride"], columnString(column), pargs["bins"], GetOr(pargs, "operator", Str(">="))))
  }

  /** The options left once the rate options are popped (up to the first
      missing one). */
  function BinningRest(pargs: map<string, Value>, column: Value): (r: map<string, Value>)
    ensures Within(r, pargs) && "stride" !in r
    ensures "stride" in pargs && Truthy(column) && "bins" in pargs ==>
              r.Keys == pargs.Keys - {"stride", "bins", "operator"}
    ensures "stride" in pargs && !(Truthy(column) && "bins" in pargs) ==> r.Keys == pargs.Keys - {"stride"}
  {
    if "stride" !in pargs then pargs
    else if Truthy(column) && "bins" in pargs then pargs - {"stride", "bins", "operator"}
    else pargs - {"stride"}
  }

  /** The entries the data loop caches, channel by channel and bin by bin;
      with at least one channel, bins that cannot be iterated raise
      `TypeError`. */
  function RateEntries(channels: seq<string>, state: Option<string>, etg: Value, column: Value, bins: Value,
                       binned: string -> seq<Series>, single: string -> Series, showReal: real -> string): Result<seq<Entry>>
  {
    if channels == [] then Ok([])
    else match Iterate(bins)
      case Err(_) => Err(TypeError)
      case Ok(bs) => Ok(Flatten(Rows(channels, state, etg, column, bs, binned, single, showReal)))
  }

  /** The inner loop of the data loop: each entry's key is collected, and
      its series cached unless the key already is. */
  method InsertRow(cache: DataCache, row: seq<Entry>) returns (keys: seq<string>)
    modifies cache
    ensures keys == KeysOf(row) && cache.data == InsertAbsent(old(cache.data), row)
  {
    keys := [];
    for j := 0 to |row|
      invariant |keys| == j && forall k :: 0 <= k < j ==> keys[k] == row[k].key
      invariant cache.data == InsertFirst(old(cache.data), row, j)
    {
      cache.AddIfAbsent(row[j]);
      keys := keys + [row[j].key];
    }
    InsertFirstPrefix(old(cache.data), row, |row|);
    assert row[..|row|] == row;
  }

  class TriggerRatePlot {
    /** The channel identifiers (swapped for the rate keys while drawing). */
    var channels: seq<string>
    /** The remaining plot configuration. */
    var pargs: map<string, Value>
    const etg: Value
    const column: Value
    /** The name of the state the plot is restricted to, if any. */
    const state: Option<string>

    constructor (channels: seq<string>, state: Option<string>, config: RateConfig)
      ensures this.channels == channels && this.state == state
      ensures etg == config.etg && column == config.column && pargs == config.pargs
    {
      this.channels := channels;
      this.state := state;
      etg := config.etg;
      column := config.column;
      pargs := config.pargs;
    }

    /** Pops the stride and, for a binned column, the bins and the operator
        (`>=` by default). Without a column the single bin is `_`. A missing
        stride or bins option raises `KeyError`. `columnString` is the
        plotting library's printable column name. */
    method PopBinning(columnString: Value -> string) returns (r: Result<Binning>)
      modifies this`pargs
      ensures "stride" !in old(pargs) ==> r == Err(KeyError("stride")) && pargs == old(pargs)
      ensures "stride" in old(pargs) && !Truthy(column) ==>
                r == Ok(Binning(old(pargs)["stride"], "", Seq([Str("_")]), Null)) && pargs == old(pargs) - {"stride"}
      ensures "stride" in old(pargs) && Truthy(column) && "bins" !in old(pargs) ==>
                r == Err(KeyError("bins")) && pargs == old(pargs) - {"stride"}
      ensures "stride" in old(pargs) && Truthy(column) && "bins" in old(pargs) ==>
                r == Ok(Binning(old(pargs)["stride"], columnString(column), old(pargs)["bins"],
                                GetOr(old(pargs), "operator", Str(">=")))) &&
                pargs == old(pargs) - {"stride", "bins", "operator"}
      ensures r == BinningOf(old(pargs), column, columnString) && pargs == BinningRest(old(pargs), column)
    {
      if "stride" !in pargs {
        return Err(KeyError("stride"));
      }
      var stride := pargs["stride"];
      pargs := pargs - {"stride"};
      if !Truthy(column) {
        return Ok(Binning(stride, "", Seq([Str("_")]), Null));
      }
      var cname := columnString(column);
      if "bins" !in pargs {
        return Err(KeyError("bins"));
      }
      var bins := pargs["bins"];
      pargs := pargs - {"bins"};
      var operator;
      operator, pargs := PopOr(pargs, "operator", Str(">=")).0, PopOr(pargs, "operator", Str(">=")).1;
      return Ok(Binning(stride, cname, bins, operator));
    }

    /** Pops the given labels, works out the legend labels and stores them
        back as the `labels` option. */
    method SetLabels(binning: Binning, showReal: real -> string) returns (r: Result<seq<string>>)
      modifies this`pargs
      ensures r == RateLabels(GetOr(old(pargs), "labels", Null), column, channels, binning.bins,
                              binning.cname, binning.operator, showReal)
      ensures r.Ok? ==> pargs == old(pargs)["labels" := Seq(Strs(r.value))]
      ensures r.Err? ==> pargs == old(pargs) - {"labels"}
    {
      var given;
      given, pargs := PopOr(pargs, "labels", Null).0, PopOr(pargs, "labels", Null).1;
      r := RateLabels(given, column, channels, binning.bins, binning.cname, binning.operator, showReal);
      if r.Ok? {
        pargs := pargs["labels" := Seq(Strs(r.value))];
      }
    }

    /** The data loop: for each channel, its rate series are labelled with
        the channel and keyed, every key is collected in order, and each
        series is cached unless its key already is. Bins that cannot be
        iterated raise `TypeError` at the first channel. */
    method Generate(cache: DataCache, bins: Value, binned: string -> seq<Series>, single: string -> Series,
                    showReal: real -> string)
      returns (r: Result<seq<string>>)
      modifies cache
      ensures channels != [] && Iterate(bins).Err? ==> r == Err(TypeError) && cache.data == old(cache.data)
      ensures channels == [] ==> r == Ok([]) && cache.data == old(cache.data)
      ensures Iterate(bins).Ok? ==>
                var entries := Flatten(Rows(channels, state, etg, column, Iterate(bins).value, binned, single, showReal));
                r == Ok(KeysOf(entries)) && cache.data == InsertAbsent(old(cache.data), entries)
      ensures var e := RateEntries(channels, state, etg, column, bins, binned, single, showReal);
        (e.Err? ==> r == Err(e.error) && cache.data == old(cache.data)) &&
        (e.Ok? ==> r == Ok(KeysOf(e.value)) && cache.data == InsertAbsent(old(cache.data), e.value))
    {
      if channels == [] {
        assert Rows(channels, state, etg, column, [], binned, single, showReal) == [];
        if Iterate(bins).Ok? {
          assert Rows(channels, state, etg, column, Iterate(bins).value, binned, single, showReal) == [];
        }
        return Ok([]);
      }
      var it := Iterate(bins);
      if it.Err? {
        return Err(TypeError);
      }
      var bs := it.value;
      ghost var rows := Rows(channels, state, etg, column, bs, binned, single, showReal);
      var keys: seq<string> := [];
      for i := 0 to |channels|
        invariant keys == KeysOf(Flatten(rows[..i]))
        invariant cache.data == InsertAbsent(old(cache.data), Flatten(rows[..i]))
      {
        var added := AddChannel(cache, channels[i], bs, binned, single, showReal);
        assert rows[i] == RowEntries(channels[i], state, etg, column, bs, binned, single, showReal);
        FoldStep(old(cache.data), rows, i);
        keys := keys + added;
      }
      assert rows[..|channels|] == rows;
      return Ok(keys);
    }

    /** One channel of the data loop: its rate series, read under its
        trigger cache key, are zipped with the bins, labelled with the
        channel and cached under their rate keys unless already cached. */
    method AddChannel(cache: DataCache, channel: string, bins: seq<Value>, binned: string -> seq<Series>,
                      single: string -> Series, showReal: real -> string)
      returns (keys: seq<string>)
      modifies cache
      ensures var row := RowEntries(channel, state, etg, column, bins, binned, single, showReal);
        keys == KeysOf(row) && cache.data == InsertAbsent(old(cache.data), row)
    {
      var rates := RatesFor(TriggerKey(channel, state), column, binned, single);
      var row := ZipEntries(channel, etg, column, bins, rates, showReal);
      keys := InsertRow(cache, row);
    }

    /** Draws the rate series through the time-series base class with the
        channel list temporarily replaced by the rate keys. `renders` gives
        the exception that drawing raises, if any; when it raises, the
        channel list is left swapped. */
    method DrawRates(keys: seq<string>, renders: seq<string> -> Option<PlotError>) returns (failure: Option<PlotError>)
      modifies this`channels
      ensures failure == renders(keys)
      ensures failure.None? ==> channels == old(channels)
      ensures failure.Some? ==> channels == keys
    {
      var saved := channels;
      channels := keys;
      failure := renders(keys);
      if failure.None? {
        channels := saved;
      }
    }

    /** The data-shaping part of `process`, in its order: the rate options,
        the labels, the data loop, then the drawing with swapped channels.
        It succeeds exactly when each step does; each failure has its own
        error and leaves the options popped up to that point gone. */
    method Process(cache: DataCache, columnString: Value -> string, binned: string -> seq<Series>,
                   single: string -> Series, renders: seq<string> -> Option<PlotError>, showReal: real -> string)
      returns (r: Result<seq<string>>)
      modifies this`pargs, this`channels, cache
      ensures "stride" !in old(pargs) ==> r == Err(KeyError("stride")) && cache.data == old(cache.data)
      ensures r.Ok? <==>
        var b := BinningOf(old(pargs), column, columnString);
        b.Ok? &&
        var labels := RateLabels(GetOr(BinningRest(old(pargs), column), "labels", Null), column, old(channels),
                                 b.value.bins, b.value.cname, b.value.operator, showReal);
        labels.Ok? &&
        var e := RateEntries(old(channels), state, etg, column, b.value.bins, binned, single, showReal);
        e.Ok? && renders(KeysOf(e.value)).None?
      ensures var b := BinningOf(old(pargs), column, columnString);
        b.Err? ==>
          r == Err(b.error) && pargs == BinningRest(old(pargs), column) &&
          channels == old(channels) && cache.data == old(cache.data)
      ensures var b := BinningOf(old(pargs), column, columnString);
        var rest := BinningRest(old(pargs), column);
        b.Ok? ==>
          var labels := RateLabels(GetOr(rest, "labels", Null), column, old(channels),
                                   b.value.bins, b.value.cname, b.value.operator, showReal);
          (labels.Err? ==>
             r == Err(labels.error) && pargs == rest - {"labels"} &&
             channels == old(channels) && cache.data == old(cache.data)) &&
          (labels.Ok? ==> pargs == rest["labels" := Seq(Strs(labels.value))])
      ensures var b := BinningOf(old(pargs), column, columnString);
        var rest := BinningRest(old(pargs), column);
        b.Ok? && RateLabels(GetOr(rest, "labels", Null), column, old(channels),
                            b.value.bins, b.value.cname, b.value.operator, showReal).Ok? ==>
          var e := RateEntries(old(channels), state, etg, column, b.value.bins, binned, single, showReal);
          (e.Err? ==> r == Err(e.error) && channels == old(channels) && cache.data == old(cache.data)) &&
          (e.Ok? ==>
             var keys := KeysOf(e.value);
             cache.data == InsertAbsent(old(cache.data), e.value) &&
             r == (if renders(keys).Some? then Err(renders(keys).value) else Ok(keys)) &&
             channels == if renders(keys).Some? then keys else old(channels))
    {
      var binning := PopBinning(columnString);
      if binning.Err? {
        return Err(binning.error);
      }
      var labels := SetLabels(binning.value, showReal);
      if labels.Err? {
        return Err(labels.error);
      }
      var keys := Generate(cache, binning.value.bins, binned, single, showReal);
      if keys.Err? {
        return Err(keys.error);
      }
      var failure := DrawRates(keys.value, renders);
      if failure.Some? {
        return Err(failure.value);
      }
      return Ok(keys.value);
    }
  }

  /** The line the data loop uses for a tagged channel's cache key, as
      written: it reads a name `state` that is not defined there (the
      plot's state is `self.state`), so every tagged channel raises
      `NameError`; an untagged channel is its own key. */
  function RateTriggerKeyAsWritten(channel: string): (r: Result<string>)
  {
    if HasTag(channel) then Err(NameError("state")) else Ok(channel)
  }

  /** The key as written fails exactly for tagged channels and otherwise
      agrees with the trigger cache key the other plots use, which the
      model uses instead. */
  lemma RateTriggerKeyDefect(channel: string, state: Option<string>)
    ensures RateTriggerKeyAsWritten(channel).Err? <==> HasTag(channel)
    ensures !HasTag(channel) ==> RateTriggerKeyAsWritten(channel) == Ok(TriggerKey(channel, state))
    ensures RateTriggerKeyAsWritten("H1:GDS-CALIB_STRAIN#omicron") == Err(NameError("state"))
  {
    assert "H1:GDS-CALIB_STRAIN#omicron"[19] == '#';
  }

  /** Builds a rate plot: the configuration checks, then the defaults
      merged with the keyword arguments, then `etg` and `column` popped. */
  method NewRatePlot(channels: seq<string>, state: Option<string>, baseDefaults: map<string, Value>,
                     kwargs: map<string, Value>)
    returns (r: Result<TriggerRatePlot>)
    ensures RateSetup(baseDefaults, kwargs).Err? ==> r == Err(RateSetup(baseDefaults, kwargs).error)
    ensures r.Ok? ==> RateSetup(baseDefaults, kwargs).Ok? && fresh(r.value) &&
                      r.value.channels == channels && r.value.state == state &&
                      r.value.etg == RateSetup(baseDefaults, kwargs).value.etg &&
                      r.value.column == RateSetup(baseDefaults, kwargs).value.column &&
                      r.value.pargs == RateSetup(baseDefaults, kwargs).value.pargs
  {
    var config := RateSetup(baseDefaults, kwargs);
    if config.Err? {
      return Err(config.error);
    }
    var plot := new TriggerRatePlot(channels, state, config.value);
    return Ok(plot);
  }
}
