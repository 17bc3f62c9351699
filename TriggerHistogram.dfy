/** `TriggerHistogramPlot` of gwsumm/plot/triggers.py: a histogram of one
    trigger column per channel. Modelled here: construction (popping the
    ETG and the column), the memoised pid, the channel loop that collects
    each channel's live time and an `xlim` default, the shared `range`
    default, and the rate weighting of each histogram. */
module TriggerHistogram {
  import opened Strings
  import opened Values
  import opened TriggerCommon

  // ---------------------------------------------------------------------
  // Construction

  /** The ETG, the column and the remaining configuration, as `__init__`
      pops them: `etg` first, then `column`; either missing raises
      `KeyError`. */
  datatype Config = Config(etg: Value, column: Value, pargs: map<string, Value>)

  function HistogramConfig(merged: map<string, Value>): (r: Result<Config>)
    ensures r.Ok? <==> "etg" in merged && "column" in merged
    ensures "etg" !in merged ==> r == Err(KeyError("etg"))
    ensures "etg" in merged && "column" !in merged ==> r == Err(KeyError("column"))
    ensures r.Ok? ==> r.value.etg == merged["etg"] && r.value.column == merged["column"] &&
                      r.value.pargs == merged - {"etg", "column"}
  {
    if "etg" !in merged then Err(KeyError("etg"))
    else
      var rest := merged - {"etg"};
      if "column" !in rest then Err(KeyError("column"))
      else Ok(Config(merged["etg"], rest["column"], rest - {"column"}))
  }

  // ---------------------------------------------------------------------
  // Plot identifier

  /** The pid of a histogram: the sanitised, upper-cased ETG, `_`, the base
      pid as it is, and `_<column>` sanitised and upper-cased when the
      column is set. A non-string ETG or set column raises `TypeError`. */
  function HistogramPid(basePid: string, etg: Value, column: Value, cchar: char -> bool): Result<string>
  {
    if !etg.Str? then Err(TypeError)
    else
      var head := Upper(Sanitize(etg.s, cchar)) + "_" + basePid;
      if !Truthy(column) then Ok(head)
      else if column.Str? then Ok(head + "_" + Upper(Sanitize(column.s, cchar)))
      else Err(TypeError)
  }

  /** What `_pid` holds after the first computation: nothing when the ETG
      could not be sanitised (it is sanitised before anything is stored),
      the ETG and base pid when only the column failed, else the full pid. */
  function HistogramPidMemo(basePid: string, etg: Value, column: Value, cchar: char -> bool): Option<string>
  {
    if !etg.Str? then None
    else
      var head := Upper(Sanitize(etg.s, cchar)) + "_" + basePid;
      if Truthy(column) && column.Str? then Some(head + "_" + Upper(Sanitize(column.s, cchar)))
      else Some(head)
  }

  /** The pid keeps the base pid verbatim between the ETG part and the
      column part, and both of those are upper-case. */
  lemma HistogramPidShape(basePid: string, etg: string, column: Value, cchar: char -> bool)
    requires column.Null? || column.Str?
    ensures var r := HistogramPid(basePid, Str(etg), column, cchar);
      var e := Sanitize(etg, cchar);
      r.Ok? && |r.value| >= |e| + 1 + |basePid| &&
      r.value[..|e|] == Upper(e) && Upper(r.value[..|e|]) == r.value[..|e|] &&
      r.value[|e|] == '_' &&
      r.value[|e| + 1..|e| + 1 + |basePid|] == basePid &&
      (Truthy(column) <==> |r.value| > |e| + 1 + |basePid|) &&
      (Truthy(column) ==> r.value[|e| + 1 + |basePid|..] == "_" + Upper(Sanitize(column.s, cchar)))
  {
    var e := Sanitize(etg, cchar);
    var head := Upper(e) + "_" + basePid;
    assert head[..|e|] == Upper(e);
    assert head[|e| + 1..] == basePid;
    UpperIdempotent(e);
    if Truthy(column) {
      var r := head + "_" + Upper(Sanitize(column.s, cchar));
      assert r[..|head|] == head;
      assert r[|head|..] == "_" + Upper(Sanitize(column.s, cchar));
    }
  }

  /** When the pid can be computed, the memo holds exactly that pid. */
  lemma HistogramPidMemoAgrees(basePid: string, etg: Value, column: Value, cchar: char -> bool)
    ensures HistogramPid(basePid, etg, column, cchar).Ok? ==>
              HistogramPidMemo(basePid, etg, column, cchar) == Some(HistogramPid(basePid, etg, column, cchar).value)
    ensures HistogramPidMemo(basePid, etg, column, cchar).None? <==> !etg.Str?
  {
  }

  // ---------------------------------------------------------------------
  // The channel loop

  /** The live time of each channel's triggers, and the configuration as
      the channel loop leaves it. */
  datatype Sampled = Sampled(pargs: map<string, Value>, livetimes: seq<real>)

  /** The channel loop over the first `k` channels, as evidently intended:
      each channel's triggers are read under its cache key (`livetimeOf`
      gives their live time), and a channel with an `amplitude_range`
      attribute makes that range the `xlim` default. */
  function SampleUpTo(pargs: map<string, Value>, k: nat, channels: seq<string>, state: Option<string>,
                      attrsOf: string -> map<string, Value>, livetimeOf: string -> real): (r: Sampled)
    requires k <= |channels|
    ensures |r.livetimes| == k
    decreases k
  {
    if k == 0 then Sampled(pargs, [])
    else
      var prev := SampleUpTo(pargs, k - 1, channels, state, attrsOf, livetimeOf);
      var attrs := attrsOf(channels[k - 1]);
      var next := if "amplitude_range" in attrs then SetDefault(prev.pargs, "xlim", attrs["amplitude_range"]) else prev.pargs;
      Sampled(next, prev.livetimes + [livetimeOf(TriggerKey(channels[k - 1], state))])
  }

  /** The channel loop as written: the `xlim` default reads the range from
      a name `c` that is not defined, so the first channel that has an
      `amplitude_range` raises `NameError`. */
  function SampleAsWrittenUpTo(pargs: map<string, Value>, k: nat, channels: seq<string>, state: Option<string>,
                               attrsOf: string -> map<string, Value>, livetimeOf: string -> real): Result<Sampled>
    requires k <= |channels|
    decreases k
  {
    if k == 0 then Ok(Sampled(pargs, []))
    else
      var prev := SampleAsWrittenUpTo(pargs, k - 1, channels, state, attrsOf, livetimeOf);
      if prev.Err? then prev
      else if "amplitude_range" in attrsOf(channels[k - 1]) then Err(NameError("c"))
      else Ok(Sampled(prev.value.pargs, prev.value.livetimes + [livetimeOf(TriggerKey(channels[k - 1], state))]))
  }

  /** The loop as written fails exactly when some channel has an amplitude
      range, and otherwise agrees with the intended loop. */
  lemma {:induction false} SampleAsWrittenFails(pargs: map<string, Value>, k: nat, channels: seq<string>, state: Option<string>,
                                                attrsOf: string -> map<string, Value>, livetimeOf: string -> real)
    requires k <= |channels|
    ensures (exists j :: 0 <= j < k && "amplitude_range" in attrsOf(channels[j])) ==>
              SampleAsWrittenUpTo(pargs, k, channels, state, attrsOf, livetimeOf) == Err(NameError("c"))
    ensures (forall j :: 0 <= j < k ==> "amplitude_range" !in attrsOf(channels[j])) ==>
              SampleAsWrittenUpTo(pargs, k, channels, state, attrsOf, livetimeOf) ==
              Ok(SampleUpTo(pargs, k, channels, state, attrsOf, livetimeOf))
    decreases k
  {
    if k > 0 {
      SampleAsWrittenFails(pargs, k - 1, channels, state, attrsOf, livetimeOf);
    }
  }

  /** A concrete configuration the loop as written cannot handle: one
      channel whose attributes give an amplitude range. The intended loop
      makes that range the `xlim` default. */
  lemma AmplitudeRangeNameError(range: Value)
    ensures var attrsOf := (name: string) => map["amplitude_range" := range];
      var livetimeOf := (key: string) => 1.0;
      SampleAsWrittenUpTo(map[], 1, ["L1:GDS-CALIB_STRAIN"], None, attrsOf, livetimeOf) == Err(NameError("c")) &&
      SampleUpTo(map[], 1, ["L1:GDS-CALIB_STRAIN"], None, attrsOf, livetimeOf).pargs == map["xlim" := range]
  {
  }

  /** What the intended loop does: channel `i`'s live time is read under its
      cache key, configured options are never overwritten, only `xlim` is
      added, and it is the range of the first channel that has one. */
  lemma SampleProps(pargs: map<string, Value>, k: nat, channels: seq<string>, state: Option<string>,
                                       attrsOf: string -> map<string, Value>, livetimeOf: string -> real)
    requires k <= |channels|
    ensures var r := SampleUpTo(pargs, k, channels, state, attrsOf, livetimeOf);
      (forall i :: 0 <= i < k ==> r.livetimes[i] == livetimeOf(TriggerKey(channels[i], state))) &&
      (forall key :: key in pargs ==> key in r.pargs && r.pargs[key] == pargs[key]) &&
      r.pargs.Keys <= pargs.Keys + {"xlim"} &&
      ("xlim" in r.pargs <==> "xlim" in pargs || exists j :: 0 <= j < k && "amplitude_range" in attrsOf(channels[j])) &&
      (forall j :: 0 <= j < k && "xlim" !in pargs && "amplitude_range" in attrsOf(channels[j]) &&
                   (forall i :: 0 <= i < j ==> "amplitude_range" !in attrsOf(channels[i])) ==>
         r.pargs["xlim"] == attrsOf(channels[j])["amplitude_range"])
  {
    SampleLivetimes(pargs, k, channels, state, attrsOf, livetimeOf);
    SampleKeeps(pargs, k, channels, state, attrsOf, livetimeOf);
    SampleFirstRange(pargs, k, channels, state, attrsOf, livetimeOf);
  }

  /** Channel `i`'s live time is read under its cache key. */
  lemma {:induction false} SampleLivetimes(pargs: map<string, Value>, k: nat, channels: seq<string>, state: Option<string>,
                                       attrsOf: string -> map<string, Value>, livetimeOf: string -> real)
    requires k <= |channels|
    ensures var r := SampleUpTo(pargs, k, channels, state, attrsOf, livetimeOf);
      forall i :: 0 <= i < k ==> r.livetimes[i] == livetimeOf(TriggerKey(channels[i], state))
    decreases k
  {
    if k > 0 {
      SampleLivetimes(pargs, k - 1, channels, state, attrsOf, livetimeOf);
    }
  }

  /** Configured options are never overwritten, and `xlim` is added exactly
      when some channel has an amplitude range. */
  lemma {:induction false} SampleKeeps(pargs: map<string, Value>, k: nat, channels: seq<string>, state: Option<string>,
                                       attrsOf: string -> map<string, Value>, livetimeOf: string -> real)
    requires k <= |channels|
    ensures var r := SampleUpTo(pargs, k, channels, state, attrsOf, livetimeOf);
      (forall key :: key in pargs ==> key in r.pargs && r.pargs[key] == pargs[key]) &&
      r.pargs.Keys <= pargs.Keys + {"xlim"} &&
      ("xlim" in r.pargs <==> "xlim" in pargs || exists j :: 0 <= j < k && "amplitude_range" in attrsOf(channels[j]))
    decreases k
  {
    if k > 0 {
      SampleKeeps(pargs, k - 1, channels, state, attrsOf, livetimeOf);
    }
  }

  /** An added `xlim` is the range of the first channel that has one. */
  lemma {:induction false} SampleFirstRange(pargs: map<string, Value>, k: nat, channels: seq<string>, state: Option<string>,
                                       attrsOf: string -> map<string, Value>, livetimeOf: string -> real)
    requires k <= |channels|
    ensures var r := SampleUpTo(pargs, k, channels, state, attrsOf, livetimeOf);
      forall j :: 0 <= j < k && "xlim" !in pargs && "amplitude_range" in attrsOf(channels[j]) &&
                  (forall i :: 0 <= i < j ==> "amplitude_range" !in attrsOf(channels[i])) ==>
        "xlim" in r.pargs && r.pargs["xlim"] == attrsOf(channels[j])["amplitude_range"]
    decreases k
  {
    SampleKeeps(pargs, k, channels, state, attrsOf, livetimeOf);
    if k > 0 {
      SampleFirstRange(pargs, k - 1, channels, state, attrsOf, livetimeOf);
      SampleKeeps(pargs, k - 1, channels, state, attrsOf, livetimeOf);
    }
  }

  // ---------------------------------------------------------------------
  // Weighting

  /** One histogram as drawn: its legend label, its weights and the remaining
      keyword arguments. */
  datatype Hist = Hist(legend: Value, weights: Value, kwargs: map<string, Value>)

  /** The weight for a histogram: `weights=True` asks for a rate, `1/d` for
      live time `d`; when `d` is zero the division fails, the error is
      swallowed and the weight stays `True`. Any other value is kept. */
  function Weight(weights: Value, d: real): (r: Value)
  {
    if weights == Bool(true) && d != 0.0 then Real(1.0 / d) else weights
  }

  /** A rate weight times the live time is one; only `True` is replaced. */
  lemma WeightIsRate(weights: Value, d: real)
    ensures weights == Bool(true) && d != 0.0 ==> Weight(weights, d) == Real(1.0 / d)
    ensures Weight(weights, d).Real? && weights != Weight(weights, d) ==>
              weights == Bool(true) && Weight(weights, d).r * d == 1.0
    ensures weights != Bool(true) || d == 0.0 <==> Weight(weights, d) == weights
  {
  }

  /** Where the rate floor goes: `xbound` for a horizontal histogram,
      `ybound` otherwise. */
  function BoundKey(kwargs: map<string, Value>): (r: string)
    ensures r == "xbound" || r == "ybound"
    ensures r == "xbound" <==> GetOr(kwargs, "orientation", Str("vertical")) == Str("horizontal")
  {
    if GetOr(kwargs, "orientation", Str("vertical")) == Str("horizontal") then "xbound" else "ybound"
  }

  /** One histogram's arguments once the configuration is `pargs`: the
      weights and the label are popped, the weight rule is applied to the
      live time `d`, and `bottom` defaults to the `ybound` option. */
  function MakeHist(kwargs: map<string, Value>, d: real, pargs: map<string, Value>): Hist
  {
    var (given, rest) := PopOr(kwargs, "weights", Null);
    var withBottom := SetDefault(rest, "bottom", GetOr(pargs, "ybound", Null));
    var (legend, final) := PopOr(withBottom, "label", Null);
    Hist(legend, Weight(given, d), final)
  }

  /** A histogram drawn takes its label and weights out of its keyword
      arguments, gets the weight rule applied to its live time, keeps every
      other argument, and gets `bottom` from the `ybound` option only when
      it has none. */
  lemma MakeHistProps(kwargs: map<string, Value>, d: real, pargs: map<string, Value>)
    ensures var h := MakeHist(kwargs, d, pargs);
      h.legend == GetOr(kwargs, "label", Null) &&
      h.weights == Weight(GetOr(kwargs, "weights", Null), d) &&
      h.kwargs.Keys == kwargs.Keys - {"weights", "label"} + {"bottom"} &&
      (forall key :: key in kwargs && key != "weights" && key != "label" ==> h.kwargs[key] == kwargs[key]) &&
      ("bottom" !in kwargs ==> h.kwargs["bottom"] == GetOr(pargs, "ybound", Null))
  {
  }

  /** The weighting loop after `k` histograms: the configuration, the
      histograms so far, and whether the loop is still running (it stops at
      a `ZeroDivisionError`). */
  datatype Weighed = Weighed(pargs: map<string, Value>, hists: seq<Hist>, ok: bool)

  /** One pass of the weighting loop. The rate floor `1/duration * 0.5`
      is computed for every rate-weighted histogram, so a zero-length span
      raises `ZeroDivisionError` even when the floor is already set. */
  function WeighStep(prev: Weighed, kwargs: map<string, Value>, d: real, duration: real): Weighed
  {
    var given := GetOr(kwargs, "weights", Null);
    if !prev.ok then prev
    else if given == Bool(true) && duration == 0.0 then Weighed(prev.pargs, prev.hists, false)
    else
      var next := if given == Bool(true) then SetDefault(prev.pargs, BoundKey(kwargs), Real(0.5 / duration)) else prev.pargs;
      Weighed(next, prev.hists + [MakeHist(kwargs, d, next)], true)
  }

  /** The weighting loop over the first `k` pairs of live time and keyword
      arguments (`zip` stops at the shorter list). */
  function WeighUpTo(pargs: map<string, Value>, k: nat, livetimes: seq<real>, histargs: seq<map<string, Value>>,
                     duration: real): (r: Weighed)
    requires k <= |livetimes| && k <= |histargs|
    ensures r.ok ==> |r.hists| == k
    decreases k
  {
    if k == 0 then Weighed(pargs, [], true)
    else WeighStep(WeighUpTo(pargs, k - 1, livetimes, histargs, duration), histargs[k - 1], livetimes[k - 1], duration)
  }

  /** Once the loop has failed it stays failed with the same state. */
  lemma {:induction false} WeighStuck(pargs: map<string, Value>, j: nat, k: nat, livetimes: seq<real>,
                                      histargs: seq<map<string, Value>>, duration: real)
    requires j <= k <= |livetimes| && k <= |histargs|
    requires !WeighUpTo(pargs, j, livetimes, histargs, duration).ok
    ensures WeighUpTo(pargs, k, livetimes, histargs, duration) == WeighUpTo(pargs, j, livetimes, histargs, duration)
    decreases k - j
  {
    if j < k {
      WeighStuck(pargs, j, k - 1, livetimes, histargs, duration);
    }
  }

  /** The loop fails exactly when the span is empty and some histogram asks
      for rate weights. */
  lemma {:induction false} WeighFails(pargs: map<string, Value>, k: nat, livetimes: seq<real>,
                                      histargs: seq<map<string, Value>>, duration: real)
    requires k <= |livetimes| && k <= |histargs|
    ensures !WeighUpTo(pargs, k, livetimes, histargs, duration).ok <==>
              duration == 0.0 && exists i :: 0 <= i < k && GetOr(histargs[i], "weights", Null) == Bool(true)
    decreases k
  {
    if k > 0 {
      WeighFails(pargs, k - 1, livetimes, histargs, duration);
    }
  }

  /** The rate floors never overwrite: configured options keep their
      values, only `xbound`/`ybound` are added, with the floor `0.5/duration`,
      and every rate-weighted histogram's bound is set afterwards. */
  lemma WeighKeeps(pargs: map<string, Value>, k: nat, livetimes: seq<real>,
                                      histargs: seq<map<string, Value>>, duration: real)
    requires k <= |livetimes| && k <= |histargs|
    ensures var r := WeighUpTo(pargs, k, livetimes, histargs, duration);
      (forall key :: key in pargs ==> key in r.pargs && r.pargs[key] == pargs[key]) &&
      r.pargs.Keys <= pargs.Keys + {"xbound", "ybound"} &&
      (duration == 0.0 ==> r.pargs == pargs) &&
      (duration != 0.0 ==> forall key :: key in r.pargs && key !in pargs ==> r.pargs[key] == Real(0.5 / duration)) &&
      (r.ok ==> forall i :: 0 <= i < k && GetOr(histargs[i], "weights", Null) == Bool(true) ==>
                  BoundKey(histargs[i]) in r.pargs)
  {
    WeighFloors(pargs, k, livetimes, histargs, duration);
    WeighBounds(pargs, k, livetimes, histargs, duration);
  }

  /** Configured options keep their values and only rate floors
      `0.5/duration` under `xbound`/`ybound` are added. */
  lemma {:induction false} WeighFloors(pargs: map<string, Value>, k: nat, livetimes: seq<real>,
                                      histargs: seq<map<string, Value>>, duration: real)
    requires k <= |livetimes| && k <= |histargs|
    ensures var r := WeighUpTo(pargs, k, livetimes, histargs, duration);
      (forall key :: key in pargs ==> key in r.pargs && r.pargs[key] == pargs[key]) &&
      r.pargs.Keys <= pargs.Keys + {"xbound", "ybound"} &&
      (duration == 0.0 ==> r.pargs == pargs) &&
      (duration != 0.0 ==> forall key :: key in r.pargs && key !in pargs ==> r.pargs[key] == Real(0.5 / duration))
    decreases k
  {
    if k > 0 {
      WeighFloors(pargs, k - 1, livetimes, histargs, duration);
    }
  }

  /** While the loop runs, every rate-weighted histogram's bound is set. */
  lemma {:induction false} WeighBounds(pargs: map<string, Value>, k: nat, livetimes: seq<real>,
                                      histargs: seq<map<string, Value>>, duration: real)
    requires k <= |livetimes| && k <= |histargs|
    ensures var r := WeighUpTo(pargs, k, livetimes, histargs, duration);
      r.ok ==> forall i :: 0 <= i < k && GetOr(histargs[i], "weights", Null) == Bool(true) ==>
                 BoundKey(histargs[i]) in r.pargs
    decreases k
  {
    if k > 0 {
      WeighBounds(pargs, k - 1, livetimes, histargs, duration);
    }
  }

  /** The `i`-th histogram drawn is made from the `i`-th keyword
      arguments and live time, under the configuration as the loop had
      left it after that histogram's own rate floor. */
  lemma WeighHists(pargs: map<string, Value>, k: nat, livetimes: seq<real>,
                   histargs: seq<map<string, Value>>, duration: real)
    requires k <= |livetimes| && k <= |histargs|
    ensures var r := WeighUpTo(pargs, k, livetimes, histargs, duration);
      r.ok ==> forall i :: 0 <= i < k ==>
        r.hists[i] == MakeHist(histargs[i], livetimes[i], WeighUpTo(pargs, i + 1, livetimes, histargs, duration).pargs)
  {
    forall i | 0 <= i < k && WeighUpTo(pargs, k, livetimes, histargs, duration).ok
      ensures WeighUpTo(pargs, k, livetimes, histargs, duration).hists[i] ==
              MakeHist(histargs[i], livetimes[i], WeighUpTo(pargs, i + 1, livetimes, histargs, duration).pargs)
    {
      WeighHistAt(pargs, k, i, livetimes, histargs, duration);
    }
  }

  /** One histogram of `WeighHists`. */
  lemma {:induction false} WeighHistAt(pargs: map<string, Value>, k: nat, i: nat, livetimes: seq<real>,
                                       histargs: seq<map<string, Value>>, duration: real)
    requires i < k <= |livetimes| && k <= |histargs|
    requires WeighUpTo(pargs, k, livetimes, histargs, duration).ok
    ensures WeighUpTo(pargs, k, livetimes, histargs, duration).hists[i] ==
            MakeHist(histargs[i], livetimes[i], WeighUpTo(pargs, i + 1, livetimes, histargs, duration).pargs)
    decreases k
  {
    var prev := WeighUpTo(pargs, k - 1, livetimes, histargs, duration);
    var r := WeighUpTo(pargs, k, livetimes, histargs, duration);
    assert prev.ok && r.hists == prev.hists + [MakeHist(histargs[k - 1], livetimes[k - 1], r.pargs)];
    if i < k - 1 {
      WeighHistAt(pargs, k - 1, i, livetimes, histargs, duration);
    }
  }

  /** Each histogram drawn carries the label given in its own arguments and
      the weight rule applied to its own weights and live time. */
  lemma WeighLegends(pargs: map<string, Value>, k: nat, livetimes: seq<real>,
                     histargs: seq<map<string, Value>>, duration: real)
    requires k <= |livetimes| && k <= |histargs|
    ensures var r := WeighUpTo(pargs, k, livetimes, histargs, duration);
      r.ok ==> |r.hists| == k &&
               forall i :: 0 <= i < k ==>
                 r.hists[i].legend == GetOr(histargs[i], "label", Null) &&
                 r.hists[i].weights == Weight(GetOr(histargs[i], "weights", Null), livetimes[i])
  {
    WeighHists(pargs, k, livetimes, histargs, duration);
    forall i | 0 <= i < k {
      MakeHistProps(histargs[i], livetimes[i], WeighUpTo(pargs, i + 1, livetimes, histargs, duration).pargs);
    }
  }

  /** What `process` needs of the sampling loop: each channel's livetime,
      and the configuration only extended, at most by `xlim`. */
  lemma SampleSummary(pargs: map<string, Value>, channels: seq<string>, state: Option<string>,
                      attrsOf: string -> map<string, Value>, livetimeOf: string -> real)
    ensures var r := SampleUpTo(pargs, |channels|, channels, state, attrsOf, livetimeOf);
      (forall i :: 0 <= i < |channels| ==> r.livetimes[i] == livetimeOf(TriggerKey(channels[i], state))) &&
      Within(pargs, r.pargs) && r.pargs.Keys <= pargs.Keys + {"xlim"}
  {
    SampleLivetimes(pargs, |channels|, channels, state, attrsOf, livetimeOf);
    SampleKeeps(pargs, |channels|, channels, state, attrsOf, livetimeOf);
  }

  /** What `process` needs of the weighting loop: the legend and weights
      of each histogram, and the configuration only extended, at most by
      `xbound` and `ybound`. */
  lemma WeighSummary(pargs: map<string, Value>, k: nat, livetimes: seq<real>,
                     histargs: seq<map<string, Value>>, duration: real)
    requires k <= |livetimes| && k <= |histargs|
    ensures var r := WeighUpTo(pargs, k, livetimes, histargs, duration);
      Within(pargs, r.pargs) && r.pargs.Keys <= pargs.Keys + {"xbound", "ybound"} &&
      (r.ok ==> forall i :: 0 <= i < k ==>
                  r.hists[i].legend == GetOr(histargs[i], "label", Null) &&
                  r.hists[i].weights == Weight(GetOr(histargs[i], "weights", Null), livetimes[i]))
  {
    WeighFloors(pargs, k, livetimes, histargs, duration);
    WeighLegends(pargs, k, livetimes, histargs, duration);
  }

  // ---------------------------------------------------------------------
  // The shared range

  /** The histogram arguments once the shared range is settled: a `range`
      in the first histogram's arguments keeps them all as they are;
      otherwise every histogram gets the common limits `limits`. */
  function CommonRange(histargs: seq<map<string, Value>>, limits: Value): (r: seq<map<string, Value>>)
    requires histargs != []
    ensures |r| == |histargs|
    ensures "range" in histargs[0] ==> r == histargs
    ensures "range" !in histargs[0] ==> forall i :: 0 <= i < |histargs| ==> r[i] == histargs[i]["range" := limits]
    ensures forall i, key :: 0 <= i < |histargs| && key != "range" ==> GetOr(r[i], key, Null) == GetOr(histargs[i], key, Null)
  {
    if "range" in histargs[0] then histargs
    else seq(|histargs|, i requires 0 <= i < |histargs| => histargs[i]["range" := limits])
  }

  /** Settling the range leaves the weights alone, so the weighting loop
      over the ranged arguments fails exactly when the span is empty and
      some histogram asks for rate weights. */
  lemma RangedWeighFails(pargs: map<string, Value>, k: nat, livetimes: seq<real>,
                         histargs: seq<map<string, Value>>, limits: Value, duration: real)
    requires histargs != [] && k <= |livetimes| && k <= |histargs|
    ensures !WeighUpTo(pargs, k, livetimes, CommonRange(histargs, limits), duration).ok <==>
              duration == 0.0 && exists i :: 0 <= i < k && GetOr(histargs[i], "weights", Null) == Bool(true)
  {
    var ranged := CommonRange(histargs, limits);
    WeighFails(pargs, k, livetimes, ranged, duration);
    assert forall i :: 0 <= i < k ==> GetOr(ranged[i], "weights", Null) == GetOr(histargs[i], "weights", Null);
  }

  /** Without a `range` in the first histogram's arguments, every
      histogram gets the common limits of all the data (`limits`, computed
      by the plotting library); an empty argument list raises `IndexError`. */
  method DefaultRange(histargs: seq<map<string, Value>>, limits: Value) returns (r: Result<seq<map<string, Value>>>)
    ensures histargs == [] ==> r == Err(IndexError)
    ensures histargs != [] ==> r == Ok(CommonRange(histargs, limits))
    ensures histargs != [] && "range" in histargs[0] ==> r == Ok(histargs)
    ensures histargs != [] && "range" !in histargs[0] ==>
              r.Ok? && |r.value| == |histargs| &&
              forall i :: 0 <= i < |histargs| ==> r.value[i] == histargs[i]["range" := limits]
  {
    if histargs == [] {
      return Err(IndexError);
    }
    if "range" in histargs[0] {
      return Ok(histargs);
    }
    var ranged := histargs;
    for i := 0 to |histargs|
      invariant |ranged| == |histargs|
      invariant forall j :: 0 <= j < i ==> ranged[j] == histargs[j]["range" := limits]
      invariant forall j :: i <= j < |ranged| ==> ranged[j] == histargs[j]
    {
      ranged := ranged[i := ranged[i]["range" := limits]];
    }
    assert ranged == CommonRange(histargs, limits);
    return Ok(ranged);
  }

  // ---------------------------------------------------------------------
  // The plot

  class TriggerHistogramPlot {
    /** The raw channel identifiers. */
    const channels: seq<string>
    /** The name of the state the plot is restricted to, if any. */
    const state: Option<string>
    /** The trigger generator and the histogrammed column. */
    const etg: Value
    const column: Value
    /** The pid the histogram base class computes. */
    const basePid: string
    /** The remaining plot configuration. */
    var pargs: map<string, Value>
    /** The memoised pid (`_pid`). */
    var pid: Option<string>

    constructor (channels: seq<string>, state: Option<string>, config: Config, basePid: string)
      ensures this.channels == channels && this.state == state && this.basePid == basePid
      ensures etg == config.etg && column == config.column && pargs == config.pargs && pid == None
    {
      this.channels := channels;
      this.state := state;
      this.basePid := basePid;
      etg := config.etg;
      column := config.column;
      pargs := config.pargs;
      pid := None;
    }

    /** The plot's identifier, computed once and then read back. */
    method Pid(cchar: char -> bool) returns (r: Result<string>)
      modifies this`pid
      ensures old(pid).Some? ==> r == Ok(old(pid).value) && pid == old(pid)
      ensures old(pid).None? ==>
                r == HistogramPid(basePid, etg, column, cchar) &&
                pid == HistogramPidMemo(basePid, etg, column, cchar)
    {
      if pid.Some? {
        return Ok(pid.value);
      }
      if !etg.Str? {
        return Err(TypeError);
      }
      var id := Upper(Sanitize(etg.s, cchar)) + "_" + basePid;
      pid := Some(id);
      if Truthy(column) {
        if !column.Str? {
          return Err(TypeError);
        }
        id := id + "_" + Upper(Sanitize(column.s, cchar));
        pid := Some(id);
      }
      return Ok(id);
    }

    /** The channel loop: each channel's live time, read under its trigger
        cache key, and the `xlim` default from its amplitude range. */
    method Sample(attrsOf: string -> map<string, Value>, livetimeOf: string -> real) returns (livetimes: seq<real>)
      modifies this`pargs
      ensures SampleUpTo(old(pargs), |channels|, channels, state, attrsOf, livetimeOf) == Sampled(pargs, livetimes)
    {
      livetimes := [];
      for i := 0 to |channels|
        invariant SampleUpTo(old(pargs), i, channels, state, attrsOf, livetimeOf) == Sampled(pargs, livetimes)
      {
        var channel := channels[i];
        var key := TriggerKey(channel, state);
        var attrs := attrsOf(channel);
        if "amplitude_range" in attrs {
          pargs := SetDefault(pargs, "xlim", attrs["amplitude_range"]);
        }
        livetimes := livetimes + [livetimeOf(key)];
      }
    }

    /** The drawing loop's weighting, over `zip(livetimes, histargs)`:
        rate weights, rate floors, `bottom` defaults and labels. `duration`
        is the length of the plot's span. */
    method Weigh(livetimes: seq<real>, histargs: seq<map<string, Value>>, duration: real) returns (r: Result<seq<Hist>>)
      modifies this`pargs
      ensures var w := WeighUpTo(old(pargs), Min2(|livetimes|, |histargs|), livetimes, histargs, duration);
        pargs == w.pargs && r == if w.ok then Ok(w.hists) else Err(ZeroDivisionError)
    {
      var m := Min2(|livetimes|, |histargs|);
      var hists: seq<Hist> := [];
      for i := 0 to m
        invariant WeighUpTo(old(pargs), i, livetimes, histargs, duration) == Weighed(pargs, hists, true)
      {
        var kwargs := histargs[i];
        var weights := GetOr(kwargs, "weights", Null);
        if weights == Bool(true) {
          if duration == 0.0 {
            WeighStuck(old(pargs), i + 1, m, livetimes, histargs, duration);
            return Err(ZeroDivisionError);
          }
          pargs := SetDefault(pargs, BoundKey(kwargs), Real(0.5 / duration));
        }
        hists := hists + [MakeHist(kwargs, livetimes[i], pargs)];
      }
      return Ok(hists);
    }

    /** The data-shaping part of `process`: the figure size is consumed,
        the histogram and legend options are parsed out, the channels are
        sampled, the shared range is defaulted and the histograms are
        weighted. `histargs` are the per-channel keyword arguments the base
        class parses out of the configuration, and `consumed` names the
        options its histogram and legend parsers pop. */
    method Process(attrsOf: string -> map<string, Value>, livetimeOf: string -> real,
                   histargs: seq<map<string, Value>>, consumed: set<string>, limits: Value, duration: real)
      returns (r: Result<seq<Hist>>)
      modifies this`pargs
      ensures histargs == [] ==> r == Err(IndexError)
      ensures r.Ok? <==>
        histargs != [] &&
        !(duration == 0.0 && exists i :: 0 <= i < Min2(|channels|, |histargs|) &&
                                        GetOr(histargs[i], "weights", Null) == Bool(true))
      ensures var sampled := SampleUpTo(old(pargs) - ({"figsize"} + consumed), |channels|, channels, state,
                                        attrsOf, livetimeOf);
        histargs == [] ==> pargs == sampled.pargs
      ensures var sampled := SampleUpTo(old(pargs) - ({"figsize"} + consumed), |channels|, channels, state,
                                        attrsOf, livetimeOf);
        histargs != [] ==>
          var w := WeighUpTo(sampled.pargs, Min2(|channels|, |histargs|), sampled.livetimes,
                             CommonRange(histargs, limits), duration);
          pargs == w.pargs && r == if w.ok then Ok(w.hists) else Err(ZeroDivisionError)
      ensures r.Ok? ==> |r.value| == Min2(|channels|, |histargs|)
      ensures r.Ok? ==> forall i :: 0 <= i < |r.value| ==>
                r.value[i].legend == GetOr(histargs[i], "label", Null) &&
                r.value[i].weights ==
                  Weight(GetOr(histargs[i], "weights", Null), livetimeOf(TriggerKey(channels[i], state)))
      ensures Within(old(pargs) - ({"figsize"} + consumed), pargs)
      ensures pargs.Keys <= old(pargs).Keys - ({"figsize"} + consumed) + {"xlim", "xbound", "ybound"}
    {
      pargs := pargs - ({"figsize"} + consumed);
      ghost var sized := pargs;
      var livetimes := Sample(attrsOf, livetimeOf);
      SampleSummary(sized, channels, state, attrsOf, livetimeOf);
      var ranged := DefaultRange(histargs, limits);
      if ranged.Err? {
        return Err(ranged.error);
      }
      ghost var sampled := pargs;
      var m := Min2(|livetimes|, |ranged.value|);
      r := Weigh(livetimes, ranged.value, duration);
      WeighSummary(sampled, m, livetimes, ranged.value, duration);
      RangedWeighFails(sampled, m, livetimes, histargs, limits, duration);
      forall i | 0 <= i < m
        ensures GetOr(ranged.value[i], "label", Null) == GetOr(histargs[i], "label", Null)
        ensures GetOr(ranged.value[i], "weights", Null) == GetOr(histargs[i], "weights", Null)
      {
      }
    }
  }

  /** Builds a histogram plot from its configuration: the base class's
      defaults merged with the keyword arguments, then `etg` and `column`
      popped. */
  method NewHistogramPlot(channels: seq<string>, state: Option<string>, defaults: map<string, Value>,
                          kwargs: map<string, Value>, basePid: string)
    returns (r: Result<TriggerHistogramPlot>)
    ensures HistogramConfig(defaults + kwargs).Err? ==> r == Err(HistogramConfig(defaults + kwargs).error)
    ensures r.Ok? ==> HistogramConfig(defaults + kwargs).Ok? && fresh(r.value) &&
                      r.value.channels == channels && r.value.state == state &&
                      r.value.etg == HistogramConfig(defaults + kwargs).value.etg &&
                      r.value.column == HistogramConfig(defaults + kwargs).value.column &&
                      r.value.pargs == HistogramConfig(defaults + kwargs).value.pargs &&
                      r.value.pid == None
  {
    var config := HistogramConfig(defaults + kwargs);
    if config.Err? {
      return Err(config.error);
    }
    var plot := new TriggerHistogramPlot(channels, state, config.value, basePid);
    return Ok(plot);
  }
}
