/** `TriggerDataPlot`: a scatter plot of one trigger column against another,
    optionally coloured by a third. What is modelled is how `process` turns
    the plot's configuration (`pargs`) into per-channel drawing arguments,
    trigger cache keys and axis/colour limits, and how `pid` is built and
    memoised. Drawing itself is left to the plotting library. */
module TriggerData {
  import opened Strings
  import opened Values
  import opened TriggerCommon

  // ---------------------------------------------------------------------
  // Figure base

  /** The figure class `process` draws on. */
  datatype FigureBase = TimeSeriesFigure | SpectrumFigure | PlainFigure

  /** The x column picks the figure: one mentioning `time` gets a time-axis
      figure, else one mentioning `freq` a frequency-axis figure, else a
      plain one. `'time' in xcolumn` is a substring test on a string and a
      membership test on a list; on anything else (`None` included) it
      raises `TypeError`. */
  function ChooseFigure(xcolumn: Value): (r: Result<FigureBase>)
    ensures r.Ok? <==> xcolumn.Str? || xcolumn.Seq?
    ensures xcolumn.Str? ==>
              (r.value == TimeSeriesFigure <==> Occurs("time", xcolumn.s)) &&
              (r.value == SpectrumFigure <==> !Occurs("time", xcolumn.s) && Occurs("freq", xcolumn.s))
    ensures xcolumn.Seq? ==>
              (r.value == TimeSeriesFigure <==> Str("time") in xcolumn.items) &&
              (r.value == SpectrumFigure <==> Str("time") !in xcolumn.items && Str("freq") in xcolumn.items)
    ensures !xcolumn.Str? && !xcolumn.Seq? ==> r == Err(TypeError)
  {
    match xcolumn
    case Str(s) =>
      Ok(if Contains(s, "time") then TimeSeriesFigure
         else if Contains(s, "freq") then SpectrumFigure
         else PlainFigure)
    case Seq(items) =>
      Ok(if Str("time") in items then TimeSeriesFigure
         else if Str("freq") in items then SpectrumFigure
         else PlainFigure)
    case _ => Err(TypeError)
  }

  // ---------------------------------------------------------------------
  // Plot identifier

  /** The `_<column>` parts of the pid, with whether every column could be
      sanitised: a false column is skipped, a string column contributes
      `_<sanitised column>`, and any other true value makes `re.sub` raise
      `TypeError`, leaving the parts collected before it. */
  datatype Suffix = Suffix(text: string, ok: bool)

  function ColumnSuffix(columns: seq<Value>, cchar: char -> bool): (r: Suffix)
    decreases |columns|
  {
    if columns == [] then Suffix("", true)
    else
      var prev := ColumnSuffix(columns[..|columns| - 1], cchar);
      var c := columns[|columns| - 1];
      if !prev.ok || !Truthy(c) then prev
      else if c.Str? then Suffix(prev.text + "_" + Sanitize(c.s, cchar), true)
      else Suffix(prev.text, false)
  }

  /** Once a column has failed, later columns change nothing. */
  lemma {:induction false} ColumnSuffixStuck(columns: seq<Value>, k: nat, cchar: char -> bool)
    requires k <= |columns| && !ColumnSuffix(columns[..k], cchar).ok
    ensures ColumnSuffix(columns, cchar) == ColumnSuffix(columns[..k], cchar)
    decreases |columns| - k
  {
    if k < |columns| {
      var next := columns[..k + 1];
      assert next[..k] == columns[..k];
      ColumnSuffixStuck(columns, k + 1, cchar);
    } else {
      assert columns[..k] == columns;
    }
  }

  /** `_<column>` for a column that is set, nothing for one that is not. */
  function Part(column: Value, cchar: char -> bool): string
    requires column.Null? || column.Str?
  {
    if Truthy(column) then "_" + Sanitize(column.s, cchar) else ""
  }

  /** The pid of a `TriggerDataPlot`: the base pid, `_<etg>`, then
      `_<column>` for each set column in x, y, colour order, sanitised and
      upper-cased; `TypeError` when the ETG or a set column is not a string. */
  function DataPid(basePid: string, etg: Value, columns: seq<Value>, cchar: char -> bool): Result<string>
  {
    if !etg.Str? then Err(TypeError)
    else
      var suffix := ColumnSuffix(columns, cchar);
      if suffix.ok then Ok(Upper(basePid + "_" + Sanitize(etg.s, cchar) + suffix.text))
      else Err(TypeError)
  }

  /** What `_pid` holds after the first computation: the full pid, or, when
      a `TypeError` interrupted it, the text built before the failure
      (the base pid is memoised first by the base class). */
  function DataPidMemo(basePid: string, etg: Value, columns: seq<Value>, cchar: char -> bool): string
  {
    if !etg.Str? then basePid
    else
      var suffix := ColumnSuffix(columns, cchar);
      var raw := basePid + "_" + Sanitize(etg.s, cchar) + suffix.text;
      if suffix.ok then Upper(raw) else raw
  }

  /** Adding one more column to the right extends the suffix by its part. */
  lemma ColumnSuffixSnoc(columns: seq<Value>, c: Value, cchar: char -> bool)
    requires c.Null? || c.Str?
    requires ColumnSuffix(columns, cchar).ok
    ensures ColumnSuffix(columns + [c], cchar) == Suffix(ColumnSuffix(columns, cchar).text + Part(c, cchar), true)
  {
    assert (columns + [c])[..|columns|] == columns;
    if !Truthy(c) {
      assert ColumnSuffix(columns, cchar).text + "" == ColumnSuffix(columns, cchar).text;
    } else {
      var t := ColumnSuffix(columns, cchar).text;
      assert t + "_" + Sanitize(c.s, cchar) == t + ("_" + Sanitize(c.s, cchar));
    }
  }

  /** The suffix of three string-or-None columns. */
  lemma ColumnSuffix3(x: Value, y: Value, c: Value, cchar: char -> bool)
    requires x.Null? || x.Str?
    requires y.Null? || y.Str?
    requires c.Null? || c.Str?
    ensures ColumnSuffix([x, y, c], cchar) == Suffix(Part(x, cchar) + Part(y, cchar) + Part(c, cchar), true)
  {
    ColumnSuffixSnoc([], x, cchar);
    assert [] + [x] == [x];
    assert "" + Part(x, cchar) == Part(x, cchar);
    ColumnSuffixSnoc([x], y, cchar);
    assert [x] + [y] == [x, y];
    ColumnSuffixSnoc([x, y], c, cchar);
    assert [x, y] + [c] == [x, y, c];
  }

  /** For string-or-None columns the pid is the upper-cased concatenation
      of base, ETG and each set column, in x, y, colour order. */
  lemma DataPidColumns(basePid: string, etg: string, x: Value, y: Value, c: Value, cchar: char -> bool)
    requires x.Null? || x.Str?
    requires y.Null? || y.Str?
    requires c.Null? || c.Str?
    ensures DataPid(basePid, Str(etg), [x, y, c], cchar) ==
            Ok(Upper(basePid + "_" + Sanitize(etg, cchar) + Part(x, cchar) + Part(y, cchar) + Part(c, cchar)))
  {
    ColumnSuffix3(x, y, c, cchar);
    var pre := basePid + "_" + Sanitize(etg, cchar);
    var px, py, pc := Part(x, cchar), Part(y, cchar), Part(c, cchar);
    assert DataPid(basePid, Str(etg), [x, y, c], cchar) == Ok(Upper(pre + (px + py + pc)));
    ConcatAssoc(pre, px + py, pc);
    assert px + py + pc == (px + py) + pc;
    ConcatAssoc(pre, px, py);
  }

  /** String helper for `DataPidColumns`: concatenation regroups. */
  lemma ConcatAssoc(a: string, b: string, c: string)
    ensures a + (b + c) == a + b + c
  {
  }

  /** A computed pid is all upper case, so it is the same string however
      often it is read back. */
  lemma DataPidUpper(basePid: string, etg: Value, columns: seq<Value>, cchar: char -> bool)
    requires DataPid(basePid, etg, columns, cchar).Ok?
    ensures var p := DataPid(basePid, etg, columns, cchar).value; Upper(p) == p
    ensures DataPidMemo(basePid, etg, columns, cchar) == DataPid(basePid, etg, columns, cchar).value
  {
    var raw := basePid + "_" + Sanitize(etg.s, cchar) + ColumnSuffix(columns, cchar).text;
    UpperIdempotent(raw);
  }

  /** The pid records which columns are set but not which role each plays:
      a plot of snr against time coloured by nothing and one of nothing
      against time coloured by snr get the same pid. */
  lemma DataPidIgnoresColumnRole(basePid: string, etg: string, cchar: char -> bool)
    ensures DataPid(basePid, Str(etg), [Str("time"), Str("snr"), Null], cchar) ==
            DataPid(basePid, Str(etg), [Str("time"), Null, Str("snr")], cchar)
  {
    DataPidColumns(basePid, etg, Str("time"), Str("snr"), Null, cchar);
    DataPidColumns(basePid, etg, Str("time"), Null, Str("snr"), cchar);
    var a := basePid + "_" + Sanitize(etg, cchar) + Part(Str("time"), cchar) + Part(Str("snr"), cchar) + Part(Null, cchar);
    var b := basePid + "_" + Sanitize(etg, cchar) + Part(Str("time"), cchar) + Part(Null, cchar) + Part(Str("snr"), cchar);
    assert a == b;
  }

  // ---------------------------------------------------------------------
  // Per-channel style arguments

  /** The ten per-channel style options, in the order `process` pops them. */
  const StyleKeys: seq<string> :=
    ["vmin", "vmax", "edgecolor", "facecolor", "size_by", "size_by_log", "size_range", "cmap", "s", "marker"]

  /** The first `k` style options, as a set. */
  function StyleKeySet(k: nat): set<string>
    requires k <= |StyleKeys|
  {
    set j | 0 <= j < k :: StyleKeys[j]
  }

  lemma StyleKeysDistinct()
    ensures forall i, j :: 0 <= i < j < |StyleKeys| ==> StyleKeys[i] != StyleKeys[j]
  {
  }

  /** Where a style option's per-channel values come from: one value for
      every channel, or a cycle through a list. */
  datatype Source = Repeat(v: Value) | Cycle(items: seq<Value>)

  /** The source for one option: with several channels an unset face colour
      or marker cycles through the plotting library's palette (`colours`) or
      marker list (`markers`); a list or tuple cycles, except for
      `size_range`, whose value (list or not) goes to every channel; any
      other value goes to every channel. */
  function StyleSource(key: string, val: Value, n: nat, colours: seq<Value>, markers: seq<Value>): Source
  {
    if key == "facecolor" && n > 1 && val == Null then Cycle(colours)
    else if key == "marker" && n > 1 && val == Null then Cycle(markers)
    else if val.Seq? && key != "size_range" then Cycle(val.items)
    else Repeat(val)
  }

  /** The `i`-th value drawn from a source (`next()` called `i + 1` times).
      An empty cycle has nothing to draw; `Exhausted` says when that is hit. */
  function Draw(src: Source, i: nat): Value
  {
    match src
    case Repeat(v) => v
    case Cycle(items) => if items == [] then Null else items[i % |items|]
  }

  /** `next()` on an empty cycle raises `StopIteration` (only reached when
      there is at least one channel). */
  predicate Exhausted(src: Source, n: nat)
  {
    n > 0 && src.Cycle? && src.items == []
  }

  /** `n` empty style dictionaries. */
  function Blank(n: nat): (r: seq<map<string, Value>>)
    ensures |r| == n && forall i :: 0 <= i < n ==> r[i] == map[]
  {
    seq(n, i => map[])
  }

  /** Each channel's dictionary with `key` set to that channel's draw. */
  function Assign(args: seq<map<string, Value>>, key: string, src: Source): (r: seq<map<string, Value>>)
    ensures |r| == |args|
    ensures forall i :: 0 <= i < |args| ==> r[i] == args[i][key := Draw(src, i)]
  {
    seq(|args|, i requires 0 <= i < |args| => args[i][key := Draw(src, i)])
  }

  /** The remaining configuration and the per-channel style dictionaries (or
      the exception) after the style loop. */
  datatype Styled = Styled(rest: map<string, Value>, result: Result<seq<map<string, Value>>>)

  /** The state after popping the first `k` style options. */
  function BroadcastUpTo(pargs: map<string, Value>, k: nat, n: nat, colours: seq<Value>, markers: seq<Value>): (b: Styled)
    requires k <= |StyleKeys|
    decreases k
  {
    if k == 0 then Styled(pargs, Ok(Blank(n)))
    else
      var prev := BroadcastUpTo(pargs, k - 1, n, colours, markers);
      var key := StyleKeys[k - 1];
      if prev.result.Err? then prev
      else if key !in prev.rest then Styled(prev.rest, Err(KeyError(key)))
      else
        var src := StyleSource(key, prev.rest[key], n, colours, markers);
        if Exhausted(src, n) then Styled(prev.rest - {key}, Err(StopIteration))
        else Styled(prev.rest - {key}, Ok(Assign(prev.result.value, key, src)))
  }

  /** The style dictionaries `process` builds for `n` channels. */
  function Broadcast(pargs: map<string, Value>, n: nat, colours: seq<Value>, markers: seq<Value>): Styled
  {
    BroadcastUpTo(pargs, |StyleKeys|, n, colours, markers)
  }

  /** Once the loop has failed, it stays failed with the same state. */
  lemma {:induction false} BroadcastStuck(pargs: map<string, Value>, j: nat, k: nat, n: nat, colours: seq<Value>, markers: seq<Value>)
    requires j <= k <= |StyleKeys|
    requires BroadcastUpTo(pargs, j, n, colours, markers).result.Err?
    ensures BroadcastUpTo(pargs, k, n, colours, markers) == BroadcastUpTo(pargs, j, n, colours, markers)
    decreases k - j
  {
    if j < k {
      BroadcastStuck(pargs, j, k - 1, n, colours, markers);
    }
  }

  /** What a successful style loop over the first `k` options produced: it
      popped exactly those options, and every channel's dictionary holds
      exactly those options, each with that channel's draw from the
      option's source. It fails exactly when an option is missing or a
      cycle it must draw from is empty. */
  lemma BroadcastShape(pargs: map<string, Value>, k: nat, n: nat, colours: seq<Value>, markers: seq<Value>)
    requires k <= |StyleKeys|
    ensures var b := BroadcastUpTo(pargs, k, n, colours, markers);
      (b.result.Ok? <==>
         forall j :: 0 <= j < k ==>
           StyleKeys[j] in pargs && !Exhausted(StyleSource(StyleKeys[j], pargs[StyleKeys[j]], n, colours, markers), n)) &&
      (b.result.Ok? ==>
         b.rest == pargs - StyleKeySet(k) &&
         |b.result.value| == n &&
         (forall i :: 0 <= i < n ==> b.result.value[i].Keys == StyleKeySet(k)) &&
         (forall i, j :: 0 <= i < n && 0 <= j < k ==>
            b.result.value[i][StyleKeys[j]] == Draw(StyleSource(StyleKeys[j], pargs[StyleKeys[j]], n, colours, markers), i)))
  {
    BroadcastSucceeds(pargs, k, n, colours, markers);
    BroadcastPopped(pargs, k, n, colours, markers);
    if BroadcastUpTo(pargs, k, n, colours, markers).result.Ok? {
      forall i, j | 0 <= i < n && 0 <= j < k
        ensures var b := BroadcastUpTo(pargs, k, n, colours, markers);
          StyleKeys[j] in pargs && StyleKeys[j] in b.result.value[i] &&
          b.result.value[i][StyleKeys[j]] == Draw(StyleSource(StyleKeys[j], pargs[StyleKeys[j]], n, colours, markers), i)
      {
        BroadcastDrawAt(pargs, k, n, colours, markers, i, j);
      }
    }
  }

  /** A successful loop over the first `k` options popped exactly those
      options and gave every channel a dictionary of exactly those. */
  lemma {:induction false} BroadcastPopped(pargs: map<string, Value>, k: nat, n: nat, colours: seq<Value>, markers: seq<Value>)
    requires k <= |StyleKeys|
    ensures var b := BroadcastUpTo(pargs, k, n, colours, markers);
      b.result.Ok? ==>
        b.rest == pargs - StyleKeySet(k) && |b.result.value| == n &&
        forall i :: 0 <= i < n ==> b.result.value[i].Keys == StyleKeySet(k)
    decreases k
  {
    if k > 0 {
      BroadcastPopped(pargs, k - 1, n, colours, markers);
      assert StyleKeySet(k) == StyleKeySet(k - 1) + {StyleKeys[k - 1]};
    }
  }

  /** The loop over the first `k` options succeeds exactly when each of
      them is configured and none has an empty cycle to draw from. */
  lemma BroadcastSucceeds(pargs: map<string, Value>, k: nat, n: nat, colours: seq<Value>, markers: seq<Value>)
    requires k <= |StyleKeys|
    ensures BroadcastUpTo(pargs, k, n, colours, markers).result.Ok? <==>
      forall j :: 0 <= j < k ==>
        StyleKeys[j] in pargs && !Exhausted(StyleSource(StyleKeys[j], pargs[StyleKeys[j]], n, colours, markers), n)
  {
    if BroadcastUpTo(pargs, k, n, colours, markers).result.Ok? {
      BroadcastOkOnlyIf(pargs, k, n, colours, markers);
    }
    if forall j :: 0 <= j < k ==>
         StyleKeys[j] in pargs && !Exhausted(StyleSource(StyleKeys[j], pargs[StyleKeys[j]], n, colours, markers), n) {
      BroadcastOkIf(pargs, k, n, colours, markers);
    }
  }

  /** A successful loop found every option it consumed, none exhausted. */
  lemma {:induction false} BroadcastOkOnlyIf(pargs: map<string, Value>, k: nat, n: nat, colours: seq<Value>, markers: seq<Value>)
    requires k <= |StyleKeys|
    requires BroadcastUpTo(pargs, k, n, colours, markers).result.Ok?
    ensures forall j :: 0 <= j < k ==>
      StyleKeys[j] in pargs && !Exhausted(StyleSource(StyleKeys[j], pargs[StyleKeys[j]], n, colours, markers), n)
    decreases k
  {
    if k > 0 {
      var prev := BroadcastUpTo(pargs, k - 1, n, colours, markers);
      assert prev.result.Ok?;
      BroadcastOkOnlyIf(pargs, k - 1, n, colours, markers);
      BroadcastPopped(pargs, k - 1, n, colours, markers);
      var key := StyleKeys[k - 1];
      StyleKeysDistinct();
      assert key !in StyleKeySet(k - 1);
      assert key in prev.rest && prev.rest[key] == pargs[key];
    }
  }

  /** With every option present and none exhausted, the loop succeeds. */
  lemma {:induction false} BroadcastOkIf(pargs: map<string, Value>, k: nat, n: nat, colours: seq<Value>, markers: seq<Value>)
    requires k <= |StyleKeys|
    requires forall j :: 0 <= j < k ==>
      StyleKeys[j] in pargs && !Exhausted(StyleSource(StyleKeys[j], pargs[StyleKeys[j]], n, colours, markers), n)
    ensures BroadcastUpTo(pargs, k, n, colours, markers).result.Ok?
    decreases k
  {
    if k > 0 {
      BroadcastOkIf(pargs, k - 1, n, colours, markers);
      BroadcastPopped(pargs, k - 1, n, colours, markers);
      var key := StyleKeys[k - 1];
      StyleKeysDistinct();
      assert key !in StyleKeySet(k - 1);
      assert key in pargs;
    }
  }

  /** After a successful loop, channel `i` holds its draw from the source
      of option `j`. */
  lemma {:induction false} BroadcastDrawAt(pargs: map<string, Value>, k: nat, n: nat, colours: seq<Value>, markers: seq<Value>,
                                           i: nat, j: nat)
    requires j < k <= |StyleKeys| && i < n
    requires BroadcastUpTo(pargs, k, n, colours, markers).result.Ok?
    ensures var b := BroadcastUpTo(pargs, k, n, colours, markers);
      |b.result.value| == n && StyleKeys[j] in pargs && StyleKeys[j] in b.result.value[i] &&
      b.result.value[i][StyleKeys[j]] == Draw(StyleSource(StyleKeys[j], pargs[StyleKeys[j]], n, colours, markers), i)
    decreases k
  {
    BroadcastPopped(pargs, k - 1, n, colours, markers);
    var prev := BroadcastUpTo(pargs, k - 1, n, colours, markers);
    var key := StyleKeys[k - 1];
    StyleKeysDistinct();
    assert key !in StyleKeySet(k - 1);
    assert key in pargs && prev.rest[key] == pargs[key];
    if j < k - 1 {
      BroadcastDrawAt(pargs, k - 1, n, colours, markers, i, j);
      assert StyleKeys[j] != key;
    }
  }

  /** A successful style loop over all options leaves the configuration
      without them and gives every channel a dictionary holding exactly
      them, the three size options among them. */
  lemma BroadcastOk(pargs: map<string, Value>, n: nat, colours: seq<Value>, markers: seq<Value>)
    requires Broadcast(pargs, n, colours, markers).result.Ok?
    ensures var b := Broadcast(pargs, n, colours, markers);
      b.rest == pargs - StyleKeySet(|StyleKeys|) && |b.result.value| == n &&
      (forall i :: 0 <= i < n ==> b.result.value[i].Keys == StyleKeySet(|StyleKeys|))
    ensures "size_range" in StyleKeySet(|StyleKeys|) && "size_by" in StyleKeySet(|StyleKeys|) &&
            "size_by_log" in StyleKeySet(|StyleKeys|)
  {
    BroadcastShape(pargs, |StyleKeys|, n, colours, markers);
    assert "size_range" == StyleKeys[6] && "size_by" == StyleKeys[4] && "size_by_log" == StyleKeys[5];
  }

  /** A list or tuple given for any option but `size_range` is cycled: the
      `i`-th channel gets element `i mod length`. */
  lemma StyleCycles(pargs: map<string, Value>, n: nat, colours: seq<Value>, markers: seq<Value>, key: string, i: nat)
    requires Broadcast(pargs, n, colours, markers).result.Ok?
    requires key in StyleKeys && key != "size_range" && key in pargs && pargs[key].Seq?
    requires i < n
    ensures |pargs[key].items| > 0
    ensures var args := Broadcast(pargs, n, colours, markers).result.value;
      |args| == n && key in args[i] && args[i][key] == pargs[key].items[i % |pargs[key].items|]
  {
    BroadcastShape(pargs, |StyleKeys|, n, colours, markers);
    var j :| 0 <= j < |StyleKeys| && StyleKeys[j] == key;
    assert key in StyleKeySet(|StyleKeys|);
  }

  /** A value that is not a list (or any `size_range`) is the same for every
      channel; so are unset face colours and markers on a one-channel plot. */
  lemma StyleBroadcasts(pargs: map<string, Value>, n: nat, colours: seq<Value>, markers: seq<Value>, key: string, i: nat)
    requires Broadcast(pargs, n, colours, markers).result.Ok?
    requires key in StyleKeys && key in pargs
    requires !pargs[key].Seq? || key == "size_range"
    requires !(pargs[key] == Null && n > 1 && (key == "facecolor" || key == "marker"))
    requires i < n
    ensures var args := Broadcast(pargs, n, colours, markers).result.value;
      |args| == n && key in args[i] && args[i][key] == pargs[key]
  {
    BroadcastShape(pargs, |StyleKeys|, n, colours, markers);
    var j :| 0 <= j < |StyleKeys| && StyleKeys[j] == key;
    assert key in StyleKeySet(|StyleKeys|);
  }

  /** With several channels an unset face colour cycles through the palette. */
  lemma StyleDefaultPalette(pargs: map<string, Value>, n: nat, colours: seq<Value>, markers: seq<Value>, i: nat)
    requires Broadcast(pargs, n, colours, markers).result.Ok?
    requires "facecolor" in pargs && pargs["facecolor"] == Null && n > 1 && i < n
    ensures |colours| > 0
    ensures var args := Broadcast(pargs, n, colours, markers).result.value;
      |args| == n && "facecolor" in args[i] && args[i]["facecolor"] == colours[i % |colours|]
  {
    BroadcastShape(pargs, |StyleKeys|, n, colours, markers);
    assert StyleKeys[3] == "facecolor";
    assert "facecolor" in StyleKeySet(|StyleKeys|);
  }

  /** One option's inner loop: `next()` on the option's cycle once per
      channel (the `i`-th call yields element `i mod length`), storing each
      value in that channel's dictionary. */
  method Spread(args: seq<map<string, Value>>, key: string, src: Source) returns (r: Result<seq<map<string, Value>>>)
    ensures Exhausted(src, |args|) ==> r == Err(StopIteration)
    ensures !Exhausted(src, |args|) ==> r == Ok(Assign(args, key, src))
  {
    var n := |args|;
    var next := args;
    for i := 0 to n
      invariant |next| == n
      invariant forall j :: 0 <= j < i ==> next[j] == args[j][key := Draw(src, j)]
      invariant forall j :: i <= j < n ==> next[j] == args[j]
      invariant Exhausted(src, n) ==> i == 0
    {
      var v;
      match src {
        case Repeat(x) =>
          v := x;
        case Cycle(items) =>
          if items == [] {
            return Err(StopIteration);
          }
          v := items[i % |items|];
      }
      assert v == Draw(src, i);
      next := next[i := next[i][key := v]];
    }
    assert next == Assign(args, key, src);
    return Ok(next);
  }

  // ---------------------------------------------------------------------
  // size_range fallback

  /** The fallback below reads these options of a single channel's style. */
  predicate SizingKnown(plotargs: seq<map<string, Value>>)
  {
    |plotargs| == 1 ==> "size_range" in plotargs[0] && "size_by" in plotargs[0] && "size_by_log" in plotargs[0]
  }

  /** With exactly one channel that is sized (`size_by` or `size_by_log`)
      but has no size range, the colour limits serve as the size range. */
  function SizeRangeFallback(plotargs: seq<map<string, Value>>, clim: Value): (r: seq<map<string, Value>>)
    requires SizingKnown(plotargs)
    ensures |r| == |plotargs|
    ensures forall i :: 0 <= i < |r| ==> r[i].Keys == plotargs[i].Keys
    ensures forall i, k :: 0 <= i < |r| && k in r[i] && (i > 0 || k != "size_range") ==> r[i][k] == plotargs[i][k]
    ensures |r| == 1 ==>
              r[0]["size_range"] ==
                if plotargs[0]["size_range"] == Null && clim != Null &&
                   (Truthy(plotargs[0]["size_by"]) || Truthy(plotargs[0]["size_by_log"]))
                then clim else plotargs[0]["size_range"]
  {
    if |plotargs| == 1 && plotargs[0]["size_range"] == Null &&
       (Truthy(plotargs[0]["size_by"]) || Truthy(plotargs[0]["size_by_log"])) && clim != Null
    then [plotargs[0]["size_range" := clim]]
    else plotargs
  }

  // ---------------------------------------------------------------------
  // Channel range defaults

  /** The three column roles. */
  datatype Axis = X | Y | C

  /** `'%slim' % c`. */
  function LimKey(axis: Axis): string
  {
    match axis
    case X => "xlim"
    case Y => "ylim"
    case C => "clim"
  }

  /** The channel attribute that may carry a default range for a column:
      `<column>_range`, where the two burst-search frequency columns
      `peak_frequency` and `central_freq` both read `frequency_range`. */
  function RangeAttribute(column: Value, showReal: real -> string): (r: string)
    ensures column == Str("peak_frequency") || column == Str("central_freq") ==> r == "frequency_range"
    ensures column.Str? && column.s != "peak_frequency" && column.s != "central_freq" ==> r == column.s + "_range"
  {
    var canonical := if column == Str("peak_frequency") || column == Str("central_freq") then Str("frequency") else column;
    ToStr(canonical, showReal) + "_range"
  }

  /** The limits one channel can fill in: the plot's configuration, the
      colour limits, and that channel's style dictionary. */
  datatype Limits = Limits(pargs: map<string, Value>, clim: Value, style: map<string, Value>)

  /** Use a channel's `<column>_range` attribute (if it has one) as a
      default: for x and y as `xlim`/`ylim` via `setdefault`; for the colour
      column as the colour limits and as the channel's size range, each only
      when not already set to a true value. */
  function ApplyRange(lim: Limits, axis: Axis, column: Value, attrs: map<string, Value>, showReal: real -> string): (r: Limits)
    requires "size_range" in lim.style
    ensures r.style.Keys == lim.style.Keys
  {
    if !Truthy(column) then lim
    else
      var param := RangeAttribute(column, showReal);
      if param !in attrs then lim
      else if axis != C then lim.(pargs := SetDefault(lim.pargs, LimKey(axis), attrs[param]))
      else
        lim.(clim := if Truthy(lim.clim) then lim.clim else attrs[param],
             style := if Truthy(lim.style["size_range"]) then lim.style
                      else lim.style["size_range" := attrs[param]])
  }

  /** A channel range never overwrites: configured options keep their
      values, only the axis's limit key can appear (and only through
      `setdefault` of the channel's range), and a true colour limit and a
      true size range stay. */
  lemma ApplyRangeKeeps(lim: Limits, axis: Axis, column: Value, attrs: map<string, Value>, showReal: real -> string)
    requires "size_range" in lim.style
    ensures var r := ApplyRange(lim, axis, column, attrs, showReal);
      (forall k :: k in lim.pargs ==> k in r.pargs && r.pargs[k] == lim.pargs[k]) &&
      r.pargs.Keys <= lim.pargs.Keys + {LimKey(axis)} &&
      (axis == C ==> r.pargs == lim.pargs) &&
      (Truthy(lim.clim) || axis != C ==> r.clim == lim.clim) &&
      (Truthy(lim.style["size_range"]) || axis != C ==> r.style == lim.style) &&
      (Truthy(column) && axis != C && RangeAttribute(column, showReal) in attrs ==>
         r.pargs == SetDefault(lim.pargs, LimKey(axis), attrs[RangeAttribute(column, showReal)]))
  {
  }

  /** `ApplyRange` for the first `k` of the x, y and colour columns. */
  function RangesUpTo(lim: Limits, k: nat, columns: seq<Value>, attrs: map<string, Value>, showReal: real -> string): (r: Limits)
    requires k <= |columns| == 3 && "size_range" in lim.style
    ensures "size_range" in r.style && r.style.Keys == lim.style.Keys
    decreases k
  {
    if k == 0 then lim
    else ApplyRange(RangesUpTo(lim, k - 1, columns, attrs, showReal), [X, Y, C][k - 1], columns[k - 1], attrs, showReal)
  }

  /** The limits after one channel. */
  function ChannelRanges(lim: Limits, columns: seq<Value>, attrs: map<string, Value>, showReal: real -> string): Limits
    requires |columns| == 3 && "size_range" in lim.style
  {
    RangesUpTo(lim, |columns|, columns, attrs, showReal)
  }

  /** The loop over the x, y and colour columns for one channel. */
  method FillRanges(lim: Limits, columns: seq<Value>, attrs: map<string, Value>, showReal: real -> string)
    returns (r: Limits)
    requires |columns| == 3 && "size_range" in lim.style
    ensures r == ChannelRanges(lim, columns, attrs, showReal)
  {
    r := lim;
    for a := 0 to 3
      invariant r == RangesUpTo(lim, a, columns, attrs, showReal)
    {
      r := ApplyRange(r, [X, Y, C][a], columns[a], attrs, showReal);
    }
  }

  /** Range defaults never overwrite: configured values stay, only `xlim`
      and `ylim` can appear, a true colour limit and a true size range stay. */
  lemma {:induction false} RangesKeep(lim: Limits, k: nat, columns: seq<Value>, attrs: map<string, Value>, showReal: real -> string)
    requires k <= |columns| == 3 && "size_range" in lim.style
    ensures var r := RangesUpTo(lim, k, columns, attrs, showReal);
      (forall key :: key in lim.pargs ==> key in r.pargs && r.pargs[key] == lim.pargs[key]) &&
      r.pargs.Keys <= lim.pargs.Keys + {"xlim", "ylim"} &&
      (Truthy(lim.clim) ==> r.clim == lim.clim) &&
      (Truthy(lim.style["size_range"]) ==> r.style == lim.style)
    decreases k
  {
    if k > 0 {
      RangesKeep(lim, k - 1, columns, attrs, showReal);
      ApplyRangeKeeps(RangesUpTo(lim, k - 1, columns, attrs, showReal), [X, Y, C][k - 1], columns[k - 1], attrs, showReal);
    }
  }

  /** The state of `process`'s channel loop: configuration, colour limits,
      style dictionaries, trigger count so far and the cache keys used. */
  datatype Gathered = Gathered(pargs: map<string, Value>, clim: Value, style: seq<map<string, Value>>, ntrigs: nat, keys: seq<string>)

  /** Every style dictionary has a `size_range` entry. */
  predicate Sized(style: seq<map<string, Value>>)
  {
    forall i :: 0 <= i < |style| ==> "size_range" in style[i]
  }

  /** The channel loop after its first `k` channels: each channel's triggers
      are looked up under its cache key (`count` gives how many there are)
      and its attributes (`attrsOf`, empty for a channel that does not
      resolve) give range defaults. */
  function GatherUpTo(init: Gathered, k: nat, channels: seq<string>, state: Option<string>, columns: seq<Value>,
                      attrsOf: string -> map<string, Value>, count: string -> nat, showReal: real -> string): (g: Gathered)
    requires k <= |channels| && k <= |init.style| && |columns| == 3 && Sized(init.style)
    ensures |g.style| == |init.style| && Sized(g.style)
    decreases k
  {
    if k == 0 then init
    else
      var g := GatherUpTo(init, k - 1, channels, state, columns, attrsOf, count, showReal);
      var key := TriggerKey(channels[k - 1], state);
      var lim := ChannelRanges(Limits(g.pargs, g.clim, g.style[k - 1]), columns, attrsOf(channels[k - 1]), showReal);
      Gathered(lim.pargs, lim.clim, g.style[k - 1 := lim.style], g.ntrigs + count(key), g.keys + [key])
  }

  /** One more channel of the loop. */
  lemma GatherNext(init: Gathered, k: nat, channels: seq<string>, state: Option<string>, columns: seq<Value>,
                   attrsOf: string -> map<string, Value>, count: string -> nat, showReal: real -> string,
                   g: Gathered, lim: Limits)
    requires k < |channels| && k < |init.style| && |columns| == 3 && Sized(init.style)
    requires g == GatherUpTo(init, k, channels, state, columns, attrsOf, count, showReal)
    requires lim == ChannelRanges(Limits(g.pargs, g.clim, g.style[k]), columns, attrsOf(channels[k]), showReal)
    ensures GatherUpTo(init, k + 1, channels, state, columns, attrsOf, count, showReal) ==
            Gathered(lim.pargs, lim.clim, g.style[k := lim.style], g.ntrigs + count(TriggerKey(channels[k], state)),
                     g.keys + [TriggerKey(channels[k], state)])
  {
  }

  /** The cache keys of the first `k` channels, in order. */
  function ChannelKeys(channels: seq<string>, state: Option<string>, k: nat): (ks: seq<string>)
    requires k <= |channels|
    ensures |ks| == k && forall i :: 0 <= i < k ==> ks[i] == TriggerKey(channels[i], state)
  {
    if k == 0 then [] else ChannelKeys(channels, state, k - 1) + [TriggerKey(channels[k - 1], state)]
  }

  /** The loop appends the channels' cache keys, in channel order, and
      never lowers the trigger count. */
  lemma {:induction false} GatherKeys(init: Gathered, k: nat, channels: seq<string>, state: Option<string>, columns: seq<Value>,
                                      attrsOf: string -> map<string, Value>, count: string -> nat, showReal: real -> string)
    requires k <= |channels| && k <= |init.style| && |columns| == 3 && Sized(init.style)
    ensures var g := GatherUpTo(init, k, channels, state, columns, attrsOf, count, showReal);
      g.keys == init.keys + ChannelKeys(channels, state, k) && g.ntrigs >= init.ntrigs
    decreases k
  {
    if k > 0 {
      GatherKeys(init, k - 1, channels, state, columns, attrsOf, count, showReal);
      var ks := ChannelKeys(channels, state, k - 1);
      assert init.keys + ks + [TriggerKey(channels[k - 1], state)] == init.keys + (ks + [TriggerKey(channels[k - 1], state)]);
    }
  }

  /** Over the channel loop, configured options and a true colour limit are
      never overwritten, and only `xlim` and `ylim` are added. */
  lemma {:induction false} GatherKeepsConfig(init: Gathered, k: nat, channels: seq<string>, state: Option<string>, columns: seq<Value>,
                                             attrsOf: string -> map<string, Value>, count: string -> nat, showReal: real -> string)
    requires k <= |channels| && k <= |init.style| && |columns| == 3 && Sized(init.style)
    ensures var g := GatherUpTo(init, k, channels, state, columns, attrsOf, count, showReal);
      (forall key :: key in init.pargs ==> key in g.pargs && g.pargs[key] == init.pargs[key]) &&
      g.pargs.Keys <= init.pargs.Keys + {"xlim", "ylim"} &&
      (Truthy(init.clim) ==> g.clim == init.clim)
    decreases k
  {
    if k > 0 {
      GatherKeepsConfig(init, k - 1, channels, state, columns, attrsOf, count, showReal);
      var g := GatherUpTo(init, k - 1, channels, state, columns, attrsOf, count, showReal);
      RangesKeep(Limits(g.pargs, g.clim, g.style[k - 1]), |columns|, columns, attrsOf(channels[k - 1]), showReal);
    }
  }

  /** Over the channel loop, a channel's style changes only while that
      channel is processed, and a true size range is never replaced. */
  lemma {:induction false} GatherKeepsStyle(init: Gathered, k: nat, channels: seq<string>, state: Option<string>, columns: seq<Value>,
                                            attrsOf: string -> map<string, Value>, count: string -> nat, showReal: real -> string)
    requires k <= |channels| && k <= |init.style| && |columns| == 3 && Sized(init.style)
    ensures var g := GatherUpTo(init, k, channels, state, columns, attrsOf, count, showReal);
      (forall i :: 0 <= i < |init.style| && Truthy(init.style[i]["size_range"]) ==> g.style[i] == init.style[i]) &&
      (forall i :: k <= i < |init.style| ==> g.style[i] == init.style[i])
    decreases k
  {
    if k > 0 {
      GatherKeepsStyle(init, k - 1, channels, state, columns, attrsOf, count, showReal);
      var g := GatherUpTo(init, k - 1, channels, state, columns, attrsOf, count, showReal);
      RangesKeep(Limits(g.pargs, g.clim, g.style[k - 1]), |columns|, columns, attrsOf(channels[k - 1]), showReal);
    }
  }

  /** Over the channel loop, every style dictionary keeps its set of keys. */
  lemma {:induction false} GatherStyleKeys(init: Gathered, k: nat, channels: seq<string>, state: Option<string>, columns: seq<Value>,
                                           attrsOf: string -> map<string, Value>, count: string -> nat, showReal: real -> string)
    requires k <= |channels| && k <= |init.style| && |columns| == 3 && Sized(init.style)
    ensures var g := GatherUpTo(init, k, channels, state, columns, attrsOf, count, showReal);
      forall i :: 0 <= i < |init.style| ==> g.style[i].Keys == init.style[i].Keys
    decreases k
  {
    if k > 0 {
      GatherStyleKeys(init, k - 1, channels, state, columns, attrsOf, count, showReal);
    }
  }

  /** What `process` needs of the channel loop: the cache keys of the first
      `m` channels in order, every style dictionary still holding its option
      names, and the configuration changed at most in `xlim` and `ylim`. */
  lemma GatherSummary(init: Gathered, m: nat, channels: seq<string>, state: Option<string>, columns: seq<Value>,
                      attrsOf: string -> map<string, Value>, count: string -> nat, showReal: real -> string, names: set<string>)
    requires m <= |channels| && m <= |init.style| && |columns| == 3 && Sized(init.style) && init.keys == []
    requires forall i :: 0 <= i < |init.style| ==> names <= init.style[i].Keys
    ensures var g := GatherUpTo(init, m, channels, state, columns, attrsOf, count, showReal);
      |g.keys| == m && (forall i :: 0 <= i < m ==> g.keys[i] == TriggerKey(channels[i], state)) &&
      |g.style| == |init.style| && (forall i :: 0 <= i < |g.style| ==> names <= g.style[i].Keys) &&
      Within(g.pargs - {"xlim", "ylim"}, init.pargs) &&
      Within(init.pargs, g.pargs) && g.pargs.Keys <= init.pargs.Keys + {"xlim", "ylim"}
  {
    GatherKeys(init, m, channels, state, columns, attrsOf, count, showReal);
    GatherKeepsConfig(init, m, channels, state, columns, attrsOf, count, showReal);
    GatherStyleKeys(init, m, channels, state, columns, attrsOf, count, showReal);
  }

  /** The channel loop over the first `m` channels. */
  method GatherChannels(init: Gathered, m: nat, channels: seq<string>, state: Option<string>, columns: seq<Value>,
                        attrsOf: string -> map<string, Value>, count: string -> nat, showReal: real -> string)
    returns (g: Gathered)
    requires m <= |channels| && m <= |init.style| && |columns| == 3 && Sized(init.style)
    ensures g == GatherUpTo(init, m, channels, state, columns, attrsOf, count, showReal)
  {
    g := init;
    for i := 0 to m
      invariant g == GatherUpTo(init, i, channels, state, columns, attrsOf, count, showReal)
    {
      g := GatherChannel(init, i, channels, state, columns, attrsOf, count, showReal, g);
    }
  }

  /** One pass of the channel loop: channel `i`'s cache key, its trigger
      count and its range defaults. */
  method GatherChannel(ghost init: Gathered, i: nat, channels: seq<string>, state: Option<string>, columns: seq<Value>,
                       attrsOf: string -> map<string, Value>, count: string -> nat, showReal: real -> string, g: Gathered)
    returns (next: Gathered)
    requires i < |channels| && i < |init.style| && |columns| == 3 && Sized(init.style)
    requires g == GatherUpTo(init, i, channels, state, columns, attrsOf, count, showReal)
    ensures next == GatherUpTo(init, i + 1, channels, state, columns, attrsOf, count, showReal)
  {
    var channel := channels[i];
    var key := TriggerKey(channel, state);
    var lim := FillRanges(Limits(g.pargs, g.clim, g.style[i]), columns, attrsOf(channel), showReal);
    GatherNext(init, i, channels, state, columns, attrsOf, count, showReal, g, lim);
    next := Gathered(lim.pargs, lim.clim, g.style[i := lim.style], g.ntrigs + count(key), g.keys + [key]);
  }

  // ---------------------------------------------------------------------
  // The plot

  /** `TriggerDataPlot.defaults`. */
  const DataDefaults: map<string, Value> := map[
    "x" := Str("time"), "y" := Str("snr"), "color" := Null,
    "edgecolor" := Str("face"), "facecolor" := Null, "marker" := Str("o"), "s" := Int(20),
    "vmin" := Null, "vmax" := Null, "clim" := Null, "logcolor" := Bool(false),
    "colorlabel" := Null, "cmap" := Str("jet"),
    "size_by" := Null, "size_by_log" := Null, "size_range" := Null]

  /** What `process` has worked out before it draws. */
  datatype Prepared = Prepared(base: FigureBase, labels: seq<string>, style: seq<map<string, Value>>,
                               clim: Value, logcolor: Value, colorlabel: Value, ntrigs: nat, keys: seq<string>)

  /** The colour limits `process` uses: `clim`, falling back to `colorlim`. */
  function ColourLimits(pargs: map<string, Value>): Value
  {
    if "clim" in pargs then pargs["clim"] else GetOr(pargs, "colorlim", Null)
  }

  /** What `process` works out, and the options it leaves behind. */
  datatype Processing = Processing(result: Result<Prepared>, rest: map<string, Value>)

  /** The data-shaping part of `process` over the options `pargs`, in its
      order: the figure base from the x column, the labels, the colouring
      options, the per-channel style, the one-channel size-range fallback
      and the channel loop. It fails exactly when the x column names no
      figure base, the labels are neither a string nor a sequence, or the
      style loop fails; each failure has its own error and leaves the
      options popped up to that point gone. */
  function Processed(pargs: map<string, Value>, channels: seq<string>, state: Option<string>, columns: seq<Value>,
                     colours: seq<Value>, markers: seq<Value>, attrsOf: string -> map<string, Value>,
                     count: string -> nat, showReal: real -> string): (p: Processing)
    requires |columns| == 3
    ensures var labels := NormaliseLabels(GetOr(pargs, "labels", Seq(Strs(channels))), showReal);
      var b := Broadcast(Configured(pargs), |channels|, colours, markers);
      p.result.Err? <==> ChooseFigure(columns[0]).Err? || labels.Err? || b.result.Err?
    ensures ChooseFigure(columns[0]).Err? ==> p == Processing(Err(TypeError), pargs)
    ensures var labels := GetOr(pargs, "labels", Seq(Strs(channels)));
      ChooseFigure(columns[0]).Ok? && !labels.Str? && !labels.Seq? ==>
        p == Processing(Err(TypeError), pargs - {"labels"})
    ensures var b := Broadcast(Configured(pargs), |channels|, colours, markers);
      (ChooseFigure(columns[0]).Ok? && NormaliseLabels(GetOr(pargs, "labels", Seq(Strs(channels))), showReal).Ok? &&
      b.result.Err?) ==> p == Processing(Err(b.result.error), b.rest)
  {
    var base := ChooseFigure(columns[0]);
    var labels := NormaliseLabels(GetOr(pargs, "labels", Seq(Strs(channels))), showReal);
    var b := Broadcast(Configured(pargs), |channels|, colours, markers);
    if base.Err? then Processing(Err(base.error), pargs)
    else if labels.Err? then Processing(Err(labels.error), pargs - {"labels"})
    else if b.result.Err? then Processing(Err(b.result.error), b.rest)
    else
      BroadcastOk(Configured(pargs), |channels|, colours, markers);
      var clim := ColourLimits(pargs);
      var style := SizeRangeFallback(b.result.value, clim);
      var g := GatherUpTo(Gathered(b.rest, clim, style, 0, []), Min3(|channels|, |labels.value|, |style|),
                          channels, state, columns, attrsOf, count, showReal);
      Processing(Ok(Prepared(base.value, labels.value, g.style, g.clim, GetOr(pargs, "logcolor", Bool(false)),
                             GetOr(pargs, "colorlabel", Null), g.ntrigs, g.keys)),
                 g.pargs)
  }

  /** A successful `process` keeps the x column's figure base and the
      normalised labels, has one style dictionary per channel holding every
      style option, and reads channel `i`'s triggers under its cache key. */
  lemma ProcessedShape(pargs: map<string, Value>, channels: seq<string>, state: Option<string>, columns: seq<Value>,
                       colours: seq<Value>, markers: seq<Value>, attrsOf: string -> map<string, Value>,
                       count: string -> nat, showReal: real -> string)
    requires |columns| == 3
    ensures var p := Processed(pargs, channels, state, columns, colours, markers, attrsOf, count, showReal);
      p.result.Ok? ==>
        var r := p.result.value;
        r.base == ChooseFigure(columns[0]).value &&
        r.labels == NormaliseLabels(GetOr(pargs, "labels", Seq(Strs(channels))), showReal).value &&
        r.logcolor == GetOr(pargs, "logcolor", Bool(false)) && r.colorlabel == GetOr(pargs, "colorlabel", Null) &&
        |r.style| == |channels| && (forall i :: 0 <= i < |r.style| ==> StyleKeySet(|StyleKeys|) <= r.style[i].Keys) &&
        |r.keys| == Min3(|channels|, |r.labels|, |channels|) &&
        (forall i :: 0 <= i < |r.keys| ==> r.keys[i] == TriggerKey(channels[i], state))
  {
    var b := Broadcast(Configured(pargs), |channels|, colours, markers);
    if ChooseFigure(columns[0]).Ok? && NormaliseLabels(GetOr(pargs, "labels", Seq(Strs(channels))), showReal).Ok? &&
       b.result.Ok? {
      BroadcastOk(Configured(pargs), |channels|, colours, markers);
      var clim := ColourLimits(pargs);
      var style := SizeRangeFallback(b.result.value, clim);
      var labels := NormaliseLabels(GetOr(pargs, "labels", Seq(Strs(channels))), showReal).value;
      GatherSummary(Gathered(b.rest, clim, style, 0, []), Min3(|channels|, |labels|, |style|),
                    channels, state, columns, attrsOf, count, showReal, StyleKeySet(|StyleKeys|));
    }
  }

  /** A successful `process` pops the labels, the colouring options and the
      style options; every other option keeps its value, and only `xlim`
      and `ylim` can be added (from the channels' ranges). */
  lemma ProcessedFrame(pargs: map<string, Value>, channels: seq<string>, state: Option<string>, columns: seq<Value>,
                       colours: seq<Value>, markers: seq<Value>, attrsOf: string -> map<string, Value>,
                       count: string -> nat, showReal: real -> string)
    requires |columns| == 3
    ensures var p := Processed(pargs, channels, state, columns, colours, markers, attrsOf, count, showReal);
      p.result.Ok? ==>
        Within(Configured(pargs) - StyleKeySet(|StyleKeys|), p.rest) &&
        p.rest.Keys <= (Configured(pargs) - StyleKeySet(|StyleKeys|)).Keys + {"xlim", "ylim"} &&
        Within(p.rest - {"xlim", "ylim"}, pargs)
  {
    var b := Broadcast(Configured(pargs), |channels|, colours, markers);
    if ChooseFigure(columns[0]).Ok? && NormaliseLabels(GetOr(pargs, "labels", Seq(Strs(channels))), showReal).Ok? &&
       b.result.Ok? {
      BroadcastOk(Configured(pargs), |channels|, colours, markers);
      var clim := ColourLimits(pargs);
      var style := SizeRangeFallback(b.result.value, clim);
      var labels := NormaliseLabels(GetOr(pargs, "labels", Seq(Strs(channels))), showReal).value;
      var init := Gathered(b.rest, clim, style, 0, []);
      GatherKeepsConfig(init, Min3(|channels|, |labels|, |style|), channels, state, columns, attrsOf, count, showReal);
      assert Within(b.rest, pargs);
    }
  }

  class TriggerDataPlot {
    /** The raw channel identifiers (the mixin's `_channels`). */
    var channels: seq<string>
    /** The remaining plot configuration, consumed as `process` pops it. */
    var pargs: map<string, Value>
    /** The trigger generator name. */
    const etg: Value
    /** The name of the state the plot is restricted to, if any. */
    const state: Option<string>
    /** The x, y and colour columns, fixed at construction. */
    const columns: seq<Value>
    /** The pid the time-series base class computes. */
    const basePid: string
    /** The memoised pid (`_pid`). */
    var pid: Option<string>

    /** The base class merges the class defaults with the keyword arguments;
        the three columns are then popped out of the configuration. */
    constructor (channels: seq<string>, state: Option<string>, etg: Value, kwargs: map<string, Value>, basePid: string)
      ensures this.channels == channels && this.state == state && this.etg == etg && this.basePid == basePid
      ensures var merged := DataDefaults + kwargs;
        columns == [merged["x"], merged["y"], merged["color"]] &&
        pargs == merged - {"x", "y", "color"}
      ensures pid == None
    {
      var merged := DataDefaults + kwargs;
      this.channels := channels;
      this.state := state;
      this.etg := etg;
      this.basePid := basePid;
      columns := [merged["x"], merged["y"], merged["color"]];
      pargs := merged - {"x", "y", "color"};
      pid := None;
    }

    /** The plot's identifier, computed once and then read back. `cchar`
        says which characters the sanitiser replaces. */
    method Pid(cchar: char -> bool) returns (r: Result<string>)
      requires |columns| == 3
      modifies this`pid
      ensures old(pid).Some? ==> r == Ok(old(pid).value) && pid == old(pid)
      ensures old(pid).None? ==>
                r == DataPid(basePid, etg, columns, cchar) &&
                pid == Some(DataPidMemo(basePid, etg, columns, cchar))
    {
      if pid.Some? {
        return Ok(pid.value);
      }
      pid := Some(basePid);
      if !etg.Str? {
        return Err(TypeError);
      }
      var acc := basePid + "_" + Sanitize(etg.s, cchar);
      pid := Some(acc);
      for k := 0 to |columns|
        invariant ColumnSuffix(columns[..k], cchar).ok
        invariant acc == basePid + "_" + Sanitize(etg.s, cchar) + ColumnSuffix(columns[..k], cchar).text
        invariant pid == Some(acc)
      {
        var column := columns[k];
        assert columns[..k + 1][..k] == columns[..k];
        if Truthy(column) {
          if !column.Str? {
            ColumnSuffixStuck(columns, k + 1, cchar);
            return Err(TypeError);
          }
          acc := acc + "_" + Sanitize(column.s, cchar);
          pid := Some(acc);
        }
      }
      assert columns[..|columns|] == columns;
      acc := Upper(acc);
      pid := Some(acc);
      return Ok(acc);
    }

    /** The pid setter: `self._pid = str(id_)`. */
    method SetPid(id: Value, showReal: real -> string)
      modifies this`pid
      ensures pid == Some(ToStr(id, showReal))
    {
      pid := Some(ToStr(id, showReal));
    }

    /** The legend labels: the `labels` option, or the channel names. */
    method PopLabels(showReal: real -> string) returns (labels: Result<seq<string>>)
      modifies this`pargs
      ensures pargs == old(pargs) - {"labels"}
      ensures labels == NormaliseLabels(GetOr(old(pargs), "labels", Seq(Strs(channels))), showReal)
    {
      var given;
      given, pargs := PopOr(pargs, "labels", Seq(Strs(channels))).0, PopOr(pargs, "labels", Null).1;
      labels := NormaliseLabels(given, showReal);
    }

    /** The colouring options. `clim` falls back to `colorlim`, but the
        fallback is popped whether it is used or not. */
    method PopColourParams() returns (clim: Value, logcolor: Value, colorlabel: Value)
      modifies this`pargs
      ensures clim == if "clim" in old(pargs) then old(pargs)["clim"] else GetOr(old(pargs), "colorlim", Null)
      ensures logcolor == GetOr(old(pargs), "logcolor", Bool(false))
      ensures colorlabel == GetOr(old(pargs), "colorlabel", Null)
      ensures pargs == old(pargs) - {"clim", "colorlim", "logcolor", "colorlabel"}
    {
      var fallback;
      fallback, pargs := PopOr(pargs, "colorlim", Null).0, PopOr(pargs, "colorlim", Null).1;
      clim, pargs := PopOr(pargs, "clim", fallback).0, PopOr(pargs, "clim", fallback).1;
      logcolor, pargs := PopOr(pargs, "logcolor", Bool(false)).0, PopOr(pargs, "logcolor", Bool(false)).1;
      colorlabel, pargs := PopOr(pargs, "colorlabel", Null).0, PopOr(pargs, "colorlabel", Null).1;
    }

    /** One style dictionary per channel, built option by option: each
        option is popped from the configuration and its value broadcast or
        cycled over the channels. */
    method BroadcastStyles(colours: seq<Value>, markers: seq<Value>) returns (r: Result<seq<map<string, Value>>>)
      modifies this`pargs
      ensures var b := Broadcast(old(pargs), |channels|, colours, markers);
        pargs == b.rest && r == b.result
    {
      var n := |channels|;
      var plotargs: seq<map<string, Value>> := [];
      for i := 0 to n
        invariant plotargs == Blank(i)
      {
        plotargs := plotargs + [map[]];
      }
      for k := 0 to |StyleKeys|
        invariant BroadcastUpTo(old(pargs), k, n, colours, markers) == Styled(pargs, Ok(plotargs))
        invariant |plotargs| == n
      {
        var key := StyleKeys[k];
        if key !in pargs {
          BroadcastStuck(old(pargs), k + 1, |StyleKeys|, n, colours, markers);
          return Err(KeyError(key));
        }
        var val := pargs[key];
        pargs := pargs - {key};
        var src := StyleSource(key, val, n, colours, markers);
        var next := Spread(plotargs, key, src);
        if next.Err? {
          BroadcastStuck(old(pargs), k + 1, |StyleKeys|, n, colours, markers);
          return Err(StopIteration);
        }
        plotargs := next.value;
      }
      return Ok(plotargs);
    }

    /** The channel loop: for each channel that has a label and a style
        dictionary, the trigger cache key, the trigger count, and the range
        defaults from the channel's attributes. */
    method AddData(labels: seq<string>, style: seq<map<string, Value>>, clim: Value,
                   attrsOf: string -> map<string, Value>, count: string -> nat, showReal: real -> string)
      returns (g: Gathered)
      requires |columns| == 3 && Sized(style)
      modifies this`pargs
      ensures var m := Min3(|channels|, |labels|, |style|);
        g == GatherUpTo(Gathered(old(pargs), clim, style, 0, []), m, channels, state, columns, attrsOf, count, showReal)
      ensures pargs == g.pargs
    {
      var m := Min3(|channels|, |labels|, |style|);
      g := GatherChannels(Gathered(pargs, clim, style, 0, []), m, channels, state, columns, attrsOf, count, showReal);
      pargs := g.pargs;
    }

    /** The data-shaping part of `process`: it leaves the outcome and the
        options that `Processed` gives. */
    method Process(colours: seq<Value>, markers: seq<Value>, attrsOf: string -> map<string, Value>,
                   count: string -> nat, showReal: real -> string)
      returns (r: Result<Prepared>)
      requires |columns| == 3
      modifies this`pargs
      ensures var p := Processed(old(pargs), channels, state, columns, colours, markers, attrsOf, count, showReal);
        r == p.result && pargs == p.rest
    {
      var base := ChooseFigure(columns[0]);
      if base.Err? {
        return Err(base.error);
      }
      var labels := PopLabels(showReal);
      if labels.Err? {
        return Err(labels.error);
      }
      var clim, logcolor, colorlabel := PopColourParams();
      assert clim == ColourLimits(old(pargs)) && logcolor == GetOr(old(pargs), "logcolor", Bool(false)) &&
             colorlabel == GetOr(old(pargs), "colorlabel", Null);
      var configured := pargs;
      assert configured == Configured(old(pargs));
      ghost var b := Broadcast(configured, |channels|, colours, markers);
      var styles := BroadcastStyles(colours, markers);
      if styles.Err? {
        return Err(styles.error);
      }
      BroadcastOk(configured, |channels|, colours, markers);
      var style := SizeRangeFallback(styles.value, clim);
      ghost var init := Gathered(pargs, clim, style, 0, []);
      assert init == Gathered(b.rest, ColourLimits(old(pargs)), SizeRangeFallback(b.result.value, ColourLimits(old(pargs))), 0, []);
      var g := AddData(labels.value, style, clim, attrsOf, count, showReal);
      return Ok(Prepared(base.value, labels.value, g.style, g.clim, logcolor, colorlabel, g.ntrigs, g.keys));
    }
  }

  /** The options left for the style loop once the labels and the
      colouring options are popped. */
  function Configured(pargs: map<string, Value>): (r: map<string, Value>)
    ensures r.Keys == pargs.Keys - {"labels", "clim", "colorlim", "logcolor", "colorlabel"}
    ensures Within(r, pargs)
  {
    pargs - {"labels", "clim", "colorlim", "logcolor", "colorlabel"}
  }

  /** The length of a three-way `zip`. */
  function Min3(a: nat, b: nat, c: nat): (r: nat)
    ensures r <= a && r <= b && r <= c && (r == a || r == b || r == c)
  {
    if a <= b && a <= c then a else if b <= c then b else c
  }
}
