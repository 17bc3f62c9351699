/** Logic shared by the trigger plot classes of gwsumm/plot/triggers.py:
    the channel-tag handling of `TriggerPlotMixin.allchannels`, the key
    under which a channel's triggers are cached, and the normalisation of
    user-supplied legend labels. */
module TriggerCommon {
  import opened Strings
  import opened Values

  /** The two characters that separate a physical channel name from a tag
      selecting one logical trigger stream on it (`name#tag`, `name@tag`). */
  predicate IsTagMark(c: char)
  {
    c == '#' || c == '@'
  }

  /** `'#' in str(channel) or '@' in str(channel)`. */
  predicate HasTag(channel: string)
  {
    '#' in channel || '@' in channel
  }

  /** `re.split('[#@]', channel, 1)[0]`: everything before the first tag mark. */
  function StripTag(channel: string): (r: string)
    ensures |r| <= |channel| && r == channel[..|r|]
    ensures forall i :: 0 <= i < |r| ==> !IsTagMark(r[i])
    ensures |r| < |channel| ==> IsTagMark(channel[|r|])
    decreases |channel|
  {
    if channel == [] || IsTagMark(channel[0]) then []
    else [channel[0]] + StripTag(channel[1..])
  }

  /** A channel is its own physical name exactly when it carries no tag. */
  lemma StripTagUntagged(channel: string)
    ensures StripTag(channel) == channel <==> !HasTag(channel)
  {
    var r := StripTag(channel);
    if r == channel {
      assert forall i :: 0 <= i < |channel| ==> !IsTagMark(channel[i]);
    } else {
      assert IsTagMark(channel[|r|]);
    }
  }

  /** Stripping only looks at the text up to the first tag mark, so anything
      appended after a tag mark does not change the physical name. */
  lemma {:induction false} StripTagExtend(channel: string, suffix: string)
    requires HasTag(channel)
    ensures StripTag(channel + suffix) == StripTag(channel)
    decreases |channel|
  {
    if !IsTagMark(channel[0]) {
      assert HasTag(channel[1..]) by {
        var k :| 0 <= k < |channel| && IsTagMark(channel[k]);
        assert channel[1..][k - 1] == channel[k];
      }
      StripTagExtend(channel[1..], suffix);
      assert (channel + suffix)[1..] == channel[1..] + suffix;
    }
  }

  /** `TriggerPlotMixin.allchannels`: every identifier with its tag removed,
      in the same order, one entry per identifier (duplicates are kept). */
  function AllChannels(channels: seq<string>): (r: seq<string>)
    ensures |r| == |channels|
    ensures forall i :: 0 <= i < |channels| ==>
              |r[i]| <= |channels[i]| && r[i] == channels[i][..|r[i]|] && !HasTag(r[i]) &&
              (|r[i]| < |channels[i]| ==> IsTagMark(channels[i][|r[i]|]))
  {
    seq(|channels|, i requires 0 <= i < |channels| => StripTag(channels[i]))
  }

  /** Identifiers without a tag pass through `allchannels` unchanged, and a
      second application changes nothing. */
  lemma AllChannelsFixes(channels: seq<string>)
    ensures (forall i :: 0 <= i < |channels| ==> !HasTag(channels[i])) ==>
              AllChannels(channels) == channels
    ensures AllChannels(AllChannels(channels)) == AllChannels(channels)
  {
    forall i | 0 <= i < |channels| ensures StripTag(channels[i]) == channels[i] <==> !HasTag(channels[i]) {
      StripTagUntagged(channels[i]);
    }
    var once := AllChannels(channels);
    forall i | 0 <= i < |once| ensures StripTag(once[i]) == once[i] {
      StripTagUntagged(once[i]);
    }
  }

  /** `self.state and str(self.state) or 'All'`: the state's name, or `All`
      when there is no state or its name is empty. */
  function StateName(state: Option<string>): (r: string)
    ensures r != ""
    ensures state.Some? && state.value != "" ==> r == state.value
    ensures state.None? || state.value == "" ==> r == "All"
  {
    if state.Some? && state.value != "" then state.value else "All"
  }

  /** The key under which a channel's triggers are cached: a tagged channel
      is qualified by the state, `"<channel>,<state>"` (or `",All"`), an
      untagged one is used as it is. */
  function TriggerKey(channel: string, state: Option<string>): (key: string)
  {
    if HasTag(channel) then channel + "," + StateName(state) else channel
  }

  /** A cache key names the same physical channel as the channel it was made
      from, and is tagged exactly when the channel is. */
  lemma TriggerKeyChannel(channel: string, state: Option<string>)
    ensures StripTag(TriggerKey(channel, state)) == StripTag(channel)
    ensures HasTag(TriggerKey(channel, state)) <==> HasTag(channel)
    ensures channel <= TriggerKey(channel, state)
  {
    if HasTag(channel) {
      StripTagExtend(channel, "," + StateName(state));
      assert channel + "," + StateName(state) == channel + ("," + StateName(state));
      var k :| 0 <= k < |channel| && IsTagMark(channel[k]);
      assert TriggerKey(channel, state)[k] == channel[k];
    }
  }

  /** Under one state, distinct channels never share a cache entry. */
  lemma TriggerKeyInjective(a: string, b: string, state: Option<string>)
    requires TriggerKey(a, state) == TriggerKey(b, state)
    ensures a == b
  {
    TriggerKeyChannel(a, state);
    TriggerKeyChannel(b, state);
    var key := TriggerKey(a, state);
    if HasTag(a) && HasTag(b) {
      var suffix := "," + StateName(state);
      assert key == a + suffix && key == b + suffix;
      assert |a| == |b|;
      assert a == key[..|a|] && b == key[..|b|];
    }
  }

  /** Each value `str()`-ed and stripped of newlines and spaces at both ends. */
  function StrippedStrs(items: seq<Value>, showReal: real -> string): (r: seq<string>)
    ensures |r| == |items|
    ensures forall i :: 0 <= i < |items| ==> r[i] == Strip(ToStr(items[i], showReal))
  {
    seq(|items|, i requires 0 <= i < |items| => Strip(ToStr(items[i], showReal)))
  }

  /** The labels a plot draws from its `labels` option: a single string is
      split on commas, a list is taken element by element, and every label is
      `str()`-ed and stripped of newlines and spaces at both ends. */
  function NormaliseLabels(labels: Value, showReal: real -> string): (r: Result<seq<string>>)
    ensures labels.Str? ==>
              (r.Ok? && |r.value| == |Split(labels.s, ',')| &&
               forall i :: 0 <= i < |r.value| ==> r.value[i] == Strip(Split(labels.s, ',')[i]))
    ensures labels.Seq? ==>
              (r.Ok? && |r.value| == |labels.items| &&
               forall i :: 0 <= i < |r.value| ==> r.value[i] == Strip(ToStr(labels.items[i], showReal)))
    ensures !labels.Str? && !labels.Seq? ==> r == Err(TypeError)
  {
    match labels
    case Str(s) => Ok(StrippedStrs(Strs(Split(s, ',')), showReal))
    case Seq(items) => Ok(StrippedStrs(items, showReal))
    case _ => Err(TypeError)
  }

  /** A label list given as one comma-free string yields exactly one label. */
  lemma SingleLabel(s: string, showReal: real -> string)
    requires ',' !in s
    ensures NormaliseLabels(Str(s), showReal) == Ok([Strip(s)])
  {
    SplitNoSeparator(s, ',');
    assert NormaliseLabels(Str(s), showReal) == Ok(StrippedStrs(Strs(Split(s, ',')), showReal));
    var r := StrippedStrs(Strs([s]), showReal);
    assert Strs([s])[0] == Str(s);
    assert r[0] == Strip(ToStr(Str(s), showReal));
    assert r == [Strip(s)];
  }

  /** Normalised labels are already stripped: stripping them again changes
      nothing. */
  lemma LabelsStripped(labels: Value, showReal: real -> string)
    ensures var r := NormaliseLabels(labels, showReal);
      r.Ok? ==> forall i :: 0 <= i < |r.value| ==> Strip(r.value[i]) == r.value[i]
  {
    var r := NormaliseLabels(labels, showReal);
    if r.Ok? {
      forall i | 0 <= i < |r.value| ensures Strip(r.value[i]) == r.value[i] {
        if labels.Str? {
          StripIdempotent(Split(labels.s, ',')[i]);
        } else {
          StripIdempotent(ToStr(labels.items[i], showReal));
        }
      }
    }
  }
}
