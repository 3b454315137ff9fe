/** The sender's timezone lookup: the router's system configuration first, `date` second. */
module Sender {
  import opened Text
  import opened Ubus

  /** What precedes the timezone in the system configuration file. */
  const TimezoneMarker := "timezone '"

  /**
   * `get_timezone`, given the outcomes of `cat <system config>` and `date +%Z%z`: the text
   * after the first marker in the file, cut at the next `'`; failing that, the trimmed output
   * of `date`; failing that, "". It never raises. The trimmed output is what is left after
   * removing the longest run of whitespace at each end.
   */
  function GetTimezone(cat: Outcome, date: Outcome): (tz: string)
    ensures !(cat.Completed? && Contains(cat.stdout, TimezoneMarker)) && date.Completed? ==>
      exists a, b :: (0 <= a <= b <= |date.stdout| && tz == date.stdout[a..b] &&
        (forall i :: 0 <= i < a ==> IsSpace(date.stdout[i])) &&
        (forall i :: b <= i < |date.stdout| ==> IsSpace(date.stdout[i])))
    ensures !(cat.Completed? && Contains(cat.stdout, TimezoneMarker)) && date.Completed? && tz != [] ==>
      !IsSpace(tz[0]) && !IsSpace(tz[|tz| - 1])
    ensures !(cat.Completed? && Contains(cat.stdout, TimezoneMarker)) && date.Failed? ==> tz == ""
  {
    if cat.Completed? && Contains(cat.stdout, TimezoneMarker) then
      Split(Split(cat.stdout, TimezoneMarker)[1], "'")[0]
    else if date.Completed? then
      StripSpec(date.stdout, Spaces);
      Strip(date.stdout, Spaces)
    else ""
  }

  /**
   * When the file holds the marker, the timezone is the text right after its first
   * occurrence, up to the end, the next `'`, or the next occurrence of the marker, whichever
   * comes first; it never holds a `'`.
   */
  lemma {:induction false} TimezoneFromConfig(cat: Outcome, date: Outcome)
    requires cat.Completed? && Contains(cat.stdout, TimezoneMarker)
    ensures var out := cat.stdout;
            var rest := out[Find(out, TimezoneMarker).value + |TimezoneMarker|..];
            var tz := GetTimezone(cat, date);
      && tz == rest[..|tz|]
      && (forall j :: 0 <= j < |tz| ==> tz[j] != '\'')
      && (forall j :: 0 <= j < |tz| ==> !StartsWith(rest[j..], TimezoneMarker))
      && (|tz| == |rest| || rest[|tz|] == '\'' || StartsWith(rest[|tz|..], TimezoneMarker))
  {
    var out := cat.stdout;
    var rest := out[Find(out, TimezoneMarker).value + |TimezoneMarker|..];
    SplitSecond(out, TimezoneMarker);
    CutAtMarkerThenQuote(rest);
  }

  /** Cutting a text at the marker and then at `'` keeps the prefix before either. */
  lemma CutAtMarkerThenQuote(rest: string)
    ensures var tz := Split(Split(rest, TimezoneMarker)[0], "'")[0];
      && tz == rest[..|tz|]
      && (forall j :: 0 <= j < |tz| ==> tz[j] != '\'')
      && (forall j :: 0 <= j < |tz| ==> !StartsWith(rest[j..], TimezoneMarker))
      && (|tz| == |rest| || rest[|tz|] == '\'' || StartsWith(rest[|tz|..], TimezoneMarker))
  {
    var piece := Split(rest, TimezoneMarker)[0];
    SplitFirst(rest, TimezoneMarker);
    CutAtQuote(piece);
  }

  /** The first piece of a split at `'` is the longest prefix without a `'`. */
  lemma CutAtQuote(piece: string)
    ensures var tz := Split(piece, "'")[0];
      && tz == piece[..|tz|]
      && (forall j :: 0 <= j < |tz| ==> tz[j] != '\'')
      && (|tz| == |piece| || piece[|tz|] == '\'')
  {
    var tz := Split(piece, "'")[0];
    SplitFirst(piece, "'");
    forall j | 0 <= j < |tz|
      ensures tz[j] != '\''
    {
      assert !StartsWith(piece[j..], "'");
      assert piece[j..][..1] == [piece[j]];
    }
    if |tz| < |piece| {
      assert StartsWith(piece[|tz|..], "'");
      assert piece[|tz|..][..1] == [piece[|tz|]];
    }
  }
}
