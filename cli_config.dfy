/** `str2bool`, the converter the command line applies to flag values from the config file. */
module CliConfig {
  import opened Text
  import opened JsonData

  /** The words read as True, compared after lower-casing. */
  const TrueWords: seq<string> := ["yes", "true", "t", "y"]

  /** The words read as False, compared after lower-casing. */
  const FalseWords: seq<string> := ["no", "false", "f", "n"]

  /**
   * `str2bool`: a string that is one of the words in any letter case becomes that boolean;
   * anything else, string or not, is returned unchanged.
   */
  function Str2Bool(v: Json): (r: Json)
    ensures r.JBool? <==> v.JBool? || (v.JStr? && Lower(v.s) in TrueWords + FalseWords)
    ensures v.JStr? && r.JBool? ==> r.b == (Lower(v.s) in TrueWords)
    ensures !r.JBool? || !v.JStr? ==> r == v
  {
    if !v.JStr? then v
    else if Lower(v.s) in TrueWords then JBool(true)
    else if Lower(v.s) in FalseWords then JBool(false)
    else v
  }

  /** Converting twice is converting once. */
  lemma Str2BoolIdempotent(v: Json)
    ensures Str2Bool(Str2Bool(v)) == Str2Bool(v)
  {
  }

  /** Two spellings that differ only in letter case convert alike. */
  lemma {:induction false} Str2BoolIgnoresCase(s: string, t: string)
    requires |s| == |t| && forall i :: 0 <= i < |s| ==> LowerChar(s[i]) == LowerChar(t[i])
    ensures Str2Bool(JStr(s)).JBool? <==> Str2Bool(JStr(t)).JBool?
    ensures Str2Bool(JStr(s)).JBool? ==> Str2Bool(JStr(s)) == Str2Bool(JStr(t))
  {
    assert Lower(s) == Lower(t);
  }

  /** "TRUE" is True and "No" is False. */
  lemma Str2BoolSamples()
    ensures Str2Bool(JStr("TRUE")) == JBool(true)
    ensures Str2Bool(JStr("No")) == JBool(false)
  {
    assert Lower("TRUE") == "true";
    assert Lower("No") == "no";
  }
}
