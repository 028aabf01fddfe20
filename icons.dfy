/**
 * Emoji selection, `get_emoji` in `nws_weather_ctk/utils/icons.py` (returns
 * the key and the text) and in `icons.py` (returns the text only).  The
 * emoji table, read from a YAML file by the source, is a parameter: an
 * ordered dictionary from emoji key to its text and keywords.
 */
module Icons {
  import opened Wrappers
  import opened Text
  import opened OrderedDict

  datatype Emoji = Emoji(text: string, keywords: seq<string>)

  type EmojiDict = Dict<string, Emoji>

  const NightKey := "night"

  /** How many of `keywords` occur in `forecast`; a repeated keyword counts each time. */
  function Score(keywords: seq<string>, forecast: string): (n: nat)
    ensures n <= |keywords|
  {
    if |keywords| == 0 then 0
    else Score(keywords[..|keywords| - 1], forecast) + if Contains(forecast, keywords[|keywords| - 1]) then 1 else 0
  }

  /** No matching keyword, no score; every keyword matching, full score. */
  lemma {:induction false} ScoreBounds(keywords: seq<string>, forecast: string)
    ensures Score(keywords, forecast) == 0 <==> forall k :: 0 <= k < |keywords| ==> !Contains(forecast, keywords[k])
    ensures Score(keywords, forecast) == |keywords| <==> forall k :: 0 <= k < |keywords| ==> Contains(forecast, keywords[k])
  {
    if |keywords| > 0 {
      var n := |keywords| - 1;
      ScoreBounds(keywords[..n], forecast);
      assert forall k :: 0 <= k < n ==> keywords[..n][k] == keywords[k];
    }
  }

  /** `emoji_matches`: the score of each entry, in dictionary order. */
  function Scores(d: EmojiDict, forecast: string): (s: seq<nat>)
    ensures |s| == |d|
  {
    seq(|d|, i requires 0 <= i < |d| => Score(d[i].1.keywords, forecast))
  }

  /** `max(emoji_matches, key=emoji_matches.get)`: the index Python's `max` returns. */
  function FirstMax(s: seq<nat>): (i: nat)
    requires |s| > 0
    ensures i < |s|
  {
    if |s| == 1 then 0
    else
      var best := FirstMax(s[..|s| - 1]);
      if s[|s| - 1] > s[best] then |s| - 1 else best
  }

  /** `i` holds a maximal score and every earlier index a strictly smaller one. */
  ghost predicate IsFirstMax(s: seq<nat>, i: nat)
  {
    && i < |s|
    && (forall j :: 0 <= j < |s| ==> s[j] <= s[i])
    && (forall j :: 0 <= j < i ==> s[j] < s[i])
  }

  lemma {:induction false} FirstMaxIsFirstMax(s: seq<nat>)
    requires |s| > 0
    ensures IsFirstMax(s, FirstMax(s))
  {
    if |s| > 1 {
      var front := s[..|s| - 1];
      FirstMaxIsFirstMax(front);
      assert forall j :: 0 <= j < |front| ==> front[j] == s[j];
    }
  }

  /** The first maximum is unique: it is the index `FirstMax` computes. */
  lemma FirstMaxUnique(s: seq<nat>, i: nat)
    requires IsFirstMax(s, i)
    ensures i == FirstMax(s)
  {
    FirstMaxIsFirstMax(s);
  }

  /** `get_emoji` in `nws_weather_ctk/utils/icons.py`: the chosen key and its text, `None` where the source raises. */
  function Choice(forecast: string, isDayTime: bool, d: EmojiDict): Option<(string, string)>
  {
    if !isDayTime then
      match Get(d, NightKey)
      case Some(e) => Some((NightKey, e.text))
      case None => None
    else if |d| == 0 then None
    else
      var i := FirstMax(Scores(d, Lower(forecast)));
      Some((d[i].0, d[i].1.text))
  }

  /** At night the night entry is chosen, whatever the forecast says. */
  lemma NightIgnoresForecast(f1: string, f2: string, d: EmojiDict)
    requires Get(d, NightKey).Some?
    ensures Choice(f1, false, d) == Choice(f2, false, d) == Some((NightKey, Get(d, NightKey).value.text))
  {
  }

  /**
   * By day the chosen entry has the highest number of keywords found in the
   * lower-cased forecast, the earliest such entry wins ties, and its text is
   * returned with its key; only an empty table fails.
   */
  lemma ChoiceIsBestMatch(forecast: string, d: EmojiDict)
    ensures Choice(forecast, true, d).None? <==> |d| == 0
    ensures |d| > 0 ==> exists i: nat ::
      && IsFirstMax(Scores(d, Lower(forecast)), i)
      && Choice(forecast, true, d) == Some((d[i].0, d[i].1.text))
  {
    if |d| > 0 {
      FirstMaxIsFirstMax(Scores(d, Lower(forecast)));
    }
  }

  /** When no keyword matches anywhere, the first entry of the table is chosen. */
  lemma NoMatchChoosesFirst(forecast: string, d: EmojiDict)
    requires |d| > 0
    requires forall i, k :: 0 <= i < |d| && 0 <= k < |d[i].1.keywords| ==> !Contains(Lower(forecast), d[i].1.keywords[k])
    ensures Choice(forecast, true, d) == Some((d[0].0, d[0].1.text))
  {
    var s := Scores(d, Lower(forecast));
    forall i | 0 <= i < |d| ensures s[i] == 0 {
      ScoreBounds(d[i].1.keywords, Lower(forecast));
    }
    FirstMaxUnique(s, 0);
  }

  /** In a table without repeated keys, the chosen key looks up the chosen text. */
  lemma ChoiceKeyIsInTable(forecast: string, isDayTime: bool, d: EmojiDict)
    requires DistinctKeys(d)
    requires Choice(forecast, isDayTime, d).Some?
    ensures Get(d, Choice(forecast, isDayTime, d).value.0).Some?
    ensures Get(d, Choice(forecast, isDayTime, d).value.0).value.text == Choice(forecast, isDayTime, d).value.1
  {
    if isDayTime {
      var i := FirstMax(Scores(d, Lower(forecast)));
      GetAt(d, i);
    }
  }

  /** In a dictionary without repeated keys, looking up the key at `i` gives the value at `i`. */
  lemma {:induction false} GetAt<K, V>(d: Dict<K, V>, i: nat)
    requires DistinctKeys(d) && i < |d|
    ensures Get(d, d[i].0) == Some(d[i].1)
  {
    if i > 0 {
      assert d[0].0 != d[i].0;
      assert d[1..][i - 1] == d[i];
      GetAt(d[1..], i - 1);
    }
  }

  /**
   * The counting loops and the `max` scan shared by both copies of
   * `get_emoji`: the index of the entry `max` picks.
   */
  method BestMatch(d: EmojiDict, forecast: string) returns (best: nat)
    requires |d| > 0
    ensures best == FirstMax(Scores(d, forecast))
  {
    var matches: seq<nat> := [];
    var i := 0;
    while i < |d|
      invariant 0 <= i <= |d|
      invariant matches == Scores(d, forecast)[..i]
    {
      var keywords := d[i].1.keywords;
      var count := 0;
      var k := 0;
      while k < |keywords|
        invariant 0 <= k <= |keywords|
        invariant count == Score(keywords[..k], forecast)
      {
        assert keywords[..k + 1][..k] == keywords[..k];
        if Contains(forecast, keywords[k]) {
          count := count + 1;
        }
        k := k + 1;
      }
      assert keywords[..|keywords|] == keywords;
      matches := matches + [count];
      i := i + 1;
    }
    assert matches == Scores(d, forecast);
    best := 0;
    var j := 1;
    while j < |matches|
      invariant 1 <= j <= |matches|
      invariant best == FirstMax(matches[..j])
    {
      assert matches[..j + 1][..j] == matches[..j];
      if matches[j] > matches[best] {
        best := j;
      }
      j := j + 1;
    }
    assert matches[..|matches|] == matches;
  }

  /** `get_emoji(forecast, isDayTime)` of `nws_weather_ctk/utils/icons.py`. */
  method GetEmoji(forecast: string, isDayTime: bool, d: EmojiDict) returns (r: Option<(string, string)>)
    ensures r == Choice(forecast, isDayTime, d)
  {
    var lowered := Lower(forecast);
    if !isDayTime {
      var night := Get(d, NightKey);
      if night.None? {
        return None;
      }
      return Some((NightKey, night.value.text));
    }
    if |d| == 0 {
      return None;
    }
    var i := BestMatch(d, lowered);
    r := Some((d[i].0, d[i].1.text));
  }

  /** `get_emoji(forecast, isDayTime)` of `icons.py`: the text of the same choice. */
  method GetEmojiText(forecast: string, isDayTime: bool, d: EmojiDict) returns (r: Option<string>)
    ensures r.Some? <==> Choice(forecast, isDayTime, d).Some?
    ensures r.Some? ==> r.value == Choice(forecast, isDayTime, d).value.1
  {
    var lowered := Lower(forecast);
    if !isDayTime {
      var night := Get(d, NightKey);
      if night.None? {
        return None;
      }
      return Some(night.value.text);
    }
    if |d| == 0 {
      return None;
    }
    var i := BestMatch(d, lowered);
    r := Some(d[i].1.text);
  }
}
