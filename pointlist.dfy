/** The text handling of polygon and polyline point lists
    (scripts/extract_tagged_rois.py, add_shape_coords and INSIGHT_POINT_LIST_RE):
    the optional `points[...]` wrapper, the split on spaces, the split on the first
    comma, `strip(", ")` and `float()`. */
module PointList {
  import opened Common
  import opened Numerics

  const Marker: string := "points["

  // ---------------------------------------------------------------------------
  // The regular expression  points\[([^\]]+)\]  searched for in the text

  /** The first index at or after k that holds ']', or |s| when there is none. */
  function CloseIndex(s: string, k: nat): (r: nat)
    requires k <= |s|
    ensures k <= r <= |s|
    ensures forall j :: k <= j < r ==> s[j] != ']'
    ensures r < |s| ==> s[r] == ']'
    decreases |s| - k
  {
    if k == |s| || s[k] == ']' then k else CloseIndex(s, k + 1)
  }

  /** The pattern matches at position i: the marker, at least one character other
      than ']', then ']'. */
  predicate MatchesAt(s: string, i: nat)
  {
    && i + |Marker| <= |s|
    && s[i..i + |Marker|] == Marker
    && i + |Marker| < CloseIndex(s, i + |Marker|) < |s|
  }

  /** `re.search` from position `from`: the leftmost position where the pattern matches. */
  function SearchFrom(s: string, from: nat): (r: Option<nat>)
    ensures r.Some? ==> from <= r.value && MatchesAt(s, r.value)
    decreases |s| - from
  {
    if from + |Marker| > |s| then None
    else if MatchesAt(s, from) then Some(from)
    else SearchFrom(s, from + 1)
  }

  /** The search finds the leftmost match, and finds none only when there is none. */
  lemma {:induction false} SearchFromLeftmost(s: string, from: nat)
    ensures SearchFrom(s, from).Some? ==> forall i :: from <= i < SearchFrom(s, from).value ==> !MatchesAt(s, i)
    ensures SearchFrom(s, from).None? ==> forall i :: from <= i ==> !MatchesAt(s, i)
    decreases |s| - from
  {
    if from + |Marker| <= |s| && !MatchesAt(s, from) {
      SearchFromLeftmost(s, from + 1);
    }
  }

  /** `match.group(1)`: the text between the marker and the closing bracket. */
  function Group(s: string, i: nat): (g: string)
    requires MatchesAt(s, i)
    ensures |g| > 0 && ']' !in g
    ensures i + |Marker| + |g| < |s|
    ensures s[i..i + |g| + |Marker| + 1] == Marker + g + "]"
  {
    var e := CloseIndex(s, i + |Marker|);
    var g := s[i + |Marker|..e];
    assert forall j :: 0 <= j < |g| ==> g[j] == s[i + |Marker| + j];
    assert s[i..e + 1] == s[i..i + |Marker|] + g + [s[e]];
    g
  }

  /** `point_list` after the regex step: the bracket content when the pattern
      occurs, the raw text otherwise. */
  function PointListText(s: string): string
  {
    match SearchFrom(s, 0)
    case Some(i) => Group(s, i)
    case None => s
  }

  /** A wrapped list is unwrapped to exactly its content. */
  lemma UnwrapPointList(g: string)
    requires |g| > 0 && ']' !in g
    ensures PointListText(Marker + g + "]") == g
  {
    var s := Marker + g + "]";
    var e := |Marker| + |g|;
    assert s[e] == ']';
    assert forall j :: |Marker| <= j < e ==> s[j] == g[j - |Marker|];
    assert CloseIndex(s, |Marker|) == e;
    assert s[0..|Marker|] == Marker;
    assert MatchesAt(s, 0);
    assert s[|Marker|..e] == g;
  }

  /** Text without an opening bracket cannot match and is used as it is. */
  lemma PlainPointListKept(s: string)
    requires '[' !in s
    ensures PointListText(s) == s
  {
    forall i: nat | i + |Marker| <= |s|
      ensures !MatchesAt(s, i)
    {
      assert s[i + 6] in s;
      assert s[i..i + |Marker|][6] != Marker[6];
    }
  }

  // ---------------------------------------------------------------------------
  // str.split(" "), str.split(",", 1) and str.strip(", ")

  /** `s.split(sep)` with an explicit separator: adjacent separators give empty parts. */
  function Split(s: string, sep: char): (r: seq<string>)
    ensures |r| >= 1
    ensures forall k :: 0 <= k < |r| ==> sep !in r[k]
    decreases |s|
  {
    if s == [] then [""]
    else
      var rest := Split(s[1..], sep);
      if s[0] == sep then [""] + rest
      else [[s[0]] + rest[0]] + rest[1..]
  }

  /** Joining the parts with the separator gives the text back. */
  lemma {:induction false} JoinSplit(s: string, sep: char)
    ensures Join(Split(s, sep), sep) == s
    decreases |s|
  {
    if s != [] {
      var rest := Split(s[1..], sep);
      JoinSplit(s[1..], sep);
      if s[0] == sep {
        assert ([""] + rest)[1..] == rest;
      } else {
        var parts := [[s[0]] + rest[0]] + rest[1..];
        if |rest| > 1 {
          assert parts[1..] == rest[1..];
          assert Join(rest, sep) == rest[0] + [sep] + Join(rest[1..], sep);
        }
        assert s == [s[0]] + s[1..];
      }
    }
  }

  lemma {:induction false} SplitNoSeparator(a: string, sep: char)
    requires sep !in a
    ensures Split(a, sep) == [a]
    decreases |a|
  {
    if a != [] {
      SplitNoSeparator(a[1..], sep);
      assert [a[0]] + a[1..] == a;
    }
  }

  lemma {:induction false} SplitAtSeparator(a: string, b: string, sep: char)
    requires sep !in a
    ensures Split(a + [sep] + b, sep) == [a] + Split(b, sep)
    decreases |a|
  {
    if a == [] {
      assert (a + [sep] + b)[1..] == b;
    } else {
      SplitAtSeparator(a[1..], b, sep);
      assert (a + [sep] + b)[1..] == a[1..] + [sep] + b;
      assert [a[0]] + a[1..] == a;
    }
  }

  /** Splitting a joined list of separator-free parts gives the parts back. */
  lemma {:induction false} SplitJoin(parts: seq<string>, sep: char)
    requires |parts| >= 1
    requires forall k :: 0 <= k < |parts| ==> sep !in parts[k]
    ensures Split(Join(parts, sep), sep) == parts
    decreases |parts|
  {
    if |parts| == 1 {
      SplitNoSeparator(parts[0], sep);
    } else {
      SplitJoin(parts[1..], sep);
      SplitAtSeparator(parts[0], Join(parts[1..], sep), sep);
      assert [parts[0]] + parts[1..] == parts;
    }
  }

  /** The index of the first c in s, or |s|. */
  function FirstIndex(s: string, c: char): (r: nat)
    ensures r <= |s|
    ensures forall j :: 0 <= j < r ==> s[j] != c
    ensures r < |s| ==> s[r] == c
  {
    if s == [] then 0
    else if s[0] == c then 0
    else 1 + FirstIndex(s[1..], c)
  }

  /** `s.split(sep, 1)`: the text before and after the first separator, or the
      whole text when there is none. */
  function SplitOnce(s: string, sep: char): (r: seq<string>)
    ensures 1 <= |r| <= 2
    ensures sep !in r[0]
    ensures |r| == 1 <==> sep !in s
    ensures |r| == 1 ==> r[0] == s
    ensures |r| == 2 ==> r[0] + [sep] + r[1] == s
  {
    var i := FirstIndex(s, sep);
    if i == |s| then [s]
    else
      assert s[..i] + [sep] + s[i + 1..] == s;
      [s[..i], s[i + 1..]]
  }

  predicate IsStripChar(c: char)
  {
    c == ',' || c == ' '
  }

  /** `s.lstrip(", ")` */
  function StripLeft(s: string): string
  {
    if s != [] && IsStripChar(s[0]) then StripLeft(s[1..]) else s
  }

  /** `s.rstrip(", ")` */
  function StripRight(s: string): string
  {
    if s != [] && IsStripChar(Last(s)) then StripRight(DropLast(s)) else s
  }

  /** `s.strip(", ")`: the text without leading or trailing commas and spaces. */
  function Strip(s: string): string
  {
    StripRight(StripLeft(s))
  }

  /** lstrip keeps a suffix and removes only commas and spaces before it. */
  lemma {:induction false} StripLeftSpec(s: string)
    ensures |StripLeft(s)| <= |s| && StripLeft(s) == s[|s| - |StripLeft(s)|..]
    ensures forall i :: 0 <= i < |s| - |StripLeft(s)| ==> IsStripChar(s[i])
    ensures StripLeft(s) == [] || !IsStripChar(StripLeft(s)[0])
    ensures s == [] || !IsStripChar(s[0]) ==> StripLeft(s) == s
    decreases |s|
  {
    if s != [] && IsStripChar(s[0]) {
      StripLeftSpec(s[1..]);
    }
  }

  /** rstrip keeps a prefix and removes only commas and spaces after it. */
  lemma {:induction false} StripRightSpec(s: string)
    ensures |StripRight(s)| <= |s| && StripRight(s) == s[..|StripRight(s)|]
    ensures forall i :: |StripRight(s)| <= i < |s| ==> IsStripChar(s[i])
    ensures StripRight(s) == [] || !IsStripChar(Last(StripRight(s)))
    ensures s == [] || !IsStripChar(Last(s)) ==> StripRight(s) == s
    decreases |s|
  {
    if s != [] && IsStripChar(Last(s)) {
      StripRightSpec(DropLast(s));
    }
  }

  /** The stripped text is a part of the text with no comma or space at either
      end, and text that has none there is kept as it is. */
  lemma StripSpec(s: string)
    ensures |Strip(s)| <= |StripLeft(s)| <= |s|
    ensures var a := |s| - |StripLeft(s)|;
      a + |Strip(s)| <= |s| && Strip(s) == s[a..a + |Strip(s)|]
      && (forall i :: 0 <= i < a ==> IsStripChar(s[i]))
      && (forall i :: a + |Strip(s)| <= i < |s| ==> IsStripChar(s[i]))
    ensures Strip(s) == [] || (!IsStripChar(Strip(s)[0]) && !IsStripChar(Last(Strip(s))))
    ensures s == [] || (!IsStripChar(s[0]) && !IsStripChar(Last(s))) ==> Strip(s) == s
  {
    var l := StripLeft(s);
    StripLeftSpec(s);
    StripRightSpec(l);
    var r := StripRight(l);
    if r != [] {
      assert r[0] == l[0];
    }
    PrefixOfSuffix(s, l, r);
  }

  /** A prefix r of a suffix l of s sits in s right after what l leaves out, and a
      tail of l made of strip characters is a tail of s made of them. */
  lemma PrefixOfSuffix(s: string, l: string, r: string)
    requires |l| <= |s| && l == s[|s| - |l|..]
    requires |r| <= |l| && r == l[..|r|]
    requires forall i :: |r| <= i < |l| ==> IsStripChar(l[i])
    ensures var a := |s| - |l|;
      s[a..a + |r|] == r && forall i :: a + |r| <= i < |s| ==> IsStripChar(s[i])
  {
    var a := |s| - |l|;
    forall i | a + |r| <= i < |s|
      ensures IsStripChar(s[i])
    {
      assert s[i] == l[i - a];
    }
  }

  // ---------------------------------------------------------------------------
  // The list comprehension that turns the point text into numbers

  /** `[float(x.strip(", ")) for x in parts]`: the first part float() refuses
      raises. */
  function ParseNumbers(parts: seq<string>, num: Numerics): Result<seq<real>>
  {
    if parts == [] then Ok([])
    else
      match num.parseFloat(Strip(parts[0]))
      case None => Err(NotANumber(parts[0]))
      case Some(x) =>
        var rest :- ParseNumbers(parts[1..], num);
        Ok([x] + rest)
  }

  /** One number list per space-separated token, each of one or two numbers. */
  function ParseTokens(tokens: seq<string>, num: Numerics): Result<seq<seq<real>>>
  {
    if tokens == [] then Ok([])
    else
      var first :- ParseNumbers(SplitOnce(tokens[0], ','), num);
      var rest :- ParseTokens(tokens[1..], num);
      Ok([first] + rest)
  }

  /** The coordinates of a point list as the script reads them:
      `[[float(x.strip(", ")) for x in coord.split(",", 1)] for coord in text.split(" ")]`. */
  function ParseCoords(text: string, num: Numerics): Result<seq<seq<real>>>
  {
    ParseTokens(Split(text, ' '), num)
  }

  /** The numbers exist exactly when float() accepts every stripped part, and
      then there is one per part, in order. */
  lemma {:induction false} ParseNumbersSpec(parts: seq<string>, num: Numerics)
    ensures ParseNumbers(parts, num).Ok? <==> forall j :: 0 <= j < |parts| ==> num.parseFloat(Strip(parts[j])).Some?
    ensures ParseNumbers(parts, num).Ok? ==>
      && |ParseNumbers(parts, num).value| == |parts|
      && forall j :: 0 <= j < |parts| ==> ParseNumbers(parts, num).value[j] == num.parseFloat(Strip(parts[j])).value
    decreases |parts|
  {
    if parts != [] {
      var tail := parts[1..];
      ParseNumbersSpec(tail, num);
      var x := num.parseFloat(Strip(parts[0]));
      var rest := ParseNumbers(tail, num);
      assert ParseNumbers(parts, num) == if x.None? then Err(NotANumber(parts[0]))
        else if rest.Err? then Err(rest.error) else Ok([x.value] + rest.value);
      assert forall j :: 0 <= j < |tail| ==> tail[j] == parts[j + 1];
      if x.Some? && rest.Err? {
        var j :| 0 <= j < |tail| && num.parseFloat(Strip(tail[j])).None?;
        assert parts[j + 1] == tail[j];
      } else if x.Some? {
        var r := [x.value] + rest.value;
        assert forall j :: 0 <= j < |rest.value| ==> rest.value[j] == r[j + 1];
      }
    }
  }

  /** The coordinates exist exactly when every token's numbers do, and then
      there is one number list per token, in order. */
  lemma {:induction false} ParseTokensSpec(tokens: seq<string>, num: Numerics)
    ensures ParseTokens(tokens, num).Ok? <==>
      forall k :: 0 <= k < |tokens| ==> ParseNumbers(SplitOnce(tokens[k], ','), num).Ok?
    ensures ParseTokens(tokens, num).Ok? ==>
      && |ParseTokens(tokens, num).value| == |tokens|
      && forall k :: 0 <= k < |tokens| ==>
           ParseNumbers(SplitOnce(tokens[k], ','), num) == Ok(ParseTokens(tokens, num).value[k])
    decreases |tokens|
  {
    if tokens != [] {
      var tail := tokens[1..];
      ParseTokensSpec(tail, num);
      var first := ParseNumbers(SplitOnce(tokens[0], ','), num);
      var rest := ParseTokens(tail, num);
      assert forall k :: 0 <= k < |tail| ==> tail[k] == tokens[k + 1];
      if first.Err? {
        assert ParseTokens(tokens, num).Err?;
      } else if rest.Err? {
        assert ParseTokens(tokens, num).Err?;
        var k :| 0 <= k < |tail| && ParseNumbers(SplitOnce(tail[k], ','), num).Err?;
        assert tokens[k + 1] == tail[k];
      } else {
        var r := [first.value] + rest.value;
        assert ParseTokens(tokens, num) == Ok(r);
        assert forall k :: 0 <= k < |rest.value| ==> rest.value[k] == r[k + 1];
      }
    }
  }

  /** A parsed point list has at least one coordinate, each of one or two numbers. */
  lemma ParseCoordsShape(text: string, num: Numerics)
    ensures ParseCoords(text, num).Ok? ==>
      && |ParseCoords(text, num).value| >= 1
      && forall k :: 0 <= k < |ParseCoords(text, num).value| ==> 1 <= |ParseCoords(text, num).value[k]| <= 2
  {
    var tokens := Split(text, ' ');
    ParseTokensSpec(tokens, num);
    if ParseCoords(text, num).Ok? {
      var coords := ParseCoords(text, num).value;
      forall k | 0 <= k < |coords|
        ensures 1 <= |coords[k]| <= 2
      {
        ParseNumbersSpec(SplitOnce(tokens[k], ','), num);
      }
    }
  }
}
