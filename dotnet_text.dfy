/** The few .NET string primitives the hint mechanism relies on, with the
    semantics of System.String and System.Char: an ordinal prefix test,
    IndexOfAny with a start index, Trim, and Environment.NewLine. */
module DotNetText {

  /** Char.IsWhiteSpace: the Unicode space, line and paragraph separators
      plus U+0009..U+000D, U+0085 and U+00A0. */
  predicate IsWhiteSpace(c: char): (b: bool)
    ensures c == ' ' || c == '\t' || c == '\n' || c == '\r' ==> b
    ensures 'A' <= c <= 'Z' || 'a' <= c <= 'z' || '0' <= c <= '9' || c == '-' ==> !b
  {
    c == ' ' || ('\t' <= c <= '\r') || c == '\U{0085}' || c == '\U{00A0}' || c == '\U{1680}'
    || ('\U{2000}' <= c <= '\U{200A}') || c == '\U{2028}' || c == '\U{2029}'
    || c == '\U{202F}' || c == '\U{205F}' || c == '\U{3000}'
  }

  predicate AllWhiteSpace(s: string) {
    forall i :: 0 <= i < |s| ==> IsWhiteSpace(s[i])
  }

  /** Neither end of `s` is white space: the form String.Trim produces. */
  predicate IsTrimmed(s: string) {
    s == [] || (!IsWhiteSpace(s[0]) && !IsWhiteSpace(s[|s| - 1]))
  }

  /** String.StartsWith(prefix, StringComparison.Ordinal): char-by-char. */
  predicate StartsWith(s: string, prefix: string): (b: bool)
    ensures b <==> |prefix| <= |s| && forall i :: 0 <= i < |prefix| ==> s[i] == prefix[i]
  {
    |prefix| <= |s| && s[..|prefix|] == prefix
  }

  predicate EndsWith(s: string, suffix: string) {
    |suffix| <= |s| && s[|s| - |suffix|..] == suffix
  }

  /** Environment.NewLine: "\n" on Unix-like hosts, "\r\n" on Windows. */
  datatype NewLine = Lf | CrLf {
    function Text(): (t: string)
      ensures 1 <= |t| <= 2 && t[|t| - 1] == '\n'
      ensures |t| == 2 ==> t[0] == '\r'
    {
      if Lf? then "\n" else "\r\n"
    }

    /** Environment.NewLine.ToCharArray(), as the set IndexOfAny searches for. */
    function Chars(): (cs: set<char>)
      ensures forall c :: c in cs <==> c in Text()
      ensures forall c :: c in cs ==> IsWhiteSpace(c)
    {
      if Lf? then {'\n'} else {'\r', '\n'}
    }
  }

  /** String.IndexOfAny(anyOf, startIndex): the first index at or after
      `start` holding one of `anyOf`, or -1. Like .NET, it demands
      startIndex <= Length. */
  function IndexOfAny(s: string, anyOf: set<char>, start: nat): (r: int)
    requires start <= |s|
    ensures r == -1 || (start <= r < |s| && s[r] in anyOf)
    ensures r == -1 <==> (forall k :: start <= k < |s| ==> s[k] !in anyOf)
    ensures r != -1 ==> forall k :: start <= k < r ==> s[k] !in anyOf
    decreases |s| - start
  {
    if start == |s| then -1
    else if s[start] in anyOf then start
    else IndexOfAny(s, anyOf, start + 1)
  }

  /** String.TrimStart(): drops the leading white space. */
  function TrimStart(s: string): (r: string)
    ensures |r| <= |s| && r == s[|s| - |r|..]
    ensures AllWhiteSpace(s[..|s| - |r|])
    ensures r == [] || !IsWhiteSpace(r[0])
  {
    if s != [] && IsWhiteSpace(s[0]) then TrimStart(s[1..]) else s
  }

  /** String.TrimEnd(): drops the trailing white space. */
  function TrimEnd(s: string): (r: string)
    ensures |r| <= |s| && r == s[..|r|]
    ensures AllWhiteSpace(s[|r|..])
    ensures r == [] || !IsWhiteSpace(r[|r| - 1])
  {
    if s != [] && IsWhiteSpace(s[|s| - 1]) then TrimEnd(s[..|s| - 1]) else s
  }

  /** String.Trim(): drops white space at both ends. */
  function Trim(s: string): (r: string)
    ensures IsTrimmed(r)
    ensures |r| <= |s|
  {
    TrimEnd(TrimStart(s))
  }

  /** Trim removes only white space, and only at the ends: the result is
      the middle of `s`, between a white-space head and a white-space tail. */
  lemma TrimSplit(s: string) returns (lead: string, trail: string)
    ensures s == lead + Trim(s) + trail
    ensures AllWhiteSpace(lead) && AllWhiteSpace(trail)
  {
    lead := TrimStartSplit(s);
    trail := TrimEndSplit(TrimStart(s));
  }

  lemma TrimStartSplit(s: string) returns (lead: string)
    ensures s == lead + TrimStart(s) && AllWhiteSpace(lead)
  {
    lead := s[..|s| - |TrimStart(s)|];
  }

  lemma TrimEndSplit(s: string) returns (trail: string)
    ensures s == TrimEnd(s) + trail && AllWhiteSpace(trail)
  {
    trail := s[|TrimEnd(s)|..];
  }

  lemma {:induction false} TrimStartSkips(lead: string, rest: string)
    requires AllWhiteSpace(lead)
    requires rest == [] || !IsWhiteSpace(rest[0])
    ensures TrimStart(lead + rest) == rest
    decreases |lead|
  {
    if lead != [] {
      assert (lead + rest)[1..] == lead[1..] + rest;
      TrimStartSkips(lead[1..], rest);
    }
  }

  lemma {:induction false} TrimEndSkips(rest: string, trail: string)
    requires AllWhiteSpace(trail)
    requires rest == [] || !IsWhiteSpace(rest[|rest| - 1])
    ensures TrimEnd(rest + trail) == rest
    decreases |trail|
  {
    if trail != [] {
      var shorter := trail[..|trail| - 1];
      assert (rest + trail)[..|rest + trail| - 1] == rest + shorter;
      TrimEndSkips(rest, shorter);
    } else {
      assert rest + trail == rest;
    }
  }

  /** Trim is determined by the split of TrimSplit: whatever surrounds a
      trimmed middle with white space, Trim gives back exactly that middle. */
  lemma {:induction false} TrimUnique(lead: string, body: string, trail: string)
    requires AllWhiteSpace(lead) && AllWhiteSpace(trail) && IsTrimmed(body)
    ensures Trim(lead + body + trail) == body
  {
    if body == [] {
      assert lead + body + trail == (lead + trail) + [];
      TrimStartSkips(lead + trail, []);
    } else {
      assert lead + body + trail == lead + (body + trail);
      TrimStartSkips(lead, body + trail);
      TrimEndSkips(body, trail);
    }
  }

  /** The case of TrimUnique with nothing after the middle: white space in
      front of a trimmed text is all Trim removes. */
  lemma TrimAfterWhiteSpace(lead: string, body: string)
    requires AllWhiteSpace(lead) && IsTrimmed(body)
    ensures Trim(lead + body) == body
  {
    assert lead + body == lead + body + [];
    TrimUnique(lead, body, []);
  }

  /** Trimming twice is trimming once. */
  lemma TrimIdempotent(s: string)
    ensures Trim(Trim(s)) == Trim(s)
  {
    assert [] + Trim(s) + [] == Trim(s);
    TrimUnique([], Trim(s), []);
  }

  /** A white-space character in front changes nothing Trim returns. */
  lemma TrimSkipsWhiteSpace(c: char, s: string)
    requires IsWhiteSpace(c)
    ensures Trim([c] + s) == Trim(s)
  {
    assert ([c] + s)[1..] == s;
  }
}
