/** The few java.lang.String operations the core relies on.  Case mapping is
    ASCII-only (see README, "Left out"). */
module JavaStrings {

  /** String.trim removes leading and trailing characters up to U+0020. */
  predicate Trimmable(c: char) { c <= ' ' }

  function TrimStart(s: string): (r: string)
    ensures |r| <= |s|
    ensures r == s[|s| - |r|..]
    ensures r == [] || !Trimmable(r[0])
    ensures forall k :: 0 <= k < |s| - |r| ==> Trimmable(s[k])
  {
    if |s| > 0 && Trimmable(s[0]) then TrimStart(s[1..]) else s
  }

  function TrimEnd(s: string): (r: string)
    ensures |r| <= |s|
    ensures r == s[..|r|]
    ensures r == [] || !Trimmable(r[|r| - 1])
    ensures forall k :: |r| <= k < |s| ==> Trimmable(s[k])
  {
    if |s| > 0 && Trimmable(s[|s| - 1]) then TrimEnd(s[..|s| - 1]) else s
  }

  function Trim(s: string): (r: string)
    ensures |r| <= |s|
    ensures r == [] || (!Trimmable(r[0]) && !Trimmable(r[|r| - 1]))
  {
    TrimEnd(TrimStart(s))
  }

  /** Character.isWhitespace, which String.isBlank tests every character with. */
  predicate Whitespace(c: char)
  {
    || c == ' ' || ('\t' <= c <= '\r') || ('\U{1C}' <= c <= '\U{1F}')
    || c == '\U{1680}' || ('\U{2000}' <= c <= '\U{2006}') || ('\U{2008}' <= c <= '\U{200A}')
    || c == '\U{2028}' || c == '\U{2029}' || c == '\U{205F}' || c == '\U{3000}'
  }

  predicate IsBlank(s: string) { forall k :: 0 <= k < |s| ==> Whitespace(s[k]) }

  function UpperChar(c: char): char { if 'a' <= c <= 'z' then (c as int - 32) as char else c }
  function LowerChar(c: char): char { if 'A' <= c <= 'Z' then (c as int + 32) as char else c }

  function ToUpper(s: string): (r: string)
    ensures |r| == |s|
  {
    seq(|s|, k requires 0 <= k < |s| => UpperChar(s[k]))
  }

  function ToLower(s: string): (r: string)
    ensures |r| == |s|
  {
    seq(|s|, k requires 0 <= k < |s| => LowerChar(s[k]))
  }

  /** String.equalsIgnoreCase: equal lengths and, position by position, equal
      characters or equal after upper- or lower-casing. */
  predicate EqualsIgnoreCase(a: string, b: string)
  {
    |a| == |b| &&
    forall k :: 0 <= k < |a| ==>
      a[k] == b[k] || UpperChar(a[k]) == UpperChar(b[k]) || LowerChar(a[k]) == LowerChar(b[k])
  }

  /** The canonical ticker form `t.trim().toUpperCase()`. */
  function Canon(s: string): string { ToUpper(Trim(s)) }

  lemma {:induction false} TrimStartUpper(s: string)
    ensures TrimStart(ToUpper(s)) == ToUpper(TrimStart(s))
    decreases |s|
  {
    if |s| > 0 {
      var u := ToUpper(s);
      assert u[0] == UpperChar(s[0]);
      assert Trimmable(u[0]) == Trimmable(s[0]);
      if Trimmable(s[0]) {
        assert u[1..] == ToUpper(s[1..]);
        TrimStartUpper(s[1..]);
      }
    }
  }

  lemma {:induction false} TrimEndUpper(s: string)
    ensures TrimEnd(ToUpper(s)) == ToUpper(TrimEnd(s))
    decreases |s|
  {
    if |s| > 0 {
      var u := ToUpper(s);
      assert u[|s| - 1] == UpperChar(s[|s| - 1]);
      assert Trimmable(u[|s| - 1]) == Trimmable(s[|s| - 1]);
      if Trimmable(s[|s| - 1]) {
        assert u[..|s| - 1] == ToUpper(s[..|s| - 1]);
        TrimEndUpper(s[..|s| - 1]);
      }
    }
  }

  lemma {:induction false} TrimIdempotent(s: string)
    ensures Trim(Trim(s)) == Trim(s)
  {
    var r := Trim(s);
    assert TrimStart(r) == r;
    assert TrimEnd(r) == r;
  }

  lemma ToUpperIdempotent(s: string)
    ensures ToUpper(ToUpper(s)) == ToUpper(s)
  {
  }

  /** Against a lower-case letter, lower-casing `c` matches exactly when
      `equalsIgnoreCase` would accept the pair. */
  lemma LowerCharMatch(c: char, d: char)
    requires 'a' <= d <= 'z'
    ensures LowerChar(c) == d <==> (c == d || UpperChar(c) == UpperChar(d) || LowerChar(c) == LowerChar(d))
  {
  }

  /** Comparing `toLowerCase()` with a lower-case word is
      `equalsIgnoreCase` with that word. */
  lemma ToLowerMatches(x: string, b: string)
    requires forall k :: 0 <= k < |b| ==> 'a' <= b[k] <= 'z'
    ensures ToLower(x) == b <==> EqualsIgnoreCase(x, b)
  {
    if |x| == |b| {
      forall k | 0 <= k < |x|
        ensures LowerChar(x[k]) == b[k] <==> (x[k] == b[k] || UpperChar(x[k]) == UpperChar(b[k]) || LowerChar(x[k]) == LowerChar(b[k]))
      {
        LowerCharMatch(x[k], b[k]);
      }
      if EqualsIgnoreCase(x, b) {
        assert forall k :: 0 <= k < |x| ==> ToLower(x)[k] == b[k];
      }
    }
  }

  /** A canonical ticker is its own canonical form, so re-normalising a
      ticker that was already trimmed and upper-cased changes nothing. */
  lemma {:induction false} CanonIdempotent(s: string)
    ensures Canon(Canon(s)) == Canon(s)
    ensures |Canon(s)| == |Trim(s)|
  {
    var t := Trim(s);
    calc {
      Trim(ToUpper(t));
      TrimEnd(TrimStart(ToUpper(t)));
      { TrimStartUpper(t); }
      TrimEnd(ToUpper(TrimStart(t)));
      { TrimEndUpper(TrimStart(t)); }
      ToUpper(Trim(t));
      { TrimIdempotent(s); }
      ToUpper(t);
    }
    ToUpperIdempotent(t);
  }

  /** Pieces of `s` between commas, keeping empty pieces. */
  function CommaPieces(s: string): (r: seq<string>)
    ensures |r| >= 1
  {
    if s == [] then [[]]
    else if s[0] == ',' then [[]] + CommaPieces(s[1..])
    else
      var rest := CommaPieces(s[1..]);
      [[s[0]] + rest[0]] + rest[1..]
  }

  function DropTrailingEmpty(p: seq<string>): (r: seq<string>)
    ensures |r| <= |p| && r == p[..|r|]
    ensures r == [] || r[|r| - 1] != []
    ensures forall k :: |r| <= k < |p| ==> p[k] == []
  {
    if |p| > 0 && p[|p| - 1] == [] then DropTrailingEmpty(p[..|p| - 1]) else p
  }

  /** `s.split(",")`: a string without a comma splits into itself; otherwise
      the pieces with trailing empty pieces removed. */
  function SplitComma(s: string): seq<string>
  {
    if ',' !in s then [s] else DropTrailingEmpty(CommaPieces(s))
  }

  lemma CommaPiecesOfCommas(s: string)
    requires forall k :: 0 <= k < |s| ==> s[k] == ','
    ensures forall k :: 0 <= k < |CommaPieces(s)| ==> CommaPieces(s)[k] == []
  {
  }

  /** A line made only of commas (at least one) splits into no fields at all,
      so indexing its first field throws. */
  lemma {:induction false} SplitOnlyCommas(s: string)
    requires |s| > 0 && forall k :: 0 <= k < |s| ==> s[k] == ','
    ensures SplitComma(s) == []
  {
    assert s[0] == ',';
    CommaPiecesOfCommas(s);
    var p := CommaPieces(s);
    assert DropTrailingEmpty(p) == [];
  }
}
