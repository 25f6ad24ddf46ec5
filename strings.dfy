/**
 * The handful of JavaScript string operations the dashboard relies on:
 * `toLowerCase`, `includes`, `replace` with a string pattern, `replace(/_/g, ...)`
 * and `trim`.
 */
module Strings {
  import opened Wrappers

  /** `toLowerCase` on one character, restricted to ASCII letters. */
  function LowerChar(c: char): char {
    if 'A' <= c <= 'Z' then (c as int + 32) as char else c
  }

  /** `s.toLowerCase()`: every ASCII capital letter becomes its small letter. */
  function Lower(s: string): (r: string)
    ensures |r| == |s|
    ensures forall k :: 0 <= k < |s| ==> r[k] == LowerChar(s[k])
    ensures forall k :: 0 <= k < |r| ==> !('A' <= r[k] <= 'Z')
  {
    seq(|s|, k requires 0 <= k < |s| => LowerChar(s[k]))
  }

  /** `pat` occurs in `s` starting at position `i`. */
  predicate OccursAt(s: string, pat: string, i: int) {
    0 <= i && i + |pat| <= |s| && s[i..i + |pat|] == pat
  }

  /** `s.indexOf(pat)`: the first position at which `pat` occurs, if any. */
  function IndexOf(s: string, pat: string): (r: Option<nat>)
    ensures r.Some? ==> OccursAt(s, pat, r.value)
    ensures r.Some? ==> forall j :: 0 <= j < r.value ==> !OccursAt(s, pat, j)
    ensures r.None? ==> forall j :: !OccursAt(s, pat, j)
    decreases |s|
  {
    if |pat| > |s| then None
    else if s[..|pat|] == pat then Some(0)
    else
      assert |s| > 0;
      match IndexOf(s[1..], pat)
      case None =>
        assert forall j :: OccursAt(s, pat, j) ==> j == 0 || OccursAt(s[1..], pat, j - 1);
        None
      case Some(i) =>
        assert forall j :: 0 < j <= i ==> (OccursAt(s, pat, j) <==> OccursAt(s[1..], pat, j - 1));
        assert s[i + 1..i + 1 + |pat|] == s[1..][i..i + |pat|];
        Some(i + 1)
  }

  /** `s.includes(pat)`: `pat` occurs somewhere in `s`. */
  predicate Includes(s: string, pat: string)
    ensures Includes(s, pat) <==> exists i :: OccursAt(s, pat, i)
  {
    IndexOf(s, pat).Some?
  }

  /** `s.replace(/from/g, to)` for a one-character pattern: every `from` becomes `to`. */
  function ReplaceChar(s: string, from: char, to: char): (r: string)
    ensures |r| == |s|
    ensures forall k :: 0 <= k < |s| ==> r[k] == if s[k] == from then to else s[k]
  {
    seq(|s|, k requires 0 <= k < |s| => if s[k] == from then to else s[k])
  }

  /**
   * `s.replace(pat, '')` with a string pattern: only the FIRST occurrence of
   * `pat` is removed; without an occurrence `s` is returned unchanged.
   */
  function RemoveFirst(s: string, pat: string): (r: string)
    ensures |r| <= |s|
  {
    match IndexOf(s, pat)
    case None => s
    case Some(i) => s[..i] + s[i + |pat|..]
  }

  /**
   * What `RemoveFirst` does: nothing when `pat` does not occur; otherwise the
   * result is `pat` shorter, and putting `pat` back at its first occurrence
   * restores `s`. No character is introduced.
   */
  lemma RemoveFirstSpec(s: string, pat: string)
    ensures !Includes(s, pat) ==> RemoveFirst(s, pat) == s
    ensures Includes(s, pat) ==> |RemoveFirst(s, pat)| == |s| - |pat|
    ensures Includes(s, pat) ==>
              var i := IndexOf(s, pat).value;
              RemoveFirst(s, pat)[..i] + pat + RemoveFirst(s, pat)[i..] == s
    ensures multiset(RemoveFirst(s, pat)) <= multiset(s)
  {
    match IndexOf(s, pat)
    case None =>
    case Some(i) =>
      var r := RemoveFirst(s, pat);
      assert r[..i] == s[..i] && r[i..] == s[i + |pat|..];
      assert s == s[..i] + s[i..i + |pat|] + s[i + |pat|..];
      assert multiset(s) == multiset(s[..i]) + multiset(s[i..i + |pat|]) + multiset(s[i + |pat|..]);
  }

  /**
   * The code points `String.prototype.trim` strips: the ECMAScript WhiteSpace
   * code points (tab, vertical tab, form feed, space, no-break space, byte-order
   * mark and the other space separators) and the LineTerminator code points.
   */
  const JsWhitespace: set<int> :=
    {0x09, 0x0A, 0x0B, 0x0C, 0x0D, 0x20, 0xA0, 0x1680,
     0x2000, 0x2001, 0x2002, 0x2003, 0x2004, 0x2005, 0x2006, 0x2007, 0x2008, 0x2009, 0x200A,
     0x2028, 0x2029, 0x202F, 0x205F, 0x3000, 0xFEFF}

  /** `c` is stripped by `trim`. */
  predicate IsJsWhitespace(c: char) {
    c as int in JsWhitespace
  }

  /** Drops the leading whitespace of `s`. */
  function TrimStart(s: string): string {
    if s != [] && IsJsWhitespace(s[0]) then TrimStart(s[1..]) else s
  }

  /** Drops the trailing whitespace of `s`. */
  function TrimEnd(s: string): string {
    if s != [] && IsJsWhitespace(s[|s| - 1]) then TrimEnd(s[..|s| - 1]) else s
  }

  /** `s.trim()`. */
  function Trim(s: string): (r: string)
    ensures |r| <= |s|
  {
    TrimStartSuffix(s);
    TrimEndPrefix(TrimStart(s));
    TrimEnd(TrimStart(s))
  }

  /** `TrimStart` keeps a suffix of `s`. */
  lemma {:induction false} TrimStartSuffix(s: string)
    ensures |TrimStart(s)| <= |s| && TrimStart(s) == s[|s| - |TrimStart(s)|..]
  {
    if s != [] && IsJsWhitespace(s[0]) {
      var tail := s[1..];
      TrimStartSuffix(tail);
      var r := TrimStart(tail);
      assert s[|s| - |r|..] == tail[|tail| - |r|..];
    }
  }

  /** Everything `TrimStart` drops is whitespace. */
  lemma {:induction false} TrimStartDropsWhitespace(s: string)
    ensures forall k :: 0 <= k < |s| - |TrimStart(s)| ==> IsJsWhitespace(s[k])
  {
    if s != [] && IsJsWhitespace(s[0]) {
      var tail := s[1..];
      TrimStartDropsWhitespace(tail);
      forall k | 0 <= k < |s| - |TrimStart(s)|
        ensures IsJsWhitespace(s[k])
      {
        if k > 0 {
          assert s[k] == tail[k - 1];
        }
      }
    }
  }

  /** What `TrimStart` leaves does not start in whitespace. */
  lemma {:induction false} TrimStartHead(s: string)
    ensures TrimStart(s) == [] || !IsJsWhitespace(TrimStart(s)[0])
  {
    if s != [] && IsJsWhitespace(s[0]) {
      TrimStartHead(s[1..]);
    }
  }

  /** `TrimEnd` keeps a prefix of `s`. */
  lemma {:induction false} TrimEndPrefix(s: string)
    ensures |TrimEnd(s)| <= |s| && TrimEnd(s) == s[..|TrimEnd(s)|]
  {
    if s != [] && IsJsWhitespace(s[|s| - 1]) {
      var init := s[..|s| - 1];
      TrimEndPrefix(init);
      var r := TrimEnd(init);
      assert s[..|r|] == init[..|r|];
    }
  }

  /** Everything `TrimEnd` drops is whitespace. */
  lemma {:induction false} TrimEndDropsWhitespace(s: string)
    ensures forall k :: |TrimEnd(s)| <= k < |s| ==> IsJsWhitespace(s[k])
  {
    if s != [] && IsJsWhitespace(s[|s| - 1]) {
      var init := s[..|s| - 1];
      TrimEndDropsWhitespace(init);
      forall k | |TrimEnd(s)| <= k < |s|
        ensures IsJsWhitespace(s[k])
      {
        if k < |s| - 1 {
          assert s[k] == init[k];
        }
      }
    }
  }

  /** What `TrimEnd` leaves does not end in whitespace. */
  lemma {:induction false} TrimEndLast(s: string)
    ensures TrimEnd(s) == [] || !IsJsWhitespace(TrimEnd(s)[|TrimEnd(s)| - 1])
  {
    if s != [] && IsJsWhitespace(s[|s| - 1]) {
      TrimEndLast(s[..|s| - 1]);
    }
  }

  /**
   * `Trim(s)` is the infix `s[a..b]` left after removing a whitespace prefix
   * `s[..a]` and a whitespace suffix `s[b..]`.
   */
  lemma TrimInfix(s: string)
    ensures exists a, b :: 0 <= a <= b <= |s| && Trim(s) == s[a..b] &&
              (forall k :: 0 <= k < a ==> IsJsWhitespace(s[k])) &&
              (forall k :: b <= k < |s| ==> IsJsWhitespace(s[k]))
  {
    var t := TrimStart(s);
    TrimStartSuffix(s);
    TrimEndPrefix(t);
    var a := |s| - |t|;
    var b := a + |TrimEnd(t)|;
    assert Trim(s) == s[a..b];
    assert forall k :: 0 <= k < a ==> IsJsWhitespace(s[k]) by {
      TrimStartDropsWhitespace(s);
    }
    assert forall k :: b <= k < |s| ==> IsJsWhitespace(s[k]) by {
      TrimEndDropsWhitespace(t);
      forall k | b <= k < |s|
        ensures IsJsWhitespace(s[k])
      {
        assert s[k] == t[k - a];
      }
    }
  }

  /** `Trim(s)` neither starts nor ends in whitespace. */
  lemma TrimEnds(s: string)
    ensures Trim(s) == [] || (!IsJsWhitespace(Trim(s)[0]) && !IsJsWhitespace(Trim(s)[|Trim(s)| - 1]))
  {
    var t := TrimStart(s);
    TrimStartHead(s);
    TrimEndPrefix(t);
    TrimEndLast(t);
    if Trim(s) != [] {
      assert Trim(s)[0] == t[0];
    }
  }

  /** `Trim` introduces no character. */
  lemma TrimMultiset(s: string)
    ensures multiset(Trim(s)) <= multiset(s)
  {
    var t := TrimStart(s);
    TrimStartSuffix(s);
    TrimEndPrefix(t);
    var a := |s| - |t|;
    var b := a + |TrimEnd(t)|;
    assert Trim(s) == s[a..b];
    assert s == s[..a] + s[a..b] + s[b..];
    assert multiset(s) == multiset(s[..a]) + multiset(s[a..b]) + multiset(s[b..]);
  }

  /** Trimming twice is trimming once. */
  lemma TrimIdempotent(s: string)
    ensures Trim(Trim(s)) == Trim(s)
  {
    TrimEnds(s);
    var r := Trim(s);
    assert TrimStart(r) == r;
    assert TrimEnd(r) == r;
  }
}
