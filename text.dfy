/**
 * The JavaScript string primitives the wizard relies on:
 * `String.prototype.trim`, `toLowerCase`, `includes`, `endsWith` and `Array.prototype.join`.
 */
module Text {

  /** The characters `trim` removes: ECMAScript WhiteSpace and LineTerminator code points. */
  predicate IsWhitespace(c: char) {
    || c == '\t' || c == '\n' || c == '\U{B}' || c == '\U{C}' || c == '\r' || c == ' '
    || c == '\U{A0}' || c == '\U{1680}' || ('\U{2000}' <= c <= '\U{200A}')
    || c == '\U{2028}' || c == '\U{2029}' || c == '\U{202F}' || c == '\U{205F}'
    || c == '\U{3000}' || c == '\U{FEFF}'
  }

  /** Drops leading whitespace: the result is the suffix of `s` after a whitespace-only prefix. */
  function TrimStart(s: string): (r: string)
    ensures |r| <= |s| && r == s[|s| - |r|..]
    ensures r == [] || !IsWhitespace(r[0])
    ensures forall i :: 0 <= i < |s| - |r| ==> IsWhitespace(s[i])
  {
    if |s| > 0 && IsWhitespace(s[0]) then TrimStart(s[1..]) else s
  }

  /** Drops trailing whitespace: the result is the prefix of `s` before a whitespace-only suffix. */
  function TrimEnd(s: string): (r: string)
    ensures |r| <= |s| && r == s[..|r|]
    ensures r == [] || !IsWhitespace(r[|r| - 1])
    ensures forall i :: |r| <= i < |s| ==> IsWhitespace(s[i])
  {
    if |s| > 0 && IsWhitespace(s[|s| - 1]) then TrimEnd(s[..|s| - 1]) else s
  }

  /**
   * `s.trim()`: neither end of the result is whitespace, and it is empty exactly when `s` is
   * blank. `TrimCutsWhitespace` shows it is the part of `s` left by cutting whitespace off both ends.
   */
  function Trim(s: string): (r: string)
    ensures |r| <= |s|
    ensures r == [] || (!IsWhitespace(r[0]) && !IsWhitespace(r[|r| - 1]))
    ensures r == [] <==> IsBlank(s)
  {
    var u := TrimStart(s);
    var r := TrimEnd(u);
    assert r == [] ==> u == [];
    assert r != [] ==> r[0] == s[|s| - |u|];
    r
  }

  /** `s.trim()` is a contiguous part of `s`, and everything of `s` around it is whitespace. */
  lemma TrimCutsWhitespace(s: string)
    ensures exists a :: TrimmedAt(s, a, Trim(s))
  {
    var u := TrimStart(s);
    var r := TrimEnd(u);
    assert Trim(s) == r;
    TrimmedAtOffset(s, u, r);
    assert TrimmedAt(s, |s| - |u|, Trim(s));
  }

  /**
   * Cutting a whitespace prefix off `s` (leaving `u`) and then a whitespace suffix off `u`
   * (leaving `r`) leaves the part of `s` at offset `|s| - |u|`, with only whitespace around it.
   */
  lemma TrimmedAtOffset(s: string, u: string, r: string)
    requires |u| <= |s| && u == s[|s| - |u|..] && (forall i :: 0 <= i < |s| - |u| ==> IsWhitespace(s[i]))
    requires |r| <= |u| && r == u[..|r|] && (forall i :: |r| <= i < |u| ==> IsWhitespace(u[i]))
    ensures TrimmedAt(s, |s| - |u|, r)
  {
    var a := |s| - |u|;
    forall i | 0 <= i < |r| ensures r[i] == s[a + i] {
      assert r[i] == u[i];
    }
    forall i | a + |r| <= i < |s| ensures IsWhitespace(s[i]) {
      assert s[i] == u[i - a];
    }
  }

  /**
   * `r` is the part of `s` starting at offset `a`, and every character of `s` before or
   * after it is whitespace.
   */
  predicate TrimmedAt(s: string, a: int, r: string) {
    && 0 <= a && a + |r| <= |s|
    && (forall i :: 0 <= i < |r| ==> r[i] == s[a + i])
    && (forall i :: 0 <= i < a ==> IsWhitespace(s[i]))
    && (forall i :: a + |r| <= i < |s| ==> IsWhitespace(s[i]))
  }

  /** A string made only of whitespace (including the empty string). */
  predicate IsBlank(s: string) {
    forall i :: 0 <= i < |s| ==> IsWhitespace(s[i])
  }

  /** Trimming an already trimmed string changes nothing. */
  lemma TrimIdempotent(s: string)
    ensures Trim(Trim(s)) == Trim(s)
  {
    var t := Trim(s);
    if t != [] {
      assert TrimStart(t) == t;
      assert TrimEnd(t) == t;
    }
  }

  /** `toLowerCase` on one character (ASCII letters only). */
  function LowerChar(c: char): char {
    if 'A' <= c <= 'Z' then (c as int + 32) as char else c
  }

  /** `s.toLowerCase()`: same length, every ASCII capital replaced by its small letter. */
  function ToLower(s: string): (r: string)
    ensures |r| == |s|
    ensures forall i :: 0 <= i < |s| ==> r[i] == LowerChar(s[i])
    ensures forall i :: 0 <= i < |r| ==> !('A' <= r[i] <= 'Z')
  {
    seq(|s|, i requires 0 <= i < |s| => LowerChar(s[i]))
  }

  /** `s.startsWith(t)`. */
  predicate StartsWith(s: string, t: string) {
    |t| <= |s| && s[..|t|] == t
  }

  /** `s.endsWith(t)`. */
  predicate EndsWith(s: string, t: string) {
    |t| <= |s| && s[|s| - |t|..] == t
  }

  /** `s.includes(t)`: `t` occurs in `s` at some offset. */
  predicate Contains(s: string, t: string)
    decreases |s|
  {
    StartsWith(s, t) || (|s| > 0 && Contains(s[1..], t))
  }

  /** `t` occurs in `s` starting at offset `i`. */
  predicate OccursAt(s: string, t: string, i: int) {
    0 <= i <= |s| - |t| && s[i..i + |t|] == t
  }

  /** `Contains` holds exactly when `t` occurs in `s` at some offset. */
  lemma {:induction false} ContainsAt(s: string, t: string)
    ensures Contains(s, t) <==> exists i :: OccursAt(s, t, i)
    decreases |s|
  {
    if StartsWith(s, t) {
      assert OccursAt(s, t, 0);
    } else if |s| > 0 {
      ContainsAt(s[1..], t);
      if exists i :: OccursAt(s, t, i) {
        var i :| OccursAt(s, t, i);
        assert i != 0;
        assert s[1..][i - 1..i - 1 + |t|] == s[i..i + |t|];
        assert OccursAt(s[1..], t, i - 1);
      }
      if Contains(s[1..], t) {
        var i :| OccursAt(s[1..], t, i);
        assert s[1..][i..i + |t|] == s[i + 1..i + 1 + |t|];
        assert OccursAt(s, t, i + 1);
      }
    } else {
      assert forall i :: !OccursAt(s, t, i);
    }
  }

  /** `path.join('.')`. */
  function JoinPath(path: seq<string>): (r: string)
    ensures path == [] ==> r == []
    ensures |path| == 1 ==> r == path[0]
    ensures |r| >= |path| - 1
  {
    if path == [] then [] else if |path| == 1 then path[0] else path[0] + "." + JoinPath(path[1..])
  }

  /** Joining two non-empty paths one after the other puts one dot between their joins. */
  lemma {:induction false} JoinPathAppend(p: seq<string>, q: seq<string>)
    requires p != [] && q != []
    ensures JoinPath(p + q) == JoinPath(p) + "." + JoinPath(q)
    decreases |p|
  {
    assert (p + q)[0] == p[0];
    if |p| == 1 {
      assert (p + q)[1..] == q;
    } else {
      assert (p + q)[1..] == p[1..] + q;
      JoinPathAppend(p[1..], q);
    }
  }
}
