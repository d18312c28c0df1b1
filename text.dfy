/** Option type and small notification vocabulary shared by every screen. */
module Wrappers {

  datatype Option<+T> = None | Some(value: T) {
    function GetOr(default: T): T {
      match this
      case Some(v) => v
      case None => default
    }
  }

  /** A transient notification raised through antd's `message` API. */
  datatype Toast = Success(text: string) | Error(text: string) | Warning(text: string)

  /** JavaScript's `a || b` on strings: the empty string is falsy. */
  function OrDefault(s: string, default: string): (r: string)
    ensures s != [] ==> r == s
    ensures s == [] ==> r == default
  {
    if s == [] then default else s
  }

  /** `a?.b || default` where the value may be absent or empty. */
  function OptOrDefault(s: Option<string>, default: string): (r: string)
    ensures (s.Some? && s.value != []) ==> r == s.value
    ensures (s.None? || s.value == []) ==> r == default
  {
    if s.Some? then OrDefault(s.value, default) else default
  }
}

/**
 * The string operations the screens use, on `seq<char>`:
 * `toLowerCase` (ASCII letters only), `trim` (ASCII white space, NBSP and BOM)
 * and `includes` (contiguous substring).
 */
module Text {

  function LowerChar(c: char): char {
    if 'A' <= c <= 'Z' then (c as int + 32) as char else c
  }

  /** `s.toLowerCase()`, ASCII letters only. */
  function Lower(s: string): (r: string)
    ensures |r| == |s|
  {
    seq(|s|, i requires 0 <= i < |s| => LowerChar(s[i]))
  }

  predicate IsLowerCase(s: string) {
    forall i :: 0 <= i < |s| ==> !('A' <= s[i] <= 'Z')
  }

  /** Lower-casing yields text without upper-case letters, and so is idempotent. */
  lemma LowerIsLowerCase(s: string)
    ensures IsLowerCase(Lower(s))
    ensures Lower(Lower(s)) == Lower(s)
  {
  }

  predicate IsSpace(c: char) {
    c == ' ' || c == '\t' || c == '\n' || c == '\r' || c == '\U{000B}' || c == '\U{000C}'
    || c == '\U{00A0}' || c == '\U{FEFF}'
  }

  function TrimStart(s: string): (r: string)
    ensures |r| <= |s| && r == s[|s| - |r|..]
    ensures r != [] ==> !IsSpace(r[0])
    ensures forall i :: 0 <= i < |s| - |r| ==> IsSpace(s[i])
  {
    if s != [] && IsSpace(s[0]) then TrimStart(s[1..]) else s
  }

  function TrimEnd(s: string): (r: string)
    ensures |r| <= |s| && r == s[..|r|]
    ensures r != [] ==> !IsSpace(r[|r| - 1])
    ensures forall i :: |r| <= i < |s| ==> IsSpace(s[i])
  {
    if s != [] && IsSpace(s[|s| - 1]) then TrimEnd(s[..|s| - 1]) else s
  }

  /** `s.trim()`. */
  function Trim(s: string): string {
    TrimEnd(TrimStart(s))
  }

  /** `t` sits in `s` at index `k` with nothing but white space around it. */
  predicate SurroundedBySpace(s: string, t: string, k: int) {
    OccursAt(s, t, k)
    && (forall i :: 0 <= i < k ==> IsSpace(s[i]))
    && (forall i :: k + |t| <= i < |s| ==> IsSpace(s[i]))
  }

  /** The trimmed text is a piece of the input with no white space at either end, and only
      white space was removed around it. */
  lemma TrimShape(s: string)
    ensures exists k :: SurroundedBySpace(s, Trim(s), k)
  {
    var a := TrimStart(s);
    var k := |s| - |a|;
    var t := TrimEnd(a);
    assert t == Trim(s);
    assert s[k..k + |t|] == a[..|t|];
    assert forall i :: 0 <= i < k ==> IsSpace(s[i]);
    forall i | k + |t| <= i < |s| ensures IsSpace(s[i]) {
      assert s[i] == a[i - k];
    }
    assert SurroundedBySpace(s, t, k);
  }

  /** The trimmed text has no white space at either end. */
  lemma TrimEnds(s: string)
    ensures Trim(s) != [] ==> !IsSpace(Trim(s)[0]) && !IsSpace(Trim(s)[|Trim(s)| - 1])
  {
    var a := TrimStart(s);
    var t := TrimEnd(a);
    if t != [] {
      assert t[0] == a[0];
    }
  }

  /** Text that has no white space at either end is left as it is. */
  lemma TrimUnchanged(s: string)
    requires s != [] ==> !IsSpace(s[0]) && !IsSpace(s[|s| - 1])
    ensures Trim(s) == s
  {
  }

  /** Trimming twice is trimming once. */
  lemma TrimIdempotent(s: string)
    ensures Trim(Trim(s)) == Trim(s)
  {
    TrimEnds(s);
    TrimUnchanged(Trim(s));
  }

  /** The normalisation used by the duplicate-station check: `s.trim().toLowerCase()`. */
  function Normalize(s: string): string {
    Lower(Trim(s))
  }

  lemma NormalizeIdempotent(s: string)
    ensures Normalize(Normalize(s)) == Normalize(s)
  {
    var t := Trim(s);
    TrimEnds(s);
    var l := Lower(t);
    if l != [] {
      assert l[0] == LowerChar(t[0]) && l[|l| - 1] == LowerChar(t[|t| - 1]);
    }
    TrimUnchanged(l);
    LowerIsLowerCase(t);
  }

  /** `sub` occurs in `s` starting at index `k`. */
  predicate OccursAt(s: string, sub: string, k: int) {
    0 <= k && k + |sub| <= |s| && s[k..k + |sub|] == sub
  }

  predicate IsPrefix(p: string, s: string) {
    |p| <= |s| && s[..|p|] == p
  }

  /** `s.includes(sub)`: `sub` occurs in `s` as a contiguous piece. */
  predicate Contains(s: string, sub: string)
    decreases |s|
  {
    IsPrefix(sub, s) || (s != [] && Contains(s[1..], sub))
  }

  /** Contains agrees with the positional definition of a substring occurrence. */
  lemma {:induction false} ContainsIff(s: string, sub: string)
    ensures Contains(s, sub) <==> exists k :: OccursAt(s, sub, k)
    decreases |s|
  {
    if IsPrefix(sub, s) {
      assert OccursAt(s, sub, 0);
    } else if s == [] {
    } else {
      ContainsIff(s[1..], sub);
      if Contains(s[1..], sub) {
        var k :| OccursAt(s[1..], sub, k);
        assert s[k + 1..k + 1 + |sub|] == s[1..][k..k + |sub|];
        assert OccursAt(s, sub, k + 1);
      }
      if exists k :: OccursAt(s, sub, k) {
        var k :| OccursAt(s, sub, k);
        assert k != 0;
        assert s[1..][k - 1..k - 1 + |sub|] == s[k..k + |sub|];
        assert OccursAt(s[1..], sub, k - 1);
      }
    }
  }

  /** Every text contains the empty text: `s.includes('')` is true. */
  lemma {:induction false} ContainsEmpty(s: string)
    ensures Contains(s, [])
  {
    assert IsPrefix([], s);
  }

  /** Case-insensitive `includes` as the screens write it. */
  predicate ContainsIgnoringCase(s: string, sub: string) {
    Contains(Lower(s), Lower(sub))
  }
}
