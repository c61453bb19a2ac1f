/** Values shared by every page of the storefront: optional JavaScript values,
    the truthiness rules the pages rely on, `String.prototype.trim` and the
    lower-casing used to compare order statuses. */
module Common {

  /** A JavaScript value that may be `null`/`undefined` (None) or present (Some). */
  datatype Option<T> = None | Some(value: T)

  /** `s || ''`: an absent string reads as the empty string. */
  function OrEmpty(s: Option<string>): string {
    if s.Some? then s.value else ""
  }

  /** JavaScript truthiness of an optional string: present and non-empty. */
  predicate Truthy(s: Option<string>) {
    s.Some? && s.value != ""
  }

  /** `Number(x || 0) || 0` for a numeric field: an absent or unparseable value is 0. */
  function Num(x: Option<real>): real {
    if x.Some? then x.value else 0.0
  }

  /** The characters `String.prototype.trim` removes: WhiteSpace (TAB, VT, FF,
      ZWNBSP and the Unicode space separators) and LineTerminator (LF, CR, LS, PS). */
  predicate IsWhitespace(c: char) {
    var n := c as int;
    n == 0x09 || n == 0x0A || n == 0x0B || n == 0x0C || n == 0x0D || n == 0x20
    || n == 0xA0 || n == 0x1680 || (0x2000 <= n <= 0x200A)
    || n == 0x2028 || n == 0x2029 || n == 0x202F || n == 0x205F
    || n == 0x3000 || n == 0xFEFF
  }

  predicate AllWhitespace(s: string) {
    forall k :: 0 <= k < |s| ==> IsWhitespace(s[k])
  }

  lemma WhitespaceCons(c: char, t: string)
    requires IsWhitespace(c) && AllWhitespace(t)
    ensures AllWhitespace([c] + t)
  {
    forall k | 0 <= k < |[c] + t| ensures IsWhitespace(([c] + t)[k]) {
      if k > 0 { assert ([c] + t)[k] == t[k - 1]; }
    }
  }

  lemma WhitespaceSnoc(t: string, c: char)
    requires AllWhitespace(t) && IsWhitespace(c)
    ensures AllWhitespace(t + [c])
  {
    forall k | 0 <= k < |t + [c]| ensures IsWhitespace((t + [c])[k]) {
      if k < |t| { assert (t + [c])[k] == t[k]; }
    }
  }

  lemma SuffixOfTail(s: string, r: string)
    requires s != [] && |r| <= |s| - 1 && r == s[1..][|s| - 1 - |r|..]
    ensures r == s[|s| - |r|..]
    ensures s[..|s| - |r|] == [s[0]] + s[1..][..|s| - 1 - |r|]
  {
    forall k | 0 <= k < |r| ensures r[k] == s[|s| - |r| + k] {
      assert r[k] == s[1..][|s| - 1 - |r| + k];
    }
    var p := s[..|s| - |r|];
    forall k | 0 <= k < |p| ensures p[k] == ([s[0]] + s[1..][..|s| - 1 - |r|])[k] {
      if k > 0 { assert s[1..][..|s| - 1 - |r|][k - 1] == s[k]; }
    }
  }

  /** Drops the leading whitespace: the result is a suffix of `s`, what was
      dropped is whitespace, and the result does not start with whitespace. */
  function TrimStart(s: string): (r: string)
    ensures |r| <= |s| && r == s[|s| - |r|..]
    ensures AllWhitespace(s[..|s| - |r|])
    ensures r != [] ==> !IsWhitespace(r[0])
  {
    if s == [] || !IsWhitespace(s[0]) then s
    else
      var r := TrimStart(s[1..]);
      SuffixOfTail(s, r);
      WhitespaceCons(s[0], s[1..][..|s| - 1 - |r|]);
      r
  }

  /** Drops the trailing whitespace: the result is a prefix of `s`, what was
      dropped is whitespace, and the result does not end with whitespace. */
  function TrimEnd(s: string): (r: string)
    ensures |r| <= |s| && r == s[..|r|]
    ensures AllWhitespace(s[|r|..])
    ensures r != [] ==> !IsWhitespace(r[|r| - 1])
  {
    if s == [] || !IsWhitespace(s[|s| - 1]) then s
    else
      var r := TrimEnd(s[..|s| - 1]);
      assert s[|r|..] == s[..|s| - 1][|r|..] + [s[|s| - 1]];
      WhitespaceSnoc(s[..|s| - 1][|r|..], s[|s| - 1]);
      r
  }

  /** `String.prototype.trim`. */
  function Trim(s: string): string {
    TrimEnd(TrimStart(s))
  }

  /** A string trims to "" exactly when it is made only of whitespace. */
  lemma TrimEmptyIffBlank(s: string)
    ensures Trim(s) == "" <==> AllWhitespace(s)
  {
    if AllWhitespace(s) {
      BlankTrimsToEmpty(s);
    }
    if Trim(s) == "" {
      TrimmedToEmptyIsBlank(s);
    }
  }

  lemma BlankTrimsToEmpty(s: string)
    requires AllWhitespace(s)
    ensures Trim(s) == ""
  {
    var t := TrimStart(s);
    SuffixOfBlankIsBlank(s, t);
  }

  lemma SuffixOfBlankIsBlank(s: string, t: string)
    requires AllWhitespace(s) && |t| <= |s| && t == s[|s| - |t|..]
    ensures AllWhitespace(t)
  {
    forall k | 0 <= k < |t| ensures IsWhitespace(t[k]) {
      assert t[k] == s[|s| - |t| + k];
    }
  }

  lemma TrimmedToEmptyIsBlank(s: string)
    requires Trim(s) == ""
    ensures AllWhitespace(s)
  {
    var t := TrimStart(s);
    var d := |s| - |t|;
    assert t[0..] == t;
    forall k | 0 <= k < |s| ensures IsWhitespace(s[k]) {
      if k < d {
        assert s[..d][k] == s[k];
      } else {
        assert t[k - d] == s[k];
      }
    }
  }

  /** Lower-cases one character; only the ASCII letters A-Z change. */
  function LowerChar(c: char): char {
    if 'A' <= c <= 'Z' then (c as int + 32) as char else c
  }

  /** `toLowerCase` restricted to ASCII letters: it decides equality with an
      all-ASCII word such as "aprovado" exactly as JavaScript does, because no
      other character lower-cases to one of the letters a-z used in such words. */
  function ToLower(s: string): (r: string)
    ensures |r| == |s|
    ensures forall k :: 0 <= k < |s| ==> r[k] == LowerChar(s[k])
  {
    if s == [] then [] else [LowerChar(s[0])] + ToLower(s[1..])
  }

  /** `sub` occurs in `s` starting at index `i`. */
  predicate OccursAt(s: string, sub: string, i: int) {
    0 <= i <= |s| - |sub| && s[i..i + |sub|] == sub
  }

  /** `s.length`: the number of UTF-16 code units, two for a character
      outside the Basic Multilingual Plane. */
  function Utf16Length(s: string): (n: nat)
    ensures |s| <= n <= 2 * |s|
    ensures (forall k :: 0 <= k < |s| ==> s[k] as int <= 0xFFFF) ==> n == |s|
  {
    if s == [] then 0
    else (if s[0] as int > 0xFFFF then 2 else 1) + Utf16Length(s[1..])
  }

  /** Lower-casing twice is lower-casing once. */
  lemma ToLowerIdempotent(s: string)
    ensures ToLower(ToLower(s)) == ToLower(s)
  {
    var t := ToLower(s);
    assert forall k :: 0 <= k < |t| ==> ToLower(t)[k] == LowerChar(LowerChar(s[k])) == t[k];
  }

  /** `s.includes(sub)`. */
  predicate Contains(s: string, sub: string) {
    exists i | 0 <= i <= |s| :: OccursAt(s, sub, i)
  }
}
