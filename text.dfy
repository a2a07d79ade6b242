/** The few JavaScript string operations the core relies on. */
module Text {
  import opened Wrappers

  /** `s.length`: JavaScript counts UTF-16 code units, two for a character above U+FFFF. */
  function Utf16Length(s: string): (n: nat)
    ensures |s| <= n <= 2 * |s|
  {
    if s == [] then 0 else (if s[0] as int > 0xFFFF then 2 else 1) + Utf16Length(s[1..])
  }

  /** On the Basic Multilingual Plane the code-unit count is the character count. */
  lemma {:induction false} BmpLength(s: string)
    requires forall i :: 0 <= i < |s| ==> s[i] as int <= 0xFFFF
    ensures Utf16Length(s) == |s|
  {
    if s != [] {
      BmpLength(s[1..]);
    }
  }

  /** Above the Basic Multilingual Plane every character is a surrogate pair. */
  lemma {:induction false} AstralLength(s: string)
    requires forall i :: 0 <= i < |s| ==> s[i] as int > 0xFFFF
    ensures Utf16Length(s) == 2 * |s|
  {
    if s != [] {
      AstralLength(s[1..]);
    }
  }

  /** `s.startsWith(prefix)` */
  predicate StartsWith(s: string, prefix: string) {
    |prefix| <= |s| && s[..|prefix|] == prefix
  }

  /** `sub` occurs in `s` at index `i`. */
  predicate OccursAt(s: string, sub: string, i: nat) {
    i + |sub| <= |s| && s[i..i + |sub|] == sub
  }

  /** `s.includes(sub)`, scanning from the left. */
  predicate Includes(s: string, sub: string)
    ensures Includes(s, sub) ==> |sub| <= |s|
    decreases |s|
  {
    StartsWith(s, sub) || (|s| > |sub| && Includes(s[1..], sub))
  }

  /** The scan finds `sub` exactly when it occurs somewhere in `s`. */
  lemma {:induction false} IncludesIffOccurs(s: string, sub: string)
    ensures Includes(s, sub) <==> exists i: nat :: OccursAt(s, sub, i)
    decreases |s|
  {
    if StartsWith(s, sub) {
      assert OccursAt(s, sub, 0);
    } else if |s| > |sub| {
      IncludesIffOccurs(s[1..], sub);
      forall i: nat | OccursAt(s[1..], sub, i)
        ensures OccursAt(s, sub, i + 1)
      {
        assert s[1..][i..i + |sub|] == s[i + 1..i + 1 + |sub|];
      }
      forall i: nat | OccursAt(s, sub, i)
        ensures i > 0 && OccursAt(s[1..], sub, i - 1)
      {
        assert s[..|sub|] == s[0..0 + |sub|];
        assert s[1..][i - 1..i - 1 + |sub|] == s[i..i + |sub|];
      }
    } else {
      forall i: nat ensures !OccursAt(s, sub, i) {
        if i + |sub| <= |s| {
          assert s[..|sub|] == s[0..0 + |sub|];
        }
      }
    }
  }

  /** ASCII lower-casing: the case folding a non-unicode `/i` regular expression applies to ASCII letters. */
  function LowerAscii(c: char): char {
    if 'A' <= c <= 'Z' then (c as int + 32) as char else c
  }

  function Lower(s: string): (r: string)
    ensures |r| == |s|
    ensures forall i :: 0 <= i < |s| ==> r[i] == LowerAscii(s[i])
  {
    if s == [] then [] else [LowerAscii(s[0])] + Lower(s[1..])
  }

  /** `parts.join(sep)` */
  function Join(parts: seq<string>, sep: string): string {
    if |parts| == 0 then ""
    else if |parts| == 1 then parts[0]
    else parts[0] + sep + Join(parts[1..], sep)
  }

  /** The longest prefix of `s` holding no space. */
  function UpToSpace(s: string): (r: string)
    ensures StartsWith(s, r)
    ensures ' ' !in r
    ensures |r| == |s| || s[|r|] == ' '
    ensures ' ' !in s ==> r == s
  {
    if s == [] || s[0] == ' ' then [] else [s[0]] + UpToSpace(s[1..])
  }

  /** What follows the first space of `s`; None when `s` has no space. */
  function AfterFirstSpace(s: string): (r: Option<string>)
    ensures r.None? <==> ' ' !in s
    ensures r.Some? ==> exists k :: 0 <= k < |s| && s[k] == ' ' && ' ' !in s[..k] && r.value == s[k + 1..]
  {
    if s == [] then None
    else if s[0] == ' ' then (assert ' ' !in s[..0]; Some(s[1..]))
    else
      var r := AfterFirstSpace(s[1..]);
      if r.Some? then
        var k :| 0 <= k < |s[1..]| && s[1..][k] == ' ' && ' ' !in s[1..][..k] && r.value == s[1..][k + 1..];
        assert s[..k + 1] == [s[0]] + s[1..][..k];
        r
      else r
  }

  /** Whatever follows the first space, when that space is at `k`. */
  lemma {:induction false} FirstSpaceAt(s: string, k: nat)
    requires k < |s| && s[k] == ' ' && ' ' !in s[..k]
    ensures AfterFirstSpace(s) == Some(s[k + 1..])
  {
    if k > 0 {
      assert s[0] in s[..k];
      assert s[1..][..k - 1] == s[1..k];
      assert forall c :: c in s[1..k] ==> c in s[..k];
      FirstSpaceAt(s[1..], k - 1);
      assert s[1..][k..] == s[k + 1..];
    }
  }

  /** `s.split(' ')[1]`: the piece between the first and the second space; None (undefined) without a space. */
  function SecondPiece(s: string): Option<string> {
    var rest := AfterFirstSpace(s);
    if rest.Some? then Some(UpToSpace(rest.value)) else None
  }

  /** A JavaScript truthiness test on a possibly-undefined string. */
  predicate Truthy(s: Option<string>) {
    s.Some? && s.value != ""
  }

  /** An integer as a template literal renders it: decimal digits, with a leading '-' when negative. */
  function DecimalText(n: int): (r: string)
    ensures |r| > 0
    decreases if n < 0 then 1 - n else n
  {
    if n < 0 then "-" + DecimalText(-n)
    else if n < 10 then ["0123456789"[n]]
    else DecimalText(n / 10) + ["0123456789"[n % 10]]
  }

  /** A possibly-undefined string as a template literal renders it. */
  function Show(s: Option<string>): string {
    if s.Some? then s.value else "undefined"
  }
}
