/**
 * The JavaScript string semantics the client relies on: truthiness of an
 * optional string, the `a || fallback` idiom, and `String.prototype.trim`.
 */
module JsText {
  import opened Wrappers

  /** A `string | null | undefined` is truthy iff it is a non-empty string. */
  predicate Truthy(o: Option<string>) {
    o.Some? && o.value != ""
  }

  /** `o || fallback`: the value when it is truthy, the fallback otherwise. */
  function OrElse(o: Option<string>, fallback: string): (r: string)
    ensures Truthy(o) ==> r == o.value
    ensures !Truthy(o) ==> r == fallback
    ensures fallback != "" ==> r != ""
  {
    if Truthy(o) then o.value else fallback
  }

  /** The WhiteSpace and LineTerminator code points of ECMAScript, which `trim` removes. */
  predicate IsSpace(c: char) {
    var n := c as int;
    n == 0x09 || n == 0x0A || n == 0x0B || n == 0x0C || n == 0x0D || n == 0x20
    || n == 0xA0 || n == 0x1680 || (0x2000 <= n <= 0x200A) || n == 0x2028
    || n == 0x2029 || n == 0x202F || n == 0x205F || n == 0x3000 || n == 0xFEFF
  }

  /** Every character of `s[lo..hi]` is white space. */
  predicate AllSpace(s: string, lo: int, hi: int)
    requires 0 <= lo <= hi <= |s|
  {
    forall i :: lo <= i < hi ==> IsSpace(s[i])
  }

  /** The end of the run of white space that starts at `i`. */
  function SpaceRunEnd(s: string, i: int): (k: int)
    requires 0 <= i <= |s|
    ensures i <= k <= |s| && AllSpace(s, i, k)
    ensures k < |s| ==> !IsSpace(s[k])
    decreases |s| - i
  {
    if i < |s| && IsSpace(s[i]) then SpaceRunEnd(s, i + 1) else i
  }

  /** The start of the run of white space that ends at `j`, looking no further back than `lo`. */
  function SpaceRunStart(s: string, lo: int, j: int): (k: int)
    requires 0 <= lo <= j <= |s|
    ensures lo <= k <= j && AllSpace(s, k, j)
    ensures lo < k ==> !IsSpace(s[k - 1])
    decreases j - lo
  {
    if lo < j && IsSpace(s[j - 1]) then SpaceRunStart(s, lo, j - 1) else j
  }

  /** Drops the leading white space: what remains is a suffix that starts with a non-space. */
  function TrimStart(s: string): (r: string)
    ensures |r| <= |s| && r == s[|s| - |r|..]
    ensures AllSpace(s, 0, |s| - |r|)
    ensures r != [] ==> !IsSpace(r[0])
  {
    s[SpaceRunEnd(s, 0)..]
  }

  /** Drops the trailing white space: what remains is a prefix that ends with a non-space. */
  function TrimEnd(s: string): (r: string)
    ensures |r| <= |s| && r == s[..|r|]
    ensures AllSpace(s, |r|, |s|)
    ensures r != [] ==> !IsSpace(r[|r| - 1])
  {
    s[..SpaceRunStart(s, 0, |s|)]
  }

  /** The index where `s.trim()` starts. */
  function TrimFrom(s: string): int
    ensures 0 <= TrimFrom(s) <= |s|
  {
    SpaceRunEnd(s, 0)
  }

  /** The index where `s.trim()` ends. */
  function TrimTo(s: string): int
    ensures TrimFrom(s) <= TrimTo(s) <= |s|
  {
    SpaceRunStart(s, TrimFrom(s), |s|)
  }

  /** `s.trim()`: the leading and the trailing white space dropped. */
  function Trim(s: string): string {
    s[TrimFrom(s)..TrimTo(s)]
  }

  /**
   * `s.trim()` is the middle part of `s` between a run of leading and a run of
   * trailing white space; it is empty exactly when `s` is all white space.
   */
  lemma TrimCharacterized(s: string)
    ensures var k, r := TrimFrom(s), Trim(s);
      k + |r| <= |s| && r == s[k..k + |r|] && AllSpace(s, 0, k) && AllSpace(s, k + |r|, |s|)
    ensures Trim(s) != [] ==> !IsSpace(Trim(s)[0]) && !IsSpace(Trim(s)[|Trim(s)| - 1])
    ensures Trim(s) == [] <==> AllSpace(s, 0, |s|)
  {
    var a, b := TrimFrom(s), TrimTo(s);
    if a == b {
      assert a == |s|;
    } else {
      assert Trim(s)[0] == s[a];
      assert Trim(s)[b - a - 1] == s[b - 1];
    }
  }

  /** Looking for trailing white space after `a` in `s` is looking for it in the suffix from `a`. */
  lemma {:induction false} SpaceRunStartShift(s: string, a: int, j: int)
    requires 0 <= a <= j <= |s|
    ensures SpaceRunStart(s[a..], 0, j - a) == SpaceRunStart(s, a, j) - a
    decreases j - a
  {
    if a < j {
      assert s[a..][j - 1 - a] == s[j - 1];
      if IsSpace(s[j - 1]) {
        SpaceRunStartShift(s, a, j - 1);
      }
    }
  }

  /** `trim()` is `trimEnd()` after `trimStart()`. */
  lemma TrimIsTrimStartThenEnd(s: string)
    ensures Trim(s) == TrimEnd(TrimStart(s))
  {
    var a := TrimFrom(s);
    SpaceRunStartShift(s, a, |s|);
    assert s[a..][..TrimTo(s) - a] == s[a..TrimTo(s)];
  }

  /** Trimming twice is trimming once. */
  lemma {:induction false} TrimIdempotent(s: string)
    ensures Trim(Trim(s)) == Trim(s)
  {
    var r := Trim(s);
    TrimCharacterized(s);
    if r != [] {
      assert TrimFrom(r) == 0;
      assert TrimTo(r) == |r|;
      assert r[0..|r|] == r;
    }
  }
}
