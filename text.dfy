/** Small string toolkit shared by the interview modules: Python's `in`,
    `str.replace`, `str.strip`, `sep.join`, `str(int)` and slicing, written
    out over `seq<char>`. */
module Text {

  datatype Option<+T> = None | Some(value: T) {
    function GetOr(default: T): T {
      match this
      case Some(v) => v
      case None => default
    }
  }

  /** The outcome of decoding a reply with `json.loads`: the expected value,
      or Malformed for text that is not JSON. The observer also treats JSON of
      the wrong shape as Malformed, since reading it raises in the same `try`. */
  datatype Parse<T> = Parsed(value: T) | Malformed

  /** `p` is a prefix of `s`. */
  predicate StartsWith(s: string, p: string) {
    |p| <= |s| && s[..|p|] == p
  }

  /** `t` occurs in `s` starting at index `k`. */
  predicate OccursAt(s: string, t: string, k: int) {
    0 <= k && k + |t| <= |s| && s[k..k + |t|] == t
  }

  /** Python's `t in s` on strings. */
  predicate Contains(s: string, t: string) {
    exists k :: 0 <= k <= |s| - |t| && OccursAt(s, t, k)
  }

  /** Python's `s[:n]` for `n >= 0`. */
  function Take<T>(s: seq<T>, n: nat): (r: seq<T>)
    ensures |r| <= n && |r| <= |s|
    ensures |r| == if |s| < n then |s| else n
    ensures r == s[..|r|]
  {
    if |s| <= n then s else s[..n]
  }

  /** Python's `s.replace(pat, rep)`: scan left to right, replace each
      non-overlapping occurrence of `pat`. */
  function Replace(s: string, pat: string, rep: string): string
    requires pat != ""
    decreases |s|
  {
    if |s| < |pat| then s
    else if s[..|pat|] == pat then rep + Replace(s[|pat|..], pat, rep)
    else [s[0]] + Replace(s[1..], pat, rep)
  }

  /** The characters for which Python's `str.isspace()` holds. */
  predicate IsSpace(c: char) {
    ('\t' <= c <= '\r') || ('\U{1C}' <= c <= ' ') || c == '\U{85}' || c == '\U{A0}'
    || c == '\U{1680}' || ('\U{2000}' <= c <= '\U{200A}') || c == '\U{2028}' || c == '\U{2029}'
    || c == '\U{202F}' || c == '\U{205F}' || c == '\U{3000}'
  }

  /** Python's `s.lstrip()`: drops exactly the leading whitespace. */
  function TrimLeft(s: string): (r: string)
    ensures |r| <= |s| && r == s[|s| - |r|..]
    ensures r == [] || !IsSpace(r[0])
    ensures forall i :: 0 <= i < |s| - |r| ==> IsSpace(s[i])
  {
    if s != [] && IsSpace(s[0]) then TrimLeft(s[1..]) else s
  }

  /** Python's `s.rstrip()`: drops exactly the trailing whitespace. */
  function TrimRight(s: string): (r: string)
    ensures |r| <= |s| && r == s[..|r|]
    ensures r == [] || !IsSpace(r[|r| - 1])
    ensures forall i :: |r| <= i < |s| ==> IsSpace(s[i])
  {
    if s != [] && IsSpace(s[|s| - 1]) then TrimRight(s[..|s| - 1]) else s
  }

  /** Python's `s.strip()`. */
  function Strip(s: string): string {
    TrimRight(TrimLeft(s))
  }

  const Fence := "```"
  const JsonFence := "```json"

  /** `text.replace("```json", "").replace("```", "").strip()`, the clean-up
      both the observer and the answer evaluator apply to a model reply. */
  function StripFences(text: string): (r: string)
    ensures !Contains(r, Fence)
  {
    var r := Strip(Replace(Replace(text, JsonFence, ""), Fence, ""));
    RemovingFencesLeavesNone(Replace(text, JsonFence, ""));
    StripIsSlice(Replace(Replace(text, JsonFence, ""), Fence, ""));
    r
  }

  /** Deleting every "```" left to right cannot create a new "```" where two
      pieces meet: a surviving piece never ends in a backtick that a later
      match could extend. */
  lemma {:induction false} RemovingFencesLeavesNone(s: string)
    ensures !Contains(Replace(s, Fence, ""), Fence)
    ensures StartsWith(Replace(s, Fence, ""), "`") ==> StartsWith(s, "`")
    ensures StartsWith(Replace(s, Fence, ""), "``") ==> StartsWith(s, "``")
  {
    var r := Replace(s, Fence, "");
    if |s| < |Fence| {
      assert r == s;
      forall k ensures !OccursAt(r, Fence, k) { }
    } else if s[..3] == Fence {
      RemovingFencesLeavesNone(s[3..]);
      assert r == Replace(s[3..], Fence, "");
      assert s[0] == '`' && s[1] == '`' by { assert s[..3][0] == s[0] && s[..3][1] == s[1]; }
      assert StartsWith(s, "`") && StartsWith(s, "``");
    } else {
      var tail := Replace(s[1..], Fence, "");
      RemovingFencesLeavesNone(s[1..]);
      assert r == [s[0]] + tail;
      assert !OccursAt(r, Fence, 0) by {
        if s[0] != '`' {
          if |r| >= 3 {
            assert r[0] != '`';
            assert r[..3][0] == r[0];
          }
        } else {
          assert s[..3] == [s[0]] + s[1..][..2];
          assert !StartsWith(s[1..], "``");
          assert !StartsWith(tail, "``");
          if |r| >= 3 {
            assert r[1..3] == tail[..2];
            assert r[..3][1..] == r[1..3];
          }
        }
      }
      forall k | 0 < k <= |r| - 3 ensures !OccursAt(r, Fence, k) {
        assert tail[k - 1..k - 1 + 3] == r[k..k + 3];
        assert !OccursAt(tail, Fence, k - 1);
      }
      if StartsWith(r, "`") {
        assert r[0] == s[0];
        assert s[..1] == [s[0]];
      }
      if StartsWith(r, "``") {
        assert tail[..1] == r[1..2];
        assert StartsWith(tail, "`");
        assert s[1..][..1] == [s[1]];
        assert s[..2] == [s[0], s[1]];
      }
    }
  }

  /** A slice holds no substring its string does not hold. */
  lemma SliceContains(s: string, a: int, b: int, t: string)
    requires 0 <= a <= b <= |s| && Contains(s[a..b], t)
    ensures Contains(s, t)
  {
    var k :| 0 <= k <= |s[a..b]| - |t| && OccursAt(s[a..b], t, k);
    forall x | 0 <= x < |t|
      ensures s[a + k..a + k + |t|][x] == t[x]
    {
      assert s[a..b][k..k + |t|][x] == s[a..b][k + x];
    }
    assert s[a + k..a + k + |t|] == t;
    assert 0 <= a + k <= |s| - |t| && OccursAt(s, t, a + k);
  }

  /** `Strip` keeps a contiguous slice of its input, so it introduces no new
      substring. */
  lemma StripIsSlice(s: string)
    ensures Contains(Strip(s), Fence) ==> Contains(s, Fence)
  {
    var l := TrimLeft(s);
    var r := Strip(s);
    if Contains(r, Fence) {
      assert r == l[0..|r|];
      SliceContains(l, 0, |r|, Fence);
      assert l == s[|s| - |l|..|s|];
      SliceContains(s, |s| - |l|, |s|, Fence);
    }
  }

  /** A prefix holds no substring its string does not hold. */
  lemma TakeLacks(s: string, n: nat, t: string)
    requires !Contains(s, t)
    ensures !Contains(Take(s, n), t)
  {
    var f := Take(s, n);
    if Contains(f, t) {
      assert f == s[0..|f|];
      SliceContains(s, 0, |f|, t);
    }
  }

  /** Python's `sep.join(xs)`. */
  function Join(xs: seq<string>, sep: string): string
    decreases |xs|
  {
    if |xs| == 0 then ""
    else if |xs| == 1 then xs[0]
    else xs[0] + sep + Join(xs[1..], sep)
  }

  /** Every joined part occurs in the joined string. */
  lemma {:induction false} JoinContainsPart(xs: seq<string>, sep: string, i: int)
    requires 0 <= i < |xs|
    ensures Contains(Join(xs, sep), xs[i])
    decreases |xs|
  {
    var j := Join(xs, sep);
    if |xs| == 1 {
      assert OccursAt(j, xs[i], 0);
    } else if i == 0 {
      assert j[..|xs[0]|] == xs[0];
      assert OccursAt(j, xs[0], 0);
    } else {
      JoinContainsPart(xs[1..], sep, i - 1);
      assert xs[1..][i - 1] == xs[i];
      var rest := Join(xs[1..], sep);
      var k :| 0 <= k <= |rest| - |xs[i]| && OccursAt(rest, xs[i], k);
      var off := |xs[0]| + |sep|;
      assert j == xs[0] + sep + rest;
      assert j[off + k..off + k + |xs[i]|] == rest[k..k + |xs[i]|];
      assert OccursAt(j, xs[i], off + k);
    }
  }

  /** Every character of a joined string comes from a part or from the
      separator. */
  lemma {:induction false} JoinChars(xs: seq<string>, sep: string, c: char)
    requires c in Join(xs, sep)
    ensures c in sep || exists i :: 0 <= i < |xs| && c in xs[i]
    decreases |xs|
  {
    if |xs| >= 2 {
      var rest := Join(xs[1..], sep);
      assert Join(xs, sep) == xs[0] + sep + rest;
      if c !in xs[0] && c !in sep {
        assert c in rest;
        JoinChars(xs[1..], sep, c);
        var i :| 0 <= i < |xs[1..]| && c in xs[1..][i];
        assert c in xs[i + 1];
      }
    }
  }

  /** A string holds every character of each substring it contains. */
  lemma ContainsChar(s: string, t: string, c: char)
    requires Contains(s, t) && c in t
    ensures c in s
  {
    var k :| 0 <= k <= |s| - |t| && OccursAt(s, t, k);
    var i :| 0 <= i < |t| && t[i] == c;
    assert s[k..k + |t|][i] == s[k + i];
  }

  function DigitChar(d: int): char
    requires 0 <= d < 10
  {
    ('0' as int + d) as char
  }

  function DigitValue(c: char): int {
    c as int - '0' as int
  }

  /** Decimal digits of a natural number, without leading zeros. */
  function NatToString(n: nat): (r: string)
    ensures r != []
    ensures forall i :: 0 <= i < |r| ==> '0' <= r[i] <= '9'
    ensures |r| > 1 ==> r[0] != '0'
  {
    if n < 10 then [DigitChar(n)] else NatToString(n / 10) + [DigitChar(n % 10)]
  }

  /** Python's `str(i)` for an int. */
  function IntToString(i: int): (r: string)
    ensures r != []
  {
    if i < 0 then "-" + NatToString(-i) else NatToString(i)
  }

  /** Reads a run of decimal digits back as a number. */
  function DigitsValue(s: string): int {
    if s == [] then 0 else 10 * DigitsValue(s[..|s| - 1]) + DigitValue(s[|s| - 1])
  }

  /** `NatToString` and `DigitsValue` are inverse: the number in a
      "cur/total" marker can be read back from its digits. */
  lemma {:induction false} NatToStringRoundTrip(n: nat)
    ensures DigitsValue(NatToString(n)) == n
  {
    if n >= 10 {
      NatToStringRoundTrip(n / 10);
      var s := NatToString(n);
      assert s[..|s| - 1] == NatToString(n / 10);
    }
  }
}
