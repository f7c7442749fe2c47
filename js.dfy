/**
 * The JavaScript built-ins the route handlers rely on, with the semantics
 * the ECMAScript standard gives them: truthiness of request-body values,
 * String.prototype.trim, String.prototype.split on a one-character
 * separator, Array.prototype.indexOf, Array.prototype.splice and the
 * relational operator `<` on two strings.
 */
module Js {

  /** A request-body property: missing (`undefined`) or a string. */
  datatype Value = Undefined | Str(s: string)

  /** JavaScript truthiness: `undefined` and `''` are falsy, every other string is truthy. */
  predicate Truthy(v: Value) {
    v.Str? && v.s != ""
  }

  /**
   * The code points String.prototype.trim strips: the WhiteSpace and
   * LineTerminator productions of ECMAScript (sections 12.2 and 12.3).
   */
  predicate IsWhitespace(c: char) {
    var n := c as int;
    n == 0x09 || n == 0x0A || n == 0x0B || n == 0x0C || n == 0x0D || n == 0x20
    || n == 0xA0 || n == 0x1680 || (0x2000 <= n <= 0x200A) || n == 0x2028
    || n == 0x2029 || n == 0x202F || n == 0x205F || n == 0x3000 || n == 0xFEFF
  }

  /** Drops leading whitespace; what is left is a suffix of `s`. */
  function TrimStart(s: string): (r: string)
    ensures |r| <= |s| && r == s[|s| - |r|..]
    ensures forall k :: 0 <= k < |s| - |r| ==> IsWhitespace(s[k])
    ensures r == "" || !IsWhitespace(r[0])
  {
    if |s| > 0 && IsWhitespace(s[0]) then TrimStart(s[1..]) else s
  }

  /** Drops trailing whitespace; what is left is a prefix of `s`. */
  function TrimEnd(s: string): (r: string)
    ensures |r| <= |s| && r == s[..|r|]
    ensures forall k :: |r| <= k < |s| ==> IsWhitespace(s[k])
    ensures r == "" || !IsWhitespace(r[|r| - 1])
  {
    if |s| > 0 && IsWhitespace(s[|s| - 1]) then TrimEnd(s[..|s| - 1]) else s
  }

  /** String.prototype.trim: no longer than the input, and no whitespace at either end. */
  function Trim(s: string): (r: string)
    ensures |r| <= |s|
    ensures r == "" || (!IsWhitespace(r[0]) && !IsWhitespace(r[|r| - 1]))
  {
    TrimEnd(TrimStart(s))
  }

  /** A prefix of a suffix is a slice, and the rest of the suffix is the rest of the string. */
  lemma PrefixOfSuffix<T>(s: seq<T>, i: nat, m: nat)
    requires i + m <= |s|
    ensures s[i..][..m] == s[i..i + m]
    ensures forall k :: i + m <= k < |s| ==> s[k] == s[i..][k - i]
  {
  }

  /**
   * `Trim(s)` is the slice `s[i..j]` left when the whitespace before `i`
   * and from `j` on is cut away, and it neither starts nor ends with whitespace.
   */
  lemma TrimSlice(s: string) returns (i: nat, j: nat)
    ensures i <= j <= |s| && Trim(s) == s[i..j]
    ensures forall k :: 0 <= k < i ==> IsWhitespace(s[k])
    ensures forall k :: j <= k < |s| ==> IsWhitespace(s[k])
    ensures Trim(s) == "" || (!IsWhitespace(Trim(s)[0]) && !IsWhitespace(Trim(s)[|Trim(s)| - 1]))
  {
    var t := TrimStart(s);
    var r := TrimEnd(t);
    i := |s| - |t|;
    j := i + |r|;
    PrefixOfSuffix(s, i, |r|);
  }

  /** The number of occurrences of `c` in `s`. */
  function Count(s: string, c: char): (n: nat)
    ensures n <= |s|
    ensures n == 0 <==> c !in s
  {
    if s == "" then 0 else (if s[0] == c then 1 else 0) + Count(s[1..], c)
  }

  /**
   * String.prototype.split with a one-character separator: the pieces
   * between the separators, in order, including empty ones. `"".split(",")`
   * is `[""]`.
   */
  function Split(s: string, sep: char): (pieces: seq<string>)
    ensures |pieces| == Count(s, sep) + 1
    ensures forall i :: 0 <= i < |pieces| ==> sep !in pieces[i]
  {
    if s == "" then [""]
    else
      var rest := Split(s[1..], sep);
      if s[0] == sep then [""] + rest
      else [[s[0]] + rest[0]] + rest[1..]
  }

  /** Array.prototype.join with a one-character separator. */
  function Join(pieces: seq<string>, sep: char): string {
    if |pieces| == 0 then ""
    else if |pieces| == 1 then pieces[0]
    else pieces[0] + [sep] + Join(pieces[1..], sep)
  }

  /** Joining the pieces of a split with the same separator gives back the string. */
  lemma {:induction false} JoinSplit(s: string, sep: char)
    ensures Join(Split(s, sep), sep) == s
  {
    if s != "" {
      var rest := Split(s[1..], sep);
      JoinSplit(s[1..], sep);
      if s[0] == sep {
        assert ([""] + rest)[1..] == rest;
      } else {
        var pieces := [[s[0]] + rest[0]] + rest[1..];
        if |rest| == 1 {
          assert pieces == [[s[0]] + rest[0]];
        } else {
          assert pieces[1..] == rest[1..];
          assert Join(rest, sep) == rest[0] + [sep] + Join(rest[1..], sep);
        }
      }
    }
  }

  /**
   * Array.prototype.indexOf with strict equality: the first index holding
   * `x`, or -1 when there is none.
   */
  function IndexOf<T(==)>(s: seq<T>, x: T): (r: int)
    ensures -1 <= r < |s|
    ensures r == -1 <==> x !in s
    ensures r >= 0 ==> s[r] == x && forall k :: 0 <= k < r ==> s[k] != x
  {
    if |s| == 0 then -1
    else if s[0] == x then 0
    else
      var i := IndexOf(s[1..], x);
      if i == -1 then -1 else i + 1
  }

  function Min(a: int, b: int): int { if a <= b then a else b }
  function Max(a: int, b: int): int { if a <= b then b else a }

  /**
   * The array that Array.prototype.splice(start, deleteCount) leaves behind
   * (ECMAScript section 23.1.3.31): a negative start counts from the end and
   * is clamped at 0, a start past the end is clamped at the length, and the
   * count is clamped to what is there.
   */
  function Splice<T>(s: seq<T>, start: int, deleteCount: int): (r: seq<T>)
    ensures 0 <= start < |s| && deleteCount == 1 ==> r == s[..start] + s[start + 1..]
    ensures -|s| <= start < 0 && deleteCount == 1 ==> r == s[..|s| + start] + s[|s| + start + 1..]
    ensures |s| == 0 ==> r == []
  {
    var len := |s|;
    var actualStart := if start < 0 then Max(len + start, 0) else Min(start, len);
    var actualCount := Min(Max(deleteCount, 0), len - actualStart);
    s[..actualStart] + s[actualStart + actualCount..]
  }

  /**
   * The relational operator `<` on two strings: lexicographic order, where
   * a proper prefix is smaller.
   */
  predicate StringLess(a: string, b: string) {
    if |b| == 0 then false
    else if |a| == 0 then true
    else if a[0] != b[0] then a[0] < b[0]
    else StringLess(a[1..], b[1..])
  }

  /** The first position where two strings differ decides their order. */
  lemma {:induction false} StringLessAt(a: string, b: string, k: nat)
    requires k < |a| && k < |b| && a[..k] == b[..k] && a[k] < b[k]
    ensures StringLess(a, b)
  {
    if k > 0 {
      assert a[0] == a[..k][0] == b[..k][0] == b[0];
      assert a[1..][..k - 1] == a[1..k] && b[1..][..k - 1] == b[1..k];
      assert a[1..k] == a[..k][1..] == b[..k][1..] == b[1..k];
      StringLessAt(a[1..], b[1..], k - 1);
    }
  }

  /** A proper prefix is smaller: `"2019-1" < "2019-10"`. */
  lemma {:induction false} StringLessPrefix(a: string, b: string)
    requires |a| < |b| && b[..|a|] == a
    ensures StringLess(a, b)
  {
    if |a| > 0 {
      assert a[0] == b[0];
      assert b[1..][..|a| - 1] == a[1..];
      StringLessPrefix(a[1..], b[1..]);
    }
  }

  lemma {:induction false} StringLessIrreflexive(a: string)
    ensures !StringLess(a, a)
  {
    if |a| > 0 {
      StringLessIrreflexive(a[1..]);
    }
  }

  lemma {:induction false} StringLessTransitive(a: string, b: string, c: string)
    requires StringLess(a, b) && StringLess(b, c)
    ensures StringLess(a, c)
  {
    if |a| > 0 && a[0] == b[0] && b[0] == c[0] {
      StringLessTransitive(a[1..], b[1..], c[1..]);
    }
  }

  /** Two different strings are always ordered one way or the other. */
  lemma {:induction false} StringLessTotal(a: string, b: string)
    requires a != b
    ensures StringLess(a, b) || StringLess(b, a)
  {
    if |a| > 0 && |b| > 0 && a[0] == b[0] {
      assert a == [a[0]] + a[1..] && b == [b[0]] + b[1..];
      StringLessTotal(a[1..], b[1..]);
    }
  }
}
