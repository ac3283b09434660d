/** The usual Some/None wrapper, standing for a C# reference that may be null. */
module Wrappers {
  datatype Option<+T> = None | Some(value: T)
}

/**
 * The float helpers of UnityEngine.Mathf, taken on exact rationals.
 * Single-precision rounding of the intermediate products is not modelled.
 */
module RealMath {

  /** Mathf.FloorToInt: the largest integer not above r. */
  function Floor(r: real): (n: int)
    ensures n as real <= r < n as real + 1.0
  {
    r.Floor
  }

  /** Mathf.CeilToInt: the smallest integer not below r. */
  function Ceil(r: real): (n: int)
    ensures n as real - 1.0 < r <= n as real
  {
    -((-r).Floor)
  }

  /**
   * Mathf.RoundToInt: the nearest integer; a value exactly halfway between
   * two integers goes to the even one.
   */
  function RoundToInt(r: real): (n: int)
    ensures n as real - 0.5 <= r <= n as real + 0.5
    ensures r == n as real - 0.5 || r == n as real + 0.5 ==> n % 2 == 0
  {
    var f := r.Floor;
    var frac := r - f as real;
    if frac < 0.5 then f
    else if frac > 0.5 then f + 1
    else if f % 2 == 0 then f
    else f + 1
  }

  /** Mathf.Min on integers. */
  function Min(a: int, b: int): (m: int)
    ensures m <= a && m <= b && (m == a || m == b)
  {
    if a < b then a else b
  }

  /** Any integer strictly closer than one half to r is what RoundToInt gives. */
  lemma RoundToNearest(r: real, k: int)
    requires k as real - 0.5 < r < k as real + 0.5
    ensures RoundToInt(r) == k
  {
  }

  /** Rounding a value no larger than an integer bound stays within the bound. */
  lemma RoundBelow(r: real, bound: int)
    requires r <= bound as real
    ensures RoundToInt(r) <= bound
  {
  }

  /** Rounding a non-negative value gives a non-negative integer. */
  lemma RoundNonNegative(r: real)
    requires 0.0 <= r
    ensures RoundToInt(r) >= 0
  {
  }

  /** Two integers within one half of the same value, one of them strictly, are equal. */
  lemma NearestIsUnique(a: int, b: int, r: real)
    requires a as real - 0.5 <= r <= a as real + 0.5
    requires b as real - 0.5 < r < b as real + 0.5
    ensures a == b
  {
  }

  /** A quotient a / b with a <= m * b is at most m. */
  lemma QuotientAtMost(a: int, b: int, m: int)
    requires b > 0 && a <= m * b
    ensures a as real / b as real <= m as real
  {
    assert (m * b) as real == m as real * b as real;
    assert a as real <= m as real * b as real;
  }

  /** (m * b) / b is m. */
  lemma QuotientOfProduct(m: int, b: int)
    requires b > 0
    ensures (m * b) as real / b as real == m as real
  {
    assert (m * b) as real == m as real * b as real;
  }

  /** For a non-negative a and a positive b, the floor of a/b is the integer quotient. */
  lemma FloorOfQuotient(a: int, b: int)
    requires 0 <= a && 0 < b
    ensures Floor(a as real / b as real) == a / b
  {
    var q, m := a / b, a % b;
    assert a == q * b + m;
    assert (a as real) / (b as real) == q as real + (m as real) / (b as real);
    assert 0.0 <= (m as real) / (b as real) < 1.0;
  }
}

/** The string operations of System.String and System.IO.Path that the plugin uses. */
module PathText {

  /** String.ToLower on one character (ASCII letters only). */
  function LowerChar(c: char): char
  {
    if 'A' <= c <= 'Z' then (c as int - 'A' as int + 'a' as int) as char else c
  }

  /** String.ToLower, letter by letter. */
  function ToLower(s: string): (r: string)
    ensures |r| == |s|
    ensures forall i :: 0 <= i < |s| ==> r[i] == LowerChar(s[i])
  {
    seq(|s|, i requires 0 <= i < |s| => LowerChar(s[i]))
  }

  /** String.Contains: sub occurs somewhere in s. */
  predicate Contains(s: string, sub: string)
    decreases |s|
  {
    sub <= s || (|s| > 0 && Contains(s[1..], sub))
  }

  /** Lower-casing twice is lower-casing once. */
  lemma ToLowerIdempotent(s: string)
    ensures ToLower(ToLower(s)) == ToLower(s)
  {
    var once := ToLower(s);
    assert forall i :: 0 <= i < |s| ==> LowerChar(once[i]) == once[i];
  }

  /** A one-character string occurs in s exactly when the character does. */
  lemma {:induction false} ContainsChar(s: string, c: char)
    ensures Contains(s, [c]) <==> c in s
    decreases |s|
  {
    if |s| > 0 {
      ContainsChar(s[1..], c);
      assert s == [s[0]] + s[1..];
    }
  }

  /** Every character of an occurring string occurs in s. */
  lemma {:induction false} ContainsKeepsChars(s: string, sub: string, j: nat)
    requires Contains(s, sub) && j < |sub|
    ensures sub[j] in s
    decreases |s|
  {
    if sub <= s {
      assert s[j] == sub[j];
    } else {
      ContainsKeepsChars(s[1..], sub, j);
      assert sub[j] in s[1..];
    }
  }

  /** String.StartsWith, taken as an ordinal prefix test. */
  predicate StartsWith(s: string, prefix: string)
  {
    prefix <= s
  }

  /** The characters at which Path.GetFileName and Path.GetExtension stop scanning back. */
  predicate IsSeparator(c: char)
  {
    c == '/' || c == '\\' || c == ':'
  }

  /**
   * Path.GetExtension: from the last '.' after the last separator to the end;
   * empty when there is no such '.', or when the '.' is the last character.
   */
  function GetExtension(path: string): (ext: string)
    ensures ext == "" || (2 <= |ext| <= |path| && ext[0] == '.' && ext == path[|path| - |ext|..])
    ensures ext != "" ==> forall k :: 1 <= k < |ext| ==> ext[k] != '.' && !IsSeparator(ext[k])
    ensures ext == "" && (|path| == 0 || path[|path| - 1] != '.') ==>
      forall k :: 0 <= k < |path| && path[k] == '.' ==> exists j :: k < j < |path| && IsSeparator(path[j])
  {
    ExtensionFrom(path, |path|)
  }

  /** The scan of GetExtension from position i back, with nothing but ordinary characters after i. */
  function ExtensionFrom(path: string, i: nat): (ext: string)
    requires i <= |path|
    requires forall j :: i <= j < |path| ==> path[j] != '.' && !IsSeparator(path[j])
    ensures ext == "" || (2 <= |ext| <= |path| && ext[0] == '.' && ext == path[|path| - |ext|..])
    ensures ext != "" ==> forall k :: 1 <= k < |ext| ==> ext[k] != '.' && !IsSeparator(ext[k])
    ensures ext == "" && (|path| == 0 || path[|path| - 1] != '.') ==>
      forall k :: 0 <= k < |path| && path[k] == '.' ==> exists j :: k < j < |path| && IsSeparator(path[j])
    decreases i
  {
    if i == 0 then ""
    else if path[i - 1] == '.' then (if i == |path| then "" else path[i - 1..])
    else if IsSeparator(path[i - 1]) then ""
    else ExtensionFrom(path, i - 1)
  }

  /** Path.GetFileName: what follows the last separator. */
  function GetFileName(path: string): (name: string)
    ensures |name| <= |path| && name == path[|path| - |name|..]
    ensures forall i :: 0 <= i < |name| ==> !IsSeparator(name[i])
    ensures |name| < |path| ==> IsSeparator(path[|path| - |name| - 1])
  {
    FileNameFrom(path, |path|)
  }

  function FileNameFrom(path: string, i: nat): (name: string)
    requires i <= |path|
    requires forall j :: i <= j < |path| ==> !IsSeparator(path[j])
    ensures |name| <= |path| && name == path[|path| - |name|..]
    ensures forall j :: 0 <= j < |name| ==> !IsSeparator(name[j])
    ensures |name| < |path| ==> IsSeparator(path[|path| - |name| - 1])
    decreases i
  {
    if i == 0 then path
    else if IsSeparator(path[i - 1]) then path[i..]
    else FileNameFrom(path, i - 1)
  }
}

/** Facts about integer products and quotients that the solver does not find alone. */
module IntMath {

  /** Multiplying by a non-negative factor keeps the order. */
  lemma MulMonotone(a: int, b: int, c: nat)
    requires a <= b
    ensures a * c <= b * c
  {
    assert b * c - a * c == (b - a) * c;
  }

  /** A quotient and remainder that fit are the quotient and remainder. */
  lemma DivUnique(k: int, w: int, q: int, r: int)
    requires w > 0 && 0 <= r < w && k == q * w + r
    ensures k / w == q && k % w == r
  {
    var q0, r0 := k / w, k % w;
    assert k == q0 * w + r0;
    if q0 > q {
      assert (q + 1) * w == q * w + w;
      MulMonotone(q + 1, q0, w);
    } else if q0 < q {
      assert (q0 + 1) * w == q0 * w + w;
      MulMonotone(q0 + 1, q, w);
    }
  }

  /** A quotient by a positive divisor is at most any integer m with k <= m * w. */
  lemma DivBelow(k: int, w: int, m: int)
    requires w > 0 && k <= m * w
    ensures k / w <= m
  {
    assert k == (k / w) * w + k % w;
  }

  /** Row-major indexing: (x, y) lands inside a width x height buffer and splits back into x and y. */
  lemma RowMajor(x: nat, y: nat, width: nat, height: nat)
    requires x < width && y < height
    ensures y * width + x < width * height
    ensures (y * width + x) / width == y && (y * width + x) % width == x
  {
    MulMonotone(y + 1, height, width);
    assert (y + 1) * width == y * width + width;
    DivUnique(y * width + x, width, y, x);
  }

  /** A flat index below width * height splits into a column below width and a row below height. */
  lemma FlatIndex(k: nat, width: nat, height: nat)
    requires k < width * height
    ensures width >= 1 && k % width < width && k / width < height
    ensures (k / width) * width + k % width == k
  {
    if width == 0 {
      assert false;
    }
    assert k == (k / width) * width + k % width;
    if k / width >= height {
      MulMonotone(height, k / width, width);
    }
  }
}

/** Concatenating a sequence of sequences, as a loop that appends each part to a list does. */
module Seqs {

  /** The parts, one after another. */
  function Flatten<T>(parts: seq<seq<T>>): (flat: seq<T>)
    ensures |parts| == 0 ==> flat == []
    decreases |parts|
  {
    if |parts| == 0 then [] else Flatten(parts[..|parts| - 1]) + parts[|parts| - 1]
  }

  /** Appending one more part appends its elements. */
  lemma FlattenAppend<T>(parts: seq<seq<T>>, part: seq<T>)
    ensures Flatten(parts + [part]) == Flatten(parts) + part
  {
    assert (parts + [part])[..|parts|] == parts;
  }

  /** An element is in the concatenation exactly when it is in one of the parts. */
  lemma {:induction false} FlattenMembership<T>(parts: seq<seq<T>>, x: T)
    ensures x in Flatten(parts) <==> exists i :: 0 <= i < |parts| && x in parts[i]
    decreases |parts|
  {
    if |parts| > 0 {
      var n := |parts| - 1;
      var front := parts[..n];
      FlattenMembership(front, x);
      if x in Flatten(parts) {
        if x in Flatten(front) {
          var i :| 0 <= i < |front| && x in front[i];
          assert parts[i] == front[i];
        } else {
          assert x in parts[n];
        }
      }
      if exists i :: 0 <= i < |parts| && x in parts[i] {
        var i :| 0 <= i < |parts| && x in parts[i];
        if i < n {
          assert front[i] == parts[i];
        }
      }
    }
  }
}
