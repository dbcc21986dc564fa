/** Case-insensitive Levenshtein distance, as the chatbot uses it to score
    how well a keyword matches a user message. */
module Levenshtein {

  /** `::toupper` in the "C" locale: only the ASCII letters 'a'..'z' change. */
  function ToUpper(c: char): char
  {
    if 'a' <= c <= 'z' then (c as int - 32) as char else c
  }

  /** The string after `std::transform(..., ::toupper)`. */
  function Upper(s: string): string
  {
    seq(|s|, i requires 0 <= i < |s| => ToUpper(s[i]))
  }

  function Min3(x: nat, y: nat, z: nat): nat
  {
    if x <= y && x <= z then x else if y <= z then y else z
  }

  function Max(x: nat, y: nat): nat
  {
    if x <= y then y else x
  }

  function Gap(x: nat, y: nat): nat
  {
    if x <= y then y - x else x - y
  }

  /** The textbook recursive edit distance between the first `i` characters
      of `a` and the first `j` characters of `b`: deleting, inserting or
      substituting one character each cost 1. */
  function Table(a: string, b: string, i: nat, j: nat): nat
    requires i <= |a| && j <= |b|
    decreases i + j
  {
    if i == 0 then j
    else if j == 0 then i
    else
      Min3(Table(a, b, i - 1, j) + 1,
           Table(a, b, i, j - 1) + 1,
           Table(a, b, i - 1, j - 1) + (if a[i - 1] == b[j - 1] then 0 else 1))
  }

  function EditDistance(a: string, b: string): nat
  {
    Table(a, b, |a|, |b|)
  }

  /** What the chatbot computes: the edit distance of the upper-cased strings. */
  function LevenshteinDistance(s1: string, s2: string): nat
  {
    EditDistance(Upper(s1), Upper(s2))
  }

  // ---------------------------------------------------------------------
  // Properties of the specification

  lemma UpperIdempotent(s: string)
    ensures |Upper(s)| == |s|
    ensures Upper(Upper(s)) == Upper(s)
  {
  }

  /** Upper-casing a string first does not change any distance from it. */
  lemma CaseInsensitive(s1: string, s2: string)
    ensures LevenshteinDistance(Upper(s1), s2) == LevenshteinDistance(s1, s2)
    ensures LevenshteinDistance(s1, Upper(s2)) == LevenshteinDistance(s1, s2)
  {
    UpperIdempotent(s1);
    UpperIdempotent(s2);
  }

  lemma Min3Swap(x: nat, y: nat, z: nat)
    ensures Min3(x, y, z) == Min3(y, x, z)
  {
  }

  lemma {:induction false} TableSymmetric(a: string, b: string, i: nat, j: nat)
    requires i <= |a| && j <= |b|
    ensures Table(a, b, i, j) == Table(b, a, j, i)
    decreases i + j
  {
    if i > 0 && j > 0 {
      TableSymmetric(a, b, i - 1, j);
      TableSymmetric(a, b, i, j - 1);
      TableSymmetric(a, b, i - 1, j - 1);
      Min3Swap(Table(a, b, i - 1, j) + 1, Table(a, b, i, j - 1) + 1,
               Table(a, b, i - 1, j - 1) + if a[i - 1] == b[j - 1] then 0 else 1);
    }
  }

  lemma {:induction false} TableUpperBound(a: string, b: string, i: nat, j: nat)
    requires i <= |a| && j <= |b|
    ensures Table(a, b, i, j) <= Max(i, j)
    decreases i + j
  {
    if i > 0 && j > 0 {
      TableUpperBound(a, b, i - 1, j - 1);
    }
  }

  lemma {:induction false} TableLowerBound(a: string, b: string, i: nat, j: nat)
    requires i <= |a| && j <= |b|
    ensures Gap(i, j) <= Table(a, b, i, j)
    decreases i + j
  {
    if i > 0 && j > 0 {
      TableLowerBound(a, b, i - 1, j);
      TableLowerBound(a, b, i, j - 1);
      TableLowerBound(a, b, i - 1, j - 1);
    }
  }

  /** A zero entry means the two prefixes are the same string. */
  lemma {:induction false} TableZeroIff(a: string, b: string, i: nat, j: nat)
    requires i <= |a| && j <= |b|
    ensures Table(a, b, i, j) == 0 <==> i == j && a[..i] == b[..j]
    decreases i + j
  {
    TableLowerBound(a, b, i, j);
    if i > 0 && j > 0 {
      assert a[..i] == a[..i - 1] + [a[i - 1]];
      assert b[..j] == b[..j - 1] + [b[j - 1]];
      TableZeroIff(a, b, i - 1, j - 1);
      if i == j && a[..i] == b[..j] {
        assert a[..i - 1] == a[..i][..i - 1];
        assert b[..j - 1] == b[..j][..j - 1];
        assert a[i - 1] == a[..i][i - 1];
      }
    }
  }

  lemma EditDistanceSymmetric(a: string, b: string)
    ensures EditDistance(a, b) == EditDistance(b, a)
  {
    TableSymmetric(a, b, |a|, |b|);
  }

  lemma EditDistanceBounds(a: string, b: string)
    ensures Gap(|a|, |b|) <= EditDistance(a, b) <= Max(|a|, |b|)
  {
    TableUpperBound(a, b, |a|, |b|);
    TableLowerBound(a, b, |a|, |b|);
  }

  lemma EditDistanceZeroIff(a: string, b: string)
    ensures EditDistance(a, b) == 0 <==> a == b
  {
    TableZeroIff(a, b, |a|, |b|);
    assert a[..|a|] == a && b[..|b|] == b;
  }

  /** The distance of a string to itself is 0, and only strings that are
      equal up to case are at distance 0. */
  lemma LevenshteinZeroIff(s1: string, s2: string)
    ensures LevenshteinDistance(s1, s2) == 0 <==> Upper(s1) == Upper(s2)
    ensures LevenshteinDistance(s1, s1) == 0
  {
    EditDistanceZeroIff(Upper(s1), Upper(s2));
    EditDistanceZeroIff(Upper(s1), Upper(s1));
  }

  lemma LevenshteinSymmetric(s1: string, s2: string)
    ensures LevenshteinDistance(s1, s2) == LevenshteinDistance(s2, s1)
  {
    EditDistanceSymmetric(Upper(s1), Upper(s2));
  }

  /** Each entry away from the borders is at most each of its three
      candidates, and equal to one of them. */
  lemma TableCell(a: string, b: string, i: nat, j: nat)
    requires 0 < i <= |a| && 0 < j <= |b|
    ensures Table(a, b, i, j) <= Table(a, b, i - 1, j) + 1
    ensures Table(a, b, i, j) <= Table(a, b, i, j - 1) + 1
    ensures Table(a, b, i, j) <= Table(a, b, i - 1, j - 1) + (if a[i - 1] == b[j - 1] then 0 else 1)
    ensures Table(a, b, i, j) == Table(a, b, i - 1, j) + 1 ||
            Table(a, b, i, j) == Table(a, b, i, j - 1) + 1 ||
            Table(a, b, i, j) == Table(a, b, i - 1, j - 1) + (if a[i - 1] == b[j - 1] then 0 else 1)
  {
  }

  /** One step of the triangle inequality: from the inequality for the six
      triples of prefix lengths one character shorter, it holds for `i, j, k`.
      Each of the two distances on the right is reached through one of its
      three branches, and each pairing of branches uses one of the six. */
  lemma TriangleStep(a: string, b: string, c: string, i: nat, j: nat, k: nat)
    requires 0 < i <= |a| && 0 < j <= |b| && 0 < k <= |c|
    requires Table(a, c, i - 1, k) <= Table(a, b, i - 1, j) + Table(b, c, j, k)
    requires Table(a, c, i, k - 1) <= Table(a, b, i, j) + Table(b, c, j, k - 1)
    requires Table(a, c, i, k) <= Table(a, b, i, j - 1) + Table(b, c, j - 1, k)
    requires Table(a, c, i, k - 1) <= Table(a, b, i, j - 1) + Table(b, c, j - 1, k - 1)
    requires Table(a, c, i - 1, k) <= Table(a, b, i - 1, j - 1) + Table(b, c, j - 1, k)
    requires Table(a, c, i - 1, k - 1) <= Table(a, b, i - 1, j - 1) + Table(b, c, j - 1, k - 1)
    ensures Table(a, c, i, k) <= Table(a, b, i, j) + Table(b, c, j, k)
  {
    TableCell(a, b, i, j);
    TableCell(b, c, j, k);
    TableCell(a, c, i, k);
  }

  /** The triangle inequality on prefixes. */
  lemma {:induction false} TableTriangle(a: string, b: string, c: string, i: nat, j: nat, k: nat)
    requires i <= |a| && j <= |b| && k <= |c|
    ensures Table(a, c, i, k) <= Table(a, b, i, j) + Table(b, c, j, k)
    decreases i + j + k
  {
    if i == 0 {
      TableLowerBound(b, c, j, k);
    } else if k == 0 {
      TableLowerBound(a, b, i, j);
    } else if j == 0 {
      TableUpperBound(a, c, i, k);
    } else {
      // the inequality for every triple at most one shorter in each length
      forall i', j', k' | i - 1 <= i' <= i && j - 1 <= j' <= j && k - 1 <= k' <= k && i' + j' + k' < i + j + k
        ensures Table(a, c, i', k') <= Table(a, b, i', j') + Table(b, c, j', k')
      {
        TableTriangle(a, b, c, i', j', k');
      }
      TriangleStep(a, b, c, i, j, k);
    }
  }

  /** The chatbot's distance is a metric up to case: it obeys the triangle
      inequality. */
  lemma LevenshteinTriangle(s1: string, s2: string, s3: string)
    ensures LevenshteinDistance(s1, s3) <= LevenshteinDistance(s1, s2) + LevenshteinDistance(s2, s3)
  {
    TableTriangle(Upper(s1), Upper(s2), Upper(s3), |s1|, |s2|, |s3|);
  }

  /** Dropping one more character of the first string changes the
      distance by at most one. */
  lemma {:induction false} DropLeft(a: string, b: string, i: nat, j: nat)
    requires 0 < i <= |a| && j <= |b|
    ensures Table(a, b, i - 1, j) <= Table(a, b, i, j) + 1
    ensures Table(a, b, i, j) <= Table(a, b, i - 1, j) + 1
    decreases j
  {
    if j > 0 {
      DropLeft(a, b, i, j - 1);
      assert Table(a, b, i - 1, j) <= Table(a, b, i - 1, j - 1) + 1;
    }
  }

  lemma DropRight(a: string, b: string, i: nat, j: nat)
    requires i <= |a| && 0 < j <= |b|
    ensures Table(a, b, i, j - 1) <= Table(a, b, i, j) + 1
    ensures Table(a, b, i, j) <= Table(a, b, i, j - 1) + 1
  {
    DropLeft(b, a, j, i);
    TableSymmetric(a, b, i, j);
    TableSymmetric(a, b, i, j - 1);
  }

  /** When the two last characters agree, the diagonal is already minimal:
      this justifies the code copying `corner` without taking a minimum. */
  lemma MatchingLast(a: string, b: string, i: nat, j: nat)
    requires 0 < i <= |a| && 0 < j <= |b| && a[i - 1] == b[j - 1]
    ensures Table(a, b, i, j) == Table(a, b, i - 1, j - 1)
  {
    DropLeft(a, b, i, j - 1);
    DropRight(a, b, i - 1, j);
  }

  /** One cell of the rolling row: from the entries to its upper left
      (`corner`), above it (`upper`) and to its left (`left`), the code's
      update yields the table entry. */
  lemma TableStep(a: string, b: string, i: nat, j: nat, corner: nat, upper: nat, left: nat, cell: nat)
    requires i < |a| && j < |b|
    requires corner == Table(a, b, i, j) && upper == Table(a, b, i, j + 1) && left == Table(a, b, i + 1, j)
    requires cell == if a[i] == b[j] then corner
                     else (if left < (if upper < corner then upper else corner) then left
                           else (if upper < corner then upper else corner)) + 1
    ensures cell == Table(a, b, i + 1, j + 1)
  {
    if a[i] == b[j] {
      MatchingLast(a, b, i + 1, j + 1);
    }
  }

  // ---------------------------------------------------------------------
  // The implementation: one rolling row of costs

  /** ChatBot::ComputeLevenshteinDistance: upper-case both strings, answer
      the two empty cases directly, and otherwise run the dynamic program
      over a single row `costs` of length |s2| + 1, which after `i` outer
      iterations holds row `i` of the table. */
  method ComputeLevenshteinDistance(s1: string, s2: string) returns (r: nat)
    ensures r == LevenshteinDistance(s1, s2)
    ensures |s1| == 0 ==> r == |s2|
    ensures |s2| == 0 ==> r == |s1|
    ensures Gap(|s1|, |s2|) <= r <= Max(|s1|, |s2|)
  {
    var u1, u2 := Upper(s1), Upper(s2);
    var m, n := |u1|, |u2|;
    EditDistanceBounds(u1, u2);
    if m == 0 {
      return n;
    }
    if n == 0 {
      return m;
    }

    var costs := new nat[n + 1];
    for k := 0 to n + 1
      invariant forall k' {:trigger costs[k']} :: 0 <= k' < k ==> costs[k'] == Table(u1, u2, 0, k')
    {
      costs[k] := k;
    }

    for i := 0 to m
      invariant forall k {:trigger costs[k]} :: 0 <= k <= n ==> costs[k] == Table(u1, u2, i, k)
    {
      NextRow(u1, u2, i, costs);
    }
    r := costs[n];
  }

  /** One outer iteration: row `i` of the table becomes row `i + 1`, in place. */
  method NextRow(a: string, b: string, i: nat, costs: array<nat>)
    requires i < |a| && costs.Length == |b| + 1
    requires forall k {:trigger costs[k]} :: 0 <= k <= |b| ==> costs[k] == Table(a, b, i, k)
    modifies costs
    ensures forall k {:trigger costs[k]} :: 0 <= k <= |b| ==> costs[k] == Table(a, b, i + 1, k)
  {
    ghost var prev := costs[..];
    costs[0] := i + 1;
    var corner := i;
    for j := 0 to |b|
      invariant costs[0] == Table(a, b, i + 1, 0)
      invariant forall k {:trigger costs[k]} :: 0 < k <= j ==> costs[k] == Table(a, b, i + 1, k)
      invariant forall k {:trigger costs[k]} :: j < k <= |b| ==> costs[k] == prev[k]
      invariant corner == Table(a, b, i, j)
    {
      var upper := costs[j + 1];
      var cell: nat;
      if a[i] == b[j] {
        cell := corner;
      } else {
        var t := if upper < corner then upper else corner;
        cell := (if costs[j] < t then costs[j] else t) + 1;
      }
      TableStep(a, b, i, j, corner, upper, costs[j], cell);
      costs[j + 1] := cell;
      corner := upper;
    }
  }
}
