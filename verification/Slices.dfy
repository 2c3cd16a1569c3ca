/**
  What `append(s[:i], s[i+1:]...)` does to a Go slice.

  The call copies the tail one place down inside the backing array and returns a
  header that is one element shorter. A caller that stores the new header sees
  `RemoveAt`. A caller that keeps its old header, of unchanged length, sees
  `ShiftOut`: the last element is still there, twice.
*/
module Slices {

  function RemoveAt<T>(s: seq<T>, i: nat): (r: seq<T>)
    requires i < |s|
    ensures |r| == |s| - 1
  {
    s[..i] + s[i + 1..]
  }

  function ShiftOut<T>(s: seq<T>, i: nat): (r: seq<T>)
    requires i < |s|
    ensures |r| == |s|
  {
    s[..i] + s[i + 1..] + [s[|s| - 1]]
  }

  /** The copy itself, on a backing array of which the header shows the first n elements. */
  method AppendOver<T>(a: array<T>, n: nat, i: nat)
    requires i < n <= a.Length
    modifies a
    ensures a[..n] == ShiftOut(old(a[..n]), i)
    ensures a[..n - 1] == RemoveAt(old(a[..n]), i)
    ensures a[n..] == old(a[n..])
  {
    forall j | i <= j < n - 1 {
      a[j] := a[j + 1];
    }
  }

  /** An element that occurs somewhere other than at i, or at the end, survives; nothing else does. */
  lemma ShiftOutKeeps<T>(s: seq<T>, i: nat, x: T)
    requires i < |s|
    ensures x in ShiftOut(s, i) <==> x in s && (x != s[i] || i == |s| - 1 || x in RemoveAt(s, i))
  {
    var r := ShiftOut(s, i);
    assert s == s[..i] + [s[i]] + s[i + 1..];
    assert r == RemoveAt(s, i) + [s[|s| - 1]];
    assert i < |s| - 1 ==> s[|s| - 1] == s[i + 1..][|s| - i - 2];
  }
}
