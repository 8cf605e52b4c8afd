/**
 * The array operations every page applies to its state: `filter`, the
 * `map` that replaces the records carrying a given id, the `filter` that
 * deletes them, and `find`. Records are identified through `idOf`, their
 * `id` field.
 */
module Lists {

  import opened Common

  /** `s.filter(p)`. */
  function Filter<T>(s: seq<T>, p: T -> bool): (r: seq<T>)
    ensures |r| <= |s|
    ensures forall i :: 0 <= i < |r| ==> r[i] in s && p(r[i])
    ensures forall i :: 0 <= i < |s| && p(s[i]) ==> s[i] in r
  {
    if s == [] then []
    else
      assert s == [s[0]] + s[1..];
      (if p(s[0]) then [s[0]] else []) + Filter(s[1..], p)
  }

  /** Filtering distributes over concatenation: it keeps the kept records in their original order. */
  lemma {:induction false} FilterConcat<T>(a: seq<T>, b: seq<T>, p: T -> bool)
    ensures Filter(a + b, p) == Filter(a, p) + Filter(b, p)
  {
    if a == [] {
      assert a + b == b;
    } else {
      assert (a + b)[0] == a[0];
      assert (a + b)[1..] == a[1..] + b;
      FilterConcat(a[1..], b, p);
    }
  }

  /** A filter that every record passes keeps the whole list, in order. */
  lemma {:induction false} FilterKeepsAll<T>(s: seq<T>, p: T -> bool)
    requires forall i :: 0 <= i < |s| ==> p(s[i])
    ensures Filter(s, p) == s
  {
    if s != [] {
      FilterKeepsAll(s[1..], p);
    }
  }

  /** Two tests that agree on every record of `s` filter it the same way. */
  lemma {:induction false} FilterAgrees<T>(s: seq<T>, p: T -> bool, q: T -> bool)
    requires forall i :: 0 <= i < |s| ==> p(s[i]) == q(s[i])
    ensures Filter(s, p) == Filter(s, q)
  {
    if s != [] {
      FilterAgrees(s[1..], p, q);
    }
  }

  /** `s.filter(e => idOf(e) !== id)`: the delete handlers. */
  function RemoveById<T>(s: seq<T>, idOf: T -> string, id: string): (r: seq<T>)
    ensures forall i :: 0 <= i < |r| ==> r[i] in s && idOf(r[i]) != id
    ensures forall i :: 0 <= i < |s| && idOf(s[i]) != id ==> s[i] in r
  {
    Filter(s, e => idOf(e) != id)
  }

  /** How many records of `s` carry `id`. */
  function CountId<T>(s: seq<T>, idOf: T -> string, id: string): (n: nat)
    ensures n <= |s|
    ensures n == 0 <==> forall i :: 0 <= i < |s| ==> idOf(s[i]) != id
  {
    if s == [] then 0
    else
      var rest := CountId(s[1..], idOf, id);
      assert forall i :: 1 <= i < |s| ==> s[i] == s[1..][i - 1];
      (if idOf(s[0]) == id then 1 else 0) + rest
  }

  /** Deleting removes exactly the records carrying the id: the others stay, in order. */
  lemma {:induction false} RemoveByIdLength<T>(s: seq<T>, idOf: T -> string, id: string)
    ensures |RemoveById(s, idOf, id)| == |s| - CountId(s, idOf, id)
  {
    if s != [] {
      RemoveByIdLength(s[1..], idOf, id);
    }
  }

  /** Deleting an id that no record carries changes nothing. */
  lemma RemoveAbsentId<T>(s: seq<T>, idOf: T -> string, id: string)
    requires forall i :: 0 <= i < |s| ==> idOf(s[i]) != id
    ensures RemoveById(s, idOf, id) == s
  {
    FilterKeepsAll(s, e => idOf(e) != id);
  }

  /** Deleting a record just put in front under a fresh id gives back the list as it was. */
  lemma {:induction false} RemoveAfterPrepend<T>(s: seq<T>, idOf: T -> string, x: T)
    requires forall i :: 0 <= i < |s| ==> idOf(s[i]) != idOf(x)
    ensures RemoveById([x] + s, idOf, idOf(x)) == s
  {
    FilterConcat([x], s, e => idOf(e) != idOf(x));
    RemoveAbsentId(s, idOf, idOf(x));
  }

  /**
   * `s.map(e => idOf(e) === idOf(x) ? x : e)`: the save handlers. Same length;
   * every record carrying `x`'s id becomes `x`, every other record is unchanged.
   */
  function ReplaceById<T>(s: seq<T>, idOf: T -> string, x: T): (r: seq<T>)
    ensures |r| == |s|
    ensures forall i :: 0 <= i < |s| && idOf(s[i]) == idOf(x) ==> r[i] == x
    ensures forall i :: 0 <= i < |s| && idOf(s[i]) != idOf(x) ==> r[i] == s[i]
  {
    if s == [] then []
    else
      var rest := ReplaceById(s[1..], idOf, x);
      var r := [if idOf(s[0]) == idOf(x) then x else s[0]] + rest;
      assert forall i :: 1 <= i < |s| ==> r[i] == rest[i - 1] && s[i] == s[1..][i - 1];
      r
  }

  /** Saving a record whose id is in no row leaves the list as it was. */
  lemma ReplaceAbsentId<T>(s: seq<T>, idOf: T -> string, x: T)
    requires forall i :: 0 <= i < |s| ==> idOf(s[i]) != idOf(x)
    ensures ReplaceById(s, idOf, x) == s
  {
  }

  /** `s.find(e => idOf(e) === id)`: the first record carrying `id`. */
  function FindById<T>(s: seq<T>, idOf: T -> string, id: string): (r: Option<T>)
    ensures r.Some? ==> exists i :: 0 <= i < |s| && s[i] == r.value && idOf(s[i]) == id
                                  && forall j :: 0 <= j < i ==> idOf(s[j]) != id
    ensures r.None? <==> forall i :: 0 <= i < |s| ==> idOf(s[i]) != id
  {
    if s == [] then None
    else if idOf(s[0]) == id then
      Some(s[0])
    else
      var r := FindById(s[1..], idOf, id);
      assert forall i :: 1 <= i < |s| ==> s[i] == s[1..][i - 1];
      assert r.Some? ==> exists i :: 1 <= i < |s| && s[i] == r.value && idOf(s[i]) == id
                                  && forall j :: 0 <= j < i ==> idOf(s[j]) != id by {
        if r.Some? {
          var k :| 0 <= k < |s[1..]| && s[1..][k] == r.value && idOf(s[1..][k]) == id
                   && forall j :: 0 <= j < k ==> idOf(s[1..][j]) != id;
          assert forall j :: 0 <= j < k + 1 ==> idOf(s[j]) != id by {
            forall j | 0 <= j < k + 1 ensures idOf(s[j]) != id {
              if j > 0 { assert s[j] == s[1..][j - 1]; }
            }
          }
        }
      }
      r
  }

  /** After a save, looking the id up finds the saved record. */
  lemma {:induction false} FindAfterReplace<T>(s: seq<T>, idOf: T -> string, x: T)
    requires exists i :: 0 <= i < |s| && idOf(s[i]) == idOf(x)
    ensures FindById(ReplaceById(s, idOf, x), idOf, idOf(x)) == Some(x)
  {
    var r := ReplaceById(s, idOf, x);
    var k :| 0 <= k < |s| && idOf(s[k]) == idOf(x);
    assert idOf(r[k]) == idOf(x);
    var found := FindById(r, idOf, idOf(x));
    var i :| 0 <= i < |r| && r[i] == found.value && idOf(r[i]) == idOf(x);
    assert idOf(s[i]) == idOf(x);
  }

  /** After a delete, looking the id up finds nothing. */
  lemma FindAfterRemove<T>(s: seq<T>, idOf: T -> string, id: string)
    ensures FindById(RemoveById(s, idOf, id), idOf, id) == None
  {
    var r := RemoveById(s, idOf, id);
    forall i | 0 <= i < |r| ensures idOf(r[i]) != id {
      assert r[i] in r;
    }
  }

  /** The sum of `f` over the records of `s` (`reduce((sum, e) => sum + f(e), 0)`). */
  function Sum<T>(s: seq<T>, f: T -> int): int
  {
    if s == [] then 0 else f(s[0]) + Sum(s[1..], f)
  }

  /**
   * Splitting a list by a test `p` and its negation `q` splits its sum:
   * nothing is counted twice or lost.
   */
  lemma {:induction false} SumSplits<T>(s: seq<T>, f: T -> int, p: T -> bool, q: T -> bool)
    requires forall i :: 0 <= i < |s| ==> q(s[i]) == !p(s[i])
    ensures Sum(Filter(s, p), f) + Sum(Filter(s, q), f) == Sum(s, f)
  {
    if s != [] {
      SumSplits(s[1..], f, p, q);
      assert Filter(s, p) == (if p(s[0]) then [s[0]] else []) + Filter(s[1..], p);
      assert Filter(s, q) == (if q(s[0]) then [s[0]] else []) + Filter(s[1..], q);
      SumConcat((if p(s[0]) then [s[0]] else []), Filter(s[1..], p), f);
      SumConcat((if q(s[0]) then [s[0]] else []), Filter(s[1..], q), f);
    }
  }

  lemma {:induction false} SumConcat<T>(a: seq<T>, b: seq<T>, f: T -> int)
    ensures Sum(a + b, f) == Sum(a, f) + Sum(b, f)
  {
    if a == [] {
      assert a + b == b;
    } else {
      assert (a + b)[1..] == a[1..] + b;
      SumConcat(a[1..], b, f);
    }
  }
}
