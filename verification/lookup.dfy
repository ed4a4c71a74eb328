/**
 * The two list idioms the component's registry is built on, stated once for
 * any kind of cell:
 *
 *   - lookup by id, `list.stream().filter(x -> x.getId().equals(id)).findFirst()`;
 *   - removal by id, `list.removeIf(x -> x.getId().equals(id))`.
 *
 * In both, `x.getId().equals(id)` throws on an element whose id is null, and
 * is false for every element when the id sought is null. The stream is lazy,
 * so lookup stops at the first match and only throws on a null id it reaches
 * before one; `ArrayList.removeIf` tests every element before removing any,
 * so removal throws on any null id and then leaves the list as it was.
 */
module Lookup {
  import opened Wrappers

  /** `a.equals(id)` for a non-null `a`. */
  predicate Matches(a: string, id: Option<string>) {
    id == Some(a)
  }

  /** Whether a scan for `id` ends at element `x`: on a match, or by throwing
      on a null id. */
  predicate StopsAt<T>(x: T, idOf: T -> Option<string>, id: Option<string>) {
    idOf(x).None? || Matches(idOf(x).value, id)
  }

  /** No element of the list has a null id. */
  predicate NoNullIds<T>(xs: seq<T>, idOf: T -> Option<string>) {
    forall i :: 0 <= i < |xs| ==> idOf(xs[i]).Some?
  }

  /** Whether some element has the id sought. */
  predicate Contains<T>(xs: seq<T>, idOf: T -> Option<string>, id: Option<string>) {
    exists i :: 0 <= i < |xs| && idOf(xs[i]).Some? && Matches(idOf(xs[i]).value, id)
  }

  /** Lookup by id: the first element with the id, `null` (`Ok(None)`) when
      there is none, and a `NullPointerException` when the scan reaches an
      element with a null id first. */
  function FindFirst<T>(xs: seq<T>, idOf: T -> Option<string>, id: Option<string>): (r: Result<Option<T>>)
    ensures r == Ok(None) <==> forall i :: 0 <= i < |xs| ==> !StopsAt(xs[i], idOf, id)
    ensures r.Err? ==> r.error == NullPointer
    ensures r.Err? ==> exists k :: 0 <= k < |xs| && idOf(xs[k]).None?
                                   && forall j :: 0 <= j < k ==> !StopsAt(xs[j], idOf, id)
    ensures r.Ok? && r.value.Some? ==>
      exists k :: 0 <= k < |xs| && r.value.value == xs[k]
                  && idOf(xs[k]).Some? && Matches(idOf(xs[k]).value, id)
                  && forall j :: 0 <= j < k ==> !StopsAt(xs[j], idOf, id)
  {
    if |xs| == 0 then Ok(None)
    else if idOf(xs[0]).None? then Err(NullPointer)
    else if Matches(idOf(xs[0]).value, id) then Ok(Some(xs[0]))
    else
      var r := FindFirst(xs[1..], idOf, id);
      assert forall i :: 1 <= i < |xs| ==> xs[i] == xs[1..][i - 1];
      r
  }

  /** With no null ids, lookup never throws and finds something exactly when
      the list contains the id. */
  lemma FindFirstWithoutNullIds<T>(xs: seq<T>, idOf: T -> Option<string>, id: Option<string>)
    requires NoNullIds(xs, idOf)
    ensures FindFirst(xs, idOf, id).Ok?
    ensures FindFirst(xs, idOf, id).value.Some? <==> Contains(xs, idOf, id)
  {
  }

  /** Looking up the id of an element of the list never answers `null`: the
      scan stops at that element at the latest. */
  lemma FindFirstOfMember<T>(xs: seq<T>, idOf: T -> Option<string>, k: nat)
    requires k < |xs|
    ensures FindFirst(xs, idOf, idOf(xs[k])) != Ok(None)
  {
    assert StopsAt(xs[k], idOf, idOf(xs[k]));
  }

  /** The elements whose id is not the one sought, in their original order. */
  function Keep<T>(xs: seq<T>, idOf: T -> Option<string>, id: Option<string>): (r: seq<T>)
    requires NoNullIds(xs, idOf)
    ensures |r| <= |xs|
    ensures forall x :: x in r ==> x in xs && !Matches(idOf(x).value, id)
    ensures forall i :: 0 <= i < |xs| && !Matches(idOf(xs[i]).value, id) ==> xs[i] in r
    ensures |r| == |xs| <==> !Contains(xs, idOf, id)
    ensures !Contains(xs, idOf, id) ==> r == xs
  {
    if |xs| == 0 then []
    else
      var rest := Keep(xs[1..], idOf, id);
      assert forall i :: 1 <= i < |xs| ==> xs[i] == xs[1..][i - 1];
      assert Contains(xs, idOf, id) <==> Matches(idOf(xs[0]).value, id) || Contains(xs[1..], idOf, id) by {
        if Contains(xs[1..], idOf, id) {
          var i :| 0 <= i < |xs[1..]| && idOf(xs[1..][i]).Some? && Matches(idOf(xs[1..][i]).value, id);
          assert xs[i + 1] == xs[1..][i];
        }
      }
      if Matches(idOf(xs[0]).value, id) then rest else [xs[0]] + rest
  }

  /** Removal by id: throws when any element has a null id; otherwise drops
      every element with the id and reports whether any was dropped. */
  function RemoveWhere<T>(xs: seq<T>, idOf: T -> Option<string>, id: Option<string>): (r: Result<(seq<T>, bool)>)
    ensures r.Err? <==> !NoNullIds(xs, idOf)
    ensures r.Err? ==> r.error == NullPointer
    ensures r.Ok? ==> (r.value.1 <==> Contains(xs, idOf, id))
    ensures r.Ok? ==> forall x :: x in r.value.0 ==> x in xs && !Matches(idOf(x).value, id)
    ensures r.Ok? ==> forall i :: 0 <= i < |xs| && !Matches(idOf(xs[i]).value, id) ==> xs[i] in r.value.0
    ensures r.Ok? && !r.value.1 ==> r.value.0 == xs
    ensures r.Ok? ==> r.value.0 == Keep(xs, idOf, id)
  {
    if !NoNullIds(xs, idOf) then Err(NullPointer)
    else Ok((Keep(xs, idOf, id), Contains(xs, idOf, id)))
  }

  /** Removal from a one-element list: the element goes exactly when it has
      the id. */
  lemma KeepOne<T>(x: T, idOf: T -> Option<string>, id: Option<string>)
    requires idOf(x).Some?
    ensures NoNullIds([x], idOf)
    ensures Keep([x], idOf, id) == if Matches(idOf(x).value, id) then [] else [x]
  {
    assert [x][1..] == [];
  }

  /** Removal from a concatenation is the concatenation of the removals:
      with `KeepOne`, this says removal keeps the survivors in their
      original order. */
  lemma {:induction false} KeepDistributes<T>(a: seq<T>, b: seq<T>, idOf: T -> Option<string>, id: Option<string>)
    requires NoNullIds(a, idOf) && NoNullIds(b, idOf)
    ensures NoNullIds(a + b, idOf)
    ensures Keep(a + b, idOf, id) == Keep(a, idOf, id) + Keep(b, idOf, id)
  {
    NoNullIdsAppend(a, b, idOf);
    if |a| == 0 {
      assert a + b == b;
    } else {
      ConsAppend(a, b);
      KeepCons(a, idOf, id);
      KeepCons(a + b, idOf, id);
      KeepDistributes(a[1..], b, idOf, id);
      PrefixAppend(Keep(a + b, idOf, id), Keep(a, idOf, id),
                   if Matches(idOf(a[0]).value, id) then [] else [a[0]],
                   Keep(a[1..], idOf, id), Keep(b, idOf, id));
    }
  }

  /** Concatenating lists without null ids gives one without null ids. */
  lemma NoNullIdsAppend<T>(a: seq<T>, b: seq<T>, idOf: T -> Option<string>)
    requires NoNullIds(a, idOf) && NoNullIds(b, idOf)
    ensures NoNullIds(a + b, idOf)
  {
    assert forall i :: 0 <= i < |a + b| ==> (a + b)[i] == if i < |a| then a[i] else b[i - |a|];
  }

  /** Removal from a non-empty list: the head goes exactly when it has the
      id, and the rest is removal from the tail. */
  lemma KeepCons<T>(xs: seq<T>, idOf: T -> Option<string>, id: Option<string>)
    requires NoNullIds(xs, idOf) && |xs| > 0
    ensures NoNullIds(xs[1..], idOf)
    ensures Keep(xs, idOf, id) ==
      (if Matches(idOf(xs[0]).value, id) then [] else [xs[0]]) + Keep(xs[1..], idOf, id)
  {
    assert forall i :: 0 <= i < |xs[1..]| ==> xs[1..][i] == xs[i + 1];
  }

  /** Head and tail of a concatenation with a non-empty left part. */
  lemma ConsAppend<T>(a: seq<T>, b: seq<T>)
    requires |a| > 0
    ensures (a + b)[0] == a[0] && (a + b)[1..] == a[1..] + b
  {
  }

  /** Concatenation is associative. */
  lemma ConcatAssociates<T>(x: seq<T>, y: seq<T>, z: seq<T>)
    ensures x + (y + z) == (x + y) + z
  {
  }

  /** Cancelling a common prefix built up by concatenation. */
  lemma PrefixAppend<T>(whole: seq<T>, left: seq<T>, head: seq<T>, x: seq<T>, y: seq<T>)
    requires whole == head + (x + y) && left == head + x
    ensures whole == left + y
  {
  }

  /** After a removal nothing with the id is left to find. */
  lemma {:induction false} KeepLeavesNoMatch<T>(xs: seq<T>, idOf: T -> Option<string>, id: Option<string>)
    requires NoNullIds(xs, idOf)
    ensures NoNullIds(Keep(xs, idOf, id), idOf)
    ensures !Contains(Keep(xs, idOf, id), idOf, id)
  {
    var r := Keep(xs, idOf, id);
    forall i | 0 <= i < |r|
      ensures idOf(r[i]).Some? && !Matches(idOf(r[i]).value, id)
    {
      assert r[i] in r;
      var j :| 0 <= j < |xs| && xs[j] == r[i];
    }
  }

  /** No two elements share an id. */
  predicate UniqueIds<T>(xs: seq<T>, idOf: T -> Option<string>) {
    forall i, j :: 0 <= i < j < |xs| ==> idOf(xs[i]) != idOf(xs[j])
  }

  /** Lookup in a list grown at the end: unchanged when the old list
      already stopped the scan, otherwise decided by the new element. */
  lemma {:induction false} FindFirstSnoc<T>(xs: seq<T>, x: T, idOf: T -> Option<string>, id: Option<string>)
    ensures FindFirst(xs + [x], idOf, id) ==
      if FindFirst(xs, idOf, id) != Ok(None) then FindFirst(xs, idOf, id)
      else if idOf(x).None? then Err(NullPointer)
      else if Matches(idOf(x).value, id) then Ok(Some(x))
      else Ok(None)
  {
    if |xs| == 0 {
      assert xs + [x] == [x];
      assert [x][1..] == [];
    } else {
      assert (xs + [x])[0] == xs[0];
      assert (xs + [x])[1..] == xs[1..] + [x];
      FindFirstSnoc(xs[1..], x, idOf, id);
    }
  }

  /** Removal keeps ids unique. */
  lemma {:induction false} KeepKeepsUnique<T>(xs: seq<T>, idOf: T -> Option<string>, id: Option<string>)
    requires NoNullIds(xs, idOf) && UniqueIds(xs, idOf)
    ensures UniqueIds(Keep(xs, idOf, id), idOf)
  {
    if |xs| > 0 {
      var tail := xs[1..];
      assert NoNullIds(tail, idOf) && UniqueIds(tail, idOf) by {
        assert forall i :: 0 <= i < |tail| ==> tail[i] == xs[i + 1];
      }
      KeepKeepsUnique(tail, idOf, id);
      var rest := Keep(tail, idOf, id);
      forall y | y in rest
        ensures idOf(y) != idOf(xs[0])
      {
        var k :| 0 <= k < |tail| && tail[k] == y;
        assert xs[k + 1] == y;
      }
      var r := Keep(xs, idOf, id);
      if !Matches(idOf(xs[0]).value, id) {
        assert r == [xs[0]] + rest;
        forall i, j | 0 <= i < j < |r|
          ensures idOf(r[i]) != idOf(r[j])
        {
          assert r[j] == rest[j - 1];
          assert rest[j - 1] in rest;
          if i > 0 {
            assert r[i] == rest[i - 1];
          }
        }
      }
    }
  }

  /** Appending an element whose id the list does not hold keeps ids unique
      and non-null. */
  lemma AppendFreshKeepsUnique<T>(xs: seq<T>, x: T, idOf: T -> Option<string>)
    requires NoNullIds(xs, idOf) && UniqueIds(xs, idOf)
    requires idOf(x).Some? && FindFirst(xs, idOf, idOf(x)) == Ok(None)
    ensures NoNullIds(xs + [x], idOf) && UniqueIds(xs + [x], idOf)
  {
    var ys := xs + [x];
    forall i, j | 0 <= i < j < |ys|
      ensures idOf(ys[i]) != idOf(ys[j])
    {
      if j == |xs| {
        assert !StopsAt(xs[i], idOf, idOf(x));
      }
    }
  }
}
