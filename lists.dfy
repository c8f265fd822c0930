/** `Array.prototype.filter` and the remove-by-id updates built on it. */
module Lists {

  /** `xs.filter(keep)`: the elements that pass, in their original order. */
  function Filter<T(!new)>(xs: seq<T>, keep: T -> bool): (r: seq<T>)
    ensures |r| <= |xs|
    ensures forall x :: x in r <==> x in xs && keep(x)
  {
    if |xs| == 0 then []
    else if keep(xs[0]) then [xs[0]] + Filter(xs[1..], keep)
    else Filter(xs[1..], keep)
  }

  /** Filtering a concatenation filters each part: the kept elements stay in order. */
  lemma {:induction false} FilterAppend<T(!new)>(xs: seq<T>, ys: seq<T>, keep: T -> bool)
    ensures Filter(xs + ys, keep) == Filter(xs, keep) + Filter(ys, keep)
  {
    if |xs| == 0 {
      assert xs + ys == ys;
    } else {
      var zs := xs + ys;
      assert zs[0] == xs[0] && zs[1..] == xs[1..] + ys;
      FilterAppend(xs[1..], ys, keep);
      if keep(xs[0]) {
        calc {
          Filter(zs, keep);
          [xs[0]] + Filter(xs[1..] + ys, keep);
          [xs[0]] + (Filter(xs[1..], keep) + Filter(ys, keep));
          ([xs[0]] + Filter(xs[1..], keep)) + Filter(ys, keep);
        }
      } else {
        calc {
          Filter(zs, keep);
          Filter(xs[1..] + ys, keep);
          Filter(xs[1..], keep) + Filter(ys, keep);
        }
      }
    }
  }

  /** A filter that every element passes changes nothing. */
  lemma {:induction false} FilterAllKept<T(!new)>(xs: seq<T>, keep: T -> bool)
    requires forall i :: 0 <= i < |xs| ==> keep(xs[i])
    ensures Filter(xs, keep) == xs
  {
    if |xs| > 0 {
      FilterAllKept(xs[1..], keep);
    }
  }

  /** `xs.filter(x => key(x) !== id)`: every element whose key is `id` is dropped, the rest keep their order. */
  function RemoveKey<T(!new)>(xs: seq<T>, key: T -> string, id: string): (r: seq<T>)
    ensures |r| <= |xs|
    ensures forall x :: x in r <==> x in xs && key(x) != id
  {
    Filter(xs, x => key(x) != id)
  }

  /** Removing a key no element has changes nothing. */
  lemma RemoveKeyAbsent<T(!new)>(xs: seq<T>, key: T -> string, id: string)
    requires forall i :: 0 <= i < |xs| ==> key(xs[i]) != id
    ensures RemoveKey(xs, key, id) == xs
  {
    FilterAllKept(xs, x => key(x) != id);
  }

  /** Removing by key distributes over concatenation, so the survivors keep their relative order. */
  lemma RemoveKeyAppend<T(!new)>(xs: seq<T>, ys: seq<T>, key: T -> string, id: string)
    ensures RemoveKey(xs + ys, key, id) == RemoveKey(xs, key, id) + RemoveKey(ys, key, id)
  {
    FilterAppend(xs, ys, x => key(x) != id);
  }

  /** Removing the key of an element just put in front, when no other element has it, gives back the list. */
  lemma RemoveKeyUndoesPrepend<T(!new)>(x: T, xs: seq<T>, key: T -> string)
    requires forall i :: 0 <= i < |xs| ==> key(xs[i]) != key(x)
    ensures RemoveKey([x] + xs, key, key(x)) == xs
  {
    assert ([x] + xs)[1..] == xs;
    RemoveKeyAbsent(xs, key, key(x));
  }
}
