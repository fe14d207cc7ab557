/** The positional cartesian product behind `Unit.magicMultiply`,
    `Unit.allParameterCombinations` and `Unit.allCombinationsOfListWithLength`.
    Everything here is generic in the type of the values being combined. */
module Combinator {

  /** `prefix` extended by each of `values`, in order. */
  function Row<T>(prefix: seq<T>, values: seq<T>): seq<seq<T>>
  {
    seq(|values|, j requires 0 <= j < |values| => prefix + [values[j]])
  }

  /** Every tuple of `tuples` (outer loop) extended by every one of `values`
      (inner loop): the step that `magicMultiply` takes on a non-empty list. */
  function Extend<T>(tuples: seq<seq<T>>, values: seq<T>): seq<seq<T>>
    decreases |tuples|
  {
    if tuples == [] then []
    else Extend(tuples[..|tuples| - 1], values) + Row(tuples[|tuples| - 1], values)
  }

  /** What `magicMultiply(values, results)` returns: an empty `results` is read
      as "no parameter yet", so the values come back as singleton tuples. */
  function Multiply<T>(values: seq<T>, results: seq<seq<T>>): seq<seq<T>>
  {
    if results == [] then Row([], values) else Extend(results, values)
  }

  /** The textbook cartesian product of `domains`, in nested order with the
      last domain innermost; the product of no domains is one empty tuple. */
  function Product<T>(domains: seq<seq<T>>): seq<seq<T>>
    decreases |domains|
  {
    if domains == [] then [[]]
    else Extend(Product(domains[..|domains| - 1]), domains[|domains| - 1])
  }

  /** The product of the sizes of `domains`. */
  function Card<T>(domains: seq<seq<T>>): nat
    decreases |domains|
  {
    if domains == [] then 1 else Card(domains[..|domains| - 1]) * |domains[|domains| - 1]|
  }

  /** What `allParameterCombinations` computes from the resolved domains:
      `Multiply` folded over them, starting from the empty list. */
  function Combine<T>(domains: seq<seq<T>>): seq<seq<T>>
    decreases |domains|
  {
    if domains == [] then []
    else Multiply(domains[|domains| - 1], Combine(domains[..|domains| - 1]))
  }

  /** One past the position of the last empty domain, or 0 when none is empty. */
  function RestartPoint<T>(domains: seq<seq<T>>): (k: nat)
    ensures k <= |domains|
    ensures forall i :: k <= i < |domains| ==> domains[i] != []
    ensures 0 < k ==> domains[k - 1] == []
    decreases |domains|
  {
    if domains == [] then 0
    else if domains[|domains| - 1] == [] then |domains|
    else RestartPoint(domains[..|domains| - 1])
  }

  /** `length` copies of the same element domain. */
  function Repeat<T>(elements: seq<T>, length: nat): seq<seq<T>>
  {
    seq(length, _ => elements)
  }

  /** All lists of exactly `length` values drawn from `elements`, in cartesian order. */
  function Words<T>(elements: seq<T>, length: nat): seq<seq<T>>
  {
    Product(Repeat(elements, length))
  }

  function Pow(base: nat, exponent: nat): nat
  {
    if exponent == 0 then 1 else Pow(base, exponent - 1) * base
  }

  // ---------------------------------------------------------------------------
  // Properties of one step

  lemma MulMonotone(a: nat, b: nat, v: nat)
    requires a <= b
    ensures a * v <= b * v
  {
  }

  lemma {:induction false} ExtendLength<T>(tuples: seq<seq<T>>, values: seq<T>)
    ensures |Extend(tuples, values)| == |tuples| * |values|
    decreases |tuples|
  {
    if tuples != [] {
      var n, v := |tuples|, |values|;
      ExtendLength(tuples[..n - 1], values);
      assert (n - 1) * v + v == n * v;
    }
  }

  /** Position `i * |values| + j` of the step holds tuple `i` extended by value
      `j`: the existing tuple is the outer loop, so the new position varies fastest. */
  lemma {:induction false} ExtendAt<T>(tuples: seq<seq<T>>, values: seq<T>, i: int, j: int)
    requires 0 <= i < |tuples| && 0 <= j < |values|
    ensures |Extend(tuples, values)| == |tuples| * |values|
    ensures 0 <= i * |values| + j < |tuples| * |values|
    ensures Extend(tuples, values)[i * |values| + j] == tuples[i] + [values[j]]
    decreases |tuples|
  {
    var n, v := |tuples|, |values|;
    var init := tuples[..n - 1];
    ExtendLength(tuples, values);
    ExtendLength(init, values);
    MulMonotone(i, n - 1, v);
    assert (n - 1) * v + v == n * v;
    if i < n - 1 {
      MulMonotone(i + 1, n - 1, v);
      assert i * v + v == (i + 1) * v;
      ExtendAt(init, values, i, j);
    } else {
      assert Extend(tuples, values)[i * v + j] == Row(tuples[n - 1], values)[j];
    }
  }

  /** A tuple is produced by the step iff it is some existing tuple extended by some value. */
  lemma {:induction false} ExtendMember<T>(tuples: seq<seq<T>>, values: seq<T>, t: seq<T>)
    ensures t in Extend(tuples, values) <==>
            exists p, v :: p in tuples && v in values && t == p + [v]
    decreases |tuples|
  {
    if tuples != [] {
      var n := |tuples|;
      var init, last := tuples[..n - 1], tuples[n - 1];
      assert tuples == init + [last];
      ExtendMember(init, values, t);
      if t in Extend(tuples, values) {
        if t in Row(last, values) {
          var j :| 0 <= j < |values| && Row(last, values)[j] == t;
          assert last in tuples && values[j] in values && t == last + [values[j]];
        } else {
          assert t in Extend(init, values);
          var p, v :| p in init && v in values && t == p + [v];
          assert p in tuples;
        }
      }
      if exists p, v :: p in tuples && v in values && t == p + [v] {
        var p, v :| p in tuples && v in values && t == p + [v];
        if p == last {
          var j :| 0 <= j < |values| && values[j] == v;
          assert Row(last, values)[j] == t;
        } else {
          assert p in init;
          assert t in Extend(init, values);
        }
      }
    }
  }

  // ---------------------------------------------------------------------------
  // Properties of the full product

  lemma {:induction false} ProductSize<T>(domains: seq<seq<T>>)
    ensures |Product(domains)| == Card(domains)
    decreases |domains|
  {
    if domains != [] {
      var n := |domains|;
      ProductSize(domains[..n - 1]);
      ExtendLength(Product(domains[..n - 1]), domains[n - 1]);
    }
  }

  /** The tuples with one position per domain, each drawn from its domain. */
  ghost predicate Drawn<T>(domains: seq<seq<T>>, t: seq<T>)
  {
    |t| == |domains| && forall i :: 0 <= i < |domains| ==> t[i] in domains[i]
  }

  /** Every tuple of the product has one position per domain, drawn from that domain. */
  lemma {:induction false} ProductSound<T>(domains: seq<seq<T>>, t: seq<T>)
    requires t in Product(domains)
    ensures Drawn(domains, t)
    decreases |domains|
  {
    if domains != [] {
      var n := |domains|;
      var init, d := domains[..n - 1], domains[n - 1];
      ExtendMember(Product(init), d, t);
      var p, v :| p in Product(init) && v in d && t == p + [v];
      ProductSound(init, p);
      forall i | 0 <= i < n ensures t[i] in domains[i] {
        if i < n - 1 { assert t[i] == p[i] && domains[i] == init[i]; }
      }
    }
  }

  /** Every tuple with one position per domain, drawn from that domain, is in the product. */
  lemma {:induction false} ProductComplete<T>(domains: seq<seq<T>>, t: seq<T>)
    requires Drawn(domains, t)
    ensures t in Product(domains)
    decreases |domains|
  {
    if domains == [] {
      assert t == [];
    } else {
      var n := |domains|;
      var init, d := domains[..n - 1], domains[n - 1];
      var p := t[..n - 1];
      forall i | 0 <= i < n - 1 ensures p[i] in init[i] {
        assert p[i] == t[i] && init[i] == domains[i];
      }
      ProductComplete(init, p);
      assert t[n - 1] in d && t == p + [t[n - 1]];
      ExtendMember(Product(init), d, t);
    }
  }

  /** The product holds exactly the tuples with one position per domain, each drawn from its domain. */
  lemma ProductMember<T>(domains: seq<seq<T>>, t: seq<T>)
    ensures t in Product(domains) <==> Drawn(domains, t)
  {
    if t in Product(domains) { ProductSound(domains, t); }
    if Drawn(domains, t) { ProductComplete(domains, t); }
  }

  lemma {:induction false} CardZero<T>(domains: seq<seq<T>>)
    ensures Card(domains) == 0 <==> exists i :: 0 <= i < |domains| && domains[i] == []
    decreases |domains|
  {
    if domains != [] {
      var n := |domains|;
      var init := domains[..n - 1];
      CardZero(init);
      if exists i :: 0 <= i < n - 1 && init[i] == [] {
        var i :| 0 <= i < n - 1 && init[i] == [];
        assert domains[i] == [];
      }
      if exists i :: 0 <= i < n && domains[i] == [] {
        var i :| 0 <= i < n && domains[i] == [];
        if i < n - 1 { assert init[i] == []; }
      }
    }
  }

  /** The product is empty exactly when one of the domains is empty. */
  lemma ProductEmpty<T>(domains: seq<seq<T>>)
    ensures Product(domains) == [] <==> exists i :: 0 <= i < |domains| && domains[i] == []
  {
    ProductSize(domains);
    CardZero(domains);
  }

  // ---------------------------------------------------------------------------
  // The fold that allParameterCombinations performs

  /** A step over an empty domain yields nothing, whatever came before. */
  lemma MultiplyByEmpty<T>(results: seq<seq<T>>)
    ensures Multiply([], results) == []
  {
    ExtendLength(results, []);
  }

  /** A step over a non-empty domain `d` turns the product of `ds` into the product of `ds + [d]`. */
  lemma MultiplyProduct<T>(ds: seq<seq<T>>, d: seq<T>)
    requires forall i :: 0 <= i < |ds| ==> ds[i] != []
    ensures Multiply(d, if ds == [] then [] else Product(ds)) == Product(ds + [d])
  {
    var all := ds + [d];
    assert all[..|all| - 1] == ds && all[|all| - 1] == d;
    if ds == [] {
      assert Extend([[]], d) == Row([], d);
    } else {
      ProductEmpty(ds);
    }
  }

  /** The fold restarts at every empty domain: it yields the product of the
      domains after the last empty one, and nothing when that suffix is empty
      (in particular for zero domains, or when the last domain is empty). */
  lemma {:induction false} CombineRestarts<T>(domains: seq<seq<T>>)
    ensures var k := RestartPoint(domains);
            Combine(domains) == if k == |domains| then [] else Product(domains[k..])
    decreases |domains|
  {
    if domains != [] {
      var n := |domains|;
      var init, d := domains[..n - 1], domains[n - 1];
      assert domains == init + [d];
      CombineRestarts(init);
      if d == [] {
        MultiplyByEmpty(Combine(init));
      } else {
        RestartStep(init, d);
      }
    }
  }

  /** The inductive step of `CombineRestarts` over a non-empty last domain. */
  lemma RestartStep<T>(init: seq<seq<T>>, d: seq<T>)
    requires d != []
    requires var k := RestartPoint(init);
             Combine(init) == if k == |init| then [] else Product(init[k..])
    ensures var k := RestartPoint(init + [d]);
            k == RestartPoint(init) < |init + [d]| &&
            Combine(init + [d]) == Product((init + [d])[k..])
  {
    var domains := init + [d];
    assert domains[..|domains| - 1] == init && domains[|domains| - 1] == d;
    var k := RestartPoint(init);
    assert RestartPoint(domains) == k;
    assert Combine(domains) == Multiply(d, Combine(init));
    var ds := init[k..];
    AfterRestartNonEmpty(init);
    assert Combine(init) == if ds == [] then [] else Product(ds);
    MultiplyProduct(ds, d);
    SuffixAppend(init, d, k);
  }

  /** The domains after the restart point are all non-empty. */
  lemma AfterRestartNonEmpty<T>(domains: seq<seq<T>>)
    ensures var ds := domains[RestartPoint(domains)..];
            forall i :: 0 <= i < |ds| ==> ds[i] != []
  {
    var k := RestartPoint(domains);
    var ds := domains[k..];
    forall i | 0 <= i < |ds| ensures ds[i] != [] {
      assert ds[i] == domains[k + i];
    }
  }

  lemma SuffixAppend<T>(s: seq<T>, x: T, k: nat)
    requires k <= |s|
    ensures (s + [x])[k..] == s[k..] + [x]
  {
  }

  /** When every domain is non-empty and there is at least one, the fold is the cartesian product. */
  lemma CombineIsProduct<T>(domains: seq<seq<T>>)
    requires |domains| > 0
    requires forall i :: 0 <= i < |domains| ==> domains[i] != []
    ensures Combine(domains) == Product(domains)
  {
    CombineRestarts(domains);
    var k := RestartPoint(domains);
    assert k == 0;
    assert domains[0..] == domains;
  }

  // ---------------------------------------------------------------------------
  // Fixed-length lists

  lemma {:induction false} CardRepeat<T>(elements: seq<T>, length: nat)
    ensures Card(Repeat(elements, length)) == Pow(|elements|, length)
    decreases length
  {
    if length > 0 {
      assert Repeat(elements, length)[..length - 1] == Repeat(elements, length - 1);
      CardRepeat(elements, length - 1);
    }
  }

  /** There are |elements|^length lists of that length. */
  lemma WordsSize<T>(elements: seq<T>, length: nat)
    ensures |Words(elements, length)| == Pow(|elements|, length)
  {
    ProductSize(Repeat(elements, length));
    CardRepeat(elements, length);
  }

  /** A list is enumerated iff it has the right length and every entry is one of `elements`. */
  lemma WordsMember<T>(elements: seq<T>, length: nat, t: seq<T>)
    ensures t in Words(elements, length) <==>
            |t| == length && forall i :: 0 <= i < |t| ==> t[i] in elements
  {
    ProductMember(Repeat(elements, length), t);
  }

  /** No list of positive length exists over an empty element domain, and some always does otherwise. */
  lemma WordsEmpty<T>(elements: seq<T>, length: nat)
    ensures Words(elements, length) == [] <==> length > 0 && elements == []
  {
    var r := Repeat(elements, length);
    ProductEmpty(r);
    if length > 0 { assert r[0] == elements; }
  }

  /** One `magicMultiply` step turns the length-`i` lists into the length-`i + 1`
      ones, where the length-0 stage is the empty list of lists. */
  lemma MultiplyWords<T>(elements: seq<T>, i: nat)
    ensures Multiply(elements, if i == 0 then [] else Words(elements, i)) == Words(elements, i + 1)
  {
    var r := Repeat(elements, i + 1);
    assert r[..i] == Repeat(elements, i);
    assert Words(elements, i + 1) == Extend(Product(Repeat(elements, i)), elements);
    if i == 0 {
      assert Repeat(elements, 0) == [];
      assert Extend([[]], elements) == Row([], elements);
    } else if Words(elements, i) == [] {
      WordsEmpty(elements, i);
    }
  }

  /** `magicMultiply` on an empty list gives one singleton per value, in value order. */
  lemma MultiplyStarts<T>(values: seq<T>)
    ensures |Multiply(values, [])| == |values|
    ensures forall j :: 0 <= j < |values| ==> Multiply(values, [])[j] == [values[j]]
  {
  }

  /** On a non-empty list, tuple `i` extended by value `j` sits at
      `i * |values| + j`: tuples in the outer loop, values in the inner one. */
  lemma MultiplyExtends<T>(values: seq<T>, results: seq<seq<T>>, i: int, j: int)
    requires results != [] && 0 <= i < |results| && 0 <= j < |values|
    ensures |Multiply(values, results)| == |results| * |values|
    ensures 0 <= i * |values| + j < |Multiply(values, results)|
    ensures Multiply(values, results)[i * |values| + j] == results[i] + [values[j]]
  {
    assert Multiply(values, results) == Extend(results, values);
    ExtendAt(results, values, i, j);
  }

  // ---------------------------------------------------------------------------
  // The loops of the source

  /** `Unit.magicMultiply`. */
  method MagicMultiply<T>(values: seq<T>, results: seq<seq<T>>) returns (r: seq<seq<T>>)
    ensures r == Multiply(values, results)
  {
    r := [];
    if results == [] {
      var j := 0;
      while j < |values|
        invariant 0 <= j <= |values|
        invariant r == Row([], values)[..j]
      {
        assert [] + [values[j]] == [values[j]];
        r := r + [[values[j]]];
        j := j + 1;
      }
      return;
    }
    var i := 0;
    while i < |results|
      invariant 0 <= i <= |results|
      invariant r == Extend(results[..i], values)
    {
      var j := 0;
      while j < |values|
        invariant 0 <= j <= |values|
        invariant r == Extend(results[..i], values) + Row(results[i], values)[..j]
      {
        r := r + [results[i] + [values[j]]];
        j := j + 1;
      }
      assert results[..i + 1][..i] == results[..i];
      i := i + 1;
    }
    assert results[..i] == results;
  }

  /** `Unit.allCombinationsOfListWithLength`: the empty list for a length of
      zero or less, otherwise every list of that length over `elements`
      (none at all when `elements` is empty). */
  method AllCombinationsOfLength<T>(elements: seq<T>, length: int) returns (r: seq<seq<T>>)
    ensures r == if length <= 0 then [] else Words(elements, length)
  {
    if length == 0 {
      return [];
    }
    r := [];
    var i := 0;
    while i < length
      invariant 0 <= i && (length > 0 ==> i <= length) && (length <= 0 ==> i == 0)
      invariant r == if i == 0 then [] else Words(elements, i)
    {
      MultiplyWords(elements, i);
      r := MagicMultiply(elements, r);
      i := i + 1;
    }
  }
}
