/** The method classifier of `Unit.java` (`getStaticMethods`,
    `getInstanceMethods`): select the declared methods carrying one role
    annotation, check their static-ness and that no name is claimed twice
    across the classifications of one run, and order them by name. */
module Classifier {
  import opened Wrappers
  import opened Domains

  datatype Annotation = BeforeClass | AfterClass | Before | After | Test | Property

  /** A method as reflection reports it: its name, whether it is static, the
      role annotations on it and its parameters. Overloads share a name. */
  datatype MethodRecord = MethodRecord(
    name: string,
    isStatic: bool,
    annotations: set<Annotation>,
    parameters: seq<AnnotatedType>)

  /** Why a classification throws: an instance method where a static one is
      required, the reverse, or a name that was already claimed. */
  datatype ClassifyError = NotStatic(name: string) | IsStatic(name: string) | MoreThanOneAnnotation(name: string)

  // ---------------------------------------------------------------------------
  // Ordering by name

  /** `a.compareTo(b) <= 0`: character by character, a proper prefix first. */
  predicate NameLe(a: string, b: string)
  {
    if a == [] then true
    else if b == [] then false
    else if a[0] != b[0] then a[0] < b[0]
    else NameLe(a[1..], b[1..])
  }

  lemma {:induction false} NameLeTotal(a: string, b: string)
    ensures NameLe(a, b) || NameLe(b, a)
  {
    if a != [] && b != [] && a[0] == b[0] {
      NameLeTotal(a[1..], b[1..]);
    }
  }

  lemma {:induction false} NameLeTransitive(a: string, b: string, c: string)
    requires NameLe(a, b) && NameLe(b, c)
    ensures NameLe(a, c)
  {
    if a != [] && b != [] && c != [] && a[0] == b[0] && b[0] == c[0] {
      NameLeTransitive(a[1..], b[1..], c[1..]);
    }
  }

  predicate SortedByName(ms: seq<MethodRecord>)
  {
    forall i, j :: 0 <= i < j < |ms| ==> NameLe(ms[i].name, ms[j].name)
  }

  /** No two entries share a name. */
  predicate DistinctNames(ms: seq<MethodRecord>)
  {
    forall i, j :: 0 <= i < j < |ms| ==> ms[i].name != ms[j].name
  }

  /** Insert `m` after every method whose name is not greater than its own. */
  method InsertByName(sorted: seq<MethodRecord>, m: MethodRecord) returns (r: seq<MethodRecord>)
    requires SortedByName(sorted)
    ensures SortedByName(r)
    ensures multiset(r) == multiset(sorted) + multiset{m}
    ensures DistinctNames(sorted) && (forall x :: x in sorted ==> x.name != m.name) ==> DistinctNames(r)
  {
    var k := 0;
    while k < |sorted| && NameLe(sorted[k].name, m.name)
      invariant 0 <= k <= |sorted|
      invariant forall q :: 0 <= q < k ==> NameLe(sorted[q].name, m.name)
    {
      k := k + 1;
    }
    if k < |sorted| {
      NameLeTotal(sorted[k].name, m.name);
      forall q | k <= q < |sorted| ensures NameLe(m.name, sorted[q].name) {
        if q > k { NameLeTransitive(m.name, sorted[k].name, sorted[q].name); }
      }
    }
    r := sorted[..k] + [m] + sorted[k..];
    InsertKeepsOrder(sorted, m, k);
    assert sorted == sorted[..k] + sorted[k..];
    if DistinctNames(sorted) && (forall x :: x in sorted ==> x.name != m.name) {
      InsertKeepsDistinct(sorted, m, k);
    }
  }

  lemma InsertKeepsDistinct(sorted: seq<MethodRecord>, m: MethodRecord, k: int)
    requires DistinctNames(sorted) && 0 <= k <= |sorted|
    requires forall x :: x in sorted ==> x.name != m.name
    ensures DistinctNames(sorted[..k] + [m] + sorted[k..])
  {
    var r := sorted[..k] + [m] + sorted[k..];
    assert forall q :: 0 <= q < k ==> r[q] == sorted[q];
    assert forall q :: k < q < |r| ==> r[q] == sorted[q - 1];
    forall i, j | 0 <= i < j < |r| ensures r[i].name != r[j].name {
      if i == k { assert r[j] in sorted; }
      else if j == k { assert r[i] in sorted; }
    }
  }

  lemma AppendKeepsDistinct(ms: seq<MethodRecord>, m: MethodRecord)
    requires DistinctNames(ms) && m.name !in Names(ms)
    ensures DistinctNames(ms + [m])
  {
    var r := ms + [m];
    forall i, j | 0 <= i < j < |r| ensures r[i].name != r[j].name {
      if j == |ms| { assert r[i] in ms; }
    }
  }

  lemma InsertKeepsOrder(sorted: seq<MethodRecord>, m: MethodRecord, k: int)
    requires SortedByName(sorted) && 0 <= k <= |sorted|
    requires forall q :: 0 <= q < k ==> NameLe(sorted[q].name, m.name)
    requires forall q :: k <= q < |sorted| ==> NameLe(m.name, sorted[q].name)
    ensures SortedByName(sorted[..k] + [m] + sorted[k..])
  {
    var r := sorted[..k] + [m] + sorted[k..];
    assert forall q :: 0 <= q < k ==> r[q] == sorted[q];
    assert r[k] == m;
    assert forall q :: k < q < |r| ==> r[q] == sorted[q - 1];
    forall i, j | 0 <= i < j < |r| ensures NameLe(r[i].name, r[j].name) {
      if j < k {
        assert NameLe(sorted[i].name, sorted[j].name);
      } else if j == k {
        assert NameLe(sorted[i].name, m.name);
      } else if i < k {
        assert NameLe(sorted[i].name, sorted[j - 1].name);
      } else if i == k {
        assert NameLe(m.name, sorted[j - 1].name);
      } else {
        assert NameLe(sorted[i - 1].name, sorted[j - 1].name);
      }
    }
  }

  /** The `sort(Comparator.comparing(Method::getName))` of the classifiers. */
  method SortByName(ms: seq<MethodRecord>) returns (r: seq<MethodRecord>)
    ensures SortedByName(r)
    ensures multiset(r) == multiset(ms)
    ensures DistinctNames(ms) ==> DistinctNames(r)
  {
    r := [];
    var i := 0;
    while i < |ms|
      invariant 0 <= i <= |ms|
      invariant SortedByName(r)
      invariant multiset(r) == multiset(ms[..i])
      invariant DistinctNames(ms) ==> DistinctNames(r)
    {
      if DistinctNames(ms) {
        forall x | x in r ensures x.name != ms[i].name {
          assert x in multiset(ms[..i]);
          var q :| 0 <= q < i && ms[q] == x;
        }
      }
      r := InsertByName(r, ms[i]);
      assert ms[..i + 1] == ms[..i] + [ms[i]];
      i := i + 1;
    }
    assert ms[..i] == ms;
  }

  // ---------------------------------------------------------------------------
  // Selection

  /** The methods carrying `a`, in declaration order. */
  function Annotated(ms: seq<MethodRecord>, a: Annotation): seq<MethodRecord>
    decreases |ms|
  {
    if ms == [] then []
    else Annotated(ms[..|ms| - 1], a) + (if a in ms[|ms| - 1].annotations then [ms[|ms| - 1]] else [])
  }

  function Names(ms: seq<MethodRecord>): set<string>
  {
    set m | m in ms :: m.name
  }

  lemma NamesAppend(ms: seq<MethodRecord>, m: MethodRecord)
    ensures Names(ms + [m]) == Names(ms) + {m.name}
  {
    assert forall x :: x in ms + [m] <==> x in ms || x == m;
  }

  lemma AnnotatedStep(declared: seq<MethodRecord>, a: Annotation, i: nat)
    requires i < |declared|
    ensures Annotated(declared[..i + 1], a) ==
            Annotated(declared[..i], a) + (if a in declared[i].annotations then [declared[i]] else [])
  {
    assert declared[..i + 1][..i] == declared[..i];
  }

  lemma {:induction false} AnnotatedMember(ms: seq<MethodRecord>, a: Annotation, m: MethodRecord)
    ensures m in Annotated(ms, a) <==> m in ms && a in m.annotations
    decreases |ms|
  {
    if ms != [] {
      AnnotatedMember(ms[..|ms| - 1], a, m);
      assert ms == ms[..|ms| - 1] + [ms[|ms| - 1]];
    }
  }

  /** A name is claimed by a selection iff some method carrying the annotation has it. */
  lemma AnnotatedNames(ms: seq<MethodRecord>, a: Annotation, n: string)
    ensures n in Names(Annotated(ms, a)) <==>
            exists j :: 0 <= j < |ms| && a in ms[j].annotations && ms[j].name == n
  {
    if n in Names(Annotated(ms, a)) {
      var m :| m in Annotated(ms, a) && m.name == n;
      AnnotatedMember(ms, a, m);
      var j :| 0 <= j < |ms| && ms[j] == m;
    }
    if exists j :: 0 <= j < |ms| && a in ms[j].annotations && ms[j].name == n {
      var j :| 0 <= j < |ms| && a in ms[j].annotations && ms[j].name == n;
      AnnotatedMember(ms, a, ms[j]);
    }
  }

  /** Method `i` makes a classification for `annotation` throw: it carries the
      annotation and has the wrong static-ness, or its name is already seen
      (before the call, or from an earlier method carrying the annotation). */
  predicate Offends(declared: seq<MethodRecord>, annotation: Annotation, wantStatic: bool, seen: set<string>, i: int)
    requires 0 <= i < |declared|
  {
    annotation in declared[i].annotations &&
    (declared[i].isStatic != wantStatic ||
     declared[i].name in seen ||
     exists j :: 0 <= j < i && annotation in declared[j].annotations && declared[j].name == declared[i].name)
  }

  predicate Admissible(declared: seq<MethodRecord>, annotation: Annotation, wantStatic: bool, seen: set<string>)
  {
    forall i :: 0 <= i < |declared| ==> !Offends(declared, annotation, wantStatic, seen, i)
  }

  /** The exception an offending method raises: static-ness is checked first. */
  function ErrorFor(m: MethodRecord, wantStatic: bool): ClassifyError
  {
    if m.isStatic != wantStatic then (if wantStatic then NotStatic(m.name) else IsStatic(m.name))
    else MoreThanOneAnnotation(m.name)
  }

  /** Method `i` is the first to offend. */
  predicate FirstOffender(declared: seq<MethodRecord>, annotation: Annotation, wantStatic: bool, seen: set<string>, i: int)
  {
    0 <= i < |declared| && Offends(declared, annotation, wantStatic, seen, i) &&
    forall j :: 0 <= j < i ==> !Offends(declared, annotation, wantStatic, seen, j)
  }

  /** What the scan checks at method `i`: the seen set it keeps holds the names
      seen before the call plus those of the earlier methods carrying the annotation. */
  lemma OffendsAt(declared: seq<MethodRecord>, annotation: Annotation, wantStatic: bool, seen: set<string>, i: int)
    requires 0 <= i < |declared|
    ensures Offends(declared, annotation, wantStatic, seen, i) <==>
            annotation in declared[i].annotations &&
            (declared[i].isStatic != wantStatic ||
             declared[i].name in seen + Names(Annotated(declared[..i], annotation)))
  {
    var prefix := declared[..i];
    AnnotatedNames(prefix, annotation, declared[i].name);
    assert forall j :: 0 <= j < i ==> prefix[j] == declared[j];
  }

  /** A selection that passes the checks has no two methods sharing a name. */
  lemma {:induction false} AdmissibleDistinct(declared: seq<MethodRecord>, annotation: Annotation, wantStatic: bool, seen: set<string>)
    requires Admissible(declared, annotation, wantStatic, seen)
    ensures DistinctNames(Annotated(declared, annotation))
    decreases |declared|
  {
    if declared != [] {
      var n := |declared| - 1;
      var init := declared[..n];
      assert forall j :: 0 <= j < n ==> init[j] == declared[j];
      assert Admissible(init, annotation, wantStatic, seen) by {
        forall i | 0 <= i < n ensures !Offends(init, annotation, wantStatic, seen, i) {
          assert !Offends(declared, annotation, wantStatic, seen, i);
        }
      }
      AdmissibleDistinct(init, annotation, wantStatic, seen);
      if annotation in declared[n].annotations {
        OffendsAt(declared, annotation, wantStatic, seen, n);
        assert !Offends(declared, annotation, wantStatic, seen, n);
        AppendKeepsDistinct(Annotated(init, annotation), declared[n]);
      }
    }
  }

  /** `Unit.getStaticMethods` (`wantStatic`) and `Unit.getInstanceMethods`
      (`!wantStatic`). On success the result is the annotated methods sorted
      by name and their names are added to the seen set; otherwise the first
      offending method in declaration order decides the error. */
  method GetMethods(declared: seq<MethodRecord>, annotation: Annotation, wantStatic: bool, seen: set<string>)
    returns (r: Result<seq<MethodRecord>, ClassifyError>, seenOut: set<string>)
    ensures r.Success? <==> Admissible(declared, annotation, wantStatic, seen)
    ensures r.Success? ==> SortedByName(r.value) && DistinctNames(r.value)
    ensures r.Success? ==> multiset(r.value) == multiset(Annotated(declared, annotation))
    ensures r.Success? ==> seenOut == seen + Names(Annotated(declared, annotation))
    ensures r.Failure? ==> exists i :: FirstOffender(declared, annotation, wantStatic, seen, i) &&
                                       r.error == ErrorFor(declared[i], wantStatic)
  {
    var selected;
    selected, seenOut := Select(declared, annotation, wantStatic, seen);
    if selected.Failure? {
      return Failure(selected.error), seenOut;
    }
    AdmissibleDistinct(declared, annotation, wantStatic, seen);
    var sorted := SortByName(selected.value);
    r := Success(sorted);
  }

  /** The loop of `getStaticMethods` and `getInstanceMethods`: the annotated
      methods in declaration order, checked one after another. */
  method Select(declared: seq<MethodRecord>, annotation: Annotation, wantStatic: bool, seen: set<string>)
    returns (r: Result<seq<MethodRecord>, ClassifyError>, seenOut: set<string>)
    ensures r.Success? <==> Admissible(declared, annotation, wantStatic, seen)
    ensures r.Success? ==> r.value == Annotated(declared, annotation) && seenOut == seen + Names(r.value)
    ensures r.Failure? ==> exists i :: FirstOffender(declared, annotation, wantStatic, seen, i) &&
                                       r.error == ErrorFor(declared[i], wantStatic)
  {
    var selected: seq<MethodRecord> := [];
    seenOut := seen;
    var i := 0;
    while i < |declared|
      invariant 0 <= i <= |declared|
      invariant selected == Annotated(declared[..i], annotation)
      invariant seenOut == seen + Names(selected)
      invariant forall j :: 0 <= j < i ==> !Offends(declared, annotation, wantStatic, seen, j)
    {
      var error;
      error, selected, seenOut := Admit(declared, annotation, wantStatic, seen, i, selected, seenOut);
      if error.Some? {
        return Failure(error.value), seenOut;
      }
      i := i + 1;
    }
    assert declared[..i] == declared;
    r := Success(selected);
  }

  /** One step of the scan: method `i` is skipped, selected, or refused with
      the error of the first offender. */
  method Admit(declared: seq<MethodRecord>, annotation: Annotation, wantStatic: bool, seen: set<string>,
               i: nat, selected: seq<MethodRecord>, seenSoFar: set<string>)
    returns (error: Option<ClassifyError>, selectedOut: seq<MethodRecord>, seenOut: set<string>)
    requires i < |declared|
    requires selected == Annotated(declared[..i], annotation)
    requires seenSoFar == seen + Names(selected)
    requires forall j :: 0 <= j < i ==> !Offends(declared, annotation, wantStatic, seen, j)
    ensures error.Some? ==> FirstOffender(declared, annotation, wantStatic, seen, i) &&
                            error.value == ErrorFor(declared[i], wantStatic)
    ensures error.None? ==> !Offends(declared, annotation, wantStatic, seen, i) &&
                            selectedOut == Annotated(declared[..i + 1], annotation) &&
                            seenOut == seen + Names(selectedOut)
  {
    var m := declared[i];
    OffendsAt(declared, annotation, wantStatic, seen, i);
    selectedOut, seenOut := selected, seenSoFar;
    if annotation in m.annotations {
      if m.isStatic != wantStatic {
        return Some(if wantStatic then NotStatic(m.name) else IsStatic(m.name)), selectedOut, seenOut;
      }
      if m.name in seenOut {
        return Some(MoreThanOneAnnotation(m.name)), selectedOut, seenOut;
      }
      NamesAppend(selected, m);
      seenOut := seenOut + {m.name};
      selectedOut := selected + [m];
    }
    AnnotatedStep(declared, annotation, i);
    error := None;
  }


  // ---------------------------------------------------------------------------
  // The five classifications of one testClass run

  /** The classifications `testClass` makes, in this order, sharing one seen
      set: the role annotation and whether its methods must be static. */
  function Stage(k: nat): (Annotation, bool)
    requires k < 5
  {
    [(BeforeClass, true), (AfterClass, true), (Before, false), (After, false), (Test, false)][k]
  }

  /** The seen set when classification `k` starts, if the earlier ones succeeded. */
  function SeenBefore(declared: seq<MethodRecord>, k: nat): set<string>
    requires k <= 5
  {
    if k == 0 then {} else SeenBefore(declared, k - 1) + Names(Annotated(declared, Stage(k - 1).0))
  }

  /** All five classifications succeed. */
  predicate Classifiable(declared: seq<MethodRecord>)
  {
    forall k :: 0 <= k < 5 ==> Admissible(declared, Stage(k).0, Stage(k).1, SeenBefore(declared, k))
  }

  /** Every method carrying a lifecycle or test role has the static-ness that role requires. */
  predicate StaticnessRespected(declared: seq<MethodRecord>)
  {
    forall i, k :: 0 <= i < |declared| && 0 <= k < 5 && Stage(k).0 in declared[i].annotations ==>
      declared[i].isStatic == Stage(k).1
  }

  /** No name is carried by two (method, role) pairs among the five roles:
      neither by two methods with the same role nor by one method with two roles. */
  predicate RoleNamesUnique(declared: seq<MethodRecord>)
  {
    forall i, k, j, l ::
      0 <= i < |declared| && 0 <= j < |declared| && 0 <= k < 5 && 0 <= l < 5 && (i != j || k != l) &&
      Stage(k).0 in declared[i].annotations && Stage(l).0 in declared[j].annotations ==>
        declared[i].name != declared[j].name
  }

  lemma {:induction false} SeenBeforeMember(declared: seq<MethodRecord>, k: nat, n: string)
    requires k <= 5
    ensures n in SeenBefore(declared, k) <==>
            exists j, l :: 0 <= j < |declared| && 0 <= l < k &&
                           Stage(l).0 in declared[j].annotations && declared[j].name == n
  {
    if k > 0 {
      SeenBeforeMember(declared, k - 1, n);
      AnnotatedNames(declared, Stage(k - 1).0, n);
      if exists j, l :: 0 <= j < |declared| && 0 <= l < k &&
                        Stage(l).0 in declared[j].annotations && declared[j].name == n {
        var j, l :| 0 <= j < |declared| && 0 <= l < k &&
                    Stage(l).0 in declared[j].annotations && declared[j].name == n;
        if l == k - 1 {
          assert n in Names(Annotated(declared, Stage(k - 1).0));
        } else {
          assert n in SeenBefore(declared, k - 1);
        }
      }
    }
  }

  /** Two (method, role) pairs sharing a name make the later classification throw. */
  lemma SharedNameOffends(declared: seq<MethodRecord>, i: int, k: int, j: int, l: int)
    requires 0 <= i < |declared| && 0 <= j < |declared| && 0 <= k <= l < 5
    requires k < l || i < j
    requires Stage(k).0 in declared[i].annotations && Stage(l).0 in declared[j].annotations
    requires declared[i].name == declared[j].name
    ensures Offends(declared, Stage(l).0, Stage(l).1, SeenBefore(declared, l), j)
  {
    if k < l {
      SeenBeforeMember(declared, l, declared[j].name);
    }
  }

  /** The five classifications succeed iff every role's static-ness is respected
      and no name is claimed twice across the roles; so, for one, a method
      carrying both `@Before` and `@Test` makes the run fail. */
  lemma ClassifiableIff(declared: seq<MethodRecord>)
    ensures Classifiable(declared) <==> StaticnessRespected(declared) && RoleNamesUnique(declared)
  {
    if Classifiable(declared) {
      forall i, k | 0 <= i < |declared| && 0 <= k < 5 && Stage(k).0 in declared[i].annotations
        ensures declared[i].isStatic == Stage(k).1
      {
        assert !Offends(declared, Stage(k).0, Stage(k).1, SeenBefore(declared, k), i);
      }
      forall i, k, j, l |
        0 <= i < |declared| && 0 <= j < |declared| && 0 <= k < 5 && 0 <= l < 5 && (i != j || k != l) &&
        Stage(k).0 in declared[i].annotations && Stage(l).0 in declared[j].annotations
        ensures declared[i].name != declared[j].name
      {
        if declared[i].name == declared[j].name {
          if k < l || (k == l && i < j) {
            SharedNameOffends(declared, i, k, j, l);
          } else {
            SharedNameOffends(declared, j, l, i, k);
          }
        }
      }
    }
    if StaticnessRespected(declared) && RoleNamesUnique(declared) {
      forall k, i | 0 <= k < 5 && 0 <= i < |declared|
        ensures !Offends(declared, Stage(k).0, Stage(k).1, SeenBefore(declared, k), i)
      {
        SeenBeforeMember(declared, k, declared[i].name);
      }
    }
  }

  /** The clash the shared seen set produces: `@Before` and `@Test` on one method. */
  lemma BeforeAndTestClash(declared: seq<MethodRecord>, i: int)
    requires 0 <= i < |declared|
    requires Before in declared[i].annotations && Test in declared[i].annotations
    ensures !Classifiable(declared)
  {
    ClassifiableIff(declared);
    assert Stage(2).0 == Before && Stage(4).0 == Test;
  }
}
