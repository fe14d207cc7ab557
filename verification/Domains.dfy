/** The domain resolver of `Unit.java`: the values a property parameter ranges
    over, read off the markers on the parameter and, for lists, on its element
    type, and the combinations of all parameters of one property. */
module Domains {
  import opened Wrappers
  import opened Combinator

  /** A value handed to a property: the boxed integers, strings and lists the
      resolver builds, or whatever a generator returns. */
  datatype Value = IntValue(i: int) | StrValue(s: string) | ListValue(items: seq<Value>)

  /** `@IntRange(min, max)`, `@ListLength(min, max)` and `@ForAll(name, times)`. */
  datatype IntRange = IntRange(min: int, max: int)
  datatype ListLength = ListLength(min: int, max: int)
  datatype ForAll = ForAll(name: string, times: int)

  /** The domain markers present on one parameter or type use; `stringSet`
      holds the strings of `@StringSet`. Several may be present at once: the
      dispatch takes the first in its own order. */
  datatype Markers = Markers(
    intRange: Option<IntRange>,
    stringSet: Option<seq<string>>,
    listLength: Option<ListLength>,
    forAll: Option<ForAll>)

  /** An annotated type: its markers and, when it is a parameterized type such
      as `List<@IntRange(...) Integer>`, its annotated type arguments. A
      parameter is described by its annotated type. */
  datatype AnnotatedType = AnnotatedType(markers: Markers, arguments: TypeArguments)
  datatype TypeArguments = NotParameterized | Parameterized(args: seq<AnnotatedType>)

  /** Why a domain could not be built (every one of them aborts the run). */
  datatype ResolveError =
    | NoMarkers
    | NotParameterizedType
    | TypeArgumentCount(count: nat)
    | GeneratorMissing(name: string)
    | GeneratorFailed(name: string)

  /** Generators by name: the values successive calls of a generator return;
      a call past the end of its sequence throws. */
  type Generators = map<string, seq<Value>>

  // ---------------------------------------------------------------------------
  // Specification functions

  /** The integers `min..max` inclusive, in increasing order (none when min > max). */
  function Range(min: int, max: int): (r: seq<Value>)
    ensures |r| == if min <= max then max - min + 1 else 0
    ensures forall k :: 0 <= k < |r| ==> r[k] == IntValue(min + k)
    decreases max - min
  {
    if max < min then [] else Range(min, max - 1) + [IntValue(max)]
  }

  /** The strings of a `@StringSet`, in declared order. */
  function StringValues(strings: seq<string>): seq<Value>
  {
    seq(|strings|, k requires 0 <= k < |strings| => StrValue(strings[k]))
  }

  function Lists(tuples: seq<seq<Value>>): seq<Value>
  {
    seq(|tuples|, k requires 0 <= k < |tuples| => ListValue(tuples[k]))
  }

  /** The lists one length `L` contributes: one empty list when `L <= 0` or the
      element domain is empty, otherwise every length-`L` list over it. */
  function LengthBlock(elements: seq<Value>, length: int): seq<Value>
  {
    if length <= 0 || elements == [] then [ListValue([])] else Lists(Words(elements, length))
  }

  /** The blocks of the lengths `min..max`, shortest first. */
  function ListDomain(min: int, max: int, elements: seq<Value>): seq<Value>
    decreases max - min
  {
    if max < min then [] else ListDomain(min, max - 1, elements) + LengthBlock(elements, max)
  }

  /** `times` calls of the named generator, or the error they raise. */
  function ForAllValues(f: ForAll, generators: Generators): (r: Result<seq<Value>, ResolveError>)
    ensures r.Success? <==> f.name in generators && f.times <= |generators[f.name]|
    ensures r.Success? ==> (|r.value| == (if f.times < 0 then 0 else f.times) &&
                            r.value <= generators[f.name])
  {
    if f.name !in generators then Failure(GeneratorMissing(f.name))
    else if f.times > |generators[f.name]| then Failure(GeneratorFailed(f.name))
    else Success(generators[f.name][..if f.times < 0 then 0 else f.times])
  }

  /** The domain of a `@ListLength` whose annotated type is `t`. */
  function ListValues(m: ListLength, t: AnnotatedType, generators: Generators): Result<seq<Value>, ResolveError>
    decreases t, 1
  {
    match ElementDomain(t, generators)
    case Failure(e) => Failure(e)
    case Success(elements) => Success(ListDomain(m.min, m.max, elements))
  }

  /** The domain of the single type argument of `t`: first match in the order
      ListLength, IntRange, StringSet, ForAll. */
  function ElementDomain(t: AnnotatedType, generators: Generators): Result<seq<Value>, ResolveError>
    decreases t, 0
  {
    match t.arguments
    case NotParameterized => Failure(NotParameterizedType)
    case Parameterized(args) =>
      if |args| != 1 then Failure(TypeArgumentCount(|args|))
      else
        var arg := args[0];
        var m := arg.markers;
        if m.listLength.Some? then ListValues(m.listLength.value, arg, generators)
        else if m.intRange.Some? then Success(Range(m.intRange.value.min, m.intRange.value.max))
        else if m.stringSet.Some? then Success(StringValues(m.stringSet.value))
        else if m.forAll.Some? then ForAllValues(m.forAll.value, generators)
        else Failure(NoMarkers)
  }

  /** The domain of a parameter: first match in the order IntRange, StringSet,
      ListLength, ForAll. */
  function ParameterDomain(p: AnnotatedType, generators: Generators): Result<seq<Value>, ResolveError>
  {
    var m := p.markers;
    if m.intRange.Some? then Success(Range(m.intRange.value.min, m.intRange.value.max))
    else if m.stringSet.Some? then Success(StringValues(m.stringSet.value))
    else if m.listLength.Some? then ListValues(m.listLength.value, p, generators)
    else if m.forAll.Some? then ForAllValues(m.forAll.value, generators)
    else Failure(NoMarkers)
  }

  /** The domains of all parameters, or the error of the first that fails. */
  function Domains(params: seq<AnnotatedType>, generators: Generators): Result<seq<seq<Value>>, ResolveError>
    decreases |params|
  {
    if params == [] then Success([])
    else
      match Domains(params[..|params| - 1], generators)
      case Failure(e) => Failure(e)
      case Success(ds) =>
        match ParameterDomain(params[|params| - 1], generators)
        case Failure(e) => Failure(e)
        case Success(d) => Success(ds + [d])
  }

  /** The argument lists `allParameterCombinations` hands to a property. */
  function Combinations(params: seq<AnnotatedType>, generators: Generators): Result<seq<seq<Value>>, ResolveError>
  {
    match Domains(params, generators)
    case Failure(e) => Failure(e)
    case Success(ds) => Success(Combine(ds))
  }

  // ---------------------------------------------------------------------------
  // Properties of the domains

  /** The domains resolve iff every parameter resolves, one domain per parameter, in order. */
  lemma {:induction false} DomainsResolve(params: seq<AnnotatedType>, generators: Generators)
    ensures Domains(params, generators).Success? <==>
            forall i :: 0 <= i < |params| ==> ParameterDomain(params[i], generators).Success?
    ensures Domains(params, generators).Success? ==>
            |Domains(params, generators).value| == |params| &&
            forall i :: 0 <= i < |params| ==>
              Domains(params, generators).value[i] == ParameterDomain(params[i], generators).value
    decreases |params|
  {
    if params != [] {
      var n := |params|;
      var init := params[..n - 1];
      DomainsResolve(init, generators);
      forall i | 0 <= i < n - 1 ensures init[i] == params[i] { }
    }
  }

  /** When every parameter has a non-empty domain, the combinations are the
      cartesian product of the domains in parameter order; with no parameters
      there are none at all. */
  lemma CombinationsAreProduct(params: seq<AnnotatedType>, generators: Generators)
    requires Domains(params, generators).Success?
    requires forall i :: 0 <= i < |Domains(params, generators).value| ==> Domains(params, generators).value[i] != []
    ensures Combinations(params, generators) ==
            Success(if params == [] then [] else Product(Domains(params, generators).value))
  {
    DomainsResolve(params, generators);
    if params != [] {
      CombineIsProduct(Domains(params, generators).value);
    }
  }

  /** Every list a `@ListLength(min, max)` yields is either empty or has a
      length in `max(min, 1)..max` with every entry from the element domain. */
  lemma {:induction false} ListDomainSound(min: int, max: int, elements: seq<Value>, v: Value)
    requires v in ListDomain(min, max, elements)
    ensures v.ListValue?
    ensures v.items == [] || (min <= |v.items| <= max && forall x :: x in v.items ==> x in elements)
    decreases max - min
  {
    if v !in ListDomain(min, max - 1, elements) {
      assert v in LengthBlock(elements, max);
      if max > 0 && elements != [] {
        var k :| 0 <= k < |Words(elements, max)| && v == ListValue(Words(elements, max)[k]);
        WordsMember(elements, max, v.items);
      }
    } else {
      ListDomainSound(min, max - 1, elements, v);
    }
  }

  /** Every list of a length in `min..max` over a non-empty element domain is yielded. */
  lemma {:induction false} ListDomainComplete(min: int, max: int, elements: seq<Value>, items: seq<Value>)
    requires elements != []
    requires min <= |items| <= max
    requires forall x :: x in items ==> x in elements
    ensures ListValue(items) in ListDomain(min, max, elements)
    decreases max - min
  {
    assert ListDomain(min, max, elements) == ListDomain(min, max - 1, elements) + LengthBlock(elements, max);
    if |items| == max {
      if max > 0 {
        WordsMember(elements, max, items);
        var k :| 0 <= k < |Words(elements, max)| && Words(elements, max)[k] == items;
        assert Lists(Words(elements, max))[k] == ListValue(items);
        assert ListValue(items) in LengthBlock(elements, max);
      } else {
        assert items == [];
        assert LengthBlock(elements, max) == [ListValue(items)];
      }
    } else {
      ListDomainComplete(min, max - 1, elements, items);
    }
  }

  /** With a non-empty element domain and `0 <= min`, the empty list appears
      exactly once when the range includes length 0, and not at all otherwise. */
  lemma {:induction false} ListDomainEmptyCount(min: int, max: int, elements: seq<Value>)
    requires elements != [] && 0 <= min
    ensures multiset(ListDomain(min, max, elements))[ListValue([])] ==
            if min == 0 <= max then 1 else 0
    decreases max - min
  {
    if min <= max {
      ListDomainEmptyCount(min, max - 1, elements);
      var block := LengthBlock(elements, max);
      if max > 0 {
        if ListValue([]) in block {
          var k :| 0 <= k < |Words(elements, max)| && Lists(Words(elements, max))[k] == ListValue([]);
          WordsMember(elements, max, Words(elements, max)[k]);
        }
        assert multiset(block)[ListValue([])] == 0;
      }
      assert ListDomain(min, max, elements) == ListDomain(min, max - 1, elements) + block;
    }
  }

  /** Over an empty element domain every length, positive or not, contributes
      one empty list. */
  lemma {:induction false} ListDomainOfNothing(min: int, max: int)
    ensures ListDomain(min, max, []) == seq(if min <= max then max - min + 1 else 0, _ => ListValue([]))
    decreases max - min
  {
    if min <= max {
      ListDomainOfNothing(min, max - 1);
    }
  }

  /** The first-match orders differ: a parameter that carries both `@IntRange`
      and `@ListLength` ranges over integers, while a type argument that carries
      both ranges over lists. */
  lemma DispatchOrders(r: IntRange, l: ListLength, inner: AnnotatedType, generators: Generators)
    ensures var p := AnnotatedType(Markers(Some(r), None, Some(l), None), Parameterized([inner]));
            ParameterDomain(p, generators) == Success(Range(r.min, r.max)) &&
            ElementDomain(AnnotatedType(Markers(None, None, None, None), Parameterized([p])), generators)
              == ListValues(l, p, generators)
  {
  }

  /** Once a prefix of the parameters fails to resolve, so does the whole list, with the same error. */
  lemma {:induction false} DomainsFailureStays(params: seq<AnnotatedType>, i: nat, generators: Generators)
    requires i <= |params|
    requires Domains(params[..i], generators).Failure?
    ensures Domains(params, generators) == Domains(params[..i], generators)
    decreases |params| - i
  {
    if i < |params| {
      assert params[..i + 1][..i] == params[..i];
      DomainsFailureStays(params, i + 1, generators);
    } else {
      assert params[..i] == params;
    }
  }

  /** The domains of one more parameter extend those of the shorter prefix. */
  lemma DomainsPrefixStep(params: seq<AnnotatedType>, i: nat, generators: Generators)
    requires i < |params|
    ensures Domains(params[..i + 1], generators) ==
      match Domains(params[..i], generators)
      case Failure(e) => Failure(e)
      case Success(ds) =>
        match ParameterDomain(params[i], generators)
        case Failure(e) => Failure(e)
        case Success(d) => Success(ds + [d])
  {
    assert params[..i + 1][..i] == params[..i];
  }

  // ---------------------------------------------------------------------------
  // The source's methods

  /** `Unit.integerRange`. */
  method IntegerRange(range: IntRange) returns (r: seq<Value>)
    ensures r == Range(range.min, range.max)
  {
    r := [];
    var i := range.min;
    while i <= range.max
      invariant if range.min <= range.max then range.min <= i <= range.max + 1 else i == range.min
      invariant r == Range(range.min, i - 1)
      decreases range.max - i
    {
      r := r + [IntValue(i)];
      i := i + 1;
    }
  }

  /** `Unit.listLengthRange`: resolve the element domain, then add, for each
      length from `min` to `max`, all lists of that length, or one empty list
      when there are none. */
  method ListLengthRange(m: ListLength, t: AnnotatedType, generators: Generators)
    returns (r: Result<seq<Value>, ResolveError>)
    ensures r == ListValues(m, t, generators)
    decreases t, 1
  {
    var elements := AllPossibleValuesOfAnnotatedType(t, generators);
    if elements.Failure? {
      return Failure(elements.error);
    }
    var values := elements.value;
    var result := ListsOfLengths(m.min, m.max, values);
    r := Success(result);
  }

  /** The loop of `listLengthRange`: for each length from `min` to `max`, the
      lists of that length over `values`, or one empty list when there are none. */
  method ListsOfLengths(min: int, max: int, values: seq<Value>) returns (result: seq<Value>)
    ensures result == ListDomain(min, max, values)
  {
    result := [];
    if max < min {
      return;
    }
    var i := min;
    while i <= max
      invariant min <= i <= max + 1
      invariant result == ListDomain(min, i - 1, values)
      decreases max - i
    {
      var combinations := AllCombinationsOfLength(values, i);
      var block := if combinations == [] then [ListValue([])] else Lists(combinations);
      BlockOfCombinations(values, i, combinations);
      ListDomainStep(min, i, values);
      result := result + block;
      i := i + 1;
    }
  }

  lemma ListDomainStep(min: int, max: int, elements: seq<Value>)
    requires min <= max
    ensures ListDomain(min, max, elements) == ListDomain(min, max - 1, elements) + LengthBlock(elements, max)
  {
  }

  lemma BlockOfCombinations(elements: seq<Value>, length: int, combinations: seq<seq<Value>>)
    requires combinations == if length <= 0 then [] else Words(elements, length)
    ensures (if combinations == [] then [ListValue([])] else Lists(combinations)) == LengthBlock(elements, length)
  {
    if length > 0 { WordsEmpty(elements, length); }
  }

  /** `Unit.allPossibleValuesOfAnnotatedType`. */
  method AllPossibleValuesOfAnnotatedType(t: AnnotatedType, generators: Generators)
    returns (r: Result<seq<Value>, ResolveError>)
    ensures r == ElementDomain(t, generators)
    decreases t, 0
  {
    if t.arguments.NotParameterized? {
      return Failure(NotParameterizedType);
    }
    var args := t.arguments.args;
    if |args| != 1 {
      return Failure(TypeArgumentCount(|args|));
    }
    var arg := args[0];
    var m := arg.markers;
    if m.listLength.Some? {
      r := ListLengthRange(m.listLength.value, arg, generators);
    } else if m.intRange.Some? {
      var values := IntegerRange(m.intRange.value);
      r := Success(values);
    } else if m.stringSet.Some? {
      r := Success(StringValues(m.stringSet.value));
    } else if m.forAll.Some? {
      r := ForAllValues(m.forAll.value, generators);
    } else {
      r := Failure(NoMarkers);
    }
  }

  /** `Unit.allPossibleValues`. */
  method AllPossibleValues(p: AnnotatedType, generators: Generators)
    returns (r: Result<seq<Value>, ResolveError>)
    ensures r == ParameterDomain(p, generators)
  {
    var m := p.markers;
    if m.intRange.Some? {
      var values := IntegerRange(m.intRange.value);
      r := Success(values);
    } else if m.stringSet.Some? {
      r := Success(StringValues(m.stringSet.value));
    } else if m.listLength.Some? {
      r := ListLengthRange(m.listLength.value, p, generators);
    } else if m.forAll.Some? {
      r := ForAllValues(m.forAll.value, generators);
    } else {
      r := Failure(NoMarkers);
    }
  }

  /** `Unit.allParameterCombinations`: resolve each parameter in order and
      fold it into the combinations with `magicMultiply`. */
  method AllParameterCombinations(params: seq<AnnotatedType>, generators: Generators)
    returns (r: Result<seq<seq<Value>>, ResolveError>)
    ensures r == Combinations(params, generators)
  {
    var combinations: seq<seq<Value>> := [];
    ghost var domains: seq<seq<Value>> := [];
    var i := 0;
    while i < |params|
      invariant 0 <= i <= |params|
      invariant |domains| == i
      invariant Domains(params[..i], generators) == Success(domains)
      invariant combinations == Combine(domains)
    {
      DomainsPrefixStep(params, i, generators);
      var values := AllPossibleValues(params[i], generators);
      if values.Failure? {
        DomainsFailureStays(params, i + 1, generators);
        return Failure(values.error);
      }
      combinations := MagicMultiply(values.value, combinations);
      domains := domains + [values.value];
      i := i + 1;
    }
    assert params[..i] == params;
    r := Success(combinations);
  }
}
