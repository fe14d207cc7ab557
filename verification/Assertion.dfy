/** The value checks of `Assertion.java`. `assertThat(x)` wraps a value in an
    asserter of its type; every check either throws or returns the asserter
    itself, so that checks can be chained. The wrapped value is final. */
module Assertion {
  import opened Wrappers

  /** The exceptions a check throws. A string check on a null subject
      dereferences it and throws a `NullPointerException`. */
  datatype Exception = NoSuchElementException(message: string) | NullPointerException

  /** The outcome of a check: it returns `this`, or it throws. */
  datatype Check<A> = Passed(self: A) | Threw(exception: Exception)

  /** A Java `int`. */
  newtype Int32 = x: int | -0x8000_0000 <= x < 0x8000_0000

  /** The asserters `assertThat` builds; `None` is the null reference. */
  datatype AssertObject<T> = AssertObject(obj: Option<T>)
  datatype AssertString = AssertString(str: Option<string>)
  datatype AssertBoolean = AssertBoolean(b: bool)
  datatype AssertInteger = AssertInteger(i: Int32)

  // ---------------------------------------------------------------------------
  // AssertObject

  function ObjectIsNotNull<T>(a: AssertObject<T>): (r: Check<AssertObject<T>>)
    ensures r.Passed? <==> a.obj.Some?
    ensures r.Passed? ==> r.self == a
    ensures r.Threw? ==> r.exception == NoSuchElementException("Object is Null")
  {
    if a.obj.None? then Threw(NoSuchElementException("Object is Null")) else Passed(a)
  }

  function ObjectIsNull<T>(a: AssertObject<T>): (r: Check<AssertObject<T>>)
    ensures r.Passed? <==> a.obj.None?
    ensures r.Passed? ==> r.self == a
    ensures r.Threw? ==> r.exception == NoSuchElementException("Object is not Null")
  {
    if a.obj.Some? then Threw(NoSuchElementException("Object is not Null")) else Passed(a)
  }

  /** On every object exactly one of `isNull` and `isNotNull` passes. */
  lemma ObjectNullComplementary<T>(a: AssertObject<T>)
    ensures ObjectIsNull(a).Passed? <==> !ObjectIsNotNull(a).Passed?
  {
  }

  // ---------------------------------------------------------------------------
  // AssertString

  function StringIsNotNull(a: AssertString): (r: Check<AssertString>)
    ensures r.Passed? <==> a.str.Some?
    ensures r.Passed? ==> r.self == a
    ensures r.Threw? ==> r.exception == NoSuchElementException("String is Null")
  {
    if a.str.None? then Threw(NoSuchElementException("String is Null")) else Passed(a)
  }

  /** The message of this check reads "Object is not Null" in the source too. */
  function StringIsNull(a: AssertString): (r: Check<AssertString>)
    ensures r.Passed? <==> a.str.None?
    ensures r.Passed? ==> r.self == a
    ensures r.Threw? ==> r.exception == NoSuchElementException("Object is not Null")
  {
    if a.str.Some? then Threw(NoSuchElementException("Object is not Null")) else Passed(a)
  }

  /** On every string exactly one of `isNull` and `isNotNull` passes. */
  lemma StringNullComplementary(a: AssertString)
    ensures StringIsNull(a).Passed? <==> !StringIsNotNull(a).Passed?
  {
  }

  /** `t` occurs in `s` at position `k`. */
  predicate OccursAt(s: string, t: string, k: int)
  {
    0 <= k && k + |t| <= |s| && s[k..k + |t|] == t
  }

  /** `String.indexOf(t, from)`: the first position at or after `from` where
      `t` occurs in `s`, if any. */
  function IndexOf(s: string, t: string, from: nat): (r: Option<nat>)
    ensures r.Some? ==> from <= r.value && OccursAt(s, t, r.value)
    ensures r.Some? ==> forall k :: from <= k < r.value ==> !OccursAt(s, t, k)
    ensures r.None? ==> forall k :: from <= k ==> !OccursAt(s, t, k)
    decreases |s| - from
  {
    if from + |t| > |s| then None
    else if s[from..from + |t|] == t then Some(from)
    else IndexOf(s, t, from + 1)
  }

  /** `startsWith(s2)` passes iff `s2` is a prefix of the string. */
  function StartsWith(a: AssertString, s2: string): (r: Check<AssertString>)
    ensures r.Passed? <==> a.str.Some? && |s2| <= |a.str.value| && a.str.value[..|s2|] == s2
    ensures r.Passed? ==> r.self == a
    ensures a.str.None? ==> r == Threw(NullPointerException)
    ensures a.str.Some? && r.Threw? ==>
              r.exception == NoSuchElementException("string does not start with " + s2)
  {
    match a.str
    case None => Threw(NullPointerException)
    case Some(s) =>
      if !(s2 <= s) then Threw(NoSuchElementException("string does not start with " + s2)) else Passed(a)
  }

  /** `isEmpty()` passes iff the string has no characters. */
  function IsEmpty(a: AssertString): (r: Check<AssertString>)
    ensures r.Passed? <==> a.str.Some? && |a.str.value| == 0
    ensures r.Passed? ==> r.self == a
    ensures a.str.None? ==> r == Threw(NullPointerException)
    ensures a.str.Some? && r.Threw? ==> r.exception == NoSuchElementException("string is not empty")
  {
    match a.str
    case None => Threw(NullPointerException)
    case Some(s) => if |s| != 0 then Threw(NoSuchElementException("string is not empty")) else Passed(a)
  }

  /** `contains(s2)` is `indexOf(s2) >= 0`; it passes iff `s2` occurs
      somewhere in the string as a contiguous piece. */
  function Contains(a: AssertString, s2: string): (r: Check<AssertString>)
    ensures r.Passed? <==> a.str.Some? && exists k :: OccursAt(a.str.value, s2, k)
    ensures r.Passed? ==> r.self == a
    ensures a.str.None? ==> r == Threw(NullPointerException)
    ensures a.str.Some? && r.Threw? ==>
              r.exception == NoSuchElementException("string does not contain input string")
  {
    match a.str
    case None => Threw(NullPointerException)
    case Some(s) =>
      if IndexOf(s, s2, 0).None? then Threw(NoSuchElementException("string does not contain input string"))
      else Passed(a)
  }

  /** A string that starts with `s2` contains it. */
  lemma StartsWithContains(a: AssertString, s2: string)
    requires StartsWith(a, s2).Passed?
    ensures Contains(a, s2).Passed?
  {
    assert OccursAt(a.str.value, s2, 0);
  }

  // ---------------------------------------------------------------------------
  // AssertBoolean

  function BooleanIsEqualTo(a: AssertBoolean, b2: bool): (r: Check<AssertBoolean>)
    ensures r.Passed? <==> a.b == b2
    ensures r.Passed? ==> r.self == a
    ensures r.Threw? ==> r.exception == NoSuchElementException("Booleans are not equal")
  {
    if a.b != b2 then Threw(NoSuchElementException("Booleans are not equal")) else Passed(a)
  }

  function IsTrue(a: AssertBoolean): (r: Check<AssertBoolean>)
    ensures r.Passed? <==> a.b
    ensures r.Passed? ==> r.self == a
    ensures r.Threw? ==> r.exception == NoSuchElementException("Boolean is not true")
  {
    if !a.b then Threw(NoSuchElementException("Boolean is not true")) else Passed(a)
  }

  function IsFalse(a: AssertBoolean): (r: Check<AssertBoolean>)
    ensures r.Passed? <==> !a.b
    ensures r.Passed? ==> r.self == a
    ensures r.Threw? ==> r.exception == NoSuchElementException("Boolean is not false")
  {
    if a.b then Threw(NoSuchElementException("Boolean is not false")) else Passed(a)
  }

  /** `isTrue` and `isFalse` are `isEqualTo(true)` and `isEqualTo(false)` as
      far as passing goes; exactly one of them passes. */
  lemma BooleanChecksAgree(a: AssertBoolean)
    ensures IsTrue(a).Passed? <==> BooleanIsEqualTo(a, true).Passed?
    ensures IsFalse(a).Passed? <==> BooleanIsEqualTo(a, false).Passed?
    ensures IsTrue(a).Passed? <==> !IsFalse(a).Passed?
  {
  }

  // ---------------------------------------------------------------------------
  // AssertInteger

  /** The decimal form `"" + n` gives an `int` in a message. */
  function DecimalDigits(n: nat): string
  {
    if n < 10 then ["0123456789"[n]] else DecimalDigits(n / 10) + ["0123456789"[n % 10]]
  }

  function Decimal(n: int): string
  {
    if n < 0 then "-" + DecimalDigits(-n) else DecimalDigits(n)
  }

  function IntegerIsEqualTo(a: AssertInteger, i2: Int32): (r: Check<AssertInteger>)
    ensures r.Passed? <==> a.i == i2
    ensures r.Passed? ==> r.self == a
    ensures r.Threw? ==> r.exception == NoSuchElementException("numbers are not equal")
  {
    if a.i != i2 then Threw(NoSuchElementException("numbers are not equal")) else Passed(a)
  }

  function IsLessThan(a: AssertInteger, i2: Int32): (r: Check<AssertInteger>)
    ensures r.Passed? <==> a.i < i2
    ensures r.Passed? ==> r.self == a
    ensures r.Threw? ==> r.exception == NoSuchElementException("i is not less than " + Decimal(i2 as int))
  {
    if a.i >= i2 then Threw(NoSuchElementException("i is not less than " + Decimal(i2 as int))) else Passed(a)
  }

  function IsGreaterThan(a: AssertInteger, i2: Int32): (r: Check<AssertInteger>)
    ensures r.Passed? <==> a.i > i2
    ensures r.Passed? ==> r.self == a
    ensures r.Threw? ==> r.exception == NoSuchElementException("i is not greater than " + Decimal(i2 as int))
  {
    if a.i <= i2 then Threw(NoSuchElementException("i is not greater than " + Decimal(i2 as int))) else Passed(a)
  }

  /** For every bound exactly one of `isLessThan`, `isEqualTo` and
      `isGreaterThan` passes. */
  lemma IntegerTrichotomy(a: AssertInteger, i2: Int32)
    ensures IsLessThan(a, i2).Passed? || IntegerIsEqualTo(a, i2).Passed? || IsGreaterThan(a, i2).Passed?
    ensures !(IsLessThan(a, i2).Passed? && IntegerIsEqualTo(a, i2).Passed?)
    ensures !(IsLessThan(a, i2).Passed? && IsGreaterThan(a, i2).Passed?)
    ensures !(IntegerIsEqualTo(a, i2).Passed? && IsGreaterThan(a, i2).Passed?)
  {
  }

  // ---------------------------------------------------------------------------
  // Chains of checks

  /** `assertThat(x).c1().c2()...`: the checks run in order on the asserter
      the previous one returned; the first that throws ends the chain. */
  function Chain<A>(a: A, checks: seq<A -> Check<A>>): Check<A>
    decreases |checks|
  {
    if checks == [] then Passed(a)
    else
      match checks[0](a)
      case Threw(e) => Threw(e)
      case Passed(next) => Chain(next, checks[1..])
  }

  /** A check that, when it passes, returns the asserter it was called on. */
  predicate ReturnsThis<A(==)>(check: A -> Check<A>, a: A)
  {
    check(a).Passed? ==> check(a).self == a
  }

  /** Since the wrapped value is final and every passing check returns
      `this`, a chain passes iff each of its checks passes on the same
      asserter; otherwise it throws what the first failing check throws. */
  lemma {:induction false} ChainPasses<A>(a: A, checks: seq<A -> Check<A>>)
    requires forall i :: 0 <= i < |checks| ==> ReturnsThis(checks[i], a)
    ensures Chain(a, checks).Passed? <==> forall i :: 0 <= i < |checks| ==> checks[i](a).Passed?
    ensures Chain(a, checks).Passed? ==> Chain(a, checks).self == a
    ensures Chain(a, checks).Threw? ==>
              exists i :: 0 <= i < |checks| && Chain(a, checks) == checks[i](a) &&
                          forall j :: 0 <= j < i ==> checks[j](a).Passed?
    decreases |checks|
  {
    if checks != [] {
      var rest := checks[1..];
      assert forall i :: 0 <= i < |rest| ==> rest[i] == checks[i + 1];
      if checks[0](a).Passed? {
        ChainPasses(a, rest);
        if Chain(a, rest).Threw? {
          var i :| 0 <= i < |rest| && Chain(a, rest) == rest[i](a) &&
                   forall j :: 0 <= j < i ==> rest[j](a).Passed?;
          assert Chain(a, checks) == checks[i + 1](a);
          assert forall j :: 0 <= j < i + 1 ==> checks[j](a).Passed? by {
            forall j | 0 <= j < i + 1 ensures checks[j](a).Passed? {
              if j > 0 { assert checks[j] == rest[j - 1]; }
            }
          }
        } else {
          forall i | 0 <= i < |checks| ensures checks[i](a).Passed? {
            if i > 0 { assert checks[i] == rest[i - 1]; }
          }
        }
      } else {
        assert Chain(a, checks) == checks[0](a);
      }
    }
  }

  /** Every string check returns `this` when it passes, so a chain of them
      passes iff each passes on the same string. */
  lemma StringChecksReturnThis(a: AssertString, s2: string)
    ensures ReturnsThis(StringIsNotNull, a) && ReturnsThis(StringIsNull, a) && ReturnsThis(IsEmpty, a)
    ensures ReturnsThis((x: AssertString) => StartsWith(x, s2), a)
    ensures ReturnsThis((x: AssertString) => Contains(x, s2), a)
  {
  }
}
