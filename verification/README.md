# A verified model of a small Java unit-testing framework

The framework has two entry points. `Unit.testClass` runs the
`@BeforeClass`, `@Before`, `@Test`, `@After` and `@AfterClass` methods of a
class. `Unit.quickCheckClass` tries every `@Property` method on the parameter
combinations its annotations describe: `@IntRange`, `@StringSet`,
`@ListLength` and `@ForAll`. `Assertion.java` adds fluent value checks
(`assertThat(x).isNotNull().startsWith("a")`).

The model leaves reflection out:
- A class is a sequence of `MethodRecord`s: a name, whether the method is static, its role annotations and its parameters.
- A parameter is an `AnnotatedType`: the domain markers on it and its annotated type arguments.
- What a test or lifecycle method does when invoked is an oracle: a function from the calls made so far to `Ok` or `Threw(cause)`.
- What a property does is an oracle that returns `Holds`, `Falsified` or `Threw`.
- What a `@ForAll` generator yields is a map from generator names to value streams.

Files and modules:

- `Combinator.dfy`: the positional cartesian product behind `magicMultiply`, `allParameterCombinations` and `allCombinationsOfListWithLength`.
  - Reference definitions are `Multiply`, `Combine`, `Product` and `Words`.
  - Lemmas cover their sizes, members and ordering.
  - They also cover the quirk that an empty list restarts the product.
- `Domains.dfy`: the values a property parameter ranges over, and its methods `integerRange`, `listLengthRange`, `allPossibleValues`, `allPossibleValuesOfAnnotatedType` and `allParameterCombinations`.
  - The two first-match dispatch orders are kept.
  - So is the empty list that `listLengthRange` adds for every length without combinations.
- `Classifier.dfy`: `getStaticMethods` and `getInstanceMethods`.
  - Each filters by annotation, checks static-ness, threads the seen-names set and sorts by name.
  - A characterisation covers the five classifications one `testClass` run makes.
- `Runs.dfy`: making the calls of a run one after another; the first non-test call that throws aborts the run.
- `Lifecycle.dfy`: `testClass`.
  - It classifies, then lays out the call script.
  - It runs the script and records one verdict per test.
- `QuickCheck.dfy`: `quickCheckClass`.
  - Properties are checked in name order, each on at most 100 combinations, stopping at the first counterexample.
  - The run aborts when a domain cannot be built or when more than 100 names have been recorded.
- `Assertion.dfy`: the checks of `AssertObject`, `AssertString`, `AssertBoolean` and `AssertInteger`, and chains of them.
- `Sequences.dfy` and `Wrappers.dfy`: slice facts and `Option`/`Result`.

Where the code and its description differ, the model follows the code:
- Zero parameters give no combinations, not one empty tuple.
- An empty domain restarts the product of the domains after it.
- `listLengthRange` adds one empty list for every length `L <= 0`, negative lengths included, and for every length when the element domain is empty.
- `@Test` shares the seen-names set with the four lifecycle annotations, so a method that is both `@Before` and `@Test` makes the run fail.

## Model

| member | source | states |
|---|---|---|
| Combinator.MagicMultiply | Unit.java:251-269 | the nested loops build exactly `Multiply(values, results)` |
| Combinator.MultiplyStarts | Unit.java:254-259 | on an empty list of results, one singleton tuple per value, in value order |
| Combinator.MultiplyExtends | Unit.java:261-267 | on a non-empty list, `|results|·|values|` tuples; tuple `i` extended by value `j` sits at `i·|values| + j` (the last position varies fastest) |
| Combinator.ExtendMember | Unit.java:261-267 | a tuple is in the result iff it is an existing tuple extended by one of the values |
| Combinator.ProductSize | Unit.java:153-163 | the cartesian product of the domains has `∏|Dᵢ|` tuples |
| Combinator.ProductMember | Unit.java:153-163 | a tuple is in the product iff its length is the number of domains and position `i` is drawn from `Dᵢ` (both directions) |
| Combinator.ProductEmpty | Unit.java:153-163 | the product is empty iff some domain is empty |
| Combinator.CombineRestarts | Unit.java:157-161 | folding `magicMultiply` over the domains gives the product of the domains after the last empty one, and nothing when the last domain is empty |
| Combinator.CombineIsProduct | Unit.java:157-161 | with at least one domain and none empty, the fold is the cartesian product |
| Combinator.RestartPoint | Unit.java:254-259 | the restart point lies after the last empty domain, and no domain after it is empty |
| Combinator.AllCombinationsOfLength | Unit.java:238-249 | length 0, and any negative length, gives no lists; a positive length `L` gives every length-`L` list over the elements, in cartesian order |
| Combinator.WordsSize | Unit.java:238-249 | there are `|E|^L` lists of length `L` |
| Combinator.WordsMember | Unit.java:238-249 | a list is among them iff it has length `L` and every item is an element |
| Combinator.WordsEmpty | Unit.java:228-249 | the length-`L` lists are none iff `L > 0` and the elements are none |
| Domains.Range | Unit.java:215-221 | `min, min+1, …, max` in increasing order; empty when `min > max` |
| Domains.IntegerRange | Unit.java:215-221 | the counting loop builds exactly `Range(min, max)` |
| Domains.ListLengthRange | Unit.java:223-236 | the element domain is resolved first and its error is passed on; otherwise the result is the list domain over it |
| Domains.ListsOfLengths | Unit.java:227-234 | for `L = min..max`, either the single empty list (no combinations of length `L`) or all lists of length `L`, concatenated in order |
| Domains.ListDomainSound | Unit.java:223-236 | every value produced is a list that is empty or has a length in `[min, max]` with all items drawn from the element domain |
| Domains.ListDomainComplete | Unit.java:223-236 | over a non-empty element domain, every list with a length in `[min, max]` and items from the domain is produced |
| Domains.ListDomainEmptyCount | Unit.java:229-231 | over a non-empty domain with `min >= 0`, the empty list appears once if `min == 0 <= max`, otherwise not at all |
| Domains.ListDomainOfNothing | Unit.java:229-231 | over an empty element domain, one empty list for every length in `[min, max]` |
| Domains.ForAllValues | Unit.java:271-284 | the first `times` values of the named generator; an error when the generator is missing or yields too few |
| Domains.AllPossibleValues | Unit.java:165-177 | first match in the order IntRange, StringSet, ListLength, ForAll; an error when no marker is present |
| Domains.AllPossibleValuesOfAnnotatedType | Unit.java:179-213 | errors for a non-parameterized type and for a number of type arguments other than one; otherwise first match in the order ListLength, IntRange, StringSet, ForAll on the argument |
| Domains.DispatchOrders | Unit.java:165-211 | the two orders differ: with both markers present, a parameter takes IntRange and a type argument takes ListLength |
| Domains.AllParameterCombinations | Unit.java:153-163 | the loop yields `magicMultiply` folded over the resolved domains, or the error of the first parameter that does not resolve |
| Domains.DomainsResolve | Unit.java:156-161 | the domains resolve iff every parameter resolves; then there is one domain per parameter, in order |
| Domains.CombinationsAreProduct | Unit.java:153-163 | with all domains non-empty, the combinations are their cartesian product; with zero parameters there are none |
| Classifier.SortByName | Unit.java:82 | the result is sorted by name and is a permutation of the input, and distinct names stay distinct |
| Classifier.InsertByName | Unit.java:82 | inserting keeps the list sorted and adds exactly the new method |
| Classifier.GetMethods | Unit.java:63-107 | succeeds iff no annotated method has the wrong static-ness or a name already seen; then returns exactly the annotated methods, sorted by name, and adds their names to the seen set; otherwise the first offender in declaration order decides the error |
| Classifier.Select | Unit.java:66-81 | the scan returns the annotated methods in declaration order or the first offender's error |
| Classifier.AdmissibleDistinct | Unit.java:71-75 | an admissible classification returns distinct names |
| Classifier.AnnotatedMember | Unit.java:68-69 | a method is selected iff it is declared and carries the annotation |
| Classifier.ClassifiableIff | Unit.java:14-20 | the five classifications of a run all succeed iff every role has the required static-ness and no name is carried by two (method, role) pairs |
| Classifier.BeforeAndTestClash | Unit.java:14-20 | a method tagged both `@Before` and `@Test` makes classification fail |
| Lifecycle.Classify | Unit.java:14-20 | the five classifications in source order, sharing one seen set; fails iff the class is not classifiable |
| Lifecycle.StagesInOrder | Unit.java:16-20 | classifiable iff each stage is admissible with the names of the earlier stages already seen |
| Lifecycle.ScriptEnds | Unit.java:23-53 | the script starts with the `@BeforeClass` calls and ends with the `@AfterClass` calls, in name order |
| Lifecycle.ScriptBlock | Unit.java:27-48 | the block of test `k` is a fresh instance, its `@Before` calls, the test and its `@After` calls on that instance |
| Lifecycle.SetUp | Unit.java:28-33 | a new instance and the `@Before` calls; either the run continues at the test or it has aborted |
| Lifecycle.BeforeEach | Unit.java:30-33 | the `@Before` calls on the test's instance; either the run reaches the test or it has aborted |
| Lifecycle.TearDown | Unit.java:44-47 | the `@After` calls; either the run continues at the next block or it has aborted |
| Lifecycle.RunTest | Unit.java:28-47 | one test block; the test's own event is in the trace at its position, and a throwing test does not abort |
| Lifecycle.RecordStep | Unit.java:35-42 | recording a test's verdict adds exactly its name, mapped to `null` or to the cause |
| Lifecycle.RunAndRecord | Unit.java:27-48 | one pass of the loop over the tests: the run reaches the next block with one more test recorded, or it has aborted |
| Lifecycle.RunTests | Unit.java:27-48 | every test block runs in order and every test is recorded, unless a non-test call aborts the run |
| Lifecycle.RunPlan | Unit.java:22-53 | the trace is the run of the whole script; a completed run records every test's verdict |
| Lifecycle.TestClass | Unit.java:8-60 | aborts with an empty trace when classification fails; otherwise the trace is the run of the class's script, and a completed run maps every test name to `null` or its cause |
| Runs.RunFollowsScript | Unit.java:23-53 | the calls are made in script order, each with the outcome the user code gives after the earlier calls |
| Runs.RunStopsAtFirstFatal | Unit.java:23-57 | a run is aborted iff its last event is a throwing non-test call, and no earlier event is one |
| Runs.CompletedRun | Unit.java:23-53 | a run that did not abort made every call of the script, in order, and only tests threw |
| Runs.Perform | Unit.java:23-53 | the lifecycle loops: every call is made unless one throws, which aborts the run |
| Runs.Make | Unit.java:22-53 | one invocation: its event is appended to the trace, and the run aborts iff it threw and is not a test |
| QuickCheck.CheckProperty | Unit.java:122-133 | candidates are evaluated in order, each after everything before it, stopping at the first that is false or throws, which is the counterexample; there is none iff every candidate held; the evaluations are exactly the fail-fast reference `FailFast` |
| QuickCheck.RecordKeepsFaithful | Unit.java:126-136 | after the puts, a name maps to a counterexample iff one of its evaluations failed, and that counterexample is such an evaluation's arguments |
| QuickCheck.FailFastMeaning | Unit.java:122-133 | the fail-fast reference evaluates the candidates in order, each after everything before it; it has no counterexample iff it covers every candidate and all held; otherwise the last evaluation is the first that failed and its arguments are the counterexample |
| QuickCheck.FailFastInOrder | Unit.java:122-129 | the fail-fast reference evaluates the candidates in order, each after every evaluation before it, and never more of them than there are |
| QuickCheck.FailFastOutcome | Unit.java:122-133 | the fail-fast reference has no counterexample iff it covers every candidate and all held; otherwise it ends at its first failure, whose arguments are the counterexample |
| QuickCheck.FailFastAdvance | Unit.java:122-129 | evaluating the next candidate extends the evaluations by one step of the reference, which ends there iff that candidate is false or throws |
| QuickCheck.FailFastRecorded | Unit.java:122-136 | recording a fail-fast block keeps a faithful map faithful, adds the property's name as a key, and every evaluation in the block is of that property on one of its candidates |
| QuickCheck.CheckAndRecord | Unit.java:122-136 | the evaluations are the fail-fast block over the candidates, in order, ending at the counterexample if there is one (none iff every candidate held); the map gains the property's name and records that counterexample, staying faithful to every evaluation made, all of which are of that property on its candidates |
| QuickCheck.CheckMethod | Unit.java:120-139 | one `@Property` method is one turn of the reference loop `StepScan`: a failure to build the combinations aborts; otherwise the fail-fast block over the first `min(n, 100)` combinations is appended and its counterexample recorded, and the run aborts iff more than 100 names are recorded |
| QuickCheck.StepMeaning | Unit.java:120-139 | one turn for a `@Property` method throws iff its combinations fail or the names would exceed 100; otherwise it adds the name, keeps the map faithful and every evaluation belongs to a property |
| QuickCheck.ScanMeaning | Unit.java:119-141 | after any prefix of the methods: a throw means some property is unresolvable or there are more than 100 property names; until then the map reports exactly the properties seen, faithfully |
| QuickCheck.StoppedStays | Unit.java:137-139 | once the loop has thrown, later methods change nothing |
| QuickCheck.TraceGrows | Unit.java:119-141 | the loop only appends evaluations; earlier ones are never changed |
| QuickCheck.EntryStays | Unit.java:134-136 | an entry of the map changes only at a method with that name |
| QuickCheck.NameAbsent | Unit.java:134-136 | a name that no earlier property carries is not yet in the map |
| QuickCheck.PropertyStep | Unit.java:120-136 | in a run that does not throw, the turn of a `@Property` method appends its fail-fast block and records the block's counterexample |
| QuickCheck.BlockInTrace | Unit.java:119-141 | in a run that does not throw, the evaluations of the earlier methods followed by the fail-fast block of a `@Property` method begin the final evaluations |
| QuickCheck.PropertyEntry | Unit.java:130-136 | in a run that does not throw, a property whose name no other property carries maps to the counterexample of its own block |
| QuickCheck.PropertyBlock | Unit.java:119-141 | for each `@Property` method of a run that does not throw: its combinations resolve; the evaluations hold, right after those of the earlier methods, a block over its tried combinations in order that stops at the first false or throwing one; for a name carried by one method, the map holds `null` for it iff that block covers every tried combination and all held, and otherwise the block's last arguments |
| QuickCheck.CheckNext | Unit.java:119-140 | one turn of the loop matches the reference `ScanUpTo` one method further; a method without `@Property` leaves the map and the evaluations unchanged |
| QuickCheck.CheckInOrder | Unit.java:119-141 | the loop over the sorted methods ends in the state of the reference `ScanUpTo`; it aborts iff some property's domains fail or there are more than 100 property names; otherwise the map's keys are exactly the property names and the map is faithful |
| QuickCheck.QuickCheckClass | Unit.java:109-146 | aborts iff the class cannot be instantiated, some property's domains fail, or there are more than 100 property names; otherwise it maps exactly the property names; a name maps to arguments iff one of its evaluations was false or threw, and then to the arguments of such an evaluation; every evaluation is of a property on one of its first 100 combinations; the evaluations and the map are those of the reference loop `ScanUpTo` over the methods in name order, so `QuickCheck.PropertyBlock` applies to each property |
| QuickCheck.PropertyNamesMember | Unit.java:119-120 | the recorded names are exactly the names of the `@Property` methods |
| QuickCheck.UnresolvableMember | Unit.java:119-121 | the run has an unresolvable property iff some `@Property` method's combinations fail |
| Assertion.ObjectIsNotNull | Assertion.java:27-32 | passes iff the object is not null, returning the same asserter |
| Assertion.ObjectIsNull | Assertion.java:35-40 | passes iff the object is null, returning the same asserter |
| Assertion.ObjectNullComplementary | Assertion.java:27-40 | exactly one of `isNull` and `isNotNull` passes |
| Assertion.StringIsNotNull | Assertion.java:75-80 | passes iff the string is not null |
| Assertion.StringIsNull | Assertion.java:83-88 | passes iff the string is null |
| Assertion.StringNullComplementary | Assertion.java:75-88 | exactly one of `isNull` and `isNotNull` passes |
| Assertion.StartsWith | Assertion.java:107-112 | passes iff `s2` is a prefix of the string; a null string throws `NullPointerException` |
| Assertion.IsEmpty | Assertion.java:115-120 | passes iff the string has length 0 |
| Assertion.Contains | Assertion.java:123-128 | passes iff `s2` occurs in the string as a contiguous piece at some position |
| Assertion.IndexOf | Assertion.java:124 | finds the first occurrence at or after `from`, or reports that there is none |
| Assertion.StartsWithContains | Assertion.java:107-128 | passing `startsWith(s2)` implies passing `contains(s2)` |
| Assertion.BooleanIsEqualTo | Assertion.java:141-146 | passes iff `b == b2` |
| Assertion.IsTrue | Assertion.java:150-155 | passes iff `b` |
| Assertion.IsFalse | Assertion.java:158-163 | passes iff `!b` |
| Assertion.BooleanChecksAgree | Assertion.java:141-163 | `isTrue` and `isFalse` pass exactly when `isEqualTo(true)` and `isEqualTo(false)` do, and exactly one of the two passes |
| Assertion.IntegerIsEqualTo | Assertion.java:174-179 | passes iff `i == i2` |
| Assertion.IsLessThan | Assertion.java:182-187 | passes iff `i < i2` |
| Assertion.IsGreaterThan | Assertion.java:190-195 | passes iff `i > i2` |
| Assertion.IntegerTrichotomy | Assertion.java:174-195 | for every `i2`, exactly one of `isLessThan`, `isEqualTo` and `isGreaterThan` passes |
| Assertion.ChainPasses | Assertion.java:26-40 | a chain of checks that return `this` passes iff each check passes on the same asserter; otherwise it throws what the first failing check throws |
| Assertion.StringChecksReturnThis | Assertion.java:75-128 | every string check returns `this` when it passes, so `ChainPasses` applies to chains of them |

## Left out

- Reflection and class loading: `Class.forName`, `getDeclaredMethods`/`getMethods`, annotation lookup, `Method.invoke` and `newInstance`. Methods are records and invocations are oracles. For `quickCheckClass`, whether the class can be instantiated is a parameter.
- `forAllRange` calls into arbitrary user code. It is modelled as a stream of values per generator name. Only the first `times` values are taken. A missing generator, or one that yields too few values, is an error. Generator state carried between different `@ForAll` parameters is not modelled: each reads its stream from the start.
- Domains.IntegerRange: uses unbounded integers, so the endless loop of the source when `max` is `Integer.MAX_VALUE` (Unit.java:217) is not modelled.
- Domains.ListsOfLengths: uses unbounded integers, and so does its caller `Domains.ListLengthRange`. The source's loop over the lengths (Unit.java:227) never ends when `@ListLength(max = Integer.MAX_VALUE)`, because `i++` wraps to `Integer.MIN_VALUE`; over an empty element domain it keeps adding empty lists until memory runs out. The model instead returns the finite domain for the lengths `min..max`.
- Exceptions in `Unit.java` carry messages and classes. The model keeps only which classifier error occurred, or that a run aborted. The `RuntimeException` wrapping is not modelled. A test's cause is its message string.
- Classifier.SortByName: does not state that the sort is stable. The classifiers sort only after a repeated name has been rejected, so there are no ties to order. In `quickCheckClass`, overloads of one name can tie, but `getMethods` returns the methods in no particular order, so stability would fix nothing: the model leaves the order of tied methods open.
- `HashMap` iteration order is not observable in the model: results are Dafny maps.
- QuickCheck.QuickCheckClass: the order of the methods that share a name is left open, because `getMethods` does not fix it. For a name carried by several `@Property` overloads, the model states the map's entry through `QuickCheck.RecordKeepsFaithful` only, not per overload.
- QuickCheck.RecordKeepsFaithful, QuickCheck.PropertyBlock and QuickCheck.QuickCheckClass: assume that a property does not mutate its arguments. Values in the model are immutable. In the source, list arguments are shared mutable objects: `magicMultiply` copies tuples shallowly (Unit.java:263), so one list object can sit in many candidates, and the counterexample `arguments.toArray()` is built after `method.invoke` returns (Unit.java:124-130). A property that changes a list it was given therefore records a counterexample that differs from the candidate it was called on, and it changes later candidates that share that list. The model does not capture this aliasing, either across candidates or between a candidate and the recorded counterexample.
- Overloaded property methods share a name. The model records them as the source does, so an earlier overload's entry can be kept or replaced. The class-level contract is stated per name, not per overload.
- `AssertObject.isEqualTo`/`isNotEqualTo`, `AssertString.isEqualTo`/`isNotEqualTo` and `isInstanceOf` are not modelled. They depend on user-defined `equals` and on runtime class tests.
- A null argument `s2` to `startsWith` or `contains` is not modelled: arguments are non-null strings.
- Java strings are sequences of UTF-16 code units. The model uses `seq<char>`, without normalisation. `Classifier.NameLe` compares Unicode scalar values, while `String.compareTo` compares UTF-16 code units. The two orders differ only on names with characters outside the Basic Multilingual Plane.
