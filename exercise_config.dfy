/**
 * The high-level exercise configuration: tests indexed by their name, in
 * insertion order. A test names the pipelines it runs by default and, per
 * runtime environment, the pipelines to run instead; each pipeline comes
 * with the variables table the test binds for it.
 */
module ExerciseConfigs {
  import opened Wrappers
  import opened PhpArray

  const TESTS_KEY := "tests"

  /** A variables table: variable name to its value (the table's internals are not part of this model). */
  datatype VariablesTable = VariablesTable(entries: Dict<string, string>)

  /** The variables a test supplies to one pipeline. */
  datatype PipelineVars = PipelineVars(variablesTable: VariablesTable)

  /** A runtime environment of a test: pipeline id to its variables. */
  datatype Environment = Environment(pipelines: Dict<string, PipelineVars>)

  datatype Test = Test(
    name: string,
    pipelines: Dict<string, PipelineVars>,
    environments: Dict<string, Environment>)

  class ExerciseConfig {
    var tests: Dict<string, Test>

    predicate Valid()
      reads this
    {
      UniqueKeys(tests)
    }

    constructor ()
      ensures Valid() && tests == []
    {
      tests := [];
    }

    /** `getTests()`: every test, keyed by name, in the order they were added. */
    function GetTests(): (r: Dict<string, Test>)
      reads this
      ensures forall name :: Get(r, name) == GetTest(name)
      ensures Valid() ==> UniqueKeys(r)
      ensures Values(r) == Values(tests)
    {
      tests
    }

    /** `getTest($name)`: the stored test, None (null) when no test has that name. */
    function GetTest(name: string): (r: Option<Test>)
      reads this
      ensures r.Some? <==> name in Keys(tests)
      ensures r.Some? ==> (name, r.value) in tests
    {
      GetIn(tests, name);
      Get(tests, name)
    }

    /** `addTest`: stores the test under its name, replacing one of the same name in place. */
    method AddTest(t: Test) returns (self: ExerciseConfig)
      requires Valid()
      modifies this
      ensures self == this && Valid()
      ensures GetTest(t.name) == Some(t)
      ensures forall n :: n != t.name ==> GetTest(n) == old(GetTest(n))
      ensures Keys(tests) == if t.name in Keys(old(tests)) then Keys(old(tests)) else Keys(old(tests)) + [t.name]
    {
      PutUnique(tests, t.name, t);
      KeysPut(tests, t.name, t);
      forall n ensures Get(Put(tests, t.name, t), n) == if n == t.name then Some(t) else Get(tests, n) {
        GetPut(tests, t.name, t, n);
      }
      tests := Put(tests, t.name, t);
      self := this;
    }

    /** `removeTest`: drops that name only; an absent name leaves the tests as they were. */
    method RemoveTest(id: string) returns (self: ExerciseConfig)
      requires Valid()
      modifies this
      ensures self == this && Valid()
      ensures GetTest(id) == None
      ensures forall n :: n != id ==> GetTest(n) == old(GetTest(n))
      ensures id !in Keys(old(tests)) ==> tests == old(tests)
    {
      UnsetSub(tests, id);
      forall n ensures Get(Unset(tests, id), n) == if n == id then None else Get(tests, n) {
        GetUnset(tests, id, n);
      }
      if id !in Keys(tests) {
        UnsetAbsent(tests, id);
      }
      tests := Unset(tests, id);
      self := this;
    }

    /**
     * `toArray()`: the "tests" list holds one entry per stored test, in the
     * order of the map (a test's own serialisation is not part of this model).
     */
    method ToArray() returns (data: seq<Test>)
      ensures data == Values(tests)
    {
      data := [];
      for i := 0 to |tests|
        invariant data == Values(tests[..i])
      {
        assert tests[..i + 1] == tests[..i] + [tests[i]];
        data := data + [tests[i].1];
      }
      assert tests[..|tests|] == tests;
    }
  }
}
