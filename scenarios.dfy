/** Concrete runs of the parse loop: the Rust unit tests and inputs that expose its corner cases. */
module Scenarios {
  import opened Outcomes
  import opened Values
  import opened Lexical
  import opened Machine
  import opened Properties

  /** One successful step moves the run to the configuration it produces. */
  lemma RunFrom(input: string, cfg: Config, next: Config)
    requires cfg.cursor < |input| && Step(input, cfg).Ok?
    requires Step(input, cfg).value.cursor == next.cursor
    requires Step(input, cfg).value.states == next.states
    requires Step(input, cfg).value.results == next.results
    requires Step(input, cfg).value.phases == next.phases
    ensures Run(input, cfg) == Run(input, next)
  {}

  /** A successful object close moves the run to the configuration it
      produces: the state popped, the loop's leftovers and the new object. */
  lemma CloseFrom(input: string, cfg: Config, closed: ObjectClose, next: Config)
    requires cfg.cursor < |input| && input[cfg.cursor] == '}'
    requires |cfg.states| > 0 && cfg.states[|cfg.states| - 1].state == ObjectOpen
    requires CloseObjectLoop(cfg.results, cfg.phases, cfg.states[|cfg.states| - 1].cursor, cfg.cursor, map[]) == Ok(closed)
    requires next.cursor == cfg.cursor + 1 && next.states == Pop(cfg.states) && next.phases == closed.phases
    requires next.results == closed.results + [JsonWithStartCursor(Object(closed.fields), cfg.cursor)]
    ensures Run(input, cfg) == Run(input, next)
  {
    var top := cfg.states[|cfg.states| - 1];
    assert Step(input, cfg) == ObjectStep(input, cfg, top) == CloseObject(cfg, top) == Ok(next);
  }

  /** A `}` that closes an object holding exactly one member, for any value:
      the run continues with the object as the only result. */
  lemma CloseSingle(input: string, at: nat, start: nat, key: string, keyAt: nat, value: Json, valueAt: nat)
    requires at < |input| && input[at] == '}' && valueAt > start
    ensures Run(input, Config(at, [StateWithCursor(ObjectOpen, start)],
                              [JsonWithStartCursor(String(key), keyAt), JsonWithStartCursor(value, valueAt)], [ParseKey, ParseValue]))
         == Run(input, Config(at + 1, [], [JsonWithStartCursor(Object(map[key := value]), at)], []))
  {
    var top := StateWithCursor(ObjectOpen, start);
    var k := JsonWithStartCursor(String(key), keyAt);
    var v := JsonWithStartCursor(value, valueAt);
    var cfg := Config(at, [top], [k, v], [ParseKey, ParseValue]);
    var fields := map[][key := value];
    var next := Config(at + 1, [], [JsonWithStartCursor(Object(fields), at)], []);
    var rest: seq<JsonWithStartCursor> := [];
    var phases: seq<ObjectParseState> := [];
    assert rest + [k, v] == cfg.results;
    assert phases + [ParseKey, ParseValue] == cfg.phases;
    CloseRound(rest, key, keyAt, v, phases, ParseKey, ParseValue, start, at, map[]);
    assert CloseObjectLoop(rest, phases, start, at, fields) == Ok(ObjectClose(rest, phases, fields));
    assert Pop(cfg.states) == next.states;
    assert rest + [JsonWithStartCursor(Object(fields), at)] == next.results;
    assert Step(input, cfg) == ObjectStep(input, cfg, top) == CloseObject(cfg, top) == Ok(next);
    RunFrom(input, cfg, next);
  }

  /** The empty document is rejected before any step. */
  lemma EmptyInput(s: string)
    requires s == ""
    ensures ParseSpec(s) == Err(NoEnd)
  {}

  /** The test root_string (src/main.rs:408-412): a quoted document at the root is a string. */
  lemma RootString(s: string)
    requires s == "\"2222\""
    ensures ParseSpec(s) == Ok(String("2222"))
  {
    RootStringSteps0(s);
    RootStringSteps1(s);
    RootStringSteps2(s);
    RootStringSteps3(s);
    RootStringSteps4(s);
    RootStringSteps5(s);
  }

  // The configurations the run of RootString passes through, by step.
  const RootString0: Config := Config(0, [], [], [])
  const RootString1: Config := Config(1, [StateWithCursor(StringOpen, 0)], [], [])
  const RootString2: Config := Config(2, [StateWithCursor(StringOpen, 0)], [], [])
  const RootString3: Config := Config(3, [StateWithCursor(StringOpen, 0)], [], [])
  const RootString4: Config := Config(4, [StateWithCursor(StringOpen, 0)], [], [])
  const RootString5: Config := Config(5, [StateWithCursor(StringOpen, 0)], [], [])
  const RootString6: Config := Config(6, [], [JsonWithStartCursor(String("2222"), 0)], [])

  lemma RootStringSteps0(s: string)
    requires s == "\"2222\""
    ensures Run(s, RootString0) == Run(s, RootString1)
  {
    assert s[0] == '\"';
    RunFrom(s, RootString0, RootString1);
  }

  lemma RootStringSteps1(s: string)
    requires s == "\"2222\""
    ensures Run(s, RootString1) == Run(s, RootString2)
  {
    assert s[1] == '2';
    RunFrom(s, RootString1, RootString2);
  }

  lemma RootStringSteps2(s: string)
    requires s == "\"2222\""
    ensures Run(s, RootString2) == Run(s, RootString3)
  {
    assert s[2] == '2';
    RunFrom(s, RootString2, RootString3);
  }

  lemma RootStringSteps3(s: string)
    requires s == "\"2222\""
    ensures Run(s, RootString3) == Run(s, RootString4)
  {
    assert s[3] == '2';
    RunFrom(s, RootString3, RootString4);
  }

  lemma RootStringSteps4(s: string)
    requires s == "\"2222\""
    ensures Run(s, RootString4) == Run(s, RootString5)
  {
    assert s[4] == '2';
    RunFrom(s, RootString4, RootString5);
  }

  lemma RootStringSteps5(s: string)
    requires s == "\"2222\""
    ensures Run(s, RootString5) == Run(s, RootString6)
  {
    assert s[5] == '\"';
    assert s[1] == '2';
    assert s[2] == '2';
    assert s[3] == '2';
    assert s[4] == '2';
    assert s[1..5] == "2222";
    RunFrom(s, RootString5, RootString6);
  }

  /** The test root_number (src/main.rs:414-418): a number that ends the document includes its last digit. */
  lemma RootNumber(s: string)
    requires s == "1221"
    ensures ParseSpec(s) == Ok(Number("1221"))
  {
    RootNumberSteps0(s);
    RootNumberSteps1(s);
    RootNumberSteps2(s);
    RootNumberSteps3(s);
  }

  // The configurations the run of RootNumber passes through, by step.
  const RootNumber0: Config := Config(0, [], [], [])
  const RootNumber1: Config := Config(1, [StateWithCursor(NumberOpen, 0)], [], [])
  const RootNumber2: Config := Config(2, [StateWithCursor(NumberOpen, 0)], [], [])
  const RootNumber3: Config := Config(3, [StateWithCursor(NumberOpen, 0)], [], [])
  const RootNumber4: Config := Config(4, [], [JsonWithStartCursor(Number("1221"), 0)], [])

  lemma RootNumberSteps0(s: string)
    requires s == "1221"
    ensures Run(s, RootNumber0) == Run(s, RootNumber1)
  {
    assert s[0] == '1';
    RunFrom(s, RootNumber0, RootNumber1);
  }

  lemma RootNumberSteps1(s: string)
    requires s == "1221"
    ensures Run(s, RootNumber1) == Run(s, RootNumber2)
  {
    assert s[1] == '2';
    RunFrom(s, RootNumber1, RootNumber2);
  }

  lemma RootNumberSteps2(s: string)
    requires s == "1221"
    ensures Run(s, RootNumber2) == Run(s, RootNumber3)
  {
    assert s[2] == '2';
    RunFrom(s, RootNumber2, RootNumber3);
  }

  lemma RootNumberSteps3(s: string)
    requires s == "1221"
    ensures Run(s, RootNumber3) == Run(s, RootNumber4)
  {
    assert s[3] == '1';
    assert s[0] == '1';
    assert s[1] == '2';
    assert s[2] == '2';
    assert s[3] == '1';
    assert s[0..4] == "1221";
    RunFrom(s, RootNumber3, RootNumber4);
  }

  /** The test root_array (src/main.rs:420-426): items keep their order and indexing reaches each. */
  lemma RootArray(s: string)
    requires s == "[1, 2,  \"3\"]"
    ensures ParseSpec(s) == Ok(Array([Number("1"), Number("2"), String("3")]))
    ensures At(ParseSpec(s).value, 0) == Number("1")
    ensures At(ParseSpec(s).value, 1) == Number("2")
    ensures At(ParseSpec(s).value, 2) == String("3")
  {
    RootArrayPart0(s);
  }

  lemma RootArrayPart0(s: string)
    requires s == "[1, 2,  \"3\"]"
    ensures Run(s, RootArray0) == Ok(Array([Number("1"), Number("2"), String("3")]))
  {
    RootArraySteps0(s);
    RootArraySteps1(s);
    RootArraySteps2(s);
    RootArraySteps3(s);
    RootArraySteps4(s);
    RootArraySteps5(s);
    RootArraySteps6(s);
    RootArraySteps7(s);
    RootArraySteps8(s);
    RootArraySteps9(s);
    RootArrayPart1(s);
  }

  lemma RootArrayPart1(s: string)
    requires s == "[1, 2,  \"3\"]"
    ensures Run(s, RootArray10) == Ok(Array([Number("1"), Number("2"), String("3")]))
  {
    RootArraySteps10(s);
    RootArraySteps11(s);
    RootArraySteps12(s);
    RootArraySteps13(s);
  }

  // The configurations the run of RootArray passes through, by step.
  const RootArray0: Config := Config(0, [], [], [])
  const RootArray1: Config := Config(1, [StateWithCursor(ArrayOpen, 0)], [], [])
  const RootArray2: Config := Config(2, [StateWithCursor(ArrayOpen, 0), StateWithCursor(NumberOpen, 1)], [], [])
  const RootArray3: Config := Config(2, [StateWithCursor(ArrayOpen, 0)], [JsonWithStartCursor(Number("1"), 1)], [])
  const RootArray4: Config := Config(3, [StateWithCursor(ArrayOpen, 0)], [JsonWithStartCursor(Number("1"), 1)], [])
  const RootArray5: Config := Config(4, [StateWithCursor(ArrayOpen, 0)], [JsonWithStartCursor(Number("1"), 1)], [])
  const RootArray6: Config := Config(5, [StateWithCursor(ArrayOpen, 0), StateWithCursor(NumberOpen, 4)], [JsonWithStartCursor(Number("1"), 1)], [])
  const RootArray7: Config := Config(5, [StateWithCursor(ArrayOpen, 0)], [JsonWithStartCursor(Number("1"), 1), JsonWithStartCursor(Number("2"), 4)], [])
  const RootArray8: Config := Config(6, [StateWithCursor(ArrayOpen, 0)], [JsonWithStartCursor(Number("1"), 1), JsonWithStartCursor(Number("2"), 4)], [])
  const RootArray9: Config := Config(7, [StateWithCursor(ArrayOpen, 0)], [JsonWithStartCursor(Number("1"), 1), JsonWithStartCursor(Number("2"), 4)], [])
  const RootArray10: Config := Config(8, [StateWithCursor(ArrayOpen, 0)], [JsonWithStartCursor(Number("1"), 1), JsonWithStartCursor(Number("2"), 4)], [])
  const RootArray11: Config := Config(9, [StateWithCursor(ArrayOpen, 0), StateWithCursor(StringOpen, 8)], [JsonWithStartCursor(Number("1"), 1), JsonWithStartCursor(Number("2"), 4)], [])
  const RootArray12: Config := Config(10, [StateWithCursor(ArrayOpen, 0), StateWithCursor(StringOpen, 8)], [JsonWithStartCursor(Number("1"), 1), JsonWithStartCursor(Number("2"), 4)], [])
  const RootArray13: Config := Config(11, [StateWithCursor(ArrayOpen, 0)], [JsonWithStartCursor(Number("1"), 1), JsonWithStartCursor(Number("2"), 4), JsonWithStartCursor(String("3"), 8)], [])
  const RootArray14: Config := Config(12, [], [JsonWithStartCursor(Array([Number("1"), Number("2"), String("3")]), 0)], [])

  lemma RootArraySteps0(s: string)
    requires s == "[1, 2,  \"3\"]"
    ensures Run(s, RootArray0) == Run(s, RootArray1)
  {
    assert s[0] == '[';
    RunFrom(s, RootArray0, RootArray1);
  }

  lemma RootArraySteps1(s: string)
    requires s == "[1, 2,  \"3\"]"
    ensures Run(s, RootArray1) == Run(s, RootArray2)
  {
    assert s[1] == '1';
    RunFrom(s, RootArray1, RootArray2);
  }

  lemma RootArraySteps2(s: string)
    requires s == "[1, 2,  \"3\"]"
    ensures Run(s, RootArray2) == Run(s, RootArray3)
  {
    assert s[2] == ',';
    assert s[1] == '1';
    assert s[1..2] == "1";
    RunFrom(s, RootArray2, RootArray3);
  }

  lemma RootArraySteps3(s: string)
    requires s == "[1, 2,  \"3\"]"
    ensures Run(s, RootArray3) == Run(s, RootArray4)
  {
    assert s[2] == ',';
    RunFrom(s, RootArray3, RootArray4);
  }

  lemma RootArraySteps4(s: string)
    requires s == "[1, 2,  \"3\"]"
    ensures Run(s, RootArray4) == Run(s, RootArray5)
  {
    assert s[3] == ' ';
    RunFrom(s, RootArray4, RootArray5);
  }

  lemma RootArraySteps5(s: string)
    requires s == "[1, 2,  \"3\"]"
    ensures Run(s, RootArray5) == Run(s, RootArray6)
  {
    assert s[4] == '2';
    RunFrom(s, RootArray5, RootArray6);
  }

  lemma RootArraySteps6(s: string)
    requires s == "[1, 2,  \"3\"]"
    ensures Run(s, RootArray6) == Run(s, RootArray7)
  {
    assert s[5] == ',';
    assert s[4] == '2';
    assert s[4..5] == "2";
    RunFrom(s, RootArray6, RootArray7);
  }

  lemma RootArraySteps7(s: string)
    requires s == "[1, 2,  \"3\"]"
    ensures Run(s, RootArray7) == Run(s, RootArray8)
  {
    assert s[5] == ',';
    RunFrom(s, RootArray7, RootArray8);
  }

  lemma RootArraySteps8(s: string)
    requires s == "[1, 2,  \"3\"]"
    ensures Run(s, RootArray8) == Run(s, RootArray9)
  {
    assert s[6] == ' ';
    RunFrom(s, RootArray8, RootArray9);
  }

  lemma RootArraySteps9(s: string)
    requires s == "[1, 2,  \"3\"]"
    ensures Run(s, RootArray9) == Run(s, RootArray10)
  {
    assert s[7] == ' ';
    RunFrom(s, RootArray9, RootArray10);
  }

  lemma RootArraySteps10(s: string)
    requires s == "[1, 2,  \"3\"]"
    ensures Run(s, RootArray10) == Run(s, RootArray11)
  {
    assert s[8] == '\"';
    RunFrom(s, RootArray10, RootArray11);
  }

  lemma RootArraySteps11(s: string)
    requires s == "[1, 2,  \"3\"]"
    ensures Run(s, RootArray11) == Run(s, RootArray12)
  {
    assert s[9] == '3';
    RunFrom(s, RootArray11, RootArray12);
  }

  lemma RootArraySteps12(s: string)
    requires s == "[1, 2,  \"3\"]"
    ensures Run(s, RootArray12) == Run(s, RootArray13)
  {
    assert s[10] == '\"';
    assert s[9] == '3';
    assert s[9..10] == "3";
    RunFrom(s, RootArray12, RootArray13);
  }

  lemma RootArraySteps13(s: string)
    requires s == "[1, 2,  \"3\"]"
    ensures Run(s, RootArray13) == Run(s, RootArray14)
  {
    assert s[11] == ']';
    assert ArrayCut([JsonWithStartCursor(Number("1"), 1), JsonWithStartCursor(Number("2"), 4), JsonWithStartCursor(String("3"), 8)], 0) == 0;
    assert Jsons([JsonWithStartCursor(Number("1"), 1), JsonWithStartCursor(Number("2"), 4), JsonWithStartCursor(String("3"), 8)]) == Array([Number("1"), Number("2"), String("3")]).items;
    RunFrom(s, RootArray13, RootArray14);
  }

  /** The test some_thing_real (src/main.rs:428-435): an object of a number, a string holding a space and an empty array. */
  lemma SomeThingReal(s: string)
    requires s == "{ \"a\":1, \"b\":\" 2\", \"c\": [] }"
    ensures ParseSpec(s) == Ok(Object(map["c" := Array([]), "b" := String(" 2"), "a" := Number("1")]))
    ensures Get(ParseSpec(s).value, "a") == Number("1")
    ensures Get(ParseSpec(s).value, "b") == String(" 2")
    ensures Get(ParseSpec(s).value, "c") == Array([])
  {
    SomeThingRealPart0(s);
  }

  lemma SomeThingRealPart0(s: string)
    requires s == "{ \"a\":1, \"b\":\" 2\", \"c\": [] }"
    ensures Run(s, SomeThingReal0) == Ok(Object(map["c" := Array([]), "b" := String(" 2"), "a" := Number("1")]))
  {
    SomeThingRealSteps0(s);
    SomeThingRealSteps1(s);
    SomeThingRealSteps2(s);
    SomeThingRealSteps3(s);
    SomeThingRealSteps4(s);
    SomeThingRealSteps5(s);
    SomeThingRealSteps6(s);
    SomeThingRealSteps7(s);
    SomeThingRealSteps8(s);
    SomeThingRealSteps9(s);
    SomeThingRealPart1(s);
  }

  lemma SomeThingRealPart1(s: string)
    requires s == "{ \"a\":1, \"b\":\" 2\", \"c\": [] }"
    ensures Run(s, SomeThingReal10) == Ok(Object(map["c" := Array([]), "b" := String(" 2"), "a" := Number("1")]))
  {
    SomeThingRealSteps10(s);
    SomeThingRealSteps11(s);
    SomeThingRealSteps12(s);
    SomeThingRealSteps13(s);
    SomeThingRealSteps14(s);
    SomeThingRealSteps15(s);
    SomeThingRealSteps16(s);
    SomeThingRealSteps17(s);
    SomeThingRealSteps18(s);
    SomeThingRealSteps19(s);
    SomeThingRealPart2(s);
  }

  lemma SomeThingRealPart2(s: string)
    requires s == "{ \"a\":1, \"b\":\" 2\", \"c\": [] }"
    ensures Run(s, SomeThingReal20) == Ok(Object(map["c" := Array([]), "b" := String(" 2"), "a" := Number("1")]))
  {
    SomeThingRealSteps20(s);
    SomeThingRealSteps21(s);
    SomeThingRealSteps22(s);
    SomeThingRealSteps23(s);
    SomeThingRealSteps24(s);
    SomeThingRealSteps25(s);
    SomeThingRealSteps26(s);
    SomeThingRealSteps27(s);
    SomeThingRealSteps28(s);
  }

  // The configurations the run of SomeThingReal passes through, by step.
  const SomeThingReal0: Config := Config(0, [], [], [])
  const SomeThingReal1: Config := Config(1, [StateWithCursor(ObjectOpen, 0)], [], [ParseKey])
  const SomeThingReal2: Config := Config(2, [StateWithCursor(ObjectOpen, 0)], [], [ParseKey])
  const SomeThingReal3: Config := Config(3, [StateWithCursor(ObjectOpen, 0), StateWithCursor(StringOpen, 2)], [], [ParseKey])
  const SomeThingReal4: Config := Config(4, [StateWithCursor(ObjectOpen, 0), StateWithCursor(StringOpen, 2)], [], [ParseKey])
  const SomeThingReal5: Config := Config(5, [StateWithCursor(ObjectOpen, 0)], [JsonWithStartCursor(String("a"), 2)], [ParseKey])
  const SomeThingReal6: Config := Config(6, [StateWithCursor(ObjectOpen, 0)], [JsonWithStartCursor(String("a"), 2)], [ParseKey, ParseValue])
  const SomeThingReal7: Config := Config(7, [StateWithCursor(ObjectOpen, 0), StateWithCursor(NumberOpen, 6)], [JsonWithStartCursor(String("a"), 2)], [ParseKey, ParseValue])
  const SomeThingReal8: Config := Config(7, [StateWithCursor(ObjectOpen, 0)], [JsonWithStartCursor(String("a"), 2), JsonWithStartCursor(Number("1"), 6)], [ParseKey, ParseValue])
  const SomeThingReal9: Config := Config(8, [StateWithCursor(ObjectOpen, 0)], [JsonWithStartCursor(String("a"), 2), JsonWithStartCursor(Number("1"), 6)], [ParseKey, ParseValue, ParseKey])
  const SomeThingReal10: Config := Config(9, [StateWithCursor(ObjectOpen, 0)], [JsonWithStartCursor(String("a"), 2), JsonWithStartCursor(Number("1"), 6)], [ParseKey, ParseValue, ParseKey])
  const SomeThingReal11: Config := Config(10, [StateWithCursor(ObjectOpen, 0), StateWithCursor(StringOpen, 9)], [JsonWithStartCursor(String("a"), 2), JsonWithStartCursor(Number("1"), 6)], [ParseKey, ParseValue, ParseKey])
  const SomeThingReal12: Config := Config(11, [StateWithCursor(ObjectOpen, 0), StateWithCursor(StringOpen, 9)], [JsonWithStartCursor(String("a"), 2), JsonWithStartCursor(Number("1"), 6)], [ParseKey, ParseValue, ParseKey])
  const SomeThingReal13: Config := Config(12, [StateWithCursor(ObjectOpen, 0)], [JsonWithStartCursor(String("a"), 2), JsonWithStartCursor(Number("1"), 6), JsonWithStartCursor(String("b"), 9)], [ParseKey, ParseValue, ParseKey])
  const SomeThingReal14: Config := Config(13, [StateWithCursor(ObjectOpen, 0)], [JsonWithStartCursor(String("a"), 2), JsonWithStartCursor(Number("1"), 6), JsonWithStartCursor(String("b"), 9)], [ParseKey, ParseValue, ParseKey, ParseValue])
  const SomeThingReal15: Config := Config(14, [StateWithCursor(ObjectOpen, 0), StateWithCursor(StringOpen, 13)], [JsonWithStartCursor(String("a"), 2), JsonWithStartCursor(Number("1"), 6), JsonWithStartCursor(String("b"), 9)], [ParseKey, ParseValue, ParseKey, ParseValue])
  const SomeThingReal16: Config := Config(15, [StateWithCursor(ObjectOpen, 0), StateWithCursor(StringOpen, 13)], [JsonWithStartCursor(String("a"), 2), JsonWithStartCursor(Number("1"), 6), JsonWithStartCursor(String("b"), 9)], [ParseKey, ParseValue, ParseKey, ParseValue])
  const SomeThingReal17: Config := Config(16, [StateWithCursor(ObjectOpen, 0), StateWithCursor(StringOpen, 13)], [JsonWithStartCursor(String("a"), 2), JsonWithStartCursor(Number("1"), 6), JsonWithStartCursor(String("b"), 9)], [ParseKey, ParseValue, ParseKey, ParseValue])
  const SomeThingReal18: Config := Config(17, [StateWithCursor(ObjectOpen, 0)], [JsonWithStartCursor(String("a"), 2), JsonWithStartCursor(Number("1"), 6), JsonWithStartCursor(String("b"), 9), JsonWithStartCursor(String(" 2"), 13)], [ParseKey, ParseValue, ParseKey, ParseValue])
  const SomeThingReal19: Config := Config(18, [StateWithCursor(ObjectOpen, 0)], [JsonWithStartCursor(String("a"), 2), JsonWithStartCursor(Number("1"), 6), JsonWithStartCursor(String("b"), 9), JsonWithStartCursor(String(" 2"), 13)], [ParseKey, ParseValue, ParseKey, ParseValue, ParseKey])
  const SomeThingReal20: Config := Config(19, [StateWithCursor(ObjectOpen, 0)], [JsonWithStartCursor(String("a"), 2), JsonWithStartCursor(Number("1"), 6), JsonWithStartCursor(String("b"), 9), JsonWithStartCursor(String(" 2"), 13)], [ParseKey, ParseValue, ParseKey, ParseValue, ParseKey])
  const SomeThingReal21: Config := Config(20, [StateWithCursor(ObjectOpen, 0), StateWithCursor(StringOpen, 19)], [JsonWithStartCursor(String("a"), 2), JsonWithStartCursor(Number("1"), 6), JsonWithStartCursor(String("b"), 9), JsonWithStartCursor(String(" 2"), 13)], [ParseKey, ParseValue, ParseKey, ParseValue, ParseKey])
  const SomeThingReal22: Config := Config(21, [StateWithCursor(ObjectOpen, 0), StateWithCursor(StringOpen, 19)], [JsonWithStartCursor(String("a"), 2), JsonWithStartCursor(Number("1"), 6), JsonWithStartCursor(String("b"), 9), JsonWithStartCursor(String(" 2"), 13)], [ParseKey, ParseValue, ParseKey, ParseValue, ParseKey])
  const SomeThingReal23: Config := Config(22, [StateWithCursor(ObjectOpen, 0)], [JsonWithStartCursor(String("a"), 2), JsonWithStartCursor(Number("1"), 6), JsonWithStartCursor(String("b"), 9), JsonWithStartCursor(String(" 2"), 13), JsonWithStartCursor(String("c"), 19)], [ParseKey, ParseValue, ParseKey, ParseValue, ParseKey])
  const SomeThingReal24: Config := Config(23, [StateWithCursor(ObjectOpen, 0)], [JsonWithStartCursor(String("a"), 2), JsonWithStartCursor(Number("1"), 6), JsonWithStartCursor(String("b"), 9), JsonWithStartCursor(String(" 2"), 13), JsonWithStartCursor(String("c"), 19)], [ParseKey, ParseValue, ParseKey, ParseValue, ParseKey, ParseValue])
  const SomeThingReal25: Config := Config(24, [StateWithCursor(ObjectOpen, 0)], [JsonWithStartCursor(String("a"), 2), JsonWithStartCursor(Number("1"), 6), JsonWithStartCursor(String("b"), 9), JsonWithStartCursor(String(" 2"), 13), JsonWithStartCursor(String("c"), 19)], [ParseKey, ParseValue, ParseKey, ParseValue, ParseKey, ParseValue])
  const SomeThingReal26: Config := Config(25, [StateWithCursor(ObjectOpen, 0), StateWithCursor(ArrayOpen, 24)], [JsonWithStartCursor(String("a"), 2), JsonWithStartCursor(Number("1"), 6), JsonWithStartCursor(String("b"), 9), JsonWithStartCursor(String(" 2"), 13), JsonWithStartCursor(String("c"), 19)], [ParseKey, ParseValue, ParseKey, ParseValue, ParseKey, ParseValue])
  const SomeThingReal27: Config := Config(26, [StateWithCursor(ObjectOpen, 0)], [JsonWithStartCursor(String("a"), 2), JsonWithStartCursor(Number("1"), 6), JsonWithStartCursor(String("b"), 9), JsonWithStartCursor(String(" 2"), 13), JsonWithStartCursor(String("c"), 19), JsonWithStartCursor(Array([]), 24)], [ParseKey, ParseValue, ParseKey, ParseValue, ParseKey, ParseValue])
  const SomeThingReal28: Config := Config(27, [StateWithCursor(ObjectOpen, 0)], [JsonWithStartCursor(String("a"), 2), JsonWithStartCursor(Number("1"), 6), JsonWithStartCursor(String("b"), 9), JsonWithStartCursor(String(" 2"), 13), JsonWithStartCursor(String("c"), 19), JsonWithStartCursor(Array([]), 24)], [ParseKey, ParseValue, ParseKey, ParseValue, ParseKey, ParseValue])
  const SomeThingReal29: Config := Config(28, [], [JsonWithStartCursor(Object(map["c" := Array([]), "b" := String(" 2"), "a" := Number("1")]), 27)], [])

  lemma SomeThingRealSteps0(s: string)
    requires s == "{ \"a\":1, \"b\":\" 2\", \"c\": [] }"
    ensures Run(s, SomeThingReal0) == Run(s, SomeThingReal1)
  {
    assert s[0] == '{';
    RunFrom(s, SomeThingReal0, SomeThingReal1);
  }

  lemma SomeThingRealSteps1(s: string)
    requires s == "{ \"a\":1, \"b\":\" 2\", \"c\": [] }"
    ensures Run(s, SomeThingReal1) == Run(s, SomeThingReal2)
  {
    assert s[1] == ' ';
    RunFrom(s, SomeThingReal1, SomeThingReal2);
  }

  lemma SomeThingRealSteps2(s: string)
    requires s == "{ \"a\":1, \"b\":\" 2\", \"c\": [] }"
    ensures Run(s, SomeThingReal2) == Run(s, SomeThingReal3)
  {
    assert s[2] == '\"';
    RunFrom(s, SomeThingReal2, SomeThingReal3);
  }

  lemma SomeThingRealSteps3(s: string)
    requires s == "{ \"a\":1, \"b\":\" 2\", \"c\": [] }"
    ensures Run(s, SomeThingReal3) == Run(s, SomeThingReal4)
  {
    assert s[3] == 'a';
    RunFrom(s, SomeThingReal3, SomeThingReal4);
  }

  lemma SomeThingRealSteps4(s: string)
    requires s == "{ \"a\":1, \"b\":\" 2\", \"c\": [] }"
    ensures Run(s, SomeThingReal4) == Run(s, SomeThingReal5)
  {
    assert s[4] == '\"';
    assert s[3] == 'a';
    assert s[3..4] == "a";
    RunFrom(s, SomeThingReal4, SomeThingReal5);
  }

  lemma SomeThingRealSteps5(s: string)
    requires s == "{ \"a\":1, \"b\":\" 2\", \"c\": [] }"
    ensures Run(s, SomeThingReal5) == Run(s, SomeThingReal6)
  {
    assert s[5] == ':';
    RunFrom(s, SomeThingReal5, SomeThingReal6);
  }

  lemma SomeThingRealSteps6(s: string)
    requires s == "{ \"a\":1, \"b\":\" 2\", \"c\": [] }"
    ensures Run(s, SomeThingReal6) == Run(s, SomeThingReal7)
  {
    assert s[6] == '1';
    RunFrom(s, SomeThingReal6, SomeThingReal7);
  }

  lemma SomeThingRealSteps7(s: string)
    requires s == "{ \"a\":1, \"b\":\" 2\", \"c\": [] }"
    ensures Run(s, SomeThingReal7) == Run(s, SomeThingReal8)
  {
    assert s[7] == ',';
    assert s[6] == '1';
    assert s[6..7] == "1";
    RunFrom(s, SomeThingReal7, SomeThingReal8);
  }

  lemma SomeThingRealSteps8(s: string)
    requires s == "{ \"a\":1, \"b\":\" 2\", \"c\": [] }"
    ensures Run(s, SomeThingReal8) == Run(s, SomeThingReal9)
  {
    assert s[7] == ',';
    RunFrom(s, SomeThingReal8, SomeThingReal9);
  }

  lemma SomeThingRealSteps9(s: string)
    requires s == "{ \"a\":1, \"b\":\" 2\", \"c\": [] }"
    ensures Run(s, SomeThingReal9) == Run(s, SomeThingReal10)
  {
    assert s[8] == ' ';
    RunFrom(s, SomeThingReal9, SomeThingReal10);
  }

  lemma SomeThingRealSteps10(s: string)
    requires s == "{ \"a\":1, \"b\":\" 2\", \"c\": [] }"
    ensures Run(s, SomeThingReal10) == Run(s, SomeThingReal11)
  {
    assert s[9] == '\"';
    RunFrom(s, SomeThingReal10, SomeThingReal11);
  }

  lemma SomeThingRealSteps11(s: string)
    requires s == "{ \"a\":1, \"b\":\" 2\", \"c\": [] }"
    ensures Run(s, SomeThingReal11) == Run(s, SomeThingReal12)
  {
    assert s[10] == 'b';
    RunFrom(s, SomeThingReal11, SomeThingReal12);
  }

  lemma SomeThingRealSteps12(s: string)
    requires s == "{ \"a\":1, \"b\":\" 2\", \"c\": [] }"
    ensures Run(s, SomeThingReal12) == Run(s, SomeThingReal13)
  {
    assert s[11] == '\"';
    assert s[10] == 'b';
    assert s[10..11] == "b";
    RunFrom(s, SomeThingReal12, SomeThingReal13);
  }

  lemma SomeThingRealSteps13(s: string)
    requires s == "{ \"a\":1, \"b\":\" 2\", \"c\": [] }"
    ensures Run(s, SomeThingReal13) == Run(s, SomeThingReal14)
  {
    assert s[12] == ':';
    RunFrom(s, SomeThingReal13, SomeThingReal14);
  }

  lemma SomeThingRealSteps14(s: string)
    requires s == "{ \"a\":1, \"b\":\" 2\", \"c\": [] }"
    ensures Run(s, SomeThingReal14) == Run(s, SomeThingReal15)
  {
    assert s[13] == '\"';
    RunFrom(s, SomeThingReal14, SomeThingReal15);
  }

  lemma SomeThingRealSteps15(s: string)
    requires s == "{ \"a\":1, \"b\":\" 2\", \"c\": [] }"
    ensures Run(s, SomeThingReal15) == Run(s, SomeThingReal16)
  {
    assert s[14] == ' ';
    RunFrom(s, SomeThingReal15, SomeThingReal16);
  }

  lemma SomeThingRealSteps16(s: string)
    requires s == "{ \"a\":1, \"b\":\" 2\", \"c\": [] }"
    ensures Run(s, SomeThingReal16) == Run(s, SomeThingReal17)
  {
    assert s[15] == '2';
    RunFrom(s, SomeThingReal16, SomeThingReal17);
  }

  lemma SomeThingRealSteps17(s: string)
    requires s == "{ \"a\":1, \"b\":\" 2\", \"c\": [] }"
    ensures Run(s, SomeThingReal17) == Run(s, SomeThingReal18)
  {
    assert s[16] == '\"';
    assert s[14] == ' ';
    assert s[15] == '2';
    assert s[14..16] == " 2";
    RunFrom(s, SomeThingReal17, SomeThingReal18);
  }

  lemma SomeThingRealSteps18(s: string)
    requires s == "{ \"a\":1, \"b\":\" 2\", \"c\": [] }"
    ensures Run(s, SomeThingReal18) == Run(s, SomeThingReal19)
  {
    assert s[17] == ',';
    RunFrom(s, SomeThingReal18, SomeThingReal19);
  }

  lemma SomeThingRealSteps19(s: string)
    requires s == "{ \"a\":1, \"b\":\" 2\", \"c\": [] }"
    ensures Run(s, SomeThingReal19) == Run(s, SomeThingReal20)
  {
    assert s[18] == ' ';
    RunFrom(s, SomeThingReal19, SomeThingReal20);
  }

  lemma SomeThingRealSteps20(s: string)
    requires s == "{ \"a\":1, \"b\":\" 2\", \"c\": [] }"
    ensures Run(s, SomeThingReal20) == Run(s, SomeThingReal21)
  {
    assert s[19] == '\"';
    RunFrom(s, SomeThingReal20, SomeThingReal21);
  }

  lemma SomeThingRealSteps21(s: string)
    requires s == "{ \"a\":1, \"b\":\" 2\", \"c\": [] }"
    ensures Run(s, SomeThingReal21) == Run(s, SomeThingReal22)
  {
    assert s[20] == 'c';
    RunFrom(s, SomeThingReal21, SomeThingReal22);
  }

  lemma SomeThingRealSteps22(s: string)
    requires s == "{ \"a\":1, \"b\":\" 2\", \"c\": [] }"
    ensures Run(s, SomeThingReal22) == Run(s, SomeThingReal23)
  {
    assert s[21] == '\"';
    assert s[20] == 'c';
    assert s[20..21] == "c";
    RunFrom(s, SomeThingReal22, SomeThingReal23);
  }

  lemma SomeThingRealSteps23(s: string)
    requires s == "{ \"a\":1, \"b\":\" 2\", \"c\": [] }"
    ensures Run(s, SomeThingReal23) == Run(s, SomeThingReal24)
  {
    assert s[22] == ':';
    RunFrom(s, SomeThingReal23, SomeThingReal24);
  }

  lemma SomeThingRealSteps24(s: string)
    requires s == "{ \"a\":1, \"b\":\" 2\", \"c\": [] }"
    ensures Run(s, SomeThingReal24) == Run(s, SomeThingReal25)
  {
    assert s[23] == ' ';
    RunFrom(s, SomeThingReal24, SomeThingReal25);
  }

  lemma SomeThingRealSteps25(s: string)
    requires s == "{ \"a\":1, \"b\":\" 2\", \"c\": [] }"
    ensures Run(s, SomeThingReal25) == Run(s, SomeThingReal26)
  {
    assert s[24] == '[';
    RunFrom(s, SomeThingReal25, SomeThingReal26);
  }

  lemma SomeThingRealSteps26(s: string)
    requires s == "{ \"a\":1, \"b\":\" 2\", \"c\": [] }"
    ensures Run(s, SomeThingReal26) == Run(s, SomeThingReal27)
  {
    assert s[25] == ']';
    assert ArrayCut([JsonWithStartCursor(String("a"), 2), JsonWithStartCursor(Number("1"), 6), JsonWithStartCursor(String("b"), 9), JsonWithStartCursor(String(" 2"), 13), JsonWithStartCursor(String("c"), 19)], 24) == 5;
    assert Jsons([]) == Array([]).items;
    RunFrom(s, SomeThingReal26, SomeThingReal27);
  }

  lemma SomeThingRealSteps27(s: string)
    requires s == "{ \"a\":1, \"b\":\" 2\", \"c\": [] }"
    ensures Run(s, SomeThingReal27) == Run(s, SomeThingReal28)
  {
    assert s[26] == ' ';
    RunFrom(s, SomeThingReal27, SomeThingReal28);
  }

  lemma SomeThingRealSteps28(s: string)
    requires s == "{ \"a\":1, \"b\":\" 2\", \"c\": [] }"
    ensures Run(s, SomeThingReal28) == Run(s, SomeThingReal29)
  {
    assert s[27] == '}';
    SomeThingRealClose28();
    var cfg := Config(27, [StateWithCursor(ObjectOpen, 0)], [JsonWithStartCursor(String("a"), 2), JsonWithStartCursor(Number("1"), 6), JsonWithStartCursor(String("b"), 9), JsonWithStartCursor(String(" 2"), 13), JsonWithStartCursor(String("c"), 19), JsonWithStartCursor(Array([]), 24)], [ParseKey, ParseValue, ParseKey, ParseValue, ParseKey, ParseValue]);
    var closed := ObjectClose([], [], map["c" := Array([]), "b" := String(" 2"), "a" := Number("1")]);
    var next := Config(28, [], [JsonWithStartCursor(Object(map["c" := Array([]), "b" := String(" 2"), "a" := Number("1")]), 27)], []);
    assert Pop(cfg.states) == next.states;
    assert closed.results + [JsonWithStartCursor(Object(closed.fields), cfg.cursor)] == next.results;
    CloseFrom(s, cfg, closed, next);
  }

  lemma SomeThingRealClose28()
    ensures CloseObjectLoop([JsonWithStartCursor(String("a"), 2), JsonWithStartCursor(Number("1"), 6), JsonWithStartCursor(String("b"), 9), JsonWithStartCursor(String(" 2"), 13), JsonWithStartCursor(String("c"), 19), JsonWithStartCursor(Array([]), 24)], [ParseKey, ParseValue, ParseKey, ParseValue, ParseKey, ParseValue], 0, 27, map[]) == Ok(ObjectClose([], [], map["c" := Array([]), "b" := String(" 2"), "a" := Number("1")]))
  {
    SomeThingRealClose28Round0();
    SomeThingRealClose28Round1();
    SomeThingRealClose28Round2();
    assert map[]["c" := Array([])]["b" := String(" 2")]["a" := Number("1")] == map["c" := Array([]), "b" := String(" 2"), "a" := Number("1")];
    assert CloseObjectLoop([], [], 0, 27, map[]["c" := Array([])]["b" := String(" 2")]["a" := Number("1")]) == Ok(ObjectClose([], [], map["c" := Array([]), "b" := String(" 2"), "a" := Number("1")]));
  }

  lemma SomeThingRealClose28Round0()
    ensures CloseObjectLoop([JsonWithStartCursor(String("a"), 2), JsonWithStartCursor(Number("1"), 6), JsonWithStartCursor(String("b"), 9), JsonWithStartCursor(String(" 2"), 13), JsonWithStartCursor(String("c"), 19), JsonWithStartCursor(Array([]), 24)], [ParseKey, ParseValue, ParseKey, ParseValue, ParseKey, ParseValue], 0, 27, map[]) == CloseObjectLoop([JsonWithStartCursor(String("a"), 2), JsonWithStartCursor(Number("1"), 6), JsonWithStartCursor(String("b"), 9), JsonWithStartCursor(String(" 2"), 13)], [ParseKey, ParseValue, ParseKey, ParseValue], 0, 27, map[]["c" := Array([])])
  {
    var rest: seq<JsonWithStartCursor> := [JsonWithStartCursor(String("a"), 2), JsonWithStartCursor(Number("1"), 6), JsonWithStartCursor(String("b"), 9), JsonWithStartCursor(String(" 2"), 13)];
    var phases: seq<ObjectParseState> := [ParseKey, ParseValue, ParseKey, ParseValue];
    var key := JsonWithStartCursor(String("c"), 19);
    var value := JsonWithStartCursor(Array([]), 24);
    CloseRound(rest, "c", 19, value, phases, ParseKey, ParseValue, 0, 27, map[]);
    assert rest + [key, value] == [JsonWithStartCursor(String("a"), 2), JsonWithStartCursor(Number("1"), 6), JsonWithStartCursor(String("b"), 9), JsonWithStartCursor(String(" 2"), 13), JsonWithStartCursor(String("c"), 19), JsonWithStartCursor(Array([]), 24)];
    assert phases + [ParseKey, ParseValue] == [ParseKey, ParseValue, ParseKey, ParseValue, ParseKey, ParseValue];
  }

  lemma SomeThingRealClose28Round1()
    ensures CloseObjectLoop([JsonWithStartCursor(String("a"), 2), JsonWithStartCursor(Number("1"), 6), JsonWithStartCursor(String("b"), 9), JsonWithStartCursor(String(" 2"), 13)], [ParseKey, ParseValue, ParseKey, ParseValue], 0, 27, map[]["c" := Array([])]) == CloseObjectLoop([JsonWithStartCursor(String("a"), 2), JsonWithStartCursor(Number("1"), 6)], [ParseKey, ParseValue], 0, 27, map[]["c" := Array([])]["b" := String(" 2")])
  {
    var rest: seq<JsonWithStartCursor> := [JsonWithStartCursor(String("a"), 2), JsonWithStartCursor(Number("1"), 6)];
    var phases: seq<ObjectParseState> := [ParseKey, ParseValue];
    var key := JsonWithStartCursor(String("b"), 9);
    var value := JsonWithStartCursor(String(" 2"), 13);
    CloseRound(rest, "b", 9, value, phases, ParseKey, ParseValue, 0, 27, map[]["c" := Array([])]);
    assert rest + [key, value] == [JsonWithStartCursor(String("a"), 2), JsonWithStartCursor(Number("1"), 6), JsonWithStartCursor(String("b"), 9), JsonWithStartCursor(String(" 2"), 13)];
    assert phases + [ParseKey, ParseValue] == [ParseKey, ParseValue, ParseKey, ParseValue];
  }

  lemma SomeThingRealClose28Round2()
    ensures CloseObjectLoop([JsonWithStartCursor(String("a"), 2), JsonWithStartCursor(Number("1"), 6)], [ParseKey, ParseValue], 0, 27, map[]["c" := Array([])]["b" := String(" 2")]) == CloseObjectLoop([], [], 0, 27, map[]["c" := Array([])]["b" := String(" 2")]["a" := Number("1")])
  {
    var rest: seq<JsonWithStartCursor> := [];
    var phases: seq<ObjectParseState> := [];
    var key := JsonWithStartCursor(String("a"), 2);
    var value := JsonWithStartCursor(Number("1"), 6);
    CloseRound(rest, "a", 2, value, phases, ParseKey, ParseValue, 0, 27, map[]["c" := Array([])]["b" := String(" 2")]);
    assert rest + [key, value] == [JsonWithStartCursor(String("a"), 2), JsonWithStartCursor(Number("1"), 6)];
    assert phases + [ParseKey, ParseValue] == [ParseKey, ParseValue];
  }

  /** The test nested_obj (src/main.rs:437-444): an object nested as a value; lookups chain. */
  lemma NestedObject(s: string)
    requires s == "{ \"a\": { \"a\":3.414, \"b\":\" 2\", \"c\": [] } }"
    ensures ParseSpec(s) == Ok(Object(map["a" := Object(map["c" := Array([]), "b" := String(" 2"), "a" := Number("3.414")])]))
    ensures Get(Get(ParseSpec(s).value, "a"), "a") == Number("3.414")
    ensures Get(Get(ParseSpec(s).value, "a"), "b") == String(" 2")
    ensures Get(Get(ParseSpec(s).value, "a"), "c") == Array([])
  {
    NestedObjectPart0(s);
  }

  lemma NestedObjectPart0(s: string)
    requires s == "{ \"a\": { \"a\":3.414, \"b\":\" 2\", \"c\": [] } }"
    ensures Run(s, NestedObject0) == Ok(Object(map["a" := Object(map["c" := Array([]), "b" := String(" 2"), "a" := Number("3.414")])]))
  {
    NestedObjectSteps0(s);
    NestedObjectSteps1(s);
    NestedObjectSteps2(s);
    NestedObjectSteps3(s);
    NestedObjectSteps4(s);
    NestedObjectSteps5(s);
    NestedObjectSteps6(s);
    NestedObjectSteps7(s);
    NestedObjectSteps8(s);
    NestedObjectSteps9(s);
    NestedObjectPart1(s);
  }

  lemma NestedObjectPart1(s: string)
    requires s == "{ \"a\": { \"a\":3.414, \"b\":\" 2\", \"c\": [] } }"
    ensures Run(s, NestedObject10) == Ok(Object(map["a" := Object(map["c" := Array([]), "b" := String(" 2"), "a" := Number("3.414")])]))
  {
    NestedObjectSteps10(s);
    NestedObjectSteps11(s);
    NestedObjectSteps12(s);
    NestedObjectSteps13(s);
    NestedObjectSteps14(s);
    NestedObjectSteps15(s);
    NestedObjectSteps16(s);
    NestedObjectSteps17(s);
    NestedObjectSteps18(s);
    NestedObjectSteps19(s);
    NestedObjectPart2(s);
  }

  lemma NestedObjectPart2(s: string)
    requires s == "{ \"a\": { \"a\":3.414, \"b\":\" 2\", \"c\": [] } }"
    ensures Run(s, NestedObject20) == Ok(Object(map["a" := Object(map["c" := Array([]), "b" := String(" 2"), "a" := Number("3.414")])]))
  {
    NestedObjectSteps20(s);
    NestedObjectSteps21(s);
    NestedObjectSteps22(s);
    NestedObjectSteps23(s);
    NestedObjectSteps24(s);
    NestedObjectSteps25(s);
    NestedObjectSteps26(s);
    NestedObjectSteps27(s);
    NestedObjectSteps28(s);
    NestedObjectSteps29(s);
    NestedObjectPart3(s);
  }

  lemma NestedObjectPart3(s: string)
    requires s == "{ \"a\": { \"a\":3.414, \"b\":\" 2\", \"c\": [] } }"
    ensures Run(s, NestedObject30) == Ok(Object(map["a" := Object(map["c" := Array([]), "b" := String(" 2"), "a" := Number("3.414")])]))
  {
    NestedObjectSteps30(s);
    NestedObjectSteps31(s);
    NestedObjectSteps32(s);
    NestedObjectSteps33(s);
    NestedObjectSteps34(s);
    NestedObjectSteps35(s);
    NestedObjectSteps36(s);
    NestedObjectSteps37(s);
    NestedObjectSteps38(s);
    NestedObjectSteps39(s);
    NestedObjectPart4(s);
  }

  lemma NestedObjectPart4(s: string)
    requires s == "{ \"a\": { \"a\":3.414, \"b\":\" 2\", \"c\": [] } }"
    ensures Run(s, NestedObject40) == Ok(Object(map["a" := Object(map["c" := Array([]), "b" := String(" 2"), "a" := Number("3.414")])]))
  {
    NestedObjectSteps40(s);
    NestedObjectSteps41(s);
  }

  // The configurations the run of NestedObject passes through, by step.
  const NestedObject0: Config := Config(0, [], [], [])
  const NestedObject1: Config := Config(1, [StateWithCursor(ObjectOpen, 0)], [], [ParseKey])
  const NestedObject2: Config := Config(2, [StateWithCursor(ObjectOpen, 0)], [], [ParseKey])
  const NestedObject3: Config := Config(3, [StateWithCursor(ObjectOpen, 0), StateWithCursor(StringOpen, 2)], [], [ParseKey])
  const NestedObject4: Config := Config(4, [StateWithCursor(ObjectOpen, 0), StateWithCursor(StringOpen, 2)], [], [ParseKey])
  const NestedObject5: Config := Config(5, [StateWithCursor(ObjectOpen, 0)], [JsonWithStartCursor(String("a"), 2)], [ParseKey])
  const NestedObject6: Config := Config(6, [StateWithCursor(ObjectOpen, 0)], [JsonWithStartCursor(String("a"), 2)], [ParseKey, ParseValue])
  const NestedObject7: Config := Config(7, [StateWithCursor(ObjectOpen, 0)], [JsonWithStartCursor(String("a"), 2)], [ParseKey, ParseValue])
  const NestedObject8: Config := Config(8, [StateWithCursor(ObjectOpen, 0), StateWithCursor(ObjectOpen, 7)], [JsonWithStartCursor(String("a"), 2)], [ParseKey, ParseValue, ParseKey])
  const NestedObject9: Config := Config(9, [StateWithCursor(ObjectOpen, 0), StateWithCursor(ObjectOpen, 7)], [JsonWithStartCursor(String("a"), 2)], [ParseKey, ParseValue, ParseKey])
  const NestedObject10: Config := Config(10, [StateWithCursor(ObjectOpen, 0), StateWithCursor(ObjectOpen, 7), StateWithCursor(StringOpen, 9)], [JsonWithStartCursor(String("a"), 2)], [ParseKey, ParseValue, ParseKey])
  const NestedObject11: Config := Config(11, [StateWithCursor(ObjectOpen, 0), StateWithCursor(ObjectOpen, 7), StateWithCursor(StringOpen, 9)], [JsonWithStartCursor(String("a"), 2)], [ParseKey, ParseValue, ParseKey])
  const NestedObject12: Config := Config(12, [StateWithCursor(ObjectOpen, 0), StateWithCursor(ObjectOpen, 7)], [JsonWithStartCursor(String("a"), 2), JsonWithStartCursor(String("a"), 9)], [ParseKey, ParseValue, ParseKey])
  const NestedObject13: Config := Config(13, [StateWithCursor(ObjectOpen, 0), StateWithCursor(ObjectOpen, 7)], [JsonWithStartCursor(String("a"), 2), JsonWithStartCursor(String("a"), 9)], [ParseKey, ParseValue, ParseKey, ParseValue])
  const NestedObject14: Config := Config(14, [StateWithCursor(ObjectOpen, 0), StateWithCursor(ObjectOpen, 7), StateWithCursor(NumberOpen, 13)], [JsonWithStartCursor(String("a"), 2), JsonWithStartCursor(String("a"), 9)], [ParseKey, ParseValue, ParseKey, ParseValue])
  const NestedObject15: Config := Config(15, [StateWithCursor(ObjectOpen, 0), StateWithCursor(ObjectOpen, 7), StateWithCursor(NumberOpen, 13)], [JsonWithStartCursor(String("a"), 2), JsonWithStartCursor(String("a"), 9)], [ParseKey, ParseValue, ParseKey, ParseValue])
  const NestedObject16: Config := Config(16, [StateWithCursor(ObjectOpen, 0), StateWithCursor(ObjectOpen, 7), StateWithCursor(NumberOpen, 13)], [JsonWithStartCursor(String("a"), 2), JsonWithStartCursor(String("a"), 9)], [ParseKey, ParseValue, ParseKey, ParseValue])
  const NestedObject17: Config := Config(17, [StateWithCursor(ObjectOpen, 0), StateWithCursor(ObjectOpen, 7), StateWithCursor(NumberOpen, 13)], [JsonWithStartCursor(String("a"), 2), JsonWithStartCursor(String("a"), 9)], [ParseKey, ParseValue, ParseKey, ParseValue])
  const NestedObject18: Config := Config(18, [StateWithCursor(ObjectOpen, 0), StateWithCursor(ObjectOpen, 7), StateWithCursor(NumberOpen, 13)], [JsonWithStartCursor(String("a"), 2), JsonWithStartCursor(String("a"), 9)], [ParseKey, ParseValue, ParseKey, ParseValue])
  const NestedObject19: Config := Config(18, [StateWithCursor(ObjectOpen, 0), StateWithCursor(ObjectOpen, 7)], [JsonWithStartCursor(String("a"), 2), JsonWithStartCursor(String("a"), 9), JsonWithStartCursor(Number("3.414"), 13)], [ParseKey, ParseValue, ParseKey, ParseValue])
  const NestedObject20: Config := Config(19, [StateWithCursor(ObjectOpen, 0), StateWithCursor(ObjectOpen, 7)], [JsonWithStartCursor(String("a"), 2), JsonWithStartCursor(String("a"), 9), JsonWithStartCursor(Number("3.414"), 13)], [ParseKey, ParseValue, ParseKey, ParseValue, ParseKey])
  const NestedObject21: Config := Config(20, [StateWithCursor(ObjectOpen, 0), StateWithCursor(ObjectOpen, 7)], [JsonWithStartCursor(String("a"), 2), JsonWithStartCursor(String("a"), 9), JsonWithStartCursor(Number("3.414"), 13)], [ParseKey, ParseValue, ParseKey, ParseValue, ParseKey])
  const NestedObject22: Config := Config(21, [StateWithCursor(ObjectOpen, 0), StateWithCursor(ObjectOpen, 7), StateWithCursor(StringOpen, 20)], [JsonWithStartCursor(String("a"), 2), JsonWithStartCursor(String("a"), 9), JsonWithStartCursor(Number("3.414"), 13)], [ParseKey, ParseValue, ParseKey, ParseValue, ParseKey])
  const NestedObject23: Config := Config(22, [StateWithCursor(ObjectOpen, 0), StateWithCursor(ObjectOpen, 7), StateWithCursor(StringOpen, 20)], [JsonWithStartCursor(String("a"), 2), JsonWithStartCursor(String("a"), 9), JsonWithStartCursor(Number("3.414"), 13)], [ParseKey, ParseValue, ParseKey, ParseValue, ParseKey])
  const NestedObject24: Config := Config(23, [StateWithCursor(ObjectOpen, 0), StateWithCursor(ObjectOpen, 7)], [JsonWithStartCursor(String("a"), 2), JsonWithStartCursor(String("a"), 9), JsonWithStartCursor(Number("3.414"), 13), JsonWithStartCursor(String("b"), 20)], [ParseKey, ParseValue, ParseKey, ParseValue, ParseKey])
  const NestedObject25: Config := Config(24, [StateWithCursor(ObjectOpen, 0), StateWithCursor(ObjectOpen, 7)], [JsonWithStartCursor(String("a"), 2), JsonWithStartCursor(String("a"), 9), JsonWithStartCursor(Number("3.414"), 13), JsonWithStartCursor(String("b"), 20)], [ParseKey, ParseValue, ParseKey, ParseValue, ParseKey, ParseValue])
  const NestedObject26: Config := Config(25, [StateWithCursor(ObjectOpen, 0), StateWithCursor(ObjectOpen, 7), StateWithCursor(StringOpen, 24)], [JsonWithStartCursor(String("a"), 2), JsonWithStartCursor(String("a"), 9), JsonWithStartCursor(Number("3.414"), 13), JsonWithStartCursor(String("b"), 20)], [ParseKey, ParseValue, ParseKey, ParseValue, ParseKey, ParseValue])
  const NestedObject27: Config := Config(26, [StateWithCursor(ObjectOpen, 0), StateWithCursor(ObjectOpen, 7), StateWithCursor(StringOpen, 24)], [JsonWithStartCursor(String("a"), 2), JsonWithStartCursor(String("a"), 9), JsonWithStartCursor(Number("3.414"), 13), JsonWithStartCursor(String("b"), 20)], [ParseKey, ParseValue, ParseKey, ParseValue, ParseKey, ParseValue])
  const NestedObject28: Config := Config(27, [StateWithCursor(ObjectOpen, 0), StateWithCursor(ObjectOpen, 7), StateWithCursor(StringOpen, 24)], [JsonWithStartCursor(String("a"), 2), JsonWithStartCursor(String("a"), 9), JsonWithStartCursor(Number("3.414"), 13), JsonWithStartCursor(String("b"), 20)], [ParseKey, ParseValue, ParseKey, ParseValue, ParseKey, ParseValue])
  const NestedObject29: Config := Config(28, [StateWithCursor(ObjectOpen, 0), StateWithCursor(ObjectOpen, 7)], [JsonWithStartCursor(String("a"), 2), JsonWithStartCursor(String("a"), 9), JsonWithStartCursor(Number("3.414"), 13), JsonWithStartCursor(String("b"), 20), JsonWithStartCursor(String(" 2"), 24)], [ParseKey, ParseValue, ParseKey, ParseValue, ParseKey, ParseValue])
  const NestedObject30: Config := Config(29, [StateWithCursor(ObjectOpen, 0), StateWithCursor(ObjectOpen, 7)], [JsonWithStartCursor(String("a"), 2), JsonWithStartCursor(String("a"), 9), JsonWithStartCursor(Number("3.414"), 13), JsonWithStartCursor(String("b"), 20), JsonWithStartCursor(String(" 2"), 24)], [ParseKey, ParseValue, ParseKey, ParseValue, ParseKey, ParseValue, ParseKey])
  const NestedObject31: Config := Config(30, [StateWithCursor(ObjectOpen, 0), StateWithCursor(ObjectOpen, 7)], [JsonWithStartCursor(String("a"), 2), JsonWithStartCursor(String("a"), 9), JsonWithStartCursor(Number("3.414"), 13), JsonWithStartCursor(String("b"), 20), JsonWithStartCursor(String(" 2"), 24)], [ParseKey, ParseValue, ParseKey, ParseValue, ParseKey, ParseValue, ParseKey])
  const NestedObject32: Config := Config(31, [StateWithCursor(ObjectOpen, 0), StateWithCursor(ObjectOpen, 7), StateWithCursor(StringOpen, 30)], [JsonWithStartCursor(String("a"), 2), JsonWithStartCursor(String("a"), 9), JsonWithStartCursor(Number("3.414"), 13), JsonWithStartCursor(String("b"), 20), JsonWithStartCursor(String(" 2"), 24)], [ParseKey, ParseValue, ParseKey, ParseValue, ParseKey, ParseValue, ParseKey])
  const NestedObject33: Config := Config(32, [StateWithCursor(ObjectOpen, 0), StateWithCursor(ObjectOpen, 7), StateWithCursor(StringOpen, 30)], [JsonWithStartCursor(String("a"), 2), JsonWithStartCursor(String("a"), 9), JsonWithStartCursor(Number("3.414"), 13), JsonWithStartCursor(String("b"), 20), JsonWithStartCursor(String(" 2"), 24)], [ParseKey, ParseValue, ParseKey, ParseValue, ParseKey, ParseValue, ParseKey])
  const NestedObject34: Config := Config(33, [StateWithCursor(ObjectOpen, 0), StateWithCursor(ObjectOpen, 7)], [JsonWithStartCursor(String("a"), 2), JsonWithStartCursor(String("a"), 9), JsonWithStartCursor(Number("3.414"), 13), JsonWithStartCursor(String("b"), 20), JsonWithStartCursor(String(" 2"), 24), JsonWithStartCursor(String("c"), 30)], [ParseKey, ParseValue, ParseKey, ParseValue, ParseKey, ParseValue, ParseKey])
  const NestedObject35: Config := Config(34, [StateWithCursor(ObjectOpen, 0), StateWithCursor(ObjectOpen, 7)], [JsonWithStartCursor(String("a"), 2), JsonWithStartCursor(String("a"), 9), JsonWithStartCursor(Number("3.414"), 13), JsonWithStartCursor(String("b"), 20), JsonWithStartCursor(String(" 2"), 24), JsonWithStartCursor(String("c"), 30)], [ParseKey, ParseValue, ParseKey, ParseValue, ParseKey, ParseValue, ParseKey, ParseValue])
  const NestedObject36: Config := Config(35, [StateWithCursor(ObjectOpen, 0), StateWithCursor(ObjectOpen, 7)], [JsonWithStartCursor(String("a"), 2), JsonWithStartCursor(String("a"), 9), JsonWithStartCursor(Number("3.414"), 13), JsonWithStartCursor(String("b"), 20), JsonWithStartCursor(String(" 2"), 24), JsonWithStartCursor(String("c"), 30)], [ParseKey, ParseValue, ParseKey, ParseValue, ParseKey, ParseValue, ParseKey, ParseValue])
  const NestedObject37: Config := Config(36, [StateWithCursor(ObjectOpen, 0), StateWithCursor(ObjectOpen, 7), StateWithCursor(ArrayOpen, 35)], [JsonWithStartCursor(String("a"), 2), JsonWithStartCursor(String("a"), 9), JsonWithStartCursor(Number("3.414"), 13), JsonWithStartCursor(String("b"), 20), JsonWithStartCursor(String(" 2"), 24), JsonWithStartCursor(String("c"), 30)], [ParseKey, ParseValue, ParseKey, ParseValue, ParseKey, ParseValue, ParseKey, ParseValue])
  const NestedObject38: Config := Config(37, [StateWithCursor(ObjectOpen, 0), StateWithCursor(ObjectOpen, 7)], [JsonWithStartCursor(String("a"), 2), JsonWithStartCursor(String("a"), 9), JsonWithStartCursor(Number("3.414"), 13), JsonWithStartCursor(String("b"), 20), JsonWithStartCursor(String(" 2"), 24), JsonWithStartCursor(String("c"), 30), JsonWithStartCursor(Array([]), 35)], [ParseKey, ParseValue, ParseKey, ParseValue, ParseKey, ParseValue, ParseKey, ParseValue])
  const NestedObject39: Config := Config(38, [StateWithCursor(ObjectOpen, 0), StateWithCursor(ObjectOpen, 7)], [JsonWithStartCursor(String("a"), 2), JsonWithStartCursor(String("a"), 9), JsonWithStartCursor(Number("3.414"), 13), JsonWithStartCursor(String("b"), 20), JsonWithStartCursor(String(" 2"), 24), JsonWithStartCursor(String("c"), 30), JsonWithStartCursor(Array([]), 35)], [ParseKey, ParseValue, ParseKey, ParseValue, ParseKey, ParseValue, ParseKey, ParseValue])
  const NestedObject40: Config := Config(39, [StateWithCursor(ObjectOpen, 0)], [JsonWithStartCursor(String("a"), 2), JsonWithStartCursor(Object(map["c" := Array([]), "b" := String(" 2"), "a" := Number("3.414")]), 38)], [ParseKey, ParseValue])
  const NestedObject41: Config := Config(40, [StateWithCursor(ObjectOpen, 0)], [JsonWithStartCursor(String("a"), 2), JsonWithStartCursor(Object(map["c" := Array([]), "b" := String(" 2"), "a" := Number("3.414")]), 38)], [ParseKey, ParseValue])
  const NestedObject42: Config := Config(41, [], [JsonWithStartCursor(Object(map["a" := Object(map["c" := Array([]), "b" := String(" 2"), "a" := Number("3.414")])]), 40)], [])

  lemma NestedObjectSteps0(s: string)
    requires s == "{ \"a\": { \"a\":3.414, \"b\":\" 2\", \"c\": [] } }"
    ensures Run(s, NestedObject0) == Run(s, NestedObject1)
  {
    assert s[0] == '{';
    RunFrom(s, NestedObject0, NestedObject1);
  }

  lemma NestedObjectSteps1(s: string)
    requires s == "{ \"a\": { \"a\":3.414, \"b\":\" 2\", \"c\": [] } }"
    ensures Run(s, NestedObject1) == Run(s, NestedObject2)
  {
    assert s[1] == ' ';
    RunFrom(s, NestedObject1, NestedObject2);
  }

  lemma NestedObjectSteps2(s: string)
    requires s == "{ \"a\": { \"a\":3.414, \"b\":\" 2\", \"c\": [] } }"
    ensures Run(s, NestedObject2) == Run(s, NestedObject3)
  {
    assert s[2] == '\"';
    RunFrom(s, NestedObject2, NestedObject3);
  }

  lemma NestedObjectSteps3(s: string)
    requires s == "{ \"a\": { \"a\":3.414, \"b\":\" 2\", \"c\": [] } }"
    ensures Run(s, NestedObject3) == Run(s, NestedObject4)
  {
    assert s[3] == 'a';
    RunFrom(s, NestedObject3, NestedObject4);
  }

  lemma NestedObjectSteps4(s: string)
    requires s == "{ \"a\": { \"a\":3.414, \"b\":\" 2\", \"c\": [] } }"
    ensures Run(s, NestedObject4) == Run(s, NestedObject5)
  {
    assert s[4] == '\"';
    assert s[3] == 'a';
    assert s[3..4] == "a";
    RunFrom(s, NestedObject4, NestedObject5);
  }

  lemma NestedObjectSteps5(s: string)
    requires s == "{ \"a\": { \"a\":3.414, \"b\":\" 2\", \"c\": [] } }"
    ensures Run(s, NestedObject5) == Run(s, NestedObject6)
  {
    assert s[5] == ':';
    RunFrom(s, NestedObject5, NestedObject6);
  }

  lemma NestedObjectSteps6(s: string)
    requires s == "{ \"a\": { \"a\":3.414, \"b\":\" 2\", \"c\": [] } }"
    ensures Run(s, NestedObject6) == Run(s, NestedObject7)
  {
    assert s[6] == ' ';
    RunFrom(s, NestedObject6, NestedObject7);
  }

  lemma NestedObjectSteps7(s: string)
    requires s == "{ \"a\": { \"a\":3.414, \"b\":\" 2\", \"c\": [] } }"
    ensures Run(s, NestedObject7) == Run(s, NestedObject8)
  {
    assert s[7] == '{';
    RunFrom(s, NestedObject7, NestedObject8);
  }

  lemma NestedObjectSteps8(s: string)
    requires s == "{ \"a\": { \"a\":3.414, \"b\":\" 2\", \"c\": [] } }"
    ensures Run(s, NestedObject8) == Run(s, NestedObject9)
  {
    assert s[8] == ' ';
    RunFrom(s, NestedObject8, NestedObject9);
  }

  lemma NestedObjectSteps9(s: string)
    requires s == "{ \"a\": { \"a\":3.414, \"b\":\" 2\", \"c\": [] } }"
    ensures Run(s, NestedObject9) == Run(s, NestedObject10)
  {
    assert s[9] == '\"';
    RunFrom(s, NestedObject9, NestedObject10);
  }

  lemma NestedObjectSteps10(s: string)
    requires s == "{ \"a\": { \"a\":3.414, \"b\":\" 2\", \"c\": [] } }"
    ensures Run(s, NestedObject10) == Run(s, NestedObject11)
  {
    assert s[10] == 'a';
    RunFrom(s, NestedObject10, NestedObject11);
  }

  lemma NestedObjectSteps11(s: string)
    requires s == "{ \"a\": { \"a\":3.414, \"b\":\" 2\", \"c\": [] } }"
    ensures Run(s, NestedObject11) == Run(s, NestedObject12)
  {
    assert s[11] == '\"';
    assert s[10] == 'a';
    assert s[10..11] == "a";
    RunFrom(s, NestedObject11, NestedObject12);
  }

  lemma NestedObjectSteps12(s: string)
    requires s == "{ \"a\": { \"a\":3.414, \"b\":\" 2\", \"c\": [] } }"
    ensures Run(s, NestedObject12) == Run(s, NestedObject13)
  {
    assert s[12] == ':';
    RunFrom(s, NestedObject12, NestedObject13);
  }

  lemma NestedObjectSteps13(s: string)
    requires s == "{ \"a\": { \"a\":3.414, \"b\":\" 2\", \"c\": [] } }"
    ensures Run(s, NestedObject13) == Run(s, NestedObject14)
  {
    assert s[13] == '3';
    RunFrom(s, NestedObject13, NestedObject14);
  }

  lemma NestedObjectSteps14(s: string)
    requires s == "{ \"a\": { \"a\":3.414, \"b\":\" 2\", \"c\": [] } }"
    ensures Run(s, NestedObject14) == Run(s, NestedObject15)
  {
    assert s[14] == '.';
    RunFrom(s, NestedObject14, NestedObject15);
  }

  lemma NestedObjectSteps15(s: string)
    requires s == "{ \"a\": { \"a\":3.414, \"b\":\" 2\", \"c\": [] } }"
    ensures Run(s, NestedObject15) == Run(s, NestedObject16)
  {
    assert s[15] == '4';
    RunFrom(s, NestedObject15, NestedObject16);
  }

  lemma NestedObjectSteps16(s: string)
    requires s == "{ \"a\": { \"a\":3.414, \"b\":\" 2\", \"c\": [] } }"
    ensures Run(s, NestedObject16) == Run(s, NestedObject17)
  {
    assert s[16] == '1';
    RunFrom(s, NestedObject16, NestedObject17);
  }

  lemma NestedObjectSteps17(s: string)
    requires s == "{ \"a\": { \"a\":3.414, \"b\":\" 2\", \"c\": [] } }"
    ensures Run(s, NestedObject17) == Run(s, NestedObject18)
  {
    assert s[17] == '4';
    RunFrom(s, NestedObject17, NestedObject18);
  }

  lemma NestedObjectSteps18(s: string)
    requires s == "{ \"a\": { \"a\":3.414, \"b\":\" 2\", \"c\": [] } }"
    ensures Run(s, NestedObject18) == Run(s, NestedObject19)
  {
    assert s[18] == ',';
    assert s[13] == '3';
    assert s[14] == '.';
    assert s[15] == '4';
    assert s[16] == '1';
    assert s[17] == '4';
    assert s[13..18] == "3.414";
    RunFrom(s, NestedObject18, NestedObject19);
  }

  lemma NestedObjectSteps19(s: string)
    requires s == "{ \"a\": { \"a\":3.414, \"b\":\" 2\", \"c\": [] } }"
    ensures Run(s, NestedObject19) == Run(s, NestedObject20)
  {
    assert s[18] == ',';
    RunFrom(s, NestedObject19, NestedObject20);
  }

  lemma NestedObjectSteps20(s: string)
    requires s == "{ \"a\": { \"a\":3.414, \"b\":\" 2\", \"c\": [] } }"
    ensures Run(s, NestedObject20) == Run(s, NestedObject21)
  {
    assert s[19] == ' ';
    RunFrom(s, NestedObject20, NestedObject21);
  }

  lemma NestedObjectSteps21(s: string)
    requires s == "{ \"a\": { \"a\":3.414, \"b\":\" 2\", \"c\": [] } }"
    ensures Run(s, NestedObject21) == Run(s, NestedObject22)
  {
    assert s[20] == '\"';
    RunFrom(s, NestedObject21, NestedObject22);
  }

  lemma NestedObjectSteps22(s: string)
    requires s == "{ \"a\": { \"a\":3.414, \"b\":\" 2\", \"c\": [] } }"
    ensures Run(s, NestedObject22) == Run(s, NestedObject23)
  {
    assert s[21] == 'b';
    RunFrom(s, NestedObject22, NestedObject23);
  }

  lemma NestedObjectSteps23(s: string)
    requires s == "{ \"a\": { \"a\":3.414, \"b\":\" 2\", \"c\": [] } }"
    ensures Run(s, NestedObject23) == Run(s, NestedObject24)
  {
    assert s[22] == '\"';
    assert s[21] == 'b';
    assert s[21..22] == "b";
    RunFrom(s, NestedObject23, NestedObject24);
  }

  lemma NestedObjectSteps24(s: string)
    requires s == "{ \"a\": { \"a\":3.414, \"b\":\" 2\", \"c\": [] } }"
    ensures Run(s, NestedObject24) == Run(s, NestedObject25)
  {
    assert s[23] == ':';
    RunFrom(s, NestedObject24, NestedObject25);
  }

  lemma NestedObjectSteps25(s: string)
    requires s == "{ \"a\": { \"a\":3.414, \"b\":\" 2\", \"c\": [] } }"
    ensures Run(s, NestedObject25) == Run(s, NestedObject26)
  {
    assert s[24] == '\"';
    RunFrom(s, NestedObject25, NestedObject26);
  }

  lemma NestedObjectSteps26(s: string)
    requires s == "{ \"a\": { \"a\":3.414, \"b\":\" 2\", \"c\": [] } }"
    ensures Run(s, NestedObject26) == Run(s, NestedObject27)
  {
    assert s[25] == ' ';
    RunFrom(s, NestedObject26, NestedObject27);
  }

  lemma NestedObjectSteps27(s: string)
    requires s == "{ \"a\": { \"a\":3.414, \"b\":\" 2\", \"c\": [] } }"
    ensures Run(s, NestedObject27) == Run(s, NestedObject28)
  {
    assert s[26] == '2';
    RunFrom(s, NestedObject27, NestedObject28);
  }

  lemma NestedObjectSteps28(s: string)
    requires s == "{ \"a\": { \"a\":3.414, \"b\":\" 2\", \"c\": [] } }"
    ensures Run(s, NestedObject28) == Run(s, NestedObject29)
  {
    assert s[27] == '\"';
    assert s[25] == ' ';
    assert s[26] == '2';
    assert s[25..27] == " 2";
    RunFrom(s, NestedObject28, NestedObject29);
  }

  lemma NestedObjectSteps29(s: string)
    requires s == "{ \"a\": { \"a\":3.414, \"b\":\" 2\", \"c\": [] } }"
    ensures Run(s, NestedObject29) == Run(s, NestedObject30)
  {
    assert s[28] == ',';
    RunFrom(s, NestedObject29, NestedObject30);
  }

  lemma NestedObjectSteps30(s: string)
    requires s == "{ \"a\": { \"a\":3.414, \"b\":\" 2\", \"c\": [] } }"
    ensures Run(s, NestedObject30) == Run(s, NestedObject31)
  {
    assert s[29] == ' ';
    RunFrom(s, NestedObject30, NestedObject31);
  }

  lemma NestedObjectSteps31(s: string)
    requires s == "{ \"a\": { \"a\":3.414, \"b\":\" 2\", \"c\": [] } }"
    ensures Run(s, NestedObject31) == Run(s, NestedObject32)
  {
    assert s[30] == '\"';
    RunFrom(s, NestedObject31, NestedObject32);
  }

  lemma NestedObjectSteps32(s: string)
    requires s == "{ \"a\": { \"a\":3.414, \"b\":\" 2\", \"c\": [] } }"
    ensures Run(s, NestedObject32) == Run(s, NestedObject33)
  {
    assert s[31] == 'c';
    RunFrom(s, NestedObject32, NestedObject33);
  }

  lemma NestedObjectSteps33(s: string)
    requires s == "{ \"a\": { \"a\":3.414, \"b\":\" 2\", \"c\": [] } }"
    ensures Run(s, NestedObject33) == Run(s, NestedObject34)
  {
    assert s[32] == '\"';
    assert s[31] == 'c';
    assert s[31..32] == "c";
    RunFrom(s, NestedObject33, NestedObject34);
  }

  lemma NestedObjectSteps34(s: string)
    requires s == "{ \"a\": { \"a\":3.414, \"b\":\" 2\", \"c\": [] } }"
    ensures Run(s, NestedObject34) == Run(s, NestedObject35)
  {
    assert s[33] == ':';
    RunFrom(s, NestedObject34, NestedObject35);
  }

  lemma NestedObjectSteps35(s: string)
    requires s == "{ \"a\": { \"a\":3.414, \"b\":\" 2\", \"c\": [] } }"
    ensures Run(s, NestedObject35) == Run(s, NestedObject36)
  {
    assert s[34] == ' ';
    RunFrom(s, NestedObject35, NestedObject36);
  }

  lemma NestedObjectSteps36(s: string)
    requires s == "{ \"a\": { \"a\":3.414, \"b\":\" 2\", \"c\": [] } }"
    ensures Run(s, NestedObject36) == Run(s, NestedObject37)
  {
    assert s[35] == '[';
    RunFrom(s, NestedObject36, NestedObject37);
  }

  lemma NestedObjectSteps37(s: string)
    requires s == "{ \"a\": { \"a\":3.414, \"b\":\" 2\", \"c\": [] } }"
    ensures Run(s, NestedObject37) == Run(s, NestedObject38)
  {
    assert s[36] == ']';
    assert ArrayCut([JsonWithStartCursor(String("a"), 2), JsonWithStartCursor(String("a"), 9), JsonWithStartCursor(Number("3.414"), 13), JsonWithStartCursor(String("b"), 20), JsonWithStartCursor(String(" 2"), 24), JsonWithStartCursor(String("c"), 30)], 35) == 6;
    assert Jsons([]) == Array([]).items;
    RunFrom(s, NestedObject37, NestedObject38);
  }

  lemma NestedObjectSteps38(s: string)
    requires s == "{ \"a\": { \"a\":3.414, \"b\":\" 2\", \"c\": [] } }"
    ensures Run(s, NestedObject38) == Run(s, NestedObject39)
  {
    assert s[37] == ' ';
    RunFrom(s, NestedObject38, NestedObject39);
  }

  lemma NestedObjectSteps39(s: string)
    requires s == "{ \"a\": { \"a\":3.414, \"b\":\" 2\", \"c\": [] } }"
    ensures Run(s, NestedObject39) == Run(s, NestedObject40)
  {
    assert s[38] == '}';
    NestedObjectClose39();
    var cfg := Config(38, [StateWithCursor(ObjectOpen, 0), StateWithCursor(ObjectOpen, 7)], [JsonWithStartCursor(String("a"), 2), JsonWithStartCursor(String("a"), 9), JsonWithStartCursor(Number("3.414"), 13), JsonWithStartCursor(String("b"), 20), JsonWithStartCursor(String(" 2"), 24), JsonWithStartCursor(String("c"), 30), JsonWithStartCursor(Array([]), 35)], [ParseKey, ParseValue, ParseKey, ParseValue, ParseKey, ParseValue, ParseKey, ParseValue]);
    var closed := ObjectClose([JsonWithStartCursor(String("a"), 2)], [ParseKey, ParseValue], map["c" := Array([]), "b" := String(" 2"), "a" := Number("3.414")]);
    var next := Config(39, [StateWithCursor(ObjectOpen, 0)], [JsonWithStartCursor(String("a"), 2), JsonWithStartCursor(Object(map["c" := Array([]), "b" := String(" 2"), "a" := Number("3.414")]), 38)], [ParseKey, ParseValue]);
    assert Pop(cfg.states) == next.states;
    assert closed.results + [JsonWithStartCursor(Object(closed.fields), cfg.cursor)] == next.results;
    CloseFrom(s, cfg, closed, next);
  }

  lemma NestedObjectSteps40(s: string)
    requires s == "{ \"a\": { \"a\":3.414, \"b\":\" 2\", \"c\": [] } }"
    ensures Run(s, NestedObject40) == Run(s, NestedObject41)
  {
    assert s[39] == ' ';
    RunFrom(s, NestedObject40, NestedObject41);
  }

  lemma NestedObjectSteps41(s: string)
    requires s == "{ \"a\": { \"a\":3.414, \"b\":\" 2\", \"c\": [] } }"
    ensures Run(s, NestedObject41) == Run(s, NestedObject42)
  {
    assert s[40] == '}';
    CloseSingle(s, 40, 0, "a", 2, Object(map["c" := Array([]), "b" := String(" 2"), "a" := Number("3.414")]), 38);
  }

  lemma NestedObjectClose39()
    ensures CloseObjectLoop([JsonWithStartCursor(String("a"), 2), JsonWithStartCursor(String("a"), 9), JsonWithStartCursor(Number("3.414"), 13), JsonWithStartCursor(String("b"), 20), JsonWithStartCursor(String(" 2"), 24), JsonWithStartCursor(String("c"), 30), JsonWithStartCursor(Array([]), 35)], [ParseKey, ParseValue, ParseKey, ParseValue, ParseKey, ParseValue, ParseKey, ParseValue], 7, 38, map[]) == Ok(ObjectClose([JsonWithStartCursor(String("a"), 2)], [ParseKey, ParseValue], map["c" := Array([]), "b" := String(" 2"), "a" := Number("3.414")]))
  {
    NestedObjectClose39Round0();
    NestedObjectClose39Round1();
    NestedObjectClose39Round2();
    assert map[]["c" := Array([])]["b" := String(" 2")]["a" := Number("3.414")] == map["c" := Array([]), "b" := String(" 2"), "a" := Number("3.414")];
    assert CloseObjectLoop([JsonWithStartCursor(String("a"), 2)], [ParseKey, ParseValue], 7, 38, map[]["c" := Array([])]["b" := String(" 2")]["a" := Number("3.414")]) == Ok(ObjectClose([JsonWithStartCursor(String("a"), 2)], [ParseKey, ParseValue], map["c" := Array([]), "b" := String(" 2"), "a" := Number("3.414")]));
  }

  lemma NestedObjectClose39Round0()
    ensures CloseObjectLoop([JsonWithStartCursor(String("a"), 2), JsonWithStartCursor(String("a"), 9), JsonWithStartCursor(Number("3.414"), 13), JsonWithStartCursor(String("b"), 20), JsonWithStartCursor(String(" 2"), 24), JsonWithStartCursor(String("c"), 30), JsonWithStartCursor(Array([]), 35)], [ParseKey, ParseValue, ParseKey, ParseValue, ParseKey, ParseValue, ParseKey, ParseValue], 7, 38, map[]) == CloseObjectLoop([JsonWithStartCursor(String("a"), 2), JsonWithStartCursor(String("a"), 9), JsonWithStartCursor(Number("3.414"), 13), JsonWithStartCursor(String("b"), 20), JsonWithStartCursor(String(" 2"), 24)], [ParseKey, ParseValue, ParseKey, ParseValue, ParseKey, ParseValue], 7, 38, map[]["c" := Array([])])
  {
    var rest: seq<JsonWithStartCursor> := [JsonWithStartCursor(String("a"), 2), JsonWithStartCursor(String("a"), 9), JsonWithStartCursor(Number("3.414"), 13), JsonWithStartCursor(String("b"), 20), JsonWithStartCursor(String(" 2"), 24)];
    var phases: seq<ObjectParseState> := [ParseKey, ParseValue, ParseKey, ParseValue, ParseKey, ParseValue];
    var key := JsonWithStartCursor(String("c"), 30);
    var value := JsonWithStartCursor(Array([]), 35);
    CloseRound(rest, "c", 30, value, phases, ParseKey, ParseValue, 7, 38, map[]);
    assert rest + [key, value] == [JsonWithStartCursor(String("a"), 2), JsonWithStartCursor(String("a"), 9), JsonWithStartCursor(Number("3.414"), 13), JsonWithStartCursor(String("b"), 20), JsonWithStartCursor(String(" 2"), 24), JsonWithStartCursor(String("c"), 30), JsonWithStartCursor(Array([]), 35)];
    assert phases + [ParseKey, ParseValue] == [ParseKey, ParseValue, ParseKey, ParseValue, ParseKey, ParseValue, ParseKey, ParseValue];
  }

  lemma NestedObjectClose39Round1()
    ensures CloseObjectLoop([JsonWithStartCursor(String("a"), 2), JsonWithStartCursor(String("a"), 9), JsonWithStartCursor(Number("3.414"), 13), JsonWithStartCursor(String("b"), 20), JsonWithStartCursor(String(" 2"), 24)], [ParseKey, ParseValue, ParseKey, ParseValue, ParseKey, ParseValue], 7, 38, map[]["c" := Array([])]) == CloseObjectLoop([JsonWithStartCursor(String("a"), 2), JsonWithStartCursor(String("a"), 9), JsonWithStartCursor(Number("3.414"), 13)], [ParseKey, ParseValue, ParseKey, ParseValue], 7, 38, map[]["c" := Array([])]["b" := String(" 2")])
  {
    var rest: seq<JsonWithStartCursor> := [JsonWithStartCursor(String("a"), 2), JsonWithStartCursor(String("a"), 9), JsonWithStartCursor(Number("3.414"), 13)];
    var phases: seq<ObjectParseState> := [ParseKey, ParseValue, ParseKey, ParseValue];
    var key := JsonWithStartCursor(String("b"), 20);
    var value := JsonWithStartCursor(String(" 2"), 24);
    CloseRound(rest, "b", 20, value, phases, ParseKey, ParseValue, 7, 38, map[]["c" := Array([])]);
    assert rest + [key, value] == [JsonWithStartCursor(String("a"), 2), JsonWithStartCursor(String("a"), 9), JsonWithStartCursor(Number("3.414"), 13), JsonWithStartCursor(String("b"), 20), JsonWithStartCursor(String(" 2"), 24)];
    assert phases + [ParseKey, ParseValue] == [ParseKey, ParseValue, ParseKey, ParseValue, ParseKey, ParseValue];
  }

  lemma NestedObjectClose39Round2()
    ensures CloseObjectLoop([JsonWithStartCursor(String("a"), 2), JsonWithStartCursor(String("a"), 9), JsonWithStartCursor(Number("3.414"), 13)], [ParseKey, ParseValue, ParseKey, ParseValue], 7, 38, map[]["c" := Array([])]["b" := String(" 2")]) == CloseObjectLoop([JsonWithStartCursor(String("a"), 2)], [ParseKey, ParseValue], 7, 38, map[]["c" := Array([])]["b" := String(" 2")]["a" := Number("3.414")])
  {
    var rest: seq<JsonWithStartCursor> := [JsonWithStartCursor(String("a"), 2)];
    var phases: seq<ObjectParseState> := [ParseKey, ParseValue];
    var key := JsonWithStartCursor(String("a"), 9);
    var value := JsonWithStartCursor(Number("3.414"), 13);
    CloseRound(rest, "a", 9, value, phases, ParseKey, ParseValue, 7, 38, map[]["c" := Array([])]["b" := String(" 2")]);
    assert rest + [key, value] == [JsonWithStartCursor(String("a"), 2), JsonWithStartCursor(String("a"), 9), JsonWithStartCursor(Number("3.414"), 13)];
    assert phases + [ParseKey, ParseValue] == [ParseKey, ParseValue, ParseKey, ParseValue];
  }

  /** The test true_false_null (src/main.rs:446-453): the three literals as object values. */
  lemma TrueFalseNull(s: string)
    requires s == "{\"a\":true, \"b\":false, \"c\":null}"
    ensures ParseSpec(s) == Ok(Object(map["c" := Null, "b" := False, "a" := True]))
    ensures Get(ParseSpec(s).value, "a") == True
    ensures Get(ParseSpec(s).value, "b") == False
    ensures Get(ParseSpec(s).value, "c") == Null
  {
    TrueFalseNullPart0(s);
  }

  lemma TrueFalseNullPart0(s: string)
    requires s == "{\"a\":true, \"b\":false, \"c\":null}"
    ensures Run(s, TrueFalseNull0) == Ok(Object(map["c" := Null, "b" := False, "a" := True]))
  {
    TrueFalseNullSteps0(s);
    TrueFalseNullSteps1(s);
    TrueFalseNullSteps2(s);
    TrueFalseNullSteps3(s);
    TrueFalseNullSteps4(s);
    TrueFalseNullSteps5(s);
    TrueFalseNullSteps6(s);
    TrueFalseNullSteps7(s);
    TrueFalseNullSteps8(s);
    TrueFalseNullSteps9(s);
    TrueFalseNullPart1(s);
  }

  lemma TrueFalseNullPart1(s: string)
    requires s == "{\"a\":true, \"b\":false, \"c\":null}"
    ensures Run(s, TrueFalseNull10) == Ok(Object(map["c" := Null, "b" := False, "a" := True]))
  {
    TrueFalseNullSteps10(s);
    TrueFalseNullSteps11(s);
    TrueFalseNullSteps12(s);
    TrueFalseNullSteps13(s);
    TrueFalseNullSteps14(s);
    TrueFalseNullSteps15(s);
    TrueFalseNullSteps16(s);
    TrueFalseNullSteps17(s);
    TrueFalseNullSteps18(s);
    TrueFalseNullSteps19(s);
    TrueFalseNullPart2(s);
  }

  lemma TrueFalseNullPart2(s: string)
    requires s == "{\"a\":true, \"b\":false, \"c\":null}"
    ensures Run(s, TrueFalseNull20) == Ok(Object(map["c" := Null, "b" := False, "a" := True]))
  {
    TrueFalseNullSteps20(s);
    TrueFalseNullSteps21(s);
    TrueFalseNullSteps22(s);
    TrueFalseNullSteps23(s);
  }

  // The configurations the run of TrueFalseNull passes through, by step.
  const TrueFalseNull0: Config := Config(0, [], [], [])
  const TrueFalseNull1: Config := Config(1, [StateWithCursor(ObjectOpen, 0)], [], [ParseKey])
  const TrueFalseNull2: Config := Config(2, [StateWithCursor(ObjectOpen, 0), StateWithCursor(StringOpen, 1)], [], [ParseKey])
  const TrueFalseNull3: Config := Config(3, [StateWithCursor(ObjectOpen, 0), StateWithCursor(StringOpen, 1)], [], [ParseKey])
  const TrueFalseNull4: Config := Config(4, [StateWithCursor(ObjectOpen, 0)], [JsonWithStartCursor(String("a"), 1)], [ParseKey])
  const TrueFalseNull5: Config := Config(5, [StateWithCursor(ObjectOpen, 0)], [JsonWithStartCursor(String("a"), 1)], [ParseKey, ParseValue])
  const TrueFalseNull6: Config := Config(6, [StateWithCursor(ObjectOpen, 0), StateWithCursor(TrueOpen, 5)], [JsonWithStartCursor(String("a"), 1)], [ParseKey, ParseValue])
  const TrueFalseNull7: Config := Config(9, [StateWithCursor(ObjectOpen, 0)], [JsonWithStartCursor(String("a"), 1), JsonWithStartCursor(True, 9)], [ParseKey, ParseValue])
  const TrueFalseNull8: Config := Config(10, [StateWithCursor(ObjectOpen, 0)], [JsonWithStartCursor(String("a"), 1), JsonWithStartCursor(True, 9)], [ParseKey, ParseValue, ParseKey])
  const TrueFalseNull9: Config := Config(11, [StateWithCursor(ObjectOpen, 0)], [JsonWithStartCursor(String("a"), 1), JsonWithStartCursor(True, 9)], [ParseKey, ParseValue, ParseKey])
  const TrueFalseNull10: Config := Config(12, [StateWithCursor(ObjectOpen, 0), StateWithCursor(StringOpen, 11)], [JsonWithStartCursor(String("a"), 1), JsonWithStartCursor(True, 9)], [ParseKey, ParseValue, ParseKey])
  const TrueFalseNull11: Config := Config(13, [StateWithCursor(ObjectOpen, 0), StateWithCursor(StringOpen, 11)], [JsonWithStartCursor(String("a"), 1), JsonWithStartCursor(True, 9)], [ParseKey, ParseValue, ParseKey])
  const TrueFalseNull12: Config := Config(14, [StateWithCursor(ObjectOpen, 0)], [JsonWithStartCursor(String("a"), 1), JsonWithStartCursor(True, 9), JsonWithStartCursor(String("b"), 11)], [ParseKey, ParseValue, ParseKey])
  const TrueFalseNull13: Config := Config(15, [StateWithCursor(ObjectOpen, 0)], [JsonWithStartCursor(String("a"), 1), JsonWithStartCursor(True, 9), JsonWithStartCursor(String("b"), 11)], [ParseKey, ParseValue, ParseKey, ParseValue])
  const TrueFalseNull14: Config := Config(16, [StateWithCursor(ObjectOpen, 0), StateWithCursor(FalseOpen, 15)], [JsonWithStartCursor(String("a"), 1), JsonWithStartCursor(True, 9), JsonWithStartCursor(String("b"), 11)], [ParseKey, ParseValue, ParseKey, ParseValue])
  const TrueFalseNull15: Config := Config(20, [StateWithCursor(ObjectOpen, 0)], [JsonWithStartCursor(String("a"), 1), JsonWithStartCursor(True, 9), JsonWithStartCursor(String("b"), 11), JsonWithStartCursor(False, 20)], [ParseKey, ParseValue, ParseKey, ParseValue])
  const TrueFalseNull16: Config := Config(21, [StateWithCursor(ObjectOpen, 0)], [JsonWithStartCursor(String("a"), 1), JsonWithStartCursor(True, 9), JsonWithStartCursor(String("b"), 11), JsonWithStartCursor(False, 20)], [ParseKey, ParseValue, ParseKey, ParseValue, ParseKey])
  const TrueFalseNull17: Config := Config(22, [StateWithCursor(ObjectOpen, 0)], [JsonWithStartCursor(String("a"), 1), JsonWithStartCursor(True, 9), JsonWithStartCursor(String("b"), 11), JsonWithStartCursor(False, 20)], [ParseKey, ParseValue, ParseKey, ParseValue, ParseKey])
  const TrueFalseNull18: Config := Config(23, [StateWithCursor(ObjectOpen, 0), StateWithCursor(StringOpen, 22)], [JsonWithStartCursor(String("a"), 1), JsonWithStartCursor(True, 9), JsonWithStartCursor(String("b"), 11), JsonWithStartCursor(False, 20)], [ParseKey, ParseValue, ParseKey, ParseValue, ParseKey])
  const TrueFalseNull19: Config := Config(24, [StateWithCursor(ObjectOpen, 0), StateWithCursor(StringOpen, 22)], [JsonWithStartCursor(String("a"), 1), JsonWithStartCursor(True, 9), JsonWithStartCursor(String("b"), 11), JsonWithStartCursor(False, 20)], [ParseKey, ParseValue, ParseKey, ParseValue, ParseKey])
  const TrueFalseNull20: Config := Config(25, [StateWithCursor(ObjectOpen, 0)], [JsonWithStartCursor(String("a"), 1), JsonWithStartCursor(True, 9), JsonWithStartCursor(String("b"), 11), JsonWithStartCursor(False, 20), JsonWithStartCursor(String("c"), 22)], [ParseKey, ParseValue, ParseKey, ParseValue, ParseKey])
  const TrueFalseNull21: Config := Config(26, [StateWithCursor(ObjectOpen, 0)], [JsonWithStartCursor(String("a"), 1), JsonWithStartCursor(True, 9), JsonWithStartCursor(String("b"), 11), JsonWithStartCursor(False, 20), JsonWithStartCursor(String("c"), 22)], [ParseKey, ParseValue, ParseKey, ParseValue, ParseKey, ParseValue])
  const TrueFalseNull22: Config := Config(27, [StateWithCursor(ObjectOpen, 0), StateWithCursor(NullOpen, 26)], [JsonWithStartCursor(String("a"), 1), JsonWithStartCursor(True, 9), JsonWithStartCursor(String("b"), 11), JsonWithStartCursor(False, 20), JsonWithStartCursor(String("c"), 22)], [ParseKey, ParseValue, ParseKey, ParseValue, ParseKey, ParseValue])
  const TrueFalseNull23: Config := Config(30, [StateWithCursor(ObjectOpen, 0)], [JsonWithStartCursor(String("a"), 1), JsonWithStartCursor(True, 9), JsonWithStartCursor(String("b"), 11), JsonWithStartCursor(False, 20), JsonWithStartCursor(String("c"), 22), JsonWithStartCursor(Null, 30)], [ParseKey, ParseValue, ParseKey, ParseValue, ParseKey, ParseValue])
  const TrueFalseNull24: Config := Config(31, [], [JsonWithStartCursor(Object(map["c" := Null, "b" := False, "a" := True]), 30)], [])

  lemma TrueFalseNullSteps0(s: string)
    requires s == "{\"a\":true, \"b\":false, \"c\":null}"
    ensures Run(s, TrueFalseNull0) == Run(s, TrueFalseNull1)
  {
    assert s[0] == '{';
    RunFrom(s, TrueFalseNull0, TrueFalseNull1);
  }

  lemma TrueFalseNullSteps1(s: string)
    requires s == "{\"a\":true, \"b\":false, \"c\":null}"
    ensures Run(s, TrueFalseNull1) == Run(s, TrueFalseNull2)
  {
    assert s[1] == '\"';
    RunFrom(s, TrueFalseNull1, TrueFalseNull2);
  }

  lemma TrueFalseNullSteps2(s: string)
    requires s == "{\"a\":true, \"b\":false, \"c\":null}"
    ensures Run(s, TrueFalseNull2) == Run(s, TrueFalseNull3)
  {
    assert s[2] == 'a';
    RunFrom(s, TrueFalseNull2, TrueFalseNull3);
  }

  lemma TrueFalseNullSteps3(s: string)
    requires s == "{\"a\":true, \"b\":false, \"c\":null}"
    ensures Run(s, TrueFalseNull3) == Run(s, TrueFalseNull4)
  {
    assert s[3] == '\"';
    assert s[2] == 'a';
    assert s[2..3] == "a";
    RunFrom(s, TrueFalseNull3, TrueFalseNull4);
  }

  lemma TrueFalseNullSteps4(s: string)
    requires s == "{\"a\":true, \"b\":false, \"c\":null}"
    ensures Run(s, TrueFalseNull4) == Run(s, TrueFalseNull5)
  {
    assert s[4] == ':';
    RunFrom(s, TrueFalseNull4, TrueFalseNull5);
  }

  lemma TrueFalseNullSteps5(s: string)
    requires s == "{\"a\":true, \"b\":false, \"c\":null}"
    ensures Run(s, TrueFalseNull5) == Run(s, TrueFalseNull6)
  {
    assert s[5] == 't';
    RunFrom(s, TrueFalseNull5, TrueFalseNull6);
  }

  lemma TrueFalseNullSteps6(s: string)
    requires s == "{\"a\":true, \"b\":false, \"c\":null}"
    ensures Run(s, TrueFalseNull6) == Run(s, TrueFalseNull7)
  {
    assert s[6] == 'r';
    RunFrom(s, TrueFalseNull6, TrueFalseNull7);
  }

  lemma TrueFalseNullSteps7(s: string)
    requires s == "{\"a\":true, \"b\":false, \"c\":null}"
    ensures Run(s, TrueFalseNull7) == Run(s, TrueFalseNull8)
  {
    assert s[9] == ',';
    RunFrom(s, TrueFalseNull7, TrueFalseNull8);
  }

  lemma TrueFalseNullSteps8(s: string)
    requires s == "{\"a\":true, \"b\":false, \"c\":null}"
    ensures Run(s, TrueFalseNull8) == Run(s, TrueFalseNull9)
  {
    assert s[10] == ' ';
    RunFrom(s, TrueFalseNull8, TrueFalseNull9);
  }

  lemma TrueFalseNullSteps9(s: string)
    requires s == "{\"a\":true, \"b\":false, \"c\":null}"
    ensures Run(s, TrueFalseNull9) == Run(s, TrueFalseNull10)
  {
    assert s[11] == '\"';
    RunFrom(s, TrueFalseNull9, TrueFalseNull10);
  }

  lemma TrueFalseNullSteps10(s: string)
    requires s == "{\"a\":true, \"b\":false, \"c\":null}"
    ensures Run(s, TrueFalseNull10) == Run(s, TrueFalseNull11)
  {
    assert s[12] == 'b';
    RunFrom(s, TrueFalseNull10, TrueFalseNull11);
  }

  lemma TrueFalseNullSteps11(s: string)
    requires s == "{\"a\":true, \"b\":false, \"c\":null}"
    ensures Run(s, TrueFalseNull11) == Run(s, TrueFalseNull12)
  {
    assert s[13] == '\"';
    assert s[12] == 'b';
    assert s[12..13] == "b";
    RunFrom(s, TrueFalseNull11, TrueFalseNull12);
  }

  lemma TrueFalseNullSteps12(s: string)
    requires s == "{\"a\":true, \"b\":false, \"c\":null}"
    ensures Run(s, TrueFalseNull12) == Run(s, TrueFalseNull13)
  {
    assert s[14] == ':';
    RunFrom(s, TrueFalseNull12, TrueFalseNull13);
  }

  lemma TrueFalseNullSteps13(s: string)
    requires s == "{\"a\":true, \"b\":false, \"c\":null}"
    ensures Run(s, TrueFalseNull13) == Run(s, TrueFalseNull14)
  {
    assert s[15] == 'f';
    RunFrom(s, TrueFalseNull13, TrueFalseNull14);
  }

  lemma TrueFalseNullSteps14(s: string)
    requires s == "{\"a\":true, \"b\":false, \"c\":null}"
    ensures Run(s, TrueFalseNull14) == Run(s, TrueFalseNull15)
  {
    assert s[16] == 'a';
    RunFrom(s, TrueFalseNull14, TrueFalseNull15);
  }

  lemma TrueFalseNullSteps15(s: string)
    requires s == "{\"a\":true, \"b\":false, \"c\":null}"
    ensures Run(s, TrueFalseNull15) == Run(s, TrueFalseNull16)
  {
    assert s[20] == ',';
    RunFrom(s, TrueFalseNull15, TrueFalseNull16);
  }

  lemma TrueFalseNullSteps16(s: string)
    requires s == "{\"a\":true, \"b\":false, \"c\":null}"
    ensures Run(s, TrueFalseNull16) == Run(s, TrueFalseNull17)
  {
    assert s[21] == ' ';
    RunFrom(s, TrueFalseNull16, TrueFalseNull17);
  }

  lemma TrueFalseNullSteps17(s: string)
    requires s == "{\"a\":true, \"b\":false, \"c\":null}"
    ensures Run(s, TrueFalseNull17) == Run(s, TrueFalseNull18)
  {
    assert s[22] == '\"';
    RunFrom(s, TrueFalseNull17, TrueFalseNull18);
  }

  lemma TrueFalseNullSteps18(s: string)
    requires s == "{\"a\":true, \"b\":false, \"c\":null}"
    ensures Run(s, TrueFalseNull18) == Run(s, TrueFalseNull19)
  {
    assert s[23] == 'c';
    RunFrom(s, TrueFalseNull18, TrueFalseNull19);
  }

  lemma TrueFalseNullSteps19(s: string)
    requires s == "{\"a\":true, \"b\":false, \"c\":null}"
    ensures Run(s, TrueFalseNull19) == Run(s, TrueFalseNull20)
  {
    assert s[24] == '\"';
    assert s[23] == 'c';
    assert s[23..24] == "c";
    RunFrom(s, TrueFalseNull19, TrueFalseNull20);
  }

  lemma TrueFalseNullSteps20(s: string)
    requires s == "{\"a\":true, \"b\":false, \"c\":null}"
    ensures Run(s, TrueFalseNull20) == Run(s, TrueFalseNull21)
  {
    assert s[25] == ':';
    RunFrom(s, TrueFalseNull20, TrueFalseNull21);
  }

  lemma TrueFalseNullSteps21(s: string)
    requires s == "{\"a\":true, \"b\":false, \"c\":null}"
    ensures Run(s, TrueFalseNull21) == Run(s, TrueFalseNull22)
  {
    assert s[26] == 'n';
    RunFrom(s, TrueFalseNull21, TrueFalseNull22);
  }

  lemma TrueFalseNullSteps22(s: string)
    requires s == "{\"a\":true, \"b\":false, \"c\":null}"
    ensures Run(s, TrueFalseNull22) == Run(s, TrueFalseNull23)
  {
    assert s[27] == 'u';
    RunFrom(s, TrueFalseNull22, TrueFalseNull23);
  }

  lemma TrueFalseNullSteps23(s: string)
    requires s == "{\"a\":true, \"b\":false, \"c\":null}"
    ensures Run(s, TrueFalseNull23) == Run(s, TrueFalseNull24)
  {
    assert s[30] == '}';
    TrueFalseNullClose23();
    var cfg := Config(30, [StateWithCursor(ObjectOpen, 0)], [JsonWithStartCursor(String("a"), 1), JsonWithStartCursor(True, 9), JsonWithStartCursor(String("b"), 11), JsonWithStartCursor(False, 20), JsonWithStartCursor(String("c"), 22), JsonWithStartCursor(Null, 30)], [ParseKey, ParseValue, ParseKey, ParseValue, ParseKey, ParseValue]);
    var closed := ObjectClose([], [], map["c" := Null, "b" := False, "a" := True]);
    var next := Config(31, [], [JsonWithStartCursor(Object(map["c" := Null, "b" := False, "a" := True]), 30)], []);
    assert Pop(cfg.states) == next.states;
    assert closed.results + [JsonWithStartCursor(Object(closed.fields), cfg.cursor)] == next.results;
    CloseFrom(s, cfg, closed, next);
  }

  lemma TrueFalseNullClose23()
    ensures CloseObjectLoop([JsonWithStartCursor(String("a"), 1), JsonWithStartCursor(True, 9), JsonWithStartCursor(String("b"), 11), JsonWithStartCursor(False, 20), JsonWithStartCursor(String("c"), 22), JsonWithStartCursor(Null, 30)], [ParseKey, ParseValue, ParseKey, ParseValue, ParseKey, ParseValue], 0, 30, map[]) == Ok(ObjectClose([], [], map["c" := Null, "b" := False, "a" := True]))
  {
    TrueFalseNullClose23Round0();
    TrueFalseNullClose23Round1();
    TrueFalseNullClose23Round2();
    assert map[]["c" := Null]["b" := False]["a" := True] == map["c" := Null, "b" := False, "a" := True];
    assert CloseObjectLoop([], [], 0, 30, map[]["c" := Null]["b" := False]["a" := True]) == Ok(ObjectClose([], [], map["c" := Null, "b" := False, "a" := True]));
  }

  lemma TrueFalseNullClose23Round0()
    ensures CloseObjectLoop([JsonWithStartCursor(String("a"), 1), JsonWithStartCursor(True, 9), JsonWithStartCursor(String("b"), 11), JsonWithStartCursor(False, 20), JsonWithStartCursor(String("c"), 22), JsonWithStartCursor(Null, 30)], [ParseKey, ParseValue, ParseKey, ParseValue, ParseKey, ParseValue], 0, 30, map[]) == CloseObjectLoop([JsonWithStartCursor(String("a"), 1), JsonWithStartCursor(True, 9), JsonWithStartCursor(String("b"), 11), JsonWithStartCursor(False, 20)], [ParseKey, ParseValue, ParseKey, ParseValue], 0, 30, map[]["c" := Null])
  {
    var rest: seq<JsonWithStartCursor> := [JsonWithStartCursor(String("a"), 1), JsonWithStartCursor(True, 9), JsonWithStartCursor(String("b"), 11), JsonWithStartCursor(False, 20)];
    var phases: seq<ObjectParseState> := [ParseKey, ParseValue, ParseKey, ParseValue];
    var key := JsonWithStartCursor(String("c"), 22);
    var value := JsonWithStartCursor(Null, 30);
    CloseRound(rest, "c", 22, value, phases, ParseKey, ParseValue, 0, 30, map[]);
    assert rest + [key, value] == [JsonWithStartCursor(String("a"), 1), JsonWithStartCursor(True, 9), JsonWithStartCursor(String("b"), 11), JsonWithStartCursor(False, 20), JsonWithStartCursor(String("c"), 22), JsonWithStartCursor(Null, 30)];
    assert phases + [ParseKey, ParseValue] == [ParseKey, ParseValue, ParseKey, ParseValue, ParseKey, ParseValue];
  }

  lemma TrueFalseNullClose23Round1()
    ensures CloseObjectLoop([JsonWithStartCursor(String("a"), 1), JsonWithStartCursor(True, 9), JsonWithStartCursor(String("b"), 11), JsonWithStartCursor(False, 20)], [ParseKey, ParseValue, ParseKey, ParseValue], 0, 30, map[]["c" := Null]) == CloseObjectLoop([JsonWithStartCursor(String("a"), 1), JsonWithStartCursor(True, 9)], [ParseKey, ParseValue], 0, 30, map[]["c" := Null]["b" := False])
  {
    var rest: seq<JsonWithStartCursor> := [JsonWithStartCursor(String("a"), 1), JsonWithStartCursor(True, 9)];
    var phases: seq<ObjectParseState> := [ParseKey, ParseValue];
    var key := JsonWithStartCursor(String("b"), 11);
    var value := JsonWithStartCursor(False, 20);
    CloseRound(rest, "b", 11, value, phases, ParseKey, ParseValue, 0, 30, map[]["c" := Null]);
    assert rest + [key, value] == [JsonWithStartCursor(String("a"), 1), JsonWithStartCursor(True, 9), JsonWithStartCursor(String("b"), 11), JsonWithStartCursor(False, 20)];
    assert phases + [ParseKey, ParseValue] == [ParseKey, ParseValue, ParseKey, ParseValue];
  }

  lemma TrueFalseNullClose23Round2()
    ensures CloseObjectLoop([JsonWithStartCursor(String("a"), 1), JsonWithStartCursor(True, 9)], [ParseKey, ParseValue], 0, 30, map[]["c" := Null]["b" := False]) == CloseObjectLoop([], [], 0, 30, map[]["c" := Null]["b" := False]["a" := True])
  {
    var rest: seq<JsonWithStartCursor> := [];
    var phases: seq<ObjectParseState> := [];
    var key := JsonWithStartCursor(String("a"), 1);
    var value := JsonWithStartCursor(True, 9);
    CloseRound(rest, "a", 1, value, phases, ParseKey, ParseValue, 0, 30, map[]["c" := Null]["b" := False]);
    assert rest + [key, value] == [JsonWithStartCursor(String("a"), 1), JsonWithStartCursor(True, 9)];
    assert phases + [ParseKey, ParseValue] == [ParseKey, ParseValue];
  }

  /** A number whose closing character is the last one of the input takes that character into its text, so the text is not a number. */
  lemma NumberBeforeLastBracket(s: string)
    requires s == "[1]"
    ensures ParseSpec(s) == Err(UnexpectedChar(3))
  {
    NumberBeforeLastBracketSteps0(s);
    NumberBeforeLastBracketSteps1(s);
    NumberBeforeLastBracketLast(s);
  }

  // The configurations the run of NumberBeforeLastBracket passes through, by step.
  const NumberBeforeLastBracket0: Config := Config(0, [], [], [])
  const NumberBeforeLastBracket1: Config := Config(1, [StateWithCursor(ArrayOpen, 0)], [], [])
  const NumberBeforeLastBracket2: Config := Config(2, [StateWithCursor(ArrayOpen, 0), StateWithCursor(NumberOpen, 1)], [], [])

  lemma NumberBeforeLastBracketSteps0(s: string)
    requires s == "[1]"
    ensures Run(s, NumberBeforeLastBracket0) == Run(s, NumberBeforeLastBracket1)
  {
    assert s[0] == '[';
    RunFrom(s, NumberBeforeLastBracket0, NumberBeforeLastBracket1);
  }

  lemma NumberBeforeLastBracketSteps1(s: string)
    requires s == "[1]"
    ensures Run(s, NumberBeforeLastBracket1) == Run(s, NumberBeforeLastBracket2)
  {
    assert s[1] == '1';
    RunFrom(s, NumberBeforeLastBracket1, NumberBeforeLastBracket2);
  }

  lemma NumberBeforeLastBracketLast(s: string)
    requires s == "[1]"
    ensures Run(s, NumberBeforeLastBracket2) == Err(UnexpectedChar(3))
  {
    assert s[2] == ']';
    assert s[1] == '1';
    assert s[2] == ']';
    assert s[1..3] == "1]";
    NotFloatAt(s[1..3], 1);
  }

  /** Whitespace is skipped before the number state sees it, so the number again runs into the closing bracket at the end. */
  lemma NumberBeforeSpaceAndBracket(s: string)
    requires s == "[1 ]"
    ensures ParseSpec(s) == Err(UnexpectedChar(4))
  {
    NumberBeforeSpaceAndBracketSteps0(s);
    NumberBeforeSpaceAndBracketSteps1(s);
    NumberBeforeSpaceAndBracketSteps2(s);
    NumberBeforeSpaceAndBracketLast(s);
  }

  // The configurations the run of NumberBeforeSpaceAndBracket passes through, by step.
  const NumberBeforeSpaceAndBracket0: Config := Config(0, [], [], [])
  const NumberBeforeSpaceAndBracket1: Config := Config(1, [StateWithCursor(ArrayOpen, 0)], [], [])
  const NumberBeforeSpaceAndBracket2: Config := Config(2, [StateWithCursor(ArrayOpen, 0), StateWithCursor(NumberOpen, 1)], [], [])
  const NumberBeforeSpaceAndBracket3: Config := Config(3, [StateWithCursor(ArrayOpen, 0), StateWithCursor(NumberOpen, 1)], [], [])

  lemma NumberBeforeSpaceAndBracketSteps0(s: string)
    requires s == "[1 ]"
    ensures Run(s, NumberBeforeSpaceAndBracket0) == Run(s, NumberBeforeSpaceAndBracket1)
  {
    assert s[0] == '[';
    RunFrom(s, NumberBeforeSpaceAndBracket0, NumberBeforeSpaceAndBracket1);
  }

  lemma NumberBeforeSpaceAndBracketSteps1(s: string)
    requires s == "[1 ]"
    ensures Run(s, NumberBeforeSpaceAndBracket1) == Run(s, NumberBeforeSpaceAndBracket2)
  {
    assert s[1] == '1';
    RunFrom(s, NumberBeforeSpaceAndBracket1, NumberBeforeSpaceAndBracket2);
  }

  lemma NumberBeforeSpaceAndBracketSteps2(s: string)
    requires s == "[1 ]"
    ensures Run(s, NumberBeforeSpaceAndBracket2) == Run(s, NumberBeforeSpaceAndBracket3)
  {
    assert s[2] == ' ';
    RunFrom(s, NumberBeforeSpaceAndBracket2, NumberBeforeSpaceAndBracket3);
  }

  lemma NumberBeforeSpaceAndBracketLast(s: string)
    requires s == "[1 ]"
    ensures Run(s, NumberBeforeSpaceAndBracket3) == Err(UnexpectedChar(4))
  {
    assert s[3] == ']';
    assert s[1] == '1';
    assert s[2] == ' ';
    assert s[3] == ']';
    assert s[1..4] == "1 ]";
    NotFloatAt(s[1..4], 1);
  }

  /** Closing an object with no value left on the result stack calls `last().unwrap()` on an empty result stack. */
  lemma EmptyObjectPanics(s: string)
    requires s == "{}"
    ensures ParseSpec(s) == Crash(UnwrapOnEmpty)
  {
    EmptyObjectPanicsSteps0(s);
    EmptyObjectPanicsLast(s);
  }

  // The configurations the run of EmptyObjectPanics passes through, by step.
  const EmptyObjectPanics0: Config := Config(0, [], [], [])
  const EmptyObjectPanics1: Config := Config(1, [StateWithCursor(ObjectOpen, 0)], [], [ParseKey])

  lemma EmptyObjectPanicsSteps0(s: string)
    requires s == "{}"
    ensures Run(s, EmptyObjectPanics0) == Run(s, EmptyObjectPanics1)
  {
    assert s[0] == '{';
    RunFrom(s, EmptyObjectPanics0, EmptyObjectPanics1);
  }

  lemma EmptyObjectPanicsLast(s: string)
    requires s == "{}"
    ensures Run(s, EmptyObjectPanics1) == Crash(UnwrapOnEmpty)
  {
    assert s[1] == '}';
    EmptyObjectPanicsClose1();
  }

  lemma EmptyObjectPanicsClose1()
    ensures CloseObjectLoop([], [ParseKey], 0, 1, map[]) == Crash(UnwrapOnEmpty)
  {
    assert CloseObjectLoop([], [ParseKey], 0, 1, map[]) == Crash(UnwrapOnEmpty);
  }

  /** After a comma the quote is consumed as the opener, so the string slice starts after its end. */
  lemma StringAfterCommaPanics(s: string)
    requires s == "[1,\"a\"]"
    ensures ParseSpec(s) == Crash(SliceOutOfOrder(4, 3))
  {
    StringAfterCommaPanicsSteps0(s);
    StringAfterCommaPanicsSteps1(s);
    StringAfterCommaPanicsSteps2(s);
    StringAfterCommaPanicsSteps3(s);
    StringAfterCommaPanicsLast(s);
  }

  // The configurations the run of StringAfterCommaPanics passes through, by step.
  const StringAfterCommaPanics0: Config := Config(0, [], [], [])
  const StringAfterCommaPanics1: Config := Config(1, [StateWithCursor(ArrayOpen, 0)], [], [])
  const StringAfterCommaPanics2: Config := Config(2, [StateWithCursor(ArrayOpen, 0), StateWithCursor(NumberOpen, 1)], [], [])
  const StringAfterCommaPanics3: Config := Config(2, [StateWithCursor(ArrayOpen, 0)], [JsonWithStartCursor(Number("1"), 1)], [])
  const StringAfterCommaPanics4: Config := Config(3, [StateWithCursor(ArrayOpen, 0), StateWithCursor(StringOpen, 3)], [JsonWithStartCursor(Number("1"), 1)], [])

  lemma StringAfterCommaPanicsSteps0(s: string)
    requires s == "[1,\"a\"]"
    ensures Run(s, StringAfterCommaPanics0) == Run(s, StringAfterCommaPanics1)
  {
    assert s[0] == '[';
    RunFrom(s, StringAfterCommaPanics0, StringAfterCommaPanics1);
  }

  lemma StringAfterCommaPanicsSteps1(s: string)
    requires s == "[1,\"a\"]"
    ensures Run(s, StringAfterCommaPanics1) == Run(s, StringAfterCommaPanics2)
  {
    assert s[1] == '1';
    RunFrom(s, StringAfterCommaPanics1, StringAfterCommaPanics2);
  }

  lemma StringAfterCommaPanicsSteps2(s: string)
    requires s == "[1,\"a\"]"
    ensures Run(s, StringAfterCommaPanics2) == Run(s, StringAfterCommaPanics3)
  {
    assert s[2] == ',';
    assert s[1] == '1';
    assert s[1..2] == "1";
    RunFrom(s, StringAfterCommaPanics2, StringAfterCommaPanics3);
  }

  lemma StringAfterCommaPanicsSteps3(s: string)
    requires s == "[1,\"a\"]"
    ensures Run(s, StringAfterCommaPanics3) == Run(s, StringAfterCommaPanics4)
  {
    assert s[2] == ',';
    RunFrom(s, StringAfterCommaPanics3, StringAfterCommaPanics4);
  }

  lemma StringAfterCommaPanicsLast(s: string)
    requires s == "[1,\"a\"]"
    ensures Run(s, StringAfterCommaPanics4) == Crash(SliceOutOfOrder(4, 3))
  {
    assert s[3] == '\"';
  }

  /** A comma at the last position reads one past the end of the input. */
  lemma TrailingCommaPanics(s: string)
    requires s == "[\"a\","
    ensures ParseSpec(s) == Crash(IndexOutOfBounds(5, 5))
  {
    TrailingCommaPanicsSteps0(s);
    TrailingCommaPanicsSteps1(s);
    TrailingCommaPanicsSteps2(s);
    TrailingCommaPanicsSteps3(s);
    TrailingCommaPanicsLast(s);
  }

  // The configurations the run of TrailingCommaPanics passes through, by step.
  const TrailingCommaPanics0: Config := Config(0, [], [], [])
  const TrailingCommaPanics1: Config := Config(1, [StateWithCursor(ArrayOpen, 0)], [], [])
  const TrailingCommaPanics2: Config := Config(2, [StateWithCursor(ArrayOpen, 0), StateWithCursor(StringOpen, 1)], [], [])
  const TrailingCommaPanics3: Config := Config(3, [StateWithCursor(ArrayOpen, 0), StateWithCursor(StringOpen, 1)], [], [])
  const TrailingCommaPanics4: Config := Config(4, [StateWithCursor(ArrayOpen, 0)], [JsonWithStartCursor(String("a"), 1)], [])

  lemma TrailingCommaPanicsSteps0(s: string)
    requires s == "[\"a\","
    ensures Run(s, TrailingCommaPanics0) == Run(s, TrailingCommaPanics1)
  {
    assert s[0] == '[';
    RunFrom(s, TrailingCommaPanics0, TrailingCommaPanics1);
  }

  lemma TrailingCommaPanicsSteps1(s: string)
    requires s == "[\"a\","
    ensures Run(s, TrailingCommaPanics1) == Run(s, TrailingCommaPanics2)
  {
    assert s[1] == '\"';
    RunFrom(s, TrailingCommaPanics1, TrailingCommaPanics2);
  }

  lemma TrailingCommaPanicsSteps2(s: string)
    requires s == "[\"a\","
    ensures Run(s, TrailingCommaPanics2) == Run(s, TrailingCommaPanics3)
  {
    assert s[2] == 'a';
    RunFrom(s, TrailingCommaPanics2, TrailingCommaPanics3);
  }

  lemma TrailingCommaPanicsSteps3(s: string)
    requires s == "[\"a\","
    ensures Run(s, TrailingCommaPanics3) == Run(s, TrailingCommaPanics4)
  {
    assert s[3] == '\"';
    assert s[2] == 'a';
    assert s[2..3] == "a";
    RunFrom(s, TrailingCommaPanics3, TrailingCommaPanics4);
  }

  lemma TrailingCommaPanicsLast(s: string)
    requires s == "[\"a\","
    ensures Run(s, TrailingCommaPanics4) == Crash(IndexOutOfBounds(5, 5))
  {
    assert s[4] == ',';
  }

  /** A one-character number is still open when the input ends. */
  lemma LoneDigitPanics(s: string)
    requires s == "1"
    ensures ParseSpec(s) == Crash(StateStillOpen(1))
  {
    LoneDigitPanicsSteps0(s);
  }

  // The configurations the run of LoneDigitPanics passes through, by step.
  const LoneDigitPanics0: Config := Config(0, [], [], [])
  const LoneDigitPanics1: Config := Config(1, [StateWithCursor(NumberOpen, 0)], [], [])

  lemma LoneDigitPanicsSteps0(s: string)
    requires s == "1"
    ensures Run(s, LoneDigitPanics0) == Run(s, LoneDigitPanics1)
  {
    assert s[0] == '1';
    RunFrom(s, LoneDigitPanics0, LoneDigitPanics1);
  }

  /** Only the first two letters after t are compared, so tru is accepted as true. */
  lemma TruncatedTrue(s: string)
    requires s == "tru"
    ensures ParseSpec(s) == Ok(True)
  {
    TruncatedTrueSteps0(s);
    TruncatedTrueSteps1(s);
  }

  // The configurations the run of TruncatedTrue passes through, by step.
  const TruncatedTrue0: Config := Config(0, [], [], [])
  const TruncatedTrue1: Config := Config(1, [StateWithCursor(TrueOpen, 0)], [], [])
  const TruncatedTrue2: Config := Config(4, [], [JsonWithStartCursor(True, 4)], [])

  lemma TruncatedTrueSteps0(s: string)
    requires s == "tru"
    ensures Run(s, TruncatedTrue0) == Run(s, TruncatedTrue1)
  {
    assert s[0] == 't';
    RunFrom(s, TruncatedTrue0, TruncatedTrue1);
  }

  lemma TruncatedTrueSteps1(s: string)
    requires s == "tru"
    ensures Run(s, TruncatedTrue1) == Run(s, TruncatedTrue2)
  {
    assert s[1] == 'r';
    RunFrom(s, TruncatedTrue1, TruncatedTrue2);
  }

  /** The object close walks the pairs from the last one back and the earlier pair overwrites, so the first occurrence of a key wins. */
  lemma DuplicateKeyFirstWins(s: string)
    requires s == "{\"a\":true,\"a\":null}"
    ensures ParseSpec(s) == Ok(Object(map["a" := True]))
  {
    DuplicateKeyFirstWinsPart0(s);
  }

  lemma DuplicateKeyFirstWinsPart0(s: string)
    requires s == "{\"a\":true,\"a\":null}"
    ensures Run(s, DuplicateKeyFirstWins0) == Ok(Object(map["a" := True]))
  {
    DuplicateKeyFirstWinsSteps0(s);
    DuplicateKeyFirstWinsSteps1(s);
    DuplicateKeyFirstWinsSteps2(s);
    DuplicateKeyFirstWinsSteps3(s);
    DuplicateKeyFirstWinsSteps4(s);
    DuplicateKeyFirstWinsSteps5(s);
    DuplicateKeyFirstWinsSteps6(s);
    DuplicateKeyFirstWinsSteps7(s);
    DuplicateKeyFirstWinsSteps8(s);
    DuplicateKeyFirstWinsSteps9(s);
    DuplicateKeyFirstWinsPart1(s);
  }

  lemma DuplicateKeyFirstWinsPart1(s: string)
    requires s == "{\"a\":true,\"a\":null}"
    ensures Run(s, DuplicateKeyFirstWins10) == Ok(Object(map["a" := True]))
  {
    DuplicateKeyFirstWinsSteps10(s);
    DuplicateKeyFirstWinsSteps11(s);
    DuplicateKeyFirstWinsSteps12(s);
    DuplicateKeyFirstWinsSteps13(s);
    DuplicateKeyFirstWinsSteps14(s);
  }

  // The configurations the run of DuplicateKeyFirstWins passes through, by step.
  const DuplicateKeyFirstWins0: Config := Config(0, [], [], [])
  const DuplicateKeyFirstWins1: Config := Config(1, [StateWithCursor(ObjectOpen, 0)], [], [ParseKey])
  const DuplicateKeyFirstWins2: Config := Config(2, [StateWithCursor(ObjectOpen, 0), StateWithCursor(StringOpen, 1)], [], [ParseKey])
  const DuplicateKeyFirstWins3: Config := Config(3, [StateWithCursor(ObjectOpen, 0), StateWithCursor(StringOpen, 1)], [], [ParseKey])
  const DuplicateKeyFirstWins4: Config := Config(4, [StateWithCursor(ObjectOpen, 0)], [JsonWithStartCursor(String("a"), 1)], [ParseKey])
  const DuplicateKeyFirstWins5: Config := Config(5, [StateWithCursor(ObjectOpen, 0)], [JsonWithStartCursor(String("a"), 1)], [ParseKey, ParseValue])
  const DuplicateKeyFirstWins6: Config := Config(6, [StateWithCursor(ObjectOpen, 0), StateWithCursor(TrueOpen, 5)], [JsonWithStartCursor(String("a"), 1)], [ParseKey, ParseValue])
  const DuplicateKeyFirstWins7: Config := Config(9, [StateWithCursor(ObjectOpen, 0)], [JsonWithStartCursor(String("a"), 1), JsonWithStartCursor(True, 9)], [ParseKey, ParseValue])
  const DuplicateKeyFirstWins8: Config := Config(10, [StateWithCursor(ObjectOpen, 0)], [JsonWithStartCursor(String("a"), 1), JsonWithStartCursor(True, 9)], [ParseKey, ParseValue, ParseKey])
  const DuplicateKeyFirstWins9: Config := Config(11, [StateWithCursor(ObjectOpen, 0), StateWithCursor(StringOpen, 10)], [JsonWithStartCursor(String("a"), 1), JsonWithStartCursor(True, 9)], [ParseKey, ParseValue, ParseKey])
  const DuplicateKeyFirstWins10: Config := Config(12, [StateWithCursor(ObjectOpen, 0), StateWithCursor(StringOpen, 10)], [JsonWithStartCursor(String("a"), 1), JsonWithStartCursor(True, 9)], [ParseKey, ParseValue, ParseKey])
  const DuplicateKeyFirstWins11: Config := Config(13, [StateWithCursor(ObjectOpen, 0)], [JsonWithStartCursor(String("a"), 1), JsonWithStartCursor(True, 9), JsonWithStartCursor(String("a"), 10)], [ParseKey, ParseValue, ParseKey])
  const DuplicateKeyFirstWins12: Config := Config(14, [StateWithCursor(ObjectOpen, 0)], [JsonWithStartCursor(String("a"), 1), JsonWithStartCursor(True, 9), JsonWithStartCursor(String("a"), 10)], [ParseKey, ParseValue, ParseKey, ParseValue])
  const DuplicateKeyFirstWins13: Config := Config(15, [StateWithCursor(ObjectOpen, 0), StateWithCursor(NullOpen, 14)], [JsonWithStartCursor(String("a"), 1), JsonWithStartCursor(True, 9), JsonWithStartCursor(String("a"), 10)], [ParseKey, ParseValue, ParseKey, ParseValue])
  const DuplicateKeyFirstWins14: Config := Config(18, [StateWithCursor(ObjectOpen, 0)], [JsonWithStartCursor(String("a"), 1), JsonWithStartCursor(True, 9), JsonWithStartCursor(String("a"), 10), JsonWithStartCursor(Null, 18)], [ParseKey, ParseValue, ParseKey, ParseValue])
  const DuplicateKeyFirstWins15: Config := Config(19, [], [JsonWithStartCursor(Object(map["a" := True]), 18)], [])

  lemma DuplicateKeyFirstWinsSteps0(s: string)
    requires s == "{\"a\":true,\"a\":null}"
    ensures Run(s, DuplicateKeyFirstWins0) == Run(s, DuplicateKeyFirstWins1)
  {
    assert s[0] == '{';
    RunFrom(s, DuplicateKeyFirstWins0, DuplicateKeyFirstWins1);
  }

  lemma DuplicateKeyFirstWinsSteps1(s: string)
    requires s == "{\"a\":true,\"a\":null}"
    ensures Run(s, DuplicateKeyFirstWins1) == Run(s, DuplicateKeyFirstWins2)
  {
    assert s[1] == '\"';
    RunFrom(s, DuplicateKeyFirstWins1, DuplicateKeyFirstWins2);
  }

  lemma DuplicateKeyFirstWinsSteps2(s: string)
    requires s == "{\"a\":true,\"a\":null}"
    ensures Run(s, DuplicateKeyFirstWins2) == Run(s, DuplicateKeyFirstWins3)
  {
    assert s[2] == 'a';
    RunFrom(s, DuplicateKeyFirstWins2, DuplicateKeyFirstWins3);
  }

  lemma DuplicateKeyFirstWinsSteps3(s: string)
    requires s == "{\"a\":true,\"a\":null}"
    ensures Run(s, DuplicateKeyFirstWins3) == Run(s, DuplicateKeyFirstWins4)
  {
    assert s[3] == '\"';
    assert s[2] == 'a';
    assert s[2..3] == "a";
    RunFrom(s, DuplicateKeyFirstWins3, DuplicateKeyFirstWins4);
  }

  lemma DuplicateKeyFirstWinsSteps4(s: string)
    requires s == "{\"a\":true,\"a\":null}"
    ensures Run(s, DuplicateKeyFirstWins4) == Run(s, DuplicateKeyFirstWins5)
  {
    assert s[4] == ':';
    RunFrom(s, DuplicateKeyFirstWins4, DuplicateKeyFirstWins5);
  }

  lemma DuplicateKeyFirstWinsSteps5(s: string)
    requires s == "{\"a\":true,\"a\":null}"
    ensures Run(s, DuplicateKeyFirstWins5) == Run(s, DuplicateKeyFirstWins6)
  {
    assert s[5] == 't';
    RunFrom(s, DuplicateKeyFirstWins5, DuplicateKeyFirstWins6);
  }

  lemma DuplicateKeyFirstWinsSteps6(s: string)
    requires s == "{\"a\":true,\"a\":null}"
    ensures Run(s, DuplicateKeyFirstWins6) == Run(s, DuplicateKeyFirstWins7)
  {
    assert s[6] == 'r';
    RunFrom(s, DuplicateKeyFirstWins6, DuplicateKeyFirstWins7);
  }

  lemma DuplicateKeyFirstWinsSteps7(s: string)
    requires s == "{\"a\":true,\"a\":null}"
    ensures Run(s, DuplicateKeyFirstWins7) == Run(s, DuplicateKeyFirstWins8)
  {
    assert s[9] == ',';
    RunFrom(s, DuplicateKeyFirstWins7, DuplicateKeyFirstWins8);
  }

  lemma DuplicateKeyFirstWinsSteps8(s: string)
    requires s == "{\"a\":true,\"a\":null}"
    ensures Run(s, DuplicateKeyFirstWins8) == Run(s, DuplicateKeyFirstWins9)
  {
    assert s[10] == '\"';
    RunFrom(s, DuplicateKeyFirstWins8, DuplicateKeyFirstWins9);
  }

  lemma DuplicateKeyFirstWinsSteps9(s: string)
    requires s == "{\"a\":true,\"a\":null}"
    ensures Run(s, DuplicateKeyFirstWins9) == Run(s, DuplicateKeyFirstWins10)
  {
    assert s[11] == 'a';
    RunFrom(s, DuplicateKeyFirstWins9, DuplicateKeyFirstWins10);
  }

  lemma DuplicateKeyFirstWinsSteps10(s: string)
    requires s == "{\"a\":true,\"a\":null}"
    ensures Run(s, DuplicateKeyFirstWins10) == Run(s, DuplicateKeyFirstWins11)
  {
    assert s[12] == '\"';
    assert s[11] == 'a';
    assert s[11..12] == "a";
    RunFrom(s, DuplicateKeyFirstWins10, DuplicateKeyFirstWins11);
  }

  lemma DuplicateKeyFirstWinsSteps11(s: string)
    requires s == "{\"a\":true,\"a\":null}"
    ensures Run(s, DuplicateKeyFirstWins11) == Run(s, DuplicateKeyFirstWins12)
  {
    assert s[13] == ':';
    RunFrom(s, DuplicateKeyFirstWins11, DuplicateKeyFirstWins12);
  }

  lemma DuplicateKeyFirstWinsSteps12(s: string)
    requires s == "{\"a\":true,\"a\":null}"
    ensures Run(s, DuplicateKeyFirstWins12) == Run(s, DuplicateKeyFirstWins13)
  {
    assert s[14] == 'n';
    RunFrom(s, DuplicateKeyFirstWins12, DuplicateKeyFirstWins13);
  }

  lemma DuplicateKeyFirstWinsSteps13(s: string)
    requires s == "{\"a\":true,\"a\":null}"
    ensures Run(s, DuplicateKeyFirstWins13) == Run(s, DuplicateKeyFirstWins14)
  {
    assert s[15] == 'u';
    RunFrom(s, DuplicateKeyFirstWins13, DuplicateKeyFirstWins14);
  }

  lemma DuplicateKeyFirstWinsSteps14(s: string)
    requires s == "{\"a\":true,\"a\":null}"
    ensures Run(s, DuplicateKeyFirstWins14) == Run(s, DuplicateKeyFirstWins15)
  {
    assert s[18] == '}';
    DuplicateKeyFirstWinsClose14();
    var cfg := Config(18, [StateWithCursor(ObjectOpen, 0)], [JsonWithStartCursor(String("a"), 1), JsonWithStartCursor(True, 9), JsonWithStartCursor(String("a"), 10), JsonWithStartCursor(Null, 18)], [ParseKey, ParseValue, ParseKey, ParseValue]);
    var closed := ObjectClose([], [], map["a" := True]);
    var next := Config(19, [], [JsonWithStartCursor(Object(map["a" := True]), 18)], []);
    assert Pop(cfg.states) == next.states;
    assert closed.results + [JsonWithStartCursor(Object(closed.fields), cfg.cursor)] == next.results;
    CloseFrom(s, cfg, closed, next);
  }

  lemma DuplicateKeyFirstWinsClose14()
    ensures CloseObjectLoop([JsonWithStartCursor(String("a"), 1), JsonWithStartCursor(True, 9), JsonWithStartCursor(String("a"), 10), JsonWithStartCursor(Null, 18)], [ParseKey, ParseValue, ParseKey, ParseValue], 0, 18, map[]) == Ok(ObjectClose([], [], map["a" := True]))
  {
    DuplicateKeyFirstWinsClose14Round0();
    DuplicateKeyFirstWinsClose14Round1();
    assert map[]["a" := Null]["a" := True] == map["a" := True];
    assert CloseObjectLoop([], [], 0, 18, map[]["a" := Null]["a" := True]) == Ok(ObjectClose([], [], map["a" := True]));
  }

  lemma DuplicateKeyFirstWinsClose14Round0()
    ensures CloseObjectLoop([JsonWithStartCursor(String("a"), 1), JsonWithStartCursor(True, 9), JsonWithStartCursor(String("a"), 10), JsonWithStartCursor(Null, 18)], [ParseKey, ParseValue, ParseKey, ParseValue], 0, 18, map[]) == CloseObjectLoop([JsonWithStartCursor(String("a"), 1), JsonWithStartCursor(True, 9)], [ParseKey, ParseValue], 0, 18, map[]["a" := Null])
  {
    var rest: seq<JsonWithStartCursor> := [JsonWithStartCursor(String("a"), 1), JsonWithStartCursor(True, 9)];
    var phases: seq<ObjectParseState> := [ParseKey, ParseValue];
    var key := JsonWithStartCursor(String("a"), 10);
    var value := JsonWithStartCursor(Null, 18);
    CloseRound(rest, "a", 10, value, phases, ParseKey, ParseValue, 0, 18, map[]);
    assert rest + [key, value] == [JsonWithStartCursor(String("a"), 1), JsonWithStartCursor(True, 9), JsonWithStartCursor(String("a"), 10), JsonWithStartCursor(Null, 18)];
    assert phases + [ParseKey, ParseValue] == [ParseKey, ParseValue, ParseKey, ParseValue];
  }

  lemma DuplicateKeyFirstWinsClose14Round1()
    ensures CloseObjectLoop([JsonWithStartCursor(String("a"), 1), JsonWithStartCursor(True, 9)], [ParseKey, ParseValue], 0, 18, map[]["a" := Null]) == CloseObjectLoop([], [], 0, 18, map[]["a" := Null]["a" := True])
  {
    var rest: seq<JsonWithStartCursor> := [];
    var phases: seq<ObjectParseState> := [];
    var key := JsonWithStartCursor(String("a"), 1);
    var value := JsonWithStartCursor(True, 9);
    CloseRound(rest, "a", 1, value, phases, ParseKey, ParseValue, 0, 18, map[]["a" := Null]);
    assert rest + [key, value] == [JsonWithStartCursor(String("a"), 1), JsonWithStartCursor(True, 9)];
    assert phases + [ParseKey, ParseValue] == [ParseKey, ParseValue];
  }

  /** The digit 0 is not a number opener and is skipped, so the key is taken as the value and the close reports a missing key. */
  lemma ZeroValueMisreported(s: string)
    requires s == "{\"a\":0}"
    ensures ParseSpec(s) == Err(Unknown("object key not string", 6))
  {
    ZeroValueMisreportedSteps0(s);
    ZeroValueMisreportedSteps1(s);
    ZeroValueMisreportedSteps2(s);
    ZeroValueMisreportedSteps3(s);
    ZeroValueMisreportedSteps4(s);
    ZeroValueMisreportedSteps5(s);
    ZeroValueMisreportedLast(s);
  }

  // The configurations the run of ZeroValueMisreported passes through, by step.
  const ZeroValueMisreported0: Config := Config(0, [], [], [])
  const ZeroValueMisreported1: Config := Config(1, [StateWithCursor(ObjectOpen, 0)], [], [ParseKey])
  const ZeroValueMisreported2: Config := Config(2, [StateWithCursor(ObjectOpen, 0), StateWithCursor(StringOpen, 1)], [], [ParseKey])
  const ZeroValueMisreported3: Config := Config(3, [StateWithCursor(ObjectOpen, 0), StateWithCursor(StringOpen, 1)], [], [ParseKey])
  const ZeroValueMisreported4: Config := Config(4, [StateWithCursor(ObjectOpen, 0)], [JsonWithStartCursor(String("a"), 1)], [ParseKey])
  const ZeroValueMisreported5: Config := Config(5, [StateWithCursor(ObjectOpen, 0)], [JsonWithStartCursor(String("a"), 1)], [ParseKey, ParseValue])
  const ZeroValueMisreported6: Config := Config(6, [StateWithCursor(ObjectOpen, 0)], [JsonWithStartCursor(String("a"), 1)], [ParseKey, ParseValue])

  lemma ZeroValueMisreportedSteps0(s: string)
    requires s == "{\"a\":0}"
    ensures Run(s, ZeroValueMisreported0) == Run(s, ZeroValueMisreported1)
  {
    assert s[0] == '{';
    RunFrom(s, ZeroValueMisreported0, ZeroValueMisreported1);
  }

  lemma ZeroValueMisreportedSteps1(s: string)
    requires s == "{\"a\":0}"
    ensures Run(s, ZeroValueMisreported1) == Run(s, ZeroValueMisreported2)
  {
    assert s[1] == '\"';
    RunFrom(s, ZeroValueMisreported1, ZeroValueMisreported2);
  }

  lemma ZeroValueMisreportedSteps2(s: string)
    requires s == "{\"a\":0}"
    ensures Run(s, ZeroValueMisreported2) == Run(s, ZeroValueMisreported3)
  {
    assert s[2] == 'a';
    RunFrom(s, ZeroValueMisreported2, ZeroValueMisreported3);
  }

  lemma ZeroValueMisreportedSteps3(s: string)
    requires s == "{\"a\":0}"
    ensures Run(s, ZeroValueMisreported3) == Run(s, ZeroValueMisreported4)
  {
    assert s[3] == '\"';
    assert s[2] == 'a';
    assert s[2..3] == "a";
    RunFrom(s, ZeroValueMisreported3, ZeroValueMisreported4);
  }

  lemma ZeroValueMisreportedSteps4(s: string)
    requires s == "{\"a\":0}"
    ensures Run(s, ZeroValueMisreported4) == Run(s, ZeroValueMisreported5)
  {
    assert s[4] == ':';
    RunFrom(s, ZeroValueMisreported4, ZeroValueMisreported5);
  }

  lemma ZeroValueMisreportedSteps5(s: string)
    requires s == "{\"a\":0}"
    ensures Run(s, ZeroValueMisreported5) == Run(s, ZeroValueMisreported6)
  {
    assert s[5] == '0';
    RunFrom(s, ZeroValueMisreported5, ZeroValueMisreported6);
  }

  lemma ZeroValueMisreportedLast(s: string)
    requires s == "{\"a\":0}"
    ensures Run(s, ZeroValueMisreported6) == Err(Unknown("object key not string", 6))
  {
    assert s[6] == '}';
    ZeroValueMisreportedClose6();
  }

  lemma ZeroValueMisreportedClose6()
    ensures CloseObjectLoop([JsonWithStartCursor(String("a"), 1)], [ParseKey, ParseValue], 0, 6, map[]) == Err(Unknown("object key not string", 6))
  {
    assert CloseObjectLoop([JsonWithStartCursor(String("a"), 1)], [ParseKey, ParseValue], 0, 6, map[]) == Err(Unknown("object key not string", 6));
  }
}
