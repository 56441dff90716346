/** `parse` of src/main.rs as the imperative loop it is: a cursor and three
    stacks held in local variables and updated by each iteration. Each arm of
    the `match` on the top state is a method of its own, proved to do what the
    corresponding `Machine` step function says; `Parse` is proved to compute
    `Machine.ParseSpec`. */
module Parser {
  import opened Outcomes
  import opened Values
  import opened Lexical
  import opened Machine
  import opened Properties

  function Reverse<T>(s: seq<T>): (r: seq<T>)
    ensures |r| == |s|
  {
    if s == [] then [] else Reverse(s[1..]) + [s[0]]
  }

  lemma {:induction false} ReverseAt<T>(s: seq<T>, i: nat)
    requires i < |s|
    ensures Reverse(s)[i] == s[|s| - 1 - i]
  {
    if i < |s| - 1 {
      ReverseAt(s[1..], i);
    }
  }

  /** Reversing twice gives back the original sequence. */
  lemma ReverseReverse<T>(s: seq<T>)
    ensures Reverse(Reverse(s)) == s
  {
    forall i | 0 <= i < |s|
      ensures Reverse(Reverse(s))[i] == s[i]
    {
      ReverseAt(Reverse(s), i);
      ReverseAt(s, |s| - 1 - i);
    }
  }

  /** The array-closing loop: pop every result entry anchored above `start`
      into `array` (so in reverse), then `array.reverse()`. The elements come
      out in source order and the entries below them stay where they were. */
  method CollectArray(results: seq<JsonWithStartCursor>, start: nat)
    returns (rest: seq<JsonWithStartCursor>, items: seq<Json>)
    ensures rest == results[..ArrayCut(results, start)]
    ensures items == Jsons(results[ArrayCut(results, start)..])
  {
    rest := results;
    items := [];
    while |rest| > 0 && rest[|rest| - 1].cursor > start
      invariant rest == results[..|rest|]
      invariant forall i :: |rest| <= i < |results| ==> results[i].cursor > start
      invariant items == Reverse(Jsons(results[|rest|..]))
      decreases |rest|
    {
      var item := rest[|rest| - 1];
      assert Jsons(results[|rest| - 1..]) == [item.json] + Jsons(results[|rest|..]);
      items := items + [item.json];
      rest := rest[..|rest| - 1];
    }
    ArrayCutUnique(results, start, |rest|);
    ReverseReverse(Jsons(results[|rest|..]));
    items := Reverse(items);
  }

  /** The object-closing loop, popping value/key pairs with their phase
      markers and inserting them into the map. */
  method CollectObject(results: seq<JsonWithStartCursor>, phases: seq<ObjectParseState>, start: nat, at: nat)
    returns (r: Outcome<ObjectClose>)
    ensures r == CloseObjectLoop(results, phases, start, at, map[])
  {
    var resultStack := results;
    var parseStates := phases;
    var objectHash: map<string, Json> := map[];
    while |parseStates| > 0
      invariant CloseObjectLoop(resultStack, parseStates, start, at, objectHash)
                == CloseObjectLoop(results, phases, start, at, map[])
      decreases |parseStates|
    {
      if |resultStack| == 0 {
        return Crash(UnwrapOnEmpty);
      }
      if resultStack[|resultStack| - 1].cursor <= start {
        break;
      }
      ghost var results0, phases0 := resultStack, parseStates;
      // value
      parseStates := parseStates[..|parseStates| - 1];
      var value := resultStack[|resultStack| - 1];
      resultStack := resultStack[..|resultStack| - 1];
      // key
      if |parseStates| > 0 {
        parseStates := parseStates[..|parseStates| - 1];
      }
      if |resultStack| == 0 {
        return Err(Unknown("object key not string", at));
      }
      var key := resultStack[|resultStack| - 1];
      resultStack := resultStack[..|resultStack| - 1];
      assert resultStack == results0[..|results0| - 2];
      assert parseStates == if |phases0| == 1 then [] else phases0[..|phases0| - 2];
      if !key.json.String? {
        return Err(Unknown("object key not string", at));
      }
      objectHash := objectHash[key.json.text := value.json];
    }
    return Ok(ObjectClose(resultStack, parseStates, objectHash));
  }

  /** The `State::StringOpen` arm. */
  method StringArm(input: string, cfg: Config, top: StateWithCursor) returns (r: Outcome<Config>)
    requires cfg.cursor < |input| && |cfg.states| > 0
    ensures r == StringStep(input, cfg, top)
  {
    var cursor, stateStack, jsonResultStack := cfg.cursor, cfg.states, cfg.results;
    if input[cursor] == '"' {
      var start := top.cursor + 1;
      if start > cursor {
        return Crash(SliceOutOfOrder(start, cursor));
      }
      jsonResultStack := jsonResultStack + [JsonWithStartCursor(String(input[start..cursor]), top.cursor)];
      stateStack := stateStack[..|stateStack| - 1];
    }
    cursor := cursor + 1;
    return Ok(Config(cursor, stateStack, jsonResultStack, cfg.phases));
  }

  /** The `State::ArrayOpen` arm. */
  method ArrayArm(input: string, cfg: Config, top: StateWithCursor) returns (r: Outcome<Config>)
    requires cfg.cursor < |input| && |cfg.states| > 0
    ensures r == ArrayStep(input, cfg, top)
  {
    var cursor, stateStack, jsonResultStack, objectParseStates := cfg.cursor, cfg.states, cfg.results, cfg.phases;
    var c := input[cursor];
    if c == ']' {
      var lastStateCursor := top.cursor;
      stateStack := stateStack[..|stateStack| - 1];
      var rest, items := CollectArray(jsonResultStack, lastStateCursor);
      jsonResultStack := rest + [JsonWithStartCursor(Array(items), lastStateCursor)];
      cursor := cursor + 1;
    } else if c == ',' {
      cursor := cursor + 1;
      if cursor >= |input| {
        return Crash(IndexOutOfBounds(cursor, |input|));
      }
      var next := TryOpen(input, cursor, stateStack, objectParseStates);
      stateStack, objectParseStates := next.states, next.phases;
    } else {
      var next := TryOpen(input, cursor, stateStack, objectParseStates);
      stateStack, objectParseStates := next.states, next.phases;
      cursor := cursor + 1;
    }
    return Ok(Config(cursor, stateStack, jsonResultStack, objectParseStates));
  }

  /** The `State::NumberOpen` arm. */
  method NumberArm(input: string, cfg: Config, top: StateWithCursor) returns (r: Outcome<Config>)
    requires cfg.cursor < |input| && |cfg.states| > 0
    ensures r == NumberStep(input, cfg, top)
  {
    var cursor, stateStack, jsonResultStack := cfg.cursor, cfg.states, cfg.results;
    var inputLen := |input|;
    if IsNumber(input[cursor]) && cursor < inputLen - 1 {
      cursor := cursor + 1;
    } else {
      var numberEndPos: nat;
      if cursor == inputLen - 1 {
        numberEndPos := cursor + 1;
        cursor := cursor + 1;
      } else {
        numberEndPos := cursor;
      }
      if top.cursor > numberEndPos {
        return Crash(SliceOutOfOrder(top.cursor, numberEndPos));
      }
      var span := input[top.cursor..numberEndPos];
      if ParsesAsFloat(span) {
        jsonResultStack := jsonResultStack + [JsonWithStartCursor(Number(span), top.cursor)];
        stateStack := stateStack[..|stateStack| - 1];
      } else {
        return Err(UnexpectedChar(cursor));
      }
    }
    return Ok(Config(cursor, stateStack, jsonResultStack, cfg.phases));
  }

  /** The `State::ObjectOpen` arm. */
  method ObjectArm(input: string, cfg: Config, top: StateWithCursor) returns (r: Outcome<Config>)
    requires cfg.cursor < |input| && |cfg.states| > 0
    ensures r == ObjectStep(input, cfg, top)
  {
    var cursor, stateStack, jsonResultStack, objectParseStates := cfg.cursor, cfg.states, cfg.results, cfg.phases;
    var c := input[cursor];
    var lastParseState: Option<ObjectParseState> :=
      if |objectParseStates| == 0 then None else Some(objectParseStates[|objectParseStates| - 1]);
    if IsSpace(c) {
      cursor := cursor + 1;
    } else if c == '}' {
      var lastStateCursor := top.cursor;
      stateStack := stateStack[..|stateStack| - 1];
      var closed := CollectObject(jsonResultStack, objectParseStates, lastStateCursor, cursor);
      match closed {
        case Ok(ObjectClose(rest, phases, objectHash)) =>
          jsonResultStack := rest + [JsonWithStartCursor(Object(objectHash), cursor)];
          objectParseStates := phases;
        case Err(e) =>
          return Err(e);
        case Crash(p) =>
          return Crash(p);
      }
      cursor := cursor + 1;
    } else if c == ':' {
      match lastParseState {
        case None =>
          return Err(Unknown("no last state", cursor));
        case Some(ParseValue) =>
          return Err(Unknown("last state was value!", cursor));
        case Some(ParseKey) =>
      }
      objectParseStates := objectParseStates + [ParseValue];
      cursor := cursor + 1;
    } else if c == ',' {
      cursor := cursor + 1;
      objectParseStates := objectParseStates + [ParseKey];
    } else if lastParseState == Some(ParseValue) {
      var next := TryOpen(input, cursor, stateStack, objectParseStates);
      stateStack, objectParseStates := next.states, next.phases;
      cursor := cursor + 1;
    } else if lastParseState == Some(ParseKey) {
      var next := TryOpen(input, cursor, stateStack, objectParseStates);
      if next.state.Some? && next.state != Some(StringOpen) {
        return Err(UnexpectedChar(cursor));
      }
      stateStack, objectParseStates := next.states, next.phases;
      cursor := cursor + 1;
    } else {
      return Err(Unknown("unknow object char", cursor));
    }
    return Ok(Config(cursor, stateStack, jsonResultStack, objectParseStates));
  }

  /** The `State::TrueOpen`, `FalseOpen` and `NullOpen` arms, which differ only
      in the literal's tail and the value pushed. */
  method LiteralArm(input: string, cfg: Config, tail: string, value: Json) returns (r: Outcome<Config>)
    requires cfg.cursor < |input| && |cfg.states| > 0 && |tail| >= 1
    ensures r == LiteralStep(input, cfg, tail, value)
  {
    var cursor, stateStack, jsonResultStack := cfg.cursor, cfg.states, cfg.results;
    var matched := CompareLetter(input, tail, cursor);
    match matched {
      case Ok(_) =>
        cursor := cursor + |tail|;
        jsonResultStack := jsonResultStack + [JsonWithStartCursor(value, cursor)];
        stateStack := stateStack[..|stateStack| - 1];
        return Ok(Config(cursor, stateStack, jsonResultStack, cfg.phases));
      case Err(e) =>
        return Err(e);
      case Crash(p) =>
        return Crash(p);
    }
  }

  /** One pass of the loop body: skip whitespace, try to open a construct when
      none is open, otherwise run the arm of the top state. */
  method Iteration(input: string, cfg: Config) returns (step: Outcome<Config>)
    requires cfg.cursor < |input|
    ensures step == Step(input, cfg)
  {
    var cursor := cfg.cursor;
    var c := input[cursor];
    if IsSpace(c) {
      return Ok(cfg.(cursor := cursor + 1));
    }
    if |cfg.states| == 0 {
      var tried := TryOpen(input, cursor, cfg.states, cfg.phases);
      return Ok(Config(cursor + 1, tried.states, cfg.results, tried.phases));
    }
    var top := cfg.states[|cfg.states| - 1];
    match top.state {
      case StringOpen => step := StringArm(input, cfg, top);
      case ArrayOpen => step := ArrayArm(input, cfg, top);
      case NumberOpen => step := NumberArm(input, cfg, top);
      case ObjectOpen => step := ObjectArm(input, cfg, top);
      case TrueOpen => step := LiteralArm(input, cfg, RUE, True);
      case FalseOpen => step := LiteralArm(input, cfg, ALSE, False);
      case NullOpen => step := LiteralArm(input, cfg, NULL, Null);
    }
  }

  /** `parse`: the `while cursor < input_len` loop, then the two final
      `assert_eq!`s. */
  method Parse(input: string) returns (r: Outcome<Json>)
    ensures r == ParseSpec(input)
  {
    var inputLen := |input|;
    if inputLen == 0 {
      return Err(NoEnd);
    }
    var cursor: nat := 0;
    var stateStack: seq<StateWithCursor> := [];
    var jsonResultStack: seq<JsonWithStartCursor> := [];
    var objectParseStates: seq<ObjectParseState> := [];
    InitialDisciplined();

    while cursor < inputLen
      invariant Run(input, Config(cursor, stateStack, jsonResultStack, objectParseStates)) == ParseSpec(input)
      invariant Disciplined(Config(cursor, stateStack, jsonResultStack, objectParseStates))
      decreases Remaining(input, Config(cursor, stateStack, jsonResultStack, objectParseStates)), |stateStack|
    {
      var cfg := Config(cursor, stateStack, jsonResultStack, objectParseStates);
      var step := Iteration(input, cfg);
      match step {
        case Ok(next) =>
          StepDisciplined(input, cfg);
          cursor, stateStack, jsonResultStack, objectParseStates := next.cursor, next.states, next.results, next.phases;
        case Err(e) =>
          return Err(e);
        case Crash(p) =>
          return Crash(p);
      }
    }

    assert Finish(Config(cursor, stateStack, jsonResultStack, objectParseStates)) == ParseSpec(input);
    if |stateStack| != 0 {
      return Crash(StateStillOpen(|stateStack|));
    }
    if |jsonResultStack| != 1 {
      return Crash(RootCount(|jsonResultStack|));
    }
    return Ok(jsonResultStack[0].json);
  }
}
