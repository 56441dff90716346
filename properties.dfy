/** Properties of the parse loop that hold for every input: the stack discipline
    the loop keeps, what closing an array or an object does to the stacks, and
    the error paths of the object and literal states. */
module Properties {
  import opened Outcomes
  import opened Values
  import opened Lexical
  import opened Machine

  // ---------------------------------------------------------------------------
  // Stack discipline

  /** The constructs whose state never has another state pushed above it. */
  predicate IsScalar(s: State)
  {
    s == NumberOpen || s == StringOpen || s == TrueOpen || s == FalseOpen || s == NullOpen
  }

  /** Anchors on `json_result_stack` never decrease from bottom to top. */
  ghost predicate Sorted(results: seq<JsonWithStartCursor>)
  {
    forall i, j :: 0 <= i < j < |results| ==> results[i].cursor <= results[j].cursor
  }

  /** The invariant of the loop: result anchors are sorted and behind the
      cursor, state anchors are behind the cursor, only arrays and objects have
      states above them, and an open scalar lies above every finished result. */
  ghost predicate Disciplined(cfg: Config)
  {
    Sorted(cfg.results)
    && (forall i :: 0 <= i < |cfg.results| ==> cfg.results[i].cursor <= cfg.cursor)
    && (forall i :: 0 <= i < |cfg.states| ==> cfg.states[i].cursor <= cfg.cursor)
    && (forall i :: 0 <= i < |cfg.states| - 1 ==> !IsScalar(cfg.states[i].state))
    && (|cfg.states| > 0 && IsScalar(cfg.states[|cfg.states| - 1].state) ==>
          forall i :: 0 <= i < |cfg.results| ==> cfg.results[i].cursor <= cfg.states[|cfg.states| - 1].cursor)
  }

  /** The loop starts disciplined. */
  lemma InitialDisciplined()
    ensures Disciplined(Initial())
  {
  }

  /** Pushing an entry anchored no lower than every entry keeps the order. */
  lemma SortedPush(results: seq<JsonWithStartCursor>, entry: JsonWithStartCursor)
    requires Sorted(results)
    requires forall i :: 0 <= i < |results| ==> results[i].cursor <= entry.cursor
    ensures Sorted(results + [entry])
  {
  }

  /** Opening a construct at `at` from a state that may have children. */
  lemma OpenDisciplined(input: string, cfg: Config, at: nat, cursor': nat)
    requires Disciplined(cfg) && at < |input| && cfg.cursor <= at <= cursor'
    requires |cfg.states| == 0 || !IsScalar(cfg.states[|cfg.states| - 1].state)
    ensures var o := TryOpen(input, at, cfg.states, cfg.phases);
            Disciplined(Config(cursor', o.states, cfg.results, o.phases))
  {
  }

  /** Popping the top state and pushing a result anchored at `anchor`. */
  lemma CloseDisciplined(cfg: Config, kept: seq<JsonWithStartCursor>, anchor: nat, cursor': nat, phases: seq<ObjectParseState>)
    requires Disciplined(cfg) && |cfg.states| > 0 && cfg.cursor <= cursor' && anchor <= cursor'
    requires Sorted(kept) && forall i :: 0 <= i < |kept| ==> kept[i].cursor <= anchor
    requires forall i :: 0 <= i < |kept| ==> kept[i].cursor <= cfg.cursor
    ensures forall e :: Disciplined(Config(cursor', Pop(cfg.states), kept + [JsonWithStartCursor(e, anchor)], phases))
  {
    forall e: Json
      ensures Disciplined(Config(cursor', Pop(cfg.states), kept + [JsonWithStartCursor(e, anchor)], phases))
    {
      SortedPush(kept, JsonWithStartCursor(e, anchor));
    }
  }

  /** The entries the array close keeps all lie at or below the array's start. */
  lemma ArrayCutBelow(results: seq<JsonWithStartCursor>, start: nat)
    requires Sorted(results)
    ensures forall i :: 0 <= i < ArrayCut(results, start) ==> results[i].cursor <= start
  {
  }

  /** Every step keeps the discipline, so every configuration the loop reaches
      from `Initial()` has it. */
  lemma StepDisciplined(input: string, cfg: Config)
    requires cfg.cursor < |input| && Disciplined(cfg) && Step(input, cfg).Ok?
    ensures Disciplined(Step(input, cfg).value)
  {
    var cursor := cfg.cursor;
    if IsSpace(input[cursor]) {
      SkipDisciplined(cfg, cfg.phases);
    } else if |cfg.states| == 0 {
      OpenDisciplined(input, cfg, cursor, cursor + 1);
    } else {
      var top := cfg.states[|cfg.states| - 1];
      match top.state
      case StringOpen =>
        assert Step(input, cfg) == StringStep(input, cfg, top);
        StringDisciplined(input, cfg, top);
      case NumberOpen =>
        assert Step(input, cfg) == NumberStep(input, cfg, top);
        NumberDisciplined(input, cfg, top);
      case ArrayOpen =>
        assert Step(input, cfg) == ArrayStep(input, cfg, top);
        ArrayDisciplined(input, cfg, top);
      case ObjectOpen =>
        assert Step(input, cfg) == ObjectStep(input, cfg, top);
        ObjectDisciplined(input, cfg, top);
      case TrueOpen =>
        assert Step(input, cfg) == LiteralStep(input, cfg, RUE, True);
        LiteralDisciplined(input, cfg, RUE, True);
      case FalseOpen =>
        assert Step(input, cfg) == LiteralStep(input, cfg, ALSE, False);
        LiteralDisciplined(input, cfg, ALSE, False);
      case NullOpen =>
        assert Step(input, cfg) == LiteralStep(input, cfg, NULL, Null);
        LiteralDisciplined(input, cfg, NULL, Null);
    }
  }

  /** Moving the cursor past a character, whatever becomes of the markers,
      keeps the discipline. */
  lemma SkipDisciplined(cfg: Config, phases: seq<ObjectParseState>)
    requires Disciplined(cfg)
    ensures Disciplined(Config(cfg.cursor + 1, cfg.states, cfg.results, phases))
  {
  }

  lemma StringDisciplined(input: string, cfg: Config, top: StateWithCursor)
    requires cfg.cursor < |input| && Disciplined(cfg) && |cfg.states| > 0
    requires top == cfg.states[|cfg.states| - 1] && top.state == StringOpen
    requires StringStep(input, cfg, top).Ok?
    ensures Disciplined(StringStep(input, cfg, top).value)
  {
    if input[cfg.cursor] == '"' {
      CloseDisciplined(cfg, cfg.results, top.cursor, cfg.cursor + 1, cfg.phases);
    }
  }

  lemma NumberDisciplined(input: string, cfg: Config, top: StateWithCursor)
    requires cfg.cursor < |input| && Disciplined(cfg) && |cfg.states| > 0
    requires top == cfg.states[|cfg.states| - 1] && top.state == NumberOpen
    requires NumberStep(input, cfg, top).Ok?
    ensures Disciplined(NumberStep(input, cfg, top).value)
  {
    var cursor := cfg.cursor;
    if !(IsNumber(input[cursor]) && cursor < |input| - 1) {
      var cursor' := if cursor == |input| - 1 then cursor + 1 else cursor;
      CloseDisciplined(cfg, cfg.results, top.cursor, cursor', cfg.phases);
    }
  }

  lemma ArrayDisciplined(input: string, cfg: Config, top: StateWithCursor)
    requires cfg.cursor < |input| && Disciplined(cfg) && |cfg.states| > 0
    requires top == cfg.states[|cfg.states| - 1] && top.state == ArrayOpen
    requires ArrayStep(input, cfg, top).Ok?
    ensures Disciplined(ArrayStep(input, cfg, top).value)
  {
    var cursor := cfg.cursor;
    var c := input[cursor];
    if c == ']' {
      ArrayCloseDisciplined(cfg, top);
    } else if c == ',' {
      OpenDisciplined(input, cfg, cursor + 1, cursor + 1);
    } else {
      OpenDisciplined(input, cfg, cursor, cursor + 1);
    }
  }

  lemma ArrayCloseDisciplined(cfg: Config, top: StateWithCursor)
    requires Disciplined(cfg) && |cfg.states| > 0 && top == cfg.states[|cfg.states| - 1]
    ensures Disciplined(CloseArray(cfg, top))
  {
    var k := ArrayCut(cfg.results, top.cursor);
    ArrayCutBelow(cfg.results, top.cursor);
    CloseDisciplined(cfg, cfg.results[..k], top.cursor, cfg.cursor + 1, cfg.phases);
  }

  lemma LiteralDisciplined(input: string, cfg: Config, tail: string, value: Json)
    requires cfg.cursor < |input| && Disciplined(cfg) && |cfg.states| > 0 && |tail| >= 1
    requires IsScalar(cfg.states[|cfg.states| - 1].state)
    requires LiteralStep(input, cfg, tail, value).Ok?
    ensures Disciplined(LiteralStep(input, cfg, tail, value).value)
  {
    CloseDisciplined(cfg, cfg.results, cfg.cursor + |tail|, cfg.cursor + |tail|, cfg.phases);
  }

  lemma ObjectDisciplined(input: string, cfg: Config, top: StateWithCursor)
    requires cfg.cursor < |input| && Disciplined(cfg) && |cfg.states| > 0
    requires top == cfg.states[|cfg.states| - 1] && top.state == ObjectOpen
    requires ObjectStep(input, cfg, top).Ok?
    ensures Disciplined(ObjectStep(input, cfg, top).value)
  {
    var cursor := cfg.cursor;
    var c := input[cursor];
    if IsSpace(c) {
      SkipDisciplined(cfg, cfg.phases);
    } else if c == '}' {
      assert ObjectStep(input, cfg, top) == CloseObject(cfg, top);
      var closed := CloseObjectLoop(cfg.results, cfg.phases, top.cursor, cfg.cursor, map[]).value;
      ObjectCloseDisciplined(cfg, closed);
    } else if c == ':' {
      assert ObjectStep(input, cfg, top) == Ok(Config(cursor + 1, cfg.states, cfg.results, cfg.phases + [ParseValue]));
      SkipDisciplined(cfg, cfg.phases + [ParseValue]);
    } else if c == ',' {
      SkipDisciplined(cfg, cfg.phases + [ParseKey]);
    } else {
      var o := TryOpen(input, cursor, cfg.states, cfg.phases);
      assert ObjectStep(input, cfg, top) == Ok(Config(cursor + 1, o.states, cfg.results, o.phases));
      OpenDisciplined(input, cfg, cursor, cursor + 1);
    }
  }

  lemma ObjectCloseDisciplined(cfg: Config, closed: ObjectClose)
    requires Disciplined(cfg) && |cfg.states| > 0 && closed.results <= cfg.results
    ensures Disciplined(Config(cfg.cursor + 1, Pop(cfg.states),
                               closed.results + [JsonWithStartCursor(Object(closed.fields), cfg.cursor)], closed.phases))
  {
    var kept := closed.results;
    assert kept == cfg.results[..|kept|];
    CloseDisciplined(cfg, kept, cfg.cursor, cfg.cursor + 1, closed.phases);
  }

  // ---------------------------------------------------------------------------
  // Closing an array

  /** The entries anchored above `start`, in stack order. */
  function Above(results: seq<JsonWithStartCursor>, start: nat): (r: seq<JsonWithStartCursor>)
    ensures forall i :: 0 <= i < |r| ==> r[i].cursor > start
  {
    if |results| == 0 then []
    else Above(Pop(results), start)
         + (if results[|results| - 1].cursor > start then [results[|results| - 1]] else [])
  }

  /** The entries anchored at or below `start`, in stack order. */
  function Below(results: seq<JsonWithStartCursor>, start: nat): (r: seq<JsonWithStartCursor>)
    ensures forall i :: 0 <= i < |r| ==> r[i].cursor <= start
  {
    if |results| == 0 then []
    else Below(Pop(results), start)
         + (if results[|results| - 1].cursor <= start then [results[|results| - 1]] else [])
  }

  /** On a sorted stack whose top lies at or below `start`, nothing is above it. */
  lemma {:induction false} AllBelow(results: seq<JsonWithStartCursor>, start: nat)
    requires Sorted(results)
    requires |results| > 0 ==> results[|results| - 1].cursor <= start
    ensures Above(results, start) == [] && Below(results, start) == results
  {
    if |results| > 0 {
      AllBelow(Pop(results), start);
    }
  }

  /** On a sorted stack, the array close cuts exactly between the entries at
      or below the array's start and those above it. */
  lemma {:induction false} ArrayCutSplits(results: seq<JsonWithStartCursor>, start: nat)
    requires Sorted(results)
    ensures results[..ArrayCut(results, start)] == Below(results, start)
    ensures results[ArrayCut(results, start)..] == Above(results, start)
  {
    if |results| == 0 || results[|results| - 1].cursor <= start {
      AllBelow(results, start);
    } else {
      var rest := Pop(results);
      assert Sorted(rest);
      ArrayCutSplits(rest, start);
      var k := ArrayCut(rest, start);
      assert ArrayCut(results, start) == k;
      SplitsAbove(results, start);
      PopSlices(results, k);
    }
  }

  /** Cutting a stack below its top at `k` is cutting the popped stack there,
      with the top joining the upper part. */
  lemma PopSlices<T>(s: seq<T>, k: nat)
    requires k < |s|
    ensures s[..k] == Pop(s)[..k]
    ensures s[k..] == Pop(s)[k..] + [s[|s| - 1]]
  {
  }

  /** Nothing is lost or reordered: the entries kept by the array close
      followed by those it takes are the whole result stack. */
  lemma ArrayCutPartition(results: seq<JsonWithStartCursor>, start: nat)
    requires Sorted(results)
    ensures Below(results, start) + Above(results, start) == results
  {
    ArrayCutSplits(results, start);
    var k := ArrayCut(results, start);
    assert results == results[..k] + results[k..];
  }

  /** An entry on top anchored above `start` joins the entries above it and
      leaves those below alone. */
  lemma SplitsAbove(results: seq<JsonWithStartCursor>, start: nat)
    requires |results| > 0 && results[|results| - 1].cursor > start
    ensures Below(results, start) == Below(Pop(results), start)
    ensures Above(results, start) == Above(Pop(results), start) + [results[|results| - 1]]
  {
    assert Below(results, start) == Below(Pop(results), start) + [];
  }

  /** `]` on top of an open array, on a disciplined configuration: the array's
      state is popped, the entries at or below its start stay untouched, those
      above it are removed, and one `Array` entry anchored at the start holds
      their values in the order they were pushed. */
  lemma ArrayClose(input: string, cfg: Config)
    requires cfg.cursor < |input| && Disciplined(cfg) && |cfg.states| > 0
    requires cfg.states[|cfg.states| - 1].state == ArrayOpen && input[cfg.cursor] == ']'
    ensures var start := cfg.states[|cfg.states| - 1].cursor;
            Step(input, cfg) == Ok(Config(cfg.cursor + 1, Pop(cfg.states),
              Below(cfg.results, start) + [JsonWithStartCursor(Array(Jsons(Above(cfg.results, start))), start)],
              cfg.phases))
  {
    ArrayCutSplits(cfg.results, cfg.states[|cfg.states| - 1].cursor);
  }

  // ---------------------------------------------------------------------------
  // Closing an object

  /** One key/value pair as it sits on `json_result_stack`: a string key and
      its value, with their anchors. */
  datatype Member = Member(key: string, keyAt: nat, value: Json, valueAt: nat)

  /** The result entries of a run of members, key then value, first member
      deepest. */
  function Entries(ms: seq<Member>): (r: seq<JsonWithStartCursor>)
    ensures |r| == 2 * |ms|
  {
    if |ms| == 0 then []
    else
      var m := ms[|ms| - 1];
      Entries(ms[..|ms| - 1]) + [JsonWithStartCursor(String(m.key), m.keyAt), JsonWithStartCursor(m.value, m.valueAt)]
  }

  /** The phase markers `n` members leave: `ParseKey` pushed by `{` or `,`, then
      `ParseValue` pushed by `:`. */
  function Markers(n: nat): (r: seq<ObjectParseState>)
    ensures |r| == 2 * n
  {
    if n == 0 then [] else Markers(n - 1) + [ParseKey, ParseValue]
  }

  /** The map of a run of members in which, for a repeated key, the member that
      comes first in the source wins. */
  function FirstWins(ms: seq<Member>): map<string, Json>
  {
    if |ms| == 0 then map[]
    else
      var m := ms[|ms| - 1];
      map[m.key := m.value] + FirstWins(ms[..|ms| - 1])
  }

  /** One round of the object close: the two entries on top of the result stack
      are taken as key and value, two phases are popped, and the pair is added to
      the map being built. */
  lemma CloseRound(rest: seq<JsonWithStartCursor>, key: string, keyAt: nat, value: JsonWithStartCursor,
                   phases: seq<ObjectParseState>, p1: ObjectParseState, p2: ObjectParseState,
                   start: nat, at: nat, acc: map<string, Json>)
    requires value.cursor > start
    ensures CloseObjectLoop(rest + [JsonWithStartCursor(String(key), keyAt), value], phases + [p1, p2], start, at, acc)
            == CloseObjectLoop(rest, phases, start, at, acc[key := value.json])
  {
    var results := rest + [JsonWithStartCursor(String(key), keyAt), value];
    assert Pop(results) == rest + [JsonWithStartCursor(String(key), keyAt)];
    assert Pop(Pop(results)) == rest;
    assert Pop(Pop(phases + [p1, p2])) == phases;
  }

  /** The close consumes a whole run of members whose values lie above the
      object's start, adding `FirstWins` of them to the map. */
  lemma {:induction false} CloseMembers(base: seq<JsonWithStartCursor>, basePhases: seq<ObjectParseState>,
                                        ms: seq<Member>, start: nat, at: nat, acc: map<string, Json>)
    requires forall i :: 0 <= i < |ms| ==> ms[i].valueAt > start
    ensures CloseObjectLoop(base + Entries(ms), basePhases + Markers(|ms|), start, at, acc)
            == CloseObjectLoop(base, basePhases, start, at, acc + FirstWins(ms))
    decreases |ms|
  {
    if |ms| == 0 {
      assert base + Entries(ms) == base;
      assert basePhases + Markers(|ms|) == basePhases;
      assert acc + FirstWins(ms) == acc;
    } else {
      var init := ms[..|ms| - 1];
      var m := ms[|ms| - 1];
      var key := JsonWithStartCursor(String(m.key), m.keyAt);
      var value := JsonWithStartCursor(m.value, m.valueAt);
      assert base + Entries(ms) == (base + Entries(init)) + [key, value];
      assert basePhases + Markers(|ms|) == (basePhases + Markers(|init|)) + [ParseKey, ParseValue];
      CloseRound(base + Entries(init), m.key, m.keyAt, value, basePhases + Markers(|init|), ParseKey, ParseValue, start, at, acc);
      CloseMembers(base, basePhases, init, start, at, acc[m.key := m.value]);
      UpdateThenUnion(acc, m.key, m.value, FirstWins(init));
    }
  }

  lemma UpdateThenUnion(acc: map<string, Json>, k: string, v: Json, rest: map<string, Json>)
    ensures acc[k := v] + rest == acc + (map[k := v] + rest)
  {
  }

  /** The keys of `FirstWins` are the members' keys. */
  lemma {:induction false} FirstWinsKeys(ms: seq<Member>)
    ensures forall k :: k in FirstWins(ms) <==> exists i :: 0 <= i < |ms| && ms[i].key == k
  {
    if |ms| > 0 {
      var init := ms[..|ms| - 1];
      FirstWinsKeys(init);
      forall k | exists i :: 0 <= i < |ms| && ms[i].key == k
        ensures k in FirstWins(ms)
      {
        var i :| 0 <= i < |ms| && ms[i].key == k;
        if i < |ms| - 1 {
          assert init[i].key == k;
        }
      }
      forall k | k in FirstWins(ms)
        ensures exists i :: 0 <= i < |ms| && ms[i].key == k
      {
        if k != ms[|ms| - 1].key {
          assert k in FirstWins(init);
          var i :| 0 <= i < |init| && init[i].key == k;
          assert ms[i].key == k;
        }
      }
    }
  }

  /** A member whose key does not occur earlier in the run gives its value to
      that key: the first occurrence of a key wins. */
  lemma {:induction false} FirstWinsFirst(ms: seq<Member>, i: nat)
    requires i < |ms|
    requires forall j :: 0 <= j < i ==> ms[j].key != ms[i].key
    ensures ms[i].key in FirstWins(ms) && FirstWins(ms)[ms[i].key] == ms[i].value
    decreases |ms|
  {
    var init := ms[..|ms| - 1];
    if i == |ms| - 1 {
      FirstWinsKeys(init);
      assert ms[i].key !in FirstWins(init);
    } else {
      FirstWinsFirst(init, i);
    }
  }

  /** On `}` the object arm runs the close, whatever the stacks hold. */
  lemma StepClosesObject(input: string, cfg: Config)
    requires cfg.cursor < |input| && input[cfg.cursor] == '}'
    requires |cfg.states| > 0 && cfg.states[|cfg.states| - 1].state == ObjectOpen
    ensures Step(input, cfg) == CloseObject(cfg, cfg.states[|cfg.states| - 1])
  {
    assert Step(input, cfg) == ObjectStep(input, cfg, cfg.states[|cfg.states| - 1]);
  }

  /** `}` on top of an open object whose results above its start form a run of
      members: the state is popped, the members and their markers are removed,
      and one `Object` entry holding `FirstWins` of them is pushed, anchored at
      the `}`. */
  lemma {:induction false} ObjectCloseMembers(input: string, cfg: Config, base: seq<JsonWithStartCursor>,
                           basePhases: seq<ObjectParseState>, ms: seq<Member>)
    requires cfg.cursor < |input| && |cfg.states| > 0
    requires cfg.states[|cfg.states| - 1].state == ObjectOpen && input[cfg.cursor] == '}'
    requires cfg.results == base + Entries(ms) && cfg.phases == basePhases + Markers(|ms|)
    requires forall i :: 0 <= i < |ms| ==> ms[i].valueAt > cfg.states[|cfg.states| - 1].cursor
    requires |basePhases| == 0 || (|base| > 0 && base[|base| - 1].cursor <= cfg.states[|cfg.states| - 1].cursor)
    ensures Step(input, cfg) == Ok(Config(cfg.cursor + 1, Pop(cfg.states),
              base + [JsonWithStartCursor(Object(FirstWins(ms)), cfg.cursor)], basePhases))
  {
    var top := cfg.states[|cfg.states| - 1];
    CloseMembersStop(base, basePhases, ms, top.cursor, cfg.cursor);
    StepClosesObject(input, cfg);
  }

  /** A run of members above the start with nothing above the start below it:
      the close stops right under the run. */
  lemma {:induction false} CloseMembersStop(base: seq<JsonWithStartCursor>, basePhases: seq<ObjectParseState>,
                                            ms: seq<Member>, start: nat, at: nat)
    requires forall i :: 0 <= i < |ms| ==> ms[i].valueAt > start
    requires |basePhases| == 0 || (|base| > 0 && base[|base| - 1].cursor <= start)
    ensures CloseObjectLoop(base + Entries(ms), basePhases + Markers(|ms|), start, at, map[])
            == Ok(ObjectClose(base, basePhases, FirstWins(ms)))
  {
    CloseMembers(base, basePhases, ms, start, at, map[]);
    assert map[] + FirstWins(ms) == FirstWins(ms);
  }

  /** With markers left below the members but no result below them, the close
      pops an empty result stack: `{}` at the top level is such a case. */
  lemma {:induction false} ObjectCloseUnwrapsEmpty(input: string, cfg: Config, basePhases: seq<ObjectParseState>, ms: seq<Member>)
    requires cfg.cursor < |input| && |cfg.states| > 0
    requires cfg.states[|cfg.states| - 1].state == ObjectOpen && input[cfg.cursor] == '}'
    requires cfg.results == Entries(ms) && cfg.phases == basePhases + Markers(|ms|) && |basePhases| > 0
    requires forall i :: 0 <= i < |ms| ==> ms[i].valueAt > cfg.states[|cfg.states| - 1].cursor
    ensures Step(input, cfg) == Crash(UnwrapOnEmpty)
  {
    var top := cfg.states[|cfg.states| - 1];
    assert cfg.results == [] + Entries(ms);
    CloseMembers([], basePhases, ms, top.cursor, cfg.cursor, map[]);
    StepClosesObject(input, cfg);
  }

  /** A value whose key entry is not a string makes the close fail with
      "object key not string", reported at the `}`. */
  lemma CloseKeyNotString(rest: seq<JsonWithStartCursor>, key: JsonWithStartCursor, value: JsonWithStartCursor,
                          phases: seq<ObjectParseState>, start: nat, at: nat, acc: map<string, Json>)
    requires value.cursor > start && !key.json.String? && |phases| > 0
    ensures CloseObjectLoop(rest + [key, value], phases, start, at, acc) == Err(Unknown("object key not string", at))
  {
    assert Pop(rest + [key, value]) == rest + [key];
  }

  /** A value with no entry at all below it fails the same way. */
  lemma CloseKeyMissing(value: JsonWithStartCursor, phases: seq<ObjectParseState>,
                        start: nat, at: nat, acc: map<string, Json>)
    requires value.cursor > start && |phases| > 0
    ensures CloseObjectLoop([value], phases, start, at, acc) == Err(Unknown("object key not string", at))
  {
  }

  // ---------------------------------------------------------------------------
  // Single steps in any configuration

  /** Whitespace is skipped before the dispatch on the top state, whatever
      that state is: only the cursor moves. */
  lemma SpaceSkipped(input: string, cfg: Config)
    requires cfg.cursor < |input| && IsSpace(input[cfg.cursor])
    ensures Step(input, cfg) == Ok(cfg.(cursor := cfg.cursor + 1))
  {
  }

  /** The only step that keeps the cursor where it is closes a number: the top
      state was `NumberOpen`, and it is the one popped. */
  lemma {:induction false} StaysOnlyOnNumberClose(input: string, cfg: Config)
    requires cfg.cursor < |input| && Step(input, cfg).Ok? && Step(input, cfg).value.cursor == cfg.cursor
    ensures |cfg.states| > 0 && cfg.states[|cfg.states| - 1].state == NumberOpen
    ensures Step(input, cfg).value.states == Pop(cfg.states)
  {
    var top := cfg.states[|cfg.states| - 1];
    match top.state
    case NumberOpen =>
    case StringOpen =>
    case ArrayOpen =>
    case ObjectOpen =>
    case TrueOpen =>
    case FalseOpen =>
    case NullOpen =>
  }

  /** `:` in an object: an error when no phase marker is left or the top
      marker is `ParseValue`; after `ParseKey` it pushes `ParseValue`. */
  lemma ObjectColon(input: string, cfg: Config)
    requires cfg.cursor < |input| && input[cfg.cursor] == ':'
    requires |cfg.states| > 0 && cfg.states[|cfg.states| - 1].state == ObjectOpen
    ensures |cfg.phases| == 0 ==> Step(input, cfg) == Err(Unknown("no last state", cfg.cursor))
    ensures |cfg.phases| > 0 && cfg.phases[|cfg.phases| - 1] == ParseValue
            ==> Step(input, cfg) == Err(Unknown("last state was value!", cfg.cursor))
    ensures |cfg.phases| > 0 && cfg.phases[|cfg.phases| - 1] == ParseKey
            ==> Step(input, cfg) == Ok(cfg.(cursor := cfg.cursor + 1, phases := cfg.phases + [ParseValue]))
  {
    assert Step(input, cfg) == ObjectStep(input, cfg, cfg.states[|cfg.states| - 1]);
  }

  /** A character of an object that is none of whitespace, `}`, `:` and `,`. */
  predicate IsSlotChar(c: char)
  {
    !IsSpace(c) && c != '}' && c != ':' && c != ','
  }

  /** In a key slot (top marker `ParseKey`) only a string may open: any other
      opening character is `UnexpectedChar` at the cursor, `"` opens a string
      there, and a character that opens nothing is skipped. */
  lemma KeySlot(input: string, cfg: Config)
    requires cfg.cursor < |input| && IsSlotChar(input[cfg.cursor])
    requires |cfg.states| > 0 && cfg.states[|cfg.states| - 1].state == ObjectOpen
    requires |cfg.phases| > 0 && cfg.phases[|cfg.phases| - 1] == ParseKey
    ensures (IsNumber(input[cfg.cursor]) || IsOpener(input[cfg.cursor])) && input[cfg.cursor] != '"'
            ==> Step(input, cfg) == Err(UnexpectedChar(cfg.cursor))
    ensures input[cfg.cursor] == '"'
            ==> Step(input, cfg) == Ok(cfg.(cursor := cfg.cursor + 1,
                                            states := cfg.states + [StateWithCursor(StringOpen, cfg.cursor)]))
    ensures !IsNumber(input[cfg.cursor]) && !IsOpener(input[cfg.cursor])
            ==> Step(input, cfg) == Ok(cfg.(cursor := cfg.cursor + 1))
  {
    assert Step(input, cfg) == ObjectStep(input, cfg, cfg.states[|cfg.states| - 1]);
  }

  /** In a value slot (top marker `ParseValue`) any construct may open at the
      cursor, `{` with a new `ParseKey` marker; the results are untouched. */
  lemma ValueSlot(input: string, cfg: Config)
    requires cfg.cursor < |input| && IsSlotChar(input[cfg.cursor])
    requires |cfg.states| > 0 && cfg.states[|cfg.states| - 1].state == ObjectOpen
    requires |cfg.phases| > 0 && cfg.phases[|cfg.phases| - 1] == ParseValue
    ensures var o := TryOpen(input, cfg.cursor, cfg.states, cfg.phases);
            Step(input, cfg) == Ok(Config(cfg.cursor + 1, o.states, cfg.results, o.phases))
  {
    assert Step(input, cfg) == ObjectStep(input, cfg, cfg.states[|cfg.states| - 1]);
  }

  /** With no marker left, a character of an object that is not `:`, `,`, `}`
      or whitespace is the "unknow object char" error. */
  lemma NoSlot(input: string, cfg: Config)
    requires cfg.cursor < |input| && IsSlotChar(input[cfg.cursor])
    requires |cfg.states| > 0 && cfg.states[|cfg.states| - 1].state == ObjectOpen && |cfg.phases| == 0
    ensures Step(input, cfg) == Err(Unknown("unknow object char", cfg.cursor))
  {
    assert Step(input, cfg) == ObjectStep(input, cfg, cfg.states[|cfg.states| - 1]);
  }

  /** The literal states: the step succeeds exactly when the tail's letters
      but its last are present from the cursor on, and then moves the cursor
      by the tail's length, pops the state and pushes the value anchored at the
      new cursor; a mismatch is `UnexpectedChar` at the cursor, and a panic
      happens only when the input ends inside a matching prefix. */
  lemma {:induction false} LiteralOutcome(input: string, cfg: Config, tail: string, value: Json)
    requires cfg.cursor < |input| && !IsSpace(input[cfg.cursor]) && |cfg.states| > 0
    requires var s := cfg.states[|cfg.states| - 1].state;
             (s == TrueOpen && tail == RUE && value == True)
             || (s == FalseOpen && tail == ALSE && value == False)
             || (s == NullOpen && tail == NULL && value == Null)
    ensures Step(input, cfg).Ok? <==> MatchesUpTo(input, tail, cfg.cursor, |tail| - 1)
    ensures Step(input, cfg).Ok? ==>
              Step(input, cfg).value == Config(cfg.cursor + |tail|, Pop(cfg.states),
                cfg.results + [JsonWithStartCursor(value, cfg.cursor + |tail|)], cfg.phases)
    ensures Step(input, cfg).Err? ==> Step(input, cfg).error == UnexpectedChar(cfg.cursor)
    ensures Step(input, cfg).Crash? <==> cfg.cursor + |tail| - 1 > |input|
                                         && MatchesUpTo(input, tail, cfg.cursor, |input| - cfg.cursor)
  {
    assert Step(input, cfg) == LiteralStep(input, cfg, tail, value);
    assert input[cfg.cursor..cfg.cursor] == tail[..0];
    LetterCheckMeaning(input, tail, cfg.cursor, 0);
  }
}
