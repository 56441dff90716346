/** The parser of src/main.rs as a state machine: one `Step` is one iteration
    of the `while cursor < input_len` loop of `parse`, acting on the cursor and
    the three stacks. The stacks are sequences whose LAST element is the top,
    as in the source ("push & pop at back"). */
module Machine {
  import opened Outcomes
  import opened Values
  import opened Lexical

  /** The kind of an open construct (`enum State`). */
  datatype State = ObjectOpen | ArrayOpen | NumberOpen | StringOpen | TrueOpen | FalseOpen | NullOpen

  /** An entry of `state_stack`: an open construct and the cursor it opened at. */
  datatype StateWithCursor = StateWithCursor(state: State, cursor: nat)

  /** An entry of `json_result_stack`: a finished value and its anchor cursor. */
  datatype JsonWithStartCursor = JsonWithStartCursor(json: Json, cursor: nat)

  /** An entry of `object_parse_states`. */
  datatype ObjectParseState = ParseKey | ParseValue

  /** The loop's variables: the cursor and the three stacks. */
  datatype Config = Config(
    cursor: nat,
    states: seq<StateWithCursor>,
    results: seq<JsonWithStartCursor>,
    phases: seq<ObjectParseState>)

  function Pop<T>(s: seq<T>): (r: seq<T>)
    requires |s| > 0
    ensures r + [s[|s| - 1]] == s
  {
    s[..|s| - 1]
  }

  /** The configuration the loop starts from. */
  function Initial(): Config
  {
    Config(0, [], [], [])
  }

  // ---------------------------------------------------------------------------
  // Opening a construct: the `try_update_new_state` closure

  /** The characters other than number characters that open a construct. */
  predicate IsOpener(c: char)
  {
    c == '"' || c == '{' || c == '[' || c == 'n' || c == 't' || c == 'f'
  }

  /** What the closure returns, with the two stacks it may have pushed onto. */
  datatype Opened = Opened(state: Option<State>, states: seq<StateWithCursor>, phases: seq<ObjectParseState>)

  /** `try_update_new_state(at)`: classifies `input[at]`; an opening character
      pushes its construct, anchored at `at`, and `{` also pushes `ParseKey`. */
  function TryOpen(input: string, at: nat, states: seq<StateWithCursor>, phases: seq<ObjectParseState>): (o: Opened)
    requires at < |input|
    ensures o.state.Some? <==> IsNumber(input[at]) || IsOpener(input[at])
    ensures o.state == Some(NumberOpen) <==> IsNumber(input[at])
    ensures o.state == Some(StringOpen) <==> input[at] == '"'
    ensures o.state == Some(ObjectOpen) <==> input[at] == '{'
    ensures o.state == Some(ArrayOpen) <==> input[at] == '['
    ensures o.state == Some(NullOpen) <==> input[at] == 'n'
    ensures o.state == Some(TrueOpen) <==> input[at] == 't'
    ensures o.state == Some(FalseOpen) <==> input[at] == 'f'
    ensures o.state.Some? ==> o.states == states + [StateWithCursor(o.state.value, at)]
    ensures o.state.None? ==> o.states == states
    ensures o.phases == if o.state == Some(ObjectOpen) then phases + [ParseKey] else phases
  {
    var ch := input[at];
    var state :=
      if IsNumber(ch) then Some(NumberOpen)
      else if ch == '"' then Some(StringOpen)
      else if ch == '{' then Some(ObjectOpen)
      else if ch == '[' then Some(ArrayOpen)
      else if ch == 'n' then Some(NullOpen)
      else if ch == 't' then Some(TrueOpen)
      else if ch == 'f' then Some(FalseOpen)
      else None;
    var phases' := if ch == '{' then phases + [ParseKey] else phases;
    match state
    case Some(s) => Opened(state, states + [StateWithCursor(s, at)], phases')
    case None => Opened(None, states, phases')
  }

  // ---------------------------------------------------------------------------
  // Closing an array

  /** The values of a run of result entries, in the same order. */
  function Jsons(entries: seq<JsonWithStartCursor>): (js: seq<Json>)
    ensures |js| == |entries|
    ensures forall i :: 0 <= i < |entries| ==> js[i] == entries[i].json
  {
    if |entries| == 0 then []
    else [entries[0].json] + Jsons(entries[1..])
  }

  /** Where the array-closing loop stops popping: the entries from the returned
      index on all have an anchor above `start`, and the entry just below it (if
      any) does not. */
  function ArrayCut(results: seq<JsonWithStartCursor>, start: nat): (k: nat)
    ensures k <= |results|
    ensures forall i :: k <= i < |results| ==> results[i].cursor > start
    ensures k > 0 ==> results[k - 1].cursor <= start
  {
    if |results| == 0 || results[|results| - 1].cursor <= start then |results|
    else ArrayCut(Pop(results), start)
  }

  /** The stopping point is unique: any `k` with the two properties above is
      the one `ArrayCut` finds. */
  lemma {:induction false} ArrayCutUnique(results: seq<JsonWithStartCursor>, start: nat, k: nat)
    requires k <= |results|
    requires forall i :: k <= i < |results| ==> results[i].cursor > start
    requires k > 0 ==> results[k - 1].cursor <= start
    ensures ArrayCut(results, start) == k
    decreases |results|
  {
    if k < |results| {
      ArrayCutUnique(Pop(results), start, k);
    }
  }

  // ---------------------------------------------------------------------------
  // Closing an object

  /** What the object-closing loop leaves: the two stacks and the map it built. */
  datatype ObjectClose = ObjectClose(
    results: seq<JsonWithStartCursor>,
    phases: seq<ObjectParseState>,
    fields: map<string, Json>)

  /** The object-closing `while` loop, from the map `acc` built so far. While a
      phase marker is left and the top result lies above `start`, it pops a
      marker and the value, then a marker (if any) and the key, and inserts the
      pair; `at` is the cursor of the `}` that error messages report. */
  function CloseObjectLoop(
    results: seq<JsonWithStartCursor>, phases: seq<ObjectParseState>,
    start: nat, at: nat, acc: map<string, Json>): (r: Outcome<ObjectClose>)
    ensures r.Err? ==> r.error == Unknown("object key not string", at)
    ensures r.Crash? ==> r.panic == UnwrapOnEmpty
    ensures r.Ok? ==> r.value.results <= results && |r.value.phases| <= |phases|
    ensures r.Ok? ==> |r.value.phases| == 0 || |r.value.results| == 0
                      || r.value.results[|r.value.results| - 1].cursor <= start
    decreases |phases|
  {
    if |phases| == 0 then Ok(ObjectClose(results, phases, acc))
    else if |results| == 0 then Crash(UnwrapOnEmpty)
    else if results[|results| - 1].cursor <= start then Ok(ObjectClose(results, phases, acc))
    else
      var value := results[|results| - 1];
      var phases2 := if |phases| == 1 then [] else phases[..|phases| - 2];
      if |results| == 1 then Err(Unknown("object key not string", at))
      else
        var key := results[|results| - 2];
        if !key.json.String? then Err(Unknown("object key not string", at))
        else CloseObjectLoop(results[..|results| - 2], phases2, start, at, acc[key.json.text := value.json])
  }

  // ---------------------------------------------------------------------------
  // One iteration of the loop, by the state on top of `state_stack`

  /** A step makes progress: it moves the cursor forward, or it keeps the cursor
      and pops `state_stack` (only the number close does the latter). */
  ghost predicate Progress(before: Config, after: Config)
  {
    after.cursor > before.cursor
    || (after.cursor == before.cursor && |after.states| < |before.states|)
  }

  /** `State::StringOpen`: a `"` closes the string, whose text is everything
      strictly between the quotes; any other character is consumed. */
  function StringStep(input: string, cfg: Config, top: StateWithCursor): (r: Outcome<Config>)
    requires cfg.cursor < |input| && |cfg.states| > 0
    ensures r.Ok? ==> Progress(cfg, r.value)
  {
    var cursor := cfg.cursor;
    if input[cursor] == '"' then
      if top.cursor + 1 > cursor then Crash(SliceOutOfOrder(top.cursor + 1, cursor))
      else
        var s := input[top.cursor + 1..cursor];
        Ok(Config(cursor + 1, Pop(cfg.states), cfg.results + [JsonWithStartCursor(String(s), top.cursor)], cfg.phases))
    else Ok(cfg.(cursor := cursor + 1))
  }

  /** `]` in an array: the array's state is popped and the entries above its
      start are replaced by one array of their values, anchored at the start. */
  function CloseArray(cfg: Config, top: StateWithCursor): (r: Config)
    requires |cfg.states| > 0
    ensures r.cursor == cfg.cursor + 1 && r.states == Pop(cfg.states) && r.phases == cfg.phases
  {
    var k := ArrayCut(cfg.results, top.cursor);
    var entry := JsonWithStartCursor(Array(Jsons(cfg.results[k..])), top.cursor);
    Config(cfg.cursor + 1, Pop(cfg.states), cfg.results[..k] + [entry], cfg.phases)
  }

  /** `State::ArrayOpen`: `]` closes the array with the entries above its start,
      in source order, anchored at its start; `,` moves on and tries to open a
      construct at the next position; anything else tries to open one here. */
  function ArrayStep(input: string, cfg: Config, top: StateWithCursor): (r: Outcome<Config>)
    requires cfg.cursor < |input| && |cfg.states| > 0
    ensures r.Ok? ==> Progress(cfg, r.value)
  {
    var cursor := cfg.cursor;
    var c := input[cursor];
    if c == ']' then Ok(CloseArray(cfg, top))
    else if c == ',' then
      if cursor + 1 >= |input| then Crash(IndexOutOfBounds(cursor + 1, |input|))
      else
        var o := TryOpen(input, cursor + 1, cfg.states, cfg.phases);
        Ok(Config(cursor + 1, o.states, cfg.results, o.phases))
    else
      var o := TryOpen(input, cursor, cfg.states, cfg.phases);
      Ok(Config(cursor + 1, o.states, cfg.results, o.phases))
  }

  /** `State::NumberOpen`: a number character that is not the last of the input
      extends the number; otherwise the number closes. Its span runs from its
      start up to the cursor, or through the last character when the cursor is
      on it (so that character is part of the span, whatever it is). */
  function NumberStep(input: string, cfg: Config, top: StateWithCursor): (r: Outcome<Config>)
    requires cfg.cursor < |input| && |cfg.states| > 0
    ensures r.Ok? ==> Progress(cfg, r.value)
  {
    var cursor := cfg.cursor;
    if IsNumber(input[cursor]) && cursor < |input| - 1 then Ok(cfg.(cursor := cursor + 1))
    else
      var atEnd := cursor == |input| - 1;
      var end := if atEnd then cursor + 1 else cursor;
      var cursor' := if atEnd then cursor + 1 else cursor;
      if top.cursor > end then Crash(SliceOutOfOrder(top.cursor, end))
      else
        var span := input[top.cursor..end];
        if ParsesAsFloat(span) then
          Ok(Config(cursor', Pop(cfg.states), cfg.results + [JsonWithStartCursor(Number(span), top.cursor)], cfg.phases))
        else Err(UnexpectedChar(cursor'))
  }

  /** `}` in an object: the object's state is popped, the closing loop runs,
      and the object it built is pushed, anchored at the `}`. */
  function CloseObject(cfg: Config, top: StateWithCursor): (r: Outcome<Config>)
    requires |cfg.states| > 0
    ensures r.Ok? ==> r.value.cursor == cfg.cursor + 1 && r.value.states == Pop(cfg.states)
  {
    match CloseObjectLoop(cfg.results, cfg.phases, top.cursor, cfg.cursor, map[])
    case Ok(closed) =>
      Ok(Config(cfg.cursor + 1, Pop(cfg.states), closed.results + [JsonWithStartCursor(Object(closed.fields), cfg.cursor)], closed.phases))
    case Err(e) => Err(e)
    case Crash(p) => Crash(p)
  }

  /** `State::ObjectOpen`. */
  function ObjectStep(input: string, cfg: Config, top: StateWithCursor): (r: Outcome<Config>)
    requires cfg.cursor < |input| && |cfg.states| > 0
    ensures r.Ok? ==> Progress(cfg, r.value)
  {
    var cursor := cfg.cursor;
    var c := input[cursor];
    var lastPhase: Option<ObjectParseState> := if |cfg.phases| == 0 then None else Some(cfg.phases[|cfg.phases| - 1]);
    if IsSpace(c) then Ok(cfg.(cursor := cursor + 1))
    else if c == '}' then CloseObject(cfg, top)
    else if c == ':' then
      match lastPhase
      case None => Err(Unknown("no last state", cursor))
      case Some(ParseValue) => Err(Unknown("last state was value!", cursor))
      case Some(ParseKey) => Ok(cfg.(cursor := cursor + 1, phases := cfg.phases + [ParseValue]))
    else if c == ',' then
      Ok(cfg.(cursor := cursor + 1, phases := cfg.phases + [ParseKey]))
    else if lastPhase == Some(ParseValue) then
      var o := TryOpen(input, cursor, cfg.states, cfg.phases);
      Ok(Config(cursor + 1, o.states, cfg.results, o.phases))
    else if lastPhase == Some(ParseKey) then
      var o := TryOpen(input, cursor, cfg.states, cfg.phases);
      if o.state.Some? && o.state != Some(StringOpen) then Err(UnexpectedChar(cursor))
      else Ok(Config(cursor + 1, o.states, cfg.results, o.phases))
    else Err(Unknown("unknow object char", cursor))
  }

  /** `State::TrueOpen`, `FalseOpen`, `NullOpen`: match the literal's tail; on
      success move the cursor by the tail's length, push `value` anchored at the
      cursor AFTER the move, and pop the state. */
  function LiteralStep(input: string, cfg: Config, tail: string, value: Json): (r: Outcome<Config>)
    requires cfg.cursor < |input| && |cfg.states| > 0 && |tail| >= 1
    ensures r.Ok? ==> Progress(cfg, r.value)
  {
    match LetterCheck(input, tail, cfg.cursor, 0)
    case Ok(_) =>
      var cursor' := cfg.cursor + |tail|;
      Ok(Config(cursor', Pop(cfg.states), cfg.results + [JsonWithStartCursor(value, cursor')], cfg.phases))
    case Err(e) => Err(e)
    case Crash(p) => Crash(p)
  }

  /** One iteration of the loop body: whitespace is skipped whatever the state;
      with no open construct the closure tries to open one (and an unknown
      character is silently passed over); otherwise the top state decides. */
  function Step(input: string, cfg: Config): (r: Outcome<Config>)
    requires cfg.cursor < |input|
    ensures r.Ok? ==> Progress(cfg, r.value)
    ensures r.Err? ==> !r.error.NoEnd? && cfg.cursor <= r.error.pos <= |input|
  {
    var cursor := cfg.cursor;
    if IsSpace(input[cursor]) then Ok(cfg.(cursor := cursor + 1))
    else if |cfg.states| == 0 then
      var o := TryOpen(input, cursor, cfg.states, cfg.phases);
      Ok(Config(cursor + 1, o.states, cfg.results, o.phases))
    else
      var top := cfg.states[|cfg.states| - 1];
      match top.state
      case StringOpen => StringStep(input, cfg, top)
      case ArrayOpen => ArrayStep(input, cfg, top)
      case NumberOpen => NumberStep(input, cfg, top)
      case ObjectOpen => ObjectStep(input, cfg, top)
      case TrueOpen => LiteralStep(input, cfg, RUE, True)
      case FalseOpen => LiteralStep(input, cfg, ALSE, False)
      case NullOpen => LiteralStep(input, cfg, NULL, Null)
  }

  // ---------------------------------------------------------------------------
  // The whole loop

  /** The two `assert_eq!`s after the loop, then the popped root. */
  function Finish(cfg: Config): (r: Outcome<Json>)
    ensures r.Ok? <==> |cfg.states| == 0 && |cfg.results| == 1
    ensures r.Ok? ==> r.value == cfg.results[0].json
    ensures !r.Err?
  {
    if |cfg.states| != 0 then Crash(StateStillOpen(|cfg.states|))
    else if |cfg.results| != 1 then Crash(RootCount(|cfg.results|))
    else Ok(cfg.results[0].json)
  }

  /** How much input the loop has left. */
  function Remaining(input: string, cfg: Config): nat
  {
    if cfg.cursor < |input| then |input| - cfg.cursor else 0
  }

  /** The loop run to its end from `cfg`. It terminates because every step
      makes `Progress`. The only error it never returns is `NoEnd`, and every
      error it returns points at or after where it started, within the input. */
  function Run(input: string, cfg: Config): (r: Outcome<Json>)
    ensures r.Err? ==> !r.error.NoEnd? && cfg.cursor <= r.error.pos <= |input|
    decreases Remaining(input, cfg), |cfg.states|
  {
    if cfg.cursor >= |input| then Finish(cfg)
    else
      match Step(input, cfg)
      case Ok(next) => Run(input, next)
      case Err(e) => Err(e)
      case Crash(p) => Crash(p)
  }

  /** `parse`: empty input is `NoEnd`; otherwise the loop from the start. */
  function ParseSpec(input: string): (r: Outcome<Json>)
    ensures (r.Err? && r.error.NoEnd?) <==> |input| == 0
    ensures r.Err? && !r.error.NoEnd? ==> r.error.pos <= |input|
  {
    if |input| == 0 then Err(NoEnd) else Run(input, Initial())
  }
}
