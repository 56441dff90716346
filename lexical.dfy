/** Character classes, the literal matcher and the number conversion used by
    the parser. */
module Lexical {
  import opened Outcomes

  /** `is_number`: the characters that open or continue a number. */
  function IsNumber(c: char): (b: bool)
    ensures b <==> ('1' <= c <= '9' || c == '.')
  {
    c == '1' || c == '2' || c == '3' || c == '4' || c == '5'
    || c == '6' || c == '7' || c == '8' || c == '9' || c == '.'
  }

  /** `is_space`: the whitespace the parser skips. Carriage return is not one. */
  function IsSpace(c: char): (b: bool)
    ensures b ==> !IsNumber(c)
    ensures b <==> c in {' ', '\n', '\t'}
  {
    c == ' ' || c == '\n' || c == '\t'
  }

  /** The tails of the three literals, matched after their first letter. */
  const RUE: string := "rue"
  const ALSE: string := "alse"
  const NULL: string := "ull"

  /** What `compare_letter(bigger, smaller, cursor)` returns, from loop index
      `idx` on: it compares `bigger[cursor + idx]` with `smaller[idx]` for the
      first `|smaller| - 1` indices only, stops with `UnexpectedChar(cursor)` at
      the first mismatch, and indexes past the end of `bigger` (a panic) when
      `bigger` is too short. */
  function LetterCheck(bigger: string, smaller: string, cursor: nat, idx: nat): (r: Outcome<()>)
    requires |smaller| >= 1
    ensures r.Err? ==> r.error == UnexpectedChar(cursor)
    ensures r.Crash? ==> r.panic.IndexOutOfBounds? && r.panic.length == |bigger|
                         && |bigger| <= r.panic.index < cursor + |smaller| - 1
                         && cursor + idx <= r.panic.index
    decreases |smaller| - idx
  {
    if idx >= |smaller| - 1 then Ok(())
    else if cursor + idx >= |bigger| then Crash(IndexOutOfBounds(cursor + idx, |bigger|))
    else if bigger[cursor + idx] != smaller[idx] then Err(UnexpectedChar(cursor))
    else LetterCheck(bigger, smaller, cursor, idx + 1)
  }

  /** `bigger` holds the first `n` letters of `smaller` from `cursor` on. */
  ghost predicate MatchesUpTo(bigger: string, smaller: string, cursor: nat, n: nat)
  {
    n <= |smaller| && cursor + n <= |bigger| && bigger[cursor..cursor + n] == smaller[..n]
  }

  /** `compare_letter`: the `for` loop with its early return. */
  method CompareLetter(bigger: string, smaller: string, cursor: nat) returns (r: Outcome<()>)
    requires |smaller| >= 1
    ensures r == LetterCheck(bigger, smaller, cursor, 0)
  {
    for idx := 0 to |smaller| - 1
      invariant LetterCheck(bigger, smaller, cursor, idx) == LetterCheck(bigger, smaller, cursor, 0)
    {
      if idx + cursor >= |bigger| {
        return Crash(IndexOutOfBounds(idx + cursor, |bigger|));
      }
      if bigger[idx + cursor] != smaller[idx] {
        return Err(UnexpectedChar(cursor));
      }
    }
    return Ok(());
  }

  /** The matcher succeeds exactly when the first `|smaller| - 1` letters are
      present and equal; the last letter of `smaller` is never looked at. A
      mismatch is reported at `cursor`, and a panic only happens when every
      letter before the end of `bigger` matched. */
  lemma {:induction false} LetterCheckMeaning(bigger: string, smaller: string, cursor: nat, idx: nat)
    requires |smaller| >= 1 && idx <= |smaller| - 1
    requires MatchesUpTo(bigger, smaller, cursor, idx)
    ensures LetterCheck(bigger, smaller, cursor, idx).Ok?
            <==> MatchesUpTo(bigger, smaller, cursor, |smaller| - 1)
    ensures LetterCheck(bigger, smaller, cursor, idx).Err?
            ==> LetterCheck(bigger, smaller, cursor, idx).error == UnexpectedChar(cursor)
    ensures LetterCheck(bigger, smaller, cursor, idx).Crash?
            <==> (cursor + |smaller| - 1 > |bigger|
                  && MatchesUpTo(bigger, smaller, cursor, |bigger| - cursor))
    decreases |smaller| - idx
  {
    if idx < |smaller| - 1 {
      if cursor + idx < |bigger| && bigger[cursor + idx] == smaller[idx] {
        assert bigger[cursor..cursor + idx + 1] == bigger[cursor..cursor + idx] + [bigger[cursor + idx]];
        assert smaller[..idx + 1] == smaller[..idx] + [smaller[idx]];
        LetterCheckMeaning(bigger, smaller, cursor, idx + 1);
      } else if cursor + idx < |bigger| {
        if cursor + |smaller| - 1 <= |bigger| {
          assert bigger[cursor..cursor + |smaller| - 1][idx] != smaller[..|smaller| - 1][idx];
        } else {
          assert bigger[cursor..|bigger|][idx] != smaller[..|bigger| - cursor][idx];
        }
      }
    }
  }

  function Digits(s: string): (n: nat)
    ensures n <= |s|
  {
    if s == [] then 0 else (if '0' <= s[0] <= '9' then 1 else 0) + Digits(s[1..])
  }

  function Dots(s: string): (n: nat)
    ensures n <= |s|
  {
    if s == [] then 0 else (if s[0] == '.' then 1 else 0) + Dots(s[1..])
  }

  /** Whether Rust's `str::parse::<f64>` accepts `s`, for texts that do not begin
      with a sign or a letter (the only ones the parser hands to it): a run of
      ASCII digits with at most one decimal point and at least one digit. */
  function ParsesAsFloat(s: string): (ok: bool)
    ensures ok ==> s != [] && s != "."
  {
    Digits(s) + Dots(s) == |s| && Dots(s) <= 1 && Digits(s) >= 1
  }

  /** A character that is neither an ASCII digit nor a point makes the text
      fail to parse as a number, wherever it stands. */
  lemma {:induction false} NotFloatAt(s: string, i: nat)
    requires i < |s| && !('0' <= s[i] <= '9') && s[i] != '.'
    ensures !ParsesAsFloat(s)
  {
    CountsShort(s, i);
  }

  /** No character is counted both as a digit and as a point. */
  lemma {:induction false} CountsBound(s: string)
    ensures Digits(s) + Dots(s) <= |s|
  {
    if s != [] {
      CountsBound(s[1..]);
    }
  }

  lemma {:induction false} CountsShort(s: string, i: nat)
    requires i < |s| && !('0' <= s[i] <= '9') && s[i] != '.'
    ensures Digits(s) + Dots(s) < |s|
    decreases i
  {
    if i > 0 {
      CountsShort(s[1..], i - 1);
    } else {
      CountsBound(s[1..]);
    }
  }
}
