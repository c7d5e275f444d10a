/** The lexer: a cursor over the characters of the source text. */
module Lexing {
  import opened Wrappers
  import opened Int64
  import opened Tokens

  datatype LexError =
    | UnexpectedChar(c: char)   // a character no arm of `next_token` accepts
    | NumberOutOfRange(text: string)   // `parse::<i64>()` failed and was unwrapped

  /** Unicode White_Space, the set `char::is_whitespace` tests, split at
      the end of ASCII. */
  predicate IsWhitespace(c: char)
  {
    var n := c as int;
    if n < 0x80 then
      n == 0x20 || 0x09 <= n <= 0x0D
    else
      n == 0x85 || n == 0xA0 || n == 0x1680 || 0x2000 <= n <= 0x200A
      || n == 0x2028 || n == 0x2029 || n == 0x202F || n == 0x205F || n == 0x3000
  }

  predicate IsAsciiLetter(c: char) { 'a' <= c <= 'z' || 'A' <= c <= 'Z' }

  /** The character classes whose maximal runs the lexer's loops consume. */
  datatype CharClass = Whitespace | Digit | Letter

  predicate InClass(c: char, k: CharClass)
  {
    match k
    case Whitespace => IsWhitespace(c)
    case Digit => IsAsciiDigit(c)
    case Letter => IsAsciiLetter(c)
  }

  /** The maximal run of class-`k` characters of `s` starting at index `i`
      (empty when `i` is at or past the end). */
  function Span(s: string, i: nat, k: CharClass): (r: string)
    ensures r != [] ==> i + |r| <= |s|
    decreases |s| - i
  {
    if i < |s| && InClass(s[i], k) then [s[i]] + Span(s, i + 1, k) else []
  }

  /** `Span` is exactly the maximal run: it is the slice of `s` at `i`, all
      of class `k`, and the character after it (if any) is not of class `k`. */
  lemma SpanIsMaximalRun(s: string, i: nat, k: CharClass)
    ensures var r := Span(s, i, k);
      (r != [] ==> i + |r| <= |s| && r == s[i..i + |r|])
      && (forall j :: 0 <= j < |r| ==> InClass(r[j], k))
      && (i + |r| < |s| ==> !InClass(s[i + |r|], k))
  {
    SpanIsSlice(s, i, k);
    SpanInClass(s, i, k);
    SpanStops(s, i, k);
  }

  lemma {:induction false} SpanIsSlice(s: string, i: nat, k: CharClass)
    ensures var r := Span(s, i, k);
      r != [] ==> i + |r| <= |s| && r == s[i..i + |r|]
    decreases |s| - i
  {
    if i < |s| && InClass(s[i], k) {
      SpanIsSlice(s, i + 1, k);
      var r, rest := Span(s, i, k), Span(s, i + 1, k);
      assert r == [s[i]] + rest;
      if rest != [] {
        assert s[i..i + |r|] == [s[i]] + s[i + 1..i + 1 + |rest|];
      } else {
        assert s[i..i + |r|] == [s[i]];
      }
    }
  }

  lemma {:induction false} SpanInClass(s: string, i: nat, k: CharClass)
    ensures forall j :: 0 <= j < |Span(s, i, k)| ==> InClass(Span(s, i, k)[j], k)
    decreases |s| - i
  {
    if i < |s| && InClass(s[i], k) {
      SpanInClass(s, i + 1, k);
      var r, rest := Span(s, i, k), Span(s, i + 1, k);
      assert r == [s[i]] + rest;
      forall j | 0 <= j < |r|
        ensures InClass(r[j], k)
      {
        if j > 0 {
          assert r[j] == rest[j - 1];
        } else {
          assert r[j] == s[i];
        }
      }
    }
  }

  lemma {:induction false} SpanStops(s: string, i: nat, k: CharClass)
    ensures var r := Span(s, i, k);
      i + |r| < |s| ==> !InClass(s[i + |r|], k)
    decreases |s| - i
  {
    if i < |s| && InClass(s[i], k) {
      SpanStops(s, i + 1, k);
    }
  }

  /** The token for the text of a numeric literal: `Number` when it parses
      as an `i64`, otherwise the error the `unwrap` aborts with. */
  function NumberToken(text: string): (r: Result<Token, LexError>)
    ensures r.Ok? ==> r.value.Number?
    ensures r.Err? ==> r.error == NumberOutOfRange(text)
  {
    match ParseI64(text)
    case Some(v) => Ok(Number(v))
    case None => Err(NumberOutOfRange(text))
  }

  lemma SpanStep(s: string, i: nat, k: CharClass)
    requires i < |s| && InClass(s[i], k)
    ensures Span(s, i, k) == [s[i]] + Span(s, i + 1, k)
  {
  }

  /** What one `next_token` call does from position `i`: the token and the
      position it leaves the cursor at, or the error it aborts with. */
  function Scan(s: string, i: nat): (r: Result<(Token, nat), LexError>)
    ensures r.Ok? ==> i < r.value.1
    ensures r.Ok? && r.value.0 != EOF ==> r.value.1 <= |s|
  {
    ScanAt(s, i + |Span(s, i, Whitespace)|)
  }

  /** The dispatch on the first character after the whitespace, at `j`. */
  function ScanAt(s: string, j: nat): (r: Result<(Token, nat), LexError>)
    ensures r.Ok? ==> j < r.value.1
    ensures r.Ok? && r.value.0 != EOF ==> r.value.1 <= |s|
  {
    if j >= |s| then Ok((EOF, j + 1))
    else
      var c := s[j];
      if IsAsciiDigit(c) then
        var digits := Span(s, j + 1, Digit);
        match NumberToken([c] + digits)
        case Ok(t) => Ok((t, j + 1 + |digits|))
        case Err(e) => Err(e)
      else if IsAsciiLetter(c) then
        var letters := Span(s, j + 1, Letter);
        Ok((Ident([c] + letters), j + 1 + |letters|))
      else Err(UnexpectedChar(c))
  }

  /** Past the end there is only `EOF`, one step beyond the cursor. */
  lemma ScanAtEnd(s: string, j: nat, p: nat)
    requires j >= |s| && p == j + 1
    ensures Agrees(ScanAt(s, j), Ok(EOF), p)
  {
  }

  /** A character with no arm of its own stops the lexer. */
  lemma ScanAtOther(s: string, j: nat)
    requires j < |s| && !IsAsciiDigit(s[j]) && !IsAsciiLetter(s[j])
    ensures Agrees(ScanAt(s, j), Err(UnexpectedChar(s[j])), j + 1)
  {
  }

  /** A digit at `j` starts a numeral that runs to the end of the digit span. */
  lemma ScanAtDigit(s: string, j: nat, r: Result<Token, LexError>, p: nat)
    requires j < |s| && IsAsciiDigit(s[j])
    requires p == j + 1 + |Span(s, j + 1, Digit)|
    requires r == NumberToken([s[j]] + Span(s, j + 1, Digit))
    ensures Agrees(ScanAt(s, j), r, p)
  {
  }

  /** A letter at `j` starts a word that runs to the end of the letter span. */
  lemma ScanAtLetter(s: string, j: nat, p: nat)
    requires j < |s| && IsAsciiLetter(s[j])
    requires p == j + 1 + |Span(s, j + 1, Letter)|
    ensures Agrees(ScanAt(s, j), Ok(Ident([s[j]] + Span(s, j + 1, Letter))), p)
  {
  }

  class Lexer {
    const input: string
    var position: nat

    constructor (input: string)
      ensures this.input == input && position == 0
    {
      this.input := input;
      position := 0;
    }

    /** The character under the cursor, if any; never moves the cursor. */
    function Peek(): (c: Option<char>)
      reads this
      ensures c.Some? <==> position < |input|
      ensures c.Some? ==> c.value == input[position]
    {
      if position < |input| then Some(input[position]) else None
    }

    /** Returns what `Peek` saw and moves one step on, even past the end. */
    method Advance() returns (c: Option<char>)
      modifies this
      ensures c == old(Peek())
      ensures c == if old(position) < |input| then Some(input[old(position)]) else None
      ensures position == old(position) + 1
    {
      c := Peek();
      position := position + 1;
    }

    method SkipWhiteSpace()
      modifies this
      ensures position == old(position) + |Span(input, old(position), Whitespace)|
      ensures Peek().None? || !IsWhitespace(Peek().value)
    {
      ghost var start := position;
      ghost var skipped: string := [];
      while true
        invariant start <= position == start + |skipped|
        invariant Span(input, start, Whitespace) == skipped + Span(input, position, Whitespace)
        decreases |input| - position
      {
        var c := Peek();
        if c.None? || !IsWhitespace(c.value) {
          break;
        }
        SpanStep(input, position, Whitespace);
        assert skipped + ([c.value] + Span(input, position + 1, Whitespace))
            == (skipped + [c.value]) + Span(input, position + 1, Whitespace);
        skipped := skipped + [c.value];
        var _ := Advance();
      }
    }

    /** Reads `first` followed by the maximal run of ASCII digits as an `i64`. */
    method LexNumber(first: char) returns (r: Result<Token, LexError>)
      modifies this
      ensures var digits := Span(input, old(position), Digit);
        position == old(position) + |digits|
        && r == NumberToken([first] + digits)
    {
      ghost var start := position;
      ghost var digits: string := [];
      var num := [first];
      while true
        invariant start <= position == start + |digits|
        invariant num == [first] + digits
        invariant Span(input, start, Digit) == digits + Span(input, position, Digit)
        decreases |input| - position
      {
        var c := Peek();
        if c.None? || !IsAsciiDigit(c.value) {
          break;
        }
        SpanStep(input, position, Digit);
        assert digits + ([c.value] + Span(input, position + 1, Digit))
            == (digits + [c.value]) + Span(input, position + 1, Digit);
        digits := digits + [c.value];
        num := num + [c.value];
        var _ := Advance();
      }
      assert digits == Span(input, start, Digit);
      r := NumberToken(num);
    }

    /** `first` followed by the maximal run of ASCII letters, as an `Ident`;
        no keyword lookup is done. */
    method LexIdent(first: char) returns (t: Token)
      modifies this
      ensures var letters := Span(input, old(position), Letter);
        position == old(position) + |letters| && t == Ident([first] + letters)
    {
      ghost var start := position;
      ghost var letters: string := [];
      var ident := [first];
      while true
        invariant start <= position == start + |letters|
        invariant ident == [first] + letters
        invariant Span(input, start, Letter) == letters + Span(input, position, Letter)
        decreases |input| - position
      {
        var c := Peek();
        if c.None? || !IsAsciiLetter(c.value) {
          break;
        }
        SpanStep(input, position, Letter);
        assert letters + ([c.value] + Span(input, position + 1, Letter))
            == (letters + [c.value]) + Span(input, position + 1, Letter);
        letters := letters + [c.value];
        ident := ident + [c.value];
        var _ := Advance();
      }
      t := Ident(ident);
    }

    method NextToken() returns (r: Result<Token, LexError>)
      modifies this
      ensures Agrees(Scan(input, old(position)), r, position)
    {
      SkipWhiteSpace();
      ghost var j := position;
      assert Scan(input, old(position)) == ScanAt(input, j);
      var c := Advance();
      match c
      case None =>
        r := Ok(EOF);
        ScanAtEnd(input, j, position);
      case Some(ch) =>
        if IsAsciiDigit(ch) {
          r := LexNumber(ch);
          ScanAtDigit(input, j, r, position);
        } else if IsAsciiLetter(ch) {
          var t := LexIdent(ch);
          r := Ok(t);
          ScanAtLetter(input, j, position);
        } else {
          ScanAtOther(input, j);
          r := Err(UnexpectedChar(ch));
        }
    }
  }
}
