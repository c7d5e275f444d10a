/** What one `next_token` call reads from a given input: the end of input,
    a numeral, a word, or a character the lexer has no arm for. */
module LexerProperties {
  import opened Wrappers
  import opened Int64
  import opened Tokens
  import opened Lexing

  /** A stretch of `s` all of class `k`, ending at the end of `s` or before a
      character not of class `k`, is the span `Span` computes. */
  lemma {:induction false} SpanOfRun(s: string, i: nat, j: nat, k: CharClass)
    requires i <= j <= |s|
    requires forall m :: i <= m < j ==> InClass(s[m], k)
    requires j == |s| || !InClass(s[j], k)
    ensures Span(s, i, k) == s[i..j]
    decreases j - i
  {
    if i < j {
      SpanOfRun(s, i + 1, j, k);
      assert s[i..j] == [s[i]] + s[i + 1..j];
    }
  }

  /** Leading whitespace does not change what the next token is. */
  lemma ScanSkipsWhitespace(s: string, i: nat)
    requires i < |s| && IsWhitespace(s[i])
    ensures Scan(s, i) == Scan(s, i + 1)
  {
    SpanStep(s, i, Whitespace);
    assert i + |Span(s, i, Whitespace)| == i + 1 + |Span(s, i + 1, Whitespace)|;
  }

  /** `next_token` reports the end of input exactly when nothing but
      whitespace is left, and it then moves one past the end. */
  lemma ScanEndOfInput(s: string, i: nat)
    requires i <= |s|
    ensures Scan(s, i) == Ok((EOF, |s| + 1)) <==> forall j :: i <= j < |s| ==> IsWhitespace(s[j])
  {
    SpanIsMaximalRun(s, i, Whitespace);
    var w := Span(s, i, Whitespace);
    if forall j :: i <= j < |s| ==> IsWhitespace(s[j]) {
      SpanOfRun(s, i, |s|, Whitespace);
    }
    if Scan(s, i) == Ok((EOF, |s| + 1)) {
      forall j | i <= j < |s|
        ensures IsWhitespace(s[j])
      {
        assert s[j] == w[j - i];
        assert InClass(w[j - i], Whitespace);
      }
    }
  }

  /** A digit is not whitespace, so a numeral starts its own token. */
  lemma DigitNotWhitespace(c: char)
    requires IsAsciiDigit(c)
    ensures !IsWhitespace(c)
  {
  }

  lemma LetterNotWhitespace(c: char)
    requires IsAsciiLetter(c)
    ensures !IsWhitespace(c)
  {
  }

  /** With no whitespace at the cursor, `next_token` goes straight to its
      dispatch. */
  lemma ScanNoWhitespace(s: string, i: nat)
    requires i < |s| && !IsWhitespace(s[i])
    ensures Scan(s, i) == ScanAt(s, i)
  {
    assert Span(s, i, Whitespace) == [];
  }

  /** The first letter of `word + rest` and the letter run after it make
      up `word`, when `rest` does not start with a letter. */
  lemma LetterRunSpan(word: string, rest: string)
    requires |word| > 0 && forall m :: 0 <= m < |word| ==> IsAsciiLetter(word[m])
    requires rest == [] || !IsAsciiLetter(rest[0])
    ensures [(word + rest)[0]] + Span(word + rest, 1, Letter) == word
  {
    var s := word + rest;
    assert forall m :: 1 <= m < |word| ==> InClass(s[m], Letter) by {
      forall m | 1 <= m < |word|
        ensures InClass(s[m], Letter)
      {
        assert s[m] == word[m];
      }
    }
    assert |word| == |s| || !InClass(s[|word|], Letter) by {
      if |word| < |s| {
        assert s[|word|] == rest[0];
      }
    }
    SpanOfRun(s, 1, |word|, Letter);
    assert [s[0]] + s[1..|word|] == word;
  }

  /** The first digit of `digits + rest` and the digit run after it make
      up `digits`, when `rest` does not start with a digit. */
  lemma DigitRunSpan(digits: string, rest: string)
    requires |digits| > 0 && AllDigits(digits)
    requires rest == [] || !IsAsciiDigit(rest[0])
    ensures [(digits + rest)[0]] + Span(digits + rest, 1, Digit) == digits
  {
    var s := digits + rest;
    assert forall m :: 1 <= m < |digits| ==> InClass(s[m], Digit) by {
      forall m | 1 <= m < |digits|
        ensures InClass(s[m], Digit)
      {
        assert s[m] == digits[m];
      }
    }
    assert |digits| == |s| || !InClass(s[|digits|], Digit) by {
      if |digits| < |s| {
        assert s[|digits|] == rest[0];
      }
    }
    SpanOfRun(s, 1, |digits|, Digit);
    assert [s[0]] + s[1..|digits|] == digits;
  }

  /** A digit at `i`, with its run spelling `text`, is read as the token
      of `text` and leaves the cursor after the run. */
  lemma ScanDigitRun(s: string, i: nat, text: string)
    requires i < |s| && IsAsciiDigit(s[i]) && !IsWhitespace(s[i])
    requires [s[i]] + Span(s, i + 1, Digit) == text
    ensures Agrees(Scan(s, i), NumberToken(text), i + |text|)
  {
    ScanNoWhitespace(s, i);
    ScanAtDigit(s, i, NumberToken(text), i + |text|);
  }

  /** A digit string is the `Number` of its value when that fits in `i64`,
      and the out-of-range error otherwise. */
  lemma NumberTokenOfDigits(digits: string)
    requires |digits| > 0 && AllDigits(digits)
    ensures NumberToken(digits) == if DecimalValue(digits) <= I64_MAX
      then Ok(Number(DecimalValue(digits)))
      else Err(NumberOutOfRange(digits))
  {
    ParseDigits(digits);
  }

  /** A run of digits not followed by another digit is one `Number` token
      when its value fits in `i64`, and the out-of-range error otherwise. */
  lemma ScanDigits(digits: string, rest: string)
    requires |digits| > 0 && AllDigits(digits)
    requires rest == [] || !IsAsciiDigit(rest[0])
    ensures Scan(digits + rest, 0) == if DecimalValue(digits) <= I64_MAX
      then Ok((Number(DecimalValue(digits)), |digits|))
      else Err(NumberOutOfRange(digits))
  {
    var s := digits + rest;
    assert s[0] == digits[0];
    DigitNotWhitespace(s[0]);
    DigitRunSpan(digits, rest);
    ScanDigitRun(s, 0, digits);
    NumberTokenOfDigits(digits);
  }

  /** Lexing the decimal text of an `i64` value that is not negative gives
      that value back, as one token covering the whole numeral. */
  lemma ScanNumeral(n: nat, rest: string)
    requires n <= I64_MAX
    requires rest == [] || !IsAsciiDigit(rest[0])
    ensures Scan(NatToDecimal(n) + rest, 0) == Ok((Number(n), |NatToDecimal(n)|))
  {
    ScanDigits(NatToDecimal(n), rest);
    DecimalRoundTrip(n);
  }

  /** A run of ASCII letters not followed by another letter is one `Ident`
      token carrying exactly those letters, keywords included. */
  lemma ScanWord(word: string, rest: string)
    requires |word| > 0 && forall m :: 0 <= m < |word| ==> IsAsciiLetter(word[m])
    requires rest == [] || !IsAsciiLetter(rest[0])
    ensures Scan(word + rest, 0) == Ok((Ident(word), |word|))
  {
    var s := word + rest;
    assert s[0] == word[0];
    LetterNotWhitespace(s[0]);
    ScanNoWhitespace(s, 0);
    LetterRunSpan(word, rest);
    ScanAtLetter(s, 0, |word|);
  }

  /** Any other character after the whitespace stops the lexer with an
      error naming it; punctuation and operators have no arm. */
  lemma ScanUnexpected(s: string, i: nat)
    requires i < |s| && !IsWhitespace(s[i]) && !IsAsciiDigit(s[i]) && !IsAsciiLetter(s[i])
    ensures Scan(s, i) == Err(UnexpectedChar(s[i]))
  {
    assert Span(s, i, Whitespace) == [];
  }
}
