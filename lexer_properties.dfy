/** What the lexer guarantees about the tokens it produces. */
module LexerProperties {
  import opened Wrappers
  import opened GoStrings
  import opened Tokens
  import opened Lexer

  /** Once the cursor is past the input, every call returns EOF and moves on by one. */
  lemma ScanAtEnd(input: Bytes, position: nat)
    requires position >= |input|
    ensures Scan(input, position) == (Token(Eof, ""), position + 1)
  {
  }

  /**
   * A NUL byte inside the input is also read as EOF, and the cursor moves past it:
   * scanning goes on with the bytes that follow.
   */
  lemma ScanNulByte(input: Bytes, position: nat)
    requires position < |input| && input[position] == '\0'
    ensures Scan(input, position) == (Token(Eof, ""), position + 1)
  {
  }

  /** Everything `eatGhostCharacters` skips is whitespace. */
  lemma {:induction false} SkippedIsWhitespace(input: Bytes, p: nat)
    ensures forall i | p <= i < SkipWhitespace(input, p) :: IsWhitespace(input[i])
    decreases |input| - p
  {
    if p < |input| && IsWhitespace(input[p]) {
      SkippedIsWhitespace(input, p + 1);
    }
  }

  /** `readIdentifier` reads letters only. */
  lemma {:induction false} IdentifierIsLetters(input: Bytes, p: nat)
    ensures forall i | p <= i < IdentifierEnd(input, p) :: IsLetter(input[i])
    decreases |input| - p
  {
    if p < |input| && IsLetter(input[p]) {
      IdentifierIsLetters(input, p + 1);
    }
  }

  /** `readNumber` reads digits only. */
  lemma {:induction false} NumberIsDigits(input: Bytes, p: nat)
    ensures forall i | p <= i < NumberEnd(input, p) :: IsDigit(input[i])
    decreases |input| - p
  {
    if p < |input| && IsDigit(input[p]) {
      NumberIsDigits(input, p + 1);
    }
  }

  /** Whitespace separates tokens and never ends up inside a literal. */
  lemma ScanLiteralHasNoWhitespace(input: Bytes, position: nat)
    ensures forall i | 0 <= i < |Scan(input, position).0.literal| ::
              !IsWhitespace(Scan(input, position).0.literal[i])
  {
    var p := SkipWhitespace(input, position);
    var c := ByteAt(input, p);
    var lit := Scan(input, position).0.literal;
    if c != '=' && c != '!' && SingleCharType(c).None? && c != '\0' {
      if IsLetter(c) {
        IdentifierIsLetters(input, p);
        assert lit == input[p..IdentifierEnd(input, p)];
      } else if IsDigit(c) {
        NumberIsDigits(input, p);
        assert lit == input[p..NumberEnd(input, p)];
      }
    }
  }

  /**
   * Identifiers are scanned by maximal munch: the literal is the longest run of
   * letters after the whitespace, and its type is the keyword lookup of that run.
   */
  lemma ScanIdentifier(input: Bytes, position: nat)
    requires IsLetter(ByteAt(input, SkipWhitespace(input, position)))
    ensures var p := SkipWhitespace(input, position);
            var (tok, q) := Scan(input, position);
            p < q <= |input| && tok.literal == input[p..q]
            && (forall i | p <= i < q :: IsLetter(input[i]))
            && !IsLetter(ByteAt(input, q))
            && tok.tokenType == LookupType(tok.literal)
  {
    IdentifierIsLetters(input, SkipWhitespace(input, position));
  }

  /** Integer literals are the longest run of digits; a letter after them starts a new token. */
  lemma ScanNumber(input: Bytes, position: nat)
    requires IsDigit(ByteAt(input, SkipWhitespace(input, position)))
    ensures var p := SkipWhitespace(input, position);
            var (tok, q) := Scan(input, position);
            p < q <= |input| && tok == Token(Int, input[p..q])
            && IsDigits(tok.literal)
            && !IsDigit(ByteAt(input, q))
  {
    NumberIsDigits(input, SkipWhitespace(input, position));
  }

  /** `==` and `!=` are read as one token each when the `=` follows directly. */
  lemma ScanTwoCharOperators(input: Bytes, position: nat)
    requires var p := SkipWhitespace(input, position);
             ByteAt(input, p) in {'=', '!'} && ByteAt(input, p + 1) == '='
    ensures var p := SkipWhitespace(input, position);
            Scan(input, position) ==
              (if ByteAt(input, p) == '=' then Token(Equal, "==") else Token(NEqual, "!="), p + 2)
  {
    assert ByteString('=') + ByteString('=') == "==";
    assert ByteString('!') + ByteString('=') == "!=";
  }

  /**
   * A lone `=` or `!` is ASSIGN or EXCLAMATION, and each of `; ( ) , + { } - / * < >`
   * is the one-byte token its table entry names; the literal is that byte.
   */
  lemma ScanOneByteOperator(input: Bytes, position: nat)
    requires var p := SkipWhitespace(input, position);
             var c := ByteAt(input, p);
             (c in {'=', '!'} && ByteAt(input, p + 1) != '=') || SingleCharType(c).Some?
    ensures var p := SkipWhitespace(input, position);
            var c := ByteAt(input, p);
            var t := if c == '=' then Assign else if c == '!' then Exclamation else SingleCharType(c).value;
            Scan(input, position) == (Token(t, [c]), p + 1)
  {
  }

  /**
   * Any byte that starts no token is ILLEGAL, with the byte converted by Go's
   * `string(b)` as its literal (two bytes of UTF-8 when b is 0x80 or above).
   */
  lemma ScanIllegal(input: Bytes, position: nat)
    requires var c := ByteAt(input, SkipWhitespace(input, position));
             c != '\0' && !IsLetter(c) && !IsDigit(c) && c !in "=!;(),+{}-/*<>"
    ensures var p := SkipWhitespace(input, position);
            var c := ByteAt(input, p);
            Scan(input, position) == (Token(Illegal, ByteString(c)), p + 1)
            && (c as int < 0x80 ==> Scan(input, position).0.literal == [c])
  {
  }

  /** Every INT token the lexer produces has a non-empty run of decimal digits as its literal. */
  lemma {:induction false} LexIntLiteralsAreDigits(input: Bytes, position: nat)
    ensures IntLiteralsAreDigits(Lex(input, position))
    decreases |input| - position
  {
    if position < |input| {
      var (tok, next) := Scan(input, position);
      LexIntLiteralsAreDigits(input, next);
      var p := SkipWhitespace(input, position);
      if tok.tokenType == Int {
        assert IsDigit(ByteAt(input, p));
        ScanNumber(input, position);
      }
      assert Lex(input, position) == [tok] + Lex(input, next);
    }
  }

  /** A lone letter is an identifier: every keyword is at least two letters long. */
  lemma ScanOneLetter(input: Bytes, p: nat)
    requires p < |input| && IsLetter(input[p]) && !IsLetter(ByteAt(input, p + 1))
    ensures Scan(input, p) == (Token(Ident, [input[p]]), p + 1)
  {
    assert IdentifierEnd(input, p + 1) == p + 1;
    assert input[p..p + 1] == [input[p]];
  }

  /** A NUL byte in the middle is read as EOF and lexing continues behind it. */
  lemma LexNulInMiddle()
    ensures Lex("a\0b", 0) == [Token(Ident, "a"), Token(Eof, ""), Token(Ident, "b")]
  {
    var s := "a\0b";
    ScanOneLetter(s, 0);
    ScanNulByte(s, 1);
    ScanOneLetter(s, 2);
  }

  /** A space and then a lone letter: the letter is an identifier and the cursor moves past it. */
  lemma ScanLetterAfterSpace(input: Bytes, p: nat)
    requires p + 1 < |input| && input[p] == ' ' && IsLetter(input[p + 1]) && !IsLetter(ByteAt(input, p + 2))
    ensures Scan(input, p) == (Token(Ident, [input[p + 1]]), p + 2)
  {
    assert SkipWhitespace(input, p + 1) == p + 1;
    ScanOneLetter(input, p + 1);
  }

  /** A space and then a one-byte token: the token and the cursor just past it. */
  lemma ScanOperatorAfterSpace(input: Bytes, p: nat)
    requires p + 1 < |input| && input[p] == ' ' && SingleCharType(input[p + 1]).Some?
    ensures Scan(input, p) == (Token(SingleCharType(input[p + 1]).value, [input[p + 1]]), p + 2)
  {
    assert SkipWhitespace(input, p + 1) == p + 1;
    ScanOneByteOperator(input, p);
  }

  /**
   * When the scans from positions[0], positions[1], … return tokens[0], tokens[1], …
   * and each leaves the cursor at the next position, with the last position past
   * the input, lexing from positions[0] returns exactly those tokens.
   */
  lemma {:induction false} LexScans(input: Bytes, positions: seq<nat>, tokens: seq<Token>)
    requires |positions| == |tokens| + 1
    requires forall i | 0 <= i < |tokens| :: positions[i] < |input| && Scan(input, positions[i]) == (tokens[i], positions[i + 1])
    requires positions[|tokens|] >= |input|
    ensures Lex(input, positions[0]) == tokens
    decreases |tokens|
  {
    if tokens != [] {
      LexScans(input, positions[1..], tokens[1..]);
      assert tokens == [tokens[0]] + tokens[1..];
    }
  }

  /**
   * `x o y p z` with single-letter operands and one-byte operators, one space
   * between each: five tokens, the spaces leave none.
   */
  lemma LexSpacedOperators(input: Bytes)
    requires |input| == 9 && input[1] == input[3] == input[5] == input[7] == ' '
    requires IsLetter(input[0]) && IsLetter(input[4]) && IsLetter(input[8])
    requires SingleCharType(input[2]).Some? && SingleCharType(input[6]).Some?
    ensures Lex(input, 0)
         == [Token(Ident, [input[0]]), Token(SingleCharType(input[2]).value, [input[2]]), Token(Ident, [input[4]]),
             Token(SingleCharType(input[6]).value, [input[6]]), Token(Ident, [input[8]])]
  {
    var positions: seq<nat> := [0, 1, 3, 5, 7, 9];
    var tokens := [Token(Ident, [input[0]]), Token(SingleCharType(input[2]).value, [input[2]]), Token(Ident, [input[4]]),
                   Token(SingleCharType(input[6]).value, [input[6]]), Token(Ident, [input[8]])];
    ScanOneLetter(input, 0);
    ScanOperatorAfterSpace(input, 1);
    ScanLetterAfterSpace(input, 3);
    ScanOperatorAfterSpace(input, 5);
    ScanLetterAfterSpace(input, 7);
    forall i | 0 <= i < |tokens|
      ensures positions[i] < |input| && Scan(input, positions[i]) == (tokens[i], positions[i + 1])
    {
      if i == 0 {
      } else if i == 1 {
      } else if i == 2 {
      } else if i == 3 {
      } else {
      }
    }
    LexScans(input, positions, tokens);
  }

  /** `a + b - c` lexes to the five tokens of its identifiers and operators. */
  lemma LexAddSub(s: Bytes)
    requires s == "a + b - c"
    ensures Lex(s, 0) == [Token(Ident, "a"), Token(Plus, "+"), Token(Ident, "b"), Token(Minus, "-"), Token(Ident, "c")]
  {
    LexSpacedOperators(s);
  }
}
