/**
 * The earlier lexer (src/lexer/lexer.go): one byte per call, no whitespace
 * skipping, no identifiers or numbers. A byte outside its table yields a token
 * whose type and literal are both empty (the Go zero value).
 */
module LegacyLexer {
  import opened GoStrings
  import opened Tokens

  /** The token a call returns for the byte under the cursor, and the position after it. */
  function Scan(input: Bytes, position: nat): (r: (Token, nat))
    ensures r.1 == position + 1
    ensures r.0.tokenType in {Assign, Semicolon, LParen, RParen, Comma, Plus, LBrace, RBrace, Eof, Empty}
    ensures |r.0.literal| <= 1
    ensures r.0.literal != [] ==> r.0.literal == [ByteAt(input, position)]
  {
    var c := ByteAt(input, position);
    var tok :=
      if c == '=' then Token(Assign, ByteString(c))
      else if c == ';' then Token(Semicolon, ByteString(c))
      else if c == '(' then Token(LParen, ByteString(c))
      else if c == ')' then Token(RParen, ByteString(c))
      else if c == ',' then Token(Comma, ByteString(c))
      else if c == '+' then Token(Plus, ByteString(c))
      else if c == '{' then Token(LBrace, ByteString(c))
      else if c == '}' then Token(RBrace, ByteString(c))
      else if c == '\0' then Token(Eof, "")
      else Token(Empty, "");
    (tok, position + 1)
  }

  /** The tokens the calls return from `position` until the cursor has passed the input. */
  function Lex(input: Bytes, position: nat): (ts: seq<Token>)
    ensures |ts| == if position < |input| then |input| - position else 0
    decreases |input| - position
  {
    if position >= |input| then [] else [Scan(input, position).0] + Lex(input, position + 1)
  }

  class Lexer {
    const input: Bytes
    var position: nat
    var readPosition: nat
    var ch: char

    ghost predicate Valid()
      reads this
    {
      readPosition == position + 1 && ch == ByteAt(input, position)
    }

    /** `New`: the cursor starts on the first byte. */
    constructor (input: Bytes)
      ensures Valid() && this.input == input && position == 0
    {
      this.input := input;
      position, readPosition, ch := 0, 0, '\0';
      new;
      ReadChar();
    }

    /** `readChar`: load the byte at readPosition (NUL past the end) and step both indices. */
    method ReadChar()
      modifies this
      ensures position == old(readPosition) && readPosition == old(readPosition) + 1
      ensures ch == ByteAt(input, old(readPosition))
    {
      if readPosition >= |input| {
        ch := '\0';
      } else {
        ch := input[readPosition];
      }
      position := readPosition;
      readPosition := readPosition + 1;
    }

    /** `NextToken`: classify the current byte and move to the next one. */
    method NextToken() returns (tok: Token)
      requires Valid()
      modifies this
      ensures Valid()
      ensures (tok, position) == Scan(input, old(position))
    {
      match ch {
        case '=' => tok := Token(Assign, ByteString(ch));
        case ';' => tok := Token(Semicolon, ByteString(ch));
        case '(' => tok := Token(LParen, ByteString(ch));
        case ')' => tok := Token(RParen, ByteString(ch));
        case ',' => tok := Token(Comma, ByteString(ch));
        case '+' => tok := Token(Plus, ByteString(ch));
        case '{' => tok := Token(LBrace, ByteString(ch));
        case '}' => tok := Token(RBrace, ByteString(ch));
        case '\0' => tok := Token(Eof, "");
        case _ => tok := Token(Empty, "");
      }
      ReadChar();
    }
  }

  /** The earlier lexer's test input: every byte is one token, then EOF. */
  lemma LexDelimiters()
    ensures Lex("=+(){},;", 0) == [
      Token(Assign, "="), Token(Plus, "+"), Token(LParen, "("), Token(RParen, ")"),
      Token(LBrace, "{"), Token(RBrace, "}"), Token(Comma, ","), Token(Semicolon, ";")]
    ensures Scan("=+(){},;", 8).0 == Token(Eof, "")
  {
  }

  /**
   * At a NUL byte, and at the end of the input, a call returns EOF with an
   * empty literal; past the end it does so on every later call.
   */
  lemma EofAtEnd(input: Bytes, position: nat, k: nat)
    requires position >= |input| || input[position] == '\0'
    ensures Scan(input, position) == (Token(Eof, ""), position + 1)
    ensures position >= |input| ==> Scan(input, position + k) == (Token(Eof, ""), position + k + 1)
  {
  }

  /**
   * Whitespace, letters and digits are neither skipped nor grouped: each such byte
   * is a token of its own whose type and literal are empty.
   */
  lemma UnknownBytesAreEmptyTokens(input: Bytes, position: nat)
    requires position < |input| && input[position] !in "=;(),+{}\0"
    ensures Scan(input, position) == (Token(Empty, ""), position + 1)
  {
  }
}
