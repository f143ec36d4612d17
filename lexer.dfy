/**
 * The lexer (lexer/lexer.go): a cursor over the input bytes that hands out one
 * token per `NextToken` call. `Scan` is the specification: the token a call
 * returns and the position it leaves behind, as a function of the position the
 * call starts from.
 */
module Lexer {
  import opened Wrappers
  import opened GoStrings
  import opened Tokens

  /** The characters `eatGhostCharacters` skips: space, tab, newline, carriage return. */
  predicate IsWhitespace(c: char)
  {
    c == ' ' || c == '\t' || c == '\n' || c == '\r'
  }

  /** Letters of identifiers: ASCII letters, `_` and `?`. */
  predicate IsLetter(c: char)
  {
    'a' <= c <= 'z' || 'A' <= c <= 'Z' || c == '_' || c == '?'
  }

  /** Where the run of whitespace starting at p ends. */
  function SkipWhitespace(input: string, p: nat): (q: nat)
    ensures p <= q
    ensures q > p ==> q <= |input|
    ensures !IsWhitespace(ByteAt(input, q))
    decreases |input| - p
  {
    if p < |input| && IsWhitespace(input[p]) then SkipWhitespace(input, p + 1) else p
  }

  /** Where the run of letters starting at p ends (`readIdentifier`'s loop). */
  function IdentifierEnd(input: string, p: nat): (q: nat)
    ensures p <= q
    ensures q > p ==> q <= |input|
    ensures q < |input| ==> !IsLetter(input[q])
    decreases |input| - p
  {
    if p < |input| && IsLetter(input[p]) then IdentifierEnd(input, p + 1) else p
  }

  /** Where the run of digits starting at p ends (`readNumber`'s loop). */
  function NumberEnd(input: string, p: nat): (q: nat)
    ensures p <= q
    ensures q > p ==> q <= |input|
    ensures q < |input| ==> !IsDigit(input[q])
    decreases |input| - p
  {
    if p < |input| && IsDigit(input[p]) then NumberEnd(input, p + 1) else p
  }

  /** The token types of the one-byte tokens that never combine with a following byte. */
  function SingleCharType(c: char): Option<TokenType>
  {
    if c == ';' then Some(Semicolon)
    else if c == '(' then Some(LParen)
    else if c == ')' then Some(RParen)
    else if c == ',' then Some(Comma)
    else if c == '+' then Some(Plus)
    else if c == '{' then Some(LBrace)
    else if c == '}' then Some(RBrace)
    else if c == '-' then Some(Minus)
    else if c == '/' then Some(RBar)
    else if c == '*' then Some(Star)
    else if c == '<' then Some(SThan)
    else if c == '>' then Some(GThan)
    else None
  }

  /** `newToken`: a token whose literal is the byte converted with Go's `string(b)`. */
  function NewToken(t: TokenType, c: char): Token
    requires c as int < 256
  {
    Token(t, ByteString(c))
  }

  /**
   * The token `NextToken` returns when called with the cursor at `position`, and the
   * position it leaves the cursor at.
   */
  function Scan(input: Bytes, position: nat): (r: (Token, nat))
    ensures r.1 > position
  {
    var p := SkipWhitespace(input, position);
    var c := ByteAt(input, p);
    if c == '=' then
      if ByteAt(input, p + 1) == '=' then (Token(Equal, ByteString(c) + ByteString('=')), p + 2)
      else (NewToken(Assign, c), p + 1)
    else if c == '!' then
      if ByteAt(input, p + 1) == '=' then (Token(NEqual, ByteString(c) + ByteString('=')), p + 2)
      else (NewToken(Exclamation, c), p + 1)
    else if SingleCharType(c).Some? then (NewToken(SingleCharType(c).value, c), p + 1)
    else if c == '\0' then (Token(Eof, ""), p + 1)
    else if IsLetter(c) then
      var q := IdentifierEnd(input, p);
      (Token(LookupType(input[p..q]), input[p..q]), q)
    else if IsDigit(c) then
      var q := NumberEnd(input, p);
      (Token(Int, input[p..q]), q)
    else (NewToken(Illegal, c), p + 1)
  }

  /**
   * The tokens repeated `NextToken` calls return from `position` until the cursor
   * has passed the end of the input (after that every call returns EOF).
   */
  function Lex(input: Bytes, position: nat): seq<Token>
    decreases |input| - position
  {
    if position >= |input| then []
    else
      var (tok, next) := Scan(input, position);
      [tok] + Lex(input, next)
  }

  class Lexer {
    const input: Bytes
    /** Index of the current character. */
    var position: nat
    /** Index of the next character to read. */
    var readPosition: nat
    /** The current character, NUL past the end. */
    var ch: char

    ghost predicate Valid()
      reads this
    {
      readPosition == position + 1 && ch == ByteAt(input, position)
    }

    /** `New`: the cursor starts on the first byte. */
    constructor (input: Bytes)
      ensures Valid() && this.input == input && position == 0
    {
      this.input := input;
      position, readPosition, ch := 0, 0, '\0';
      new;
      ReadChar();
    }

    /** `readChar`: load the byte at readPosition (NUL past the end) and step both indices. */
    method ReadChar()
      modifies this
      ensures position == old(readPosition) && readPosition == old(readPosition) + 1
      ensures ch == ByteAt(input, old(readPosition))
    {
      if readPosition >= |input| {
        ch := '\0';
      } else {
        ch := input[readPosition];
      }
      position := readPosition;
      readPosition := readPosition + 1;
    }

    /** `peekCharAhead`: the byte after the current one, NUL past the end; nothing moves. */
    function PeekCharAhead(): (c: char)
      reads this
      requires Valid()
      ensures c == ByteAt(input, position + 1)
    {
      if readPosition >= |input| then '\0' else input[readPosition]
    }

    /** `eatGhostCharacters`: skip the run of whitespace under the cursor. */
    method EatGhostCharacters()
      requires Valid()
      modifies this
      ensures Valid()
      ensures position == SkipWhitespace(input, old(position))
    {
      while IsWhitespace(ch)
        invariant Valid()
        invariant SkipWhitespace(input, position) == SkipWhitespace(input, old(position))
        decreases |input| - position
      {
        ReadChar();
      }
    }

    /** `readIdentifier`: consume the run of letters under the cursor and return it. */
    method ReadIdentifier() returns (lit: string)
      requires Valid() && position <= |input|
      modifies this
      ensures Valid()
      ensures position == IdentifierEnd(input, old(position))
      ensures lit == input[old(position)..position]
    {
      var start := position;
      while IsLetter(ch)
        invariant Valid() && start <= position <= |input|
        invariant IdentifierEnd(input, position) == IdentifierEnd(input, start)
        decreases |input| - position
      {
        ReadChar();
      }
      lit := input[start..position];
    }

    /** `readNumber`: consume the run of digits under the cursor and return it. */
    method ReadNumber() returns (lit: string)
      requires Valid() && position <= |input|
      modifies this
      ensures Valid()
      ensures position == NumberEnd(input, old(position))
      ensures lit == input[old(position)..position]
    {
      var start := position;
      while IsDigit(ch)
        invariant Valid() && start <= position <= |input|
        invariant NumberEnd(input, position) == NumberEnd(input, start)
        decreases |input| - position
      {
        ReadChar();
      }
      lit := input[start..position];
    }

    /** `NextToken`: skip whitespace, recognise one token and move past it. */
    method NextToken() returns (tok: Token)
      requires Valid()
      modifies this
      ensures Valid()
      ensures (tok, position) == Scan(input, old(position))
    {
      EatGhostCharacters();
      match ch {
      case '=' =>
        if PeekCharAhead() == '=' {
          var first := ch;
          ReadChar();
          tok := Token(Equal, ByteString(first) + ByteString(ch));
        } else {
          tok := NewToken(Assign, ch);
        }
      case ';' => tok := NewToken(Semicolon, ch);
      case '(' => tok := NewToken(LParen, ch);
      case ')' => tok := NewToken(RParen, ch);
      case ',' => tok := NewToken(Comma, ch);
      case '+' => tok := NewToken(Plus, ch);
      case '{' => tok := NewToken(LBrace, ch);
      case '}' => tok := NewToken(RBrace, ch);
      case '!' =>
        if PeekCharAhead() == '=' {
          var first := ch;
          ReadChar();
          tok := Token(NEqual, ByteString(first) + ByteString(ch));
        } else {
          tok := NewToken(Exclamation, ch);
        }
      case '-' => tok := NewToken(Minus, ch);
      case '/' => tok := NewToken(RBar, ch);
      case '*' => tok := NewToken(Star, ch);
      case '<' => tok := NewToken(SThan, ch);
      case '>' => tok := NewToken(GThan, ch);
      case '\0' => tok := Token(Eof, "");
      case _ =>
        if IsLetter(ch) {
          var lit := ReadIdentifier();
          tok := Token(LookupType(lit), lit);
          return;
        } else if IsDigit(ch) {
          var lit := ReadNumber();
          tok := Token(Int, lit);
          return;
        } else {
          tok := NewToken(Illegal, ch);
        }
      }
      ReadChar();
    }
  }
}
