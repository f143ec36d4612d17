/**
 * Token kinds and keyword lookup of the interpreter (token/token.go). A Go token
 * type is a string; here it is a datatype and `Name` gives the string the Go
 * constant holds, which is what error messages print.
 */
module Tokens {
  import opened Wrappers
  import opened GoStrings

  datatype TokenType =
    | Illegal | Eof
    | Ident | Int
    | Assign | Plus | Minus | RBar | Star | Exclamation | SThan | GThan
    | Equal | NEqual
    | Comma | Semicolon
    | LParen | RParen | LBrace | RBrace
    | Function | Let | If | Else | Return | True | False
    | String
    /** The zero value "" of Go's TokenType (what the first lexer gives for an unknown byte). */
    | Empty

  datatype Token = Token(tokenType: TokenType, literal: string)

  /** The i-th token of a stream that yields EOF forever once its tokens run out. */
  function At(tokens: seq<Token>, i: nat): Token
  {
    if i < |tokens| then tokens[i] else Token(Eof, "")
  }

  /** Every INT token's literal is a run of decimal digits (all the lexer produces). */
  predicate IntLiteralsAreDigits(tokens: seq<Token>)
  {
    forall i | 0 <= i < |tokens| :: tokens[i].tokenType == Int ==> IsDigits(tokens[i].literal)
  }

  /** The string each Go constant holds. */
  function Name(t: TokenType): string
  {
    match t
    case Illegal => "ILLEGAL"
    case Eof => "EOF"
    case Ident => "IDENT"
    case Int => "INT"
    case Assign => "="
    case Plus => "+"
    case Minus => "-"
    case RBar => "/"
    case Star => "*"
    case Exclamation => "!"
    case SThan => "<"
    case GThan => ">"
    case Equal => "=="
    case NEqual => "!="
    case Comma => ","
    case Semicolon => ";"
    case LParen => "("
    case RParen => ")"
    case LBrace => "{"
    case RBrace => "}"
    case Function => "FUNCTION"
    case Let => "LET"
    case If => "IF"
    case Else => "ELSE"
    case Return => "RETURN"
    case True => "TRUE"
    case False => "FALSE"
    case String => "STRING"
    case Empty => ""
  }

  /** Reading a token type back from its Go string. */
  function FromName(s: string): Option<TokenType>
  {
    if s == "ILLEGAL" then Some(Illegal)
    else if s == "EOF" then Some(Eof)
    else if s == "IDENT" then Some(Ident)
    else if s == "INT" then Some(Int)
    else if s == "=" then Some(Assign)
    else if s == "+" then Some(Plus)
    else if s == "-" then Some(Minus)
    else if s == "/" then Some(RBar)
    else if s == "*" then Some(Star)
    else if s == "!" then Some(Exclamation)
    else if s == "<" then Some(SThan)
    else if s == ">" then Some(GThan)
    else if s == "==" then Some(Equal)
    else if s == "!=" then Some(NEqual)
    else if s == "," then Some(Comma)
    else if s == ";" then Some(Semicolon)
    else if s == "(" then Some(LParen)
    else if s == ")" then Some(RParen)
    else if s == "{" then Some(LBrace)
    else if s == "}" then Some(RBrace)
    else if s == "FUNCTION" then Some(Function)
    else if s == "LET" then Some(Let)
    else if s == "IF" then Some(If)
    else if s == "ELSE" then Some(Else)
    else if s == "RETURN" then Some(Return)
    else if s == "TRUE" then Some(True)
    else if s == "FALSE" then Some(False)
    else if s == "STRING" then Some(String)
    else if s == "" then Some(Empty)
    else None
  }

  /** Go compares token types as strings; distinct constants hold distinct strings. */
  lemma NameInjective(a: TokenType, b: TokenType)
    ensures FromName(Name(a)) == Some(a)
    ensures Name(a) == Name(b) ==> a == b
  {
    NameRoundTrip(a);
    NameRoundTrip(b);
  }

  lemma NameRoundTrip(t: TokenType)
    ensures FromName(Name(t)) == Some(t)
  {
    match t
    case Illegal =>
    case Eof =>
    case Ident =>
    case Int =>
    case Assign =>
    case Plus =>
    case Minus =>
    case RBar =>
    case Star =>
    case Exclamation =>
    case SThan =>
    case GThan =>
    case Equal =>
    case NEqual =>
    case Comma =>
    case Semicolon =>
    case LParen =>
    case RParen =>
    case LBrace =>
    case RBrace =>
    case Function =>
    case Let =>
    case If =>
    case Else =>
    case Return =>
    case True =>
    case False =>
    case String =>
    case Empty =>
  }

  /** The keyword table. */
  const Keywords: map<string, TokenType> := map[
    "fn" := Function,
    "let" := Let,
    "if" := If,
    "else" := Else,
    "return" := Return,
    "true" := True,
    "false" := False
  ]

  predicate IsKeywordType(t: TokenType)
  {
    t in {Function, Let, If, Else, Return, True, False}
  }

  /** The spelling of a keyword token type: the inverse of the keyword table. */
  function KeywordSpelling(t: TokenType): string
    requires IsKeywordType(t)
  {
    match t
    case Function => "fn"
    case Let => "let"
    case If => "if"
    case Else => "else"
    case Return => "return"
    case True => "true"
    case False => "false"
  }

  /** Keyword table lookup; every other word is an identifier. */
  function LookupType(ident: string): (r: TokenType)
    ensures r == Ident || IsKeywordType(r)
    ensures IsKeywordType(r) ==> KeywordSpelling(r) == ident
  {
    if ident in Keywords then Keywords[ident] else Ident
  }

  /** Every keyword spelling is recognised, so keywords and identifiers never overlap. */
  lemma LookupKeyword(t: TokenType)
    requires IsKeywordType(t)
    ensures LookupType(KeywordSpelling(t)) == t
  {
  }
}
