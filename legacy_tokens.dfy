/**
 * The earlier token package (src/token/token.go): the same token kinds without
 * `==`, `!=` and the later keywords; only `fn` and `let` are keywords.
 */
module LegacyTokens {
  import opened Tokens

  const Keywords: map<string, TokenType> := map["fn" := Function, "let" := Let]

  /** Keyword table lookup of the earlier package. */
  function LookupType(ident: string): (r: TokenType)
    ensures r in {Ident, Function, Let}
    ensures r == Function <==> ident == "fn"
    ensures r == Let <==> ident == "let"
  {
    if ident in Keywords then Keywords[ident] else Ident
  }

  /**
   * The later lookup agrees on `fn` and `let` and only adds keywords: a word it does
   * not treat as a keyword is an identifier here too.
   */
  lemma LaterLookupExtends(ident: string)
    ensures ident in {"fn", "let"} ==> LookupType(ident) == Tokens.LookupType(ident)
    ensures Tokens.LookupType(ident) == Ident ==> LookupType(ident) == Ident
    ensures ident in {"if", "else", "return", "true", "false"} ==>
              LookupType(ident) == Ident && Tokens.LookupType(ident) != Ident
  {
  }
}
