/** The values the SeanieScript scanner produces: token kinds, literals,
    tokens, error reports, and the static table of reserved words. */
module Tokens {

  /** An optional value: the scanner emits at most one token and at most one
      error report per call of its single-token step. */
  datatype Option<+T> = None | Some(value: T)

  /** The elements of `o`, as a sequence of length zero or one. */
  function Elements<T>(o: Option<T>): (s: seq<T>)
    ensures |s| <= 1
    ensures o.Some? <==> |s| == 1
    ensures o.Some? ==> s[0] == o.value
  {
    match o
    case None => []
    case Some(v) => [v]
  }

  /** The lexical categories, one per case the scanner can emit. */
  datatype TokenKind =
    // single-character punctuation
    | LeftParen | RightParen | LeftBrace | RightBrace
    | Comma | Dot | Minus | Plus | Semicolon | Star
    // one- or two-character operators
    | Bang | BangEquals | Equal | EqualEqual
    | Less | LessEqual | Greater | GreaterEqual
    | Slash
    // literals
    | Identifier | String | Number
    // reserved words
    | And | Class | Else | False | Fun | For | If | Nil
    | Or | Print | Return | Super | This | True | Var | While
    // end of input
    | Eof
  {
    /** True of the sixteen kinds that stand for a reserved word. */
    predicate IsReserved() {
      || And? || Class? || Else? || False? || Fun? || For? || If? || Nil?
      || Or? || Print? || Return? || Super? || This? || True? || Var? || While?
    }
  }

  /** The decoded value a token carries; `NoLiteral` is the source's null. */
  datatype Literal =
    | NoLiteral
      // a string literal: the characters strictly between the quotes
    | Text(text: string)
      // a number literal, kept as its matched decimal lexeme
    | Numeral(digits: string)

  datatype Token = Token(kind: TokenKind, lexeme: string, literal: Literal, line: int)

  /** One call of the external error sink: the line and the message. */
  datatype Report = Report(line: int, message: string)

  const UnexpectedCharacter: string := "Unexpected character."
  const UnterminatedString: string := "Unterminated string"
  const UnterminatedComment: string := "Unterminated comment"

  /** The static keyword table. */
  const Keywords: map<string, TokenKind> := map[
    "and" := And,
    "class" := Class,
    "else" := Else,
    "false" := False,
    "for" := For,
    "fun" := Fun,
    "if" := If,
    "nil" := Nil,
    "or" := Or,
    "print" := Print,
    "return" := Return,
    "super" := Super,
    "this" := This,
    "true" := True,
    "var" := Var,
    "while" := While
  ]

  /** The spelling of a reserved word, defined independently of the table. */
  function Spelling(k: TokenKind): (w: string)
    requires k.IsReserved()
    ensures |w| >= 2
  {
    match k
    case And => "and"
    case Class => "class"
    case Else => "else"
    case False => "false"
    case For => "for"
    case Fun => "fun"
    case If => "if"
    case Nil => "nil"
    case Or => "or"
    case Print => "print"
    case Return => "return"
    case Super => "super"
    case This => "this"
    case True => "true"
    case Var => "var"
    case While => "while"
  }

  /** The kind of an identifier-shaped lexeme: the table's entry when the text
      is a reserved word, and `Identifier` otherwise. */
  function WordKind(text: string): (k: TokenKind)
    ensures k == Identifier || k.IsReserved()
    ensures k.IsReserved() <==> text in Keywords
    ensures k.IsReserved() ==> Spelling(k) == text
  {
    if text in Keywords then Keywords[text] else Identifier
  }

  /** Every reserved kind's spelling is in the table and maps back to it. */
  lemma SpellingsAreKeywords()
    ensures forall k: TokenKind | k.IsReserved() :: Spelling(k) in Keywords && Keywords[Spelling(k)] == k
  {
    forall k: TokenKind | k.IsReserved()
      ensures Spelling(k) in Keywords && Keywords[Spelling(k)] == k
    {
      if k.And? || k.Class? || k.Else? || k.False? {
        SpellingsAndToFalse(k);
      } else if k.Fun? || k.For? || k.If? || k.Nil? {
        SpellingsFunToNil(k);
      } else if k.Or? || k.Print? || k.Return? || k.Super? {
        SpellingsOrToSuper(k);
      } else {
        SpellingsThisToWhile(k);
      }
    }
  }

  // The table lookups, four kinds at a time.
  lemma SpellingsAndToFalse(k: TokenKind)
    requires k.And? || k.Class? || k.Else? || k.False?
    ensures Spelling(k) in Keywords && Keywords[Spelling(k)] == k
  {
  }

  lemma SpellingsFunToNil(k: TokenKind)
    requires k.Fun? || k.For? || k.If? || k.Nil?
    ensures Spelling(k) in Keywords && Keywords[Spelling(k)] == k
  {
  }

  lemma SpellingsOrToSuper(k: TokenKind)
    requires k.Or? || k.Print? || k.Return? || k.Super?
    ensures Spelling(k) in Keywords && Keywords[Spelling(k)] == k
  {
  }

  lemma SpellingsThisToWhile(k: TokenKind)
    requires k.This? || k.True? || k.Var? || k.While?
    ensures Spelling(k) in Keywords && Keywords[Spelling(k)] == k
  {
  }

  /** Every table entry maps a spelling to the kind spelled that way. */
  lemma KeywordsAreSpellings()
    ensures forall w | w in Keywords :: Keywords[w].IsReserved() && Spelling(Keywords[w]) == w
  {
  }
}
