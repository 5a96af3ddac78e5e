/** Token categories and the conversions of `src/tokenizer.rs`: the
    category of an integer code, the category and the spelling of a lexer
    token, and the category's numeric code. */
module Tokenizer {
  import opened Common

  /** Rust's `i32`. */
  type i32 = x: int | -0x8000_0000 <= x < 0x8000_0000

  /** `TokenType`; each variant's discriminant is the code Python's
      `token` module uses for that category (see `Discriminant`). */
  datatype TokenType = OP | NUMBER | NAME | ENDMARKER | IGNORE

  /** The explicit discriminants `OP = 54, NUMBER = 2, NAME = 1,
      ENDMARKER = 0, IGNORE = -1`. */
  function Discriminant(t: TokenType): i32 {
    match t
    case OP => 54
    case NUMBER => 2
    case NAME => 1
    case ENDMARKER => 0
    case IGNORE => -1
  }

  /** A classified token. `original` is what the caller handed in for it:
      `src/tokenizer.rs`'s `TokenInfo` has nothing there (`()`), the
      `Token` of `src/lib.rs` keeps the Python token object. */
  datatype Token<O> = Token(typeId: TokenType, text: string, original: O)

  type TokenInfo = Token<()>

  /** `From<i32> for TokenType`: the four known codes give their category,
      every other code gives IGNORE; it never fails. */
  function FromCode(v: i32): (t: TokenType)
    ensures t != IGNORE ==> Discriminant(t) == v
    ensures t == IGNORE <==> v !in {54, 2, 1, 0}
  {
    if v == Discriminant(OP) then OP
    else if v == Discriminant(NUMBER) then NUMBER
    else if v == Discriminant(NAME) then NAME
    else if v == Discriminant(ENDMARKER) then ENDMARKER
    else IGNORE
  }

  /** `Into<u16> for TokenType`: `self as u16`, a truncating cast of the
      discriminant, so IGNORE (-1) becomes 65535. */
  function ToU16(t: TokenType): (c: int)
    ensures 0 <= c < 0x1_0000
    ensures t != IGNORE ==> c == Discriminant(t)
    ensures t == IGNORE ==> c == 0xFFFF
  {
    Discriminant(t) % 0x1_0000
  }

  /** Every category survives the trip through its discriminant, and through
      its `u16` code: 65535 is no known code, so it reads back as IGNORE. */
  lemma CodeRoundTrip(t: TokenType)
    ensures FromCode(Discriminant(t)) == t
    ensures FromCode(ToU16(t)) == t
  {
  }

  /** The lexer's tokens (`rustpython_parser::token::Tok`), reduced to the
      variants the conversions match; `Lpar`/`Rpar` are the parentheses and
      `Other` stands for every remaining variant (newlines, commas, ...).
      `Float` carries the text Python's `str(float)` gives for its value. */
  datatype Tok =
    | Name(name: string)
    | Int(value: int)
    | Float(pyText: string)
    | Complex(re: real, im: real)
    | Plus | Minus | Star | Slash | DoubleStar | CircumFlex
    | In
    | EndOfFile
    | Lpar | Rpar
    | Other

  predicate IsOperatorTok(tok: Tok) {
    tok.Plus? || tok.Minus? || tok.Star? || tok.Slash? || tok.DoubleStar? || tok.CircumFlex?
  }

  /** `From<&Tok> for TokenType`: total; whatever is not an arithmetic
      operator, a number, a name or the end of input is IGNORE. */
  function TypeOfTok(tok: Tok): (t: TokenType)
    ensures t == OP <==> IsOperatorTok(tok)
    ensures t == NUMBER <==> tok.Int? || tok.Float? || tok.Complex?
    ensures t == NAME <==> tok.Name? || tok.In?
    ensures t == ENDMARKER <==> tok.EndOfFile?
  {
    match tok
    case Plus | Minus | Star | Slash | DoubleStar | CircumFlex => OP
    case Int(_) | Float(_) | Complex(_, _) => NUMBER
    case Name(_) => NAME
    case In => NAME
    case EndOfFile => ENDMARKER
    case _ => IGNORE
  }

  /** `TryFrom<&Tok> for TokenInfo`: the spelling of a token, tagged with its
      category. It fails (`None`) for every token without a spelling,
      among them `Complex`, which is nonetheless classified NUMBER. */
  function TokenInfoOf(tok: Tok): (r: Option<TokenInfo>)
    ensures r.None? <==> tok.Complex? || tok.Lpar? || tok.Rpar? || tok.Other?
    ensures r.Some? ==> r.value.typeId == TypeOfTok(tok) && r.value.typeId != IGNORE
    ensures tok.Name? ==> r == Some(Token(NAME, tok.name, ()))
    ensures tok.Int? ==> r == Some(Token(NUMBER, DecimalText(tok.value), ()))
    ensures tok.Float? ==> r == Some(Token(NUMBER, tok.pyText, ()))
    ensures tok.Plus? ==> r == Some(Token(OP, "+", ()))
    ensures tok.Minus? ==> r == Some(Token(OP, "-", ()))
    ensures tok.Star? ==> r == Some(Token(OP, "*", ()))
    ensures tok.Slash? ==> r == Some(Token(OP, "/", ()))
    ensures tok.DoubleStar? ==> r == Some(Token(OP, "**", ()))
    ensures tok.CircumFlex? ==> r == Some(Token(OP, "^", ()))
    ensures tok.EndOfFile? ==> r == Some(Token(ENDMARKER, "", ()))
    ensures tok.In? ==> r == Some(Token(NAME, "in", ()))
  {
    var spelling: Option<string> :=
      match tok
      case Name(name) => Some(name)
      case Int(value) => Some(DecimalText(value))
      case Float(pyText) => Some(pyText)
      case Plus => Some("+")
      case Minus => Some("-")
      case Star => Some("*")
      case Slash => Some("/")
      case DoubleStar => Some("**")
      case CircumFlex => Some("^")
      case EndOfFile => Some("")
      case In => Some("in")
      case _ => None;
    match spelling
    case None => None
    case Some(s) => Some(Token(TypeOfTok(tok), s, ()))
  }

  /** The operators this tokenizer can deliver are exactly the six arithmetic
      spellings; in particular it never delivers a parenthesis. */
  lemma OperatorSpellings(tok: Tok)
    requires TokenInfoOf(tok).Some? && TokenInfoOf(tok).value.typeId == OP
    ensures TokenInfoOf(tok).value.text in {"+", "-", "*", "/", "**", "^"}
    ensures TokenInfoOf(tok).value.text != "(" && TokenInfoOf(tok).value.text != ")"
  {
  }

  /** An integer literal is spelt in decimal, and the spelling reads back as
      the literal's value. */
  lemma IntSpelling(n: int)
    ensures TokenInfoOf(Int(n)) == Some(Token(NUMBER, DecimalText(n), ()))
    ensures IsDecimal(DecimalText(n)) && DecimalValue(DecimalText(n)) == n
  {
    DecimalRoundTrip(n);
  }

  // ----- decimal text of an integer (`BigInt::to_string`) -----

  function DigitChar(d: nat): char
    requires d < 10
  {
    (48 + d) as char
  }

  predicate AllDigits(s: string) {
    forall i | 0 <= i < |s| :: '0' <= s[i] <= '9'
  }

  /** Decimal digits of a natural number, most significant first, no
      leading zeros. */
  function NaturalText(n: nat): (s: string)
    ensures |s| > 0 && AllDigits(s)
    decreases n
  {
    if n < 10 then [DigitChar(n)] else NaturalText(n / 10) + [DigitChar(n % 10)]
  }

  function DecimalText(n: int): string {
    if n < 0 then "-" + NaturalText(-n) else NaturalText(n)
  }

  predicate IsDecimal(s: string) {
    (|s| > 0 && AllDigits(s)) || (|s| > 1 && s[0] == '-' && AllDigits(s[1..]))
  }

  function NaturalValue(s: string): nat
    requires AllDigits(s)
  {
    if s == [] then 0 else NaturalValue(s[..|s| - 1]) * 10 + (s[|s| - 1] as int - 48)
  }

  function DecimalValue(s: string): int
    requires IsDecimal(s)
  {
    if |s| > 0 && s[0] == '-' then -(NaturalValue(s[1..]) as int) else NaturalValue(s)
  }

  lemma {:induction false} NaturalRoundTrip(n: nat)
    ensures NaturalValue(NaturalText(n)) == n
    decreases n
  {
    if n >= 10 {
      var s := NaturalText(n);
      assert s[..|s| - 1] == NaturalText(n / 10);
      NaturalRoundTrip(n / 10);
    }
  }

  lemma DecimalRoundTrip(n: int)
    ensures IsDecimal(DecimalText(n)) && DecimalValue(DecimalText(n)) == n
  {
    if n < 0 {
      assert DecimalText(n)[1..] == NaturalText(-n);
      NaturalRoundTrip(-n);
    } else {
      NaturalRoundTrip(n);
    }
  }
}
