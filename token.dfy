/**
 * asm/src/token.rs: the kinds of the lexer's raw tokens, their predicates,
 * the mapping to the preprocessor's cooked kinds and the conversions that
 * turn the text of a literal into its value.  The lexer itself (the regular
 * expressions on `RawTokenKind`) is not part of this model; each
 * conversion takes the matched text as a character sequence.
 */
module Token {
  import opened Bytes
  import opened Wrappers

  datatype OpKind = Add | Sub | Mul | Div | Mod | Not | And | Or | Xor | Shl | Shr

  datatype LitKind = Number(n: u64) | Char(c: char) | String(s: string)

  /** `TokenKind`: the kinds a preprocessed token can have. */
  datatype TokenKind =
    | Directive | Identifier | Literal(lit: LitKind) | Operator(op: OpKind)
    | Comma | Colon | Hash | LParen | RParen | Newline

  /** `RawTokenKind`: the kinds the lexer produces. */
  datatype RawTokenKind =
    | PreProcessor | Directive | Identifier
    | Number(n: u64) | Char(c: char) | String(s: string)
    | Add | Sub | Mul | Div | Mod | Not | And | Or | Xor | Shl | Shr
    | Comma | Colon | Hash | LParen | RParen
    | Newline | Whitespace | Comment | Error
  {
    predicate IsPreprocessor() { this.PreProcessor? }
    predicate IsDirective() { this.Directive? }
    predicate IsIdentifier() { this.Identifier? }
    predicate IsLiteral() { this.Number? || this.Char? || this.String? }
    predicate IsOperator()
    {
      this.Add? || this.Sub? || this.Mul? || this.Div? || this.Mod? || this.Not? ||
      this.And? || this.Or? || this.Xor? || this.Shl? || this.Shr?
    }
    predicate IsComma() { this.Comma? }
    predicate IsLParen() { this.LParen? }
    predicate IsRParen() { this.RParen? }
    predicate IsNewline() { this.Newline? }
    predicate IsWhitespace() { this.Whitespace? }
    predicate IsComment() { this.Comment? }
  }

  /** The operator kind a raw operator token stands for. */
  function RawOperator(k: RawTokenKind): OpKind
    requires k.IsOperator()
  {
    match k
    case Add => OpKind.Add
    case Sub => OpKind.Sub
    case Mul => OpKind.Mul
    case Div => OpKind.Div
    case Mod => OpKind.Mod
    case Not => OpKind.Not
    case And => OpKind.And
    case Or => OpKind.Or
    case Xor => OpKind.Xor
    case Shl => OpKind.Shl
    case Shr => OpKind.Shr
  }

  /**
   * `TokenKind::from_raw_token`: literals carry their payload over, each
   * operator becomes the operator of the same name, and preprocessor
   * directives, whitespace, comments and errors have no cooked kind.
   */
  function FromRawToken(k: RawTokenKind): (r: Option<TokenKind>)
    ensures r.None? <==> k.PreProcessor? || k.Whitespace? || k.Comment? || k.Error?
    ensures k.Number? ==> r == Some(Literal(LitKind.Number(k.n)))
    ensures k.Char? ==> r == Some(Literal(LitKind.Char(k.c)))
    ensures k.String? ==> r == Some(Literal(LitKind.String(k.s)))
    ensures k.IsOperator() ==> r == Some(Operator(RawOperator(k)))
  {
    match k
    case Directive => Some(TokenKind.Directive)
    case Identifier => Some(TokenKind.Identifier)
    case Number(v) => Some(Literal(LitKind.Number(v)))
    case Char(v) => Some(Literal(LitKind.Char(v)))
    case String(v) => Some(Literal(LitKind.String(v)))
    case Add => Some(Operator(OpKind.Add))
    case Sub => Some(Operator(OpKind.Sub))
    case Mul => Some(Operator(OpKind.Mul))
    case Div => Some(Operator(OpKind.Div))
    case Mod => Some(Operator(OpKind.Mod))
    case Not => Some(Operator(OpKind.Not))
    case And => Some(Operator(OpKind.And))
    case Or => Some(Operator(OpKind.Or))
    case Xor => Some(Operator(OpKind.Xor))
    case Shl => Some(Operator(OpKind.Shl))
    case Shr => Some(Operator(OpKind.Shr))
    case Comma => Some(TokenKind.Comma)
    case Colon => Some(TokenKind.Colon)
    case Hash => Some(TokenKind.Hash)
    case LParen => Some(TokenKind.LParen)
    case RParen => Some(TokenKind.RParen)
    case Newline => Some(TokenKind.Newline)
    case _ => None
  }

  /** The raw kind a cooked kind comes from. */
  function ToRaw(t: TokenKind): RawTokenKind
  {
    match t
    case Directive => RawTokenKind.Directive
    case Identifier => RawTokenKind.Identifier
    case Literal(Number(v)) => RawTokenKind.Number(v)
    case Literal(Char(v)) => RawTokenKind.Char(v)
    case Literal(String(v)) => RawTokenKind.String(v)
    case Operator(Add) => RawTokenKind.Add
    case Operator(Sub) => RawTokenKind.Sub
    case Operator(Mul) => RawTokenKind.Mul
    case Operator(Div) => RawTokenKind.Div
    case Operator(Mod) => RawTokenKind.Mod
    case Operator(Not) => RawTokenKind.Not
    case Operator(And) => RawTokenKind.And
    case Operator(Or) => RawTokenKind.Or
    case Operator(Xor) => RawTokenKind.Xor
    case Operator(Shl) => RawTokenKind.Shl
    case Operator(Shr) => RawTokenKind.Shr
    case Comma => RawTokenKind.Comma
    case Colon => RawTokenKind.Colon
    case Hash => RawTokenKind.Hash
    case LParen => RawTokenKind.LParen
    case RParen => RawTokenKind.RParen
    case Newline => RawTokenKind.Newline
  }

  /** Every cooked kind arises from exactly one raw kind. */
  lemma FromRawTokenInverts(t: TokenKind, k: RawTokenKind)
    ensures FromRawToken(ToRaw(t)) == Some(t)
    ensures FromRawToken(k) == Some(t) ==> k == ToRaw(t)
  {
  }

  /** The literal and operator predicates pick out the raw kinds that cook to literals and operators. */
  lemma KindPredicates(k: RawTokenKind)
    ensures k.IsLiteral() <==> FromRawToken(k).Some? && FromRawToken(k).value.Literal?
    ensures k.IsOperator() <==> FromRawToken(k).Some? && FromRawToken(k).value.Operator?
  {
  }

  // ---------------------------------------------------------------------
  // `u64::from_str_radix`, which the conversions call.

  const U64_LIMIT: nat := 0x1_0000_0000_0000_0000

  /** `char::to_digit(radix)`. */
  function DigitValue(c: char, radix: nat): (r: Option<nat>)
    ensures r.Some? ==> r.value < radix
  {
    var v: int :=
      if '0' <= c <= '9' then c as int - '0' as int
      else if 'a' <= c <= 'z' then c as int - 'a' as int + 10
      else if 'A' <= c <= 'Z' then c as int - 'A' as int + 10
      else 36;
    if 0 <= v < radix then Some(v) else None
  }

  predicate AllDigits(s: string, radix: nat)
  {
    forall i | 0 <= i < |s| :: DigitValue(s[i], radix).Some?
  }

  /** The number a digit string denotes, most significant digit first. */
  function DigitsValue(s: string, radix: nat): nat
    requires AllDigits(s, radix)
  {
    if |s| == 0 then 0
    else DigitsValue(s[..|s| - 1], radix) * radix + DigitValue(s[|s| - 1], radix).value
  }

  /**
   * `u64::from_str_radix(src, radix).ok()`: an optional `+` (not alone),
   * then at least one digit of the radix, with a value that fits in 64
   * bits; `None` otherwise.
   */
  function FromStrRadix(src: string, radix: nat): (r: Option<u64>)
    requires 2 <= radix <= 36
    ensures r.Some? ==> |src| > 0
  {
    if |src| == 0 || src == "+" then None
    else
      var digits := if src[0] == '+' then src[1..] else src;
      if !AllDigits(digits, radix) then None
      else if DigitsValue(digits, radix) >= U64_LIMIT then None
      else Some(DigitsValue(digits, radix))
  }

  /** The digit character for a value below 36 (lower case). */
  function DigitChar(d: nat): (c: char)
    requires d < 36
  {
    if d < 10 then ('0' as int + d) as char else ('a' as int + d - 10) as char
  }

  /** A digit character reads back as its value. */
  lemma DigitCharValue(d: nat, radix: nat)
    requires d < radix <= 36
    ensures DigitValue(DigitChar(d), radix) == Some(d)
  {
  }

  lemma DivStep(n: nat, radix: nat)
    requires 2 <= radix && n >= radix
    ensures n / radix < n && n % radix < radix
    ensures n == (n / radix) * radix + n % radix
  {
  }

  /** The digits of `n` in base `radix`, without leading zeros. */
  function ToDigits(n: nat, radix: nat): (s: string)
    requires 2 <= radix <= 36
    ensures |s| > 0 && AllDigits(s, radix)
    decreases n
  {
    if n < radix then DigitCharValue(n, radix); [DigitChar(n)]
    else
      DivStep(n, radix);
      var d := n % radix;
      DigitCharValue(d, radix);
      var high := ToDigits(n / radix, radix);
      var s := high + [DigitChar(d)];
      assert forall i | 0 <= i < |s| - 1 :: s[i] == high[i];
      s
  }

  /** Reading back the digits of `n` gives `n`. */
  lemma {:induction false} DigitsRoundTrip(n: nat, radix: nat)
    requires 2 <= radix <= 36
    ensures DigitsValue(ToDigits(n, radix), radix) == n
    decreases n
  {
    var s := ToDigits(n, radix);
    if n < radix {
      DigitCharValue(n, radix);
    } else {
      DivStep(n, radix);
      DigitCharValue(n % radix, radix);
      DigitsRoundTrip(n / radix, radix);
      assert s[..|s| - 1] == ToDigits(n / radix, radix);
    }
  }

  /** `from_str_radix` accepts exactly the numbers that fit in 64 bits. */
  lemma FromStrRadixRoundTrip(n: nat, radix: nat)
    requires 2 <= radix <= 36
    ensures FromStrRadix(ToDigits(n, radix), radix) == if n < U64_LIMIT then Some(n) else None
  {
    DigitsRoundTrip(n, radix);
    var s := ToDigits(n, radix);
    assert s[0] != '+' by {
      assert DigitValue(s[0], radix).Some?;
    }
  }

  // ---------------------------------------------------------------------
  // The conversions of the lexer's callbacks.

  /** `conv_bin`: the text after the `0b` prefix, in base 2. */
  function ConvBin(slice: string): (r: Option<u64>)
    requires |slice| >= 2
  {
    FromStrRadix(slice[2..], 2)
  }

  /** `conv_oct`: the text after the `0o` prefix, in base 8. */
  function ConvOct(slice: string): (r: Option<u64>)
    requires |slice| >= 2
  {
    FromStrRadix(slice[2..], 8)
  }

  /** `conv_dec`: the whole text, in base 10. */
  function ConvDec(slice: string): (r: Option<u64>)
  {
    FromStrRadix(slice, 10)
  }

  /** `conv_hex`: the text after a `$` or, failing that, after two characters, in base 16. */
  function ConvHex(slice: string): (r: Option<u64>)
    requires |slice| >= 2 || (|slice| >= 1 && slice[0] == '$')
  {
    var start := if |slice| > 0 && slice[0] == '$' then 1 else 2;
    FromStrRadix(slice[start..], 16)
  }

  /** A number written with each prefix the lexer accepts converts back to itself. */
  lemma LiteralsRoundTrip(n: u64)
    ensures ConvBin("0b" + ToDigits(n, 2)) == Some(n)
    ensures ConvOct("0o" + ToDigits(n, 8)) == Some(n)
    ensures ConvDec(ToDigits(n, 10)) == Some(n)
    ensures ConvHex("$" + ToDigits(n, 16)) == Some(n)
    ensures ConvHex("0x" + ToDigits(n, 16)) == Some(n)
  {
    FromStrRadixRoundTrip(n, 2);
    FromStrRadixRoundTrip(n, 8);
    FromStrRadixRoundTrip(n, 10);
    FromStrRadixRoundTrip(n, 16);
    assert ("0b" + ToDigits(n, 2))[2..] == ToDigits(n, 2);
    assert ("0o" + ToDigits(n, 8))[2..] == ToDigits(n, 8);
    assert ("$" + ToDigits(n, 16))[1..] == ToDigits(n, 16);
    assert ("0x" + ToDigits(n, 16))[2..] == ToDigits(n, 16);
  }

  /** A decimal literal too large for 64 bits converts to nothing. */
  lemma DecimalOverflow(n: nat)
    requires n >= U64_LIMIT
    ensures ConvDec(ToDigits(n, 10)) == None
  {
    FromStrRadixRoundTrip(n, 10);
  }

  /** `conv_string`: the text between the quotes, which the lexer guarantees. */
  function ConvString(slice: string): (r: Option<string>)
    requires |slice| >= 2
    ensures r.Some? && |r.value| == |slice| - 2
  {
    Some(slice[1..|slice| - 1])
  }

  lemma ConvStringRoundTrip(s: string)
    ensures ConvString(['"'] + s + ['"']) == Some(s)
  {
    assert (['"'] + s + ['"'])[1..|s| + 1] == s;
  }

  /** `conv_char` as written: the second character of the text. */
  function ConvCharAsWritten(slice: string): (r: Option<char>)
    ensures r.Some? <==> |slice| >= 2
    ensures r.Some? ==> r.value == slice[1]
  {
    if |slice| >= 2 then Some(slice[1]) else None
  }

  /**
   * The lexer accepts `'\n'` (four characters) as a character literal, and
   * `conv_char` turns it into the backslash.
   */
  lemma ConvCharEscapeAsWritten()
    ensures ConvCharAsWritten(['\'', '\\', 'n', '\'']) == Some('\\')
  {
  }

  /** The character an escape letter of the lexer's `\\[0ntfr]` stands for. */
  function Unescape(e: char): (r: Option<char>)
  {
    match e
    case '0' => Some(0 as char)
    case 'n' => Some('\n')
    case 't' => Some('\t')
    case 'f' => Some(12 as char)
    case 'r' => Some('\r')
    case _ => None
  }

  /**
   * `conv_char` as intended: the character between the quotes, with the
   * lexer's escapes decoded.
   */
  function ConvChar(slice: string): (r: Option<char>)
    ensures |slice| == 3 && slice[0] == '\'' == slice[2] ==> r == Some(slice[1])
    ensures |slice| == 4 && slice[1] == '\\' ==> r == Unescape(slice[2])
  {
    if |slice| == 4 && slice[1] == '\\' then Unescape(slice[2])
    else if |slice| >= 2 then Some(slice[1])
    else None
  }

  /** Every escape the lexer accepts decodes to its control character. */
  lemma ConvCharEscapes()
    ensures ConvChar(['\'', '\\', 'n', '\'']) == Some('\n')
    ensures ConvChar(['\'', '\\', 't', '\'']) == Some('\t')
    ensures ConvChar(['\'', '\\', 'r', '\'']) == Some('\r')
    ensures ConvChar(['\'', '\\', '0', '\'']) == Some(0 as char)
    ensures ConvChar(['\'', '\\', 'f', '\'']) == Some(12 as char)
  {
  }

  /** A raw token: its kind and the source text it was lexed from (`source.value()`). */
  datatype RawToken = RawToken(kind: RawTokenKind, text: string)
  {
    predicate IsIdentifier() { kind.IsIdentifier() }
    predicate IsLParen() { kind.IsLParen() }
    predicate IsRParen() { kind.IsRParen() }
    predicate IsComma() { kind.IsComma() }
    predicate IsNewline() { kind.IsNewline() }
    predicate IsWhitespace() { kind.IsWhitespace() }
    predicate IsComment() { kind.IsComment() }
  }
}
