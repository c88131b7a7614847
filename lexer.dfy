/**
 * The lexer of lexer.c: a cursor (`position`, `current_char`) over a C string,
 * moved one character at a time by `advance`, and the scanning routines built on
 * it. The pure functions at the top say what each routine computes; the class
 * `Lexer` below is the imperative cursor, and each of its methods is proved to do
 * what the matching function says.
 */
module Lexing {
  import opened Wrappers
  import opened CLib

  /**
   * The token kinds of lexer.c. They form a C enumeration, so a kind is its
   * position in the declaration, from EOF at 0 to REM at 75.
   */
  newtype TokenType = k: int | 0 <= k < 76

  const Eof: TokenType := 0
  const Identifier: TokenType := 1
  const IntLiteral: TokenType := 2
  const StringLiteral: TokenType := 3
  const Def: TokenType := 4
  const Print: TokenType := 5
  const Assign: TokenType := 6
  const Plus: TokenType := 7
  const Minus: TokenType := 8
  const Mul: TokenType := 9
  const Div: TokenType := 10
  const LParen: TokenType := 11
  const RParen: TokenType := 12
  const Comma: TokenType := 13
  const If: TokenType := 14
  const Then: TokenType := 15
  const Else: TokenType := 16
  const EndIf: TokenType := 17
  const While: TokenType := 18
  const Wend: TokenType := 19
  const For: TokenType := 20
  const To: TokenType := 21
  const StepKw: TokenType := 22
  const Next: TokenType := 23
  const Repeat: TokenType := 24
  const Until: TokenType := 25
  const Goto: TokenType := 26
  const Gosub: TokenType := 27
  const Return: TokenType := 28
  const On: TokenType := 29
  const Error: TokenType := 30
  const Resume: TokenType := 31
  const Data: TokenType := 32
  const Read: TokenType := 33
  const Restore: TokenType := 34
  const Dim: TokenType := 35
  const Poke: TokenType := 36
  const Peek: TokenType := 37
  const Open: TokenType := 38
  const Close: TokenType := 39
  const Input: TokenType := 40
  const Cls: TokenType := 41
  const Locate: TokenType := 42
  const Plot: TokenType := 43
  const Line: TokenType := 44
  const Circle: TokenType := 45
  const Select: TokenType := 46
  const Case: TokenType := 47
  const EndSelect: TokenType := 48
  const Function: TokenType := 49
  const Procedure: TokenType := 50
  const Left: TokenType := 51
  const Right: TokenType := 52
  const Mid: TokenType := 53
  const Len: TokenType := 54
  const Instr: TokenType := 55
  const Val: TokenType := 56
  const Str: TokenType := 57
  const Chr: TokenType := 58
  const Asc: TokenType := 59
  const Abs: TokenType := 60
  const Sqr: TokenType := 61
  const Sin: TokenType := 62
  const Cos: TokenType := 63
  const Tan: TokenType := 64
  const Atn: TokenType := 65
  const Exp: TokenType := 66
  const Log: TokenType := 67
  const Rnd: TokenType := 68
  const Int: TokenType := 69
  const Fix: TokenType := 70
  const Sgn: TokenType := 71
  const Allocate: TokenType := 72
  const Free: TokenType := 73
  const Addr: TokenType := 74
  const Rem: TokenType := 75

  /** A token: its kind and its text (NULL for end of input). */
  datatype Token = Token(kind: TokenType, value: Option<string>)

  /** The one way the C lexer fails: `exit(1)` on a character it cannot start a token with. */
  datatype LexError = UnexpectedCharacter(c: char, position: nat)

  /** What one call of `lexer_next_token` produces: the token and the new position. */
  datatype Step = Step(token: Token, next: nat)

  /** A C string holds no NUL character: `strlen` is its length. */
  predicate IsCString(s: string) {
    forall k :: 0 <= k < |s| ==> s[k] != '\0'
  }

  /** `current_char` for a position: the character there, or `'\0'` past the end. */
  function CharAt(s: string, p: int): char {
    if 0 <= p < |s| then s[p] else '\0'
  }

  predicate IsWordChar(c: char) {
    IsAlnum(c) || c == '_'
  }

  predicate NotNewline(c: char) {
    c != '\n'
  }

  predicate NotQuote(c: char) {
    c != '"'
  }

  /**
   * Where a loop `while (current_char != '\0' && P(current_char)) advance(lexer);`
   * started at `p` stops: the end of the longest run of `P` characters from `p`.
   */
  function ScanWhile(s: string, p: nat, P: char -> bool): (e: nat)
    decreases |s| - p
    ensures p <= e
    ensures p <= |s| ==> e <= |s|
    ensures forall k :: p <= k < e ==> k < |s| && P(s[k])
    ensures e < |s| ==> !P(s[e])
  {
    if p < |s| && P(s[p]) then ScanWhile(s, p + 1, P) else p
  }

  /** `substring(str, begin, len)`: a copy of `len` characters from `begin`. */
  function Substring(s: string, begin: nat, len: nat): (r: string)
    requires begin + len <= |s|
    ensures |r| == len
    ensures forall k :: 0 <= k < len ==> r[k] == s[begin + k]
  {
    s[begin..begin + len]
  }

  /** `create_token`: the kind with a copy of the text (or NULL). */
  function CreateToken(kind: TokenType, value: Option<string>): (t: Token)
    ensures t.kind == kind && t.value == value
  {
    Token(kind, value)
  }

  /** The keyword table of `identifier_or_keyword`: only DEF, PRINT and IF are keywords. */
  function KeywordKind(text: string): (kind: TokenType)
    ensures kind == Def <==> text == "DEF"
    ensures kind == Print <==> text == "PRINT"
    ensures kind == If <==> text == "IF"
    ensures kind in {Def, Print, If, Identifier}
  {
    if text == "DEF" then Def
    else if text == "PRINT" then Print
    else if text == "IF" then If
    else Identifier
  }

  /** The single-character tokens of the `switch` in `lexer_next_token`. */
  function OperatorKind(c: char): (kind: Option<TokenType>)
    ensures kind.Some? <==> c in "+-*/=(),"
    ensures kind.Some? ==> kind.value in {Plus, Minus, Mul, Div, Assign, LParen, RParen, Comma}
  {
    match c
    case '+' => Some(Plus)
    case '-' => Some(Minus)
    case '*' => Some(Mul)
    case '/' => Some(Div)
    case '=' => Some(Assign)
    case '(' => Some(LParen)
    case ')' => Some(RParen)
    case ',' => Some(Comma)
    case _ => None
  }

  /**
   * What `lexer_next_token` returns when called at position `p`: white space and
   * comments are skipped, then one token is scanned; at end of input the EOF token
   * with a NULL value is returned and the position stays where it is.
   */
  function NextTokenAt(s: string, p: nat): (r: Result<Step, LexError>)
    requires IsCString(s)
    decreases |s| - p
    ensures r.Success? ==> p <= r.value.next
    ensures r.Success? && r.value.token.kind == Eof ==>
              r.value.token.value == None && |s| <= r.value.next
    ensures r.Success? && r.value.token.kind != Eof ==>
              p < r.value.next <= |s| + 1 && r.value.token.value.Some?
    ensures r.Failure? ==> p <= r.error.position < |s| && s[r.error.position] == r.error.c
  {
    if p >= |s| then Success(Step(Token(Eof, None), p))
    else
      var c := s[p];
      if IsSpace(c) then
        NextTokenAt(s, ScanWhile(s, p, IsSpace))
      else if IsDigit(c) then
        var e := ScanWhile(s, p, IsDigit);
        Success(Step(Token(IntLiteral, Some(s[p..e])), e))
      else if IsAlpha(c) then
        var e := ScanWhile(s, p, IsWordChar);
        Success(Step(Token(KeywordKind(s[p..e]), Some(s[p..e])), e))
      else if c == '"' then
        var e := ScanWhile(s, p + 1, NotQuote);
        Success(Step(Token(StringLiteral, Some(s[p + 1..e])), e + 1))
      else if c == '\'' then
        NextTokenAt(s, ScanWhile(s, p, NotNewline))
      else
        match OperatorKind(c)
        case Some(kind) => Success(Step(Token(kind, Some([c])), p + 1))
        case None => Failure(UnexpectedCharacter(c, p))
  }

  /**
   * The whole token sequence, as a caller calling `lexer_next_token` until it
   * returns EOF sees it. It exists because each non-EOF token moves the position
   * forward, so the calls come to an end.
   */
  function Tokenize(s: string, p: nat): (r: Result<seq<Token>, LexError>)
    requires IsCString(s)
    decreases |s| + 1 - p
    ensures r.Success? ==> |r.value| >= 1 && r.value[|r.value| - 1] == Token(Eof, None)
    ensures r.Success? ==> forall k :: 0 <= k < |r.value| - 1 ==> r.value[k].kind != Eof
  {
    match NextTokenAt(s, p)
    case Failure(err) => Failure(err)
    case Success(step) =>
      if step.token.kind == Eof then Success([step.token])
      else
        match Tokenize(s, step.next)
        case Failure(err) => Failure(err)
        case Success(rest) => Success([step.token] + rest)
  }

  // ------------------------------------------------------------------ properties

  /** A run scanned from inside a run ends where the whole run ends. */
  lemma {:induction false} ScanWhileUnique(s: string, p: nat, e: nat, P: char -> bool)
    requires p <= e <= |s|
    requires forall k :: p <= k < e ==> P(s[k])
    requires e < |s| ==> !P(s[e])
    ensures ScanWhile(s, p, P) == e
    decreases e - p
  {
    if p < e {
      assert P(s[p]);
      ScanWhileUnique(s, p + 1, e, P);
    }
  }

  /** Once EOF has been returned, every later call returns EOF again and does not move. */
  lemma EofIsSticky(s: string, p: nat)
    requires IsCString(s)
    requires NextTokenAt(s, p).Success? && NextTokenAt(s, p).value.token.kind == Eof
    ensures var q := NextTokenAt(s, p).value.next;
            NextTokenAt(s, q) == Success(Step(Token(Eof, None), q))
  {
  }

  /** Any stretch of white space in front of a position produces no token. */
  lemma {:induction false} WhitespaceIsSilent(s: string, p: nat, q: nat)
    requires IsCString(s)
    requires p <= q <= |s|
    requires forall k :: p <= k < q ==> IsSpace(s[k])
    ensures NextTokenAt(s, p) == NextTokenAt(s, q)
  {
    if p < q {
      var e := ScanWhile(s, p, IsSpace);
      assert q <= e;
      if q < e {
        ScanWhileUnique(s, q, e, IsSpace);
      }
    }
  }

  /** A comment, from `'` up to but not including the next newline (or end of input), produces no token. */
  lemma CommentIsSilent(s: string, p: nat, e: nat)
    requires IsCString(s)
    requires p < e <= |s| && s[p] == '\''
    requires forall k :: p <= k < e ==> s[k] != '\n'
    requires e < |s| ==> s[e] == '\n'
    ensures NextTokenAt(s, p) == NextTokenAt(s, e)
  {
    ScanWhileUnique(s, p, e, NotNewline);
  }

  /**
   * A digit starts an integer literal whose text is the longest run of digits
   * there; the character after it is not a digit.
   */
  lemma NumberIsMaximalDigitRun(s: string, p: nat)
    requires IsCString(s)
    requires p < |s| && IsDigit(s[p])
    ensures var r := NextTokenAt(s, p);
            r.Success? && r.value.token.kind == IntLiteral &&
            var text := r.value.token.value.value;
            text != [] && AllDigits(text) && text == s[p..r.value.next] &&
            !IsDigit(CharAt(s, r.value.next))
  {
  }

  /**
   * A letter starts an identifier or keyword whose text is the longest run of
   * letters, digits and underscores there; the kind is DEF, PRINT or IF exactly
   * for those three texts and IDENTIFIER for every other.
   */
  lemma WordIsMaximalRun(s: string, p: nat)
    requires IsCString(s)
    requires p < |s| && IsAlpha(s[p])
    ensures var r := NextTokenAt(s, p);
            r.Success? &&
            var text := r.value.token.value.value;
            text == s[p..r.value.next] && text != [] && IsAlpha(text[0]) &&
            (forall k :: 0 <= k < |text| ==> IsWordChar(text[k])) &&
            !IsWordChar(CharAt(s, r.value.next)) &&
            r.value.token.kind == KeywordKind(text)
  {
  }

  /** Identifier and keyword tokens always begin with a letter. */
  lemma {:induction false} WordTokensStartWithLetter(s: string, p: nat)
    requires IsCString(s)
    requires NextTokenAt(s, p).Success?
    requires NextTokenAt(s, p).value.token.kind in {Identifier, Def, Print, If}
    ensures var text := NextTokenAt(s, p).value.token.value.value;
            text != [] && IsAlpha(text[0])
    decreases |s| - p
  {
    var c := s[p];
    if IsSpace(c) {
      WordTokensStartWithLetter(s, ScanWhile(s, p, IsSpace));
    } else if c == '\'' {
      WordTokensStartWithLetter(s, ScanWhile(s, p, NotNewline));
    }
  }

  /** A leading underscore cannot start an identifier: it is an unexpected character. */
  lemma UnderscoreIsUnexpected(s: string, p: nat)
    requires IsCString(s)
    requires p < |s| && s[p] == '_'
    ensures NextTokenAt(s, p) == Failure(UnexpectedCharacter('_', p))
  {
  }

  /**
   * A string literal's text is everything strictly between the opening quote and
   * the next quote (or the end of input): it holds no quote and nothing is unescaped.
   */
  lemma StringLiteralBody(s: string, p: nat)
    requires IsCString(s)
    requires p < |s| && s[p] == '"'
    ensures var r := NextTokenAt(s, p);
            r.Success? && r.value.token.kind == StringLiteral &&
            var text := r.value.token.value.value;
            var close := r.value.next - 1;
            p + 1 <= close <= |s| && text == s[p + 1..close] && '"' !in text &&
            (close == |s| || s[close] == '"')
  {
    var e := ScanWhile(s, p + 1, NotQuote);
    var text := s[p + 1..e];
    assert forall k :: 0 <= k < |text| ==> text[k] == s[p + 1 + k];
  }

  /** Each of `+ - * / = ( ) ,` is a token of its own kind, with its own text, one character long. */
  lemma OperatorToken(s: string, p: nat)
    requires IsCString(s)
    requires p < |s| && s[p] in "+-*/=(),"
    ensures NextTokenAt(s, p) == Success(Step(Token(OperatorKind(s[p]).value, Some([s[p]])), p + 1))
  {
  }

  /** Every other character that is neither space, letter, digit, quote nor apostrophe is an error. */
  lemma OtherCharacterIsError(s: string, p: nat)
    requires IsCString(s)
    requires p < |s|
    requires !IsSpace(s[p]) && !IsAlnum(s[p]) && s[p] !in "\"'+-*/=(),"
    ensures NextTokenAt(s, p) == Failure(UnexpectedCharacter(s[p], p))
  {
  }

  // ------------------------------------------------------------------ the cursor

  /** The `Lexer` struct: the source text and a cursor into it. */
  class Lexer {
    const source: string
    var position: nat
    var currentChar: char

    /** `current_char` always mirrors the character at `position`. */
    ghost predicate Valid()
      reads this
    {
      IsCString(source) && currentChar == CharAt(source, position)
    }

    /** `create_lexer`. */
    constructor (source: string)
      requires IsCString(source)
      ensures Valid()
      ensures this.source == source && position == 0
    {
      this.source := source;
      position := 0;
      currentChar := CharAt(source, 0);
    }

    /** `advance`: one character forward; `'\0'` once past the end. */
    method Advance()
      requires Valid()
      modifies this
      ensures Valid()
      ensures position == old(position) + 1
      ensures currentChar == (if position < |source| then source[position] else '\0')
    {
      position := position + 1;
      if position < |source| {
        currentChar := source[position];
      } else {
        currentChar := '\0';
      }
    }

    /** `skip_whitespace`. */
    method SkipWhitespace()
      requires Valid()
      modifies this
      ensures Valid()
      ensures position == ScanWhile(source, old(position), IsSpace)
    {
      while currentChar != '\0' && IsSpace(currentChar)
        invariant Valid()
        invariant ScanWhile(source, old(position), IsSpace) == ScanWhile(source, position, IsSpace)
        decreases |source| - position
      {
        Advance();
      }
    }

    /** `skip_comment`: up to, not including, the next newline. */
    method SkipComment()
      requires Valid()
      modifies this
      ensures Valid()
      ensures position == ScanWhile(source, old(position), NotNewline)
    {
      while currentChar != '\0' && currentChar != '\n'
        invariant Valid()
        invariant ScanWhile(source, old(position), NotNewline) == ScanWhile(source, position, NotNewline)
        decreases |source| - position
      {
        Advance();
      }
    }

    /** `number`: the run of digits from the cursor, as an integer literal. */
    method Number() returns (t: Token)
      requires Valid() && position <= |source|
      modifies this
      ensures Valid()
      ensures position == ScanWhile(source, old(position), IsDigit)
      ensures t == Token(IntLiteral, Some(source[old(position)..position]))
    {
      var start := position;
      while currentChar != '\0' && IsDigit(currentChar)
        invariant Valid() && start <= position <= |source|
        invariant ScanWhile(source, start, IsDigit) == ScanWhile(source, position, IsDigit)
        decreases |source| - position
      {
        Advance();
      }
      var value := Substring(source, start, position - start);
      t := CreateToken(IntLiteral, Some(value));
    }

    /** `identifier_or_keyword`: the run of letters, digits and underscores from the cursor. */
    method IdentifierOrKeyword() returns (t: Token)
      requires Valid() && position <= |source|
      modifies this
      ensures Valid()
      ensures position == ScanWhile(source, old(position), IsWordChar)
      ensures t == Token(KeywordKind(source[old(position)..position]), Some(source[old(position)..position]))
    {
      var start := position;
      while currentChar != '\0' && (IsAlnum(currentChar) || currentChar == '_')
        invariant Valid() && start <= position <= |source|
        invariant ScanWhile(source, start, IsWordChar) == ScanWhile(source, position, IsWordChar)
        decreases |source| - position
      {
        Advance();
      }
      var value := Substring(source, start, position - start);
      if value == "DEF" {
        return CreateToken(Def, Some(value));
      }
      if value == "PRINT" {
        return CreateToken(Print, Some(value));
      }
      if value == "IF" {
        return CreateToken(If, Some(value));
      }
      t := CreateToken(Identifier, Some(value));
    }

    /** `string_literal`: skips the opening quote, scans to the closing one, skips that too. */
    method StringLiteralToken() returns (t: Token)
      requires Valid() && currentChar == '"'
      modifies this
      ensures Valid()
      ensures var close := ScanWhile(source, old(position) + 1, NotQuote);
              position == close + 1 &&
              t == Token(StringLiteral, Some(source[old(position) + 1..close]))
    {
      Advance();
      var start := position;
      while currentChar != '\0' && currentChar != '"'
        invariant Valid() && start <= position <= |source|
        invariant ScanWhile(source, start, NotQuote) == ScanWhile(source, position, NotQuote)
        decreases |source| - position
      {
        Advance();
      }
      var value := Substring(source, start, position - start);
      Advance();
      t := CreateToken(StringLiteral, Some(value));
    }

    /** `lexer_next_token`: the next token, or the unexpected-character error. */
    method NextToken() returns (r: Result<Token, LexError>)
      requires Valid()
      modifies this
      ensures Valid()
      ensures NextTokenAt(source, old(position)) ==
                if r.Success? then Success(Step(r.value, position)) else Failure(r.error)
    {
      while currentChar != '\0'
        invariant Valid()
        invariant NextTokenAt(source, old(position)) == NextTokenAt(source, position)
        decreases |source| - position
      {
        if IsSpace(currentChar) {
          SkipWhitespace();
        } else if currentChar == '\'' {
          SkipComment();
        } else {
          r := ScanToken();
          return;
        }
      }
      r := Success(CreateToken(Eof, None));
    }

    /**
     * The branches of `lexer_next_token` that end the call: a number, a word, a
     * string, an operator, or the unexpected-character error.
     */
    method ScanToken() returns (r: Result<Token, LexError>)
      requires Valid() && currentChar != '\0' && !IsSpace(currentChar) && currentChar != '\''
      modifies this
      ensures Valid()
      ensures NextTokenAt(source, old(position)) ==
                if r.Success? then Success(Step(r.value, position)) else Failure(r.error)
    {
      if IsDigit(currentChar) {
        var t := Number();
        r := Success(t);
      } else if IsAlpha(currentChar) {
        var t := IdentifierOrKeyword();
        r := Success(t);
      } else if currentChar == '"' {
        var t := StringLiteralToken();
        r := Success(t);
      } else {
        var kind := OperatorKind(currentChar);
        if kind.None? {
          r := Failure(UnexpectedCharacter(currentChar, position));
        } else {
          var text := [currentChar];
          Advance();
          r := Success(CreateToken(kind.value, Some(text)));
        }
      }
    }
  }
}
