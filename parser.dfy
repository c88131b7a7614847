/**
 * The statement recognisers of parser.c. The parser keeps one global
 * `current_token` and pulls the next one from a token source on every
 * `advance_token`. Here the token source is a sequence of tokens and an index
 * `next` into it; past its end the source keeps delivering EOF, as the file's own
 * stand-in `lexer_next_token` does. `parse_expression` and `parse_block` are
 * declared in parser.c but never defined, so they are parameters of the parser: a
 * `SubParser` says, for each index of the current token, how many tokens a
 * successful parse consumes, or that it fails.
 */
module Parsing {
  import opened Wrappers

  /**
   * The token kinds of parser.c. They form a C enumeration, so a kind is its
   * position in the declaration, from GOTO at 0 to EOF at 39.
   */
  newtype TokenType = k: int | 0 <= k < 40

  const Goto: TokenType := 0
  const Gosub: TokenType := 1
  const Return: TokenType := 2
  const On: TokenType := 3
  const Error: TokenType := 4
  const Select: TokenType := 5
  const Case: TokenType := 6
  const EndSelect: TokenType := 7
  const Data: TokenType := 8
  const Read: TokenType := 9
  const Restore: TokenType := 10
  const Dim: TokenType := 11
  const Poke: TokenType := 12
  const Peek: TokenType := 13
  const Open: TokenType := 14
  const Close: TokenType := 15
  const Input: TokenType := 16
  const Print: TokenType := 17
  const Def: TokenType := 18
  const Fn: TokenType := 19
  const Proc: TokenType := 20
  const End: TokenType := 21
  const Stop: TokenType := 22
  const Do: TokenType := 23
  const Loop: TokenType := 24
  const Exit: TokenType := 25
  const If: TokenType := 26
  const For: TokenType := 27
  const While: TokenType := 28
  const Repeat: TokenType := 29
  const Rem: TokenType := 30
  const Newline: TokenType := 31
  const Identifier: TokenType := 32
  const IntLiteral: TokenType := 33
  const StringLiteral: TokenType := 34
  const LParen: TokenType := 35
  const RParen: TokenType := 36
  const Comma: TokenType := 37
  const Colon: TokenType := 38
  const Eof: TokenType := 39

  datatype Token = Token(kind: TokenType, value: Option<string>)

  /** The ways a parse ends without a result. */
  datatype SyntaxError =
    | UnexpectedToken(expected: TokenType, got: TokenType)  // `expect_token`'s error and `exit(1)`
    | SubParseError                                         // `parse_expression` or `parse_block` failed
    | NeverTerminates                                       // the loop would spin forever on EOF tokens

  /**
   * The outcome of `parse_expression` or `parse_block` at each index of the current
   * token: how many tokens a successful parse consumes; an index it does not hold
   * is one where the parse fails.
   */
  type SubParser = map<nat, nat>

  /** The token the source delivers at index `i`: EOF (with no text) past the end. */
  function TokenAt(tokens: seq<Token>, i: nat): Token {
    if i < |tokens| then tokens[i] else Token(Eof, None)
  }

  // ------------------------------------------------------------------ grammar of the recognisers

  /** One element of a fixed statement shape: a token kind, an expression or a block. */
  datatype Item = Tok(kind: TokenType) | Expression | Block

  /**
   * Matching the items of a shape from item `k` on against the tokens from index
   * `p`: a token item must be the current token's kind (or it is `expect_token`'s
   * error), a phrase item is handed to its sub-parser. On success, the index of the
   * token after the shape.
   */
  function ParseItems(tokens: seq<Token>, p: nat, items: seq<Item>, k: nat, expr: SubParser, block: SubParser)
    : (r: Result<nat, SyntaxError>)
    decreases |items| - k
    ensures r.Success? ==> p <= r.value
  {
    if k >= |items| then Success(p)
    else match items[k]
      case Tok(kind) =>
        if TokenAt(tokens, p).kind == kind then ParseItems(tokens, p + 1, items, k + 1, expr, block)
        else Failure(UnexpectedToken(kind, TokenAt(tokens, p).kind))
      case Expression =>
        if p in expr then ParseItems(tokens, p + expr[p], items, k + 1, expr, block) else Failure(SubParseError)
      case Block =>
        if p in block then ParseItems(tokens, p + block[p], items, k + 1, expr, block) else Failure(SubParseError)
  }

  predicate AllTokens(items: seq<Item>) {
    forall i :: 0 <= i < |items| ==> items[i].Tok?
  }

  /** Items `k` up to `j` are token kinds, and the tokens from `p` have those kinds one by one. */
  predicate KindsMatch(tokens: seq<Token>, p: nat, items: seq<Item>, k: nat, j: nat)
    requires k <= j <= |items|
  {
    forall i :: k <= i < j ==> items[i].Tok? && TokenAt(tokens, p + (i - k)).kind == items[i].kind
  }

  /** From item `k` on, the first item whose token differs, or the shape's length when none does. */
  function FirstMismatch(tokens: seq<Token>, p: nat, items: seq<Item>, k: nat): (j: nat)
    requires AllTokens(items) && k <= |items|
    decreases |items| - k
    ensures k <= j <= |items| && KindsMatch(tokens, p, items, k, j)
    ensures j < |items| ==> TokenAt(tokens, p + (j - k)).kind != items[j].kind
  {
    if k == |items| || TokenAt(tokens, p).kind != items[k].kind then k
    else
      var j := FirstMismatch(tokens, p + 1, items, k + 1);
      assert KindsMatch(tokens, p, items, k, j) by {
        forall i | k <= i < j
          ensures TokenAt(tokens, p + (i - k)).kind == items[i].kind
        {
          if i > k {
            assert TokenAt(tokens, p + 1 + (i - (k + 1))).kind == items[i].kind;
          }
        }
      }
      j
  }

  /**
   * A shape made only of token kinds succeeds exactly when the tokens have those
   * kinds, and then consumes exactly one token per item; otherwise the error names
   * the first mismatch: the kind expected there and the kind found.
   */
  lemma {:induction false} TokenShape(tokens: seq<Token>, p: nat, items: seq<Item>, k: nat, expr: SubParser, block: SubParser)
    requires AllTokens(items) && k <= |items|
    ensures var j := FirstMismatch(tokens, p, items, k);
            ParseItems(tokens, p, items, k, expr, block) ==
            if j == |items| then Success(p + (|items| - k))
            else Failure(UnexpectedToken(items[j].kind, TokenAt(tokens, p + (j - k)).kind))
    ensures ParseItems(tokens, p, items, k, expr, block).Success? <==> KindsMatch(tokens, p, items, k, |items|)
    decreases |items| - k
  {
    if k < |items| && TokenAt(tokens, p).kind == items[k].kind {
      TokenShape(tokens, p + 1, items, k + 1, expr, block);
      var j := FirstMismatch(tokens, p + 1, items, k + 1);
      assert p + 1 + (j - (k + 1)) == p + (j - k);
    }
    var j := FirstMismatch(tokens, p, items, k);
    if j < |items| {
      assert !KindsMatch(tokens, p, items, k, |items|) by {
        assert TokenAt(tokens, p + (j - k)).kind != items[j].kind;
      }
    }
  }

  const GotoShape: seq<Item> := [Tok(Goto), Tok(Identifier)]
  const GosubShape: seq<Item> := [Tok(Gosub), Tok(Identifier)]
  const ReturnShape: seq<Item> := [Tok(Return)]
  const OnErrorGotoShape: seq<Item> := [Tok(On), Tok(Error), Tok(Goto), Tok(Identifier)]
  const ReadShape: seq<Item> := [Tok(Read), Tok(Identifier)]
  const RestoreShape: seq<Item> := [Tok(Restore)]
  const DimShape: seq<Item> := [Tok(Dim), Tok(Identifier)]
  const PokeShape: seq<Item> := [Tok(Poke), Expression, Tok(Comma), Expression]
  const PeekShape: seq<Item> := [Tok(Peek), Tok(LParen), Expression, Tok(RParen)]
  const SelectHeadShape: seq<Item> := [Tok(Select), Tok(Case), Expression]
  const CaseArmShape: seq<Item> := [Expression, Tok(Colon), Block]

  /**
   * The loop of `parse_select_case`, entered with the current token at `p`: it
   * stops on ENDSELECT; a CASE is followed by an expression, a colon and a block,
   * and then one more token is skipped; any other token is skipped. Past the end of
   * the tokens the source delivers EOF for ever and the loop never stops.
   */
  function CaseArms(tokens: seq<Token>, p: nat, expr: SubParser, block: SubParser)
    : (r: Result<nat, SyntaxError>)
    decreases |tokens| - p
    ensures r.Success? ==> p <= r.value < |tokens| && TokenAt(tokens, r.value).kind == EndSelect
    ensures r.Failure? && p >= |tokens| ==> r.error == NeverTerminates
  {
    var t := TokenAt(tokens, p);
    if t.kind == EndSelect then Success(p)
    else if p >= |tokens| then Failure(NeverTerminates)
    else if t.kind == Case then
      match ParseItems(tokens, p + 1, CaseArmShape, 0, expr, block)
      case Failure(e) => Failure(e)
      case Success(q) => CaseArms(tokens, q + 1, expr, block)
    else CaseArms(tokens, p + 1, expr, block)
  }

  /** `parse_select_case` from the current token at `p`: `SELECT CASE expr`, the arms, `ENDSELECT`. */
  function SelectCaseStatement(tokens: seq<Token>, p: nat, expr: SubParser, block: SubParser)
    : (r: Result<nat, SyntaxError>)
    ensures r.Success? ==>
              TokenAt(tokens, p).kind == Select && TokenAt(tokens, p + 1).kind == Case &&
              p + 3 <= r.value && TokenAt(tokens, r.value - 1).kind == EndSelect
  {
    match ParseItems(tokens, p, SelectHeadShape, 0, expr, block)
    case Failure(e) => Failure(e)
    case Success(q) =>
      assert TokenAt(tokens, p).kind == Select;
      assert ParseItems(tokens, p + 1, SelectHeadShape, 1, expr, block) == Success(q);
      assert TokenAt(tokens, p + 1).kind == Case;
      assert ParseItems(tokens, p + 2, SelectHeadShape, 2, expr, block) == Success(q);
      AfterEndSelect(CaseArms(tokens, q, expr, block))
  }

  /** The closing `expect_token(ENDSELECT)`, on the token the loop stopped at. */
  function AfterEndSelect(arms: Result<nat, SyntaxError>): Result<nat, SyntaxError> {
    match arms
    case Failure(e) => Failure(e)
    case Success(e) => Success(e + 1)
  }

  /**
   * The loop of `parse_data_statement`, entered with the current token at `p`: the
   * index of the first NEWLINE from `p`; if there is none, the loop never stops.
   */
  function DataEnd(tokens: seq<Token>, p: nat): (r: Result<nat, SyntaxError>)
    decreases |tokens| - p
    ensures r.Success? ==> p <= r.value < |tokens| && TokenAt(tokens, r.value).kind == Newline
    ensures r.Success? ==> forall i :: p <= i < r.value ==> TokenAt(tokens, i).kind != Newline
    ensures r.Failure? ==>
              r.error == NeverTerminates && forall i :: p <= i ==> TokenAt(tokens, i).kind != Newline
  {
    if TokenAt(tokens, p).kind == Newline then Success(p)
    else if p >= |tokens| then Failure(NeverTerminates)
    else DataEnd(tokens, p + 1)
  }

  /** `parse_data_statement` from the current token at `p`: DATA, then every token up to the next NEWLINE. */
  function DataStatement(tokens: seq<Token>, p: nat): (r: Result<nat, SyntaxError>)
    ensures r.Success? ==> TokenAt(tokens, p).kind == Data
  {
    if TokenAt(tokens, p).kind != Data then Failure(UnexpectedToken(Data, TokenAt(tokens, p).kind))
    else DataEnd(tokens, p + 1)
  }

  /** A parse result agrees with the grammar's: same success, same error, and the cursor at the grammar's end index. */
  predicate Agrees<T>(o: Result<T, SyntaxError>, r: Result<nat, SyntaxError>, position: nat) {
    (o.Success? <==> r.Success?) &&
    (r.Success? ==> position == r.value) &&
    (r.Failure? ==> o.Failure? && o.error == r.error)
  }

  function ToResult(o: Outcome<SyntaxError>): Result<(), SyntaxError> {
    if o.Pass? then Success(()) else Failure(o.error)
  }

  // ------------------------------------------------------------------ the parser state

  class Parser {
    const tokens: seq<Token>
    const parseExpression: SubParser
    const parseBlock: SubParser
    /** `current_token`. */
    var currentToken: Token
    /** The index of the token the source delivers on the next `advance_token`. */
    var next: nat

    /** `current_token` is the last token the source delivered. */
    ghost predicate Valid()
      reads this
    {
      1 <= next && currentToken == TokenAt(tokens, next - 1)
    }

    /** The start of `main`: `current_token = lexer_next_token()`. */
    constructor (tokens: seq<Token>, parseExpression: SubParser, parseBlock: SubParser)
      ensures Valid()
      ensures this.tokens == tokens && this.parseExpression == parseExpression && this.parseBlock == parseBlock
      ensures next == 1
    {
      this.tokens := tokens;
      this.parseExpression := parseExpression;
      this.parseBlock := parseBlock;
      currentToken := TokenAt(tokens, 0);
      next := 1;
    }

    /** `advance_token`: the source's next token becomes the current one. */
    method AdvanceToken()
      modifies this
      ensures Valid()
      ensures currentToken == TokenAt(tokens, old(next)) && next == old(next) + 1
    {
      currentToken := TokenAt(tokens, next);
      next := next + 1;
    }

    /** `expect_token`: advance past a token of the given kind, or fail and consume nothing. */
    method ExpectToken(kind: TokenType) returns (o: Outcome<SyntaxError>)
      requires Valid()
      modifies this
      ensures Valid()
      ensures o.Pass? <==> old(currentToken).kind == kind
      ensures o.Pass? ==> next == old(next) + 1
      ensures o.Fail? ==> o.error == UnexpectedToken(kind, old(currentToken).kind) &&
                          next == old(next) && currentToken == old(currentToken)
    {
      if currentToken.kind != kind {
        return Fail(UnexpectedToken(kind, currentToken.kind));
      }
      AdvanceToken();
      o := Pass;
    }

    /** A call of `parse_expression` or `parse_block`: it consumes what the sub-parser says. */
    method SubParse(sub: SubParser) returns (o: Outcome<SyntaxError>)
      requires Valid()
      modifies this
      ensures Valid()
      ensures old(next) - 1 !in sub ==> o == Fail(SubParseError) && next == old(next)
      ensures old(next) - 1 in sub ==> o.Pass? && next == old(next) + sub[old(next) - 1]
    {
      if next - 1 !in sub {
        return Fail(SubParseError);
      }
      next := next + sub[next - 1];
      currentToken := TokenAt(tokens, next - 1);
      o := Pass;
    }

    /** `parse_goto_statement`: `GOTO identifier`; the identifier's text is the target. */
    method ParseGotoStatement() returns (r: Result<Option<string>, SyntaxError>)
      requires Valid()
      modifies this
      ensures Valid()
      ensures Agrees(r, ParseItems(tokens, old(next) - 1, GotoShape, 0, parseExpression, parseBlock), next - 1)
      ensures r.Success? ==> r.value == TokenAt(tokens, old(next)).value
    {
      ghost var spec := ParseItems(tokens, next - 1, GotoShape, 0, parseExpression, parseBlock);
      var o := ExpectToken(Goto);
      if o.Fail? {
        return Failure(o.error);
      }
      assert spec == ParseItems(tokens, next - 1, GotoShape, 1, parseExpression, parseBlock);
      var target := currentToken.value;
      o := ExpectToken(Identifier);
      if o.Fail? {
        return Failure(o.error);
      }
      assert spec == ParseItems(tokens, next - 1, GotoShape, 2, parseExpression, parseBlock);
      r := Success(target);
    }

    /** `parse_gosub_statement`: `GOSUB identifier`; the identifier's text is the target. */
    method ParseGosubStatement() returns (r: Result<Option<string>, SyntaxError>)
      requires Valid()
      modifies this
      ensures Valid()
      ensures Agrees(r, ParseItems(tokens, old(next) - 1, GosubShape, 0, parseExpression, parseBlock), next - 1)
      ensures r.Success? ==> r.value == TokenAt(tokens, old(next)).value
    {
      ghost var spec := ParseItems(tokens, next - 1, GosubShape, 0, parseExpression, parseBlock);
      var o := ExpectToken(Gosub);
      if o.Fail? {
        return Failure(o.error);
      }
      assert spec == ParseItems(tokens, next - 1, GosubShape, 1, parseExpression, parseBlock);
      var target := currentToken.value;
      o := ExpectToken(Identifier);
      if o.Fail? {
        return Failure(o.error);
      }
      assert spec == ParseItems(tokens, next - 1, GosubShape, 2, parseExpression, parseBlock);
      r := Success(target);
    }

    /** `parse_return_statement`: exactly the RETURN keyword. */
    method ParseReturnStatement() returns (o: Outcome<SyntaxError>)
      requires Valid()
      modifies this
      ensures Valid()
      ensures Agrees(ToResult(o), ParseItems(tokens, old(next) - 1, ReturnShape, 0, parseExpression, parseBlock), next - 1)
    {
      o := ExpectToken(Return);
    }

    /** `parse_on_error_goto`: `ON ERROR GOTO identifier`; the identifier's text is the target. */
    method ParseOnErrorGoto() returns (r: Result<Option<string>, SyntaxError>)
      requires Valid()
      modifies this
      ensures Valid()
      ensures Agrees(r, ParseItems(tokens, old(next) - 1, OnErrorGotoShape, 0, parseExpression, parseBlock), next - 1)
      ensures r.Success? ==> r.value == TokenAt(tokens, old(next) + 2).value
    {
      ghost var spec := ParseItems(tokens, next - 1, OnErrorGotoShape, 0, parseExpression, parseBlock);
      var o := ExpectToken(On);
      if o.Fail? {
        return Failure(o.error);
      }
      assert spec == ParseItems(tokens, next - 1, OnErrorGotoShape, 1, parseExpression, parseBlock);
      o := ExpectToken(Error);
      if o.Fail? {
        return Failure(o.error);
      }
      assert spec == ParseItems(tokens, next - 1, OnErrorGotoShape, 2, parseExpression, parseBlock);
      o := ExpectToken(Goto);
      if o.Fail? {
        return Failure(o.error);
      }
      assert spec == ParseItems(tokens, next - 1, OnErrorGotoShape, 3, parseExpression, parseBlock);
      var target := currentToken.value;
      o := ExpectToken(Identifier);
      if o.Fail? {
        return Failure(o.error);
      }
      assert spec == ParseItems(tokens, next - 1, OnErrorGotoShape, 4, parseExpression, parseBlock);
      r := Success(target);
    }

    /** `parse_select_case`. */
    method ParseSelectCase() returns (o: Outcome<SyntaxError>)
      requires Valid()
      modifies this
      ensures Valid()
      ensures Agrees(ToResult(o), SelectCaseStatement(tokens, old(next) - 1, parseExpression, parseBlock), next - 1)
    {
      ghost var head := ParseItems(tokens, next - 1, SelectHeadShape, 0, parseExpression, parseBlock);
      o := ExpectToken(Select);
      if o.Pass? {
        assert head == ParseItems(tokens, next - 1, SelectHeadShape, 1, parseExpression, parseBlock);
        o := ExpectToken(Case);
        if o.Pass? {
          assert head == ParseItems(tokens, next - 1, SelectHeadShape, 2, parseExpression, parseBlock);
          o := SubParse(parseExpression);
          if o.Pass? {
            assert head == ParseItems(tokens, next - 1, SelectHeadShape, 3, parseExpression, parseBlock);
            o := ParseCaseArms();
            if o.Pass? {
              o := ExpectToken(EndSelect);
            }
          }
        }
      }
    }

    /** The loop of `parse_select_case`: it stops on ENDSELECT, which it leaves as the current token. */
    method ParseCaseArms() returns (o: Outcome<SyntaxError>)
      requires Valid()
      modifies this
      ensures Valid()
      ensures Agrees(ToResult(o), CaseArms(tokens, old(next) - 1, parseExpression, parseBlock), next - 1)
    {
      o := Pass;
      while currentToken.kind != EndSelect
        invariant Valid() && o == Pass
        invariant CaseArms(tokens, old(next) - 1, parseExpression, parseBlock) ==
                  CaseArms(tokens, next - 1, parseExpression, parseBlock)
        decreases |tokens| - next
      {
        if next > |tokens| {
          return Fail(NeverTerminates);
        }
        if currentToken.kind == Case {
          AdvanceToken();
          o := ParseCaseArm();
          if o.Fail? {
            return;
          }
        }
        AdvanceToken();
      }
    }

    /** The body of one CASE arm in `parse_select_case`: an expression, a colon and a block. */
    method ParseCaseArm() returns (o: Outcome<SyntaxError>)
      requires Valid()
      modifies this
      ensures Valid()
      ensures Agrees(ToResult(o), ParseItems(tokens, old(next) - 1, CaseArmShape, 0, parseExpression, parseBlock), next - 1)
    {
      ghost var spec := ParseItems(tokens, next - 1, CaseArmShape, 0, parseExpression, parseBlock);
      o := SubParse(parseExpression);
      if o.Pass? {
        assert spec == ParseItems(tokens, next - 1, CaseArmShape, 1, parseExpression, parseBlock);
        o := ExpectToken(Colon);
        if o.Pass? {
          assert spec == ParseItems(tokens, next - 1, CaseArmShape, 2, parseExpression, parseBlock);
          o := SubParse(parseBlock);
          if o.Pass? {
            assert spec == ParseItems(tokens, next - 1, CaseArmShape, 3, parseExpression, parseBlock);
          }
        }
      }
    }

    /** `parse_data_statement`: DATA, then every token up to, not including, the next NEWLINE. */
    method ParseDataStatement() returns (o: Outcome<SyntaxError>)
      requires Valid()
      modifies this
      ensures Valid()
      ensures Agrees(ToResult(o), DataStatement(tokens, old(next) - 1), next - 1)
    {
      o := ExpectToken(Data);
      if o.Fail? {
        return;
      }
      while currentToken.kind != Newline
        invariant Valid()
        invariant DataStatement(tokens, old(next) - 1) == DataEnd(tokens, next - 1)
        decreases |tokens| - next
      {
        if next > |tokens| {
          return Fail(NeverTerminates);
        }
        AdvanceToken();
      }
    }

    /** `parse_read_statement`: `READ identifier`; the identifier's text is the variable name. */
    method ParseReadStatement() returns (r: Result<Option<string>, SyntaxError>)
      requires Valid()
      modifies this
      ensures Valid()
      ensures Agrees(r, ParseItems(tokens, old(next) - 1, ReadShape, 0, parseExpression, parseBlock), next - 1)
      ensures r.Success? ==> r.value == TokenAt(tokens, old(next)).value
    {
      ghost var spec := ParseItems(tokens, next - 1, ReadShape, 0, parseExpression, parseBlock);
      var o := ExpectToken(Read);
      if o.Fail? {
        return Failure(o.error);
      }
      assert spec == ParseItems(tokens, next - 1, ReadShape, 1, parseExpression, parseBlock);
      var name := currentToken.value;
      o := ExpectToken(Identifier);
      if o.Fail? {
        return Failure(o.error);
      }
      assert spec == ParseItems(tokens, next - 1, ReadShape, 2, parseExpression, parseBlock);
      r := Success(name);
    }

    /** `parse_restore_statement`: exactly the RESTORE keyword. */
    method ParseRestoreStatement() returns (o: Outcome<SyntaxError>)
      requires Valid()
      modifies this
      ensures Valid()
      ensures Agrees(ToResult(o), ParseItems(tokens, old(next) - 1, RestoreShape, 0, parseExpression, parseBlock), next - 1)
    {
      o := ExpectToken(Restore);
    }

    /** `parse_dim_statement`: `DIM identifier`; the identifier's text is the variable name. */
    method ParseDimStatement() returns (r: Result<Option<string>, SyntaxError>)
      requires Valid()
      modifies this
      ensures Valid()
      ensures Agrees(r, ParseItems(tokens, old(next) - 1, DimShape, 0, parseExpression, parseBlock), next - 1)
      ensures r.Success? ==> r.value == TokenAt(tokens, old(next)).value
    {
      ghost var spec := ParseItems(tokens, next - 1, DimShape, 0, parseExpression, parseBlock);
      var o := ExpectToken(Dim);
      if o.Fail? {
        return Failure(o.error);
      }
      assert spec == ParseItems(tokens, next - 1, DimShape, 1, parseExpression, parseBlock);
      var name := currentToken.value;
      o := ExpectToken(Identifier);
      if o.Fail? {
        return Failure(o.error);
      }
      assert spec == ParseItems(tokens, next - 1, DimShape, 2, parseExpression, parseBlock);
      r := Success(name);
    }

    /** `parse_poke_statement`: `POKE expr , expr`. */
    method ParsePokeStatement() returns (o: Outcome<SyntaxError>)
      requires Valid()
      modifies this
      ensures Valid()
      ensures Agrees(ToResult(o), ParseItems(tokens, old(next) - 1, PokeShape, 0, parseExpression, parseBlock), next - 1)
    {
      ghost var spec := ParseItems(tokens, next - 1, PokeShape, 0, parseExpression, parseBlock);
      o := ExpectToken(Poke);
      if o.Pass? {
        assert spec == ParseItems(tokens, next - 1, PokeShape, 1, parseExpression, parseBlock);
        o := SubParse(parseExpression);
        if o.Pass? {
          assert spec == ParseItems(tokens, next - 1, PokeShape, 2, parseExpression, parseBlock);
          o := ExpectToken(Comma);
          if o.Pass? {
            assert spec == ParseItems(tokens, next - 1, PokeShape, 3, parseExpression, parseBlock);
            o := SubParse(parseExpression);
            if o.Pass? {
              assert spec == ParseItems(tokens, next - 1, PokeShape, 4, parseExpression, parseBlock);
            }
          }
        }
      }
    }

    /** `parse_peek_expression`: `PEEK ( expr )`. */
    method ParsePeekExpression() returns (o: Outcome<SyntaxError>)
      requires Valid()
      modifies this
      ensures Valid()
      ensures Agrees(ToResult(o), ParseItems(tokens, old(next) - 1, PeekShape, 0, parseExpression, parseBlock), next - 1)
    {
      ghost var spec := ParseItems(tokens, next - 1, PeekShape, 0, parseExpression, parseBlock);
      o := ExpectToken(Peek);
      if o.Pass? {
        assert spec == ParseItems(tokens, next - 1, PeekShape, 1, parseExpression, parseBlock);
        o := ExpectToken(LParen);
        if o.Pass? {
          assert spec == ParseItems(tokens, next - 1, PeekShape, 2, parseExpression, parseBlock);
          o := SubParse(parseExpression);
          if o.Pass? {
            assert spec == ParseItems(tokens, next - 1, PeekShape, 3, parseExpression, parseBlock);
            o := ExpectToken(RParen);
            if o.Pass? {
              assert spec == ParseItems(tokens, next - 1, PeekShape, 4, parseExpression, parseBlock);
            }
          }
        }
      }
    }

    /**
     * `lookahead(n)` as written: it saves and restores `current_token`, but the
     * `n` tokens it pulled from the source stay consumed.
     */
    method Lookahead(n: int) returns (result: Token)
      requires Valid() && n >= 1
      modifies this
      ensures result == TokenAt(tokens, old(next) + n - 1)
      ensures currentToken == old(currentToken)
      ensures next == old(next) + n
    {
      var savedToken := currentToken;
      result := currentToken;
      var i := 0;
      while i < n
        invariant 0 <= i <= n && next == old(next) + i
        invariant i > 0 ==> result == TokenAt(tokens, next - 1)
      {
        AdvanceToken();
        result := currentToken;
        i := i + 1;
      }
      currentToken := savedToken;
    }

    /** `lookahead(n)` restoring the whole scan state, the source's position included. */
    method LookaheadRestoring(n: int) returns (result: Token)
      requires Valid() && n >= 1
      modifies this
      ensures Valid()
      ensures result == TokenAt(tokens, old(next) + n - 1)
      ensures currentToken == old(currentToken) && next == old(next)
    {
      var savedToken := currentToken;
      var savedNext := next;
      result := currentToken;
      var i := 0;
      while i < n
        invariant 0 <= i <= n && next == savedNext + i
        invariant i > 0 ==> result == TokenAt(tokens, next - 1)
      {
        AdvanceToken();
        result := currentToken;
        i := i + 1;
      }
      currentToken := savedToken;
      next := savedNext;
    }
  }

  // ------------------------------------------------------------------ properties

  /**
   * With `lookahead` as written, peeking one token ahead and then advancing skips
   * the peeked token: on `A B C` the parser sees A, peeks B, and its next current
   * token is C, so B is never parsed.
   */
  method LookaheadThenAdvanceSkipsToken() returns (peeked: Token, afterAdvance: Token)
    ensures peeked == Token(Identifier, Some("B"))
    ensures afterAdvance == Token(Identifier, Some("C"))
  {
    var tokens := [Token(Identifier, Some("A")), Token(Identifier, Some("B")), Token(Identifier, Some("C"))];
    var parser := new Parser(tokens, map[], map[]);
    peeked := parser.Lookahead(1);
    parser.AdvanceToken();
    afterAdvance := parser.currentToken;
  }

  /** With the restoring `lookahead`, advancing after a peek reaches the peeked token. */
  method LookaheadRestoringThenAdvanceKeepsToken() returns (peeked: Token, afterAdvance: Token)
    ensures peeked == Token(Identifier, Some("B"))
    ensures afterAdvance == peeked
  {
    var tokens := [Token(Identifier, Some("A")), Token(Identifier, Some("B")), Token(Identifier, Some("C"))];
    var parser := new Parser(tokens, map[], map[]);
    peeked := parser.LookaheadRestoring(1);
    parser.AdvanceToken();
    afterAdvance := parser.currentToken;
  }

  /** `GOTO`/`GOSUB`/`READ`/`DIM` followed by an identifier: exactly that pair, consuming two tokens. */
  lemma KeywordIdentifierPair(tokens: seq<Token>, p: nat, keyword: TokenType, expr: SubParser, block: SubParser)
    ensures var r := ParseItems(tokens, p, [Tok(keyword), Tok(Identifier)], 0, expr, block);
            (r.Success? <==> TokenAt(tokens, p).kind == keyword && TokenAt(tokens, p + 1).kind == Identifier) &&
            (r.Success? ==> r.value == p + 2)
  {
    TokenShape(tokens, p, [Tok(keyword), Tok(Identifier)], 0, expr, block);
  }

  /** `ON ERROR GOTO identifier` is the only shape accepted, and it consumes four tokens. */
  lemma OnErrorGotoConsumesFour(tokens: seq<Token>, p: nat, expr: SubParser, block: SubParser)
    ensures var r := ParseItems(tokens, p, OnErrorGotoShape, 0, expr, block);
            (r.Success? <==> TokenAt(tokens, p).kind == On && TokenAt(tokens, p + 1).kind == Error &&
                             TokenAt(tokens, p + 2).kind == Goto && TokenAt(tokens, p + 3).kind == Identifier) &&
            (r.Success? ==> r.value == p + 4)
  {
    var r := ParseItems(tokens, p, OnErrorGotoShape, 0, expr, block);
    if TokenAt(tokens, p).kind == On {
      assert r == ParseItems(tokens, p + 1, OnErrorGotoShape, 1, expr, block);
      if TokenAt(tokens, p + 1).kind == Error {
        assert r == ParseItems(tokens, p + 2, OnErrorGotoShape, 2, expr, block);
        if TokenAt(tokens, p + 2).kind == Goto {
          assert r == ParseItems(tokens, p + 3, OnErrorGotoShape, 3, expr, block);
          if TokenAt(tokens, p + 3).kind == Identifier {
            assert r == ParseItems(tokens, p + 4, OnErrorGotoShape, 4, expr, block);
          }
        }
      }
    }
  }

  /** In `POKE expr , expr`, anything other than a comma after the first expression is a syntax error naming the comma. */
  lemma PokeNeedsComma(tokens: seq<Token>, p: nat, expr: SubParser, block: SubParser)
    requires TokenAt(tokens, p).kind == Poke && p + 1 in expr
    requires TokenAt(tokens, p + 1 + expr[p + 1]).kind != Comma
    ensures ParseItems(tokens, p, PokeShape, 0, expr, block) ==
            Failure(UnexpectedToken(Comma, TokenAt(tokens, p + 1 + expr[p + 1]).kind))
  {
    var r := ParseItems(tokens, p, PokeShape, 0, expr, block);
    assert r == ParseItems(tokens, p + 1, PokeShape, 1, expr, block);
    assert r == ParseItems(tokens, p + 1 + expr[p + 1], PokeShape, 2, expr, block);
  }

  /** In `PEEK ( expr )`, anything other than the closing bracket after the expression is a syntax error naming it. */
  lemma PeekNeedsClosingBracket(tokens: seq<Token>, p: nat, expr: SubParser, block: SubParser)
    requires TokenAt(tokens, p).kind == Peek && TokenAt(tokens, p + 1).kind == LParen
    requires p + 2 in expr
    requires TokenAt(tokens, p + 2 + expr[p + 2]).kind != RParen
    ensures ParseItems(tokens, p, PeekShape, 0, expr, block) ==
            Failure(UnexpectedToken(RParen, TokenAt(tokens, p + 2 + expr[p + 2]).kind))
  {
    var r := ParseItems(tokens, p, PeekShape, 0, expr, block);
    assert r == ParseItems(tokens, p + 1, PeekShape, 1, expr, block);
    assert r == ParseItems(tokens, p + 2, PeekShape, 2, expr, block);
    assert r == ParseItems(tokens, p + 2 + expr[p + 2], PeekShape, 3, expr, block);
  }
}
