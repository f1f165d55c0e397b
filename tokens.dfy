/** The token model: the closed set of token kinds and the immutable token
    record the scanner produces and the printer reads operator lexemes from. */
module Tokens {
  import opened LoxValues

  datatype Option<T> = None | Some(value: T)

  /** The kinds of token, in declaration order. */
  datatype TokenType =
      // Single-character tokens
      LEFT_PAREN
    | RIGHT_PAREN
    | LEFT_BRACE
    | RIGHT_BRACE
    | COMMA
    | DOT
    | MINUS
    | PLUS
    | SEMICOLON
    | SLASH
    | STAR
      // One or two character tokens
    | BANG
    | BANG_EQUAL
    | EQUAL
    | EQUAL_EQUAL
    | GREATER
    | GREATER_EQUAL
    | LESS
    | LESS_EQUAL
      // Literals
    | IDENTIFIER
    | STRING
    | NUMBER
      // Keywords
    | AND
    | CLASS
    | ELSE
    | FALSE
    | FUN
    | FOR
    | IF
    | NIL
    | OR
    | PRINT
    | RETURN
    | SUPER
    | THIS
    | TRUE
    | VAR
    | WHILE
      // End of file
    | EOF

  /** How the declaration groups the kinds. */
  datatype Category = SingleCharacter | OneOrTwoCharacter | LiteralCategory | Keyword | EndOfFile

  /** The string value of each kind: its own member name. */
  function TypeName(t: TokenType): (s: string)
    ensures |s| > 0 && ' ' !in s
  {
    match t
    case LEFT_PAREN => "LEFT_PAREN"
    case RIGHT_PAREN => "RIGHT_PAREN"
    case LEFT_BRACE => "LEFT_BRACE"
    case RIGHT_BRACE => "RIGHT_BRACE"
    case COMMA => "COMMA"
    case DOT => "DOT"
    case MINUS => "MINUS"
    case PLUS => "PLUS"
    case SEMICOLON => "SEMICOLON"
    case SLASH => "SLASH"
    case STAR => "STAR"
    case BANG => "BANG"
    case BANG_EQUAL => "BANG_EQUAL"
    case EQUAL => "EQUAL"
    case EQUAL_EQUAL => "EQUAL_EQUAL"
    case GREATER => "GREATER"
    case GREATER_EQUAL => "GREATER_EQUAL"
    case LESS => "LESS"
    case LESS_EQUAL => "LESS_EQUAL"
    case IDENTIFIER => "IDENTIFIER"
    case STRING => "STRING"
    case NUMBER => "NUMBER"
    case AND => "AND"
    case CLASS => "CLASS"
    case ELSE => "ELSE"
    case FALSE => "FALSE"
    case FUN => "FUN"
    case FOR => "FOR"
    case IF => "IF"
    case NIL => "NIL"
    case OR => "OR"
    case PRINT => "PRINT"
    case RETURN => "RETURN"
    case SUPER => "SUPER"
    case THIS => "THIS"
    case TRUE => "TRUE"
    case VAR => "VAR"
    case WHILE => "WHILE"
    case EOF => "EOF"
  }

  /** The kind whose string value is `s`, if there is one, found by the
      length of `s` and then by characters that tell the candidates apart. */
  function FromName(s: string): (r: Option<TokenType>)
    ensures r.Some? ==> TypeName(r.value) == s
  {
    if |s| == 2 then FromName2(s)
    else if |s| == 3 then FromName3(s)
    else if |s| == 4 then FromName4(s)
    else if |s| == 5 then FromName5(s)
    else if |s| == 6 then FromName6(s)
    else if |s| == 7 then FromName7(s)
    else if |s| == 9 then FromName9(s)
    else if |s| == 10 then FromName10(s)
    else if |s| == 11 then FromName11(s)
    else if |s| == 13 then FromName13(s)
    else None
  }

  /** `FromName` for names of 2 characters (IF, OR). */
  function FromName2(s: string): (r: Option<TokenType>)
    requires |s| == 2
    ensures r.Some? ==> TypeName(r.value) == s
  {
    if s[0] == 'I' then
      if s == TypeName(IF) then Some(IF) else None
    else if s[0] == 'O' then
      if s == TypeName(OR) then Some(OR) else None
    else None
  }

  /** `FromName` for names of 3 characters (DOT, AND, FUN, FOR, NIL, VAR, EOF). */
  function FromName3(s: string): (r: Option<TokenType>)
    requires |s| == 3
    ensures r.Some? ==> TypeName(r.value) == s
  {
    if s[0] == 'D' then
      if s == TypeName(DOT) then Some(DOT) else None
    else if s[0] == 'A' then
      if s == TypeName(AND) then Some(AND) else None
    else if s[0] == 'F' then
      if s[1] == 'U' then
        if s == TypeName(FUN) then Some(FUN) else None
      else if s[1] == 'O' then
        if s == TypeName(FOR) then Some(FOR) else None
      else None
    else if s[0] == 'N' then
      if s == TypeName(NIL) then Some(NIL) else None
    else if s[0] == 'V' then
      if s == TypeName(VAR) then Some(VAR) else None
    else if s[0] == 'E' then
      if s == TypeName(EOF) then Some(EOF) else None
    else None
  }

  /** `FromName` for names of 4 characters (PLUS, STAR, BANG, LESS, ELSE, THIS, TRUE). */
  function FromName4(s: string): (r: Option<TokenType>)
    requires |s| == 4
    ensures r.Some? ==> TypeName(r.value) == s
  {
    if s[0] == 'P' then
      if s == TypeName(PLUS) then Some(PLUS) else None
    else if s[0] == 'S' then
      if s == TypeName(STAR) then Some(STAR) else None
    else if s[0] == 'B' then
      if s == TypeName(BANG) then Some(BANG) else None
    else if s[0] == 'L' then
      if s == TypeName(LESS) then Some(LESS) else None
    else if s[0] == 'E' then
      if s == TypeName(ELSE) then Some(ELSE) else None
    else if s[0] == 'T' then
      if s[1] == 'H' then
        if s == TypeName(THIS) then Some(THIS) else None
      else if s[1] == 'R' then
        if s == TypeName(TRUE) then Some(TRUE) else None
      else None
    else None
  }

  /** `FromName` for names of 5 characters (COMMA, MINUS, SLASH, EQUAL, CLASS, FALSE, PRINT, SUPER, WHILE). */
  function FromName5(s: string): (r: Option<TokenType>)
    requires |s| == 5
    ensures r.Some? ==> TypeName(r.value) == s
  {
    if s[1] == 'O' then
      if s == TypeName(COMMA) then Some(COMMA) else None
    else if s[1] == 'I' then
      if s == TypeName(MINUS) then Some(MINUS) else None
    else if s[1] == 'L' then
      if s[0] == 'S' then
        if s == TypeName(SLASH) then Some(SLASH) else None
      else if s[0] == 'C' then
        if s == TypeName(CLASS) then Some(CLASS) else None
      else None
    else if s[1] == 'Q' then
      if s == TypeName(EQUAL) then Some(EQUAL) else None
    else if s[1] == 'A' then
      if s == TypeName(FALSE) then Some(FALSE) else None
    else if s[1] == 'R' then
      if s == TypeName(PRINT) then Some(PRINT) else None
    else if s[1] == 'U' then
      if s == TypeName(SUPER) then Some(SUPER) else None
    else if s[1] == 'H' then
      if s == TypeName(WHILE) then Some(WHILE) else None
    else None
  }

  /** `FromName` for names of 6 characters (STRING, NUMBER, RETURN). */
  function FromName6(s: string): (r: Option<TokenType>)
    requires |s| == 6
    ensures r.Some? ==> TypeName(r.value) == s
  {
    if s[0] == 'S' then
      if s == TypeName(STRING) then Some(STRING) else None
    else if s[0] == 'N' then
      if s == TypeName(NUMBER) then Some(NUMBER) else None
    else if s[0] == 'R' then
      if s == TypeName(RETURN) then Some(RETURN) else None
    else None
  }

  /** `FromName` for names of 7 characters (GREATER). */
  function FromName7(s: string): (r: Option<TokenType>)
    requires |s| == 7
    ensures r.Some? ==> TypeName(r.value) == s
  {
    if s == TypeName(GREATER) then Some(GREATER) else None
  }

  /** `FromName` for names of 9 characters (SEMICOLON). */
  function FromName9(s: string): (r: Option<TokenType>)
    requires |s| == 9
    ensures r.Some? ==> TypeName(r.value) == s
  {
    if s == TypeName(SEMICOLON) then Some(SEMICOLON) else None
  }

  /** `FromName` for names of 10 characters (LEFT_PAREN, LEFT_BRACE, BANG_EQUAL, LESS_EQUAL, IDENTIFIER). */
  function FromName10(s: string): (r: Option<TokenType>)
    requires |s| == 10
    ensures r.Some? ==> TypeName(r.value) == s
  {
    if s[2] == 'F' then
      if s[5] == 'P' then
        if s == TypeName(LEFT_PAREN) then Some(LEFT_PAREN) else None
      else if s[5] == 'B' then
        if s == TypeName(LEFT_BRACE) then Some(LEFT_BRACE) else None
      else None
    else if s[2] == 'N' then
      if s == TypeName(BANG_EQUAL) then Some(BANG_EQUAL) else None
    else if s[2] == 'S' then
      if s == TypeName(LESS_EQUAL) then Some(LESS_EQUAL) else None
    else if s[2] == 'E' then
      if s == TypeName(IDENTIFIER) then Some(IDENTIFIER) else None
    else None
  }

  /** `FromName` for names of 11 characters (RIGHT_PAREN, RIGHT_BRACE, EQUAL_EQUAL). */
  function FromName11(s: string): (r: Option<TokenType>)
    requires |s| == 11
    ensures r.Some? ==> TypeName(r.value) == s
  {
    if s[6] == 'P' then
      if s == TypeName(RIGHT_PAREN) then Some(RIGHT_PAREN) else None
    else if s[6] == 'B' then
      if s == TypeName(RIGHT_BRACE) then Some(RIGHT_BRACE) else None
    else if s[6] == 'E' then
      if s == TypeName(EQUAL_EQUAL) then Some(EQUAL_EQUAL) else None
    else None
  }

  /** `FromName` for names of 13 characters (GREATER_EQUAL). */
  function FromName13(s: string): (r: Option<TokenType>)
    requires |s| == 13
    ensures r.Some? ==> TypeName(r.value) == s
  {
    if s == TypeName(GREATER_EQUAL) then Some(GREATER_EQUAL) else None
  }

  /** The position of each kind in the declaration. */
  function Ordinal(t: TokenType): (i: nat)
    ensures i < 39
  {
    match t
    case LEFT_PAREN => 0
    case RIGHT_PAREN => 1
    case LEFT_BRACE => 2
    case RIGHT_BRACE => 3
    case COMMA => 4
    case DOT => 5
    case MINUS => 6
    case PLUS => 7
    case SEMICOLON => 8
    case SLASH => 9
    case STAR => 10
    case BANG => 11
    case BANG_EQUAL => 12
    case EQUAL => 13
    case EQUAL_EQUAL => 14
    case GREATER => 15
    case GREATER_EQUAL => 16
    case LESS => 17
    case LESS_EQUAL => 18
    case IDENTIFIER => 19
    case STRING => 20
    case NUMBER => 21
    case AND => 22
    case CLASS => 23
    case ELSE => 24
    case FALSE => 25
    case FUN => 26
    case FOR => 27
    case IF => 28
    case NIL => 29
    case OR => 30
    case PRINT => 31
    case RETURN => 32
    case SUPER => 33
    case THIS => 34
    case TRUE => 35
    case VAR => 36
    case WHILE => 37
    case EOF => 38
  }

  function CategoryOf(t: TokenType): Category
  {
    match t
    case LEFT_PAREN | RIGHT_PAREN | LEFT_BRACE | RIGHT_BRACE | COMMA | DOT | MINUS | PLUS | SEMICOLON | SLASH | STAR =>
      SingleCharacter
    case BANG | BANG_EQUAL | EQUAL | EQUAL_EQUAL | GREATER | GREATER_EQUAL | LESS | LESS_EQUAL =>
      OneOrTwoCharacter
    case IDENTIFIER | STRING | NUMBER =>
      LiteralCategory
    case AND | CLASS | ELSE | FALSE | FUN | FOR | IF | NIL | OR | PRINT | RETURN | SUPER | THIS | TRUE | VAR | WHILE =>
      Keyword
    case EOF =>
      EndOfFile
  }

  const SingleCharacterKinds: seq<TokenType> := [LEFT_PAREN, RIGHT_PAREN, LEFT_BRACE, RIGHT_BRACE, COMMA, DOT, MINUS, PLUS, SEMICOLON, SLASH, STAR]
  const OneOrTwoCharacterKinds: seq<TokenType> := [BANG, BANG_EQUAL, EQUAL, EQUAL_EQUAL, GREATER, GREATER_EQUAL, LESS, LESS_EQUAL]
  const LiteralKinds: seq<TokenType> := [IDENTIFIER, STRING, NUMBER]
  const KeywordKinds: seq<TokenType> := [AND, CLASS, ELSE, FALSE, FUN, FOR, IF, NIL, OR, PRINT, RETURN, SUPER, THIS, TRUE, VAR, WHILE]

  /** Every kind, in declaration order. */
  const AllTokenTypes: seq<TokenType> :=
    SingleCharacterKinds + OneOrTwoCharacterKinds + LiteralKinds + KeywordKinds + [EOF]

  /** A scanned token: kind, source text, decoded literal value and 1-based
      line. The four fields are set when the token is built and never change. */
  datatype Token = Token(kind: TokenType, lexeme: string, literal: LoxObject, line: int)

  /** The token's debug text: kind, lexeme and literal, separated by single
      spaces, the literal in its template-literal form (so `null` for none). */
  function ToString(t: Token): (s: string)
  {
    TypeName(t.kind) + " " + t.lexeme + " " + Stringify(t.literal)
  }

  /** Splits `s` at its first space: the text before it and the text after it
      (everything, and nothing, when there is no space). */
  function SplitAtSpace(s: string): (r: (string, string))
    ensures ' ' !in r.0
    ensures |r.0| + |r.1| <= |s|
  {
    if s == [] then ([], [])
    else if s[0] == ' ' then ([], s[1..])
    else
      var (a, b) := SplitAtSpace(s[1..]);
      ([s[0]] + a, b)
  }

  /** Splitting a space-joined pair whose first half has no space gives the pair back. */
  lemma {:induction false} SplitAtSpaceJoin(a: string, b: string)
    requires ' ' !in a
    ensures SplitAtSpace(a + " " + b) == (a, b)
  {
    if a != [] {
      assert (a + " " + b)[0] == a[0] && a[0] != ' ';
      assert (a + " " + b)[1..] == a[1..] + " " + b;
      SplitAtSpaceJoin(a[1..], b);
      assert [a[0]] + a[1..] == a;
    } else {
      assert (a + " " + b)[1..] == b;
    }
  }

  /** Each kind's name leads back to that kind. */
  lemma NameRoundTrip(t: TokenType)
    ensures FromName(TypeName(t)) == Some(t)
  {
    if t in {IF, OR} { NameRoundTrip2(t); }
    else if t in {DOT, AND, FUN, FOR, NIL, VAR, EOF} { NameRoundTrip3(t); }
    else if t in {PLUS, STAR, BANG, LESS, ELSE, THIS, TRUE} { NameRoundTrip4(t); }
    else if t in {COMMA, MINUS, SLASH, EQUAL, CLASS, FALSE, PRINT, SUPER, WHILE} { NameRoundTrip5(t); }
    else if t in {STRING, NUMBER, RETURN} { NameRoundTrip6(t); }
    else if t in {GREATER} { NameRoundTrip7(t); }
    else if t in {SEMICOLON} { NameRoundTrip9(t); }
    else if t in {LEFT_PAREN, LEFT_BRACE, BANG_EQUAL, LESS_EQUAL, IDENTIFIER} { NameRoundTrip10(t); }
    else if t in {RIGHT_PAREN, RIGHT_BRACE, EQUAL_EQUAL} { NameRoundTrip11(t); }
    else { NameRoundTrip13(t); }
  }

  // The round trip for the kinds whose names have 2, 3, ... characters: one
  // lemma per branch of `FromName`, which keeps each proof small.

  lemma NameRoundTrip2(t: TokenType)
    requires t in {IF, OR}
    ensures FromName(TypeName(t)) == Some(t)
  {
    match t
    case IF =>
    case OR =>
  }

  lemma NameRoundTrip3(t: TokenType)
    requires t in {DOT, AND, FUN, FOR, NIL, VAR, EOF}
    ensures FromName(TypeName(t)) == Some(t)
  {
    match t
    case DOT =>
    case AND =>
    case FUN =>
    case FOR =>
    case NIL =>
    case VAR =>
    case EOF =>
  }

  lemma NameRoundTrip4(t: TokenType)
    requires t in {PLUS, STAR, BANG, LESS, ELSE, THIS, TRUE}
    ensures FromName(TypeName(t)) == Some(t)
  {
    match t
    case PLUS =>
    case STAR =>
    case BANG =>
    case LESS =>
    case ELSE =>
    case THIS =>
    case TRUE =>
  }

  lemma NameRoundTrip5(t: TokenType)
    requires t in {COMMA, MINUS, SLASH, EQUAL, CLASS, FALSE, PRINT, SUPER, WHILE}
    ensures FromName(TypeName(t)) == Some(t)
  {
    match t
    case COMMA =>
    case MINUS =>
    case SLASH =>
    case EQUAL =>
    case CLASS =>
    case FALSE =>
    case PRINT =>
    case SUPER =>
    case WHILE =>
  }

  lemma NameRoundTrip6(t: TokenType)
    requires t in {STRING, NUMBER, RETURN}
    ensures FromName(TypeName(t)) == Some(t)
  {
    match t
    case STRING =>
    case NUMBER =>
    case RETURN =>
  }

  lemma NameRoundTrip7(t: TokenType)
    requires t in {GREATER}
    ensures FromName(TypeName(t)) == Some(t)
  {
    match t
    case GREATER =>
  }

  lemma NameRoundTrip9(t: TokenType)
    requires t in {SEMICOLON}
    ensures FromName(TypeName(t)) == Some(t)
  {
    match t
    case SEMICOLON =>
  }

  lemma NameRoundTrip10(t: TokenType)
    requires t in {LEFT_PAREN, LEFT_BRACE, BANG_EQUAL, LESS_EQUAL, IDENTIFIER}
    ensures FromName(TypeName(t)) == Some(t)
  {
    match t
    case LEFT_PAREN =>
    case LEFT_BRACE =>
    case BANG_EQUAL =>
    case LESS_EQUAL =>
    case IDENTIFIER =>
  }

  lemma NameRoundTrip11(t: TokenType)
    requires t in {RIGHT_PAREN, RIGHT_BRACE, EQUAL_EQUAL}
    ensures FromName(TypeName(t)) == Some(t)
  {
    match t
    case RIGHT_PAREN =>
    case RIGHT_BRACE =>
    case EQUAL_EQUAL =>
  }

  lemma NameRoundTrip13(t: TokenType)
    requires t in {GREATER_EQUAL}
    ensures FromName(TypeName(t)) == Some(t)
  {
    match t
    case GREATER_EQUAL =>
  }

  /** `FromName` only answers with the kind that bears the name asked for. */
  lemma FromNameSound(s: string, t: TokenType)
    ensures FromName(s) == Some(t) <==> TypeName(t) == s
  {
    NameRoundTrip(t);
  }

  /** Different kinds have different string values. */
  lemma NameInjective(a: TokenType, b: TokenType)
    ensures TypeName(a) == TypeName(b) <==> a == b
  {
    NameRoundTrip(a);
    NameRoundTrip(b);
  }

  /** The enumeration is closed and has 39 distinct members: every kind sits
      in `AllTokenTypes` at its ordinal, and each position holds one kind. */
  lemma KindsEnumerated()
    ensures |AllTokenTypes| == 39
    ensures forall t :: AllTokenTypes[Ordinal(t)] == t
    ensures forall i :: 0 <= i < |AllTokenTypes| ==> Ordinal(AllTokenTypes[i]) == i
  {
    forall t ensures AllTokenTypes[Ordinal(t)] == t {
      KindAtOrdinal(t);
    }
    OrdinalAtIndex();
  }

  /** Every position of the declaration holds the kind of that ordinal. */
  lemma OrdinalAtIndex()
    ensures forall i :: 0 <= i < |AllTokenTypes| ==> Ordinal(AllTokenTypes[i]) == i
  {
    GroupOrdinals();
    var all := AllTokenTypes;
    forall i | 0 <= i < |all| ensures Ordinal(all[i]) == i {
      if i < 11 {
        assert all[i] == SingleCharacterKinds[i];
      } else if i < 19 {
        assert all[i] == OneOrTwoCharacterKinds[i - 11];
      } else if i < 22 {
        assert all[i] == LiteralKinds[i - 19];
      } else if i < 38 {
        assert all[i] == KeywordKinds[i - 22];
      }
    }
  }

  /** Each group lists its kinds at their ordinals, offset by the group's start. */
  lemma GroupOrdinals()
    ensures forall i :: 0 <= i < |SingleCharacterKinds| ==> Ordinal(SingleCharacterKinds[i]) == i
    ensures forall i :: 0 <= i < |OneOrTwoCharacterKinds| ==> Ordinal(OneOrTwoCharacterKinds[i]) == 11 + i
    ensures forall i :: 0 <= i < |LiteralKinds| ==> Ordinal(LiteralKinds[i]) == 19 + i
    ensures forall i :: 0 <= i < |KeywordKinds| ==> Ordinal(KeywordKinds[i]) == 22 + i
  {
    SingleCharacterOrdinals();
    KeywordOrdinalsFirstHalf();
    KeywordOrdinalsSecondHalf();
  }

  lemma SingleCharacterOrdinals()
    ensures forall i :: 0 <= i < |SingleCharacterKinds| ==> Ordinal(SingleCharacterKinds[i]) == i
  {
  }

  lemma KeywordOrdinalsFirstHalf()
    ensures forall i :: 0 <= i < 8 ==> Ordinal(KeywordKinds[i]) == 22 + i
  {
  }

  lemma KeywordOrdinalsSecondHalf()
    ensures forall i :: 8 <= i < 16 ==> Ordinal(KeywordKinds[i]) == 22 + i
  {
  }

  /** Every kind sits in the declaration at its ordinal. */
  lemma KindAtOrdinal(t: TokenType)
    ensures AllTokenTypes[Ordinal(t)] == t
  {
  }

  /** No kind is listed twice. */
  lemma KindsDistinct(i: int, j: int)
    requires 0 <= i < |AllTokenTypes| && 0 <= j < |AllTokenTypes|
    ensures AllTokenTypes[i] == AllTokenTypes[j] <==> i == j
  {
    KindsEnumerated();
  }

  /** Each category is a contiguous run of the declaration. */
  lemma CategoryByOrdinal(t: TokenType)
    ensures CategoryOf(t) == SingleCharacter <==> Ordinal(t) < 11
    ensures CategoryOf(t) == OneOrTwoCharacter <==> 11 <= Ordinal(t) < 19
    ensures CategoryOf(t) == LiteralCategory <==> 19 <= Ordinal(t) < 22
    ensures CategoryOf(t) == Keyword <==> 22 <= Ordinal(t) < 38
    ensures CategoryOf(t) == EndOfFile <==> Ordinal(t) == 38
  {
  }

  /** 11 single-character kinds, 8 one-or-two-character kinds, 3 literal
      categories, 16 keywords and exactly one end-of-file kind, each kind in
      the group its category names. */
  lemma CategoryCounts(t: TokenType)
    ensures |SingleCharacterKinds| == 11 && |OneOrTwoCharacterKinds| == 8
    ensures |LiteralKinds| == 3 && |KeywordKinds| == 16
    ensures CategoryOf(t) == SingleCharacter <==> t in SingleCharacterKinds
    ensures CategoryOf(t) == OneOrTwoCharacter <==> t in OneOrTwoCharacterKinds
    ensures CategoryOf(t) == LiteralCategory <==> t in LiteralKinds
    ensures CategoryOf(t) == Keyword <==> t in KeywordKinds
    ensures CategoryOf(t) == EndOfFile <==> t == EOF
  {
    KindsEnumerated();
    CategoryByOrdinal(t);
    CategoryByOrdinal(EOF);
    var all := AllTokenTypes;
    assert SingleCharacterKinds == all[..11];
    assert OneOrTwoCharacterKinds == all[11..19];
    assert LiteralKinds == all[19..22];
    assert KeywordKinds == all[22..38];
    InSlice(all, t, 0, 11);
    InSlice(all, t, 11, 19);
    InSlice(all, t, 19, 22);
    InSlice(all, t, 22, 38);
  }

  /** A kind lies in a slice of the declaration exactly when its ordinal does. */
  lemma InSlice(all: seq<TokenType>, t: TokenType, lo: nat, hi: nat)
    requires lo <= hi <= |all| && Ordinal(t) < |all| && all[Ordinal(t)] == t
    requires forall i :: 0 <= i < |all| ==> Ordinal(all[i]) == i
    ensures t in all[lo..hi] <==> lo <= Ordinal(t) < hi
  {
    if t in all[lo..hi] {
      var j :| 0 <= j < hi - lo && all[lo..hi][j] == t;
      assert all[lo + j] == t;
    }
    if lo <= Ordinal(t) < hi {
      assert all[lo..hi][Ordinal(t) - lo] == t;
    }
  }

  /** A token holds exactly the four values it was built from, and a token is
      determined by them. */
  lemma TokenConstruction(kind: TokenType, lexeme: string, literal: LoxObject, line: int, t: Token)
    ensures var u := Token(kind, lexeme, literal, line);
      u.kind == kind && u.lexeme == lexeme && u.literal == literal && u.line == line
    ensures t == Token(t.kind, t.lexeme, t.literal, t.line)
  {
  }

  /** The debug text reads back field by field: up to the first space is the
      kind's name (which names that kind); when the lexeme has no space, the
      next field is the lexeme and the remainder is the literal's text. */
  lemma {:induction false} ToStringFields(t: Token)
    ensures SplitAtSpace(ToString(t)) == (TypeName(t.kind), t.lexeme + " " + Stringify(t.literal))
    ensures FromName(SplitAtSpace(ToString(t)).0) == Some(t.kind)
    ensures ' ' !in t.lexeme ==>
      SplitAtSpace(SplitAtSpace(ToString(t)).1) == (t.lexeme, Stringify(t.literal))
  {
    var rest := t.lexeme + " " + Stringify(t.literal);
    assert ToString(t) == TypeName(t.kind) + " " + rest;
    SplitAtSpaceJoin(TypeName(t.kind), rest);
    NameRoundTrip(t.kind);
    if ' ' !in t.lexeme {
      SplitAtSpaceJoin(t.lexeme, Stringify(t.literal));
    }
  }

  /** A token without a literal prints its literal as `null`. */
  lemma ToStringExample()
    ensures ToString(Token(MINUS, "-", Nil, 1)) == "MINUS - null"
    ensures ToString(Token(NUMBER, "12", Num(12), 3)) == "NUMBER 12 12"
  {
  }
}
