/**
 The packed tables are the automaton of lexer.l: every state of the tables stands for a state of the automaton,
 accepts the same rule, stops where it stops, and steps where it steps.
 */
module FlexAutomaton {
  import opened Scanning
  import opened ShellLexer
  import opened FlexTables
  import Lexemes
  import Scanner

  /** The state of the automaton of lexer.l that a state of the tables stands for. */
  function Means(i: int): int {
    if i < 32 then
      if i < 16 then Means0(i) else Means16(i)
    else
      if i < 48 then
        Means32(i)
      else
        if i < 64 then Means48(i) else Means64(i)
  }

  function Means0(i: int): int {
    match i
    case 0 => 0 case 1 => 1 case 2 => 1 case 3 => 3 case 4 => 3 case 5 => 5 case 6 => 5 case 7 => 7 case 8 => 214
    case 9 => 201 case 10 => 202 case 11 => 11 case 12 => 121 case 13 => 203 case 14 => 131 case _ => 205
  }

  function Means16(i: int): int {
    match i
    case 16 => 206 case 17 => 207 case 18 => 141 case 19 => 211 case 20 => 13 case 21 => 123 case 22 => 133
    case 23 => 143 case 24 => 15 case 25 => 125 case 26 => 135 case 27 => 145 case 28 => 201 case 29 => 11
    case 30 => 21 case _ => 31
  }

  function Means32(i: int): int {
    match i
    case 32 => 41 case 33 => 21 case 34 => 51 case 35 => 204 case 36 => 31 case 37 => 61 case 38 => 208 case 39 => 209
    case 40 => 11 case 41 => 11 case 42 => 212 case 43 => 213 case 44 => 13 case 45 => 23 case 46 => 33 case _ => 43
  }

  function Means48(i: int): int {
    match i
    case 48 => 23 case 49 => 53 case 50 => 33 case 51 => 63 case 52 => 13 case 53 => 13 case 54 => 15 case 55 => 25
    case 56 => 35 case 57 => 45 case 58 => 25 case 59 => 55 case 60 => 35 case 61 => 65 case 62 => 15 case _ => 15
  }

  function Means64(i: int): int {
    match i
    case 64 => 21 case 65 => 21 case 66 => 31 case 67 => 31 case 68 => 210 case 69 => 23 case 70 => 23 case 71 => 33
    case 72 => 33 case 73 => 25 case 74 => 25 case 75 => 35 case 76 => 35 case _ => 0
  }

  predicate Stopping(s: int) { YyBase(s) == JAMBASE }

  /* ---- character classes ---- */

  function ClassOf(c: char): int { YyEc(c as int) }

  lemma ClassInRange(c: char)
    ensures IsClass(ClassOf(c))
  {
  }

  lemma LiteralsHaveClass(c: char)
    ensures Literal(c) <==> ClassOf(c) in {4, 8, 12}
  {
  }

  lemma SignsHaveClass(c: char)
    ensures Blank(c) <==> ClassOf(c) == 2
    ensures (c == NUL <==> ClassOf(c) == 0) && (c == '\n' <==> ClassOf(c) == 3) && (c == '"' <==> ClassOf(c) == 5)
    ensures (c == '&' <==> ClassOf(c) == 6) && (c == '\'' <==> ClassOf(c) == 7) && (c == ';' <==> ClassOf(c) == 9)
    ensures (c == '<' <==> ClassOf(c) == 10) && (c == '>' <==> ClassOf(c) == 11)
    ensures (c == '\\' <==> ClassOf(c) == 13) && (c == '|' <==> ClassOf(c) == 14)
  {
  }

  /* ---- the step ---- */

  function FlexDelta(s: int, c: char): int {
    ClassInRange(c);
    if IsState(s) then Packed(s, ClassOf(c)) else LAST_STATE
  }

  predicate LiteralClass(k: int) { k == 4 || k == 8 || k == 12 }

  /** At the beginning of a token. */
  function AtBeginning(k: int, literal: int, double: int, single: int, escape: int): int {
    if LiteralClass(k) then literal
    else match k
      case 0 => 7 case 1 => 8 case 2 => 9 case 3 => 10 case 5 => double case 6 => 13 case 7 => single
      case 9 => 15 case 10 => 16 case 11 => 17 case 13 => escape case _ => 19
  }

  /** In a word, outside quotes. */
  function InPlain(k: int, jam: int, literal: int, double: int, single: int, escape: int): int {
    if LiteralClass(k) then literal
    else match k case 0 => 7 case 5 => double case 7 => single case 13 => escape case _ => jam
  }

  /** Between quotes; `quote` is the class of the closing one. */
  function InQuotes(k: int, quote: int, jam: int, body: int, closed: int, escape: int): int {
    if k == quote then closed
    else if k == 13 then escape
    else if k == 0 then 7
    else if k == 1 || k == 6 || k == 9 || k == 14 then jam
    else body
  }

  /** Behind a backslash. */
  function Escaped(k: int, jam: int, next: int, ampersand: int): int {
    if k == 0 then 7 else if k == 1 then jam else if k == 6 then ampersand else next
  }

  /** In an operator that may go on. */
  function InOperator(k: int, jam: int, a: int, afterA: int, b: int, afterB: int): int {
    if k == 0 then 7 else if k == a then afterA else if k == b then afterB else jam
  }

  /** A state other than 1 without a row of its own owns no entry. */
  lemma NoRow(s: int, k: int)
    requires 1 < s < LAST_STATE && YyBase(s) == 0 && IsClass(k)
    ensures !Owns(s, k)
  {
    hide YyNxt, YyDef;
  }

  /** Row `s` starts at `b`, has the entry `next` for class `k` if it owns one, and else serves state `d`'s. */
  predicate Has(s: int, b: int, d: int, k: int, own: bool, next: int) {
    YyBase(s) == b && YyDef(s) == d && (YyChk(b + k) == s <==> own) && (own ==> YyNxt(b + k) == next)
  }

  /** The classes that a plain word may go on with. */
  predicate Plain(k: int) { LiteralClass(k) || k == 5 || k == 7 || k == 13 }

  /** The classes permitted between quotes. */
  predicate Quoted(k: int) { k != 0 && k != 1 && k != 6 && k != 9 && k != 14 }

  lemma BeginningEntries(k: int)
    requires IsClass(k)
    ensures Has(1, 0, 77, k, k != 0, AtBeginning(k, 11, 12, 14, 18))
    ensures Has(3, 11, 1, k, Plain(k), AtBeginning(k, 20, 21, 22, 23))
    ensures Has(5, 21, 3, k, Plain(k), AtBeginning(k, 24, 25, 26, 27))
  {
  }

  lemma PlainEntries(k: int)
    requires IsClass(k)
    ensures Has(11, 31, 77, k, Plain(k), InPlain(k, 77, 29, 30, 31, 32))
    ensures Has(20, 78, 77, k, Plain(k), InPlain(k, 77, 44, 45, 46, 47))
    ensures Has(24, 125, 77, k, Plain(k), InPlain(k, 77, 54, 55, 56, 57))
  {
  }

  lemma DoubleEntries(k: int)
    requires IsClass(k)
    ensures Has(12, 43, 77, k, Quoted(k), InQuotes(k, 5, 77, 33, 29, 34))
    ensures Has(21, 90, 77, k, Quoted(k), InQuotes(k, 5, 77, 48, 44, 49))
    ensures Has(25, 137, 77, k, Quoted(k), InQuotes(k, 5, 77, 58, 54, 59))
  {
  }

  lemma SingleEntries(k: int)
    requires IsClass(k)
    ensures Has(14, 55, 77, k, Quoted(k), InQuotes(k, 7, 77, 36, 29, 37))
    ensures Has(22, 102, 77, k, Quoted(k), InQuotes(k, 7, 77, 50, 44, 51))
    ensures Has(26, 149, 77, k, Quoted(k), InQuotes(k, 7, 77, 60, 54, 61))
  {
  }

  lemma EscapeEntries(k: int)
    requires IsClass(k)
    ensures Has(18, 67, 77, k, k > 1, Escaped(k, 77, 40, 41))
    ensures Has(23, 114, 77, k, k > 1, Escaped(k, 77, 52, 53))
    ensures Has(27, 161, 77, k, k > 1, Escaped(k, 77, 62, 63))
  {
  }

  lemma DoubleEscapeEntries(k: int)
    requires IsClass(k)
    ensures Has(34, 174, 77, k, k > 1, Escaped(k, 77, 64, 65))
    ensures Has(49, 200, 77, k, k > 1, Escaped(k, 77, 69, 70))
    ensures Has(59, 226, 77, k, k > 1, Escaped(k, 77, 73, 74))
  {
  }

  lemma SingleEscapeEntries(k: int)
    requires IsClass(k)
    ensures Has(37, 187, 77, k, k > 1, Escaped(k, 77, 66, 67))
    ensures Has(51, 213, 77, k, k > 1, Escaped(k, 77, 71, 72))
    ensures Has(61, 239, 77, k, k > 1, Escaped(k, 77, 75, 76))
  {
  }

  lemma BlankEntries(k: int)
    requires IsClass(k)
    ensures Has(7, 31, 77, k, k == 0, 77)
    ensures Has(9, 28, 77, k, k == 2, 28)
    ensures Has(28, 19, 77, k, k == 2, 28)
  {
  }

  lemma OperatorEntries(k: int)
    requires IsClass(k)
    ensures Has(13, 21, 77, k, k == 6, 35)
    ensures Has(17, 11, 77, k, k == 6 || k == 11, if k == 6 then 38 else 39)
    ensures Has(19, 26, 77, k, k == 6 || k == 14, if k == 6 then 42 else 43)
    ensures Has(39, 14, 77, k, k == 6, 68)
  {
  }

  lemma PackedHas(s: int, b: int, d: int, k: int, own: bool, next: int)
    requires IsState(s) && IsClass(k) && Has(s, b, d, k, own, next)
    ensures own ==> Packed(s, k) == next
    ensures !own ==> IsState(d) && Packed(s, k) == Packed(d, k)
  {
    hide YyNxt, YyChk, YyBase, YyDef, Rank;
    if !own {
      DefaultsEnd(s, k);
    }
  }

  lemma LastSteps(k: int)
    requires IsClass(k)
    ensures Packed(LAST_STATE, k) == if k == 0 then 7 else LAST_STATE
  {
    LastOwnsAll(k);
    hide YyChk, YyDef;
  }

  // What the rows say.

  lemma BeginningSteps(k: int)
    requires IsClass(k)
    ensures Packed(1, k) == AtBeginning(k, 11, 12, 14, 18)
    ensures Packed(3, k) == AtBeginning(k, 20, 21, 22, 23)
    ensures Packed(5, k) == AtBeginning(k, 24, 25, 26, 27)
  {
    hide Packed, YyNxt, YyChk, YyBase, YyDef, Has;
    BeginningEntries(k);
    LastSteps(k);
    PackedHas(1, 0, 77, k, k != 0, AtBeginning(k, 11, 12, 14, 18));
    PackedHas(3, 11, 1, k, Plain(k), AtBeginning(k, 20, 21, 22, 23));
    PackedHas(5, 21, 3, k, Plain(k), AtBeginning(k, 24, 25, 26, 27));
  }

  lemma PlainSteps(k: int)
    requires IsClass(k)
    ensures Packed(11, k) == InPlain(k, 77, 29, 30, 31, 32)
    ensures Packed(20, k) == InPlain(k, 77, 44, 45, 46, 47)
    ensures Packed(24, k) == InPlain(k, 77, 54, 55, 56, 57)
  {
    hide Packed, YyNxt, YyChk, YyBase, YyDef, Has;
    PlainEntries(k);
    LastSteps(k);
    PackedHas(11, 31, 77, k, Plain(k), InPlain(k, 77, 29, 30, 31, 32));
    PackedHas(20, 78, 77, k, Plain(k), InPlain(k, 77, 44, 45, 46, 47));
    PackedHas(24, 125, 77, k, Plain(k), InPlain(k, 77, 54, 55, 56, 57));
  }

  lemma DoubleSteps(k: int)
    requires IsClass(k)
    ensures Packed(12, k) == InQuotes(k, 5, 77, 33, 29, 34)
    ensures Packed(21, k) == InQuotes(k, 5, 77, 48, 44, 49)
    ensures Packed(25, k) == InQuotes(k, 5, 77, 58, 54, 59)
  {
    hide Packed, YyNxt, YyChk, YyBase, YyDef, Has;
    DoubleEntries(k);
    LastSteps(k);
    PackedHas(12, 43, 77, k, Quoted(k), InQuotes(k, 5, 77, 33, 29, 34));
    PackedHas(21, 90, 77, k, Quoted(k), InQuotes(k, 5, 77, 48, 44, 49));
    PackedHas(25, 137, 77, k, Quoted(k), InQuotes(k, 5, 77, 58, 54, 59));
  }

  lemma SingleSteps(k: int)
    requires IsClass(k)
    ensures Packed(14, k) == InQuotes(k, 7, 77, 36, 29, 37)
    ensures Packed(22, k) == InQuotes(k, 7, 77, 50, 44, 51)
    ensures Packed(26, k) == InQuotes(k, 7, 77, 60, 54, 61)
  {
    hide Packed, YyNxt, YyChk, YyBase, YyDef, Has;
    SingleEntries(k);
    LastSteps(k);
    PackedHas(14, 55, 77, k, Quoted(k), InQuotes(k, 7, 77, 36, 29, 37));
    PackedHas(22, 102, 77, k, Quoted(k), InQuotes(k, 7, 77, 50, 44, 51));
    PackedHas(26, 149, 77, k, Quoted(k), InQuotes(k, 7, 77, 60, 54, 61));
  }

  lemma EscapeSteps(k: int)
    requires IsClass(k)
    ensures Packed(18, k) == Escaped(k, 77, 40, 41)
    ensures Packed(23, k) == Escaped(k, 77, 52, 53)
    ensures Packed(27, k) == Escaped(k, 77, 62, 63)
  {
    hide Packed, YyNxt, YyChk, YyBase, YyDef, Has;
    EscapeEntries(k);
    LastSteps(k);
    PackedHas(18, 67, 77, k, k > 1, Escaped(k, 77, 40, 41));
    PackedHas(23, 114, 77, k, k > 1, Escaped(k, 77, 52, 53));
    PackedHas(27, 161, 77, k, k > 1, Escaped(k, 77, 62, 63));
  }

  lemma DoubleEscapeSteps(k: int)
    requires IsClass(k)
    ensures Packed(34, k) == Escaped(k, 77, 64, 65)
    ensures Packed(49, k) == Escaped(k, 77, 69, 70)
    ensures Packed(59, k) == Escaped(k, 77, 73, 74)
  {
    hide Packed, YyNxt, YyChk, YyBase, YyDef, Has;
    DoubleEscapeEntries(k);
    LastSteps(k);
    PackedHas(34, 174, 77, k, k > 1, Escaped(k, 77, 64, 65));
    PackedHas(49, 200, 77, k, k > 1, Escaped(k, 77, 69, 70));
    PackedHas(59, 226, 77, k, k > 1, Escaped(k, 77, 73, 74));
  }

  lemma SingleEscapeSteps(k: int)
    requires IsClass(k)
    ensures Packed(37, k) == Escaped(k, 77, 66, 67)
    ensures Packed(51, k) == Escaped(k, 77, 71, 72)
    ensures Packed(61, k) == Escaped(k, 77, 75, 76)
  {
    hide Packed, YyNxt, YyChk, YyBase, YyDef, Has;
    SingleEscapeEntries(k);
    LastSteps(k);
    PackedHas(37, 187, 77, k, k > 1, Escaped(k, 77, 66, 67));
    PackedHas(51, 213, 77, k, k > 1, Escaped(k, 77, 71, 72));
    PackedHas(61, 239, 77, k, k > 1, Escaped(k, 77, 75, 76));
  }

  lemma BlankSteps(k: int)
    requires IsClass(k)
    ensures Packed(7, k) == 77
    ensures Packed(9, k) == InOperator(k, 77, 2, 28, 2, 28)
    ensures Packed(28, k) == InOperator(k, 77, 2, 28, 2, 28)
  {
    hide Packed, YyNxt, YyChk, YyBase, YyDef, Has;
    BlankEntries(k);
    LastSteps(k);
    PackedHas(7, 31, 77, k, k == 0, 77);
    PackedHas(9, 28, 77, k, k == 2, 28);
    PackedHas(28, 19, 77, k, k == 2, 28);
  }

  lemma OperatorSteps(k: int)
    requires IsClass(k)
    ensures Packed(13, k) == InOperator(k, 77, 6, 35, 6, 35)
    ensures Packed(17, k) == InOperator(k, 77, 6, 38, 11, 39)
    ensures Packed(19, k) == InOperator(k, 77, 6, 42, 14, 43)
    ensures Packed(39, k) == InOperator(k, 77, 6, 68, 6, 68)
  {
    hide Packed, YyNxt, YyChk, YyBase, YyDef, Has;
    OperatorEntries(k);
    LastSteps(k);
    PackedHas(13, 21, 77, k, k == 6, 35);
    PackedHas(17, 11, 77, k, k == 6 || k == 11, if k == 6 then 38 else 39);
    PackedHas(19, 26, 77, k, k == 6 || k == 14, if k == 6 then 42 else 43);
    PackedHas(39, 14, 77, k, k == 6, 68);
  }

  /* ---- the rows of the automaton ---- */

  lemma DeltaPlain(x: int, c: char)
    requires IsStart(x)
    ensures Delta(10 * WORD_MODE + x, c)
      == InPlain(ClassOf(c), JAM, 10 * WORD_MODE + x, 10 * DOUBLE + x, 10 * SINGLE + x, 10 * ESCAPE + x)
  {
    hide Literal, Blank, ClassOf;
    LiteralsHaveClass(c);
    SignsHaveClass(c);
  }

  lemma DeltaDouble(x: int, m: int, c: char)
    requires IsStart(x) && (m == DOUBLE || m == FIRST + DOUBLE)
    ensures Delta(10 * m + x, c)
      == InQuotes(ClassOf(c), 5, JAM, 10 * DOUBLE + x, 10 * WORD_MODE + x, 10 * DOUBLE_ESCAPE + x)
  {
    hide Literal, Blank, ClassOf;
    ClassInRange(c);
    LiteralsHaveClass(c);
    SignsHaveClass(c);
  }

  lemma DeltaSingle(x: int, m: int, c: char)
    requires IsStart(x) && (m == SINGLE || m == FIRST + SINGLE)
    ensures Delta(10 * m + x, c)
      == InQuotes(ClassOf(c), 7, JAM, 10 * SINGLE + x, 10 * WORD_MODE + x, 10 * SINGLE_ESCAPE + x)
  {
    hide Literal, Blank, ClassOf;
    ClassInRange(c);
    LiteralsHaveClass(c);
    SignsHaveClass(c);
  }

  lemma DeltaEscape(x: int, m: int, c: char)
    requires IsStart(x) && (m == ESCAPE || m == FIRST + ESCAPE)
    ensures Delta(10 * m + x, c) == Escaped(ClassOf(c), JAM, 10 * WORD_MODE + x, 10 * WORD_MODE + x)
  {
    hide Literal, Blank, ClassOf;
    ClassInRange(c);
    LiteralsHaveClass(c);
    SignsHaveClass(c);
  }

  lemma DeltaQuotedEscape(x: int, c: char)
    requires IsStart(x)
    ensures Delta(10 * DOUBLE_ESCAPE + x, c) == Escaped(ClassOf(c), JAM, 10 * DOUBLE + x, 10 * DOUBLE + x)
    ensures Delta(10 * SINGLE_ESCAPE + x, c) == Escaped(ClassOf(c), JAM, 10 * SINGLE + x, 10 * SINGLE + x)
  {
    hide Literal, Blank, ClassOf;
    ClassInRange(c);
    LiteralsHaveClass(c);
    SignsHaveClass(c);
  }

  lemma DeltaOperator(c: char)
    ensures var k := ClassOf(c);
      && Delta(EOB, c) == JAM
      && Delta(BLANKS, c) == InOperator(k, JAM, 2, BLANKS, 2, BLANKS)
      && Delta(AMP, c) == InOperator(k, JAM, 6, AMP_AMP, 6, AMP_AMP)
      && Delta(GREATER, c) == InOperator(k, JAM, 6, GREATER_AMP, 11, GREATER_GREATER)
      && Delta(GREATER_GREATER, c) == InOperator(k, JAM, 6, GREATER_GREATER_AMP, 6, GREATER_GREATER_AMP)
      && Delta(BAR, c) == InOperator(k, JAM, 6, BAR_AMP, 14, BAR_BAR)
  {
    hide Literal, Blank, ClassOf;
    SignsHaveClass(c);
  }

  /* ---- what rows of the tables stand for ---- */

  lemma MeansEnds()
    ensures Means(7) == EOB && Means(LAST_STATE) == JAM
  {
  }

  lemma MeansPlain(k: int, a: int, b: int, c: int, d: int)
    requires IsState(a) && IsState(b) && IsState(c) && IsState(d)
    ensures IsState(InPlain(k, LAST_STATE, a, b, c, d))
    ensures Means(InPlain(k, LAST_STATE, a, b, c, d)) == InPlain(k, JAM, Means(a), Means(b), Means(c), Means(d))
  {
    MeansEnds();
    hide Means;
  }

  lemma MeansQuotes(k: int, q: int, a: int, b: int, c: int)
    requires IsState(a) && IsState(b) && IsState(c)
    ensures IsState(InQuotes(k, q, LAST_STATE, a, b, c))
    ensures Means(InQuotes(k, q, LAST_STATE, a, b, c)) == InQuotes(k, q, JAM, Means(a), Means(b), Means(c))
  {
    MeansEnds();
    hide Means;
  }

  lemma MeansEscaped(k: int, a: int, b: int)
    requires IsState(a) && IsState(b)
    ensures IsState(Escaped(k, LAST_STATE, a, b))
    ensures Means(Escaped(k, LAST_STATE, a, b)) == Escaped(k, JAM, Means(a), Means(b))
  {
    MeansEnds();
    hide Means;
  }

  lemma MeansOperator(k: int, p: int, a: int, q: int, b: int)
    requires IsState(a) && IsState(b)
    ensures IsState(InOperator(k, LAST_STATE, p, a, q, b))
    ensures Means(InOperator(k, LAST_STATE, p, a, q, b)) == InOperator(k, JAM, p, Means(a), q, Means(b))
  {
    MeansEnds();
    hide Means;
  }

  /* ---- the simulation ---- */

  /** The step of the tables from `s` stands for the step of the automaton. */
  predicate Goes(s: int, c: char) {
    IsState(FlexDelta(s, c)) && Means(FlexDelta(s, c)) == Delta(Means(s), c)
  }

  lemma BeginningGoes(c: char)
    ensures Goes(1, c) && Goes(3, c) && Goes(5, c)
  {
    hide Literal, Blank, Packed, YyEc;
    ClassInRange(c);
    LiteralsHaveClass(c);
    SignsHaveClass(c);
    BeginningSteps(ClassOf(c));
  }

  /** A row of plain words, for start state `x`. */
  lemma PlainRowGoes(s: int, x: int, c: char, literal: int, double: int, single: int, escape: int)
    requires IsState(s) && IsState(literal) && IsState(double) && IsState(single) && IsState(escape)
    requires IsClass(ClassOf(c))
    requires Packed(s, ClassOf(c)) == InPlain(ClassOf(c), LAST_STATE, literal, double, single, escape)
    requires IsStart(x) && Means(s) == Means(literal) == 10 * WORD_MODE + x && Means(double) == 10 * DOUBLE + x
    requires Means(single) == 10 * SINGLE + x && Means(escape) == 10 * ESCAPE + x
    ensures Goes(s, c)
  {
    hide Means, Delta, ClassOf, Packed, InPlain, IsStart;
    MeansPlain(ClassOf(c), literal, double, single, escape);
    DeltaPlain(x, c);
  }

  /** A row between double quotes. */
  lemma DoubleRowGoes(s: int, x: int, c: char, body: int, closed: int, escape: int)
    requires IsState(s) && IsState(body) && IsState(closed) && IsState(escape) && IsClass(ClassOf(c))
    requires Packed(s, ClassOf(c)) == InQuotes(ClassOf(c), 5, LAST_STATE, body, closed, escape)
    requires IsStart(x) && Means(s) == 10 * (FIRST + DOUBLE) + x && Means(body) == 10 * DOUBLE + x
    requires Means(closed) == 10 * WORD_MODE + x && Means(escape) == 10 * DOUBLE_ESCAPE + x
    ensures Goes(s, c)
  {
    hide Means, Delta, ClassOf, Packed, InQuotes, IsStart;
    MeansQuotes(ClassOf(c), 5, body, closed, escape);
    DeltaDouble(x, FIRST + DOUBLE, c);
  }

  /** A row between single quotes. */
  lemma SingleRowGoes(s: int, x: int, c: char, body: int, closed: int, escape: int)
    requires IsState(s) && IsState(body) && IsState(closed) && IsState(escape) && IsClass(ClassOf(c))
    requires Packed(s, ClassOf(c)) == InQuotes(ClassOf(c), 7, LAST_STATE, body, closed, escape)
    requires IsStart(x) && Means(s) == 10 * (FIRST + SINGLE) + x && Means(body) == 10 * SINGLE + x
    requires Means(closed) == 10 * WORD_MODE + x && Means(escape) == 10 * SINGLE_ESCAPE + x
    ensures Goes(s, c)
  {
    hide Means, Delta, ClassOf, Packed, InQuotes, IsStart;
    MeansQuotes(ClassOf(c), 7, body, closed, escape);
    DeltaSingle(x, FIRST + SINGLE, c);
  }

  /** A row behind a backslash: `m` is the mode it is in, `back` the one it goes back to. */
  lemma EscapeRowGoes(s: int, x: int, m: int, back: int, c: char, next: int, ampersand: int)
    requires IsState(s) && IsState(next) && IsState(ampersand) && IsClass(ClassOf(c))
    requires Packed(s, ClassOf(c)) == Escaped(ClassOf(c), LAST_STATE, next, ampersand)
    requires IsStart(x) && Means(s) == 10 * m + x && Means(next) == Means(ampersand) == 10 * back + x
    requires (m, back) in {(FIRST + ESCAPE, WORD_MODE), (DOUBLE_ESCAPE, DOUBLE), (SINGLE_ESCAPE, SINGLE)}
    ensures Goes(s, c)
  {
    hide Means, Delta, ClassOf, Packed, Escaped, IsStart;
    MeansEscaped(ClassOf(c), next, ampersand);
    if m == FIRST + ESCAPE {
      DeltaEscape(x, m, c);
    } else {
      DeltaQuotedEscape(x, c);
    }
  }

  lemma OperatorRowGoes(s: int, c: char, p: int, a: int, q: int, b: int)
    requires IsState(s) && IsState(a) && IsState(b) && IsClass(ClassOf(c))
    requires Packed(s, ClassOf(c)) == InOperator(ClassOf(c), LAST_STATE, p, a, q, b)
    requires Delta(Means(s), c) == InOperator(ClassOf(c), JAM, p, Means(a), q, Means(b))
    ensures Goes(s, c)
  {
    hide Means, Delta, ClassOf, Packed, InOperator;
    MeansOperator(ClassOf(c), p, a, q, b);
  }

  lemma PlainGoes(c: char)
    ensures Goes(11, c) && Goes(20, c) && Goes(24, c)
  {
    hide Goes, Packed, ClassOf, InPlain;
    ClassInRange(c);
    PlainSteps(ClassOf(c));
    PlainRowGoes(11, INITIAL, c, 29, 30, 31, 32);
    PlainRowGoes(20, PARAM, c, 44, 45, 46, 47);
    PlainRowGoes(24, FNAME, c, 54, 55, 56, 57);
  }

  lemma DoubleGoes(c: char)
    ensures Goes(12, c) && Goes(21, c) && Goes(25, c)
  {
    hide Goes, Packed, ClassOf, InQuotes;
    ClassInRange(c);
    DoubleSteps(ClassOf(c));
    DoubleRowGoes(12, INITIAL, c, 33, 29, 34);
    DoubleRowGoes(21, PARAM, c, 48, 44, 49);
    DoubleRowGoes(25, FNAME, c, 58, 54, 59);
  }

  lemma SingleGoes(c: char)
    ensures Goes(14, c) && Goes(22, c) && Goes(26, c)
  {
    hide Goes, Packed, ClassOf, InQuotes;
    ClassInRange(c);
    SingleSteps(ClassOf(c));
    SingleRowGoes(14, INITIAL, c, 36, 29, 37);
    SingleRowGoes(22, PARAM, c, 50, 44, 51);
    SingleRowGoes(26, FNAME, c, 60, 54, 61);
  }

  lemma EscapeGoes(c: char)
    ensures Goes(18, c) && Goes(23, c) && Goes(27, c)
  {
    hide Goes, Packed, ClassOf, Escaped;
    ClassInRange(c);
    EscapeSteps(ClassOf(c));
    EscapeRowGoes(18, INITIAL, FIRST + ESCAPE, WORD_MODE, c, 40, 41);
    EscapeRowGoes(23, PARAM, FIRST + ESCAPE, WORD_MODE, c, 52, 53);
    EscapeRowGoes(27, FNAME, FIRST + ESCAPE, WORD_MODE, c, 62, 63);
  }

  lemma DoubleEscapeGoes(c: char)
    ensures Goes(34, c) && Goes(49, c) && Goes(59, c)
  {
    hide Goes, Packed, ClassOf, Escaped;
    ClassInRange(c);
    DoubleEscapeSteps(ClassOf(c));
    EscapeRowGoes(34, INITIAL, DOUBLE_ESCAPE, DOUBLE, c, 64, 65);
    EscapeRowGoes(49, PARAM, DOUBLE_ESCAPE, DOUBLE, c, 69, 70);
    EscapeRowGoes(59, FNAME, DOUBLE_ESCAPE, DOUBLE, c, 73, 74);
  }

  lemma SingleEscapeGoes(c: char)
    ensures Goes(37, c) && Goes(51, c) && Goes(61, c)
  {
    hide Goes, Packed, ClassOf, Escaped;
    ClassInRange(c);
    SingleEscapeSteps(ClassOf(c));
    EscapeRowGoes(37, INITIAL, SINGLE_ESCAPE, SINGLE, c, 66, 67);
    EscapeRowGoes(51, PARAM, SINGLE_ESCAPE, SINGLE, c, 71, 72);
    EscapeRowGoes(61, FNAME, SINGLE_ESCAPE, SINGLE, c, 75, 76);
  }

  lemma BlankGoes(c: char)
    ensures Goes(7, c) && Goes(9, c) && Goes(28, c)
  {
    hide Packed, ClassOf, InOperator, Delta;
    ClassInRange(c);
    BlankSteps(ClassOf(c));
    DeltaOperator(c);
    assert Goes(7, c);
    hide Goes;
    OperatorRowGoes(9, c, 2, 28, 2, 28);
    OperatorRowGoes(28, c, 2, 28, 2, 28);
  }

  lemma OperatorGoes(c: char)
    ensures Goes(13, c) && Goes(17, c) && Goes(19, c) && Goes(39, c)
  {
    hide Goes, Packed, ClassOf, InOperator, Delta;
    ClassInRange(c);
    OperatorSteps(ClassOf(c));
    DeltaOperator(c);
    OperatorRowGoes(13, c, 6, 35, 6, 35);
    OperatorRowGoes(17, c, 6, 38, 11, 39);
    OperatorRowGoes(19, c, 6, 42, 14, 43);
    OperatorRowGoes(39, c, 6, 68, 6, 68);
  }

  /* ---- states without a row ---- */

  /** A state without a row steps like its default. */
  lemma TemplateGoes(s: int, c: char)
    requires 1 < s < LAST_STATE && YyBase(s) == 0 && IsState(YyDef(s)) && Goes(YyDef(s), c)
    requires Delta(Means(s), c) == Delta(Means(YyDef(s)), c)
    ensures Goes(s, c)
  {
    hide Means, Delta, ClassOf, Packed, Rank, YyNxt, YyChk, YyBase, YyDef;
    ClassInRange(c);
    NoRow(s, ClassOf(c));
    PackedHas(s, 0, YyDef(s), ClassOf(c), false, 0);
  }

  lemma PlainTemplatesGo(s: int, c: char)
    requires s in {2, 4, 6, 29, 40, 41, 44, 52, 53, 54, 62, 63}
    ensures Goes(s, c)
  {
    hide Goes, Delta, ClassOf, YyNxt, YyChk;
    BeginningGoes(c);
    PlainGoes(c);
    TemplateGoes(s, c);
  }

  lemma DoubleTemplatesGo(s: int, c: char)
    requires s in {30, 33, 64, 65, 45, 48, 69, 70, 55, 58, 73, 74}
    ensures Goes(s, c)
  {
    hide Goes, Delta, ClassOf, InQuotes, YyNxt, YyChk;
    DoubleGoes(c);
    var x := if s in {30, 33, 64, 65} then INITIAL else if s in {45, 48, 69, 70} then PARAM else FNAME;
    DeltaDouble(x, DOUBLE, c);
    DeltaDouble(x, FIRST + DOUBLE, c);
    TemplateGoes(s, c);
  }

  lemma SingleTemplatesGo(s: int, c: char)
    requires s in {31, 36, 66, 67, 46, 50, 71, 72, 56, 60, 75, 76}
    ensures Goes(s, c)
  {
    hide Goes, Delta, ClassOf, InQuotes, YyNxt, YyChk;
    SingleGoes(c);
    var x := if s in {31, 36, 66, 67} then INITIAL else if s in {46, 50, 71, 72} then PARAM else FNAME;
    DeltaSingle(x, SINGLE, c);
    DeltaSingle(x, FIRST + SINGLE, c);
    TemplateGoes(s, c);
  }

  lemma EscapeTemplatesGo(s: int, c: char)
    requires s in {32, 47, 57}
    ensures Goes(s, c)
  {
    hide Goes, Delta, ClassOf, Escaped, YyNxt, YyChk;
    EscapeGoes(c);
    var x := if s == 32 then INITIAL else if s == 47 then PARAM else FNAME;
    DeltaEscape(x, ESCAPE, c);
    DeltaEscape(x, FIRST + ESCAPE, c);
    TemplateGoes(s, c);
  }

  /** Wherever matching goes on, the tables and the automaton take the same step. */
  lemma StepStandsFor(s: int, c: char)
    requires IsState(s) && !Stopping(s)
    ensures IsState(FlexDelta(s, c)) && Means(FlexDelta(s, c)) == Delta(Means(s), c)
  {
    assert Goes(s, c) by {
      hide Goes;
      if s in {1, 3, 5} { BeginningGoes(c); }
      else if s in {11, 20, 24} { PlainGoes(c); }
      else if s in {12, 21, 25} { DoubleGoes(c); }
      else if s in {14, 22, 26} { SingleGoes(c); }
      else if s in {18, 23, 27} { EscapeGoes(c); }
      else if s in {34, 49, 59} { DoubleEscapeGoes(c); }
      else if s in {37, 51, 61} { SingleEscapeGoes(c); }
      else if s in {7, 9, 28} { BlankGoes(c); }
      else if s in {13, 17, 19, 39} { OperatorGoes(c); }
      else if s in {2, 4, 6, 29, 40, 41, 44, 52, 53, 54, 62, 63} { PlainTemplatesGo(s, c); }
      else if s in {30, 33, 64, 65, 45, 48, 69, 70, 55, 58, 73, 74} { DoubleTemplatesGo(s, c); }
      else if s in {31, 36, 66, 67, 46, 50, 71, 72, 56, 60, 75, 76} { SingleTemplatesGo(s, c); }
      else if s in {32, 47, 57} { EscapeTemplatesGo(s, c); }
    }
  }

  /** A state accepts what it stands for accepts. */
  lemma AcceptsAlike(s: int)
    requires IsState(s)
    ensures YyAccept(s) == Accept(Means(s))
    ensures Means(s) == EOB <==> s == 7
  {
  }

  /** Matching stops where it stops in what the state stands for. */
  lemma StopsAlike(s: int)
    requires IsState(s)
    ensures Stopping(s) <==> Stops(Means(s))
  {
  }

  /** The inner loop of the match: follow the defaults to the row that has the entry. */
  method NextState(state: int, c: char) returns (next: int)
    requires IsState(state) && !Stopping(state)
    ensures next == FlexDelta(state, c)
    ensures IsState(next) && Means(next) == Delta(Means(state), c)
  {
    hide YyNxt, YyChk, YyBase, YyDef, YyEc, Rank, Means, Delta;
    ClassInRange(c);
    StepStandsFor(state, c);
    var current, k := state, ClassOf(c);
    while YyChk(YyBase(current) + k) != current
      invariant IsState(current) && k == ClassOf(c) && Row(current, k) == Row(state, k)
      decreases Rank(current)
    {
      DefaultsEnd(current, k);
      current := YyDef(current);
      if current >= LAST_STATE + 1 {
        k := YyMeta(k);
      }
    }
    next := YyNxt(YyBase(current) + k);
  }

  /* ---- the same tokens ---- */

  function FlexAccept(s: int): int { if IsState(s) then YyAccept(s) else 0 }

  predicate FlexStop(s: int) { !IsState(s) || Stopping(s) }

  const FLEX: Dfa := Dfa((s, c) => FlexDelta(s, c), s => FlexAccept(s), s => FlexStop(s), 7)

  lemma StartsMeanThemselves(s: int)
    requires s in STARTS
    ensures IsState(s) && Means(s) == s
  {
  }

  /** The tables have what the scanner loop relies on. */
  lemma FlexSound()
    ensures SoundRules(FLEX, RULES, STARTS)
  {
    AutomatonSound();
    hide Delta, Stops, Accept, Means, Stopping, YyAccept, FlexDelta;
    var d := FLEX;
    forall s | IsState(s) ensures FlexAccept(s) == Accept(Means(s)) && FlexStop(s) == Stops(Means(s)) {
      AcceptsAlike(s);
      StopsAlike(s);
    }
    forall s | IsState(s) ensures Means(s) == EOB <==> s == 7 { AcceptsAlike(s); }
    forall s, c | !d.stop(s) ensures IsState(d.delta(s, c)) && Means(d.delta(s, c)) == AUTOMATON.delta(Means(s), c) {
      StepStandsFor(s, c);
    }
    forall s | s in STARTS ensures IsState(s) && Means(s) == s { StartsMeanThemselves(s); }
    forall s | !d.stop(s) && s != d.eob ensures d.delta(s, NUL) == d.eob {
      assert !AUTOMATON.stop(Means(s)) && Means(s) != EOB;
    }
    forall s, c | c != NUL && !d.stop(s) && s != d.eob
      ensures d.delta(s, c) != d.eob && d.accept(d.delta(s, c)) != YY_END_OF_BUFFER
    {
      assert !AUTOMATON.stop(Means(s)) && Means(s) != EOB;
    }
    assert Means(7) == EOB;
    forall s, c | s in STARTS && c != NUL ensures d.accept(d.delta(s, c)) != 0 {
      assert AUTOMATON.accept(AUTOMATON.delta(s, c)) != 0;
      assert !d.stop(s);
    }
    forall s ensures d.accept(s) != YY_STATE_EOF {
      assert AUTOMATON.accept(Means(s)) != YY_STATE_EOF;
    }
    forall act, s | s in STARTS ensures RULES.begin(act, s) in STARTS {
      BeginInStarts(AUTOMATON, RULES, STARTS, act, s);
    }
  }

  /** While matching goes on, the tables are in a state that stands for the automaton's. */
  lemma {:induction false} StatesAlike(s: int, w: seq<char>, k: nat)
    requires s in STARTS && k <= |w| && NoStop(FLEX, s, w, k)
    ensures IsState(State(FLEX, s, w, k)) && Means(State(FLEX, s, w, k)) == State(AUTOMATON, s, w, k)
    ensures NoStop(AUTOMATON, s, w, k) && Last(FLEX, s, w, k) == Last(AUTOMATON, s, w, k)
  {
    hide FlexDelta, Delta, Means, YyAccept, Accept, Stops, Stopping;
    if k == 0 {
      StartsMeanThemselves(s);
    } else {
      var t := State(FLEX, s, w, k - 1);
      StatesAlike(s, w, k - 1);
      assert !FLEX.stop(t);
      StepStandsFor(t, w[k - 1]);
      AcceptsAlike(t);
      StopsAlike(t);
    }
  }

  /** Both find the same match. */
  lemma HeadsAlike(s: int, w: seq<char>)
    requires s in STARTS
    ensures Head(FLEX, s, w) == Head(AUTOMATON, s, w)
  {
    hide FlexDelta, Delta, Means, YyAccept, Accept, Stops, Stopping, State, Last, StopAt;
    var k := StopAt(FLEX, s, w, 0);
    StopIsFirst(FLEX, s, w, 0);
    StatesAlike(s, w, k);
    AcceptsAlike(State(FLEX, s, w, k));
    StopsAlike(State(FLEX, s, w, k));
    StopIs(AUTOMATON, s, w, 0, k);
    var n := MatchLength(FLEX, s, w);
    if n >= 0 {
      StatesAlike(s, w, n);
      AcceptsAlike(State(FLEX, s, w, n));
    }
  }

  lemma {:induction false} NextTokensAlike(s: int, w: seq<char>)
    requires Scannable(FLEX, RULES, STARTS, s, w) && Scannable(AUTOMATON, RULES, STARTS, s, w)
    ensures NextToken(FLEX, RULES, STARTS, s, w) == NextToken(AUTOMATON, RULES, STARTS, s, w)
    decreases |w|
  {
    hide Sound, Head;
    HeadsAlike(s, w);
    HeadShrinks(FLEX, RULES, STARTS, s, w);
    HeadShrinks(AUTOMATON, RULES, STARTS, s, w);
    var h := Head(FLEX, s, w);
    if !RULES.emits(h.act) && w != [] {
      NextTokensAlike(RULES.begin(h.act, s), w[|h.text|..]);
    }
  }

  /** On every stream, from every start condition, flex's tables yield the tokens of the rules of lexer.l. */
  lemma {:induction false} TokensAlike(s: int, w: seq<char>)
    requires s in STARTS && NoNul(w)
    ensures Scannable(FLEX, RULES, STARTS, s, w) && Scannable(AUTOMATON, RULES, STARTS, s, w)
    ensures Tokens(FLEX, RULES, STARTS, s, w) == Tokens(AUTOMATON, RULES, STARTS, s, w)
    decreases |w|
  {
    hide SoundRules, NextToken;
    FlexSound();
    AutomatonSound();
    NextTokensAlike(s, w);
    NextTokenShrinks(FLEX, RULES, STARTS, s, w);
    var (h, next, rest) := NextToken(FLEX, RULES, STARTS, s, w);
    if h.act != YY_STATE_EOF && |rest| < |w| {
      TokensAlike(next, rest);
    }
  }

  /** The scanner of lex.yy.c over its own tables, on a file of any contents read into a buffer of any size. */
  method ScanFile(start: int, size: nat, file: seq<char>) returns (tokens: seq<Lexeme>)
    requires start in STARTS && NoNul(file) && 1 <= size
    ensures Scannable(AUTOMATON, RULES, STARTS, start, file)
    ensures tokens == Tokens(AUTOMATON, RULES, STARTS, start, file)
    ensures Lexemes.Lexed(start, file, tokens)
  {
    hide SoundRules, Tokens, Lexemes.Lexed;
    TokensAlike(start, file);
    Lexemes.TokensAreLexed(start, file);
    var scanner := new Scanner.Scanner(FLEX, RULES, STARTS, start, size, file);
    tokens := scanner.ScanAll();
  }
}
