/** The token scanner of parser.py (class ImpLexer): an ordered, first-match
    rule table over the source text, with blanks skipped, runs of newlines
    counted into the line number, single-character literals, and a failure on
    any other character. */
module Lexer {
  import opened Wrappers

  /** Token kinds: the named tokens of the token set, and one kind per
      single-character literal. */
  datatype Kind =
    | DefKw | WithKw | MainKw | IntKw | FloatKw
    | IfKw | ElseKw | WhileKw | ForKw | FromKw | ToKw | DowntoKw
    | ReadKw | WriteKw | CallKw
    | Begin | End
    | Equals | NotEquals | Greater | Less | GreaterEq | LessEq | Gets
    | Pid | NumFloat | NumInt
    | Lit(c: char)

  /** The value a token carries: its text, or the converted number. A float
      keeps its text (no floating-point conversion is modelled). */
  datatype TokenValue = Text(s: string) | IntValue(n: nat) | FloatValue(digits: string)

  /** A token with the line it starts on and its index in the text. */
  datatype Token = Token(kind: Kind, value: TokenValue, line: nat, index: nat)

  /** How the token stream stops: at the end of the text, or at a character
      no rule accepts (that character and its line). */
  datatype End = AtEof | AtIllegal(ch: char, line: nat, index: nat)

  datatype Stream = Stream(toks: seq<Token>, end: End)

  /** One entry of the rule table; each has a regular expression in the source. */
  datatype Rule =
    | NewlineRun                       // \n+ , ignored, counted into the line
    | Fixed(kind: Kind, word: string)  // a keyword or operator spelled out
    | Identifier                       // [_a-z]+
    | FloatNumber                      // \d+\.\d+
    | IntNumber                        // \d+

  /** The number of rules in the table. */
  const RuleCount: nat := 28

  /** The rules in the order the class body defines them; the first rule that
      matches at the current index wins. */
  function RuleAt(k: nat): Rule
    requires k < RuleCount
  {
    match k
    case 0 => NewlineRun
    case 1 => Fixed(DefKw, "def")
    case 2 => Fixed(WithKw, "with")
    case 3 => Fixed(Begin, "{")
    case 4 => Fixed(IntKw, "int")
    case 5 => Fixed(FloatKw, "float")
    case 6 => Fixed(End, "}")
    case 7 => Fixed(WhileKw, "while")
    case 8 => Fixed(ForKw, "for")
    case 9 => Fixed(IfKw, "if")
    case 10 => Fixed(ElseKw, "else")
    case 11 => Fixed(DowntoKw, "downto")
    case 12 => Fixed(ToKw, "to")
    case 13 => Fixed(FromKw, "from")
    case 14 => Fixed(ReadKw, "read")
    case 15 => Fixed(WriteKw, "write")
    case 16 => Fixed(CallKw, "call")
    case 17 => Fixed(NotEquals, "!=")
    case 18 => Fixed(GreaterEq, ">=")
    case 19 => Fixed(LessEq, "<=")
    case 20 => Fixed(Equals, "==")
    case 21 => Fixed(Greater, ">")
    case 22 => Fixed(Less, "<")
    case 23 => Fixed(Gets, "=")
    case 24 => Fixed(MainKw, "main")
    case 25 => Identifier
    case 26 => FloatNumber
    case _ => IntNumber
  }

  /** The rule indices of the fifteen reserved words. */
  predicate IsReservedRule(k: nat)
  {
    k in {1, 2, 4, 5, 7, 8, 9, 10, 11, 12, 13, 14, 15, 16, 24}
  }

  /** Characters skipped one at a time before any rule is tried. */
  const Ignored: set<char> := {' ', '\t'}

  /** Characters that become a token of their own when no rule matches. */
  const Literals: set<char> := {'+', '-', '*', '/', '%', ',', ';', '[', ']', '(', ')'}

  predicate IsDigit(c: char) { '0' <= c <= '9' }

  predicate IsIdentChar(c: char) { c == '_' || 'a' <= c <= 'z' }

  datatype CharClass = Newline | IdentChars | Digits

  predicate InClass(c: char, k: CharClass)
  {
    match k
    case Newline => c == '\n'
    case IdentChars => IsIdentChar(c)
    case Digits => IsDigit(c)
  }

  /** The length of the longest run of class `k` starting at `i`: what a
      greedy `X+` consumes (zero when it does not match). */
  function RunLength(text: string, i: nat, k: CharClass): (n: nat)
    requires i <= |text|
    ensures i + n <= |text|
    decreases |text| - i
  {
    if i < |text| && InClass(text[i], k) then 1 + RunLength(text, i + 1, k) else 0
  }

  /** A run is all of class `k` and cannot be extended: the greedy match. */
  lemma {:induction false} RunLengthRun(text: string, i: nat, k: CharClass)
    requires i <= |text|
    ensures var n := RunLength(text, i, k);
      && (forall j :: i <= j < i + n ==> InClass(text[j], k))
      && (i + n == |text| || !InClass(text[i + n], k))
    decreases |text| - i
  {
    if i < |text| && InClass(text[i], k) {
      RunLengthRun(text, i + 1, k);
    }
  }

  predicate StartsWith(text: string, i: nat, w: string)
  {
    i + |w| <= |text| && text[i..i + |w|] == w
  }

  /** How many characters rule `r` matches at `i`; zero means no match. */
  function MatchLength(r: Rule, text: string, i: nat): (n: nat)
    requires i <= |text|
    ensures i + n <= |text|
  {
    match r
    case NewlineRun => RunLength(text, i, Newline)
    case Fixed(_, w) => if StartsWith(text, i, w) then |w| else 0
    case Identifier => RunLength(text, i, IdentChars)
    case FloatNumber =>
      var a := RunLength(text, i, Digits);
      if 0 < a && i + a < |text| && text[i + a] == '.' then
        var b := RunLength(text, i + a + 1, Digits);
        if 0 < b then a + 1 + b else 0
      else 0
    case IntNumber => RunLength(text, i, Digits)
  }

  /** The first rule, from index `k` of the table on, that matches at `i`. */
  function FirstRuleFrom(text: string, i: nat, k: nat): (m: Option<Rule>)
    requires i <= |text| && k <= RuleCount
    ensures m.Some? ==> 0 < MatchLength(m.value, text, i)
    decreases RuleCount - k, |text|
  {
    if k == RuleCount then None
    else if 0 < MatchLength(RuleAt(k), text, i) then Some(RuleAt(k))
    else FirstRuleFrom(text, i, k + 1)
  }

  /** The value of a run of decimal digits, as Python's `int()` reads it. */
  function DigitsValue(s: string): nat
  {
    if |s| == 0 then 0 else 10 * DigitsValue(s[..|s| - 1]) + DigitOf(s[|s| - 1])
  }

  function DigitOf(c: char): nat
  {
    if IsDigit(c) then c as int - '0' as int else 0
  }

  /** The token a (non-newline) rule produces from the matched text; the two
      number rules convert their text as their actions do. */
  function MakeToken(r: Rule, lexeme: string, line: nat, index: nat): (t: Token)
    requires !r.NewlineRun?
    ensures t.line == line && t.index == index
  {
    match r
    case Fixed(kind, _) => Token(kind, Text(lexeme), line, index)
    case Identifier => Token(Pid, Text(lexeme), line, index)
    case FloatNumber => Token(NumFloat, FloatValue(lexeme), line, index)
    case IntNumber => Token(NumInt, IntValue(DigitsValue(lexeme)), line, index)
  }

  function Prepend(t: Token, s: Stream): Stream
  {
    Stream([t] + s.toks, s.end)
  }

  /** `toks` followed by the stream `s`. */
  function Join(toks: seq<Token>, s: Stream): Stream
  {
    Stream(toks + s.toks, s.end)
  }

  /** What the master pattern does at one index: a newline run to count, a
      token to emit, or no match at all. */
  datatype Move = NewlineMove(n: nat) | EmitMove(tok: Token, n: nat) | NoMatch

  /** One attempt of the master pattern at `i`: the first matching rule. */
  function MasterMatch(text: string, i: nat, line: nat): (mv: Move)
    requires i <= |text|
    ensures mv.NewlineMove? ==> 0 < mv.n && i + mv.n <= |text|
    ensures mv.EmitMove? ==> 0 < mv.n && i + mv.n <= |text| && mv.tok.line == line && mv.tok.index == i
  {
    match FirstRuleFrom(text, i, 0)
    case Some(r) => RuleMove(r, text, i, line)
    case None => NoMatch
  }

  /** The move of a rule that matched at `i`: a newline run, or the token the
      rule makes of the text it matched. */
  function RuleMove(r: Rule, text: string, i: nat, line: nat): (mv: Move)
    requires i <= |text|
    ensures !mv.NoMatch? && mv.n == MatchLength(r, text, i)
  {
    var n := MatchLength(r, text, i);
    if r.NewlineRun? then NewlineMove(n)
    else EmitMove(MakeToken(r, text[i..i + n], line, i), n)
  }

  /** The token stream of `text` from index `i` on, with `line` the current
      line number: blanks are skipped; otherwise the first matching rule
      decides, a newline run only advancing the line; otherwise a literal
      character is a token of its own; otherwise the stream stops there. */
  function Scan(text: string, i: nat, line: nat): Stream
    requires i <= |text|
    decreases |text| - i
  {
    if i == |text| then Stream([], AtEof)
    else if text[i] in Ignored then Scan(text, i + 1, line)
    else match MasterMatch(text, i, line)
      case NewlineMove(n) => Scan(text, i + n, line + n)
      case EmitMove(t, n) => Prepend(t, Scan(text, i + n, line))
      case NoMatch =>
        if text[i] in Literals then Prepend(Token(Lit(text[i]), Text([text[i]]), line, i), Scan(text, i + 1, line))
        else Stream([], AtIllegal(text[i], line, i))
  }

  /** The number of newline characters in `text[i..j]`. */
  function Newlines(text: string, i: nat, j: nat): nat
    requires i <= j <= |text|
    decreases j - i
  {
    if i == j then 0 else Newlines(text, i, j - 1) + (if text[j - 1] == '\n' then 1 else 0)
  }

  /** The lexer object: the scan position and the line counter it updates. */
  class ImpLexer {
    var lineno: nat
    var index: nat

    constructor ()
      ensures lineno == 1 && index == 0
    {
      lineno := 1;
      index := 0;
    }

    /** The action of the newline rule: a run of `n` newlines advances the line counter by `n`. */
    method IgnoreNewline(n: nat)
      modifies this`lineno
      ensures lineno == old(lineno) + n
    {
      lineno := lineno + n;
    }

    /** Tokenizes the whole text from index 0 and line 1, stopping at the
        first character no rule, literal or blank accepts. */
    method Tokenize(text: string) returns (out: Stream)
      modifies this
      ensures out == Scan(text, 0, 1)
      ensures index <= |text| && lineno == 1 + Newlines(text, 0, index)
      ensures out.end.AtEof? ==> index == |text|
      ensures out.end.AtIllegal? ==> index < |text| && out.end == AtIllegal(text[index], lineno, index)
    {
      // The scan runs on local copies, as the generator in the source does,
      // handing the line counter to the newline action and taking it back.
      var i: nat, line: nat := 0, 1;
      var toks: seq<Token> := [];
      ScanStart(text);
      while i < |text|
        invariant Scanned(text, toks, i, line)
        decreases |text| - i
      {
        var c := text[i];
        if c in Ignored {
          ScanSkip(text, toks, i, line);
          i := i + 1;
        } else {
          var mv := MasterMatch(text, i, line);
          match mv
          case NewlineMove(n) =>
            ScanNewlines(text, toks, i, line, n);
            i := i + n;
            lineno := line;
            IgnoreNewline(n);
            line := lineno;
          case EmitMove(t, n) =>
            ScanEmit(text, toks, i, line, t, n);
            toks := toks + [t];
            i := i + n;
          case NoMatch =>
            if c in Literals {
              ScanLiteral(text, toks, i, line);
              toks := toks + [Token(Lit(c), Text([c]), line, i)];
              i := i + 1;
            } else {
              ScanIllegal(text, toks, i, line);
              index, lineno := i, line;
              out := Stream(toks, AtIllegal(c, line, i));
              return;
            }
        }
      }
      ScanDone(text, toks, i, line);
      index, lineno := i, line;
      out := Stream(toks, AtEof);
    }
  }

  /** The loop invariant of the scan: `toks` followed by the stream from `i`
      on is the whole stream, and `line` counts the newlines before `i`. */
  ghost predicate Scanned(text: string, toks: seq<Token>, i: nat, line: nat)
  {
    && i <= |text|
    && line == 1 + Newlines(text, 0, i)
    && Scan(text, 0, 1) == Join(toks, Scan(text, i, line))
  }

  lemma ScanStart(text: string)
    ensures Scanned(text, [], 0, 1)
  {
  }

  lemma ScanDone(text: string, toks: seq<Token>, i: nat, line: nat)
    requires Scanned(text, toks, i, line) && |text| <= i
    ensures i == |text| && Scan(text, 0, 1) == Stream(toks, AtEof)
  {
  }

  lemma ScanSkip(text: string, toks: seq<Token>, i: nat, line: nat)
    requires Scanned(text, toks, i, line) && i < |text| && text[i] in Ignored
    ensures Scanned(text, toks, i + 1, line)
  {
    LinesAcross(text, i, i + 1);
  }

  lemma ScanNewlines(text: string, toks: seq<Token>, i: nat, line: nat, n: nat)
    requires Scanned(text, toks, i, line) && i < |text| && text[i] !in Ignored
    requires MasterMatch(text, i, line) == NewlineMove(n)
    ensures Scanned(text, toks, i + n, line + n)
  {
    MasterMatchNewlines(text, i, line);
    NewlinesAt(text, i, line, n);
  }

  lemma ScanEmit(text: string, toks: seq<Token>, i: nat, line: nat, t: Token, n: nat)
    requires Scanned(text, toks, i, line) && i < |text| && text[i] !in Ignored
    requires MasterMatch(text, i, line) == EmitMove(t, n)
    ensures Scanned(text, toks + [t], i + n, line)
  {
    MasterMatchNewlines(text, i, line);
    EmitAt(text, i, line, t, n);
    JoinStep(Scan(text, 0, 1), toks, t, Scan(text, i, line), Scan(text, i + n, line));
  }

  lemma ScanLiteral(text: string, toks: seq<Token>, i: nat, line: nat)
    requires Scanned(text, toks, i, line) && i < |text| && text[i] !in Ignored
    requires MasterMatch(text, i, line).NoMatch? && text[i] in Literals
    ensures Scanned(text, toks + [Token(Lit(text[i]), Text([text[i]]), line, i)], i + 1, line)
  {
    MasterMatchNewlines(text, i, line);
    LinesAcross(text, i, i + 1);
    JoinPrepend(toks, Token(Lit(text[i]), Text([text[i]]), line, i), Scan(text, i + 1, line));
  }

  lemma ScanIllegal(text: string, toks: seq<Token>, i: nat, line: nat)
    requires Scanned(text, toks, i, line) && i < |text| && text[i] !in Ignored
    requires MasterMatch(text, i, line).NoMatch? && text[i] !in Literals
    ensures Scan(text, 0, 1) == Stream(toks, AtIllegal(text[i], line, i))
  {
  }

  /** One step of `Scan` over a run of newlines. */
  lemma NewlinesAt(text: string, i: nat, line: nat, n: nat)
    requires i < |text| && text[i] !in Ignored && MasterMatch(text, i, line) == NewlineMove(n)
    ensures i + n <= |text| && Scan(text, i, line) == Scan(text, i + n, line + n)
  {
  }

  /** One step of `Scan` over a token. */
  lemma EmitAt(text: string, i: nat, line: nat, t: Token, n: nat)
    requires i < |text| && text[i] !in Ignored && MasterMatch(text, i, line) == EmitMove(t, n)
    ensures i + n <= |text| && Scan(text, i, line) == Prepend(t, Scan(text, i + n, line))
  {
  }

  /** A stream split after `toks`, whose rest starts with `t`, splits after `toks + [t]`. */
  lemma JoinStep(whole: Stream, toks: seq<Token>, t: Token, rest: Stream, after: Stream)
    requires whole == Join(toks, rest) && rest == Prepend(t, after)
    ensures whole == Join(toks + [t], after)
  {
    JoinPrepend(toks, t, after);
  }

  lemma JoinPrepend(toks: seq<Token>, t: Token, s: Stream)
    ensures Join(toks + [t], s) == Join(toks, Prepend(t, s))
  {
    assert toks + [t] + s.toks == toks + ([t] + s.toks);
  }

  // ---------------------------------------------------------------------------
  // Facts about the rule table, each checked by evaluating the table

  /** The characters other than letters and `_` that a fixed rule can start with. */
  const OperatorStarts: set<char> := {'{', '}', '!', '>', '<', '='}

  /** A fixed rule spells a non-empty word without newlines, starting with a
      letter or an operator character, and yields a keyword or operator kind. */
  ghost predicate FixedRuleShape(r: Rule)
  {
    r.Fixed? ==>
      && 0 < |r.word|
      && (IsIdentChar(r.word[0]) || r.word[0] in OperatorStarts)
      && NewlineFree(r.word)
      && r.kind !in {Pid, NumInt, NumFloat}
      && !r.kind.Lit?
  }

  predicate NewlineFree(w: string)
  {
    |w| == 0 || (w[0] != '\n' && NewlineFree(w[1..]))
  }

  lemma {:induction false} NewlineFreeAt(w: string, j: nat)
    requires NewlineFree(w) && j < |w|
    ensures w[j] != '\n'
  {
    if j > 0 {
      NewlineFreeAt(w[1..], j - 1);
    }
  }

  lemma FixedRuleShapes(k: nat)
    requires k < RuleCount
    ensures FixedRuleShape(RuleAt(k))
  {
    if k < 4 {
      ShapesFrom0();
    } else if k < 8 {
      ShapesFrom4();
    } else if k < 12 {
      ShapesFrom8();
    } else if k < 16 {
      ShapesFrom12();
    } else if k < 20 {
      ShapesFrom16();
    } else if k < 24 {
      ShapesFrom20();
    } else {
      ShapesFrom24();
    }
  }

  // The table checked in slices, each small enough to evaluate at once.
  lemma ShapesFrom0() ensures forall l :: 0 <= l < 4 ==> FixedRuleShape(RuleAt(l)) {}
  lemma ShapesFrom4() ensures forall l :: 4 <= l < 8 ==> FixedRuleShape(RuleAt(l))
  {
    ShapesFrom4To6();
    ShapesFrom6To8();
  }
  lemma ShapesFrom4To6() ensures forall l :: 4 <= l < 6 ==> FixedRuleShape(RuleAt(l))
  {
    assert FixedRuleShape(RuleAt(4));
    assert FixedRuleShape(RuleAt(5));
  }
  lemma ShapesFrom6To8() ensures forall l :: 6 <= l < 8 ==> FixedRuleShape(RuleAt(l))
  {
    assert FixedRuleShape(RuleAt(6));
    assert FixedRuleShape(RuleAt(7));
  }
  lemma ShapesFrom8() ensures forall l :: 8 <= l < 12 ==> FixedRuleShape(RuleAt(l)) {}
  lemma ShapesFrom12() ensures forall l :: 12 <= l < 16 ==> FixedRuleShape(RuleAt(l)) {}
  lemma ShapesFrom16() ensures forall l :: 16 <= l < 20 ==> FixedRuleShape(RuleAt(l)) {}
  lemma ShapesFrom20() ensures forall l :: 20 <= l < 24 ==> FixedRuleShape(RuleAt(l)) {}
  lemma ShapesFrom24() ensures forall l :: 24 <= l < 28 ==> FixedRuleShape(RuleAt(l)) {}

  /** `u` and `w` disagree at a position both of them have. */
  predicate Differ(u: string, w: string)
    decreases |u|
  {
    0 < |u| && 0 < |w| && (u[0] != w[0] || Differ(u[1..], w[1..]))
  }

  /** Rule `r` cannot match where the text spells `w`. */
  predicate Excludes(r: Rule, w: string)
  {
    match r
    case NewlineRun => 0 < |w| && w[0] != '\n'
    case Fixed(_, u) => Differ(u, w)
    case _ => false
  }

  /** The fixed rules that no earlier rule can take over: the braces, the
      fifteen reserved words and the four two-character operators. The
      one-character operators `>`, `<`, `=` are left out, since `>=`, `<=`
      and `==` come before them. */
  predicate Unshadowed(k: nat)
  {
    1 <= k <= 20 || k == 24
  }

  lemma UnshadowedExcludes(k: nat)
    requires Unshadowed(k)
    ensures RuleAt(k).Fixed? && forall l :: 0 <= l < k ==> Excludes(RuleAt(l), RuleAt(k).word)
  {
    if k <= 8 {
      ExclusionsA();
    } else if k <= 12 {
      ExclusionsB();
    } else if k <= 14 || k == 24 {
      ExclusionsC();
    } else if k <= 16 {
      ExclusionsD();
    } else if k <= 18 {
      ExclusionsE();
    } else {
      ExclusionsF();
    }
  }

  // The exclusions checked in groups, each small enough to evaluate at once.
  lemma ExclusionsA()
    ensures (forall l :: 0 <= l < 1 ==> Excludes(RuleAt(l), "def"))
      && (forall l :: 0 <= l < 2 ==> Excludes(RuleAt(l), "with"))
      && (forall l :: 0 <= l < 3 ==> Excludes(RuleAt(l), "{"))
      && (forall l :: 0 <= l < 4 ==> Excludes(RuleAt(l), "int"))
      && (forall l :: 0 <= l < 5 ==> Excludes(RuleAt(l), "float"))
      && (forall l :: 0 <= l < 6 ==> Excludes(RuleAt(l), "}"))
      && (forall l :: 0 <= l < 7 ==> Excludes(RuleAt(l), "while"))
      && (forall l :: 0 <= l < 8 ==> Excludes(RuleAt(l), "for"))
  {
  }

  lemma ExclusionsB()
    ensures (forall l :: 0 <= l < 9 ==> Excludes(RuleAt(l), "if"))
      && (forall l :: 0 <= l < 10 ==> Excludes(RuleAt(l), "else"))
      && (forall l :: 0 <= l < 11 ==> Excludes(RuleAt(l), "downto"))
      && (forall l :: 0 <= l < 12 ==> Excludes(RuleAt(l), "to"))
  {
  }

  lemma ExclusionsC()
    ensures (forall l :: 0 <= l < 13 ==> Excludes(RuleAt(l), "from"))
      && (forall l :: 0 <= l < 14 ==> Excludes(RuleAt(l), "read"))
      && (forall l :: 0 <= l < 24 ==> Excludes(RuleAt(l), "main"))
  {
  }

  lemma ExclusionsD()
    ensures (forall l :: 0 <= l < 15 ==> Excludes(RuleAt(l), "write"))
      && (forall l :: 0 <= l < 16 ==> Excludes(RuleAt(l), "call"))
  {
  }

  lemma ExclusionsE()
    ensures (forall l :: 0 <= l < 17 ==> Excludes(RuleAt(l), "!="))
      && (forall l :: 0 <= l < 18 ==> Excludes(RuleAt(l), ">="))
  {
  }

  lemma ExclusionsF()
    ensures (forall l :: 0 <= l < 19 ==> Excludes(RuleAt(l), "<="))
      && (forall l :: 0 <= l < 20 ==> Excludes(RuleAt(l), "=="))
  {
  }

  lemma {:induction false} LinesAcross(text: string, i: nat, j: nat)
    requires i <= j <= |text|
    ensures Newlines(text, 0, j) == Newlines(text, 0, i) + Newlines(text, i, j)
    decreases j - i
  {
    if i < j {
      LinesAcross(text, i, j - 1);
    }
  }

  /** The line counter after a move of the master pattern: a newline run of
      `n` adds `n`, a token adds nothing. */
  lemma MasterMatchNewlines(text: string, i: nat, line: nat)
    requires i < |text|
    ensures match MasterMatch(text, i, line)
      case NewlineMove(n) => Newlines(text, 0, i + n) == Newlines(text, 0, i) + n
      case EmitMove(_, n) => Newlines(text, 0, i + n) == Newlines(text, 0, i)
      case NoMatch => text[i] != '\n'
  {
    FirstRuleShape(text, i, 0);
    NewlineFirst(text, i);
    match FirstRuleFrom(text, i, 0)
    case Some(r) => RuleMoveNewlines(r, text, i, line);
    case None =>
  }

  lemma RuleMoveNewlines(r: Rule, text: string, i: nat, line: nat)
    requires i <= |text| && FixedRuleShape(r)
    ensures var mv := RuleMove(r, text, i, line);
      Newlines(text, 0, i + mv.n) == Newlines(text, 0, i) + if mv.NewlineMove? then mv.n else 0
  {
    LinesAcross(text, i, i + MatchLength(r, text, i));
    MatchNewlinesRule(r, text, i);
  }

  /** A newline is always taken by the newline rule, the first of the table. */
  lemma NewlineFirst(text: string, i: nat)
    requires i < |text|
    ensures text[i] == '\n' ==> FirstRuleFrom(text, i, 0) == Some(NewlineRun)
  {
    assert text[i] == '\n' ==> 0 < RunLength(text, i, Newline);
  }

  /** The rule the scan picks has the shape of the table's rules. */
  lemma {:induction false} FirstRuleShape(text: string, i: nat, k: nat)
    requires i <= |text| && k <= RuleCount
    ensures FirstRuleFrom(text, i, k).Some? ==> FixedRuleShape(FirstRuleFrom(text, i, k).value)
    decreases RuleCount - k
  {
    if k < RuleCount {
      FixedRuleShapes(k);
      FirstRuleShape(text, i, k + 1);
    }
  }

  /** A newline run matches only newlines; every other rule matches none. */
  lemma MatchNewlinesRule(r: Rule, text: string, i: nat)
    requires i <= |text| && FixedRuleShape(r)
    ensures var n := MatchLength(r, text, i);
      Newlines(text, i, i + n) == if r.NewlineRun? then n else 0
  {
    var n := MatchLength(r, text, i);
    match r
    case NewlineRun =>
      RunLengthRun(text, i, Newline);
      NewlinesUniform(text, i, n, true);
    case Fixed(_, w) =>
      forall j | i <= j < i + n
        ensures text[j] != '\n'
      {
        assert text[j] == text[i..i + |w|][j - i];
        NewlineFreeAt(w, j - i);
      }
      NewlinesUniform(text, i, n, false);
    case Identifier =>
      RunLengthRun(text, i, IdentChars);
      NewlinesUniform(text, i, n, false);
    case IntNumber =>
      RunLengthRun(text, i, Digits);
      NewlinesUniform(text, i, n, false);
    case FloatNumber => FloatNewlines(text, i);
  }

  lemma FloatNewlines(text: string, i: nat)
    requires i <= |text|
    ensures Newlines(text, i, i + MatchLength(FloatNumber, text, i)) == 0
  {
    RunLengthRun(text, i, Digits);
    var a := RunLength(text, i, Digits);
    if 0 < a && i + a < |text| && text[i + a] == '.' {
      RunLengthRun(text, i + a + 1, Digits);
    }
    NewlinesUniform(text, i, MatchLength(FloatNumber, text, i), false);
  }

  lemma {:induction false} NewlinesUniform(text: string, i: nat, n: nat, all: bool)
    requires i + n <= |text|
    requires forall j :: i <= j < i + n ==> (text[j] == '\n') == all
    ensures Newlines(text, i, i + n) == if all then n else 0
  {
    if n > 0 {
      NewlinesUniform(text, i, n - 1, all);
    }
  }

  // ---------------------------------------------------------------------------
  // What the scanner promises

  /** The first matching rule is the one the search returns. */
  lemma {:induction false} FirstRuleIs(text: string, i: nat, k: nat, j: nat)
    requires i <= |text| && k <= j < RuleCount
    requires forall l :: k <= l < j ==> MatchLength(RuleAt(l), text, i) == 0
    requires 0 < MatchLength(RuleAt(j), text, i)
    ensures FirstRuleFrom(text, i, k) == Some(RuleAt(j))
    decreases j - k
  {
    if k < j {
      FirstRuleIs(text, i, k + 1, j);
    }
  }

  /** The search finds nothing exactly when no rule from `k` on matches. */
  lemma FirstRuleNone(text: string, i: nat, k: nat)
    requires i <= |text| && k <= RuleCount
    ensures FirstRuleFrom(text, i, k).None? <==> forall l :: k <= l < RuleCount ==> MatchLength(RuleAt(l), text, i) == 0
  {
    if FirstRuleFrom(text, i, k).None? {
      forall l | k <= l < RuleCount
        ensures MatchLength(RuleAt(l), text, i) == 0
      {
        NoneSkips(text, i, k, l);
      }
    } else {
      var l := FirstRuleFound(text, i, k);
    }
  }

  lemma {:induction false} NoneSkips(text: string, i: nat, k: nat, l: nat)
    requires i <= |text| && k <= l < RuleCount && FirstRuleFrom(text, i, k).None?
    ensures MatchLength(RuleAt(l), text, i) == 0
    decreases l - k
  {
    NoneStep(text, i, k);
    if k < l {
      NoneSkips(text, i, k + 1, l);
    }
  }

  lemma NoneStep(text: string, i: nat, k: nat)
    requires i <= |text| && k < RuleCount && FirstRuleFrom(text, i, k).None?
    ensures MatchLength(RuleAt(k), text, i) == 0 && FirstRuleFrom(text, i, k + 1).None?
  {
  }

  lemma {:induction false} FirstRuleFound(text: string, i: nat, k: nat) returns (l: nat)
    requires i <= |text| && k <= RuleCount && FirstRuleFrom(text, i, k).Some?
    ensures k <= l < RuleCount && 0 < MatchLength(RuleAt(l), text, i)
    decreases RuleCount - k
  {
    SomeStep(text, i, k);
    if 0 < MatchLength(RuleAt(k), text, i) {
      l := k;
    } else {
      l := FirstRuleFound(text, i, k + 1);
    }
  }

  lemma SomeStep(text: string, i: nat, k: nat)
    requires i <= |text| && k <= RuleCount && FirstRuleFrom(text, i, k).Some?
    ensures k < RuleCount && (MatchLength(RuleAt(k), text, i) == 0 ==> FirstRuleFrom(text, i, k + 1).Some?)
  {
  }

  lemma {:induction false} DifferAt(u: string, w: string)
    requires Differ(u, w)
    ensures exists p :: 0 <= p < |u| && p < |w| && u[p] != w[p]
    decreases |u|
  {
    if u[0] == w[0] {
      DifferAt(u[1..], w[1..]);
      var p :| 0 <= p < |u[1..]| && p < |w[1..]| && u[1..][p] != w[1..][p];
      assert u[p + 1] != w[p + 1];
    }
  }

  /** An excluded rule does not match where the text spells `w`. */
  lemma ExcludesNoMatch(r: Rule, text: string, i: nat, w: string)
    requires i <= |text| && Excludes(r, w) && StartsWith(text, i, w)
    ensures MatchLength(r, text, i) == 0
  {
    assert text[i] == text[i..i + |w|][0];
    match r
    case NewlineRun =>
    case Fixed(_, u) =>
      DifferAt(u, w);
      var p :| 0 <= p < |u| && p < |w| && u[p] != w[p];
      assert text[i + p] == text[i..i + |w|][p];
      if i + |u| <= |text| {
        assert text[i..i + |u|][p] != u[p];
      }
  }

  /** Where the text spells the word of an unshadowed rule, that rule wins,
      whatever follows: the master pattern emits its keyword or operator
      token with exactly that word as its text. */
  lemma SpelledWins(text: string, i: nat, line: nat, k: nat)
    requires i <= |text| && Unshadowed(k)
    requires RuleAt(k).Fixed? && StartsWith(text, i, RuleAt(k).word)
    ensures MasterMatch(text, i, line) ==
      EmitMove(Token(RuleAt(k).kind, Text(RuleAt(k).word), line, i), |RuleAt(k).word|)
  {
    SpelledFirst(text, i, k);
    MasterMatchVia(text, i, line, RuleAt(k));
    FixedMove(RuleAt(k), text, i, line);
  }

  lemma SpelledFirst(text: string, i: nat, k: nat)
    requires i <= |text| && Unshadowed(k)
    requires RuleAt(k).Fixed? && StartsWith(text, i, RuleAt(k).word)
    ensures FirstRuleFrom(text, i, 0) == Some(RuleAt(k))
  {
    var w := RuleAt(k).word;
    UnshadowedExcludes(k);
    FixedRuleShapes(k);
    forall l | 0 <= l < k
      ensures MatchLength(RuleAt(l), text, i) == 0
    {
      ExcludesNoMatch(RuleAt(l), text, i, w);
    }
    FirstRuleIs(text, i, 0, k);
  }

  lemma FixedMove(r: Rule, text: string, i: nat, line: nat)
    requires i <= |text| && r.Fixed? && StartsWith(text, i, r.word)
    ensures RuleMove(r, text, i, line) == EmitMove(Token(r.kind, Text(r.word), line, i), |r.word|)
  {
  }

  /** A reserved word, brace or two-character operator on its own is exactly
      one token of its kind, never an identifier. */
  lemma SpelledAlone(k: nat)
    requires Unshadowed(k)
    ensures RuleAt(k).Fixed?
    ensures Scan(RuleAt(k).word, 0, 1) == Stream([Token(RuleAt(k).kind, Text(RuleAt(k).word), 1, 0)], AtEof)
  {
    var w := RuleAt(k).word;
    UnshadowedExcludes(k);
    FixedRuleShapes(k);
    assert w[0..|w|] == w;
    SpelledWins(w, 0, 1, k);
    FixedStart(RuleAt(k));
    WholeTextOneToken(w, Token(RuleAt(k).kind, Text(w), 1, 0));
  }

  /** A fixed word does not start with a blank, a digit or a literal character. */
  lemma FixedStart(r: Rule)
    requires r.Fixed? && FixedRuleShape(r)
    ensures r.word[0] !in Ignored && r.word[0] !in Literals && !IsDigit(r.word[0]) && r.word[0] != '\n'
  {
  }

  lemma WholeTextOneToken(w: string, t: Token)
    requires 0 < |w| && w[0] !in Ignored && MasterMatch(w, 0, 1) == EmitMove(t, |w|)
    ensures Scan(w, 0, 1) == Stream([t], AtEof)
  {
    assert Scan(w, |w|, 1) == Stream([], AtEof);
  }

  /** An identifier token never starts with an unshadowed word: where one is
      spelled, its rule wins. So `total` is `to` followed by the identifier
      `tal`. */
  lemma PidNeverSpelled(text: string, i: nat, line: nat)
    requires i <= |text|
    requires MasterMatch(text, i, line).EmitMove? && MasterMatch(text, i, line).tok.kind == Pid
    ensures forall k :: Unshadowed(k) && RuleAt(k).Fixed? ==> !StartsWith(text, i, RuleAt(k).word)
  {
    forall k | Unshadowed(k) && RuleAt(k).Fixed?
      ensures !StartsWith(text, i, RuleAt(k).word)
    {
      FixedRuleShapes(k);
      if StartsWith(text, i, RuleAt(k).word) {
        SpelledWins(text, i, line, k);
      }
    }
  }

  /** The rule of the two-character operator that begins like the
      one-character operator of rule `k` (`>=` for `>`, and so on). */
  function LongerPartner(k: nat): nat
    requires 21 <= k <= 23
  {
    k - 3
  }

  // Exclusions for the one-character operators: every earlier rule except
  // the longer partner.
  lemma ExclusionsG()
    ensures && (forall l :: 0 <= l < 21 && l != 18 ==> Excludes(RuleAt(l), ">"))
            && (forall l :: 0 <= l < 22 && l != 19 ==> Excludes(RuleAt(l), "<"))
            && (forall l :: 0 <= l < 23 && l != 20 ==> Excludes(RuleAt(l), "="))
  {
  }

  /** `>`, `<` and `=` lex as the longer operator when `=` follows, and as
      themselves otherwise. */
  lemma LongerOperatorFirst(text: string, i: nat, line: nat, k: nat)
    requires 21 <= k <= 23 && i < |text| && text[i] == RuleAt(k).word[0]
    ensures var two := RuleAt(LongerPartner(k));
      if i + 1 < |text| && text[i + 1] == '=' then
        MasterMatch(text, i, line) == EmitMove(Token(two.kind, Text(two.word), line, i), 2)
      else
        MasterMatch(text, i, line) == EmitMove(Token(RuleAt(k).kind, Text(RuleAt(k).word), line, i), 1)
  {
    var two := RuleAt(LongerPartner(k));
    var one := RuleAt(k);
    assert |one.word| == 1 && |two.word| == 2 && two.word[0] == one.word[0] && two.word[1] == '=';
    if i + 1 < |text| && text[i + 1] == '=' {
      assert text[i..i + 2] == two.word;
      SpelledWins(text, i, line, LongerPartner(k));
    } else {
      assert text[i..i + 1] == one.word;
      assert !StartsWith(text, i, two.word) by {
        if i + 2 <= |text| {
          assert text[i..i + 2][1] != two.word[1];
        }
      }
      ExclusionsG();
      forall l | 0 <= l < k
        ensures MatchLength(RuleAt(l), text, i) == 0
      {
        if l != LongerPartner(k) {
          ExcludesNoMatch(RuleAt(l), text, i, one.word);
        }
      }
      FirstRuleIs(text, i, 0, k);
      FixedMove(one, text, i, line);
    }
  }

  /** The two number rules are the last two of the table. */
  lemma NumbersLast()
    ensures forall l :: 0 <= l < 26 ==> !RuleAt(l).FloatNumber? && !RuleAt(l).IntNumber?
  {
  }

  lemma DigitNoMatch(r: Rule, text: string, i: nat)
    requires i < |text| && IsDigit(text[i]) && FixedRuleShape(r) && !r.FloatNumber? && !r.IntNumber?
    ensures MatchLength(r, text, i) == 0
  {
    if r.Fixed? {
      FixedStart(r);
      if i + |r.word| <= |text| {
        assert text[i..i + |r.word|][0] == text[i];
      }
    }
  }

  /** Digits followed by a dot and another digit: the shape of a float. */
  predicate FloatAhead(text: string, i: nat)
    requires i <= |text|
  {
    var a := RunLength(text, i, Digits);
    0 < a && i + a + 1 < |text| && text[i + a] == '.' && IsDigit(text[i + a + 1])
  }

  /** A digit starts a number: a float when a dot and another digit follow
      the digit run (the float keeps its text), an integer with the value
      of the run otherwise. */
  lemma NumberWins(text: string, i: nat, line: nat)
    requires i < |text| && IsDigit(text[i])
    ensures var a := RunLength(text, i, Digits);
      if FloatAhead(text, i) then
        var b := RunLength(text, i + a + 1, Digits);
        MasterMatch(text, i, line) == EmitMove(Token(NumFloat, FloatValue(text[i..i + a + 1 + b]), line, i), a + 1 + b)
      else
        MasterMatch(text, i, line) == EmitMove(Token(NumInt, IntValue(DigitsValue(text[i..i + a])), line, i), a)
  {
    NumberRuleFirst(text, i);
    if FloatAhead(text, i) {
      MasterMatchVia(text, i, line, FloatNumber);
      FloatRuleMove(text, i, line);
    } else {
      MasterMatchVia(text, i, line, IntNumber);
      IntRuleMove(text, i, line);
    }
  }

  lemma FloatRuleMove(text: string, i: nat, line: nat)
    requires i <= |text| && FloatAhead(text, i)
    ensures var a := RunLength(text, i, Digits);
      var b := RunLength(text, i + a + 1, Digits);
      RuleMove(FloatNumber, text, i, line) == EmitMove(Token(NumFloat, FloatValue(text[i..i + a + 1 + b]), line, i), a + 1 + b)
  {
    var a := RunLength(text, i, Digits);
    assert 0 < RunLength(text, i + a + 1, Digits);
  }

  lemma IntRuleMove(text: string, i: nat, line: nat)
    requires i <= |text|
    ensures var a := RunLength(text, i, Digits);
      RuleMove(IntNumber, text, i, line) == EmitMove(Token(NumInt, IntValue(DigitsValue(text[i..i + a])), line, i), a)
  {
  }

  /** The move of the master pattern is the move of the rule the search found. */
  lemma MasterMatchVia(text: string, i: nat, line: nat, r: Rule)
    requires i <= |text| && FirstRuleFrom(text, i, 0) == Some(r)
    ensures MasterMatch(text, i, line) == RuleMove(r, text, i, line)
  {
  }

  lemma NumberRuleFirst(text: string, i: nat)
    requires i < |text| && IsDigit(text[i])
    ensures FirstRuleFrom(text, i, 0) == Some(if FloatAhead(text, i) then FloatNumber else IntNumber)
  {
    DigitEarlierRules(text, i);
    FloatAheadMatch(text, i);
    assert RuleAt(26) == FloatNumber && RuleAt(27) == IntNumber;
    assert 0 < RunLength(text, i, Digits);
    if FloatAhead(text, i) {
      FirstRuleIs(text, i, 0, 26);
    } else {
      FirstRuleIs(text, i, 0, 27);
    }
  }

  /** No rule before the number rules matches at a digit. */
  lemma DigitEarlierRules(text: string, i: nat)
    requires i < |text| && IsDigit(text[i])
    ensures forall l :: 0 <= l < 26 ==> MatchLength(RuleAt(l), text, i) == 0
  {
    NumbersLast();
    forall l | 0 <= l < 26
      ensures MatchLength(RuleAt(l), text, i) == 0
    {
      FixedRuleShapes(l);
      DigitNoMatch(RuleAt(l), text, i);
    }
  }

  lemma FloatAheadMatch(text: string, i: nat)
    requires i <= |text|
    ensures FloatAhead(text, i) <==> 0 < MatchLength(FloatNumber, text, i)
  {
    var a := RunLength(text, i, Digits);
    if 0 < a && i + a < |text| && text[i + a] == '.' {
      assert 0 < RunLength(text, i + a + 1, Digits) <==> i + a + 1 < |text| && IsDigit(text[i + a + 1]);
    }
  }


  /** The one-character operators start with operator characters. */
  lemma OneCharOperators()
    ensures forall l :: 21 <= l <= 23 ==> RuleAt(l).Fixed? && |RuleAt(l).word| == 1 && RuleAt(l).word[0] in OperatorStarts
  {
  }

  /** Where a letter or `_` starts and no reserved word is spelled, the
      identifier rule takes the whole run of letters and `_`. With
      `PidNeverSpelled` this is an if-and-only-if. */
  lemma IdentifierWins(text: string, i: nat, line: nat)
    requires i < |text| && IsIdentChar(text[i])
    requires forall k :: Unshadowed(k) && RuleAt(k).Fixed? ==> !StartsWith(text, i, RuleAt(k).word)
    ensures var n := RunLength(text, i, IdentChars);
      MasterMatch(text, i, line) == EmitMove(Token(Pid, Text(text[i..i + n]), line, i), n)
  {
    IdentEarlierRules(text, i);
    assert RuleAt(25) == Identifier;
    assert 0 < RunLength(text, i, IdentChars);
    FirstRuleIs(text, i, 0, 25);
    MasterMatchVia(text, i, line, Identifier);
    IdentRuleMove(text, i, line);
  }

  lemma IdentRuleMove(text: string, i: nat, line: nat)
    requires i <= |text|
    ensures var n := RunLength(text, i, IdentChars);
      RuleMove(Identifier, text, i, line) == EmitMove(Token(Pid, Text(text[i..i + n]), line, i), n)
  {
  }

  lemma IdentEarlierRules(text: string, i: nat)
    requires i < |text| && IsIdentChar(text[i])
    requires forall k :: Unshadowed(k) && RuleAt(k).Fixed? ==> !StartsWith(text, i, RuleAt(k).word)
    ensures forall l :: 0 <= l < 25 ==> MatchLength(RuleAt(l), text, i) == 0
  {
    assert MatchLength(RuleAt(0), text, i) == 0;
    forall l | 0 < l < 25 && Unshadowed(l)
      ensures MatchLength(RuleAt(l), text, i) == 0
    {
      UnshadowedExcludes(l);
    }
    OneCharOperators();
    forall l | 21 <= l <= 23
      ensures MatchLength(RuleAt(l), text, i) == 0
    {
      var w := RuleAt(l).word;
      if i + |w| <= |text| {
        assert text[i..i + |w|][0] == text[i];
      }
    }
  }

  /** Blanks yield no token, and a run of `n` newlines yields no token and
      adds exactly `n` to the line counter. */
  lemma SkippedInput(text: string, i: nat, line: nat)
    requires i < |text| && (text[i] in Ignored || text[i] == '\n')
    ensures text[i] in Ignored ==> Scan(text, i, line) == Scan(text, i + 1, line)
    ensures text[i] == '\n' ==>
      var n := RunLength(text, i, Newline);
      && 0 < n
      && (forall j :: i <= j < i + n ==> text[j] == '\n')
      && (i + n == |text| || text[i + n] != '\n')
      && Scan(text, i, line) == Scan(text, i + n, line + n)
  {
    if text[i] == '\n' {
      NewlineFirst(text, i);
      RunLengthRun(text, i, Newline);
      MasterMatchVia(text, i, line, NewlineRun);
    }
  }

  /** A character where no rule, literal or blank applies stops the scan,
      naming that character, its line and its index. */
  lemma IllegalCharacterStops(text: string, i: nat, line: nat)
    requires i < |text| && text[i] !in Ignored && text[i] !in Literals
    requires text[i] != '\n' && !IsIdentChar(text[i]) && !IsDigit(text[i])
    requires forall l :: 0 <= l < RuleCount && RuleAt(l).Fixed? ==> !StartsWith(text, i, RuleAt(l).word)
    ensures Scan(text, i, line) == Stream([], AtIllegal(text[i], line, i))
  {
    forall l | 0 <= l < RuleCount
      ensures MatchLength(RuleAt(l), text, i) == 0
    {
    }
    FirstRuleNone(text, i, 0);
  }

  /** No fixed word starts with a character outside the alphabet of the
      rules, so such a character is illegal wherever it stands. */
  lemma OutsideAlphabet(text: string, i: nat)
    requires i < |text| && !IsIdentChar(text[i]) && text[i] !in OperatorStarts
    ensures forall l :: 0 <= l < RuleCount && RuleAt(l).Fixed? ==> !StartsWith(text, i, RuleAt(l).word)
  {
    forall l | 0 <= l < RuleCount && RuleAt(l).Fixed?
      ensures !StartsWith(text, i, RuleAt(l).word)
    {
      FixedRuleShapes(l);
      var w := RuleAt(l).word;
      if i + |w| <= |text| {
        assert text[i..i + |w|][0] == text[i];
      }
    }
  }

  /** Conversely, the scan stops only at a character in the text where no
      blank, rule or literal applies. */
  lemma {:induction false} IllegalEnd(text: string, i: nat, line: nat)
    requires i <= |text|
    ensures var e := Scan(text, i, line).end;
      e.AtIllegal? ==>
        && i <= e.index < |text| && e.ch == text[e.index]
        && e.ch !in Ignored && e.ch !in Literals
        && FirstRuleFrom(text, e.index, 0).None?
    decreases |text| - i
  {
    if i < |text| {
      var j, line', _ := ScanStep(text, i, line);
      if j == i {
        NoMatchNone(text, i, line);
      } else {
        IllegalEnd(text, j, line');
      }
    }
  }

  /** One step of the scan: either it stops at `i` (`j == i`), or the stream
      from `i` is at most one token `tok`, made at `i` on line `line`,
      followed by the stream from `j` on line `line'`, the line having grown
      by the newlines passed over. */
  lemma ScanStep(text: string, i: nat, line: nat) returns (j: nat, line': nat, tok: Option<Token>)
    requires i < |text|
    ensures i <= j <= |text|
    ensures j == i ==>
      && text[i] !in Ignored && text[i] !in Literals && MasterMatch(text, i, line).NoMatch?
      && Scan(text, i, line) == Stream([], AtIllegal(text[i], line, i))
    ensures i < j ==>
      && Scan(text, i, line) == (if tok.Some? then Prepend(tok.value, Scan(text, j, line')) else Scan(text, j, line'))
      && line' + Newlines(text, 0, i) == line + Newlines(text, 0, j)
    ensures tok.Some? ==> tok.value.index == i && tok.value.line == line
  {
    tok := None;
    if text[i] in Ignored {
      j, line' := i + 1, line;
      LinesAcross(text, i, i + 1);
    } else {
      MasterMatchNewlines(text, i, line);
      match MasterMatch(text, i, line)
      case NewlineMove(n) => j, line' := i + n, line + n;
      case EmitMove(t, n) => j, line', tok := i + n, line, Some(t);
      case NoMatch =>
        if text[i] in Literals {
          j, line', tok := i + 1, line, Some(Token(Lit(text[i]), Text([text[i]]), line, i));
          LinesAcross(text, i, i + 1);
        } else {
          j, line' := i, line;
        }
    }
  }

  lemma NoMatchNone(text: string, i: nat, line: nat)
    requires i <= |text| && MasterMatch(text, i, line).NoMatch?
    ensures FirstRuleFrom(text, i, 0).None?
  {
    if FirstRuleFrom(text, i, 0).Some? {
      MasterMatchVia(text, i, line, FirstRuleFrom(text, i, 0).value);
    }
  }

  /** Every token of `ts` lies in the text at or after `i`, and its line is
      `offset` plus the newlines before it. */
  ghost predicate Positioned(text: string, ts: seq<Token>, i: nat, offset: int)
  {
    forall p :: 0 <= p < |ts| ==>
      && i <= ts[p].index < |text|
      && ts[p].line == offset + Newlines(text, 0, ts[p].index)
  }

  /** The tokens appear in strictly increasing index order. */
  ghost predicate Ordered(ts: seq<Token>)
  {
    forall p, q :: 0 <= p < q < |ts| ==> ts[p].index < ts[q].index
  }

  /** Each token of the stream from `i` is placed in the text in order, and
      carries the line number of its index. */
  lemma {:induction false} ScanPositions(text: string, i: nat, line: nat)
    requires i <= |text|
    ensures var ts := Scan(text, i, line).toks;
      Positioned(text, ts, i, line - Newlines(text, 0, i)) && Ordered(ts)
    decreases |text| - i
  {
    if i < |text| {
      var j, line', tok := ScanStep(text, i, line);
      if i < j {
        ScanPositions(text, j, line');
        var rest := Scan(text, j, line').toks;
        if tok.Some? {
          PrependPlaced(text, tok.value, rest, i, j, line - Newlines(text, 0, i));
        }
      }
    }
  }

  lemma PrependPlaced(text: string, t: Token, ts: seq<Token>, i: nat, j: nat, offset: int)
    requires i < j && i < |text| && t.index == i && t.line == offset + Newlines(text, 0, i)
    requires Positioned(text, ts, j, offset) && Ordered(ts)
    ensures Positioned(text, [t] + ts, i, offset) && Ordered([t] + ts)
  {
  }

  /** The tokens of a whole text: each one's line is one plus the number of
      newlines before its index, and their indices increase. */
  lemma TokenLines(text: string)
    ensures var ts := Scan(text, 0, 1).toks;
      && (forall p :: 0 <= p < |ts| ==> ts[p].index < |text| && ts[p].line == 1 + Newlines(text, 0, ts[p].index))
      && (forall p, q :: 0 <= p < q < |ts| ==> ts[p].index < ts[q].index)
  {
    ScanPositions(text, 0, 1);
  }
}
