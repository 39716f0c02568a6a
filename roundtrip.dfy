/** Source order: reading the tokens back from what the parser built. Each
    parse function is paired with a printer that writes a parsed phrase back
    as the token kinds (with the names and numbers they carry) it came from;
    the lemmas show that a successful parse consumed exactly the printed form
    of its result, so lists keep their source order, operands their
    left-to-right order, and nothing is dropped or reordered. Array element
    references are excluded: the parser keeps nothing of them. */
module ParserRoundTrip {
  import opened Wrappers
  import opened Syntax
  import opened Lexer
  import opened Parser

  /** What the parser reads from a token: its kind and, for names and
      numbers, what it carries. */
  datatype Lexeme = Lexeme(kind: Kind, payload: TokenValue)

  function LexemeOf(t: Token): Lexeme
  {
    match t.kind
    case Pid => Lexeme(Pid, Text(NameOf(t)))
    case NumInt => Lexeme(NumInt, IntValue(IntOf(t)))
    case NumFloat => Lexeme(NumFloat, FloatValue(DigitsOf(t)))
    case _ => Lexeme(t.kind, Text([]))
  }

  /** The lexemes of the tokens from position `a` up to, not including, `b`. */
  function Span(s: Stream, a: nat, b: nat): (r: seq<Lexeme>)
    requires a <= b <= |s.toks|
    ensures |r| == b - a
  {
    seq(b - a, i requires 0 <= i < b - a => LexemeOf(s.toks[a + i]))
  }

  lemma SpanSplit(s: Stream, a: nat, b: nat, c: nat)
    requires a <= b <= c <= |s.toks|
    ensures Span(s, a, c) == Span(s, a, b) + Span(s, b, c)
  {
    assert forall i :: 0 <= i < c - a ==> Span(s, a, c)[i] == (Span(s, a, b) + Span(s, b, c))[i];
  }

  lemma SpanOne(s: Stream, a: nat)
    requires a < |s.toks|
    ensures Span(s, a, a + 1) == [LexemeOf(s.toks[a])]
  {
    assert Span(s, a, a + 1)[0] == LexemeOf(s.toks[a]);
  }

  // ---------------------------------------------------------------------------
  // Printers

  function Sym(k: Kind): seq<Lexeme>
  {
    [Lexeme(k, Text([]))]
  }

  function NameLexeme(name: string): seq<Lexeme>
  {
    [Lexeme(Pid, Text(name))]
  }

  /** A value without array references keeps all it was read from. */
  predicate ValueKept(v: Value)
  {
    !v.ArrayPlaceholder?
  }

  function ValueLexemes(v: Value): seq<Lexeme>
  {
    match v
    case Const(IntLit(n), _) => [Lexeme(NumInt, IntValue(n))]
    case Const(FloatLit(d), _) => [Lexeme(NumFloat, FloatValue(d))]
    case Local(name, _) => NameLexeme(name)
    case ArrayPlaceholder => []
  }

  predicate ExprKept(e: Expression)
  {
    match e
    case Plain(v) => ValueKept(v)
    case Binary(l, r, _) => ValueKept(l) && ValueKept(r)
  }

  function ExprLexemes(e: Expression): seq<Lexeme>
  {
    match e
    case Plain(v) => ValueLexemes(v)
    case Binary(l, r, op) => ValueLexemes(l) + Sym(Lit(OpSymbol(op))) + ValueLexemes(r)
  }

  predicate CondKept(c: Condition)
  {
    ValueKept(c.left) && ValueKept(c.right)
  }

  function CondLexemes(c: Condition): seq<Lexeme>
  {
    ValueLexemes(c.left) + Sym(RelKind(c.op)) + ValueLexemes(c.right)
  }

  /** No array element reference anywhere in the command. */
  predicate CommandKept(c: Command)
    decreases c
  {
    match c
    case Assign(target, e) => ValueKept(target) && ExprKept(e)
    case If(cond, body) => CondKept(cond) && forall i :: 0 <= i < |body| ==> CommandKept(body[i])
    case IfElse(cond, body, other) =>
      CondKept(cond) && (forall i :: 0 <= i < |body| ==> CommandKept(body[i]))
      && forall i :: 0 <= i < |other| ==> CommandKept(other[i])
    case While(cond, body) => CondKept(cond) && forall i :: 0 <= i < |body| ==> CommandKept(body[i])
    case ForUp(_, from, to, body) =>
      ValueKept(from) && ValueKept(to) && forall i :: 0 <= i < |body| ==> CommandKept(body[i])
    case ForDown(_, from, downto, body) =>
      ValueKept(from) && ValueKept(downto) && forall i :: 0 <= i < |body| ==> CommandKept(body[i])
    case Read(target) => ValueKept(target)
    case Write(v) => ValueKept(v)
  }

  predicate CommandsKept(cs: seq<Command>)
  {
    forall i :: 0 <= i < |cs| ==> CommandKept(cs[i])
  }

  function BlockLexemes(cs: seq<Command>): seq<Lexeme>
    decreases cs, 1
  {
    Sym(Begin) + CommandsLexemes(cs) + Sym(Kind.End)
  }

  function CommandLexemes(c: Command): seq<Lexeme>
    decreases c, 2
  {
    match c
    case Assign(target, e) => ValueLexemes(target) + Sym(Gets) + ExprLexemes(e)
    case If(cond, body) => Sym(IfKw) + CondLexemes(cond) + BlockLexemes(body)
    case IfElse(cond, body, other) =>
      Sym(IfKw) + CondLexemes(cond) + Sym(Begin) + CommandsLexemes(body)
      + Sym(ElseKw) + CommandsLexemes(other) + Sym(Kind.End)
    case While(cond, body) => Sym(WhileKw) + CondLexemes(cond) + BlockLexemes(body)
    case ForUp(counter, from, to, body) =>
      Sym(ForKw) + NameLexeme(counter) + Sym(FromKw) + ValueLexemes(from)
      + Sym(ToKw) + ValueLexemes(to) + BlockLexemes(body)
    case ForDown(counter, from, downto, body) =>
      Sym(ForKw) + NameLexeme(counter) + Sym(FromKw) + ValueLexemes(from)
      + Sym(DowntoKw) + ValueLexemes(downto) + BlockLexemes(body)
    case Read(target) => Sym(ReadKw) + ValueLexemes(target)
    case Write(v) => Sym(WriteKw) + ValueLexemes(v)
  }

  function CommandsLexemes(cs: seq<Command>): seq<Lexeme>
    decreases cs, 0
  {
    if cs == [] then [] else CommandLexemes(cs[0]) + CommandsLexemes(cs[1..])
  }

  function TypeKind(t: Ty): Kind
  {
    match t
    case I64 => IntKw
    case F64 => FloatKw
  }

  function DeclLexemes(d: Decl): seq<Lexeme>
  {
    Sym(TypeKind(d.ty)) + NameLexeme(d.name)
    + match d.size
      case Some(n) => Sym(Lit('[')) + [Lexeme(NumInt, IntValue(n))] + Sym(Lit(']'))
      case None => []
  }

  /** A declaration list, separated by commas. */
  function DeclListLexemes(ds: seq<Decl>): seq<Lexeme>
  {
    if ds == [] then []
    else if |ds| == 1 then DeclLexemes(ds[0])
    else DeclLexemes(ds[0]) + Sym(Lit(',')) + DeclListLexemes(ds[1..])
  }

  function ArgsLexemes(ds: seq<Decl>): seq<Lexeme>
  {
    Sym(Lit('(')) + DeclListLexemes(ds) + Sym(Lit(')'))
  }

  function DeclarationsLexemes(ds: seq<Decl>): seq<Lexeme>
  {
    if ds == [] then [] else Sym(WithKw) + DeclListLexemes(ds)
  }

  function ProcedureLexemes(x: Procedure): seq<Lexeme>
  {
    Sym(DefKw) + NameLexeme(x.name) + ArgsLexemes(x.args) + DeclarationsLexemes(x.locals) + BlockLexemes(x.body)
  }

  function ProceduresLexemes(ps: seq<Procedure>): seq<Lexeme>
  {
    if ps == [] then [] else ProcedureLexemes(ps[0]) + ProceduresLexemes(ps[1..])
  }

  function MainLexemes(m: MainProc): seq<Lexeme>
  {
    Sym(DefKw) + Sym(MainKw) + Sym(Lit('(')) + Sym(Lit(')')) + DeclarationsLexemes(m.locals) + BlockLexemes(m.body)
  }

  function ProgramLexemes(prog: Program): seq<Lexeme>
  {
    ProceduresLexemes(prog.procedures) + MainLexemes(prog.main)
  }

  predicate ProgramKept(prog: Program)
  {
    (forall i :: 0 <= i < |prog.procedures| ==> CommandsKept(prog.procedures[i].body))
    && CommandsKept(prog.main.body)
  }

  // ---------------------------------------------------------------------------
  // Values, expressions, conditions

  lemma ValueRoundTrip(s: Stream, p: nat, tb: Tables)
    requires ParseValue(s, p, tb).Ok? && ValueKept(ParseValue(s, p, tb).value.value)
    ensures ParseValue(s, p, tb).value.next == p + 1
    ensures Span(s, p, p + 1) == ValueLexemes(ParseValue(s, p, tb).value.value)
  {
    SpanOne(s, p);
  }

  /** An expression is its left operand, then the operator symbol of its tag,
      then its right operand. */
  lemma ExpressionRoundTrip(s: Stream, p: nat, tb: Tables)
    requires ParseExpression(s, p, tb).Ok? && ExprKept(ParseExpression(s, p, tb).value.value)
    ensures Span(s, p, ParseExpression(s, p, tb).value.next) == ExprLexemes(ParseExpression(s, p, tb).value.value)
  {
    var left := ParseValue(s, p, tb).value;
    ValueRoundTrip(s, p, tb);
    var e := ParseExpression(s, p, tb).value;
    if e.value.Binary? {
      OperatorTags(s.toks[p + 1].kind);
      SpanOne(s, p + 1);
      ValueRoundTrip(s, p + 2, tb);
      SpanSplit(s, p, p + 1, p + 3);
      SpanSplit(s, p + 1, p + 2, p + 3);
    }
  }

  /** A condition is its left operand, the comparison token of its tag, then
      its right operand. */
  lemma ConditionRoundTrip(s: Stream, p: nat, tb: Tables)
    requires ParseCondition(s, p, tb).Ok? && CondKept(ParseCondition(s, p, tb).value.value)
    ensures ParseCondition(s, p, tb).value.next == p + 3
    ensures Span(s, p, p + 3) == CondLexemes(ParseCondition(s, p, tb).value.value)
  {
    ValueRoundTrip(s, p, tb);
    RelationTags(s.toks[p + 1].kind);
    SpanOne(s, p + 1);
    ValueRoundTrip(s, p + 2, tb);
    SpanSplit(s, p, p + 1, p + 3);
    SpanSplit(s, p + 1, p + 2, p + 3);
  }

  // ---------------------------------------------------------------------------
  // Assembling spans, left to right as the printers append

  lemma CommandsLexemesCons(c: Command, rest: seq<Command>)
    ensures CommandsLexemes([c] + rest) == CommandLexemes(c) + CommandsLexemes(rest)
  {
    assert ([c] + rest)[1..] == rest;
  }

  /** A token that carries nothing the parser keeps. */
  lemma SpanSym(s: Stream, p: nat, k: Kind)
    requires At(s, p, k) && k != Pid && k != NumInt && k != NumFloat
    ensures Span(s, p, p + 1) == Sym(k)
  {
    SpanOne(s, p);
  }

  /** Two adjacent spans. */
  lemma SpanJoin(s: Stream, a: nat, b: nat, c: nat, x: seq<Lexeme>, y: seq<Lexeme>)
    requires a <= b <= c <= |s.toks| && Span(s, a, b) == x && Span(s, b, c) == y
    ensures Span(s, a, c) == x + y
  {
    SpanSplit(s, a, b, c);
  }

  /** A span followed by a token of kind `k`. */
  lemma SpanThenSym(s: Stream, a: nat, b: nat, k: Kind, x: seq<Lexeme>)
    requires a <= b < |s.toks| && At(s, b, k) && k != Pid && k != NumInt && k != NumFloat
    requires Span(s, a, b) == x
    ensures Span(s, a, b + 1) == x + Sym(k)
  {
    SpanSym(s, b, k);
    SpanJoin(s, a, b, b + 1, x, Sym(k));
  }

  /** A token of kind `k` followed by a span. */
  lemma SymThenSpan(s: Stream, a: nat, b: nat, k: Kind, y: seq<Lexeme>)
    requires a < b <= |s.toks| && At(s, a, k) && k != Pid && k != NumInt && k != NumFloat
    requires Span(s, a + 1, b) == y
    ensures Span(s, a, b) == Sym(k) + y
  {
    SpanSym(s, a, k);
    SpanJoin(s, a, a + 1, b, Sym(k), y);
  }

  /** `BEGIN commands END`. */
  lemma BracedSpan(s: Stream, c: nat, b: nat, cs: seq<Command>)
    requires c < b < |s.toks| && At(s, c, Begin) && At(s, b, Kind.End)
    requires Span(s, c + 1, b) == CommandsLexemes(cs)
    ensures Span(s, c, b + 1) == BlockLexemes(cs)
  {
    SymThenSpan(s, c, b, Begin, CommandsLexemes(cs));
    SpanThenSym(s, c, b, Kind.End, Sym(Begin) + CommandsLexemes(cs));
  }

  // ---------------------------------------------------------------------------
  // Commands

  /** A command list is its commands one after another, in source order. */
  lemma {:induction false} CommandsRoundTrip(s: Stream, p: nat, tb: Tables, r: Parsed<seq<Command>>)
    requires CommandsParse(s, p, tb, r) && CommandsKept(r.value)
    ensures Span(s, p, r.next) == CommandsLexemes(r.value)
    decreases |s.toks| - p, 4
  {
    var first, rest := CommandsParts(s, p, tb, r);
    assert r.value[0] == first.value;
    CommandRoundTrip(s, p, tb, first);
    if rest.Some? {
      assert forall i :: 0 <= i < |rest.value.value| ==> rest.value.value[i] == r.value[i + 1];
      CommandsRoundTrip(s, first.next, tb, rest.value);
      SpanJoin(s, p, first.next, rest.value.next, CommandLexemes(first.value), CommandsLexemes(rest.value.value));
      CommandsLexemesCons(first.value, rest.value.value);
    } else {
      CommandsLexemesCons(first.value, []);
    }
  }

  /** `BEGIN commands END`. */
  lemma {:induction false} BlockRoundTrip(s: Stream, p: nat, tb: Tables, r: Parsed<seq<Command>>)
    requires ParseBlock(s, p, tb) == Ok(r) && CommandsKept(r.value)
    ensures Span(s, p, r.next) == BlockLexemes(r.value)
    decreases |s.toks| - p, 5
  {
    BlockParts(s, p, tb, r);
    CommandsRoundTrip(s, p + 1, tb, Parsed(r.value, r.next - 1));
    BracedSpan(s, p, r.next - 1, r.value);
  }

  /** One command, by its first token. */
  lemma {:induction false} CommandRoundTrip(s: Stream, p: nat, tb: Tables, r: Parsed<Command>)
    requires CommandParse(s, p, tb, r) && CommandKept(r.value)
    ensures Span(s, p, r.next) == CommandLexemes(r.value)
    decreases |s.toks| - p, 3
  {
    match s.toks[p].kind
    case Pid => AssignRoundTrip(s, p, tb, r);
    case IfKw => IfRoundTrip(s, p, tb, r);
    case WhileKw => WhileRoundTrip(s, p, tb, r);
    case ForKw => ForRoundTrip(s, p, tb, r);
    case ReadKw =>
      ValueRoundTrip(s, p + 1, tb);
      SymThenSpan(s, p, p + 2, ReadKw, ValueLexemes(r.value.target));
    case WriteKw =>
      ValueRoundTrip(s, p + 1, tb);
      SymThenSpan(s, p, p + 2, WriteKw, ValueLexemes(r.value.value));
  }

  lemma AssignRoundTrip(s: Stream, p: nat, tb: Tables, r: Parsed<Command>)
    requires ParseAssign(s, p, tb) == Ok(r) && CommandKept(r.value)
    ensures Span(s, p, r.next) == CommandLexemes(r.value)
  {
    var target := r.value.target;
    ValueRoundTrip(s, p, tb);
    SpanThenSym(s, p, p + 1, Gets, ValueLexemes(target));
    ExpressionRoundTrip(s, p + 2, tb);
    SpanJoin(s, p, p + 2, r.next, ValueLexemes(target) + Sym(Gets), ExprLexemes(r.value.expr));
  }

  lemma {:induction false} IfRoundTrip(s: Stream, p: nat, tb: Tables, r: Parsed<Command>)
    requires IfParse(s, p, tb, r) && CommandKept(r.value) && At(s, p, IfKw)
    ensures Span(s, p, r.next) == CommandLexemes(r.value)
    decreases |s.toks| - p, 2
  {
    var cond, body := IfParts(s, p, tb, r);
    HeadRoundTrip(s, p, IfKw, tb, cond);
    CommandsRoundTrip(s, cond.next + 1, tb, body);
    IfRestRoundTrip(s, p, tb, cond.next, cond.value, body, r);
  }

  /** The braced part of an `if` after its head, which spans from `p` to `c`,
      and its first branch, which spans from `c + 1` to `body.next`. */
  lemma {:induction false} IfRestRoundTrip(s: Stream, p: nat, tb: Tables, c: nat, cond: Condition,
                                           body: Parsed<seq<Command>>, r: Parsed<Command>)
    requires p < c < body.next <= |s.toks| && At(s, c, Begin) && Span(s, p, c) == Sym(IfKw) + CondLexemes(cond)
    requires Span(s, c + 1, body.next) == CommandsLexemes(body.value)
    requires IfRestParse(s, body.next, tb, cond, body.value, r) && CommandKept(r.value)
    ensures Span(s, p, r.next) == CommandLexemes(r.value)
    decreases |s.toks| - p, 1
  {
    var other := ElseParts(s, body.next, tb, cond, body.value, r);
    var head := Sym(IfKw) + CondLexemes(cond);
    if other.None? {
      BracedSpan(s, c, body.next, body.value);
      SpanJoin(s, p, c, body.next + 1, head, BlockLexemes(body.value));
    } else {
      CommandsRoundTrip(s, body.next + 1, tb, other.value);
      ElseRoundTrip(s, p, c, body.next, other.value.next, head, body.value, other.value.value);
    }
  }

  /** A keyword followed by a condition: the head of `if` and `while`. */
  lemma HeadRoundTrip(s: Stream, p: nat, k: Kind, tb: Tables, cond: Parsed<Condition>)
    requires At(s, p, k) && k != Pid && k != NumInt && k != NumFloat
    requires ParseCondition(s, p + 1, tb) == Ok(cond) && CondKept(cond.value)
    ensures cond.next == p + 4 && Span(s, p, cond.next) == Sym(k) + CondLexemes(cond.value)
  {
    ConditionRoundTrip(s, p + 1, tb);
    SymThenSpan(s, p, cond.next, k, CondLexemes(cond.value));
  }

  /** `BEGIN commands ELSE commands END` after the head of an `if`: the
      `else` branch runs from the `else` keyword to the closing brace of the
      `if`. */
  lemma ElseRoundTrip(s: Stream, p: nat, c: nat, b: nat, o: nat, head: seq<Lexeme>, body: seq<Command>, other: seq<Command>)
    requires p <= c < b < o < |s.toks| && At(s, c, Begin) && At(s, b, ElseKw) && At(s, o, Kind.End)
    requires Span(s, p, c) == head
    requires Span(s, c + 1, b) == CommandsLexemes(body) && Span(s, b + 1, o) == CommandsLexemes(other)
    ensures Span(s, p, o + 1) ==
      head + Sym(Begin) + CommandsLexemes(body) + Sym(ElseKw) + CommandsLexemes(other) + Sym(Kind.End)
  {
    SpanThenSym(s, p, c, Begin, head);
    SpanJoin(s, p, c + 1, b, head + Sym(Begin), CommandsLexemes(body));
    SpanThenSym(s, p, b, ElseKw, head + Sym(Begin) + CommandsLexemes(body));
    SpanJoin(s, p, b + 1, o, head + Sym(Begin) + CommandsLexemes(body) + Sym(ElseKw), CommandsLexemes(other));
    SpanThenSym(s, p, o, Kind.End, head + Sym(Begin) + CommandsLexemes(body) + Sym(ElseKw) + CommandsLexemes(other));
  }

  lemma {:induction false} WhileRoundTrip(s: Stream, p: nat, tb: Tables, r: Parsed<Command>)
    requires WhileParse(s, p, tb, r) && CommandKept(r.value) && At(s, p, WhileKw)
    ensures Span(s, p, r.next) == CommandLexemes(r.value)
    decreases |s.toks| - p, 1
  {
    var cond, body := WhileParts(s, p, tb, r);
    HeadRoundTrip(s, p, WhileKw, tb, cond);
    BlockRoundTrip(s, cond.next, tb, body);
    SpanJoin(s, p, cond.next, r.next, Sym(WhileKw) + CondLexemes(cond.value), BlockLexemes(body.value));
  }

  lemma {:induction false} ForRoundTrip(s: Stream, p: nat, tb: Tables, r: Parsed<Command>)
    requires ForParse(s, p, tb, r) && CommandKept(r.value) && At(s, p, ForKw)
    ensures Span(s, p, r.next) == CommandLexemes(r.value)
    decreases |s.toks| - p, 2
  {
    var from := ForParts(s, p, tb, r);
    ForRestRoundTrip(s, p, tb, from, r);
  }

  /** The loop variable and start value, then direction, bound and body. */
  lemma {:induction false} ForRestRoundTrip(s: Stream, p: nat, tb: Tables, from: Parsed<Value>, r: Parsed<Command>)
    requires At(s, p, ForKw) && At(s, p + 1, Pid) && At(s, p + 2, FromKw) && ParseValue(s, p + 3, tb) == Ok(from)
    requires ForRestParse(s, from.next, tb, NameOf(s.toks[p + 1]), from.value, r) && CommandKept(r.value)
    ensures Span(s, p, r.next) == CommandLexemes(r.value)
    decreases |s.toks| - p, 1
  {
    var bound, body := ForRestParts(s, from.next, tb, NameOf(s.toks[p + 1]), from.value, r);
    ValueRoundTrip(s, p + 3, tb);
    ValueRoundTrip(s, p + 5, tb);
    BlockRoundTrip(s, p + 6, tb, body);
    ForSpan(s, p, body.next, s.toks[p + 4].kind, ValueLexemes(from.value), ValueLexemes(bound.value), BlockLexemes(body.value));
  }

  /** The lexemes of `FOR PID FROM value TO|DOWNTO value` and a braced body. */
  lemma ForSpan(s: Stream, p: nat, e: nat, dir: Kind, fromL: seq<Lexeme>, toL: seq<Lexeme>, bodyL: seq<Lexeme>)
    requires p + 6 <= e <= |s.toks|
    requires At(s, p, ForKw) && At(s, p + 1, Pid) && At(s, p + 2, FromKw) && At(s, p + 4, dir)
    requires dir == ToKw || dir == DowntoKw
    requires Span(s, p + 3, p + 4) == fromL && Span(s, p + 5, p + 6) == toL && Span(s, p + 6, e) == bodyL
    ensures Span(s, p, e) == Sym(ForKw) + NameLexeme(NameOf(s.toks[p + 1])) + Sym(FromKw) + fromL
      + Sym(dir) + toL + bodyL
  {
    var name := NameLexeme(NameOf(s.toks[p + 1]));
    SpanSym(s, p, ForKw);
    SpanOne(s, p + 1);
    SpanJoin(s, p, p + 1, p + 2, Sym(ForKw), name);
    SpanThenSym(s, p, p + 2, FromKw, Sym(ForKw) + name);
    SpanJoin(s, p, p + 3, p + 4, Sym(ForKw) + name + Sym(FromKw), fromL);
    SpanThenSym(s, p, p + 4, dir, Sym(ForKw) + name + Sym(FromKw) + fromL);
    SpanJoin(s, p, p + 5, p + 6, Sym(ForKw) + name + Sym(FromKw) + fromL + Sym(dir), toL);
    SpanJoin(s, p, p + 6, e, Sym(ForKw) + name + Sym(FromKw) + fromL + Sym(dir) + toL, bodyL);
  }

  // ---------------------------------------------------------------------------
  // Declarations, procedures and the program

  /** The declaration at `p` parses to `r`. */
  predicate DeclParse(s: Stream, p: nat, r: Parsed<Decl>)
  {
    ParseDeclaration(s, p) == Ok(r)
  }

  /** The declaration list at `p` parses to `r`. */
  predicate DeclListParse(s: Stream, p: nat, r: Parsed<seq<Decl>>)
  {
    ParseDeclList(s, p) == Ok(r)
  }

  /** The tokens of a declaration, position by position. */
  lemma DeclarationParts(s: Stream, p: nat, r: Parsed<Decl>)
    requires DeclParse(s, p, r)
    ensures p + 1 < |s.toks| && s.toks[p].kind == TypeKind(r.value.ty)
    ensures At(s, p + 1, Pid) && r.value.name == NameOf(s.toks[p + 1])
    ensures r.value.size.None? ==> r.next == p + 2
    ensures r.value.size.Some? ==>
      && At(s, p + 2, Lit('[')) && At(s, p + 3, NumInt) && At(s, p + 4, Lit(']'))
      && r.value.size.value == IntOf(s.toks[p + 3]) && r.next == p + 5
  {
  }

  /** A declaration is its type keyword and name, then `[`, its size and `]`
      when it declares an array. */
  lemma DeclarationRoundTrip(s: Stream, p: nat, r: Parsed<Decl>)
    requires DeclParse(s, p, r)
    ensures Span(s, p, r.next) == DeclLexemes(r.value)
  {
    DeclarationParts(s, p, r);
    DeclSpan(s, p, r.value, r.next);
  }

  /** The lexemes of the tokens of a declaration, given position by position. */
  lemma DeclSpan(s: Stream, p: nat, d: Decl, next: nat)
    requires p + 1 < |s.toks| && s.toks[p].kind == TypeKind(d.ty)
    requires At(s, p + 1, Pid) && d.name == NameOf(s.toks[p + 1])
    requires d.size.None? ==> next == p + 2
    requires d.size.Some? ==>
      && At(s, p + 2, Lit('[')) && At(s, p + 3, NumInt) && At(s, p + 4, Lit(']'))
      && d.size.value == IntOf(s.toks[p + 3]) && next == p + 5
    ensures next <= |s.toks| && Span(s, p, next) == DeclLexemes(d)
  {
    var head := Sym(TypeKind(d.ty)) + NameLexeme(d.name);
    SpanSym(s, p, s.toks[p].kind);
    SpanOne(s, p + 1);
    SpanJoin(s, p, p + 1, p + 2, Sym(TypeKind(d.ty)), NameLexeme(d.name));
    if d.size.Some? {
      var size := [Lexeme(NumInt, IntValue(d.size.value))];
      SpanSym(s, p + 2, Lit('['));
      SpanOne(s, p + 3);
      SpanJoin(s, p + 2, p + 3, p + 4, Sym(Lit('[')), size);
      SpanThenSym(s, p + 2, p + 4, Lit(']'), Sym(Lit('[')) + size);
      SpanJoin(s, p, p + 2, p + 5, head, Sym(Lit('[')) + size + Sym(Lit(']')));
    } else {
      assert head + [] == head;
    }
  }

  /** One unfolding of a declaration list: its first declaration, and the
      whole list when no comma follows it. */
  lemma DeclListHead(s: Stream, p: nat, r: Parsed<seq<Decl>>) returns (d: Parsed<Decl>)
    requires DeclListParse(s, p, r)
    ensures DeclParse(s, p, d) && p < d.next
    ensures !At(s, d.next, Lit(',')) ==> r == Parsed([d.value], d.next)
  {
    d := ParseDeclaration(s, p).value;
  }

  /** The list after the comma that follows the first declaration. */
  lemma DeclListTail(s: Stream, p: nat, r: Parsed<seq<Decl>>, d: Parsed<Decl>) returns (rest: Parsed<seq<Decl>>)
    requires DeclListParse(s, p, r) && DeclParse(s, p, d) && At(s, d.next, Lit(','))
    ensures DeclListParse(s, d.next + 1, rest) && d.next + 1 < rest.next
    ensures r == Parsed([d.value] + rest.value, rest.next)
  {
    rest := ParseDeclList(s, d.next + 1).value;
  }

  /** A declaration list is its declarations in source order, separated by commas. */
  lemma {:induction false} DeclListRoundTrip(s: Stream, p: nat, r: Parsed<seq<Decl>>)
    requires DeclListParse(s, p, r)
    ensures p < r.next <= |s.toks| && Span(s, p, r.next) == DeclListLexemes(r.value)
    decreases |s.toks| - p
  {
    var d := DeclListHead(s, p, r);
    DeclarationRoundTrip(s, p, d);
    if At(s, d.next, Lit(',')) {
      var rest := DeclListTail(s, p, r, d);
      DeclListRoundTrip(s, d.next + 1, rest);
      DeclListSpan(s, p, d.next, rest.next, d.value, rest.value);
    }
  }

  /** The lexemes of a declaration, a comma and a further list, given their spans. */
  lemma DeclListSpan(s: Stream, p: nat, c: nat, e: nat, d: Decl, rest: seq<Decl>)
    requires p <= c && c + 1 <= e <= |s.toks| && At(s, c, Lit(',')) && rest != []
    requires Span(s, p, c) == DeclLexemes(d) && Span(s, c + 1, e) == DeclListLexemes(rest)
    ensures Span(s, p, e) == DeclListLexemes([d] + rest)
  {
    var ds := [d] + rest;
    assert ds[0] == d && ds[1..] == rest;
    SpanThenSym(s, p, c, Lit(','), DeclLexemes(d));
    SpanJoin(s, p, c + 1, e, DeclLexemes(d) + Sym(Lit(',')), DeclListLexemes(rest));
  }

  /** Parenthesised arguments. */
  lemma ArgsRoundTrip(s: Stream, p: nat, r: Parsed<seq<Decl>>)
    requires ParseArgs(s, p) == Ok(r)
    ensures Span(s, p, r.next) == ArgsLexemes(r.value)
  {
    if At(s, p + 1, Lit(')')) {
      SpanSym(s, p, Lit('('));
      SpanThenSym(s, p, p + 1, Lit(')'), Sym(Lit('(')));
    } else {
      var ds := ParseDeclList(s, p + 1).value;
      DeclListRoundTrip(s, p + 1, ds);
      SymThenSpan(s, p, ds.next, Lit('('), DeclListLexemes(ds.value));
      SpanThenSym(s, p, ds.next, Lit(')'), Sym(Lit('(')) + DeclListLexemes(ds.value));
    }
  }

  /** Nothing for no locals, otherwise `WITH` and the list. */
  lemma DeclarationsRoundTrip(s: Stream, p: nat, r: Parsed<seq<Decl>>)
    requires ParseDeclarations(s, p) == Ok(r) && p <= |s.toks|
    ensures r.next <= |s.toks| && Span(s, p, r.next) == DeclarationsLexemes(r.value)
  {
    if At(s, p, WithKw) {
      DeclListRoundTrip(s, p + 1, r);
      SymThenSpan(s, p, r.next, WithKw, DeclListLexemes(r.value));
    }
  }

  /** The pieces of a procedure. */
  lemma ProcedureParts(s: Stream, p: nat, tb: Tables, r: Step<Procedure>)
    returns (args: Parsed<seq<Decl>>, locals: Parsed<seq<Decl>>, body: Parsed<seq<Command>>)
    requires ProcedureSpec(s, p, tb) == Ok(r)
    ensures At(s, p, DefKw) && At(s, p + 1, Pid) && p + 2 < args.next <= locals.next < body.next <= |s.toks|
    ensures ParseArgs(s, p + 2) == Ok(args) && ParseDeclarations(s, args.next) == Ok(locals)
    ensures ParseBlock(s, locals.next, RegisterAll(RegisterAll(tb, args.value), locals.value)) == Ok(body)
    ensures r.value == Procedure(NameOf(s.toks[p + 1]), args.value, locals.value, body.value) && r.next == body.next
  {
    args := ParseArgs(s, p + 2).value;
    locals := ParseDeclarations(s, args.next).value;
    body := ParseBlock(s, locals.next, RegisterAll(RegisterAll(tb, args.value), locals.value)).value;
  }

  /** A procedure is `DEF`, its name, its arguments, its locals and its body. */
  lemma ProcedureRoundTrip(s: Stream, p: nat, tb: Tables, r: Step<Procedure>)
    requires ProcedureSpec(s, p, tb) == Ok(r) && CommandsKept(r.value.body)
    ensures Span(s, p, r.next) == ProcedureLexemes(r.value)
  {
    var args, locals, body := ProcedureParts(s, p, tb, r);
    var tb2 := RegisterAll(RegisterAll(tb, args.value), locals.value);
    ArgsRoundTrip(s, p + 2, args);
    DeclarationsRoundTrip(s, args.next, locals);
    BlockRoundTrip(s, locals.next, tb2, body);
    ProcedureSpan(s, p, args.next, locals.next, body.next, r.value);
  }

  /** The lexemes of `DEF PID`, then arguments, locals and body, given their spans. */
  lemma ProcedureSpan(s: Stream, p: nat, a: nat, l: nat, e: nat, x: Procedure)
    requires p + 2 <= a <= l <= e <= |s.toks| && At(s, p, DefKw) && At(s, p + 1, Pid) && x.name == NameOf(s.toks[p + 1])
    requires Span(s, p + 2, a) == ArgsLexemes(x.args) && Span(s, a, l) == DeclarationsLexemes(x.locals)
    requires Span(s, l, e) == BlockLexemes(x.body)
    ensures Span(s, p, e) == ProcedureLexemes(x)
  {
    var name := NameLexeme(x.name);
    SpanSym(s, p, DefKw);
    SpanOne(s, p + 1);
    SpanJoin(s, p, p + 1, p + 2, Sym(DefKw), name);
    SpanJoin(s, p, p + 2, a, Sym(DefKw) + name, ArgsLexemes(x.args));
    SpanJoin(s, p, a, l, Sym(DefKw) + name + ArgsLexemes(x.args), DeclarationsLexemes(x.locals));
    SpanJoin(s, p, l, e, Sym(DefKw) + name + ArgsLexemes(x.args) + DeclarationsLexemes(x.locals), BlockLexemes(x.body));
  }

  /** Every procedure body of a list keeps all it was read from. */
  predicate ProceduresKept(ps: seq<Procedure>)
  {
    forall i :: 0 <= i < |ps| ==> CommandsKept(ps[i].body)
  }

  lemma ProceduresKeptCons(x: Procedure, rest: seq<Procedure>)
    requires ProceduresKept([x] + rest)
    ensures CommandsKept(x.body) && ProceduresKept(rest)
  {
    assert ([x] + rest)[0] == x;
    assert forall i :: 0 <= i < |rest| ==> rest[i] == ([x] + rest)[i + 1];
  }

  lemma ProceduresLexemesCons(x: Procedure, rest: seq<Procedure>)
    ensures ProceduresLexemes([x] + rest) == ProcedureLexemes(x) + ProceduresLexemes(rest)
  {
    assert ([x] + rest)[1..] == rest;
  }

  /** The procedure list at `DEF PID`: the first procedure and the rest. */
  lemma ProceduresSplit(s: Stream, p: nat, tb: Tables, r: Step<seq<Procedure>>)
    returns (first: Step<Procedure>, rest: Step<seq<Procedure>>)
    requires At(s, p, DefKw) && At(s, p + 1, Pid) && ProceduresSpec(s, p, tb) == Ok(r)
    ensures ProcedureSpec(s, p, tb) == Ok(first) && ProceduresSpec(s, first.next, first.tables) == Ok(rest)
    ensures p < first.next <= |s.toks| && r == Step([first.value] + rest.value, rest.tables, rest.next)
  {
    ProceduresStep(s, p, tb);
    first := ProcedureSpec(s, p, tb).value;
    rest := ProceduresSpec(s, first.next, first.tables).value;
  }

  /** The procedure list is its procedures one after another, in source order. */
  lemma {:induction false} ProceduresRoundTrip(s: Stream, p: nat, tb: Tables, r: Step<seq<Procedure>>)
    requires p <= |s.toks| && ProceduresSpec(s, p, tb) == Ok(r) && ProceduresKept(r.value)
    ensures p <= r.next <= |s.toks| && Span(s, p, r.next) == ProceduresLexemes(r.value)
    decreases |s.toks| - p
  {
    if At(s, p, DefKw) && At(s, p + 1, Pid) {
      var first, rest := ProceduresSplit(s, p, tb, r);
      ProceduresKeptCons(first.value, rest.value);
      ProcedureRoundTrip(s, p, tb, first);
      ProceduresRoundTrip(s, first.next, first.tables, rest);
      ProceduresLexemesCons(first.value, rest.value);
      SpanJoin(s, p, first.next, rest.next, ProcedureLexemes(first.value), ProceduresLexemes(rest.value));
    } else {
      ProceduresNil(s, p, tb);
    }
  }

  /** `main` is `DEF MAIN ( )`, its locals and its body. */
  lemma MainRoundTrip(s: Stream, p: nat, tb: Tables, r: Step<MainProc>)
    requires MainSpec(s, p, tb) == Ok(r) && CommandsKept(r.value.body)
    ensures Span(s, p, r.next) == MainLexemes(r.value)
  {
    var locals := ParseDeclarations(s, p + 4).value;
    var tb1 := RegisterAll(tb, locals.value);
    var body := ParseBlock(s, locals.next, tb1).value;
    DeclarationsRoundTrip(s, p + 4, locals);
    BlockRoundTrip(s, locals.next, tb1, body);
    MainSpan(s, p, locals.next, body.next, r.value);
  }

  /** The lexemes of `DEF MAIN ( )`, then locals and body, given their spans. */
  lemma MainSpan(s: Stream, p: nat, l: nat, e: nat, m: MainProc)
    requires p + 4 <= l <= e <= |s.toks|
    requires At(s, p, DefKw) && At(s, p + 1, MainKw) && At(s, p + 2, Lit('(')) && At(s, p + 3, Lit(')'))
    requires Span(s, p + 4, l) == DeclarationsLexemes(m.locals) && Span(s, l, e) == BlockLexemes(m.body)
    ensures Span(s, p, e) == MainLexemes(m)
  {
    var open := Sym(DefKw) + Sym(MainKw) + Sym(Lit('(')) + Sym(Lit(')'));
    SpanSym(s, p, DefKw);
    SpanThenSym(s, p, p + 1, MainKw, Sym(DefKw));
    SpanThenSym(s, p, p + 2, Lit('('), Sym(DefKw) + Sym(MainKw));
    SpanThenSym(s, p, p + 3, Lit(')'), Sym(DefKw) + Sym(MainKw) + Sym(Lit('(')));
    SpanJoin(s, p, p + 4, l, open, DeclarationsLexemes(m.locals));
    SpanJoin(s, p, l, e, open + DeclarationsLexemes(m.locals), BlockLexemes(m.body));
  }

  /** A parsed program accounts for every token of the input: the whole stream
      is its procedures, in source order, followed by `main`. */
  lemma ProgramRoundTrip(s: Stream, tb: Tables, r: Step<Program>)
    requires ProgramSpec(s, tb) == Ok(r)
    requires ProceduresKept(r.value.procedures) && CommandsKept(r.value.main.body)
    ensures Span(s, 0, |s.toks|) == ProgramLexemes(r.value)
  {
    var procs := ProceduresSpec(s, 0, tb).value;
    var main := MainSpec(s, procs.next, procs.tables).value;
    ProceduresRoundTrip(s, 0, tb, procs);
    MainRoundTrip(s, procs.next, procs.tables, main);
    SpanJoin(s, 0, procs.next, main.next, ProceduresLexemes(procs.value), MainLexemes(main.value));
  }
}
