/** The grammar and semantic actions of parser.py (class ImpParser), read as a
    recursive-descent parser over the lexer's token stream. The pure layer
    (this module's functions) recognises the productions and builds the
    intermediate representation; the class ImpParser holds the two symbol
    tables that the declaration actions fill in place and that identifier
    resolution reads, and the `code` field the `program` action sets. */
module Parser {
  import opened Wrappers
  import opened Syntax
  import opened Lexer

  /** Why a parse stops. */
  datatype ParseError =
    | LexicalError(ch: char, line: nat)   // the lexer fails when the parser asks for the next token
    | SyntaxError(tok: Token)             // `error` with the offending token
    | UnexpectedEnd                       // `error` at the end of the input
    | UnknownVariable(name: string)
    | UnknownArray(name: string)
    | NoSuchSymbol(symbol: string)        // an action reads a symbol its production does not have
    | CallNotModelled(tok: Token)         // a `call` command

  datatype Result<T> = Ok(value: T) | Err(error: ParseError)
  {
    predicate IsFailure() { Err? }

    function PropagateFailure<U>(): Result<U>
      requires Err?
    {
      Err(error)
    }

    function Extract(): T
      requires Ok?
    {
      value
    }
  }

  /** A parsed phrase and the position of the first token after it. */
  datatype Parsed<T> = Parsed(value: T, next: nat)

  /** The two symbol tables: scalar names and array names, with their types. */
  datatype Tables = Tables(locals: map<string, Ty>, arrays: map<string, Ty>)

  // ---------------------------------------------------------------------------
  // Reading the token stream

  /** The token at position `p` has kind `k`. */
  predicate At(s: Stream, p: nat, k: Kind)
  {
    p < |s.toks| && s.toks[p].kind == k
  }

  /** The error reported at position `p` when the token there does not fit:
      that token, or how the stream ended. A lexical failure surfaces only when
      the parser asks for the token the lexer could not make. */
  function Unexpected(s: Stream, p: nat): ParseError
  {
    if p < |s.toks| then SyntaxError(s.toks[p])
    else match s.end
      case AtEof => UnexpectedEnd
      case AtIllegal(c, line, _) => LexicalError(c, line)
  }

  /** Consume one token of kind `k`. */
  function Expect(s: Stream, p: nat, k: Kind): Result<nat>
  {
    if At(s, p, k) then Ok(p + 1) else Err(Unexpected(s, p))
  }

  /** The name a PID token carries. */
  function NameOf(t: Token): string
  {
    if t.value.Text? then t.value.s else []
  }

  function IntOf(t: Token): nat
  {
    if t.value.IntValue? then t.value.n else 0
  }

  function DigitsOf(t: Token): string
  {
    if t.value.FloatValue? then t.value.digits else []
  }

  // ---------------------------------------------------------------------------
  // Types, operators and relations

  /** The spelling of the two type keywords in the lexer's rule table. */
  function TypeWord(k: Kind): string
  {
    if k == IntKw then RuleAt(4).word else RuleAt(5).word
  }

  /** `type: INT | FLOAT`. */
  function ParseType(s: Stream, p: nat): (r: Result<Parsed<Ty>>)
    ensures r.Ok? <==> At(s, p, IntKw) || At(s, p, FloatKw)
    ensures r.Ok? ==> r.value.next == p + 1
  {
    if At(s, p, IntKw) then Ok(Parsed(I64, p + 1))
    else if At(s, p, FloatKw) then Ok(Parsed(F64, p + 1))
    else Err(Unexpected(s, p))
  }

  /** The action spells the type as the keyword's first letter followed by
      "64": `int` gives `i64` and `float` gives `f64`. */
  lemma TypeSpelling(s: Stream, p: nat)
    requires ParseType(s, p).Ok?
    ensures TyName(ParseType(s, p).value.value) == [TypeWord(s.toks[p].kind)[0]] + "64"
  {
  }

  /** The operation tag of an arithmetic symbol. */
  function OpOf(k: Kind): Option<BinOp>
  {
    match k
    case Lit(c) =>
      if c == '+' then Some(Add)
      else if c == '-' then Some(Sub)
      else if c == '*' then Some(Mul)
      else if c == '/' then Some(Div)
      else if c == '%' then Some(Mod)
      else None
    case _ => None
  }

  /** The symbol written for each operation tag. */
  function OpSymbol(op: BinOp): char
  {
    match op
    case Add => '+'
    case Sub => '-'
    case Mul => '*'
    case Div => '/'
    case Mod => '%'
  }

  /** Each of the five symbols maps to one tag, and no other token does. */
  lemma OperatorTags(k: Kind)
    ensures OpOf(k).Some? <==> exists op :: k == Lit(OpSymbol(op))
    ensures forall op :: OpOf(k) == Some(op) <==> k == Lit(OpSymbol(op))
  {
    if OpOf(k).Some? {
      assert k == Lit(OpSymbol(OpOf(k).value));
    }
  }

  /** The condition tag of a comparison token. */
  function RelOf(k: Kind): Option<RelOp>
  {
    match k
    case Equals => Some(Eq)
    case NotEquals => Some(Ne)
    case Less => Some(Lt)
    case Greater => Some(Gt)
    case LessEq => Some(Le)
    case GreaterEq => Some(Ge)
    case _ => None
  }

  /** The comparison token written for each condition tag. */
  function RelKind(rel: RelOp): Kind
  {
    match rel
    case Eq => Equals
    case Ne => NotEquals
    case Lt => Less
    case Gt => Greater
    case Le => LessEq
    case Ge => GreaterEq
  }

  /** Each of the six comparison tokens maps to one tag, and no other token does. */
  lemma RelationTags(k: Kind)
    ensures RelOf(k).Some? <==> exists rel :: k == RelKind(rel)
    ensures forall rel :: RelOf(k) == Some(rel) <==> k == RelKind(rel)
  {
    if RelOf(k).Some? {
      assert k == RelKind(RelOf(k).value);
    }
  }

  // ---------------------------------------------------------------------------
  // Values

  /** A value agrees with the tables it was resolved in: a constant's type is
      that of its literal, and a variable has the type its table records. */
  predicate ValueTyped(v: Value, tb: Tables)
  {
    match v
    case Const(lit, ty) => (lit.IntLit? <==> ty == I64)
    case Local(name, ty) => name in tb.locals && tb.locals[name] == ty
    case ArrayPlaceholder => true
  }

  /** `identifier: PID | PID "[" PID "]" | PID "[" NUM_INT "]"`, resolved
      against the tables; an array reference yields the placeholder. */
  function ParseIdentifier(s: Stream, p: nat, tb: Tables): (r: Result<Parsed<Value>>)
    ensures r.Ok? ==> p < r.value.next <= |s.toks| && ValueTyped(r.value.value, tb)
    ensures r.Ok? ==> r.value.value.Local? || r.value.value.ArrayPlaceholder?
  {
    if !At(s, p, Pid) then Err(Unexpected(s, p))
    else
      var name := NameOf(s.toks[p]);
      if !At(s, p + 1, Lit('[')) then
        if name in tb.locals then Ok(Parsed(Local(name, tb.locals[name]), p + 1))
        else Err(UnknownVariable(name))
      else if At(s, p + 2, Pid) then
        if !At(s, p + 3, Lit(']')) then Err(Unexpected(s, p + 3))
        else if name !in tb.arrays then Err(UnknownArray(name))
        else if NameOf(s.toks[p + 2]) !in tb.locals then Err(UnknownVariable(NameOf(s.toks[p + 2])))
        else Ok(Parsed(ArrayPlaceholder, p + 4))
      else if At(s, p + 2, NumInt) then
        if !At(s, p + 3, Lit(']')) then Err(Unexpected(s, p + 3))
        else if name !in tb.arrays then Err(UnknownArray(name))
        else Ok(Parsed(ArrayPlaceholder, p + 4))
      else Err(Unexpected(s, p + 2))
  }

  /** `value: NUM_INT | NUM_FLOAT | identifier`. */
  function ParseValue(s: Stream, p: nat, tb: Tables): (r: Result<Parsed<Value>>)
    ensures r.Ok? ==> p < r.value.next <= |s.toks| && ValueTyped(r.value.value, tb)
    ensures r.Ok? && r.value.value.Const? ==> r.value.next == p + 1
    ensures r.Ok? && r.value.value.Const? ==>
      (r.value.value.ty == I64 <==> At(s, p, NumInt)) && (r.value.value.ty == F64 <==> At(s, p, NumFloat))
  {
    if At(s, p, NumInt) then Ok(Parsed(Const(IntLit(IntOf(s.toks[p])), I64), p + 1))
    else if At(s, p, NumFloat) then Ok(Parsed(Const(FloatLit(DigitsOf(s.toks[p])), F64), p + 1))
    else ParseIdentifier(s, p, tb)
  }

  // ---------------------------------------------------------------------------
  // Expressions and conditions

  predicate ExprTyped(e: Expression, tb: Tables)
  {
    match e
    case Plain(v) => ValueTyped(v, tb)
    case Binary(l, r, _) => ValueTyped(l, tb) && ValueTyped(r, tb)
  }

  predicate CondTyped(c: Condition, tb: Tables)
  {
    ValueTyped(c.left, tb) && ValueTyped(c.right, tb)
  }

  /** `expression: value | value OP value` for the five arithmetic symbols. */
  function ParseExpression(s: Stream, p: nat, tb: Tables): (r: Result<Parsed<Expression>>)
    ensures r.Ok? ==> p < r.value.next <= |s.toks| && ExprTyped(r.value.value, tb)
  {
    var left :- ParseValue(s, p, tb);
    var q := left.next;
    if q < |s.toks| && OpOf(s.toks[q].kind).Some? then
      var right :- ParseValue(s, q + 1, tb);
      Ok(Parsed(Binary(left.value, right.value, OpOf(s.toks[q].kind).value), right.next))
    else
      Ok(Parsed(Plain(left.value), q))
  }

  /** `condition: value REL value` for the six comparison tokens. */
  function ParseCondition(s: Stream, p: nat, tb: Tables): (r: Result<Parsed<Condition>>)
    ensures r.Ok? ==> p < r.value.next <= |s.toks| && CondTyped(r.value.value, tb)
  {
    var left :- ParseValue(s, p, tb);
    var q := left.next;
    if q < |s.toks| && RelOf(s.toks[q].kind).Some? then
      var right :- ParseValue(s, q + 1, tb);
      Ok(Parsed(Cond(RelOf(s.toks[q].kind).value, left.value, right.value), right.next))
    else
      Err(Unexpected(s, q))
  }

  // ---------------------------------------------------------------------------
  // Commands

  /** Every value inside a command agrees with the tables. */
  predicate CommandTyped(c: Command, tb: Tables)
    decreases c
  {
    match c
    case Assign(target, e) => ValueTyped(target, tb) && ExprTyped(e, tb)
    case If(cond, body) =>
      CondTyped(cond, tb) && forall i :: 0 <= i < |body| ==> CommandTyped(body[i], tb)
    case IfElse(cond, body, other) =>
      CondTyped(cond, tb) && (forall i :: 0 <= i < |body| ==> CommandTyped(body[i], tb))
      && forall i :: 0 <= i < |other| ==> CommandTyped(other[i], tb)
    case While(cond, body) =>
      CondTyped(cond, tb) && forall i :: 0 <= i < |body| ==> CommandTyped(body[i], tb)
    case ForUp(_, from, to, body) =>
      ValueTyped(from, tb) && ValueTyped(to, tb) && forall i :: 0 <= i < |body| ==> CommandTyped(body[i], tb)
    case ForDown(_, from, downto, body) =>
      ValueTyped(from, tb) && ValueTyped(downto, tb) && forall i :: 0 <= i < |body| ==> CommandTyped(body[i], tb)
    case Read(target) => ValueTyped(target, tb)
    case Write(v) => ValueTyped(v, tb)
  }

  predicate CommandsTyped(cs: seq<Command>, tb: Tables)
  {
    forall i :: 0 <= i < |cs| ==> CommandTyped(cs[i], tb)
  }

  /** The kinds of token a command can start with. */
  predicate StartsCommand(s: Stream, p: nat)
  {
    p < |s.toks| && s.toks[p].kind in {Pid, IfKw, WhileKw, ForKw, ReadKw, WriteKw, CallKw}
  }

  /** `commands: command | commands command`: one or more commands, in source
      order, for as long as the next token can start one. */
  function ParseCommands(s: Stream, p: nat, tb: Tables): (r: Result<Parsed<seq<Command>>>)
    ensures r.Ok? ==> p < r.value.next <= |s.toks| && 0 < |r.value.value|
    decreases |s.toks| - p, 2
  {
    var first :- ParseCommand(s, p, tb);
    if StartsCommand(s, first.next) then
      var rest :- ParseCommands(s, first.next, tb);
      Ok(Parsed([first.value] + rest.value, rest.next))
    else
      Ok(Parsed([first.value], first.next))
  }

  /** `BEGIN commands END`, the braced body shared by the compound commands. */
  function ParseBlock(s: Stream, p: nat, tb: Tables): (r: Result<Parsed<seq<Command>>>)
    ensures r.Ok? ==> p + 2 < r.value.next <= |s.toks|
    decreases |s.toks| - p, 3
  {
    var q :- Expect(s, p, Begin);
    var body :- ParseCommands(s, q, tb);
    var q' :- Expect(s, body.next, Kind.End);
    Ok(Parsed(body.value, q'))
  }

  /** One command, chosen by its first token. */
  function ParseCommand(s: Stream, p: nat, tb: Tables): (r: Result<Parsed<Command>>)
    ensures r.Ok? ==> p < r.value.next <= |s.toks|
    decreases |s.toks| - p, 1
  {
    if p >= |s.toks| then Err(Unexpected(s, p))
    else
      var t := s.toks[p];
      match t.kind
      case Pid => ParseAssign(s, p, tb)
      case IfKw => ParseIf(s, p, tb)
      case WhileKw => ParseWhile(s, p, tb)
      case ForKw => ParseFor(s, p, tb)
      case ReadKw =>
        var target :- ParseIdentifier(s, p + 1, tb);
        Ok(Parsed(Read(target.value), target.next))
      case WriteKw =>
        var v :- ParseValue(s, p + 1, tb);
        Ok(Parsed(Write(v.value), v.next))
      case CallKw => Err(CallNotModelled(t))
      case _ => Err(SyntaxError(t))
  }

  /** `identifier GETS expression`. */
  function ParseAssign(s: Stream, p: nat, tb: Tables): (r: Result<Parsed<Command>>)
    ensures r.Ok? ==> p < r.value.next <= |s.toks|
  {
    var target :- ParseIdentifier(s, p, tb);
    var q :- Expect(s, target.next, Gets);
    var e :- ParseExpression(s, q, tb);
    Ok(Parsed(Assign(target.value, e.value), e.next))
  }

  /** `IF condition BEGIN commands ELSE commands END` and
      `IF condition BEGIN commands END`, after the `if` at `p`. */
  function ParseIf(s: Stream, p: nat, tb: Tables): (r: Result<Parsed<Command>>)
    ensures r.Ok? ==> p < r.value.next <= |s.toks|
    decreases |s.toks| - p, 0
  {
    var cond :- ParseCondition(s, p + 1, tb);
    var q :- Expect(s, cond.next, Begin);
    var body :- ParseCommands(s, q, tb);
    ParseIfRest(s, body.next, tb, cond.value, body.value)
  }

  /** What follows the first branch of an `if` at `p`: `ELSE commands END` or
      `END`. The `else` branch has no braces of its own; the closing brace of
      the `if` ends it. */
  function ParseIfRest(s: Stream, p: nat, tb: Tables, cond: Condition, body: seq<Command>): (r: Result<Parsed<Command>>)
    ensures r.Ok? ==> p < r.value.next <= |s.toks|
    ensures r.Ok? ==> (r.value.value.If? || r.value.value.IfElse?) && r.value.value.cond == cond && r.value.value.thenBody == body
    decreases |s.toks| - p, 0
  {
    if At(s, p, ElseKw) then
      var other :- ParseCommands(s, p + 1, tb);
      var q :- Expect(s, other.next, Kind.End);
      Ok(Parsed(IfElse(cond, body, other.value), q))
    else
      var q :- Expect(s, p, Kind.End);
      Ok(Parsed(If(cond, body), q))
  }

  /** `WHILE condition BEGIN commands END`, after the `while` at `p`. */
  function ParseWhile(s: Stream, p: nat, tb: Tables): (r: Result<Parsed<Command>>)
    ensures r.Ok? ==> p < r.value.next <= |s.toks|
    decreases |s.toks| - p, 0
  {
    var cond :- ParseCondition(s, p + 1, tb);
    var body :- ParseBlock(s, cond.next, tb);
    Ok(Parsed(While(cond.value, body.value), body.next))
  }

  /** `FOR PID FROM value TO value BEGIN commands END` and the `DOWNTO` form,
      after the `for` at `p`; the loop variable is kept as its raw name. */
  function ParseFor(s: Stream, p: nat, tb: Tables): (r: Result<Parsed<Command>>)
    ensures r.Ok? ==> p < r.value.next <= |s.toks|
    decreases |s.toks| - p, 0
  {
    var q :- Expect(s, p + 1, Pid);
    var q1 :- Expect(s, q, FromKw);
    var from :- ParseValue(s, q1, tb);
    ParseForRest(s, from.next, tb, NameOf(s.toks[p + 1]), from.value)
  }

  /** `TO value BEGIN commands END` or `DOWNTO value BEGIN commands END` at
      `p`, after the start value of a loop on `counter`. */
  function ParseForRest(s: Stream, p: nat, tb: Tables, counter: string, from: Value): (r: Result<Parsed<Command>>)
    ensures r.Ok? ==> p < r.value.next <= |s.toks|
    decreases |s.toks| - p, 0
  {
    if !At(s, p, ToKw) && !At(s, p, DowntoKw) then Err(Unexpected(s, p))
    else
      var bound :- ParseValue(s, p + 1, tb);
      var body :- ParseBlock(s, bound.next, tb);
      if At(s, p, ToKw) then Ok(Parsed(ForUp(counter, from, bound.value, body.value), body.next))
      else Ok(Parsed(ForDown(counter, from, bound.value, body.value), body.next))
  }

  /** The command list from `p` parses to `r`. */
  predicate CommandsParse(s: Stream, p: nat, tb: Tables, r: Parsed<seq<Command>>)
  {
    ParseCommands(s, p, tb) == Ok(r)
  }

  /** The command at `p` parses to `r`. */
  predicate CommandParse(s: Stream, p: nat, tb: Tables, r: Parsed<Command>)
  {
    ParseCommand(s, p, tb) == Ok(r)
  }

  /** The conditional at `p` parses to `r`. */
  predicate IfParse(s: Stream, p: nat, tb: Tables, r: Parsed<Command>)
  {
    ParseIf(s, p, tb) == Ok(r)
  }

  /** The `while` loop at `p` parses to `r`. */
  predicate WhileParse(s: Stream, p: nat, tb: Tables, r: Parsed<Command>)
  {
    ParseWhile(s, p, tb) == Ok(r)
  }

  /** The counted loop at `p` parses to `r`. */
  predicate ForParse(s: Stream, p: nat, tb: Tables, r: Parsed<Command>)
  {
    ParseFor(s, p, tb) == Ok(r)
  }

  /** The pieces of a braced body. */
  lemma BlockParts(s: Stream, p: nat, tb: Tables, r: Parsed<seq<Command>>)
    requires ParseBlock(s, p, tb) == Ok(r)
    ensures At(s, p, Begin) && p + 1 < r.next && At(s, r.next - 1, Kind.End)
    ensures CommandsParse(s, p + 1, tb, Parsed(r.value, r.next - 1))
  {
  }

  /** The pieces of a conditional: its condition and its first branch. */
  lemma IfParts(s: Stream, p: nat, tb: Tables, r: Parsed<Command>)
    returns (cond: Parsed<Condition>, body: Parsed<seq<Command>>)
    requires IfParse(s, p, tb, r)
    ensures ParseCondition(s, p + 1, tb) == Ok(cond) && At(s, cond.next, Begin)
    ensures CommandsParse(s, cond.next + 1, tb, body) && IfRestParse(s, body.next, tb, cond.value, body.value, r)
    ensures (r.value.If? || r.value.IfElse?) && r.value.cond == cond.value
    ensures p + 1 < cond.next < body.next < r.next <= |s.toks| && CondTyped(cond.value, tb)
  {
    cond := ParseCondition(s, p + 1, tb).value;
    body := ParseCommands(s, cond.next + 1, tb).value;
  }

  /** The rest of a conditional parses to `r`. */
  predicate IfRestParse(s: Stream, p: nat, tb: Tables, cond: Condition, body: seq<Command>, r: Parsed<Command>)
  {
    ParseIfRest(s, p, tb, cond, body) == Ok(r)
  }

  /** The end of a conditional: the `else` branch when there is one, and the
      closing brace. */
  lemma ElseParts(s: Stream, p: nat, tb: Tables, cond: Condition, body: seq<Command>, r: Parsed<Command>)
    returns (other: Option<Parsed<seq<Command>>>)
    requires IfRestParse(s, p, tb, cond, body, r)
    ensures other.None? ==> At(s, p, Kind.End) && r == Parsed(If(cond, body), p + 1)
    ensures other.Some? ==>
      && At(s, p, ElseKw) && CommandsParse(s, p + 1, tb, other.value) && At(s, other.value.next, Kind.End)
      && r == Parsed(IfElse(cond, body, other.value.value), other.value.next + 1)
  {
    if At(s, p, ElseKw) {
      other := Some(ParseCommands(s, p + 1, tb).value);
    } else {
      other := None;
    }
  }

  /** The pieces of a `while` loop. */
  lemma WhileParts(s: Stream, p: nat, tb: Tables, r: Parsed<Command>)
    returns (cond: Parsed<Condition>, body: Parsed<seq<Command>>)
    requires WhileParse(s, p, tb, r)
    ensures ParseCondition(s, p + 1, tb) == Ok(cond) && ParseBlock(s, cond.next, tb) == Ok(body)
    ensures r == Parsed(While(cond.value, body.value), body.next)
  {
    cond := ParseCondition(s, p + 1, tb).value;
    body := ParseBlock(s, cond.next, tb).value;
  }

  /** The pieces of a counted loop. */
  lemma ForParts(s: Stream, p: nat, tb: Tables, r: Parsed<Command>) returns (from: Parsed<Value>)
    requires ForParse(s, p, tb, r)
    ensures At(s, p + 1, Pid) && At(s, p + 2, FromKw) && ParseValue(s, p + 3, tb) == Ok(from)
    ensures ForRestParse(s, from.next, tb, NameOf(s.toks[p + 1]), from.value, r)
  {
    from := ParseValue(s, p + 3, tb).value;
  }

  /** The rest of a counted loop parses to `r`. */
  predicate ForRestParse(s: Stream, p: nat, tb: Tables, counter: string, from: Value, r: Parsed<Command>)
  {
    ParseForRest(s, p, tb, counter, from) == Ok(r)
  }

  /** The direction, the bound and the body of a counted loop. */
  lemma ForRestParts(s: Stream, p: nat, tb: Tables, counter: string, from: Value, r: Parsed<Command>)
    returns (bound: Parsed<Value>, body: Parsed<seq<Command>>)
    requires ForRestParse(s, p, tb, counter, from, r)
    ensures At(s, p, ToKw) || At(s, p, DowntoKw)
    ensures ParseValue(s, p + 1, tb) == Ok(bound) && ParseBlock(s, bound.next, tb) == Ok(body)
    ensures r == if At(s, p, ToKw)
      then Parsed(ForUp(counter, from, bound.value, body.value), body.next)
      else Parsed(ForDown(counter, from, bound.value, body.value), body.next)
  {
    bound := ParseValue(s, p + 1, tb).value;
    body := ParseBlock(s, bound.next, tb).value;
  }

  /** One unfolding of a command list: its first command, then either the
      rest of the list or nothing. */
  lemma CommandsParts(s: Stream, p: nat, tb: Tables, r: Parsed<seq<Command>>)
    returns (first: Parsed<Command>, rest: Option<Parsed<seq<Command>>>)
    requires CommandsParse(s, p, tb, r)
    ensures CommandParse(s, p, tb, first)
    ensures rest.None? ==> !StartsCommand(s, first.next) && r == Parsed([first.value], first.next)
    ensures rest.Some? ==>
      && StartsCommand(s, first.next) && CommandsParse(s, first.next, tb, rest.value)
      && r == Parsed([first.value] + rest.value.value, rest.value.next)
  {
    first := ParseCommand(s, p, tb).value;
    if StartsCommand(s, first.next) {
      rest := Some(ParseCommands(s, first.next, tb).value);
    } else {
      rest := None;
    }
  }

  /** Every value in a parsed command list agrees with the tables it was
      resolved in: variables carry their declared type, constants the type
      of their literal. */
  lemma {:induction false} CommandsWellTyped(s: Stream, p: nat, tb: Tables, r: Parsed<seq<Command>>)
    requires CommandsParse(s, p, tb, r)
    ensures CommandsTyped(r.value, tb)
    decreases |s.toks| - p, 3
  {
    var first, rest := CommandsParts(s, p, tb, r);
    CommandWellTyped(s, p, tb, first);
    if rest.Some? {
      CommandsWellTyped(s, first.next, tb, rest.value);
    }
  }

  lemma {:induction false} BlockWellTyped(s: Stream, p: nat, tb: Tables, r: Parsed<seq<Command>>)
    requires ParseBlock(s, p, tb) == Ok(r)
    ensures CommandsTyped(r.value, tb)
    decreases |s.toks| - p, 4
  {
    BlockParts(s, p, tb, r);
    CommandsWellTyped(s, p + 1, tb, Parsed(r.value, r.next - 1));
  }

  lemma {:induction false} CommandWellTyped(s: Stream, p: nat, tb: Tables, r: Parsed<Command>)
    requires CommandParse(s, p, tb, r)
    ensures CommandTyped(r.value, tb)
    decreases |s.toks| - p, 2
  {
    match s.toks[p].kind
    case IfKw => IfWellTyped(s, p, tb, r);
    case WhileKw => WhileWellTyped(s, p, tb, r);
    case ForKw => ForWellTyped(s, p, tb, r);
    case _ =>
  }

  lemma {:induction false} IfWellTyped(s: Stream, p: nat, tb: Tables, r: Parsed<Command>)
    requires IfParse(s, p, tb, r)
    ensures CommandTyped(r.value, tb)
    decreases |s.toks| - p, 1
  {
    var cond, body := IfParts(s, p, tb, r);
    CommandsWellTyped(s, cond.next + 1, tb, body);
    assert CommandsTyped(body.value, tb) && CondTyped(cond.value, tb);
    IfRestWellTyped(s, body.next, tb, cond.value, body.value, r);
  }

  /** The branches of a conditional whose first branch ends at `p`. */
  lemma {:induction false} IfRestWellTyped(s: Stream, p: nat, tb: Tables, cond: Condition,
                                           body: seq<Command>, r: Parsed<Command>)
    requires CondTyped(cond, tb) && CommandsTyped(body, tb) && IfRestParse(s, p, tb, cond, body, r)
    ensures CommandTyped(r.value, tb)
    decreases |s.toks| - p, 0
  {
    var other := ElseParts(s, p, tb, cond, body, r);
    if other.Some? {
      CommandsWellTyped(s, p + 1, tb, other.value);
    }
  }

  lemma {:induction false} WhileWellTyped(s: Stream, p: nat, tb: Tables, r: Parsed<Command>)
    requires WhileParse(s, p, tb, r)
    ensures CommandTyped(r.value, tb)
    decreases |s.toks| - p, 0
  {
    var cond, body := WhileParts(s, p, tb, r);
    BlockWellTyped(s, cond.next, tb, body);
  }

  lemma {:induction false} ForWellTyped(s: Stream, p: nat, tb: Tables, r: Parsed<Command>)
    requires ForParse(s, p, tb, r)
    ensures CommandTyped(r.value, tb)
    decreases |s.toks| - p, 0
  {
    var from := ForParts(s, p, tb, r);
    var bound, body := ForRestParts(s, from.next, tb, NameOf(s.toks[p + 1]), from.value, r);
    BlockWellTyped(s, bound.next, tb, body);
  }

  // ---------------------------------------------------------------------------
  // Declarations

  /** `declaration: type PID "[" NUM_INT "]" | type PID`. The array production
      records the declared size (see ParseDeclarationAsWritten for the action
      as written). */
  function ParseDeclaration(s: Stream, p: nat): (r: Result<Parsed<Decl>>)
    ensures r.Ok? ==> p + 2 <= r.value.next <= |s.toks| && At(s, p + 1, Pid)
    ensures r.Ok? ==> r.value.value.name == NameOf(s.toks[p + 1])
    ensures r.Ok? ==> (r.value.value.size.Some? <==> At(s, p + 2, Lit('[')))
  {
    var ty :- ParseType(s, p);
    var q :- Expect(s, ty.next, Pid);
    var name := NameOf(s.toks[p + 1]);
    if At(s, q, Lit('[')) then
      var q1 :- Expect(s, q + 1, NumInt);
      var q2 :- Expect(s, q1, Lit(']'));
      Ok(Parsed(Decl(ty.value, name, Some(IntOf(s.toks[q + 1]))), q2))
    else
      Ok(Parsed(Decl(ty.value, name, None), q))
  }

  /** The array production as written: its action records the array and then
      reads `p.NUM`, a symbol its rule does not have, so it always fails. */
  function ParseDeclarationAsWritten(s: Stream, p: nat): (r: Result<Parsed<Decl>>)
    ensures r.Err? && r.error == NoSuchSymbol("NUM") <==>
      ParseDeclaration(s, p).Ok? && ParseDeclaration(s, p).value.value.size.Some?
    ensures ParseDeclaration(s, p).Ok? && ParseDeclaration(s, p).value.value.size.None? ==>
      r == ParseDeclaration(s, p)
  {
    var ty :- ParseType(s, p);
    var q :- Expect(s, ty.next, Pid);
    if At(s, q, Lit('[')) then
      var q1 :- Expect(s, q + 1, NumInt);
      var q2 :- Expect(s, q1, Lit(']'));
      Err(NoSuchSymbol("NUM"))
    else
      Ok(Parsed(Decl(ty.value, NameOf(s.toks[p + 1]), None), q))
  }

  /** `nonempty_args: declaration | declaration "," nonempty_args`. */
  function ParseDeclList(s: Stream, p: nat): (r: Result<Parsed<seq<Decl>>>)
    ensures r.Ok? ==> p < r.value.next <= |s.toks| && 0 < |r.value.value|
    decreases |s.toks| - p
  {
    var d :- ParseDeclaration(s, p);
    if At(s, d.next, Lit(',')) then
      var rest :- ParseDeclList(s, d.next + 1);
      Ok(Parsed([d.value] + rest.value, rest.next))
    else
      Ok(Parsed([d.value], d.next))
  }

  /** `args: "(" ")" | "(" nonempty_args ")"`. */
  function ParseArgs(s: Stream, p: nat): (r: Result<Parsed<seq<Decl>>>)
    ensures r.Ok? ==> p + 2 <= r.value.next <= |s.toks|
  {
    var q :- Expect(s, p, Lit('('));
    if At(s, q, Lit(')')) then Ok(Parsed([], q + 1))
    else
      var ds :- ParseDeclList(s, q);
      var q' :- Expect(s, ds.next, Lit(')'));
      Ok(Parsed(ds.value, q'))
  }

  /** `declarations: (empty) | WITH nonempty_args`. */
  function ParseDeclarations(s: Stream, p: nat): (r: Result<Parsed<seq<Decl>>>)
    ensures r.Ok? && r.value.value != [] ==> p < r.value.next <= |s.toks|
    ensures r.Ok? && r.value.value == [] ==> r.value.next == p
  {
    if At(s, p, WithKw) then ParseDeclList(s, p + 1) else Ok(Parsed([], p))
  }

  // ---------------------------------------------------------------------------
  // The symbol tables

  /** The table update of one declaration action: an array declaration records
      its name in the array table, a scalar one in the scalar table. */
  function Register(tb: Tables, d: Decl): Tables
  {
    if d.size.Some? then tb.(arrays := tb.arrays[d.name := d.ty])
    else tb.(locals := tb.locals[d.name := d.ty])
  }

  /** The tables after the actions of a list of declarations, in order. */
  function RegisterAll(tb: Tables, ds: seq<Decl>): Tables
    decreases |ds|
  {
    if ds == [] then tb else Register(RegisterAll(tb, ds[..|ds| - 1]), ds[|ds| - 1])
  }

  /** The table a declaration of the given sort goes to. */
  function Table(tb: Tables, isArray: bool): map<string, Ty>
  {
    if isArray then tb.arrays else tb.locals
  }

  /** `d` declares `name` as an array (`isArray`) or as a scalar. */
  predicate Declares(d: Decl, name: string, isArray: bool)
  {
    d.name == name && d.size.Some? == isArray
  }

  /** The effect of one declaration on the table of one sort. */
  lemma RegisterTable(tb: Tables, d: Decl, isArray: bool)
    ensures Table(Register(tb, d), isArray) ==
      if d.size.Some? == isArray then Table(tb, isArray)[d.name := d.ty] else Table(tb, isArray)
  {
  }

  /** A name the list does not declare keeps the entry it had (or stays absent). */
  lemma {:induction false} UndeclaredKept(tb: Tables, ds: seq<Decl>, name: string, isArray: bool)
    requires forall i :: 0 <= i < |ds| ==> !Declares(ds[i], name, isArray)
    ensures name in Table(RegisterAll(tb, ds), isArray) <==> name in Table(tb, isArray)
    ensures name in Table(tb, isArray) ==> Table(RegisterAll(tb, ds), isArray)[name] == Table(tb, isArray)[name]
    decreases |ds|
  {
    if ds != [] {
      var init := ds[..|ds| - 1];
      assert forall i :: 0 <= i < |init| ==> init[i] == ds[i];
      UndeclaredKept(tb, init, name, isArray);
      RegisterTable(RegisterAll(tb, init), ds[|ds| - 1], isArray);
    }
  }

  /** The last declaration of a name decides its type: a redeclaration
      overwrites the earlier one. */
  lemma {:induction false} LastDeclarationWins(tb: Tables, ds: seq<Decl>, name: string, isArray: bool, i: nat)
    requires i < |ds| && Declares(ds[i], name, isArray)
    requires forall j :: i < j < |ds| ==> !Declares(ds[j], name, isArray)
    ensures name in Table(RegisterAll(tb, ds), isArray)
    ensures Table(RegisterAll(tb, ds), isArray)[name] == ds[i].ty
    decreases |ds|
  {
    var init := ds[..|ds| - 1];
    RegisterTable(RegisterAll(tb, init), ds[|ds| - 1], isArray);
    if i < |ds| - 1 {
      assert forall j :: i < j < |init| ==> init[j] == ds[j];
      LastDeclarationWins(tb, init, name, isArray, i);
    }
  }

  /** Declarations only add or overwrite entries: the tables are never
      cleared, and the new names are exactly the declared ones. */
  lemma {:induction false} TablesGrow(tb: Tables, ds: seq<Decl>, isArray: bool)
    ensures Table(RegisterAll(tb, ds), isArray).Keys ==
      Table(tb, isArray).Keys + set i | 0 <= i < |ds| && ds[i].size.Some? == isArray :: ds[i].name
    decreases |ds|
  {
    if ds != [] {
      var init := ds[..|ds| - 1];
      TablesGrow(tb, init, isArray);
      var added := set i | 0 <= i < |ds| && ds[i].size.Some? == isArray :: ds[i].name;
      var earlier := set i | 0 <= i < |init| && init[i].size.Some? == isArray :: init[i].name;
      assert forall i :: 0 <= i < |init| ==> init[i] == ds[i];
      if ds[|ds| - 1].size.Some? == isArray {
        assert added == earlier + {ds[|ds| - 1].name};
      } else {
        assert added == earlier;
      }
    }
  }

  /** The actions of two lists in a row are those of the concatenated list. */
  lemma {:induction false} RegisterAllConcat(tb: Tables, a: seq<Decl>, b: seq<Decl>)
    ensures RegisterAll(tb, a + b) == RegisterAll(RegisterAll(tb, a), b)
    decreases |b|
  {
    if b == [] {
      assert a + b == a;
    } else {
      RegisterAllConcat(tb, a, b[..|b| - 1]);
      assert (a + b)[..|a + b| - 1] == a + b[..|b| - 1];
    }
  }

  /** After a scalar declaration of `x` with type `t`, resolving `x` gives `Local(x, t)`. */
  lemma ResolveAfterDeclare(s: Stream, p: nat, tb: Tables, ty: Ty)
    requires At(s, p, Pid) && !At(s, p + 1, Lit('['))
    ensures ParseIdentifier(s, p, Register(tb, Decl(ty, NameOf(s.toks[p]), None)))
      == Ok(Parsed(Local(NameOf(s.toks[p]), ty), p + 1))
  {
  }

  /** Resolving a plain name absent from the scalar table fails with "Unknown variable". */
  lemma UnknownVariableFails(s: Stream, p: nat, tb: Tables)
    requires At(s, p, Pid) && !At(s, p + 1, Lit('[')) && NameOf(s.toks[p]) !in tb.locals
    ensures ParseIdentifier(s, p, tb) == Err(UnknownVariable(NameOf(s.toks[p])))
  {
  }

  /** An array reference `a[i]` or `a[n]`: an unknown array is reported first,
      whatever the index; a known array indexed by an unknown name reports that
      name; otherwise the reference resolves to the placeholder. */
  lemma ArrayReferenceChecks(s: Stream, p: nat, tb: Tables)
    requires At(s, p, Pid) && At(s, p + 1, Lit('[')) && At(s, p + 3, Lit(']'))
    requires At(s, p + 2, Pid) || At(s, p + 2, NumInt)
    ensures NameOf(s.toks[p]) !in tb.arrays ==> ParseIdentifier(s, p, tb) == Err(UnknownArray(NameOf(s.toks[p])))
    ensures NameOf(s.toks[p]) in tb.arrays && At(s, p + 2, Pid) && NameOf(s.toks[p + 2]) !in tb.locals ==>
      ParseIdentifier(s, p, tb) == Err(UnknownVariable(NameOf(s.toks[p + 2])))
    ensures NameOf(s.toks[p]) in tb.arrays && (At(s, p + 2, NumInt) || NameOf(s.toks[p + 2]) in tb.locals) ==>
      ParseIdentifier(s, p, tb) == Ok(Parsed(ArrayPlaceholder, p + 4))
  {
  }

  // ---------------------------------------------------------------------------
  // Procedures and the program

  /** A parsed phrase, the tables after its actions, and the next position. */
  datatype Step<T> = Step(value: T, tables: Tables, next: nat)

  /** `procedure: DEF PID args declarations BEGIN commands END`; the body is
      resolved against the tables after the procedure's own declarations. */
  function ProcedureSpec(s: Stream, p: nat, tb: Tables): (r: Result<Step<Procedure>>)
    ensures r.Ok? ==> p < r.value.next <= |s.toks|
    ensures r.Ok? ==> r.value.tables == RegisterAll(tb, r.value.value.args + r.value.value.locals)
    ensures r.Ok? ==> CommandsTyped(r.value.value.body, r.value.tables)
  {
    var q :- Expect(s, p, DefKw);
    var q1 :- Expect(s, q, Pid);
    var args :- ParseArgs(s, q1);
    var tb1 := RegisterAll(tb, args.value);
    var locals :- ParseDeclarations(s, args.next);
    var tb2 := RegisterAll(tb1, locals.value);
    var body :- ParseBlock(s, locals.next, tb2);
    RegisterAllConcat(tb, args.value, locals.value);
    BlockWellTyped(s, locals.next, tb2, body);
    Ok(Step(Procedure(NameOf(s.toks[p + 1]), args.value, locals.value, body.value), tb2, body.next))
  }

  /** `procedures: (empty) | procedures procedure`, read while the input
      continues with `DEF PID`. */
  function ProceduresSpec(s: Stream, p: nat, tb: Tables): (r: Result<Step<seq<Procedure>>>)
    ensures r.Ok? ==> p <= r.value.next
    decreases |s.toks| - p
  {
    if At(s, p, DefKw) && At(s, p + 1, Pid) then
      var first :- ProcedureSpec(s, p, tb);
      var rest :- ProceduresSpec(s, first.next, first.tables);
      Ok(Step([first.value] + rest.value, rest.tables, rest.next))
    else
      Ok(Step([], tb, p))
  }

  /** `main: DEF MAIN "(" ")" declarations BEGIN commands END`. */
  function MainSpec(s: Stream, p: nat, tb: Tables): (r: Result<Step<MainProc>>)
    ensures r.Ok? ==> r.value.value.name == "main"
    ensures r.Ok? ==> p < r.value.next <= |s.toks|
    ensures r.Ok? ==> r.value.tables == RegisterAll(tb, r.value.value.locals)
    ensures r.Ok? ==> CommandsTyped(r.value.value.body, r.value.tables)
  {
    var q :- Expect(s, p, DefKw);
    var q1 :- Expect(s, q, MainKw);
    var q2 :- Expect(s, q1, Lit('('));
    var q3 :- Expect(s, q2, Lit(')'));
    var locals :- ParseDeclarations(s, q3);
    var tb1 := RegisterAll(tb, locals.value);
    var body :- ParseBlock(s, locals.next, tb1);
    BlockWellTyped(s, locals.next, tb1, body);
    Ok(Step(MainProc("main", locals.value, body.value), tb1, body.next))
  }

  /** `program: procedures main`, as far as its semantic action: the LALR
      states after `main`'s closing brace have a single action, so the
      production is reduced (and `code` set) before any further token is
      read. Its tables are those after `main`'s declarations. */
  function ProgramBody(s: Stream, tb: Tables): (r: Result<Step<Program>>)
    ensures r.Ok? ==> r.value.next <= |s.toks| && r.value.value.main.name == "main"
    ensures r.Ok? ==> CommandsTyped(r.value.value.main.body, r.value.tables)
  {
    var procs :- ProceduresSpec(s, 0, tb);
    var main :- MainSpec(s, procs.next, procs.tables);
    Ok(Step(Program(procs.value, main.value), main.tables, main.next))
  }

  /** The accepted program: `procedures main`, which must end the input. */
  function ProgramSpec(s: Stream, tb: Tables): (r: Result<Step<Program>>)
    ensures r.Ok? ==> r.value.next == |s.toks| && s.end == AtEof
    ensures r.Ok? <==> ProgramBody(s, tb).Ok? && ProgramBody(s, tb).value.next == |s.toks| && s.end == AtEof
  {
    var body :- ProgramBody(s, tb);
    if body.next < |s.toks| || s.end.AtIllegal? then Err(Unexpected(s, body.next))
    else Ok(body)
  }

  /** The declarations of a list of procedures, in source order. */
  function ProcDecls(ps: seq<Procedure>): seq<Decl>
  {
    if ps == [] then [] else ps[0].args + ps[0].locals + ProcDecls(ps[1..])
  }

  lemma ProcDeclsCons(x: Procedure, rest: seq<Procedure>)
    ensures ProcDecls([x] + rest) == x.args + x.locals + ProcDecls(rest)
  {
    assert ([x] + rest)[1..] == rest;
  }

  /** One unfolding of the procedure list. */
  lemma ProceduresStep(s: Stream, p: nat, tb: Tables)
    requires At(s, p, DefKw) && At(s, p + 1, Pid) && ProceduresSpec(s, p, tb).Ok?
    ensures ProcedureSpec(s, p, tb).Ok?
    ensures var first := ProcedureSpec(s, p, tb).value;
      ProceduresSpec(s, first.next, first.tables).Ok? &&
      var rest := ProceduresSpec(s, first.next, first.tables).value;
      ProceduresSpec(s, p, tb).value == Step([first.value] + rest.value, rest.tables, rest.next)
  {
  }

  /** Declarations accumulate across procedures: the tables after the list are
      those after all its declarations, in order. */
  lemma {:induction false} ProceduresTables(s: Stream, p: nat, tb: Tables)
    requires ProceduresSpec(s, p, tb).Ok?
    ensures ProceduresSpec(s, p, tb).value.tables == RegisterAll(tb, ProcDecls(ProceduresSpec(s, p, tb).value.value))
    decreases |s.toks| - p
  {
    if At(s, p, DefKw) && At(s, p + 1, Pid) {
      ProceduresStep(s, p, tb);
      var first := ProcedureSpec(s, p, tb).value;
      var rest := ProceduresSpec(s, first.next, first.tables).value;
      ProceduresTables(s, first.next, first.tables);
      ProcDeclsCons(first.value, rest.value);
      RegisterAllConcat(tb, first.value.args + first.value.locals, ProcDecls(rest.value));
    }
  }

  /** Each procedure's body is resolved against every declaration up to and
      including its own, so earlier procedures' names stay visible. */
  lemma {:induction false} ProceduresScoped(s: Stream, p: nat, tb: Tables)
    requires ProceduresSpec(s, p, tb).Ok?
    ensures var ps := ProceduresSpec(s, p, tb).value.value;
      forall i :: 0 <= i < |ps| ==> CommandsTyped(ps[i].body, RegisterAll(tb, ProcDecls(ps[..i + 1])))
    decreases |s.toks| - p
  {
    if At(s, p, DefKw) && At(s, p + 1, Pid) {
      ProceduresStep(s, p, tb);
      var first := ProcedureSpec(s, p, tb).value;
      var rest := ProceduresSpec(s, first.next, first.tables).value.value;
      ProceduresScoped(s, first.next, first.tables);
      ScopedCons(tb, first.value, rest);
    }
  }

  /** The scoping fact for a list with one more procedure in front. */
  lemma ScopedCons(tb: Tables, x: Procedure, rest: seq<Procedure>)
    requires CommandsTyped(x.body, RegisterAll(tb, x.args + x.locals))
    requires forall i :: 0 <= i < |rest| ==>
      CommandsTyped(rest[i].body, RegisterAll(RegisterAll(tb, x.args + x.locals), ProcDecls(rest[..i + 1])))
    ensures var all := [x] + rest;
      forall i :: 0 <= i < |all| ==> CommandsTyped(all[i].body, RegisterAll(tb, ProcDecls(all[..i + 1])))
  {
    var all := [x] + rest;
    forall i | 0 <= i < |all|
      ensures CommandsTyped(all[i].body, RegisterAll(tb, ProcDecls(all[..i + 1])))
    {
      if 0 < i {
        assert rest[..i] == rest[..(i - 1) + 1];
      }
      ScopedConsAt(tb, x, rest, i);
    }
  }

  /** The same, at one position of the longer list. */
  lemma ScopedConsAt(tb: Tables, x: Procedure, rest: seq<Procedure>, i: nat)
    requires i <= |rest|
    requires CommandsTyped(x.body, RegisterAll(tb, x.args + x.locals))
    requires 0 < i ==> CommandsTyped(rest[i - 1].body, RegisterAll(RegisterAll(tb, x.args + x.locals), ProcDecls(rest[..i])))
    ensures CommandsTyped(([x] + rest)[i].body, RegisterAll(tb, ProcDecls(([x] + rest)[..i + 1])))
  {
    var own := x.args + x.locals;
    var all := [x] + rest;
    assert all[..i + 1] == [x] + rest[..i];
    ProcDeclsCons(x, rest[..i]);
    RegisterAllConcat(tb, own, ProcDecls(rest[..i]));
    if i == 0 {
      assert ProcDecls(rest[..0]) == [];
      assert own + [] == own;
    } else {
      assert all[i] == rest[i - 1];
    }
  }

  /** The whole program: the final tables hold every declaration of every
      procedure and then of `main`, in order; `main`'s body sees all of them. */
  lemma ProgramTables(s: Stream, tb: Tables)
    requires ProgramSpec(s, tb).Ok?
    ensures var st := ProgramSpec(s, tb).value;
      st.tables == RegisterAll(tb, ProcDecls(st.value.procedures) + st.value.main.locals) &&
      CommandsTyped(st.value.main.body, st.tables)
  {
    ProceduresTables(s, 0, tb);
    var procs := ProceduresSpec(s, 0, tb).value;
    RegisterAllConcat(tb, ProcDecls(procs.value), MainSpec(s, procs.next, procs.tables).value.value.locals);
  }

  // ---------------------------------------------------------------------------
  // The parser object

  /** A phrase's result together with the tables, as the specification states it. */
  function WithTables<T>(r: Result<Parsed<T>>, tb: Tables): Result<Step<T>>
  {
    match r
    case Ok(Parsed(v, n)) => Ok(Step(v, tb, n))
    case Err(e) => Err(e)
  }

  /** A list of procedures already read in front of the rest. */
  function Extend(ps: seq<Procedure>, r: Result<Step<seq<Procedure>>>): Result<Step<seq<Procedure>>>
  {
    match r
    case Ok(st) => Ok(st.(value := ps + st.value))
    case Err(e) => Err(e)
  }

  lemma ExtendNothing(r: Result<Step<seq<Procedure>>>)
    ensures Extend([], r) == r
  {
    if r.Ok? {
      assert [] + r.value.value == r.value.value;
    }
  }

  lemma ExtendTwice(a: seq<Procedure>, b: seq<Procedure>, r: Result<Step<seq<Procedure>>>)
    ensures Extend(a, Extend(b, r)) == Extend(a + b, r)
  {
    if r.Ok? {
      assert a + (b + r.value.value) == a + b + r.value.value;
    }
  }

  /** The procedure list at a `DEF PID`: that procedure, then the rest. */
  lemma ProceduresCons(s: Stream, p: nat, tb: Tables)
    requires At(s, p, DefKw) && At(s, p + 1, Pid)
    ensures ProcedureSpec(s, p, tb).Err? ==> ProceduresSpec(s, p, tb) == Err(ProcedureSpec(s, p, tb).error)
    ensures ProcedureSpec(s, p, tb).Ok? ==>
      var first := ProcedureSpec(s, p, tb).value;
      ProceduresSpec(s, p, tb) == Extend([first.value], ProceduresSpec(s, first.next, first.tables))
  {
  }

  /** The procedure list ends where `DEF PID` does not follow. */
  lemma ProceduresNil(s: Stream, p: nat, tb: Tables)
    requires !(At(s, p, DefKw) && At(s, p + 1, Pid))
    ensures ProceduresSpec(s, p, tb) == Ok(Step([], tb, p))
  {
  }

  /** The parser's state: the scalar table, the array table, and the program
      record the `program` action stores. */
  class ImpParser {
    var locals: map<string, Ty>
    var localArrays: map<string, Ty>
    var code: Option<Program>

    constructor ()
      ensures locals == map[] && localArrays == map[] && code == None
    {
      locals := map[];
      localArrays := map[];
      code := None;
    }

    function Snapshot(): Tables
      reads this
    {
      Tables(locals, localArrays)
    }

    /** The table update of a declaration action. */
    method Declare(d: Decl)
      modifies this
      ensures Snapshot() == Register(old(Snapshot()), d) && code == old(code)
    {
      if d.size.Some? {
        localArrays := localArrays[d.name := d.ty];
      } else {
        locals := locals[d.name := d.ty];
      }
    }

    /** The actions of a declaration list, one declaration after another. */
    method DeclareAll(ds: seq<Decl>)
      modifies this
      ensures Snapshot() == RegisterAll(old(Snapshot()), ds) && code == old(code)
    {
      for i := 0 to |ds|
        invariant Snapshot() == RegisterAll(old(Snapshot()), ds[..i]) && code == old(code)
      {
        Declare(ds[i]);
        assert ds[..i + 1][..i] == ds[..i];
      }
      assert ds[..|ds|] == ds;
    }

    /** One procedure: its declarations go into the tables before its body is
        resolved. */
    method ParseProcedure(s: Stream, p: nat) returns (r: Result<Parsed<Procedure>>)
      modifies this
      ensures WithTables(r, Snapshot()) == ProcedureSpec(s, p, old(Snapshot())) && code == old(code)
    {
      var q :- Expect(s, p, DefKw);
      var q1 :- Expect(s, q, Pid);
      var args :- ParseArgs(s, q1);
      DeclareAll(args.value);
      var locals :- ParseDeclarations(s, args.next);
      DeclareAll(locals.value);
      var body :- ParseBlock(s, locals.next, Snapshot());
      r := Ok(Parsed(Procedure(NameOf(s.toks[p + 1]), args.value, locals.value, body.value), body.next));
    }

    /** `main`, likewise. */
    method ParseMain(s: Stream, p: nat) returns (r: Result<Parsed<MainProc>>)
      modifies this
      ensures WithTables(r, Snapshot()) == MainSpec(s, p, old(Snapshot())) && code == old(code)
    {
      var q :- Expect(s, p, DefKw);
      var q1 :- Expect(s, q, MainKw);
      var q2 :- Expect(s, q1, Lit('('));
      var q3 :- Expect(s, q2, Lit(')'));
      var locals :- ParseDeclarations(s, q3);
      DeclareAll(locals.value);
      var body :- ParseBlock(s, locals.next, Snapshot());
      r := Ok(Parsed(MainProc("main", locals.value, body.value), body.next));
    }

    /** `procedures`, read while the input continues with `DEF PID`: the list
        grows one procedure at a time in source order, and each procedure's
        declarations go into the tables the later ones see. */
    method ParseProcedures(s: Stream, p0: nat) returns (r: Result<Parsed<seq<Procedure>>>)
      modifies this
      ensures WithTables(r, Snapshot()) == ProceduresSpec(s, p0, old(Snapshot())) && code == old(code)
    {
      ghost var tb0 := Snapshot();
      var procs: seq<Procedure> := [];
      var p := p0;
      ExtendNothing(ProceduresSpec(s, p0, tb0));
      while At(s, p, DefKw) && At(s, p + 1, Pid)
        invariant ProceduresSpec(s, p0, tb0) == Extend(procs, ProceduresSpec(s, p, Snapshot()))
        invariant code == old(code)
        decreases |s.toks| - p
      {
        ghost var before := Snapshot();
        var proc := ParseProcedure(s, p);
        ProceduresCons(s, p, before);
        if proc.Err? {
          return Err(proc.error);
        }
        ExtendTwice(procs, [proc.value.value], ProceduresSpec(s, proc.value.next, Snapshot()));
        procs := procs + [proc.value.value];
        p := proc.value.next;
      }
      ProceduresNil(s, p, Snapshot());
      r := Ok(Parsed(procs, p));
      assert procs + [] == procs;
    }

    /** Parse a whole token stream. The program record is stored in `code`
        as soon as `procedures main` has been read, so a stray token or an
        illegal character after `main` is reported with `code` already set;
        the tables hold what the declaration actions put there. */
    method Parse(s: Stream) returns (r: Result<Program>)
      modifies this
      ensures ProgramSpec(s, old(Snapshot())).Ok? <==> r.Ok?
      ensures r.Ok? ==> ProgramSpec(s, old(Snapshot())).value.value == r.value
      ensures r.Ok? ==> ProgramSpec(s, old(Snapshot())).value.tables == Snapshot() && code == Some(r.value)
      ensures r.Err? ==> ProgramSpec(s, old(Snapshot())) == Err(r.error)
      ensures ProgramBody(s, old(Snapshot())).Ok? ==>
        code == Some(ProgramBody(s, old(Snapshot())).value.value) && Snapshot() == ProgramBody(s, old(Snapshot())).value.tables
      ensures ProgramBody(s, old(Snapshot())).Err? ==> code == old(code)
    {
      var procs := ParseProcedures(s, 0);
      if procs.Err? {
        return Err(procs.error);
      }
      var main := ParseMain(s, procs.value.next);
      if main.Err? {
        return Err(main.error);
      }
      var prog := Program(procs.value.value, main.value.value);
      code := Some(prog);
      if main.value.next < |s.toks| || s.end.AtIllegal? {
        return Err(Unexpected(s, main.value.next));
      }
      r := Ok(prog);
    }
  }
}
