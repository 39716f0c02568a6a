/** The module-text serialiser. The generator writes a text-format
    WebAssembly module for a parsed program: a header with the two imported
    write primitives, one `func` block per procedure declaring its parameters
    and locals, an exported `$main` block declaring `main`'s locals, and the
    closing parenthesis. Command bodies are not lowered; they are never read. */
module Wasm {
  import opened Syntax

  /** `(module`, then the imports of the integer and the float write primitive. */
  const Header: string :=
    "(module \n"
    + "(func $~write_i (import \"imports\" \"write\") (param i64)) \n"
    + "(func $~write_f (import \"imports\" \"write\") (param f64)) \n"

  const Export: string := "(export \"main\" (func $main)) \n"

  /** Closes a `func` block, and at the end the module. */
  const Close: string := ") \n"

  // ---------------------------------------------------------------------------
  // Declaration lines

  /** One declared slot: `(param $x i64)` or `(local $x f64)`. */
  function Entry(kind: string, d: Decl): string
  {
    "(" + kind + " $" + d.name + " " + TyName(d.ty) + ")"
  }

  /** The entries of a declaration list, in list order. */
  function Entries(kind: string, vars: seq<Decl>): seq<string>
  {
    seq(|vars|, i requires 0 <= i < |vars| => Entry(kind, vars[i]))
  }

  /** The parts separated by `sep`, as a string join does it. */
  function Join(parts: seq<string>, sep: string): string
  {
    if |parts| == 0 then ""
    else if |parts| == 1 then parts[0]
    else parts[0] + sep + Join(parts[1..], sep)
  }

  /** What the generator writes for a declaration list: nothing for an empty
      list, otherwise the entries joined by single spaces and ended by " \n". */
  function DeclLine(kind: string, vars: seq<Decl>): string
  {
    if vars == [] then "" else Join(Entries(kind, vars), " ") + " \n"
  }

  // ---------------------------------------------------------------------------
  // Blocks and the module

  /** A procedure's block. The name is written as the parser recorded it,
      without the `$` that `main` and every variable get. */
  function ProcBlock(proc: Procedure): string
  {
    "(func " + proc.name + " \n" + DeclLine("param", proc.args) + DeclLine("local", proc.locals) + Close
  }

  /** The blocks of the procedures, in list order. */
  function ProcBlocks(procs: seq<Procedure>): string
  {
    if procs == [] then "" else ProcBlocks(procs[..|procs| - 1]) + ProcBlock(procs[|procs| - 1])
  }

  function MainBlock(main: MainProc): string
  {
    "(func $main \n" + DeclLine("local", main.locals) + Close
  }

  /** The whole text the generator leaves in its `code` field. */
  function ModuleText(prog: Program): string
  {
    Header + ProcBlocks(prog.procedures) + MainBlock(prog.main) + Export + Close
  }

  // ---------------------------------------------------------------------------
  // The generator object

  class WasmGenerator {
    var code: string

    /** Builds the module text of `prog` step by step, appending to `code`. */
    constructor (prog: Program)
      ensures code == ModuleText(prog)
    {
      code := Header;
      new;
      var procs := prog.procedures;
      for i := 0 to |procs|
        invariant code == Header + ProcBlocks(procs[..i])
      {
        var proc := procs[i];
        ghost var before := code;
        code := code + "(func " + proc.name + " \n";
        ExtractVariables(proc.args, "param");
        ExtractVariables(proc.locals, "local");
        code := code + Close;
        Regroup(before, "(func ", proc.name, " \n", DeclLine("param", proc.args), DeclLine("local", proc.locals), Close);
        assert procs[..i + 1][..i] == procs[..i];
        Assoc(Header, ProcBlocks(procs[..i]), ProcBlock(proc));
      }
      assert procs[..|procs|] == procs;
      var main := prog.main;
      ghost var before := code;
      code := code + "(func $main \n";
      ExtractVariables(main.locals, "local");
      code := code + Close;
      Assoc(before, "(func $main \n", DeclLine("local", main.locals));
      Assoc(before, "(func $main \n" + DeclLine("local", main.locals), Close);
      code := code + Export;
      code := code + Close;
    }

    /** Appends the declaration line of `vars`, written with `kind`. */
    method ExtractVariables(vars: seq<Decl>, kind: string)
      modifies this
      ensures code == old(code) + DeclLine(kind, vars)
    {
      var extracted := Entries(kind, vars);
      if extracted != [] {
        code := code + Join(extracted, " ") + " \n";
        Assoc(old(code), Join(extracted, " "), " \n");
      }
    }
  }

  // ---------------------------------------------------------------------------
  // Regrouping appended text

  lemma Assoc(x: string, y: string, z: string)
    ensures (x + y) + z == x + (y + z)
  {
  }

  /** Text appended piece by piece equals the text appended as one block. */
  lemma Regroup(x: string, a: string, b: string, c: string, d: string, e: string, f: string)
    ensures x + a + b + c + d + e + f == x + (a + b + c + d + e + f)
  {
    Assoc(x, a, b);
    Assoc(x, a + b, c);
    Assoc(x, a + b + c, d);
    Assoc(x, a + b + c + d, e);
    Assoc(x, a + b + c + d + e, f);
  }

  // ---------------------------------------------------------------------------
  // Properties of the text

  /** Occurrences of `c` in `x`. */
  function Count(c: char, x: string): nat
  {
    if x == [] then 0 else (if x[0] == c then 1 else 0) + Count(c, x[1..])
  }

  lemma {:induction false} CountConcat(c: char, x: string, y: string)
    ensures Count(c, x + y) == Count(c, x) + Count(c, y)
  {
    if x != [] {
      assert (x + y)[0] == x[0];
      assert (x + y)[1..] == x[1..] + y;
      CountConcat(c, x[1..], y);
    } else {
      assert x + y == y;
    }
  }

  lemma {:induction false} CountAbsent(c: char, x: string)
    requires c !in x
    ensures Count(c, x) == 0
  {
    if x != [] {
      assert forall i :: 0 <= i < |x[1..]| ==> x[1..][i] == x[i + 1];
      CountAbsent(c, x[1..]);
    }
  }

  /** The module text starts with the header: `(module`, then the integer
      write import, then the float write import, one per line. */
  lemma HeaderFirst(prog: Program)
    ensures ModuleText(prog)[..|Header|] == Header
    ensures ModuleText(prog)[..9] == "(module \n"
  {
    var rest := ProcBlocks(prog.procedures) + MainBlock(prog.main) + Export + Close;
    Assoc(Header, ProcBlocks(prog.procedures), MainBlock(prog.main));
    Assoc(Header, ProcBlocks(prog.procedures) + MainBlock(prog.main), Export);
    Assoc(Header, ProcBlocks(prog.procedures) + MainBlock(prog.main) + Export, Close);
    assert ModuleText(prog)[..9] == ModuleText(prog)[..|Header|][..9];
  }

  /** After the header come the procedure blocks, and after them `main`'s
      block, the export of `$main` and the closing parenthesis, in that order. */
  lemma ModuleLayout(prog: Program)
    ensures var text := ModuleText(prog);
      var k := |Header|;
      var n := |ProcBlocks(prog.procedures)|;
      && k + n <= |text|
      && text[k..k + n] == ProcBlocks(prog.procedures)
      && text[k + n..] == MainBlock(prog.main) + Export + Close
  {
    var blocks := ProcBlocks(prog.procedures);
    var tail := MainBlock(prog.main) + Export + Close;
    var front := Header + blocks;
    Assoc(front, MainBlock(prog.main), Export);
    Assoc(front, MainBlock(prog.main) + Export, Close);
    assert ModuleText(prog) == front + tail;
    assert (front + tail)[|Header|..|front|] == blocks;
  }

  /** The blocks of two lists of procedures, one after the other. */
  lemma {:induction false} ProcBlocksConcat(a: seq<Procedure>, b: seq<Procedure>)
    ensures ProcBlocks(a + b) == ProcBlocks(a) + ProcBlocks(b)
    decreases |b|
  {
    if b == [] {
      assert a + b == a;
    } else {
      var init := b[..|b| - 1];
      assert (a + b)[..|a + b| - 1] == a + init;
      ProcBlocksConcat(a, init);
      Assoc(ProcBlocks(a), ProcBlocks(init), ProcBlock(b[|b| - 1]));
    }
  }

  /** Exactly one block per procedure, in list order: the blocks of a list
      are its first procedure's block followed by the blocks of the rest. */
  lemma ProcBlocksCons(proc: Procedure, rest: seq<Procedure>)
    ensures ProcBlocks([proc] + rest) == ProcBlock(proc) + ProcBlocks(rest)
  {
    ProcBlocksConcat([proc], rest);
    assert [proc][..0] == [];
    assert ProcBlocks([proc]) == "" + ProcBlock(proc) == ProcBlock(proc);
  }

  /** `main` is written as a procedure named `$main` with no parameters. */
  lemma MainAsProcedure(main: MainProc)
    ensures MainBlock(main) == ProcBlock(Procedure("$main", [], main.locals, main.body))
  {
  }

  /** Nothing is written for an empty list, and something for any other. */
  lemma DeclLineEmpty(kind: string, vars: seq<Decl>)
    ensures DeclLine(kind, vars) == "" <==> vars == []
  {
    if vars != [] {
      assert DeclLine(kind, vars)[|DeclLine(kind, vars)| - 1] == '\n';
    }
  }

  /** A single declaration is one entry followed by " \n". */
  lemma DeclLineOne(kind: string, d: Decl)
    ensures DeclLine(kind, [d]) == Entry(kind, d) + " \n"
  {
  }

  /** Entries in list order, separated by single spaces: the line of a list
      is its first entry, one space, then the line of the rest. */
  lemma DeclLineCons(kind: string, d: Decl, rest: seq<Decl>)
    requires rest != []
    ensures DeclLine(kind, [d] + rest) == Entry(kind, d) + " " + DeclLine(kind, rest)
  {
    var es := Entries(kind, [d] + rest);
    assert es[1..] == Entries(kind, rest);
    assert Join(es, " ") == Entry(kind, d) + " " + Join(Entries(kind, rest), " ");
  }

  /** Names and the kind word as the lexer and the generator produce them:
      no line breaks and no parentheses. */
  predicate Plain(x: string)
  {
    '\n' !in x && '(' !in x
  }

  predicate PlainDecls(vars: seq<Decl>)
  {
    forall i :: 0 <= i < |vars| ==> Plain(vars[i].name)
  }

  /** The count of `c` in an entry is the count in its kind word and name,
      plus one when `c` is the opening parenthesis. */
  lemma EntryCount(c: char, kind: string, d: Decl)
    requires c != ' ' && c != '$' && c != ')' && c !in TyName(d.ty)
    ensures Count(c, Entry(kind, d)) == (if c == '(' then 1 else 0) + Count(c, kind) + Count(c, d.name)
  {
    var e1 := "(" + kind;
    var e2 := e1 + " $";
    var e3 := e2 + d.name;
    var e4 := e3 + " ";
    var e5 := e4 + TyName(d.ty);
    CountConcat(c, e5, ")");
    CountConcat(c, e4, TyName(d.ty));
    CountConcat(c, e3, " ");
    CountConcat(c, e2, d.name);
    CountConcat(c, e1, " $");
    CountConcat(c, "(", kind);
    assert "("[1..] == [];
    CountAbsent(c, ")");
    CountAbsent(c, TyName(d.ty));
    CountAbsent(c, " ");
    CountAbsent(c, " $");
  }

  lemma EntryCounts(kind: string, d: Decl)
    requires Plain(kind) && Plain(d.name)
    ensures Count('\n', Entry(kind, d)) == 0 && Count('(', Entry(kind, d)) == 1
  {
    EntryCount('\n', kind, d);
    EntryCount('(', kind, d);
    CountAbsent('\n', kind);
    CountAbsent('(', kind);
    CountAbsent('\n', d.name);
    CountAbsent('(', d.name);
  }

  /** A declaration line is exactly one line, holding one entry (one opening
      parenthesis) per declaration. */
  lemma {:induction false} DeclLineShape(kind: string, vars: seq<Decl>)
    requires Plain(kind) && PlainDecls(vars)
    ensures Count('\n', DeclLine(kind, vars)) == (if vars == [] then 0 else 1)
    ensures Count('(', DeclLine(kind, vars)) == |vars|
    decreases |vars|
  {
    if |vars| == 1 {
      DeclLineOne(kind, vars[0]);
      assert vars == [vars[0]];
      EntryCounts(kind, vars[0]);
      CountConcat('\n', Entry(kind, vars[0]), " \n");
      CountConcat('(', Entry(kind, vars[0]), " \n");
    } else if |vars| > 1 {
      var rest := vars[1..];
      assert vars == [vars[0]] + rest;
      DeclLineCons(kind, vars[0], rest);
      DeclLineShape(kind, rest);
      EntryCounts(kind, vars[0]);
      CountConcat('\n', Entry(kind, vars[0]) + " ", DeclLine(kind, rest));
      CountConcat('(', Entry(kind, vars[0]) + " ", DeclLine(kind, rest));
      CountConcat('\n', Entry(kind, vars[0]), " ");
      CountConcat('(', Entry(kind, vars[0]), " ");
    }
  }

  /** The count of `c` in a procedure's block, piece by piece. */
  lemma ProcBlockCount(c: char, proc: Procedure)
    ensures Count(c, ProcBlock(proc)) == Count(c, "(func ") + Count(c, proc.name) + Count(c, " \n")
      + Count(c, DeclLine("param", proc.args)) + Count(c, DeclLine("local", proc.locals)) + Count(c, Close)
  {
    var b1 := "(func " + proc.name;
    var b2 := b1 + " \n";
    var b3 := b2 + DeclLine("param", proc.args);
    CountConcat(c, b3 + DeclLine("local", proc.locals), Close);
    CountConcat(c, b3, DeclLine("local", proc.locals));
    CountConcat(c, b2, DeclLine("param", proc.args));
    CountConcat(c, b1, " \n");
    CountConcat(c, "(func ", proc.name);
  }

  /** A procedure's block is its `func` line, one line of `param` entries
      when it has arguments, one line of `local` entries when it has locals,
      and the closing line; it holds one entry per declaration. */
  lemma ProcBlockShape(proc: Procedure)
    requires Plain(proc.name) && PlainDecls(proc.args) && PlainDecls(proc.locals)
    ensures Count('\n', ProcBlock(proc))
      == 2 + (if proc.args == [] then 0 else 1) + (if proc.locals == [] then 0 else 1)
    ensures Count('(', ProcBlock(proc)) == 1 + |proc.args| + |proc.locals|
  {
    DeclLineShape("param", proc.args);
    DeclLineShape("local", proc.locals);
    ProcBlockCount('\n', proc);
    ProcBlockCount('(', proc);
    PieceCounts();
    CountAbsent('\n', proc.name);
    CountAbsent('(', proc.name);
  }

  lemma PieceCounts()
    ensures Count('\n', "(func ") == 0 && Count('(', "(func ") == 1
    ensures Count('\n', " \n") == 1 && Count('(', " \n") == 0
    ensures Count('\n', Close) == 1 && Count('(', Close) == 0
  {
    assert "(func "[1..] == "func ";
    CountAbsent('(', "func ");
    CountAbsent('\n', "(func ");
    assert " \n"[1..] == "\n" && "\n"[1..] == [];
    CountAbsent('(', " \n");
    assert Close[1..] == " \n";
    CountAbsent('(', Close);
  }

  // ---------------------------------------------------------------------------
  // Only names and declarations are read

  /** Two programs that agree on everything but the command bodies. */
  predicate SameInterface(p: Program, q: Program)
  {
    && |p.procedures| == |q.procedures|
    && (forall i :: 0 <= i < |p.procedures| ==>
          && p.procedures[i].name == q.procedures[i].name
          && p.procedures[i].args == q.procedures[i].args
          && p.procedures[i].locals == q.procedures[i].locals)
    && p.main.locals == q.main.locals
  }

  lemma {:induction false} ProcBlocksIgnoreBodies(ps: seq<Procedure>, qs: seq<Procedure>)
    requires |ps| == |qs|
    requires forall i :: 0 <= i < |ps| ==>
      ps[i].name == qs[i].name && ps[i].args == qs[i].args && ps[i].locals == qs[i].locals
    ensures ProcBlocks(ps) == ProcBlocks(qs)
    decreases |ps|
  {
    if ps != [] {
      ProcBlocksIgnoreBodies(ps[..|ps| - 1], qs[..|qs| - 1]);
    }
  }

  /** The text depends only on procedure names, arguments and locals and on
      `main`'s locals: changing any command body leaves it unchanged. */
  lemma ModuleTextIgnoresBodies(p: Program, q: Program)
    requires SameInterface(p, q)
    ensures ModuleText(p) == ModuleText(q)
  {
    ProcBlocksIgnoreBodies(p.procedures, q.procedures);
  }
}
