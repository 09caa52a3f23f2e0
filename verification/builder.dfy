/** The indentation-aware code builder (builder.go).

    A `CodeBuilder` is a buffer of rendered lines plus an indentation depth. Go passes
    callbacks to the scoped constructs (`Block`, `Struct`, `Switch`, ...); here a callback
    is the list of builder calls it makes, so a program against the builder is a nested
    command tree. `Exec` runs such a tree the way the Go code does, by appending lines and
    bumping the depth up and down; `Render` says declaratively which lines a tree
    contributes at a given depth. `ExecRenders` ties the two together, and the shape
    lemmas below read off the exact text of each construct. */
module CodeBuilder {
  import opened GoText

  /** The builder's state: the lines appended so far and the current depth. */
  datatype Builder = Builder(lines: seq<string>, indent: nat)

  /** Context.NewCodeBuilder / Context.Code: an empty buffer at depth 0. */
  function NewCodeBuilder(): (b: Builder)
    ensures b.lines == [] && b.indent == 0
  {
    Builder([], 0)
  }

  /** A builder call that writes exactly one line at the current depth. `Line` carries
      text that is already rendered (the `fmt.Sprintf` step is not modelled). */
  datatype Statement =
    | Line(text: string)
    | Comment(text: string)
    | Package(name: string)
    | Import(path: string)
    | Return(values: seq<string>)
    | Assign(left: string, right: string)
    | DeclareAssign(left: string, right: string)
    | Const(name: string, value: string)
    | Var(name: string, typ: string, initial: seq<string>)
    | TypeAlias(name: string, typ: string)
    | RawString(content: string)
    | BuildTag(tag: string)
    | GoGenerate(tag: string)

  /** `Block(header, fn)` and the calls that are `Block` with a header of their own:
      `Function`, `Method`, `If`, `IfErr`, `For`, `ForRange`. */
  datatype Header =
    | BlockHeader(header: string)
    | FunctionHeader(signature: string)
    | MethodHeader(receiver: string, name: string, params: string, results: string)
    | IfHeader(condition: string)
    | IfErrHeader
    | ForHeader(init: string, condition: string, post: string)
    | ForRangeHeader(variable: string, iterable: string)

  /** The calls whose callback gets a typed sub-builder: `Struct`, `Interface`,
      `ConstBlock`, `VarBlock`. */
  datatype Declaration =
    | Struct(name: string, fields: seq<StructCmd>)
    | Interface(name: string, members: seq<InterfaceCmd>)
    | ConstBlock(consts: seq<ConstCmd>)
    | VarBlock(vars: seq<VarCmd>)

  /** The calls a callback receiving a `*CodeBuilder` can make. */
  datatype Cmd =
    | Stmt(stmt: Statement)
    | EmptyLine
    | Scope(head: Header, body: seq<Cmd>)
    | Declare(decl: Declaration)
    | ImportBlock(paths: seq<string>)
    | Switch(expr: string, clauses: seq<CaseCmd>)

  /** The calls offered by a `*StructBuilder`. */
  datatype StructCmd = Field(name: string, typ: string, tags: seq<string>) | EmbeddedField(typ: string)

  /** The calls offered by an `*InterfaceBuilder`. */
  datatype InterfaceCmd = MethodSig(name: string, params: string, results: string) | EmbeddedInterface(typ: string)

  /** The calls offered by a `*ConstBuilder`. */
  datatype ConstCmd = ConstEntry(name: string, value: string) | ConstWithType(name: string, typ: string, value: string)

  /** The call offered by a `*VarBuilder`; only the first of the variadic values is used. */
  datatype VarCmd = VarEntry(name: string, typ: string, initial: seq<string>)

  /** The calls offered by a `*SwitchBuilder`; their callbacks get the `*CodeBuilder`. */
  datatype CaseCmd = Case(value: string, body: seq<Cmd>) | Default(body: seq<Cmd>)

  // ---------------------------------------------------------------------------
  // Textual templates

  /** `import "p"`. */
  function ImportLine(path: string): string
  {
    "import \"" + path + "\""
  }

  /** `"p"`, an entry of an import group. */
  function Quoted(path: string): string
  {
    "\"" + path + "\""
  }

  /** The text of `Return(values...)`: bare `return` exactly when there are no values. */
  function ReturnText(values: seq<string>): (r: string)
    ensures r == "return" <==> |values| == 0
    ensures |values| > 0 ==> r == "return " + Join(values, ", ")
  {
    if |values| == 0 then "return" else "return " + Join(values, ", ")
  }

  /** The header of `For`: bare `for` exactly when all three clauses are empty. */
  function ForText(init: string, condition: string, post: string): (r: string)
    ensures r == "for" <==> (init == "" && condition == "" && post == "")
    ensures r != "for" ==> r == "for " + init + "; " + condition + "; " + post
  {
    var s := "for";
    if init != "" || condition != "" || post != "" then s + " " + init + "; " + condition + "; " + post
    else s
  }

  /** The signature built by `Method`: the result list is appended, after one space,
      only when it is non-empty. */
  function MethodSignature(receiver: string, name: string, params: string, results: string): (r: string)
    ensures var base := "(" + receiver + ") " + name + "(" + params + ")";
      && (results == "" ==> r == base)
      && (results != "" ==> r == base + " " + results)
  {
    var signature := "(" + receiver + ") " + name + "(" + params + ")";
    if results != "" then signature + " " + results else signature
  }

  /** The line of `InterfaceBuilder.Method`, with the same rule for the result list. */
  function InterfaceMethodText(name: string, params: string, results: string): (r: string)
    ensures var base := name + "(" + params + ")";
      && (results == "" ==> r == base)
      && (results != "" ==> r == base + " " + results)
  {
    var signature := name + "(" + params + ")";
    if results != "" then signature + " " + results else signature
  }

  /** The line of `StructBuilder.Field`: the tags, joined by spaces and wrapped in
      backticks, follow only when there are any. */
  function FieldText(name: string, typ: string, tags: seq<string>): (r: string)
    ensures |tags| == 0 ==> r == name + " " + typ
    ensures |tags| > 0 ==> r == name + " " + typ + " `" + Join(tags, " ") + "`"
  {
    var line := name + " " + typ;
    if |tags| > 0 then line + " `" + Join(tags, " ") + "`" else line
  }

  /** `name typ` or `name typ = v` with the first of the optional values. */
  function VarText(name: string, typ: string, initial: seq<string>): (r: string)
    ensures |initial| == 0 ==> r == name + " " + typ
    ensures |initial| > 0 ==> r == name + " " + typ + " = " + initial[0]
  {
    if |initial| > 0 then name + " " + typ + " = " + initial[0] else name + " " + typ
  }

  /** The opening line of `Switch`: `switch {` exactly when the expression is empty. */
  function SwitchHeader(expr: string): (r: string)
    ensures r == "switch {" <==> expr == ""
    ensures expr != "" ==> r == "switch " + expr + " {"
  {
    if expr != "" then "switch " + expr + " {" else "switch {"
  }

  function StructLine(f: StructCmd): string
  {
    match f
    case Field(n, t, tags) => FieldText(n, t, tags)
    case EmbeddedField(t) => t
  }

  function InterfaceLine(m: InterfaceCmd): string
  {
    match m
    case MethodSig(n, p, r) => InterfaceMethodText(n, p, r)
    case EmbeddedInterface(t) => t
  }

  function ConstLine(c: ConstCmd): string
  {
    match c
    case ConstEntry(n, v) => n + " = " + v
    case ConstWithType(n, t, v) => n + " " + t + " = " + v
  }

  function VarLine(v: VarCmd): string
  {
    VarText(v.name, v.typ, v.initial)
  }

  function StructLines(fs: seq<StructCmd>): seq<string>
  {
    if fs == [] then [] else [StructLine(fs[0])] + StructLines(fs[1..])
  }

  function InterfaceLines(ms: seq<InterfaceCmd>): seq<string>
  {
    if ms == [] then [] else [InterfaceLine(ms[0])] + InterfaceLines(ms[1..])
  }

  function ConstLines(cs: seq<ConstCmd>): seq<string>
  {
    if cs == [] then [] else [ConstLine(cs[0])] + ConstLines(cs[1..])
  }

  function VarLines(vs: seq<VarCmd>): seq<string>
  {
    if vs == [] then [] else [VarLine(vs[0])] + VarLines(vs[1..])
  }

  function QuotedAll(paths: seq<string>): seq<string>
  {
    if paths == [] then [] else [Quoted(paths[0])] + QuotedAll(paths[1..])
  }

  lemma {:induction false} StructLinesAt(fs: seq<StructCmd>)
    ensures |StructLines(fs)| == |fs|
    ensures forall i :: 0 <= i < |fs| ==> StructLines(fs)[i] == StructLine(fs[i])
    decreases |fs|
  {
    if fs != [] {
      StructLinesAt(fs[1..]);
    }
  }

  lemma {:induction false} InterfaceLinesAt(ms: seq<InterfaceCmd>)
    ensures |InterfaceLines(ms)| == |ms|
    ensures forall i :: 0 <= i < |ms| ==> InterfaceLines(ms)[i] == InterfaceLine(ms[i])
    decreases |ms|
  {
    if ms != [] {
      InterfaceLinesAt(ms[1..]);
    }
  }

  lemma {:induction false} ConstLinesAt(cs: seq<ConstCmd>)
    ensures |ConstLines(cs)| == |cs|
    ensures forall i :: 0 <= i < |cs| ==> ConstLines(cs)[i] == ConstLine(cs[i])
    decreases |cs|
  {
    if cs != [] {
      ConstLinesAt(cs[1..]);
    }
  }

  lemma {:induction false} VarLinesAt(vs: seq<VarCmd>)
    ensures |VarLines(vs)| == |vs|
    ensures forall i :: 0 <= i < |vs| ==> VarLines(vs)[i] == VarLine(vs[i])
    decreases |vs|
  {
    if vs != [] {
      VarLinesAt(vs[1..]);
    }
  }

  lemma {:induction false} QuotedAllAt(paths: seq<string>)
    ensures |QuotedAll(paths)| == |paths|
    ensures forall i :: 0 <= i < |paths| ==> QuotedAll(paths)[i] == Quoted(paths[i])
    decreases |paths|
  {
    if paths != [] {
      QuotedAllAt(paths[1..]);
    }
  }

  /** The one line a statement call writes (before indentation). */
  function StatementText(s: Statement): string
  {
    match s
    case Line(t) => t
    case Comment(t) => "// " + t
    case Package(n) => "package " + n
    case Import(p) => ImportLine(p)
    case Return(vs) => ReturnText(vs)
    case Assign(l, r) => l + " = " + r
    case DeclareAssign(l, r) => l + " := " + r
    case Const(n, v) => "const " + n + " = " + v
    case Var(n, t, init) => "var " + VarText(n, t, init)
    case TypeAlias(n, t) => "type " + n + " = " + t
    case RawString(t) => "`" + t + "`"
    case BuildTag(t) => "//go:build " + t
    case GoGenerate(t) => "//go:generate " + t
  }

  /** The header handed to `Block`, which appends " {". */
  function HeaderText(h: Header): string
  {
    match h
    case BlockHeader(t) => t
    case FunctionHeader(sig) => "func " + sig
    case MethodHeader(rcv, n, ps, rs) => "func " + MethodSignature(rcv, n, ps, rs)
    case IfHeader(cond) => "if " + cond
    case IfErrHeader => "if err != nil"
    case ForHeader(i, cond, p) => ForText(i, cond, p)
    case ForRangeHeader(v, it) => "for " + v + " := range " + it
  }

  /** The opening line of a declaration group. */
  function Opener(d: Declaration): string
  {
    match d
    case Struct(n, _) => "type " + n + " struct {"
    case Interface(n, _) => "type " + n + " interface {"
    case ConstBlock(_) => "const ("
    case VarBlock(_) => "var ("
  }

  /** The lines the sub-builder calls of a declaration group write, in call order. */
  function Entries(d: Declaration): seq<string>
  {
    match d
    case Struct(_, fs) => StructLines(fs)
    case Interface(_, ms) => InterfaceLines(ms)
    case ConstBlock(cs) => ConstLines(cs)
    case VarBlock(vs) => VarLines(vs)
  }

  /** The closing line of a declaration group: a brace for type bodies, a parenthesis
      for grouped `const`/`var`. */
  function Closer(d: Declaration): string
  {
    if d.Struct? || d.Interface? then "}" else ")"
  }

  // ---------------------------------------------------------------------------
  // The interpreter: the Go statements, one for one

  /** `CodeBuilder.Line`: the text at the current depth, appended. */
  function AppendLine(b: Builder, text: string): Builder
  {
    Builder(b.lines + [Tabs(b.indent) + text], b.indent)
  }

  /** `CodeBuilder.EmptyLine`: an empty line, whatever the depth. */
  function AppendEmpty(b: Builder): Builder
  {
    Builder(b.lines + [""], b.indent)
  }

  /** `cb.indent++`. */
  function Indent(b: Builder): Builder
  {
    b.(indent := b.indent + 1)
  }

  /** `cb.indent--`, only ever applied after a matching `Indent`. */
  function Dedent(b: Builder): Builder
    requires b.indent > 0
  {
    b.(indent := b.indent - 1)
  }

  /** Successive `Line` calls, as the sub-builders make them. */
  function AppendAll(b: Builder, texts: seq<string>): (r: Builder)
    ensures r.indent == b.indent
    decreases texts
  {
    if texts == [] then b else AppendAll(AppendLine(b, texts[0]), texts[1..])
  }

  /** A run of builder calls. Whatever the calls, and however deeply they nest, the
      depth afterwards is the depth before: every `indent++` is matched by an
      `indent--`. */
  function Exec(cmds: seq<Cmd>, b: Builder): (r: Builder)
    ensures r.indent == b.indent
    decreases cmds, 0
  {
    if cmds == [] then b else Exec(cmds[1..], Step(cmds[0], b))
  }

  /** `CodeBuilder.Block(header, fn)`: the header line, then `fn` one level deeper, then
      the closing brace back at the original depth. */
  function Scoped(b: Builder, header: string, body: seq<Cmd>): (r: Builder)
    ensures r.indent == b.indent
    decreases body, 1
  {
    var entered := Indent(AppendLine(b, header + " {"));
    AppendLine(Dedent(Exec(body, entered)), "}")
  }

  /** A construct whose body is a list of sub-builder lines: opener, the lines one level
      deeper, closer at the original depth. */
  function Grouped(b: Builder, opener: string, texts: seq<string>, closer: string): (r: Builder)
    ensures r.indent == b.indent
  {
    var entered := Indent(AppendLine(b, opener));
    AppendLine(Dedent(AppendAll(entered, texts)), closer)
  }

  /** One builder call. */
  function Step(c: Cmd, b: Builder): (r: Builder)
    ensures r.indent == b.indent
    decreases c, 0
  {
    match c
    case Stmt(s) => AppendLine(b, StatementText(s))
    case EmptyLine => AppendEmpty(b)
    case Scope(h, body) => Scoped(b, HeaderText(h), body)
    case Declare(d) => Grouped(b, Opener(d), Entries(d), Closer(d))
    case ImportBlock(ps) =>
      if |ps| == 0 then b
      else if |ps| == 1 then AppendLine(b, ImportLine(ps[0]))
      else Grouped(b, "import (", QuotedAll(ps), ")")
    case Switch(e, cs) =>
      var entered := Indent(AppendLine(b, SwitchHeader(e)));
      AppendLine(Dedent(ExecCases(cs, entered)), "}")
  }

  /** A run of `Case`/`Default` calls inside a switch callback. */
  function ExecCases(cs: seq<CaseCmd>, b: Builder): (r: Builder)
    ensures r.indent == b.indent
    decreases cs, 0
  {
    if cs == [] then b else ExecCases(cs[1..], StepCase(cs[0], b))
  }

  /** The label line of a switch clause. */
  function Label(c: CaseCmd): string
  {
    match c
    case Case(v, _) => "case " + v + ":"
    case Default(_) => "default:"
  }

  /** `SwitchBuilder.Case` / `Default`: the label line, then the body one level deeper;
      the depth is lowered again but no closing line is written. */
  function StepCase(c: CaseCmd, b: Builder): (r: Builder)
    ensures r.indent == b.indent
    decreases c, 0
  {
    Dedent(Exec(c.body, Indent(AppendLine(b, Label(c)))))
  }

  // ---------------------------------------------------------------------------
  // The declarative reading: which lines a command tree contributes at depth k

  /** One line at depth k. */
  function Indented(k: nat, text: string): (r: string)
    ensures Tabs(k) <= r
  {
    var r := Tabs(k) + text;
    assert r[..k] == Tabs(k);
    r
  }

  function IndentedAll(k: nat, texts: seq<string>): seq<string>
  {
    if texts == [] then [] else [Indented(k, texts[0])] + IndentedAll(k, texts[1..])
  }

  lemma {:induction false} IndentedAllAt(k: nat, texts: seq<string>)
    ensures |IndentedAll(k, texts)| == |texts|
    ensures forall i :: 0 <= i < |texts| ==> IndentedAll(k, texts)[i] == Indented(k, texts[i])
    decreases |texts|
  {
    if texts != [] {
      IndentedAllAt(k, texts[1..]);
    }
  }

  /** An opener at depth k, the inner lines, a closer at depth k. */
  function Bracketed(k: nat, opener: string, inner: seq<string>, closer: string): seq<string>
  {
    [Indented(k, opener)] + inner + [Indented(k, closer)]
  }

  function Render(cmds: seq<Cmd>, k: nat): seq<string>
    decreases cmds, 0
  {
    if cmds == [] then [] else RenderCmd(cmds[0], k) + Render(cmds[1..], k)
  }

  function RenderCmd(c: Cmd, k: nat): seq<string>
    decreases c, 0
  {
    match c
    case Stmt(s) => [Indented(k, StatementText(s))]
    case EmptyLine => [""]
    case Scope(h, body) => Bracketed(k, HeaderText(h) + " {", Render(body, k + 1), "}")
    case Declare(d) => Bracketed(k, Opener(d), IndentedAll(k + 1, Entries(d)), Closer(d))
    case ImportBlock(ps) =>
      if |ps| == 0 then []
      else if |ps| == 1 then [Indented(k, ImportLine(ps[0]))]
      else Bracketed(k, "import (", IndentedAll(k + 1, QuotedAll(ps)), ")")
    case Switch(e, cs) => Bracketed(k, SwitchHeader(e), RenderCases(cs, k + 1), "}")
  }

  function RenderCases(cs: seq<CaseCmd>, k: nat): seq<string>
    decreases cs, 0
  {
    if cs == [] then [] else RenderCase(cs[0], k) + RenderCases(cs[1..], k)
  }

  function RenderCase(c: CaseCmd, k: nat): seq<string>
    decreases c, 0
  {
    [Indented(k, Label(c))] + Render(c.body, k + 1)
  }

  // ---------------------------------------------------------------------------
  // The interpreter agrees with the declarative reading

  lemma {:induction false} AppendAllRenders(b: Builder, texts: seq<string>)
    ensures AppendAll(b, texts) == Builder(b.lines + IndentedAll(b.indent, texts), b.indent)
    decreases texts
  {
    if texts != [] {
      AppendAllRenders(AppendLine(b, texts[0]), texts[1..]);
      assert IndentedAll(b.indent, texts) == [Indented(b.indent, texts[0])] + IndentedAll(b.indent, texts[1..]);
    }
  }

  lemma GroupedRenders(b: Builder, opener: string, texts: seq<string>, closer: string)
    ensures Grouped(b, opener, texts, closer)
         == Builder(b.lines + Bracketed(b.indent, opener, IndentedAll(b.indent + 1, texts), closer), b.indent)
  {
    AppendAllRenders(Indent(AppendLine(b, opener)), texts);
  }

  /** Running commands on a builder appends exactly the lines `Render` assigns them at
      the builder's depth, and leaves the depth as it was. */
  lemma {:induction false} ExecRenders(cmds: seq<Cmd>, b: Builder)
    ensures Exec(cmds, b) == Builder(b.lines + Render(cmds, b.indent), b.indent)
    decreases cmds, 0
  {
    if cmds != [] {
      StepRenders(cmds[0], b);
      ExecRenders(cmds[1..], Step(cmds[0], b));
      ExecCons(cmds, b);
      RenderCons(cmds, b.indent);
      Assoc(b.lines, RenderCmd(cmds[0], b.indent), Render(cmds[1..], b.indent));
    }
  }

  lemma ExecCons(cmds: seq<Cmd>, b: Builder)
    requires cmds != []
    ensures Exec(cmds, b) == Exec(cmds[1..], Step(cmds[0], b))
  {
  }

  lemma RenderCons(cmds: seq<Cmd>, k: nat)
    requires cmds != []
    ensures Render(cmds, k) == RenderCmd(cmds[0], k) + Render(cmds[1..], k)
  {
  }

  lemma ExecCasesCons(cs: seq<CaseCmd>, b: Builder)
    requires cs != []
    ensures ExecCases(cs, b) == ExecCases(cs[1..], StepCase(cs[0], b))
  {
  }

  lemma RenderCasesCons(cs: seq<CaseCmd>, k: nat)
    requires cs != []
    ensures RenderCases(cs, k) == RenderCase(cs[0], k) + RenderCases(cs[1..], k)
  {
  }

  lemma Assoc(a: seq<string>, x: seq<string>, y: seq<string>)
    ensures a + x + y == a + (x + y)
  {
  }

  lemma {:induction false} ScopedRenders(b: Builder, header: string, body: seq<Cmd>)
    ensures Scoped(b, header, body)
         == Builder(b.lines + Bracketed(b.indent, header + " {", Render(body, b.indent + 1), "}"), b.indent)
    decreases body, 1
  {
    var k := b.indent;
    var entered := Indent(AppendLine(b, header + " {"));
    assert entered == Builder(b.lines + [Indented(k, header + " {")], k + 1);
    ExecRenders(body, entered);
    CloseRenders(b, header + " {", Exec(body, entered), Render(body, k + 1), "}");
  }

  lemma AppendLineRenders(b: Builder, text: string)
    ensures AppendLine(b, text) == Builder(b.lines + [Indented(b.indent, text)], b.indent)
  {
  }

  /** Closing a construct whose inner lines are `inner`: lowering the depth and writing
      the closer brackets the inner lines between opener and closer. */
  lemma CloseRenders(b: Builder, opener: string, inner: Builder, x: seq<string>, closer: string)
    requires inner == Builder(b.lines + [Indented(b.indent, opener)] + x, b.indent + 1)
    ensures AppendLine(Dedent(inner), closer) == Builder(b.lines + Bracketed(b.indent, opener, x, closer), b.indent)
  {
    assert b.lines + [Indented(b.indent, opener)] + x + [Indented(b.indent, closer)]
        == b.lines + Bracketed(b.indent, opener, x, closer);
  }

  lemma {:induction false} SwitchRenders(e: string, cs: seq<CaseCmd>, b: Builder)
    ensures Step(Switch(e, cs), b) == Builder(b.lines + RenderCmd(Switch(e, cs), b.indent), b.indent)
    decreases Switch(e, cs), 1
  {
    var k := b.indent;
    var entered := Indent(AppendLine(b, SwitchHeader(e)));
    assert entered == Builder(b.lines + [Indented(k, SwitchHeader(e))], k + 1);
    CasesRender(cs, entered);
    CloseRenders(b, SwitchHeader(e), ExecCases(cs, entered), RenderCases(cs, k + 1), "}");
  }

  lemma ImportRenders(ps: seq<string>, b: Builder)
    ensures Step(ImportBlock(ps), b) == Builder(b.lines + RenderCmd(ImportBlock(ps), b.indent), b.indent)
  {
    if |ps| >= 2 {
      GroupedRenders(b, "import (", QuotedAll(ps), ")");
    } else if |ps| == 1 {
      AppendLineRenders(b, ImportLine(ps[0]));
    }
  }

  lemma {:induction false} StepRenders(c: Cmd, b: Builder)
    ensures Step(c, b) == Builder(b.lines + RenderCmd(c, b.indent), b.indent)
    decreases c, 2
  {
    match c
    case Stmt(s) => AppendLineRenders(b, StatementText(s));
    case EmptyLine =>
    case Scope(h, body) => ScopedRenders(b, HeaderText(h), body);
    case Declare(d) => GroupedRenders(b, Opener(d), Entries(d), Closer(d));
    case ImportBlock(ps) => ImportRenders(ps, b);
    case Switch(e, cs) => SwitchRenders(e, cs, b);
  }

  lemma {:induction false} CasesRender(cs: seq<CaseCmd>, b: Builder)
    ensures ExecCases(cs, b) == Builder(b.lines + RenderCases(cs, b.indent), b.indent)
    decreases cs, 0
  {
    if cs != [] {
      CaseRenders(cs[0], b);
      CasesRender(cs[1..], StepCase(cs[0], b));
      ExecCasesCons(cs, b);
      RenderCasesCons(cs, b.indent);
      Assoc(b.lines, RenderCase(cs[0], b.indent), RenderCases(cs[1..], b.indent));
    }
  }

  lemma {:induction false} CaseRenders(c: CaseCmd, b: Builder)
    ensures StepCase(c, b) == Builder(b.lines + RenderCase(c, b.indent), b.indent)
    decreases c, 0
  {
    var k := b.indent;
    var entered := Indent(AppendLine(b, Label(c)));
    assert entered == Builder(b.lines + [Indented(k, Label(c))], k + 1);
    ExecRenders(c.body, entered);
    assert b.lines + [Indented(k, Label(c))] + Render(c.body, k + 1) == b.lines + RenderCase(c, k);
  }

  /** What a command list produces on its own, on an empty buffer at depth k. */
  function Alone(cmds: seq<Cmd>, k: nat): seq<string>
  {
    Exec(cmds, Builder([], k)).lines
  }

  /** On its own, a command list produces exactly its rendering. */
  lemma AloneRenders(cmds: seq<Cmd>, k: nat)
    ensures Alone(cmds, k) == Render(cmds, k)
  {
    ExecRenders(cmds, Builder([], k));
    assert [] + Render(cmds, k) == Render(cmds, k);
  }

  /** What a list of switch clauses produces on its own at depth k. */
  function CasesAlone(cs: seq<CaseCmd>, k: nat): seq<string>
  {
    ExecCases(cs, Builder([], k)).lines
  }

  /** Builder calls made one after another compose: the chain `a` then `c` is `c` run on
      the result of `a`. */
  lemma {:induction false} ExecConcat(a: seq<Cmd>, c: seq<Cmd>, b: Builder)
    ensures Exec(a + c, b) == Exec(c, Exec(a, b))
    decreases |a|
  {
    if a != [] {
      assert (a + c)[0] == a[0];
      assert (a + c)[1..] == a[1..] + c;
      assert Exec(a + c, b) == Exec(a[1..] + c, Step(a[0], b));
      assert Exec(a, b) == Exec(a[1..], Step(a[0], b));
      ExecConcat(a[1..], c, Step(a[0], b));
    } else {
      assert a + c == c;
    }
  }

  /** Builder calls only ever append: the lines present before a run are kept, unchanged,
      as a prefix of the lines after it. */
  lemma ExecAppendsOnly(cmds: seq<Cmd>, b: Builder)
    ensures |b.lines| <= |Exec(cmds, b).lines|
    ensures Exec(cmds, b).lines[..|b.lines|] == b.lines
  {
    ExecRenders(cmds, b);
    assert (b.lines + Render(cmds, b.indent))[..|b.lines|] == b.lines;
  }

  // ---------------------------------------------------------------------------
  // The shape of each construct

  /** `Line`: exactly one more line, made of `indent` tabs followed by the text; the depth
      is unchanged and the earlier lines stay as they were. */
  lemma LineShape(text: string, b: Builder)
    ensures var r := Step(Stmt(Line(text)), b); var n := |b.lines|; var k := b.indent;
      && r.indent == k
      && |r.lines| == n + 1 && r.lines[..n] == b.lines
      && |r.lines[n]| == k + |text|
      && (forall i :: 0 <= i < k ==> r.lines[n][i] == '\t')
      && r.lines[n][k..] == text
  {
    var r := Step(Stmt(Line(text)), b);
    assert r.lines == b.lines + [Tabs(b.indent) + text];
    assert r.lines[..|b.lines|] == b.lines;
    assert (Tabs(b.indent) + text)[b.indent..] == text;
  }

  /** `EmptyLine`: exactly one more line, the empty one, even at a non-zero depth. */
  lemma EmptyLineShape(b: Builder)
    ensures var r := Step(EmptyLine, b);
      && r.indent == b.indent
      && |r.lines| == |b.lines| + 1 && r.lines[..|b.lines|] == b.lines
      && r.lines[|b.lines|] == ""
  {
    assert (b.lines + [""])[..|b.lines|] == b.lines;
  }

  /** `Block` (and `Function`, `Method`, `If`, `IfErr`, `For`, `ForRange`, which are
      `Block` with a header of their own): the header and " {" at depth k, then exactly
      the lines the body would produce on its own at depth k+1 (none at all, or further
      nested blocks), then "}" at depth k; the depth is k again afterwards. */
  lemma BlockShape(head: Header, body: seq<Cmd>, b: Builder)
    ensures var k := b.indent;
      Step(Scope(head, body), b)
      == Builder(b.lines + [Indented(k, HeaderText(head) + " {")] + Alone(body, k + 1) + [Indented(k, "}")], k)
  {
    var k := b.indent;
    StepRenders(Scope(head, body), b);
    ScopeRenderCmd(head, body, k);
    AloneRenders(body, k + 1);
    BracketedAfter(b.lines, k, HeaderText(head) + " {", Render(body, k + 1), "}");
  }

  lemma ScopeRenderCmd(head: Header, body: seq<Cmd>, k: nat)
    ensures RenderCmd(Scope(head, body), k) == Bracketed(k, HeaderText(head) + " {", Render(body, k + 1), "}")
  {
  }

  lemma SwitchRenderCmd(expr: string, clauses: seq<CaseCmd>, k: nat)
    ensures RenderCmd(Switch(expr, clauses), k) == Bracketed(k, SwitchHeader(expr), RenderCases(clauses, k + 1), "}")
  {
  }

  /** A bracketed group after earlier lines, spelled out line by line. */
  lemma BracketedAfter(pre: seq<string>, k: nat, opener: string, inner: seq<string>, closer: string)
    ensures pre + Bracketed(k, opener, inner, closer) == pre + [Indented(k, opener)] + inner + [Indented(k, closer)]
  {
  }

  /** The opening line of `Block` and `Function`, before indentation: `Block` uses the
      header as given and `Function` puts "func " before the signature. */
  lemma BlockOpener(h: Header)
    ensures h.BlockHeader? ==> HeaderText(h) + " {" == h.header + " {"
    ensures h.FunctionHeader? ==> HeaderText(h) + " {" == "func " + h.signature + " {"
  {
  }

  /** The opening line of the control-flow calls with a fixed keyword, before
      indentation: `If` puts "if " before the condition, `IfErr` is `if err != nil {` and
      `ForRange` is `for v := range it {`. */
  lemma ControlOpener(h: Header)
    ensures h.IfHeader? ==> HeaderText(h) + " {" == "if " + h.condition + " {"
    ensures h.IfErrHeader? ==> HeaderText(h) + " {" == "if err != nil {"
    ensures h.ForRangeHeader? ==> HeaderText(h) + " {" == "for " + h.variable + " := range " + h.iterable + " {"
  {
    if h.IfErrHeader? {
      assert "if err != nil" + " {" == "if err != nil {";
    }
  }

  /** `Method` opens with `func (recv) name(params)`, followed by one space and the
      results only when there are any. */
  lemma MethodOpener(rcv: string, n: string, ps: string, rs: string)
    ensures rs == "" ==>
      HeaderText(MethodHeader(rcv, n, ps, rs)) + " {" == "func (" + rcv + ") " + n + "(" + ps + ") {"
    ensures rs != "" ==>
      HeaderText(MethodHeader(rcv, n, ps, rs)) + " {" == "func (" + rcv + ") " + n + "(" + ps + ") " + rs + " {"
  {
    var base := "(" + rcv + ") " + n + "(" + ps + ")";
    if rs == "" {
      assert "func " + base + " {" == "func (" + rcv + ") " + n + "(" + ps + ") {";
    } else {
      assert "func " + (base + " " + rs) + " {" == "func (" + rcv + ") " + n + "(" + ps + ") " + rs + " {";
    }
  }

  /** `For` opens with a bare `for {` when init, condition and post are all empty, and
      with `for init; cond; post {` otherwise. */
  lemma ForOpener(i: string, c: string, p: string)
    ensures i == "" && c == "" && p == "" ==> HeaderText(ForHeader(i, c, p)) + " {" == "for {"
    ensures !(i == "" && c == "" && p == "") ==>
      HeaderText(ForHeader(i, c, p)) + " {" == "for " + i + "; " + c + "; " + p + " {"
  {
    if i == "" && c == "" && p == "" {
      assert "for" + " {" == "for {";
    }
  }

  /** A construct whose body is a list of sub-builder lines: opener at depth k, then line
      i of the body at depth k+1 in position i, then the closer at depth k. */
  predicate GroupedShape(b: Builder, r: Builder, opener: string, texts: seq<string>, closer: string)
  {
    var k := b.indent;
    var n := |b.lines|;
    && r.indent == k
    && |r.lines| == n + |texts| + 2
    && r.lines[..n] == b.lines
    && r.lines[n] == Tabs(k) + opener
    && (forall i :: 0 <= i < |texts| ==> r.lines[n + 1 + i] == Tabs(k + 1) + texts[i])
    && r.lines[n + |texts| + 1] == Tabs(k) + closer
  }

  lemma GroupedHasShape(b: Builder, opener: string, texts: seq<string>, closer: string)
    ensures GroupedShape(b, Grouped(b, opener, texts, closer), opener, texts, closer)
  {
    GroupedRenders(b, opener, texts, closer);
    IndentedAllAt(b.indent + 1, texts);
    var r := Grouped(b, opener, texts, closer);
    var n := |b.lines|;
    assert r.lines[..n] == b.lines;
    forall i | 0 <= i < |texts|
      ensures r.lines[n + 1 + i] == Tabs(b.indent + 1) + texts[i]
    {
      assert r.lines[n + 1 + i] == IndentedAll(b.indent + 1, texts)[i];
    }
  }

  /** `Struct`: `type N struct {` at depth k, one line per field call at depth k+1 in
      call order, and `}` at depth k. */
  lemma StructShape(name: string, fs: seq<StructCmd>, b: Builder)
    ensures GroupedShape(b, Step(Declare(Struct(name, fs)), b), "type " + name + " struct {", StructLines(fs), "}")
    ensures |StructLines(fs)| == |fs|
    ensures forall i :: 0 <= i < |fs| ==> StructLines(fs)[i] == StructLine(fs[i])
  {
    GroupedHasShape(b, Opener(Struct(name, fs)), StructLines(fs), "}");
    StructLinesAt(fs);
  }

  /** `Interface`: `type N interface {`, one line per method or embedded interface at
      depth k+1 in call order, and `}`. */
  lemma InterfaceShape(name: string, ms: seq<InterfaceCmd>, b: Builder)
    ensures GroupedShape(b, Step(Declare(Interface(name, ms)), b), "type " + name + " interface {", InterfaceLines(ms), "}")
    ensures |InterfaceLines(ms)| == |ms|
    ensures forall i :: 0 <= i < |ms| ==> InterfaceLines(ms)[i] == InterfaceLine(ms[i])
  {
    GroupedHasShape(b, Opener(Interface(name, ms)), InterfaceLines(ms), "}");
    InterfaceLinesAt(ms);
  }

  /** `ConstBlock`: `const (`, one line per constant at depth k+1 in call order, `)`. */
  lemma ConstBlockShape(cs: seq<ConstCmd>, b: Builder)
    ensures GroupedShape(b, Step(Declare(ConstBlock(cs)), b), "const (", ConstLines(cs), ")")
    ensures |ConstLines(cs)| == |cs|
    ensures forall i :: 0 <= i < |cs| ==> ConstLines(cs)[i] == ConstLine(cs[i])
  {
    GroupedHasShape(b, "const (", ConstLines(cs), ")");
    ConstLinesAt(cs);
  }

  /** `VarBlock`: `var (`, one line per variable at depth k+1 in call order, `)`. */
  lemma VarBlockShape(vs: seq<VarCmd>, b: Builder)
    ensures GroupedShape(b, Step(Declare(VarBlock(vs)), b), "var (", VarLines(vs), ")")
    ensures |VarLines(vs)| == |vs|
    ensures forall i :: 0 <= i < |vs| ==> VarLines(vs)[i] == VarLine(vs[i])
  {
    GroupedHasShape(b, "var (", VarLines(vs), ")");
    VarLinesAt(vs);
  }

  /** `ImportBlock`: nothing for no paths, the single line `import "p"` for one path, and
      for n >= 2 paths n+2 lines: `import (`, each quoted path one level deeper in
      order, `)`. */
  lemma ImportBlockShape(paths: seq<string>, b: Builder)
    ensures |paths| == 0 ==> Step(ImportBlock(paths), b) == b
    ensures |paths| == 1 ==>
      Step(ImportBlock(paths), b) == Builder(b.lines + [Tabs(b.indent) + "import \"" + paths[0] + "\""], b.indent)
    ensures |paths| >= 2 ==> GroupedShape(b, Step(ImportBlock(paths), b), "import (", QuotedAll(paths), ")")
    ensures |QuotedAll(paths)| == |paths|
    ensures forall i :: 0 <= i < |paths| ==> QuotedAll(paths)[i] == "\"" + paths[i] + "\""
  {
    QuotedAllAt(paths);
    if |paths| >= 2 {
      ImportStepGrouped(paths, b);
      GroupedHasShape(b, "import (", QuotedAll(paths), ")");
    } else if |paths| == 1 {
      assert Tabs(b.indent) + ImportLine(paths[0]) == Tabs(b.indent) + "import \"" + paths[0] + "\"";
    }
  }

  lemma ImportStepGrouped(paths: seq<string>, b: Builder)
    requires |paths| >= 2
    ensures Step(ImportBlock(paths), b) == Grouped(b, "import (", QuotedAll(paths), ")")
  {
  }

  /** `Switch`: the header (`switch e {`, or `switch {` for an empty expression) at depth
      k, the clauses as they would come out on their own at depth k+1, then `}` at k. */
  lemma SwitchShape(expr: string, clauses: seq<CaseCmd>, b: Builder)
    ensures var k := b.indent;
      Step(Switch(expr, clauses), b)
      == Builder(b.lines + [Indented(k, SwitchHeader(expr))] + CasesAlone(clauses, k + 1) + [Indented(k, "}")], k)
  {
    var k := b.indent;
    StepRenders(Switch(expr, clauses), b);
    SwitchRenderCmd(expr, clauses, k);
    CasesAloneRenders(clauses, k + 1);
    BracketedAfter(b.lines, k, SwitchHeader(expr), RenderCases(clauses, k + 1), "}");
  }

  /** On their own, switch clauses produce exactly their rendering. */
  lemma CasesAloneRenders(cs: seq<CaseCmd>, k: nat)
    ensures CasesAlone(cs, k) == RenderCases(cs, k)
  {
    CasesRender(cs, Builder([], k));
    assert [] + RenderCases(cs, k) == RenderCases(cs, k);
  }

  /** A switch with two cases and a default, each writing one line, on a fresh builder:
      the case labels sit one level below the switch header, each body line two levels,
      and only the switch itself is closed by a brace. */
  lemma SwitchScenario(expr: string, v1: string, v2: string, s1: string, s2: string, s3: string)
    ensures Exec([Switch(expr, [Case(v1, [Stmt(Line(s1))]), Case(v2, [Stmt(Line(s2))]), Default([Stmt(Line(s3))])])],
                 NewCodeBuilder()).lines
         == [SwitchHeader(expr),
             "\tcase " + v1 + ":", "\t\t" + s1,
             "\tcase " + v2 + ":", "\t\t" + s2,
             "\tdefault:", "\t\t" + s3,
             "}"]
  {
    var c1, c2, c3 := Case(v1, [Stmt(Line(s1))]), Case(v2, [Stmt(Line(s2))]), Default([Stmt(Line(s3))]);
    var c := Switch(expr, [c1, c2, c3]);
    ExecRenders([c], NewCodeBuilder());
    assert Render([c], 0) == RenderCmd(c, 0);
    ThreeCasesRender(c1, c2, c3, 1);
    OneLineCase(c1, s1);
    OneLineCase(c2, s2);
    OneLineCase(c3, s3);
    assert "\t" + ("case " + v1 + ":") == "\tcase " + v1 + ":";
    assert "\t" + ("case " + v2 + ":") == "\tcase " + v2 + ":";
    assert "\t" + "default:" == "\tdefault:";
    assert Indented(0, SwitchHeader(expr)) == SwitchHeader(expr);
    assert Indented(0, "}") == "}";
  }

  lemma ThreeCasesRender(c1: CaseCmd, c2: CaseCmd, c3: CaseCmd, k: nat)
    ensures RenderCases([c1, c2, c3], k) == RenderCase(c1, k) + RenderCase(c2, k) + RenderCase(c3, k)
  {
    var cs := [c1, c2, c3];
    assert cs[1..] == [c2, c3] && [c2, c3][1..] == [c3] && [c3][1..] == [];
    assert RenderCases([c3], k) == RenderCase(c3, k);
    assert RenderCases([c2, c3], k) == RenderCase(c2, k) + RenderCase(c3, k);
    assert RenderCases(cs, k) == RenderCase(c1, k) + (RenderCase(c2, k) + RenderCase(c3, k));
  }

  /** A clause whose body writes one line, at depth 1: the label one tab in, the line two. */
  lemma OneLineCase(c: CaseCmd, text: string)
    requires c.body == [Stmt(Line(text))]
    ensures RenderCase(c, 1) == ["\t" + Label(c), "\t\t" + text]
  {
    OneLineRenders(text, 2);
    assert Tabs(1) == "\t" && Tabs(2) == "\t\t";
  }

  lemma OneLineRenders(text: string, k: nat)
    ensures Render([Stmt(Line(text))], k) == [Tabs(k) + text]
  {
    assert [Stmt(Line(text))][1..] == [];
  }

  // ---------------------------------------------------------------------------
  // Nesting never escapes the enclosing depth

  /** Every line is blank or starts with k tabs. */
  predicate NestedAt(lines: seq<string>, k: nat)
  {
    forall i :: 0 <= i < |lines| ==> lines[i] == "" || Tabs(k) <= lines[i]
  }

  lemma NestedAtConcat(a: seq<string>, c: seq<string>, k: nat)
    requires NestedAt(a, k) && NestedAt(c, k)
    ensures NestedAt(a + c, k)
  {
    forall i | 0 <= i < |a + c|
      ensures (a + c)[i] == "" || Tabs(k) <= (a + c)[i]
    {
      if i >= |a| {
        assert (a + c)[i] == c[i - |a|];
      }
    }
  }

  lemma NestedAtDeeper(lines: seq<string>, k: nat)
    requires NestedAt(lines, k + 1)
    ensures NestedAt(lines, k)
  {
    forall i | 0 <= i < |lines| && lines[i] != ""
      ensures Tabs(k) <= lines[i]
    {
      assert Tabs(k + 1)[..k] == Tabs(k);
    }
  }

  lemma IndentedNested(k: nat, texts: seq<string>)
    ensures NestedAt(IndentedAll(k, texts), k)
  {
    IndentedAllAt(k, texts);
    forall i | 0 <= i < |texts|
      ensures Tabs(k) <= IndentedAll(k, texts)[i]
    {
      assert (Tabs(k) + texts[i])[..k] == Tabs(k);
    }
  }

  lemma BracketedNested(k: nat, opener: string, inner: seq<string>, closer: string)
    requires NestedAt(inner, k + 1)
    ensures NestedAt(Bracketed(k, opener, inner, closer), k)
  {
    NestedAtDeeper(inner, k);
    IndentedNested(k, [opener]);
    IndentedNested(k, [closer]);
    NestedAtConcat([Indented(k, opener)], inner, k);
    NestedAtConcat([Indented(k, opener)] + inner, [Indented(k, closer)], k);
  }

  /** Every line a command list contributes at depth k is either an `EmptyLine` blank or
      begins with the k tabs of the enclosing depth, however deeply the commands nest. */
  lemma {:induction false} RenderNested(cmds: seq<Cmd>, k: nat)
    ensures NestedAt(Render(cmds, k), k)
    decreases cmds, 0
  {
    if cmds != [] {
      RenderCmdNested(cmds[0], k);
      RenderNested(cmds[1..], k);
      NestedAtConcat(RenderCmd(cmds[0], k), Render(cmds[1..], k), k);
    }
  }

  lemma {:induction false} RenderCmdNested(c: Cmd, k: nat)
    ensures NestedAt(RenderCmd(c, k), k)
    decreases c, 0
  {
    match c
    case Stmt(s) =>
    case EmptyLine =>
    case Scope(h, body) =>
      RenderNested(body, k + 1);
      BracketedNested(k, HeaderText(h) + " {", Render(body, k + 1), "}");
    case Declare(d) =>
      IndentedNested(k + 1, Entries(d));
      BracketedNested(k, Opener(d), IndentedAll(k + 1, Entries(d)), Closer(d));
    case ImportBlock(ps) =>
      if |ps| >= 2 {
        IndentedNested(k + 1, QuotedAll(ps));
        BracketedNested(k, "import (", IndentedAll(k + 1, QuotedAll(ps)), ")");
      }
    case Switch(e, cs) =>
      RenderCasesNested(cs, k + 1);
      BracketedNested(k, SwitchHeader(e), RenderCases(cs, k + 1), "}");
  }

  lemma {:induction false} RenderCasesNested(cs: seq<CaseCmd>, k: nat)
    ensures NestedAt(RenderCases(cs, k), k)
    decreases cs, 0
  {
    if cs != [] {
      RenderCaseNested(cs[0], k);
      RenderCasesNested(cs[1..], k);
      NestedAtConcat(RenderCase(cs[0], k), RenderCases(cs[1..], k), k);
    }
  }

  lemma {:induction false} RenderCaseNested(c: CaseCmd, k: nat)
    ensures NestedAt(RenderCase(c, k), k)
    decreases c, 0
  {
    var heading := Label(c);
    RenderNested(c.body, k + 1);
    NestedAtDeeper(Render(c.body, k + 1), k);
    NestedAtConcat([Indented(k, heading)], Render(c.body, k + 1), k);
  }
}
