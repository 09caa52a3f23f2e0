/** The in-memory output the test helper gives generators: its `P` writes the arguments
    separated by spaces and a newline into a buffer, and its `QualifiedGoIdent` answers
    with the bare identifier. Also the checks a .proto path must pass before the test
    helper hands it to protoc. */
module TestSupport {
  import opened GoText
  import opened GenContext
  import CodeBuilder

  // ---------------------------------------------------------------------------
  // The buffer sink

  /** The text one `P` call appends: a newline for no arguments, otherwise the
      arguments separated by single spaces and then a newline. */
  function PText(args: seq<string>): string
  {
    if |args| == 0 then "\n" else Join(args, " ") + "\n"
  }

  /** `testGeneratedFile.P`, statement by statement: the space goes before every argument
      but the first, and the newline comes last. */
  method P(args: seq<string>) returns (written: string)
    ensures written == PText(args)
    ensures |args| == 0 ==> written == "\n"
    ensures |args| >= 1 ==> written == Join(args, " ") + "\n"
  {
    if |args| == 0 {
      return "\n";
    }
    written := "";
    for i := 0 to |args|
      invariant i == 0 ==> written == ""
      invariant i > 0 ==> written == Join(args[..i], " ")
    {
      if i > 0 {
        JoinSnoc(args[..i], args[i], " ");
        assert args[..i] + [args[i]] == args[..i + 1];
        written := written + " ";
      } else {
        assert args[..1] == [args[0]];
      }
      written := written + args[i];
    }
    assert args[..|args|] == args;
    written := written + "\n";
  }

  /** Everything a run of `P` calls leaves in the buffer. */
  function SinkText(calls: seq<seq<string>>): string
  {
    if calls == [] then "" else PText(calls[0]) + SinkText(calls[1..])
  }

  /** The buffer after two runs of calls is the two texts one after the other. */
  lemma {:induction false} SinkTextConcat(a: seq<seq<string>>, b: seq<seq<string>>)
    ensures SinkText(a + b) == SinkText(a) + SinkText(b)
    decreases |a|
  {
    if a == [] {
      assert a + b == b;
    } else {
      assert (a + b)[0] == a[0];
      assert (a + b)[1..] == a[1..] + b;
      SinkTextConcat(a[1..], b);
    }
  }

  /** One single-argument call per line writes each line followed by a newline. */
  lemma {:induction false} SinkTextOfLines(calls: seq<seq<string>>, lines: seq<string>)
    requires |calls| == |lines|
    requires forall i :: 0 <= i < |lines| ==> calls[i] == [lines[i]]
    ensures SinkText(calls) == Unlines(lines)
    decreases |lines|
  {
    if lines != [] {
      assert PText(calls[0]) == lines[0] + "\n";
      SinkTextOfLines(calls[1..], lines[1..]);
    }
  }

  /** `CodeBuilder.Generate` into the buffer sink: after whatever was written before, the
      buffer holds every accumulated line followed by a newline, in order; an empty
      builder adds nothing. */
  method GenerateToBuffer(c: Context, b: CodeBuilder.Builder) returns (r: Context, text: string)
    ensures r.output.Some?
    ensures text == SinkText(r.output.value.calls)
    ensures text == SinkText(CreateOutputFile(c).output.value.calls) + Unlines(b.lines)
  {
    r := Generate(c, b);
    var before := CreateOutputFile(c).output.value.calls;
    var calls := r.output.value.calls;
    var added := calls[|before|..];
    assert calls == before + added;
    SinkTextOfLines(added, b.lines);
    SinkTextConcat(before, added);
    text := SinkText(calls);
  }

  // ---------------------------------------------------------------------------
  // Identifiers

  /** protogen.GoIdent: a name in a Go package. */
  datatype GoIdent = GoIdent(goName: string, goImportPath: string)

  /** `testGeneratedFile.QualifiedGoIdent`: the bare name; the package is dropped and no
      import is recorded. */
  function QualifiedGoIdent(ident: GoIdent): string
  {
    ident.goName
  }

  /** The answer depends on the name only: two identifiers with the same name in
      different packages qualify alike, as the bare name. */
  lemma QualifiedIgnoresPackage(name: string, p1: string, p2: string)
    ensures QualifiedGoIdent(GoIdent(name, p1)) == QualifiedGoIdent(GoIdent(name, p2)) == name
  {
  }

  /** `Context.Import` asks for an identifier with only an import path, so over the test
      sink it always answers "" (and creates the output when there is none). */
  lemma ImportOverTestSink(c: Context, importPath: string)
    ensures var r := Import(c, importPath, (o: Output, p: string) => QualifiedGoIdent(GoIdent("", p)));
      r.1 == "" && r.0 == CreateOutputFile(c)
  {
  }

  // ---------------------------------------------------------------------------
  // Path checks

  /** The outcome of the checks in `generateCodeGeneratorRequest`, in the order they are
      made. */
  datatype PathCheck = PathOk | EmptyPath | BadExtension | BadCharacters

  /** The characters a path handed to protoc must not contain. */
  const ShellCharacters: string := ";&|`$()"

  /** The checks, first failure reported: empty path, then a missing ".proto" ending,
      then shell metacharacters. */
  function CheckProtoPath(path: string): (r: PathCheck)
    ensures r == EmptyPath <==> path == ""
    ensures r == BadExtension <==> path != "" && !HasSuffix(path, ".proto")
    ensures r == BadCharacters <==> HasSuffix(path, ".proto") && ContainsAny(path, ShellCharacters)
    ensures r == PathOk <==> HasSuffix(path, ".proto") && forall i :: 0 <= i < |path| ==> path[i] !in ShellCharacters
  {
    if path == "" then EmptyPath
    else if !HasSuffix(path, ".proto") then BadExtension
    else if ContainsAny(path, ShellCharacters) then BadCharacters
    else PathOk
  }
}
