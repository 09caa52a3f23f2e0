/** The generation context handed to each generator: the file being generated, every
    file protoc loaded, the output file (created lazily), and the parsed plugin
    parameters. Also `CodeBuilder.Generate`, which writes a builder's lines into the
    context's output. protogen's `NewGeneratedFile` is modelled by a fresh `Output`
    record that keeps its name, its import path and the `P` calls it received. */
module GenContext {
  import opened Common
  import opened GoText
  import opened Schema
  import CodeBuilder

  /** A generated file: its name, the Go import path of the package it belongs to, and
      the argument lists of the `P` calls made on it, in order. */
  datatype Output = Output(name: string, importPath: string, calls: seq<seq<string>>)

  /** `file` is the file being generated, `genFiles` every file in the request, `output`
      the current output file (None for Go's nil). */
  datatype Context = Context(
    file: FileDesc,
    genFiles: seq<FileDesc>,
    output: Option<Output>,
    parameters: map<string, string>)

  // ---------------------------------------------------------------------------
  // Output files

  /** The file name `NewOutputFile` uses: the name as given when it already ends in
      ".go", otherwise the name with ".go" appended. */
  function OutputFileName(filename: string): (r: string)
    ensures HasSuffix(r, ".go")
    ensures HasSuffix(filename, ".go") ==> r == filename
    ensures !HasSuffix(filename, ".go") ==> r == filename + ".go"
  {
    if HasSuffix(filename, ".go") then filename
    else
      assert (filename + ".go")[|filename|..] == ".go";
      filename + ".go"
  }

  /** Naming a file that already has its ".go" does nothing more. */
  lemma OutputFileNameIdempotent(filename: string)
    ensures OutputFileName(OutputFileName(filename)) == OutputFileName(filename)
  {
  }

  /** `NewOutputFile`: a new output under `OutputFileName(filename)` in the file's
      package, replacing any output created before. */
  function NewOutputFile(c: Context, filename: string): (r: Context)
    ensures r.output == Some(Output(OutputFileName(filename), c.file.goImportPath, []))
    ensures r.file == c.file && r.genFiles == c.genFiles && r.parameters == c.parameters
  {
    c.(output := Some(Output(OutputFileName(filename), c.file.goImportPath, [])))
  }

  /** The default output name: the last path element of the .proto path, without one
      trailing ".proto", followed by ".pb.go". */
  function DerivedName(path: string): (r: string)
    ensures HasSuffix(r, ".pb.go")
  {
    var stem := TrimSuffix(Base(path), ".proto");
    assert (stem + ".pb.go")[|stem|..] == ".pb.go";
    stem + ".pb.go"
  }

  /** For `dir/stem.proto` the default output name is `stem.pb.go`. */
  lemma DerivedNameOfProtoPath(dir: string, stem: string)
    requires stem != "" && '/' !in stem
    requires dir == "" || dir[|dir| - 1] == '/'
    ensures DerivedName(dir + stem + ".proto") == stem + ".pb.go"
  {
    var name := stem + ".proto";
    assert '/' !in name by {
      assert forall i :: 0 <= i < |name| ==> name[i] == (if i < |stem| then stem[i] else ".proto"[i - |stem|]);
    }
    assert dir + stem + ".proto" == dir + name;
    BaseOfJoined(dir, name);
    TrimSuffixOfAppend(stem, ".proto");
  }

  /** The default output name already ends in ".go", so handing it to `NewOutputFile`
      names the same file. */
  lemma DerivedNameIsOutputName(path: string)
    ensures OutputFileName(DerivedName(path)) == DerivedName(path)
  {
    var r := DerivedName(path);
    assert r[|r| - 3..] == r[|r| - 6..][3..];
  }

  /** `createOutputFile`: nothing when an output exists, otherwise an output under the
      derived name in the file's package. */
  function CreateOutputFile(c: Context): (r: Context)
    ensures r.output.Some?
    ensures c.output.Some? ==> r == c
    ensures c.output.None? ==> r.output == Some(Output(DerivedName(c.file.path), c.file.goImportPath, []))
    ensures r.file == c.file && r.genFiles == c.genFiles && r.parameters == c.parameters
  {
    if c.output.Some? then c
    else c.(output := Some(Output(DerivedName(c.file.path), c.file.goImportPath, [])))
  }

  /** Creating the output twice is creating it once. */
  lemma CreateOutputFileIdempotent(c: Context)
    ensures CreateOutputFile(CreateOutputFile(c)) == CreateOutputFile(c)
  {
  }

  /** An output named with `NewOutputFile` survives a later `createOutputFile`. */
  lemma NewOutputFileWins(c: Context, filename: string)
    ensures CreateOutputFile(NewOutputFile(c, filename)) == NewOutputFile(c, filename)
  {
  }

  /** `Import`: creates the output first if there is none, then asks the output to
      qualify an identifier that carries only the import path. `qualify` is the output's
      `QualifiedGoIdent` (its bookkeeping of imports is not modelled). */
  function Import(c: Context, importPath: string, qualify: (Output, string) -> string): (r: (Context, string))
    ensures r.0.output.Some?
    ensures c.output.Some? ==> r.0 == c
    ensures r.0 == CreateOutputFile(c)
    ensures r.1 == qualify(r.0.output.value, importPath)
  {
    var c1 := if c.output.None? then CreateOutputFile(c) else c;
    (c1, qualify(c1.output.value, importPath))
  }

  /** Importing never replaces an output: the second import sees the output the first
      one created or found. */
  lemma ImportKeepsOutput(c: Context, p1: string, p2: string, qualify: (Output, string) -> string)
    ensures Import(Import(c, p1, qualify).0, p2, qualify).0 == Import(c, p1, qualify).0
    ensures Import(c, p1, qualify).0.output == CreateOutputFile(c).output
  {
  }

  // ---------------------------------------------------------------------------
  // The files to generate

  /** The files protoc asked to generate, in request order. */
  function Generated(fs: seq<FileDesc>): (r: seq<FileDesc>)
    ensures |r| <= |fs|
    ensures forall i :: 0 <= i < |r| ==> r[i].generate && r[i] in fs
  {
    if fs == [] then []
    else (if fs[0].generate then [fs[0]] else []) + Generated(fs[1..])
  }

  /** Filtering distributes over concatenation; with the singleton cases this pins the
      filter down: it keeps exactly the generating files and keeps their order. */
  lemma {:induction false} GeneratedConcat(a: seq<FileDesc>, b: seq<FileDesc>)
    ensures Generated(a + b) == Generated(a) + Generated(b)
    decreases |a|
  {
    if a == [] {
      assert a + b == b;
    } else {
      assert (a + b)[0] == a[0];
      assert (a + b)[1..] == a[1..] + b;
      GeneratedConcat(a[1..], b);
    }
  }

  /** A file is listed exactly when it is in the request and marked for generation. */
  lemma {:induction false} GeneratedMembers(fs: seq<FileDesc>, f: FileDesc)
    ensures f in Generated(fs) <==> f in fs && f.generate
    decreases |fs|
  {
    if fs != [] {
      GeneratedMembers(fs[1..], f);
      assert fs == [fs[0]] + fs[1..];
    }
  }

  /** One more file of the request extends the filtered list by that file exactly when
      it is marked for generation. */
  lemma GeneratedSnoc(fs: seq<FileDesc>, i: int)
    requires 0 <= i < |fs|
    ensures Generated(fs[..i + 1]) == Generated(fs[..i]) + (if fs[i].generate then [fs[i]] else [])
  {
    GeneratedConcat(fs[..i], [fs[i]]);
    assert fs[..i + 1] == fs[..i] + [fs[i]];
    assert [fs[i]][1..] == [];
  }

  /** `Context.Files`: walks the request's files and wraps those marked for generation,
      named by their path. */
  method Files(c: Context) returns (r: seq<File>)
    ensures |r| == |Generated(c.genFiles)|
    ensures forall i :: 0 <= i < |r| ==> r[i].proto == Generated(c.genFiles)[i] && r[i].name == r[i].proto.path
  {
    var fs := c.genFiles;
    r := [];
    for i := 0 to |fs|
      invariant |r| == |Generated(fs[..i])|
      invariant forall j :: 0 <= j < |r| ==> r[j].proto == Generated(fs[..i])[j] && r[j].name == r[j].proto.path
    {
      GeneratedSnoc(fs, i);
      if fs[i].generate {
        r := r + [File(fs[i], fs[i].path)];
      }
    }
    assert fs[..|fs|] == fs;
  }

  // ---------------------------------------------------------------------------
  // Parameters

  /** `Parameters`: the parsed parameter map itself, so a key is in it exactly when
      `GetParameter` finds it, under the value `GetParameter` returns. */
  function Parameters(c: Context): (r: map<string, string>)
    ensures forall key :: key in r <==> GetParameter(c, key).1
    ensures forall key :: key in r ==> r[key] == GetParameter(c, key).0
  {
    c.parameters
  }

  /** `GetParameter`: the value and true when the key is present, Go's zero value ""
      and false when it is not. */
  function GetParameter(c: Context, key: string): (r: (string, bool))
    ensures r.1 <==> key in c.parameters
    ensures r.1 ==> r.0 == c.parameters[key]
    ensures !r.1 ==> r.0 == ""
  {
    if key in c.parameters then (c.parameters[key], true) else ("", false)
  }

  /** `GetParameterWithDefault`: the value when the key is present, the default
      otherwise. */
  function GetParameterWithDefault(c: Context, key: string, default: string): (r: string)
    ensures key in c.parameters ==> r == c.parameters[key]
    ensures key !in c.parameters ==> r == default
  {
    if key in c.parameters then c.parameters[key] else default
  }

  /** The two lookups agree: the defaulted one is the plain one with its miss replaced
      by the default; a present key ignores the default entirely. */
  lemma WithDefaultAgrees(c: Context, key: string, d1: string, d2: string)
    ensures GetParameterWithDefault(c, key, d1) == (if GetParameter(c, key).1 then GetParameter(c, key).0 else d1)
    ensures GetParameter(c, key).1 ==> GetParameterWithDefault(c, key, d1) == GetParameterWithDefault(c, key, d2)
    ensures !GetParameter(c, key).1 ==> GetParameterWithDefault(c, key, d1) == d1
  {
  }

  // ---------------------------------------------------------------------------
  // Writing a builder's lines

  /** `CodeBuilder.Generate`: creates the output if there is none, then calls `P` once
      per accumulated line, with that line as the only argument, in order. */
  method Generate(c: Context, b: CodeBuilder.Builder) returns (r: Context)
    ensures r.output.Some?
    ensures r.file == c.file && r.genFiles == c.genFiles && r.parameters == c.parameters
    ensures var o := CreateOutputFile(c).output.value;
      && r.output.value.name == o.name
      && r.output.value.importPath == o.importPath
      && |r.output.value.calls| == |o.calls| + |b.lines|
      && r.output.value.calls[..|o.calls|] == o.calls
      && forall i :: 0 <= i < |b.lines| ==> r.output.value.calls[|o.calls| + i] == [b.lines[i]]
  {
    r := c;
    if r.output.None? {
      r := CreateOutputFile(r);
    }
    ghost var o := r.output.value;
    for i := 0 to |b.lines|
      invariant r.output.Some? && r.file == c.file && r.genFiles == c.genFiles && r.parameters == c.parameters
      invariant r.output.value.name == o.name && r.output.value.importPath == o.importPath
      invariant |r.output.value.calls| == |o.calls| + i
      invariant r.output.value.calls[..|o.calls|] == o.calls
      invariant forall j :: 0 <= j < i ==> r.output.value.calls[|o.calls| + j] == [b.lines[j]]
    {
      var out := r.output.value;
      r := r.(output := Some(out.(calls := out.calls + [[b.lines[i]]])));
    }
  }
}
