# ezproto core, modelled in Dafny

ezproto is a small Go framework for writing `protoc` plugins. A plugin registers
generator functions per file pattern. protoc passes a parameter string, which the
plugin parses into options. For every file protoc asks it to generate, each generator
receives a context and a facade over the file's descriptors. The generator writes Go
source through an indentation-aware `CodeBuilder`.

This project models that core as pure functions over immutable values:

- `common.dfy` (module `Common`): `Option` (standing for Go's nil) and Go's `int32`.
- `text.dfy` (module `GoText`): the Go string and path functions the code calls.
  - `strings.Repeat`, `Join`, `Split`, `SplitN(_, _, 2)`, `TrimSpace`, `HasSuffix`,
    `TrimSuffix`, `Contains`, `ContainsAny`.
  - `filepath.Base` on `/`-separated paths.
  - Each comes with the facts the rest of the model needs (split/join round trips,
    first-occurrence splitting, trimming idempotence).
- `builder.dfy` (module `CodeBuilder`): `CodeBuilder` and its sub-builders.
  - A Go callback is the list of builder calls it makes (`Cmd`, `StructCmd`,
    `InterfaceCmd`, `ConstCmd`, `VarCmd`, `CaseCmd`).
  - `Exec`/`Step` run such a tree exactly as the Go statements do: append
    `"\t" * indent + text`, `indent++`, run the body, `indent--`.
  - `Render` is an independent, declarative account of the lines a tree contributes at
    a given depth.
- `schema.dfy` (module `Schema`): the descriptor facade of `file.go`.
  - protogen/protoreflect descriptors become plain datatypes.
  - The facade types (`File`, `Message`, `Field`, ...) pair a descriptor with its
    `Name`.
- `context.dfy` (module `GenContext`): `Context` and `CodeBuilder.Generate`.
  - Covers the output-file rules, `Import`, the `Files` filter and parameter lookup.
  - A generated file is an `Output` record: its name, its import path and the argument
    lists of the `P` calls it received.
- `plugin.dfy` (module `Plugin`): `NewPlugin`, `WithOptions`, `GenerateFor`,
  `parseParameters`, `updateOptionsFromParams` and `matchesPattern`.
- `testsink.dfy` (module `TestSupport`): the test helper's buffer sink and the
  `.proto` path checks.
  - The sink's `P` joins its arguments with spaces and adds a newline.
  - `QualifiedGoIdent` returns the bare name.

Plain getters that return one descriptor field are the fields of the descriptor
datatypes, with no function of their own:

- `File.Package`, `File.GoImportPath`;
- the `GoName`s, `Field.GoType`, `Method.InputType`/`OutputType`;
- `Field.IsOptional`, `Enum.FullName`.

## Model

| member | source | states |
|---|---|---|
| CodeBuilder.NewCodeBuilder | builder.go:17-22 | A new builder (also what `Context.Code` returns) has no lines and depth 0. |
| CodeBuilder.Exec | builder.go:41-51 | Running any tree of builder calls leaves the depth where it was: every `indent++` of a scoped call is matched by an `indent--`, however deeply the callbacks nest. |
| CodeBuilder.ExecRenders | builder.go:25-51 | Running calls on a builder appends exactly the lines the declarative rendering assigns them at the builder's depth, and changes nothing else. |
| CodeBuilder.StepRenders | builder.go:41-51 | One call of any kind appends exactly its rendering (the per-construct case of the agreement). |
| CodeBuilder.CaseRenders | builder.go:364-385 | A `Case`/`Default` call appends its label line and its body's rendering one level deeper, with no closing line. |
| CodeBuilder.ExecAppendsOnly | builder.go:25-31 | Builder calls only append: the lines present before are kept unchanged as a prefix. |
| CodeBuilder.ExecConcat | builder.go:25-51 | Chaining calls composes: running `a` then `c` is running `a + c`. |
| CodeBuilder.AloneRenders | builder.go:41-51 | What a callback writes on its own, on an empty buffer at depth k, is exactly its rendering at depth k. |
| CodeBuilder.LineShape | builder.go:25-31 | `Line` appends exactly one line: `indent` tabs followed by the text; depth and earlier lines unchanged. |
| CodeBuilder.EmptyLineShape | builder.go:34-38 | `EmptyLine` appends exactly `""`, with no tabs whatever the depth. |
| CodeBuilder.BlockShape | builder.go:41-51 | `Block`: `header {` at depth k, then exactly what the body writes on its own at k+1 (possibly nothing, possibly nested blocks), then `}` at k; depth k afterwards. |
| CodeBuilder.BlockOpener | builder.go:41-109 | `Block` opens with its header followed by ` {`; `Function` opens with `func signature {`. |
| CodeBuilder.ControlOpener | builder.go:205-227 | `If` opens with `if cond {`, `IfErr` with `if err != nil {` and `ForRange` with `for v := range it {`. |
| CodeBuilder.MethodOpener | builder.go:112-119 | `Method` opens with `func (recv) name(params)` and adds one space and the results only when the results are non-empty. |
| CodeBuilder.ForOpener | builder.go:215-222 | `For` opens with a bare `for {` exactly when init, condition and post are all empty, otherwise with `for init; cond; post {`. |
| CodeBuilder.StructShape | builder.go:92-104 | `Struct`: `type N struct {` at k, one line per field call at k+1 in call order, `}` at k. |
| CodeBuilder.InterfaceShape | builder.go:141-153 | `Interface`: `type N interface {`, one line per method or embedded interface at k+1, `}`. |
| CodeBuilder.ConstBlockShape | builder.go:161-173 | `ConstBlock`: `const (`, one `name = value` line per entry at k+1, `)`. |
| CodeBuilder.VarBlockShape | builder.go:185-197 | `VarBlock`: `var (`, one line per variable at k+1, `)`. |
| CodeBuilder.GroupedHasShape | builder.go:69-89 | A group writes its opener, line i of the body at depth k+1 in position i, and its closer, and nothing else. |
| CodeBuilder.ImportBlockShape | builder.go:69-89 | `ImportBlock`: no paths writes nothing; one path writes the single line `import "p"`; n >= 2 paths write n+2 lines: `import (`, each quoted path at k+1 in order, `)`. |
| CodeBuilder.SwitchShape | builder.go:230-247 | `Switch`: `switch e {` (or `switch {` for an empty expression) at k, the clauses as written on their own at k+1, `}` at k. |
| CodeBuilder.SwitchScenario | builder.go:364-374 | A switch with two cases and a default on a fresh builder: labels one tab in, bodies two tabs in, only the switch closed by `}`. |
| CodeBuilder.RenderNested | builder.go:41-51 | Every line a tree renders at depth k is empty or starts with k tabs: nested output never escapes the enclosing depth. |
| CodeBuilder.ReturnText | builder.go:122-128 | `Return` writes bare `return` exactly when there are no values; otherwise the values are joined with `", "`. |
| CodeBuilder.ForText | builder.go:215-222 | The `For` header is bare `for` exactly when init, condition and post are all empty; otherwise `for init; cond; post`. |
| CodeBuilder.MethodSignature | builder.go:112-119 | `" " + returns` is appended only when `returns` is non-empty. |
| CodeBuilder.InterfaceMethodText | builder.go:305-314 | The same rule for `InterfaceBuilder.Method`. |
| CodeBuilder.FieldText | builder.go:281-290 | A struct field carries backtick-wrapped, space-joined tags only when there are any. |
| CodeBuilder.VarText | builder.go:176-182 | `Var` uses the first optional value only, after ` = `, and writes no ` = ` without one. |
| CodeBuilder.SwitchHeader | builder.go:232-236 | The switch header is `switch {` exactly when the expression is empty. |
| Schema.Project | file.go:25-35 | The loop every listing accessor runs yields one wrapper per descriptor, same length, same order, and the empty sequence for no descriptors. |
| Schema.Messages | file.go:25-35 | One `Message` per message descriptor, in order, named by the descriptor's name. |
| Schema.Services | file.go:38-48 | One `Service` per service descriptor, in order, with its name. |
| Schema.Enums | file.go:51-61 | One `Enum` per enum descriptor, in order, with its name. |
| Schema.MessageFields | file.go:70-80 | One `Field` per field descriptor of the message, in order, with its name. |
| Schema.Oneofs | file.go:88-98 | One `Oneof` per oneof descriptor, in order, with its name. |
| Schema.Methods | file.go:161-171 | One `Method` per method descriptor, in order, with its name. |
| Schema.Values | file.go:216-226 | One `EnumValue` per value descriptor, in order, with its name; each value's `Number` is the descriptor's number. |
| Schema.OneofFields | file.go:266-276 | One `Field` per field of the oneof, in order, with its name. |
| Schema.FieldType | file.go:142-152 | An enum field's type is the enum's full name and a message field's is the message's full name. Any other field's type is the kind's keyword, from which the kind can be read back; a group field reads `group`. |
| Schema.KindName | file.go:151 | Kind names are distinct: each kind's keyword maps back to that kind. |
| Schema.ScalarTypeDeterminesKind | file.go:151 | Two scalar fields have the same type name exactly when they have the same kind. |
| Schema.IsMessage | file.go:132-139 | A field is never both an enum and a message field. |
| Schema.IsMap | file.go:127-129 | `IsMap` is exactly the descriptor's map flag; in a well-formed descriptor a map field is also a repeated message field. |
| Schema.MapFlagSeparate | file.go:127-139 | The map flag is separate from the kind: flipping it alone keeps the kind and `IsMessage` and flips `IsMap`. |
| Schema.MapAndMessageTogether | file.go:127-139 | `IsMap` and `IsMessage` can both hold for the same field. |
| Schema.StreamingFlagsIndependent | file.go:200-207 | Client and server streaming are read from separate flags, and all four combinations occur. |
| Schema.Number | file.go:250-252 | `EnumValue.Number` is the descriptor's number, unchanged, as an int32. |
| GenContext.OutputFileName | context.go:34-36 | The result always ends in `.go`: the name unchanged if it already did, otherwise exactly the name plus `.go`. |
| GenContext.OutputFileNameIdempotent | context.go:34-36 | Naming an already-named file changes nothing. |
| GenContext.NewOutputFile | context.go:33-41 | `NewOutputFile` installs a fresh output under that name in the file's package, replacing any earlier output. |
| GenContext.DerivedName | context.go:48-49 | The default output name always ends in `.pb.go`. |
| GenContext.DerivedNameOfProtoPath | context.go:48-49 | For `dir/stem.proto` the default output name is `stem.pb.go`: the directory and one `.proto` are dropped. |
| GenContext.DerivedNameIsOutputName | context.go:34-49 | The default name already satisfies the `.go` rule of `NewOutputFile`. |
| GenContext.CreateOutputFile | context.go:43-51 | Nothing happens when an output exists; otherwise an output under the derived name is created. |
| GenContext.CreateOutputFileIdempotent | context.go:44-46 | Calling `createOutputFile` twice is calling it once. |
| GenContext.NewOutputFileWins | context.go:43-46 | An output set by `NewOutputFile` survives later lazy creation. |
| GenContext.Import | context.go:54-62 | `Import` makes sure an output exists, never replaces an existing one, and returns what the output's `QualifiedGoIdent` answers for the path. |
| GenContext.ImportKeepsOutput | context.go:55-57 | A second `Import` sees the output the first one created or found. |
| GenContext.Generated | context.go:65-78 | Only files marked for generation are kept, and none is invented. |
| GenContext.GeneratedConcat | context.go:68-75 | The filter distributes over concatenation, so it keeps the request order. |
| GenContext.GeneratedMembers | context.go:68-75 | A file is listed exactly when it is in the request and marked for generation. |
| GenContext.Files | context.go:65-78 | The loop returns one `File` per generating file, in request order, named by its path. |
| GenContext.Parameters | context.go:88-90 | The returned map is the one the lookups consult: a key is in it exactly when `GetParameter` finds it, under the value `GetParameter` returns. |
| GenContext.GetParameter | context.go:93-97 | Returns (`params[k]`, true) exactly when k is present, and (`""`, false) otherwise. |
| GenContext.GetParameterWithDefault | context.go:100-106 | Returns `params[k]` when present, else the default. |
| GenContext.WithDefaultAgrees | context.go:93-106 | The defaulted lookup is the plain one with its miss replaced by the default; a present key ignores the default. |
| GenContext.Generate | builder.go:265-273 | `Generate` creates the output only if there is none. It then makes one `P` call per accumulated line, that line as the only argument, in order; an empty buffer makes no calls. |
| Plugin.NewPlugin | plugin.go:25-33 | A new plugin has debugging off, an empty non-nil package mapping and no generators. |
| Plugin.WithOptions | plugin.go:35-41 | After `WithOptions` the package mapping is never nil; otherwise the given options are taken as they are. |
| Plugin.WithOptionsLastWins | plugin.go:35-41 | Of two `WithOptions` calls only the second counts. |
| Plugin.GenerateFor | plugin.go:43-46 | The pattern maps to the new generator; every other pattern keeps its generator. |
| Plugin.GenerateForOverwrites | plugin.go:43-46 | Registering twice under one pattern keeps only the later generator. |
| Plugin.GenerateForCommutes | plugin.go:43-46 | Registrations under different patterns commute. |
| Plugin.ParsePair | plugin.go:112-117 | A piece with `=` maps its trimmed text before the first `=` to the trimmed rest, which may contain `=`. A piece without `=` maps its trimmed text to `"true"`. |
| Plugin.ParsePairTrimmed | plugin.go:112-117 | Both the key and the value of a parsed piece are already trimmed: trimming them again changes nothing. |
| Plugin.ParseParameters | plugin.go:103-107 | The empty parameter string gives the empty map. |
| Plugin.ParseParametersKeys | plugin.go:103-121 | The empty string has no keys; any other string has exactly the keys its comma-separated pieces parse to. |
| Plugin.ParseParametersLastWins | plugin.go:103-121 | For a non-empty string, the value stored under a key is the value of the last piece with that key. |
| Plugin.StoreKeys | plugin.go:110-118 | The parsed map's keys are exactly the keys of the pieces. |
| Plugin.StoreLastWins | plugin.go:111-113 | A key's value is the value of the last piece with that key: later duplicates overwrite earlier ones. |
| Plugin.ParseTwo | plugin.go:103-121 | `k1=v1,k2=v2` parses to k1 -> v1, then k2 -> v2 (overwriting when the keys coincide); values containing `=` or `:` are kept whole. |
| Plugin.UpdatedOptions | plugin.go:124-139 | `debug` sets the flag to exactly `value == "true" || value == "1"`. `package_mapping` with a `:` adds prefix -> suffix, split at the first `:`, creating the map if nil. Anything else changes nothing. |
| Plugin.OtherKeysIgnored | plugin.go:126-137 | Keys other than `debug` and `package_mapping` have no effect. |
| Plugin.UpdateOptionsFromParams | plugin.go:124-139 | Walking the map in any order that visits its keys gives the same options, those described by `UpdatedOptions`. |
| Plugin.MatchesPattern | plugin.go:141-150 | `*` and `*.proto` match every path. Otherwise the glob decides; a malformed glob means "the path contains the pattern minus one trailing `*`". |
| TestSupport.P | test.go:97-113 | No arguments write exactly `"\n"`; n >= 1 arguments write the values separated by single spaces, then one `"\n"`. |
| TestSupport.SinkTextConcat | test.go:97-113 | The buffer after two runs of calls holds the two texts in order. |
| TestSupport.SinkTextOfLines | test.go:104-112 | One single-argument call per line writes each line followed by a newline. |
| TestSupport.GenerateToBuffer | builder.go:265-273 | Generating into the test sink appends exactly the concatenation of line + `"\n"` over the builder's lines, in order. |
| TestSupport.QualifiedIgnoresPackage | test.go:116-118 | The test sink qualifies an identifier as its bare `GoName`, whatever its import path. |
| TestSupport.ImportOverTestSink | context.go:54-62 | Over the test sink `Import` always returns `""`: the identifier it asks about carries only an import path. |
| TestSupport.CheckProtoPath | test.go:122-135 | Checks in order, first failure reported: empty path, then a path not ending in `.proto`, then a path containing any of ``;&|`$()``; only a path passing all three is accepted. |

## Left out

- `fmt.Sprintf` in `CodeBuilder.Line`: `Line` takes text that is already rendered, and
  every template is written out as concatenation.
- Callbacks are modelled as the list of builder calls they make. Other side effects of
  a callback are not modelled: other Go code, calling `Generate` in mid-build, keeping
  a sub-builder past its callback.
- Sub-builder callbacks are limited to their sub-builder's own calls. In Go, a
  `Struct`/`Interface`/`ConstBlock`/`VarBlock`/`Switch` callback can also call the
  enclosing `*CodeBuilder` it captured (say `cb.Line("// doc")` between fields, which
  writes at depth k+1); the command datatypes have no constructor for that.
- `Context.Code` is the same as `NewCodeBuilder` and has no separate member.
- `Plugin.Run` is protoc plumbing (reading the request, dispatching over a Go map in
  unspecified order, discarding `opts.Run`'s error). It is not modelled.
  - `WithParameterHandler` is left out as well: it only stores a callback that `Run`
    calls.
- `filepath.Match` is a parameter of `MatchesPattern` that reports match, no match or
  bad pattern. Glob semantics are not modelled.
- `Context.Debugf` and the debug prints write to stderr. They are I/O.
- protogen's `NewGeneratedFile` is a fresh `Output` record.
  - Its `QualifiedGoIdent` is a parameter of `Import`.
  - The import bookkeeping real protogen does there is not modelled.
- The test helper beyond its first three checks (looking up protoc, temporary files,
  running protoc, unmarshalling) is I/O and external tools, and is left out. So are
  `NewTest`/`TestGenerator` (golden-file comparison).
- protogen/protoreflect internals are replaced by plain descriptor datatypes.
  - Only the 18 defined kinds exist, so `Kind.String`'s text for unknown kind numbers
    is not modelled.
  - `GenContext.Context` keeps neither the `*Plugin` back-reference (used only by `Debugf`) nor
    the protogen plugin (used only to create files and to list the request's files).
- `GenContext.Files` returns the empty sequence where Go returns a nil slice for no
  generating files. Both have length 0 and range over nothing.
- `Schema.FieldType` requires the two references it dereferences to be resolved: an
  enum field has an enum and a message field has a message. protoreflect guarantees
  this; without it the Go code would dereference nil. A group field needs neither,
  since its type is the keyword `group`.
- `Plugin.UpdateOptionsFromParams` takes the map's iteration order as a parameter,
  since Go leaves it unspecified. The contract shows the result does not depend on it.
- Plugin.WithOptions: options are values here. Go's `p.options = opts` shares the
  caller's `PackageMapping` map with the plugin, so the in-place write of
  `updateOptionsFromParams` (plugin.go:135) is visible to the caller; the model does
  not track that aliasing.
- Plugin.UpdateOptionsFromParams: returns the updated options as a new value, so the
  caller's copy of the package mapping is not changed (see `Plugin.WithOptions`).
- TestSupport.P: takes its arguments as already-formatted strings. Go's `P(v ...any)`
  formats each argument with `%v` (test.go:109); that formatting is not modelled.
- Strings are sequences of Unicode code points; invalid UTF-8 is not modelled.

## Notes on the code's behaviour

- **Map fields are message fields too.** `IsMap` reads the descriptor's own map flag
  (file.go:127-129), and a protobuf map field has message kind. So `IsMap` and
  `IsMessage` both hold for a map field (`Schema.MapAndMessageTogether`,
  `Schema.MapFlagSeparate`). Only enum and message exclude each other
  (`Schema.IsMessage`).
- **Switch clauses are one level deeper than the switch.** `case v:`/`default:` sit at
  the switch's depth + 1 and their bodies at depth + 2 (builder.go:364-385,
  `CodeBuilder.SwitchScenario`).
