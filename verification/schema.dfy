/** The schema facade: the wrappers a generator sees around the parsed .proto
    descriptors. The descriptors themselves are plain values here; a wrapper pairs a
    descriptor with the `Name` the facade copies out of it. Accessors that only read one
    descriptor field (`Package`, `GoImportPath`, the various `GoName`s, `InputType`,
    `OutputType`, `IsOptional`, `FullName`) are the fields of the descriptor datatypes. */
module Schema {
  import opened Common

  /** protoreflect.Kind, the wire-level type of a field. */
  datatype Kind =
    | DoubleKind | FloatKind | Int64Kind | Uint64Kind | Int32Kind | Fixed64Kind
    | Fixed32Kind | BoolKind | StringKind | GroupKind | MessageKind | BytesKind
    | Uint32Kind | EnumKind | Sfixed32Kind | Sfixed64Kind | Sint32Kind | Sint64Kind

  /** Kind.String(): the keyword the .proto language uses for the kind. Distinct kinds
      have distinct names, so the name identifies the kind. */
  function KindName(k: Kind): (r: string)
    ensures KindFromName(r) == Some(k)
  {
    match k
    case DoubleKind => "double"
    case FloatKind => "float"
    case Int64Kind => "int64"
    case Uint64Kind => "uint64"
    case Int32Kind => "int32"
    case Fixed64Kind => "fixed64"
    case Fixed32Kind => "fixed32"
    case BoolKind => "bool"
    case StringKind => "string"
    case GroupKind => "group"
    case MessageKind => "message"
    case BytesKind => "bytes"
    case Uint32Kind => "uint32"
    case EnumKind => "enum"
    case Sfixed32Kind => "sfixed32"
    case Sfixed64Kind => "sfixed64"
    case Sint32Kind => "sint32"
    case Sint64Kind => "sint64"
  }

  /** The kind a keyword names, if any. */
  function KindFromName(s: string): Option<Kind>
  {
    if s == "double" then Some(DoubleKind)
    else if s == "float" then Some(FloatKind)
    else if s == "int64" then Some(Int64Kind)
    else if s == "uint64" then Some(Uint64Kind)
    else if s == "int32" then Some(Int32Kind)
    else if s == "fixed64" then Some(Fixed64Kind)
    else if s == "fixed32" then Some(Fixed32Kind)
    else if s == "bool" then Some(BoolKind)
    else if s == "string" then Some(StringKind)
    else if s == "group" then Some(GroupKind)
    else if s == "message" then Some(MessageKind)
    else if s == "bytes" then Some(BytesKind)
    else if s == "uint32" then Some(Uint32Kind)
    else if s == "enum" then Some(EnumKind)
    else if s == "sfixed32" then Some(Sfixed32Kind)
    else if s == "sfixed64" then Some(Sfixed64Kind)
    else if s == "sint32" then Some(Sint32Kind)
    else if s == "sint64" then Some(Sint64Kind)
    else None
  }

  /** protoreflect.Cardinality. */
  datatype Cardinality = Optional | Required | Repeated

  // ---------------------------------------------------------------------------
  // Descriptors (the protogen/protoreflect side)

  /** A field descriptor. `enumType` and `messageType` are the full names of the
      referenced enum and message; they are absent when the field refers to none.
      `isMap` is the descriptor's own map flag, separate from `kind`. */
  datatype FieldDesc = FieldDesc(
    name: string,
    goName: string,
    goIdent: string,
    kind: Kind,
    cardinality: Cardinality,
    isMap: bool,
    hasOptionalKeyword: bool,
    enumType: Option<string>,
    messageType: Option<string>)
  {
    /** The references `Field.Type` dereferences, which protoreflect always resolves: an
        enum field names its enum and a message field names its message. */
    predicate Linked()
    {
      && (kind == EnumKind ==> enumType.Some?)
      && (kind == MessageKind ==> messageType.Some?)
    }

    /** What the protobuf language makes of a map field `map<K, V> f`: a repeated field of
        message kind whose message is the synthesised entry type. */
    predicate WellFormed()
    {
      && Linked()
      && (isMap ==> kind == MessageKind && cardinality == Repeated)
    }
  }

  datatype OneofDesc = OneofDesc(name: string, goName: string, fields: seq<FieldDesc>)

  datatype MessageDesc = MessageDesc(name: string, goIdent: string, fields: seq<FieldDesc>, oneofs: seq<OneofDesc>)

  datatype EnumValueDesc = EnumValueDesc(name: string, goIdent: string, number: int32)

  datatype EnumDesc = EnumDesc(name: string, fullName: string, goIdent: string, values: seq<EnumValueDesc>)

  /** A service method; `inputGoIdent`/`outputGoIdent` are the Go names of the request and
      response messages. */
  datatype MethodDesc = MethodDesc(
    name: string,
    goName: string,
    inputGoIdent: string,
    outputGoIdent: string,
    clientStreaming: bool,
    serverStreaming: bool)

  datatype ServiceDesc = ServiceDesc(name: string, goName: string, methods: seq<MethodDesc>)

  /** A .proto file as protogen presents it; `generate` says whether protoc asked for
      code for this file (as opposed to loading it as a dependency). */
  datatype FileDesc = FileDesc(
    path: string,
    goPackageName: string,
    goImportPath: string,
    generate: bool,
    messages: seq<MessageDesc>,
    services: seq<ServiceDesc>,
    enums: seq<EnumDesc>)

  // ---------------------------------------------------------------------------
  // The facade (the ezproto side)

  datatype File = File(proto: FileDesc, name: string)
  datatype Message = Message(proto: MessageDesc, name: string)
  datatype Field = Field(proto: FieldDesc, name: string)
  datatype Oneof = Oneof(proto: OneofDesc, name: string)
  datatype Service = Service(proto: ServiceDesc, name: string)
  datatype Method = Method(proto: MethodDesc, name: string)
  datatype Enum = Enum(proto: EnumDesc, name: string)
  datatype EnumValue = EnumValue(proto: EnumValueDesc, name: string)

  /** The loop every listing accessor runs: start from an empty (never nil) slice and
      append one wrapper per descriptor, in descriptor order. */
  method Project<D, W>(ds: seq<D>, wrap: D -> W) returns (r: seq<W>)
    ensures |r| == |ds|
    ensures forall i :: 0 <= i < |ds| ==> r[i] == wrap(ds[i])
  {
    r := [];
    for i := 0 to |ds|
      invariant |r| == i
      invariant forall j :: 0 <= j < i ==> r[j] == wrap(ds[j])
    {
      r := r + [wrap(ds[i])];
    }
  }

  /** `File.Messages`. */
  method Messages(f: File) returns (r: seq<Message>)
    ensures |r| == |f.proto.messages|
    ensures forall i :: 0 <= i < |r| ==> r[i].proto == f.proto.messages[i] && r[i].name == f.proto.messages[i].name
  {
    r := Project(f.proto.messages, (d: MessageDesc) => Message(d, d.name));
  }

  /** `File.Services`. */
  method Services(f: File) returns (r: seq<Service>)
    ensures |r| == |f.proto.services|
    ensures forall i :: 0 <= i < |r| ==> r[i].proto == f.proto.services[i] && r[i].name == f.proto.services[i].name
  {
    r := Project(f.proto.services, (d: ServiceDesc) => Service(d, d.name));
  }

  /** `File.Enums`. */
  method Enums(f: File) returns (r: seq<Enum>)
    ensures |r| == |f.proto.enums|
    ensures forall i :: 0 <= i < |r| ==> r[i].proto == f.proto.enums[i] && r[i].name == f.proto.enums[i].name
  {
    r := Project(f.proto.enums, (d: EnumDesc) => Enum(d, d.name));
  }

  /** `Message.Fields` and `Oneof.Fields`: both wrap a list of field descriptors. */
  method WrapFields(ds: seq<FieldDesc>) returns (r: seq<Field>)
    ensures |r| == |ds|
    ensures forall i :: 0 <= i < |r| ==> r[i].proto == ds[i] && r[i].name == ds[i].name
  {
    r := Project(ds, (d: FieldDesc) => Field(d, d.name));
  }

  /** `Message.Fields`. */
  method MessageFields(m: Message) returns (r: seq<Field>)
    ensures |r| == |m.proto.fields|
    ensures forall i :: 0 <= i < |r| ==> r[i].proto == m.proto.fields[i] && r[i].name == m.proto.fields[i].name
  {
    r := WrapFields(m.proto.fields);
  }

  /** `Message.Oneofs`. */
  method Oneofs(m: Message) returns (r: seq<Oneof>)
    ensures |r| == |m.proto.oneofs|
    ensures forall i :: 0 <= i < |r| ==> r[i].proto == m.proto.oneofs[i] && r[i].name == m.proto.oneofs[i].name
  {
    r := Project(m.proto.oneofs, (d: OneofDesc) => Oneof(d, d.name));
  }

  /** `Oneof.Fields`. */
  method OneofFields(o: Oneof) returns (r: seq<Field>)
    ensures |r| == |o.proto.fields|
    ensures forall i :: 0 <= i < |r| ==> r[i].proto == o.proto.fields[i] && r[i].name == o.proto.fields[i].name
  {
    r := WrapFields(o.proto.fields);
  }

  /** `Service.Methods`. */
  method Methods(s: Service) returns (r: seq<Method>)
    ensures |r| == |s.proto.methods|
    ensures forall i :: 0 <= i < |r| ==> r[i].proto == s.proto.methods[i] && r[i].name == s.proto.methods[i].name
  {
    r := Project(s.proto.methods, (d: MethodDesc) => Method(d, d.name));
  }

  /** `Enum.Values`, with each value's number carried through unchanged. */
  method Values(e: Enum) returns (r: seq<EnumValue>)
    ensures |r| == |e.proto.values|
    ensures forall i :: 0 <= i < |r| ==> r[i].proto == e.proto.values[i] && r[i].name == e.proto.values[i].name
    ensures forall i :: 0 <= i < |r| ==> Number(r[i]) == e.proto.values[i].number
  {
    r := Project(e.proto.values, (d: EnumValueDesc) => EnumValue(d, d.name));
  }

  // ---------------------------------------------------------------------------
  // Field classification and type names

  function IsEnum(f: Field): bool
  {
    f.proto.kind == EnumKind
  }

  /** A field is never both an enum and a message: both tests compare the one kind
      against different constants. */
  function IsMessage(f: Field): (r: bool)
    ensures r ==> !IsEnum(f)
  {
    f.proto.kind == MessageKind
  }

  /** The descriptor's own map flag; the kind is not consulted. Map fields are therefore
      not told apart from message fields: in a well-formed descriptor a map field is a
      repeated message field as well. */
  function IsMap(f: Field): (r: bool)
    ensures r == f.proto.isMap
    ensures r && f.proto.WellFormed() ==> IsMessage(f) && IsRepeated(f) && !IsEnum(f)
  {
    f.proto.isMap
  }

  /** The map flag is separate from the kind: flipping the flag alone keeps the kind and
      the message test as they were and flips `IsMap`. */
  lemma MapFlagSeparate(f: Field)
    ensures var g := Field(f.proto.(isMap := !f.proto.isMap), f.name);
      g.proto.kind == f.proto.kind && IsMessage(g) == IsMessage(f) && IsMap(g) == !IsMap(f)
  {
  }

  function IsRepeated(f: Field): bool
  {
    f.proto.cardinality == Repeated
  }

  /** `Field.Type`: the referenced enum's full name for an enum field, the referenced
      message's full name for a message field, and otherwise the kind's keyword. A
      group field is not a message field here, so it reads "group". */
  function FieldType(f: Field): (r: string)
    requires f.proto.Linked()
    ensures f.proto.kind == EnumKind ==> r == f.proto.enumType.value
    ensures f.proto.kind == MessageKind ==> r == f.proto.messageType.value
    ensures f.proto.kind != EnumKind && f.proto.kind != MessageKind ==> KindFromName(r) == Some(f.proto.kind)
    ensures f.proto.kind == GroupKind ==> r == "group"
  {
    if IsEnum(f) then f.proto.enumType.value
    else if IsMessage(f) then f.proto.messageType.value
    else KindName(f.proto.kind)
  }

  /** For a scalar field the type name determines the kind: two scalar fields with the
      same type name have the same kind. */
  lemma ScalarTypeDeterminesKind(f: Field, g: Field)
    requires f.proto.Linked() && g.proto.Linked()
    requires !IsEnum(f) && !IsMessage(f) && !IsEnum(g) && !IsMessage(g)
    ensures FieldType(f) == FieldType(g) <==> f.proto.kind == g.proto.kind
  {
    var _ := KindName(f.proto.kind);
    var _ := KindName(g.proto.kind);
  }

  /** Some well-formed field is both a map and a message field. */
  lemma MapAndMessageTogether()
    ensures exists f: Field :: f.proto.WellFormed() && IsMap(f) && IsMessage(f)
  {
    var d := FieldDesc("m", "M", "M", MessageKind, Repeated, true, false, None, Some("pkg.EntryType"));
    assert Field(d, "m").proto.WellFormed();
  }

  // ---------------------------------------------------------------------------
  // Methods and enum values

  function IsClientStreaming(m: Method): bool
  {
    m.proto.clientStreaming
  }

  function IsServerStreaming(m: Method): bool
  {
    m.proto.serverStreaming
  }

  /** The two streaming flags are read from separate descriptor fields: every one of the
      four combinations (unary, client-, server- and bidirectional streaming) occurs. */
  lemma StreamingFlagsIndependent(client: bool, server: bool)
    ensures exists m: Method :: IsClientStreaming(m) == client && IsServerStreaming(m) == server
  {
    var m := Method(MethodDesc("Call", "Call", "Req", "Resp", client, server), "Call");
    assert IsClientStreaming(m) == client && IsServerStreaming(m) == server;
  }

  /** `EnumValue.Number`: the descriptor's number, already an int32, unchanged. */
  function Number(v: EnumValue): (r: int32)
    ensures r as int == v.proto.number as int
  {
    v.proto.number
  }
}
