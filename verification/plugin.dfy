/** The plugin object: its options, the generators registered per file pattern, the
    parsing of protoc's parameter string and the matching of file paths against
    patterns. */
module Plugin {
  import opened Common
  import opened GoText

  /** `PackageMapping` is None for Go's nil map. */
  datatype Options = Options(debug: bool, packageMapping: Option<map<string, string>>)

  /** A registered generator function, known only by its identity. */
  datatype GeneratorFunc = GeneratorFunc(id: nat)

  datatype PluginState = PluginState(options: Options, generators: map<string, GeneratorFunc>)

  // ---------------------------------------------------------------------------
  // Construction and registration

  /** `NewPlugin`: debugging off, an empty (non-nil) package mapping, no generators. */
  function NewPlugin(): (p: PluginState)
    ensures !p.options.debug
    ensures p.options.packageMapping == Some(map[])
    ensures p.generators == map[]
  {
    PluginState(Options(false, Some(map[])), map[])
  }

  /** `WithOptions`: the given options, except that a nil package mapping is replaced by
      an empty one; the registered generators are kept. */
  function WithOptions(p: PluginState, opts: Options): (r: PluginState)
    ensures r.options.packageMapping.Some?
    ensures r.options.debug == opts.debug
    ensures opts.packageMapping.Some? ==> r.options == opts
    ensures opts.packageMapping.None? ==> r.options.packageMapping == Some(map[])
    ensures r.generators == p.generators
  {
    if opts.packageMapping.None? then p.(options := opts.(packageMapping := Some(map[])))
    else p.(options := opts)
  }

  /** Setting options twice keeps only the second. */
  lemma WithOptionsLastWins(p: PluginState, o1: Options, o2: Options)
    ensures WithOptions(WithOptions(p, o1), o2) == WithOptions(p, o2)
  {
  }

  /** `GenerateFor`: registers `g` under `pattern`, replacing whatever was registered under
      the same pattern; every other pattern keeps its generator. */
  function GenerateFor(p: PluginState, pattern: string, g: GeneratorFunc): (r: PluginState)
    ensures pattern in r.generators && r.generators[pattern] == g
    ensures r.generators.Keys == p.generators.Keys + {pattern}
    ensures forall q :: q in p.generators && q != pattern ==> r.generators[q] == p.generators[q]
    ensures r.options == p.options
  {
    p.(generators := p.generators[pattern := g])
  }

  /** Registering twice under one pattern keeps only the later generator. */
  lemma GenerateForOverwrites(p: PluginState, pattern: string, g1: GeneratorFunc, g2: GeneratorFunc)
    ensures GenerateFor(GenerateFor(p, pattern, g1), pattern, g2) == GenerateFor(p, pattern, g2)
  {
  }

  /** Registrations under different patterns do not interfere, in either order. */
  lemma GenerateForCommutes(p: PluginState, q1: string, g1: GeneratorFunc, q2: string, g2: GeneratorFunc)
    requires q1 != q2
    ensures GenerateFor(GenerateFor(p, q1, g1), q2, g2) == GenerateFor(GenerateFor(p, q2, g2), q1, g1)
  {
    var a := GenerateFor(GenerateFor(p, q1, g1), q2, g2).generators;
    var b := GenerateFor(GenerateFor(p, q2, g2), q1, g1).generators;
    assert a.Keys == b.Keys;
    assert forall q :: q in a ==> a[q] == b[q];
  }

  // ---------------------------------------------------------------------------
  // Parameters

  /** One comma-separated piece: with an "=", the trimmed text before the first "=" as key
      and the trimmed rest (which may contain "=") as value; without one, the trimmed
      piece as key and "true" as value. */
  function ParsePair(pair: string): (r: (string, string))
    ensures '=' in pair ==>
      (var i := IndexOf(pair, '=').value; r == (TrimSpace(pair[..i]), TrimSpace(pair[i + 1..])))
    ensures '=' !in pair ==> r == (TrimSpace(pair), "true")
  {
    var kv := SplitFirst(pair, '=');
    if |kv| == 2 then
      (TrimSpace(kv[0]), TrimSpace(kv[1]))
    else (TrimSpace(pair), "true")
  }

  /** Both halves of a parsed pair are already trimmed: trimming them again changes
      nothing. */
  lemma ParsePairTrimmed(pair: string)
    ensures TrimSpace(ParsePair(pair).0) == ParsePair(pair).0
    ensures TrimSpace(ParsePair(pair).1) == ParsePair(pair).1
  {
    var kv := SplitFirst(pair, '=');
    if |kv| == 2 {
      TrimSpaceIdempotent(kv[0]);
      TrimSpaceIdempotent(kv[1]);
    } else {
      TrimSpaceIdempotent(pair);
      TrimSpaceKeepsTrimmed("true");
    }
  }

  /** The key/value pairs are stored in order, each overwriting an earlier pair with its
      key. */
  function Store(kvs: seq<(string, string)>): map<string, string>
  {
    if kvs == [] then map[]
    else Store(kvs[..|kvs| - 1])[kvs[|kvs| - 1].0 := kvs[|kvs| - 1].1]
  }

  /** The pairs of the comma-separated pieces, in order. */
  function Pairs(pieces: seq<string>): seq<(string, string)>
  {
    if pieces == [] then [] else [ParsePair(pieces[0])] + Pairs(pieces[1..])
  }

  /** One pair per piece, in the pieces' order. */
  lemma {:induction false} PairsAt(pieces: seq<string>)
    ensures |Pairs(pieces)| == |pieces|
    ensures forall i :: 0 <= i < |pieces| ==> Pairs(pieces)[i] == ParsePair(pieces[i])
    decreases |pieces|
  {
    if pieces != [] {
      PairsAt(pieces[1..]);
      assert Pairs(pieces) == [ParsePair(pieces[0])] + Pairs(pieces[1..]);
    }
  }

  /** `parseParameters`: the empty map for the empty string, otherwise the comma-separated
      pieces parsed and stored in order. */
  function ParseParameters(parameter: string): (r: map<string, string>)
    ensures parameter == "" ==> r == map[]
  {
    if parameter == "" then map[] else Store(Pairs(Split(parameter, ',')))
  }

  /** Some pair carries the key. */
  predicate SomePairHasKey(kvs: seq<(string, string)>, k: string)
  {
    exists i :: 0 <= i < |kvs| && kvs[i].0 == k
  }

  /** Some piece parses to a pair with the key. */
  predicate SomePieceHasKey(pieces: seq<string>, k: string)
  {
    exists i :: 0 <= i < |pieces| && ParsePair(pieces[i]).0 == k
  }

  /** A key is stored exactly when some pair carries it. */
  lemma {:induction false} StoreHasKey(kvs: seq<(string, string)>, k: string)
    ensures k in Store(kvs) <==> SomePairHasKey(kvs, k)
    decreases |kvs|
  {
    if kvs != [] {
      var n := |kvs| - 1;
      StoreHasKey(kvs[..n], k);
      if SomePairHasKey(kvs[..n], k) {
        var i :| 0 <= i < n && kvs[..n][i].0 == k;
        assert kvs[i].0 == k;
      }
      if SomePairHasKey(kvs, k) {
        var i :| 0 <= i < |kvs| && kvs[i].0 == k;
        if i < n {
          assert kvs[..n][i].0 == k;
        }
      }
    }
  }

  /** Some pair carries a key exactly when some piece parses to that key. */
  lemma PairsHaveKey(pieces: seq<string>, k: string)
    ensures SomePairHasKey(Pairs(pieces), k) <==> SomePieceHasKey(pieces, k)
  {
    PairsAt(pieces);
    if SomePieceHasKey(pieces, k) {
      var i :| 0 <= i < |pieces| && ParsePair(pieces[i]).0 == k;
      assert Pairs(pieces)[i].0 == k;
    }
  }

  /** The keys of a parsed parameter string: none for the empty string, otherwise
      exactly the keys of its comma-separated pieces. */
  lemma ParseParametersKeys(parameter: string, k: string)
    ensures parameter == "" ==> k !in ParseParameters(parameter)
    ensures parameter != "" ==> (k in ParseParameters(parameter) <==> SomePieceHasKey(Split(parameter, ','), k))
  {
    if parameter != "" {
      var pieces := Split(parameter, ',');
      assert ParseParameters(parameter) == Store(Pairs(pieces));
      StoreHasKey(Pairs(pieces), k);
      PairsHaveKey(pieces, k);
    }
  }

  /** A later piece overwrites an earlier one with the same key: the value stored under
      a key is the value of the last piece of the comma-separated string with that
      key. */
  lemma ParseParametersLastWins(parameter: string, i: int)
    requires 0 <= i < |Split(parameter, ',')|
    requires forall j :: i < j < |Split(parameter, ',')| ==>
      ParsePair(Split(parameter, ',')[j]).0 != ParsePair(Split(parameter, ',')[i]).0
    ensures parameter != "" ==>
      var kv := ParsePair(Split(parameter, ',')[i]);
      kv.0 in ParseParameters(parameter) && ParseParameters(parameter)[kv.0] == kv.1
  {
    if parameter != "" {
      var pieces := Split(parameter, ',');
      var kvs := Pairs(pieces);
      PairsAt(pieces);
      assert LastWithKey(kvs, i);
      StoreLastWins(kvs, i);
    }
  }

  /** The pair at `i` is the last one with its key. */
  predicate LastWithKey(kvs: seq<(string, string)>, i: int)
    requires 0 <= i < |kvs|
  {
    forall j :: i < j < |kvs| ==> kvs[j].0 != kvs[i].0
  }

  /** The stored keys are exactly the keys of the pairs. */
  lemma {:induction false} StoreKeys(kvs: seq<(string, string)>)
    ensures Store(kvs).Keys == set kv | kv in kvs :: kv.0
    decreases |kvs|
  {
    if kvs != [] {
      var n := |kvs| - 1;
      StoreKeys(kvs[..n]);
      assert kvs == kvs[..n] + [kvs[n]];
      assert (set kv | kv in kvs :: kv.0) == (set kv | kv in kvs[..n] :: kv.0) + {kvs[n].0};
    }
  }

  /** A later pair with the same key overwrites an earlier one: the stored value of a key
      is the value of the last pair with that key. */
  lemma {:induction false} StoreLastWins(kvs: seq<(string, string)>, i: int)
    requires 0 <= i < |kvs| && LastWithKey(kvs, i)
    ensures kvs[i].0 in Store(kvs)
    ensures Store(kvs)[kvs[i].0] == kvs[i].1
    decreases |kvs|
  {
    var n := |kvs| - 1;
    if i < n {
      var init := kvs[..n];
      assert forall j :: i < j < n ==> init[j] == kvs[j];
      assert LastWithKey(init, i);
      StoreLastWins(init, i);
    }
  }

  /** Text that trimming leaves alone: non-empty, no white space at either end. */
  predicate Trimmed(s: string)
  {
    |s| > 0 && !IsSpace(s[0]) && !IsSpace(s[|s| - 1])
  }

  /** "k1=v1,k2=v2" parses to k1 -> v1 and then k2 -> v2, the second overwriting the
      first when the keys coincide. A value may contain "=" or ":" (as in
      "debug=true,package_mapping=foo.bar:mypkg"); it is kept whole. */
  lemma ParseTwo(k1: string, v1: string, k2: string, v2: string)
    requires Trimmed(k1) && Trimmed(v1) && Trimmed(k2) && Trimmed(v2)
    requires '=' !in k1 && '=' !in k2
    requires ',' !in k1 && ',' !in v1 && ',' !in k2 && ',' !in v2
    ensures ParseParameters(k1 + "=" + v1 + "," + k2 + "=" + v2) == map[k1 := v1][k2 := v2]
  {
    var p1, p2 := k1 + "=" + v1, k2 + "=" + v2;
    assert k1 + "=" + v1 + "," + k2 + "=" + v2 == p1 + [','] + p2;
    assert ',' !in p1 && ',' !in p2;
    SplitTwo(p1, p2, ',');
    PairExample(k1, v1);
    PairExample(k2, v2);
    PairsTwo(p1, p2);
    StoreTwo((k1, v1), (k2, v2));
  }

  lemma PairsTwo(p1: string, p2: string)
    ensures Pairs([p1, p2]) == [ParsePair(p1), ParsePair(p2)]
  {
    assert [p1, p2][1..] == [p2] && [p2][1..] == [];
    assert Pairs([p2]) == [ParsePair(p2)] + Pairs([]);
  }

  lemma StoreTwo(kv1: (string, string), kv2: (string, string))
    ensures Store([kv1, kv2]) == map[kv1.0 := kv1.1][kv2.0 := kv2.1]
  {
    assert [kv1, kv2][..1] == [kv1] && [kv1][..0] == [];
    assert Store([kv1]) == Store([])[kv1.0 := kv1.1];
    assert Store([kv1, kv2]) == Store([kv1])[kv2.0 := kv2.1];
  }

  /** Two separator-free pieces joined by the separator split back into the two. */
  lemma SplitTwo(a: string, b: string, sep: char)
    requires sep !in a && sep !in b
    ensures Split(a + [sep] + b, sep) == [a, b]
  {
    var parts := [a, b];
    assert parts[1..] == [b];
    assert Join(parts, [sep]) == a + [sep] + b;
    SplitJoin(parts, sep);
  }

  /** `key=value` with a key free of "=" and both sides free of outer white space. */
  lemma PairExample(key: string, value: string)
    requires '=' !in key && Trimmed(key) && Trimmed(value)
    ensures ParsePair(key + "=" + value) == (key, value)
  {
    var s := key + "=" + value;
    IndexOfFirst(s, '=', |key|);
    assert s[..|key|] == key && s[|key| + 1..] == value;
    TrimSpaceKeepsTrimmed(key);
    TrimSpaceKeepsTrimmed(value);
  }

  // ---------------------------------------------------------------------------
  // Options from parameters

  /** The case of `updateOptionsFromParams`'s switch for one key: "debug" sets the flag to
      whether the value is "true" or "1"; "package_mapping" with a ":" stores
      prefix -> suffix (split at the first ":"), creating the map if it is nil; any other
      key, or a mapping without ":", changes nothing. */
  function ApplyParam(o: Options, key: string, value: string): Options
  {
    if key == "debug" then o.(debug := value == "true" || value == "1")
    else if key == "package_mapping" then
      var m := SplitFirst(value, ':');
      if |m| == 2 then o.(packageMapping := Some(o.packageMapping.GetOr(map[])[m[0] := m[1]]))
      else o
    else o
  }

  /** The options after all parameters have been applied, independent of the order the
      map is walked in. */
  function UpdatedOptions(o: Options, params: map<string, string>): (r: Options)
    ensures "debug" in params ==> (r.debug <==> params["debug"] == "true" || params["debug"] == "1")
    ensures "debug" !in params ==> r.debug == o.debug
    ensures "package_mapping" in params && ':' in params["package_mapping"] ==>
      var v := params["package_mapping"];
      var i := IndexOf(v, ':').value;
      && r.packageMapping.Some?
      && r.packageMapping.value == o.packageMapping.GetOr(map[])[v[..i] := v[i + 1..]]
    ensures !("package_mapping" in params && ':' in params["package_mapping"]) ==> r.packageMapping == o.packageMapping
  {
    var o1 := if "debug" in params then ApplyParam(o, "debug", params["debug"]) else o;
    if "package_mapping" in params then
      ApplyParam(o1, "package_mapping", params["package_mapping"])
    else o1
  }

  /** Keys other than "debug" and "package_mapping" have no effect. */
  lemma OtherKeysIgnored(o: Options, params: map<string, string>, key: string, value: string)
    requires key != "debug" && key != "package_mapping"
    ensures UpdatedOptions(o, params[key := value]) == UpdatedOptions(o, params)
  {
    var q := params[key := value];
    assert ("debug" in q <==> "debug" in params) && ("debug" in q ==> q["debug"] == params["debug"]);
    assert ("package_mapping" in q <==> "package_mapping" in params)
        && ("package_mapping" in q ==> q["package_mapping"] == params["package_mapping"]);
  }

  /** `updateOptionsFromParams`: walks the parameter map in `order` (the map's iteration
      order, which Go leaves unspecified) and applies each key's case. Whatever the order,
      the result is `UpdatedOptions`. */
  method UpdateOptionsFromParams(p: PluginState, params: map<string, string>, order: seq<string>)
    returns (r: PluginState)
    requires forall k :: k in order <==> k in params
    ensures r.options == UpdatedOptions(p.options, params)
    ensures r.generators == p.generators
  {
    r := p;
    for i := 0 to |order|
      invariant r.generators == p.generators
      invariant r.options.debug == if "debug" in order[..i] then ApplyParam(p.options, "debug", params["debug"]).debug else p.options.debug
      invariant r.options.packageMapping
             == if "package_mapping" in order[..i] then ApplyParam(p.options, "package_mapping", params["package_mapping"]).packageMapping
                else p.options.packageMapping
    {
      assert order[..i + 1] == order[..i] + [order[i]];
      var k := order[i];
      if k == "package_mapping" && k in order[..i] {
        var m := SplitFirst(params[k], ':');
        if |m| == 2 {
          var before := p.options.packageMapping.GetOr(map[]);
          assert before[m[0] := m[1]][m[0] := m[1]] == before[m[0] := m[1]];
        }
      }
      r := r.(options := ApplyParam(r.options, order[i], params[order[i]]));
    }
    assert order[..|order|] == order;
  }

  // ---------------------------------------------------------------------------
  // Patterns

  /** What filepath.Match reports. */
  datatype GlobResult = Matched | NoMatch | BadPattern

  /** `matchesPattern`: "*" and "*.proto" match every path; otherwise the glob decides,
      and a malformed glob falls back to a substring test with the pattern's one trailing
      "*" removed. `glob(pattern, path)` stands for filepath.Match. */
  function MatchesPattern(path: string, pattern: string, glob: (string, string) -> GlobResult): (r: bool)
    ensures pattern == "*" || pattern == "*.proto" ==> r
    ensures pattern != "*" && pattern != "*.proto" && glob(pattern, path) == Matched ==> r
    ensures pattern != "*" && pattern != "*.proto" && glob(pattern, path) == NoMatch ==> !r
    ensures pattern != "*" && pattern != "*.proto" && glob(pattern, path) == BadPattern ==>
      (r <==> exists i :: OccursAt(path, TrimSuffix(pattern, "*"), i))
  {
    if pattern == "*" || pattern == "*.proto" then true
    else
      match glob(pattern, path)
      case Matched => true
      case NoMatch => false
      case BadPattern =>
        ContainsAt(path, TrimSuffix(pattern, "*"));
        Contains(path, TrimSuffix(pattern, "*"))
  }
}
