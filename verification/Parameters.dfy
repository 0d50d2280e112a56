/** Parameter trees: the validator's reference check, their resolution, and why an accepted tree resolves. */
module Parameters {
  import opened Model

  type Upstream = map<NodeId, map<string, Reference>>

  // ----- Dotted references -----

  /** `str.split`: the parts between separators, at least one. */
  function Split(s: string, separator: char): (parts: seq<string>)
    ensures |parts| >= 1
  {
    if s == [] then [[]]
    else
      var rest := Split(s[1..], separator);
      if s[0] == separator then [[]] + rest else [[s[0]] + rest[0]] + rest[1..]
  }

  function Join(parts: seq<string>, separator: char): string
    requires |parts| >= 1
  {
    if |parts| == 1 then parts[0] else parts[0] + [separator] + Join(parts[1..], separator)
  }

  /** Splitting loses nothing: the parts contain no separator and join back to the text. */
  lemma {:induction false} SplitJoins(s: string, separator: char)
    ensures Join(Split(s, separator), separator) == s
    ensures forall i | 0 <= i < |Split(s, separator)| :: separator !in Split(s, separator)[i]
  {
    if s != [] {
      SplitJoins(s[1..], separator);
      var rest, parts := Split(s[1..], separator), Split(s, separator);
      if s[0] == separator {
        assert parts[1..] == rest;
      } else {
        assert parts[1..] == rest[1..];
        assert forall i | 0 < i < |parts| :: parts[i] == rest[i];
      }
    }
  }

  function LookupPath(v: Json, parts: seq<string>): Option<Json> {
    if parts == [] then Some(v)
    else if v.Object? && parts[0] in v.fields then LookupPath(v.fields[parts[0]], parts[1..])
    else None
  }

  /** `lookup`: walk the configuration, failing with INVALID_REFERENCE at a missing part. */
  method Lookup(config: Json, reference: string) returns (r: Option<Json>)
    ensures r == LookupPath(config, Split(reference, '.'))
  {
    var parts := Split(reference, '.');
    var current := config;
    var i := 0;
    while i < |parts|
      invariant 0 <= i <= |parts|
      invariant LookupPath(config, parts) == LookupPath(current, parts[i..])
    {
      if !current.Object? || parts[i] !in current.fields {
        return None;
      }
      current := current.fields[parts[i]];
      assert parts[i..][1..] == parts[i + 1..];
      i := i + 1;
    }
    assert parts[i..] == [];
    return Some(current);
  }

  // ----- Resolution -----

  const REFERENCES := {"$config", "$runtime", "$output"}
  const RUNTIME := {"business_run_key", "run_id", "node_id", "attempt", "restart_mode"}
  const BUSINESS := {"sources", "targets", "data_quality", "notifications"}

  predicate IsReference(v: Json) {
    v.Object? && v.fields.Keys * REFERENCES != {}
  }

  function Encode(r: Reference): Json {
    match r
    case Artifact(path, digest, rows, schema) =>
      Object(map["path" := Text(path), "digest" := Text(digest), "row_count" := Number(rows as real),
                 "schema" := Text(schema)])
    case Receipt(effect, digest) =>
      Object(map["effect" := Text(effect.node + ":" + effect.operation), "digest" := Text(digest),
                 "row_count" := Number(1.0)])
  }

  function ResolveReference(v: Json, data: Json, runtime: map<string, Json>, upstream: Upstream): Option<Json>
    requires IsReference(v)
  {
    if |v.fields| != 1 then None
    else if "$config" in v.fields then
      if v.fields["$config"].Text? then LookupPath(data, Split(v.fields["$config"].text, '.')) else None
    else if "$runtime" in v.fields then
      if v.fields["$runtime"].Text? then LookupPath(Object(runtime), Split(v.fields["$runtime"].text, '.')) else None
    else if "$output" in v.fields && v.fields["$output"].Text? then
      var parts := Split(v.fields["$output"].text, '.');
      if |parts| != 2 || parts[0] !in upstream || parts[1] !in upstream[parts[0]] then None
      else Some(Encode(upstream[parts[0]][parts[1]]))
    else None
  }

  /** `resolve_parameters`; `None` is the INVALID_REFERENCE error. */
  function Resolve(v: Json, data: Json, runtime: map<string, Json>, upstream: Upstream): Option<Json> {
    match v
    case Object(fields) =>
      if IsReference(v) then ResolveReference(v, data, runtime, upstream)
      else if forall k | k in fields :: Resolve(fields[k], data, runtime, upstream).Some? then
        Some(Object(map k | k in fields :: Resolve(fields[k], data, runtime, upstream).value))
      else None
    case List(items) =>
      if forall i | 0 <= i < |items| :: Resolve(items[i], data, runtime, upstream).Some? then
        Some(List(seq(|items|, i requires 0 <= i < |items| => Resolve(items[i], data, runtime, upstream).value)))
      else None
    case _ => Some(v)
  }

  // ----- The validator's check -----

  predicate AcceptsReference(v: Json, cfg: Config, node: NodeDef)
    requires IsReference(v)
  {
    && |v.fields| == 1
    && (forall k | k in v.fields :: v.fields[k].Text?)
    && ("$config" in v.fields ==>
          var parts := Split(v.fields["$config"].text, '.');
          parts[0] in BUSINESS && LookupPath(cfg.data, parts).Some?)
    && ("$runtime" in v.fields ==> v.fields["$runtime"].text in RUNTIME)
    && ("$output" in v.fields ==>
          var parts := Split(v.fields["$output"].text, '.');
          && |parts| == 2
          && parts[0] in node.dependencies
          && parts[0] in cfg.nodes
          && parts[1] in cfg.nodes[parts[0]].expectedOutputs)
  }

  /** `_references` returns without raising. */
  predicate Accepts(v: Json, cfg: Config, node: NodeDef) {
    match v
    case Object(fields) =>
      if IsReference(v) then AcceptsReference(v, cfg, node)
      else forall k | k in fields :: Accepts(fields[k], cfg, node)
    case List(items) => forall i | 0 <= i < |items| :: Accepts(items[i], cfg, node)
    case _ => true
  }

  // ----- Why accepted parameters resolve -----

  predicate RuntimeComplete(runtime: map<string, Json>) {
    RUNTIME <= runtime.Keys
  }

  /** All outputs that the tree refers to are there. */
  predicate OutputsPresent(v: Json, upstream: Upstream) {
    match v
    case Object(fields) =>
      if IsReference(v) then
        "$output" in fields && fields["$output"].Text? ==>
          var parts := Split(fields["$output"].text, '.');
          |parts| == 2 ==> parts[0] in upstream && parts[1] in upstream[parts[0]]
      else forall k | k in fields :: OutputsPresent(fields[k], upstream)
    case List(items) => forall i | 0 <= i < |items| :: OutputsPresent(items[i], upstream)
    case _ => true
  }

  lemma {:induction false} PlainNames(s: string)
    requires '.' !in s
    ensures Split(s, '.') == [s]
  {
    if s != [] {
      PlainNames(s[1..]);
      assert [s[0]] + s[1..] == s;
    }
  }

  lemma RuntimeNamesArePlain(name: string)
    requires name in RUNTIME
    ensures '.' !in name
  {
    assert '.' !in "business_run_key";
    assert '.' !in "run_id";
    assert '.' !in "node_id";
    assert '.' !in "attempt";
    assert '.' !in "restart_mode";
  }

  lemma LookupName(fields: map<string, Json>, name: string)
    requires '.' !in name && name in fields
    ensures LookupPath(Object(fields), Split(name, '.')) == Some(fields[name])
  {
    PlainNames(name);
    assert [name][1..] == [];
    assert LookupPath(fields[name], []) == Some(fields[name]);
  }

  lemma OneKey(v: Json)
    requires IsReference(v) && |v.fields| == 1
    ensures v.fields.Keys == {"$config"} || v.fields.Keys == {"$runtime"} || v.fields.Keys == {"$output"}
  {
    var k :| k in v.fields.Keys * REFERENCES;
    assert |v.fields.Keys| == 1;
    assert |v.fields.Keys - {k}| == 0;
    assert v.fields.Keys == {k};
  }

  lemma ReferenceResolvesIff(v: Json, cfg: Config, node: NodeDef, runtime: map<string, Json>, upstream: Upstream)
    requires IsReference(v) && AcceptsReference(v, cfg, node) && RuntimeComplete(runtime)
    ensures ResolveReference(v, cfg.data, runtime, upstream).Some? <==> OutputsPresent(v, upstream)
  {
    OneKey(v);
    if "$runtime" in v.fields {
      var name := v.fields["$runtime"].text;
      RuntimeNamesArePlain(name);
      assert name in runtime.Keys;
      LookupName(runtime, name);
    }
  }

  /** An accepted tree resolves exactly when the outputs it names are present: the run, the attempt
      and the platform play no part. */
  lemma {:induction false} ResolvesIff(
    v: Json, cfg: Config, node: NodeDef, runtime: map<string, Json>, upstream: Upstream
  )
    requires Accepts(v, cfg, node) && RuntimeComplete(runtime)
    ensures Resolve(v, cfg.data, runtime, upstream).Some? <==> OutputsPresent(v, upstream)
  {
    match v
    case Object(fields) =>
      if IsReference(v) {
        ReferenceResolvesIff(v, cfg, node, runtime, upstream);
      } else {
        forall k | k in fields {
          ResolvesIff(fields[k], cfg, node, runtime, upstream);
        }
      }
    case List(items) =>
      forall i | 0 <= i < |items| {
        ResolvesIff(items[i], cfg, node, runtime, upstream);
      }
    case _ =>
  }

  /** Every dependency has exactly its expected outputs, as success-class records do. */
  predicate Covers(upstream: Upstream, cfg: Config, node: NodeDef) {
    forall d | d in node.dependencies && d in cfg.nodes ::
      d in upstream && cfg.nodes[d].expectedOutputs <= upstream[d].Keys
  }

  lemma {:induction false} CoveredIsPresent(v: Json, cfg: Config, node: NodeDef, upstream: Upstream)
    requires Accepts(v, cfg, node) && Covers(upstream, cfg, node)
    ensures OutputsPresent(v, upstream)
  {
    match v
    case Object(fields) =>
      if !IsReference(v) {
        forall k | k in fields {
          CoveredIsPresent(fields[k], cfg, node, upstream);
        }
      }
    case List(items) =>
      forall i | 0 <= i < |items| {
        CoveredIsPresent(items[i], cfg, node, upstream);
      }
    case _ =>
  }

  /** Reference soundness for `all_success` nodes: accepted parameters always resolve. */
  lemma AcceptedResolves(v: Json, cfg: Config, node: NodeDef, runtime: map<string, Json>, upstream: Upstream)
    requires Accepts(v, cfg, node) && RuntimeComplete(runtime) && Covers(upstream, cfg, node)
    ensures Resolve(v, cfg.data, runtime, upstream).Some?
  {
    CoveredIsPresent(v, cfg, node, upstream);
    ResolvesIff(v, cfg, node, runtime, upstream);
  }

  // ----- Trees that depend on the configuration alone -----

  predicate ConfigOnly(v: Json) {
    match v
    case Object(fields) =>
      if IsReference(v) then fields.Keys == {"$config"} else forall k | k in fields :: ConfigOnly(fields[k])
    case List(items) => forall i | 0 <= i < |items| :: ConfigOnly(items[i])
    case _ => true
  }

  lemma ConfigReferenceIgnoresTheRun(
    v: Json, data: Json, r1: map<string, Json>, u1: Upstream, r2: map<string, Json>, u2: Upstream
  )
    requires IsReference(v) && v.fields.Keys == {"$config"}
    ensures ResolveReference(v, data, r1, u1) == ResolveReference(v, data, r2, u2)
  {
    assert "$config" in v.fields;
  }

  lemma {:induction false} ConfigOnlyIgnoresTheRun(
    v: Json, data: Json, r1: map<string, Json>, u1: Upstream, r2: map<string, Json>, u2: Upstream
  )
    requires ConfigOnly(v)
    ensures Resolve(v, data, r1, u1) == Resolve(v, data, r2, u2)
  {
    if v.Object? && IsReference(v) {
      ConfigReferenceIgnoresTheRun(v, data, r1, u1, r2, u2);
    } else if v.Object? {
      forall k | k in v.fields ensures Resolve(v.fields[k], data, r1, u1) == Resolve(v.fields[k], data, r2, u2) {
        ConfigOnlyIgnoresTheRun(v.fields[k], data, r1, u1, r2, u2);
      }
      SameFields(v, data, r1, u1, r2, u2);
    } else if v.List? {
      forall i | 0 <= i < |v.items| ensures Resolve(v.items[i], data, r1, u1) == Resolve(v.items[i], data, r2, u2) {
        ConfigOnlyIgnoresTheRun(v.items[i], data, r1, u1, r2, u2);
      }
      SameItems(v, data, r1, u1, r2, u2);
    }
  }

  lemma ResolvedFields(v: Json, data: Json, r: map<string, Json>, u: Upstream)
    requires v.Object? && !IsReference(v)
    ensures var resolved := Resolve(v, data, r, u);
            && (resolved.Some? <==> forall k | k in v.fields :: Resolve(v.fields[k], data, r, u).Some?)
            && (resolved.Some? ==>
                  && resolved.value.Object? && resolved.value.fields.Keys == v.fields.Keys
                  && forall k | k in v.fields :: Resolve(v.fields[k], data, r, u) == Some(resolved.value.fields[k]))
  {
  }

  lemma SameFields(v: Json, data: Json, r1: map<string, Json>, u1: Upstream, r2: map<string, Json>, u2: Upstream)
    requires v.Object? && !IsReference(v)
    requires forall k | k in v.fields :: Resolve(v.fields[k], data, r1, u1) == Resolve(v.fields[k], data, r2, u2)
    ensures Resolve(v, data, r1, u1) == Resolve(v, data, r2, u2)
  {
    hide Resolve;
    ResolvedFields(v, data, r1, u1);
    ResolvedFields(v, data, r2, u2);
    if Resolve(v, data, r1, u1).Some? {
      assert Resolve(v, data, r1, u1).value.fields == Resolve(v, data, r2, u2).value.fields;
    }
  }

  lemma SameItems(v: Json, data: Json, r1: map<string, Json>, u1: Upstream, r2: map<string, Json>, u2: Upstream)
    requires v.List?
    requires forall i | 0 <= i < |v.items| :: Resolve(v.items[i], data, r1, u1) == Resolve(v.items[i], data, r2, u2)
    ensures Resolve(v, data, r1, u1) == Resolve(v, data, r2, u2)
  {
    if Resolve(v, data, r1, u1).Some? {
      assert Resolve(v, data, r1, u1).value.items == Resolve(v, data, r2, u2).value.items;
    }
  }

  // ----- Conditions -----

  /** `parameters[condition["parameter"]]` on the resolved tree; `None` is Python's KeyError/TypeError. */
  function ConditionValue(resolved: Json, parameter: string): Option<Json> {
    if resolved.Object? && parameter in resolved.fields then Some(resolved.fields[parameter]) else None
  }

  /** The tree is one `$config` reference to an object that has a field `$config` of its own. */
  predicate SelfNamed(v: Json, data: Json) {
    && v.Object? && "$config" in v.fields && v.fields["$config"].Text?
    && var value := LookupPath(data, Split(v.fields["$config"].text, '.'));
    && value.Some? && value.value.Object? && "$config" in value.value.fields
  }

  predicate Plain(runtime: map<string, Json>) {
    forall name | name in runtime :: runtime[name].Text? || runtime[name].Number?
  }

  /** The validator asks only that the unresolved tree has the condition's parameter. Reading it from the
      resolved tree raises exactly when the whole tree is one reference object, whose resolution replaces
      it, save for a configuration object that happens to have the same key. */
  lemma ConditionRaisesExactly(
    v: Json, cfg: Config, node: NodeDef, runtime: map<string, Json>, upstream: Upstream, parameter: string
  )
    requires v.Object? && parameter in v.fields && Accepts(v, cfg, node)
    requires RuntimeComplete(runtime) && Plain(runtime) && Resolve(v, cfg.data, runtime, upstream).Some?
    ensures ConditionValue(Resolve(v, cfg.data, runtime, upstream).value, parameter).None? <==>
            IsReference(v) && !SelfNamed(v, cfg.data)
  {
    if IsReference(v) {
      OneKey(v);
      if "$runtime" in v.fields {
        RuntimeNamesArePlain(v.fields["$runtime"].text);
        LookupName(runtime, v.fields["$runtime"].text);
      }
    }
  }
}
