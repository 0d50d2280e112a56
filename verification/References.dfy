/** Parameter trees, place by place: which references validation admits, and what stands in each place once they
    are resolved. */
module References {
  import opened Model
  import opened Parameters
  import opened Board
  import opened Rules

  /** One step down a tree. */
  datatype Step = Field(name: string) | Item(index: nat)

  function Child(v: Json, step: Step): Option<Json> {
    match step
    case Field(name) => if v.Object? && name in v.fields then Some(v.fields[name]) else None
    case Item(index) => if v.List? && index < |v.items| then Some(v.items[index]) else None
  }

  /** What stands at a place of the tree. */
  function At(v: Json, path: seq<Step>): Option<Json> {
    if path == [] then Some(v)
    else if Child(v, path[0]).None? then None
    else At(Child(v, path[0]).value, path[1..])
  }

  /** What stands at a place that no reference encloses. */
  function Beneath(v: Json, path: seq<Step>): Option<Json> {
    if path == [] then Some(v)
    else if IsReference(v) || Child(v, path[0]).None? then None
    else Beneath(Child(v, path[0]).value, path[1..])
  }

  // ----- Validation -----

  /** Every reference in the tree is admitted. */
  ghost predicate AllAdmitted(v: Json, cfg: Config, node: NodeDef) {
    forall path, u | Beneath(v, path) == Some(u) && IsReference(u) :: AcceptsReference(u, cfg, node)
  }

  lemma AcceptsExactly(v: Json, cfg: Config, node: NodeDef)
    ensures Accepts(v, cfg, node) <==> AllAdmitted(v, cfg, node)
  {
    hide AcceptsReference;
    if AllAdmitted(v, cfg, node) {
      AdmittedIsAccepted(v, cfg, node);
    }
    if Accepts(v, cfg, node) {
      forall path, u | Beneath(v, path) == Some(u) && IsReference(u) ensures AcceptsReference(u, cfg, node) {
        AcceptedBeneath(v, cfg, node, path, u);
      }
    }
  }

  lemma {:induction false} AdmittedIsAccepted(v: Json, cfg: Config, node: NodeDef)
    requires AllAdmitted(v, cfg, node)
    ensures Accepts(v, cfg, node)
    decreases v
  {
    hide AcceptsReference;
    assert Beneath(v, []) == Some(v);
    if !IsReference(v) {
      match v
      case Object(fields) =>
        forall k | k in fields ensures Accepts(fields[k], cfg, node) {
          AdmittedBelow(v, cfg, node, Field(k));
          AdmittedIsAccepted(fields[k], cfg, node);
        }
      case List(items) =>
        forall i | 0 <= i < |items| ensures Accepts(items[i], cfg, node) {
          AdmittedBelow(v, cfg, node, Item(i));
          AdmittedIsAccepted(items[i], cfg, node);
        }
      case _ =>
    }
  }

  lemma AdmittedBelow(v: Json, cfg: Config, node: NodeDef, step: Step)
    requires !IsReference(v) && Child(v, step).Some? && AllAdmitted(v, cfg, node)
    ensures AllAdmitted(Child(v, step).value, cfg, node)
  {
    hide AcceptsReference;
    forall path, u | Beneath(Child(v, step).value, path) == Some(u) && IsReference(u)
      ensures AcceptsReference(u, cfg, node)
    {
      assert ([step] + path)[1..] == path;
      assert Beneath(v, [step] + path) == Some(u);
    }
  }

  lemma {:induction false} AcceptedBeneath(v: Json, cfg: Config, node: NodeDef, path: seq<Step>, u: Json)
    requires Accepts(v, cfg, node) && Beneath(v, path) == Some(u)
    ensures Accepts(u, cfg, node)
    decreases |path|
  {
    hide AcceptsReference;
    if path != [] {
      AcceptedBeneath(Child(v, path[0]).value, cfg, node, path[1..], u);
    }
  }

  function Reference(kind: string, text: string): Json {
    Object(map[kind := Text(text)])
  }

  ghost predicate IsSetting(v: Json, cfg: Config, text: string) {
    && v == Reference("$config", text)
    && Split(text, '.')[0] in {"sources", "targets", "data_quality", "notifications"}
    && LookupPath(cfg.data, Split(text, '.')).Some?
  }

  ghost predicate IsFact(v: Json, name: string) {
    v == Reference("$runtime", name) && name in {"business_run_key", "run_id", "node_id", "attempt", "restart_mode"}
  }

  ghost predicate IsOutput(v: Json, cfg: Config, node: NodeDef, d: NodeId, output: string) {
    && '.' !in d && '.' !in output && v == Reference("$output", d + "." + output)
    && d in node.dependencies && d in cfg.nodes && output in cfg.nodes[d].expectedOutputs
  }

  /** The three references that are admitted: to a business setting that exists, to one of five facts about the
      attempt, and to a declared output of a direct dependency. */
  lemma AdmitsExactly(v: Json, cfg: Config, node: NodeDef)
    requires IsReference(v)
    ensures AcceptsReference(v, cfg, node) <==>
            || (exists text :: IsSetting(v, cfg, text))
            || (exists name :: IsFact(v, name))
            || (exists d, output :: IsOutput(v, cfg, node, d, output))
  {
    hide IsSetting, IsFact, IsOutput, AcceptsReference;
    if AcceptsReference(v, cfg, node) {
      AdmittedIsOneOf(v, cfg, node);
    }
    if text :| IsSetting(v, cfg, text) {
      SettingIsAdmitted(v, cfg, node, text);
    }
    if name :| IsFact(v, name) {
      FactIsAdmitted(v, cfg, node, name);
    }
    if d, output :| IsOutput(v, cfg, node, d, output) {
      OutputIsAdmitted(v, cfg, node, d, output);
    }
  }

  lemma AdmittedIsOneOf(v: Json, cfg: Config, node: NodeDef)
    requires IsReference(v) && AcceptsReference(v, cfg, node)
    ensures || (exists text :: IsSetting(v, cfg, text))
            || (exists name :: IsFact(v, name))
            || (exists d, output :: IsOutput(v, cfg, node, d, output))
  {
    OneKey(v);
    var kind := if "$config" in v.fields then "$config" else if "$runtime" in v.fields then "$runtime" else "$output";
    var text := v.fields[kind].text;
    assert v.fields == map[kind := Text(text)];
    if kind == "$config" {
      assert IsSetting(v, cfg, text);
    } else if kind == "$runtime" {
      assert IsFact(v, text);
    } else {
      var parts := Split(text, '.');
      SplitJoins(text, '.');
      assert parts[1..] == [parts[1]];
      assert text == parts[0] + "." + parts[1];
      assert IsOutput(v, cfg, node, parts[0], parts[1]);
    }
  }

  lemma SettingIsAdmitted(v: Json, cfg: Config, node: NodeDef, text: string)
    requires IsReference(v) && IsSetting(v, cfg, text)
    ensures AcceptsReference(v, cfg, node)
  {
    assert v.fields.Keys == {"$config"} && |v.fields| == 1;
  }

  lemma FactIsAdmitted(v: Json, cfg: Config, node: NodeDef, name: string)
    requires IsReference(v) && IsFact(v, name)
    ensures AcceptsReference(v, cfg, node)
  {
    assert v.fields.Keys == {"$runtime"} && |v.fields| == 1;
  }

  lemma OutputIsAdmitted(v: Json, cfg: Config, node: NodeDef, d: NodeId, output: string)
    requires IsReference(v) && IsOutput(v, cfg, node, d, output)
    ensures AcceptsReference(v, cfg, node)
  {
    assert v.fields.Keys == {"$output"} && |v.fields| == 1;
    SplitTwo(d, output);
  }

  lemma {:induction false} SplitTwo(a: string, b: string)
    requires '.' !in a && '.' !in b
    ensures Split(a + "." + b, '.') == [a, b]
  {
    if a == "" {
      PlainNames(b);
      assert (a + "." + b)[1..] == b;
    } else {
      SplitTwo(a[1..], b);
      assert (a + "." + b)[1..] == a[1..] + "." + b;
      assert [a[0]] + a[1..] == a;
    }
  }

  // ----- Resolution -----

  /** The places of a resolved tree: a reference is replaced by what it refers to, and everything else is kept. */
  ghost predicate Replaced(
    v: Json, w: Json, data: Json, runtime: map<string, Json>, upstream: Upstream, path: seq<Step>
  ) {
    var was, now := Beneath(v, path), At(w, path);
    was.Some? ==>
      && now.Some?
      && if IsReference(was.value) then ResolveReference(was.value, data, runtime, upstream) == now
         else match was.value
              case Object(fields) => now.value.Object? && now.value.fields.Keys == fields.Keys
              case List(items) => now.value.List? && |now.value.items| == |items|
              case _ => now == was
  }

  lemma {:induction false} ResolvesPlaceByPlace(
    v: Json, data: Json, runtime: map<string, Json>, upstream: Upstream, path: seq<Step>
  )
    requires Resolve(v, data, runtime, upstream).Some?
    ensures Replaced(v, Resolve(v, data, runtime, upstream).value, data, runtime, upstream, path)
    decreases |path|
  {
    var w := Resolve(v, data, runtime, upstream).value;
    if path == [] {
      hide ResolveReference;
    } else if Beneath(v, path).Some? {
      ResolvesBelow(v, data, runtime, upstream, path[0]);
      hide Resolve, ResolveReference, Child;
      ResolvesPlaceByPlace(Child(v, path[0]).value, data, runtime, upstream, path[1..]);
    }
  }

  lemma ResolvesBelow(v: Json, data: Json, runtime: map<string, Json>, upstream: Upstream, step: Step)
    requires Resolve(v, data, runtime, upstream).Some? && !IsReference(v) && Child(v, step).Some?
    ensures Resolve(Child(v, step).value, data, runtime, upstream)
         == Child(Resolve(v, data, runtime, upstream).value, step)
    ensures Child(Resolve(v, data, runtime, upstream).value, step).Some?
  {
  }

  /** What a reference refers to: a setting by its path; a fact about the attempt; an output of a dependency, if it
      is there. */
  lemma RefersToSetting(data: Json, runtime: map<string, Json>, upstream: Upstream, text: string)
    ensures IsReference(Reference("$config", text))
    ensures Resolve(Reference("$config", text), data, runtime, upstream) == At(data, Fields(Split(text, '.')))
  {
    assert Reference("$config", text).fields.Keys * REFERENCES == {"$config"};
    assert |Reference("$config", text).fields| == 1;
    LooksUp(data, Split(text, '.'));
  }

  lemma RefersToFact(data: Json, runtime: map<string, Json>, upstream: Upstream, name: string)
    requires '.' !in name && name in runtime
    ensures IsReference(Reference("$runtime", name))
    ensures Resolve(Reference("$runtime", name), data, runtime, upstream) == Some(runtime[name])
  {
    assert Reference("$runtime", name).fields.Keys * REFERENCES == {"$runtime"};
    assert |Reference("$runtime", name).fields| == 1;
    LookupName(runtime, name);
  }

  lemma RefersToOutput(data: Json, runtime: map<string, Json>, upstream: Upstream, d: NodeId, output: string)
    requires '.' !in d && '.' !in output
    ensures IsReference(Reference("$output", d + "." + output))
    ensures Resolve(Reference("$output", d + "." + output), data, runtime, upstream) ==
            if d in upstream && output in upstream[d] then Some(Encode(upstream[d][output])) else None
  {
    assert Reference("$output", d + "." + output).fields.Keys * REFERENCES == {"$output"};
    assert |Reference("$output", d + "." + output).fields| == 1;
    SplitTwo(d, output);
  }

  function Fields(names: seq<string>): seq<Step> {
    seq(|names|, i requires 0 <= i < |names| => Field(names[i]))
  }

  lemma {:induction false} LooksUp(v: Json, names: seq<string>)
    ensures LookupPath(v, names) == At(v, Fields(names))
    decreases |names|
  {
    if names != [] {
      assert Fields(names)[1..] == Fields(names[1..]);
      if v.Object? && names[0] in v.fields {
        LooksUp(v.fields[names[0]], names[1..]);
      }
    }
  }

  /** An output reaches a component with the digest and the row count that its fingerprint carries. */
  lemma OutputsCarryProofs(r: Model.Reference)
    ensures At(Encode(r), [Field("digest")]) == Some(Text(r.digest))
    ensures At(Encode(r), [Field("row_count")]) == Some(Number(RowCount(r) as real))
    ensures r.Artifact? ==>
              At(Encode(r), [Field("path")]) == Some(Text(r.path))
              && At(Encode(r), [Field("schema")]) == Some(Text(r.schema))
    ensures r.Receipt? ==>
              At(Encode(r), [Field("effect")]) == Some(Text(r.effect.node + ":" + r.effect.operation))
    ensures Proof(r) == OutputProof(r.digest, RowCount(r))
  {
    assert [Field("digest")][1..] == [] && [Field("row_count")][1..] == [] && [Field("path")][1..] == [];
    assert [Field("schema")][1..] == [] && [Field("effect")][1..] == [];
  }

  /** The five facts about an attempt. */
  lemma FactsOfAttempt(job: Job, k: NodeId, attempt: nat)
    ensures var facts := RuntimeOf(job, k, attempt);
            && facts.Keys == {"business_run_key", "run_id", "node_id", "attempt", "restart_mode"}
            && facts["business_run_key"] == Text(job.businessKey) && facts["run_id"] == Number(job.run as real)
            && facts["node_id"] == Text(k) && facts["attempt"] == Number(attempt as real)
            && facts["restart_mode"] == Text(match job.mode
                                             case Normal => "normal"
                                             case Resume => "resume"
                                             case ForceRestart => "force_restart"
                                             case ForceRerun => "force_rerun")
  {
  }
}
