/** A configuration that the schema and the validator accept, and whose run raises a Python error: a condition
    on parameters that are, as a whole, one reference. */
module ConditionGap {
  import opened Model
  import opened Parameters
  import opened Board
  import opened Triggers
  import opened Planner
  import opened Validator
  import opened Planning

  const SHIPMENTS := Object(map["format" := Text("csv"), "path" := Text("shipments.csv"),
                                "schema" := Text("id STRING")])
  const DATA := Object(map["sources" := Object(map["shipments" := SHIPMENTS])])

  /** The parameters are the whole of `sources`; the condition names the key of the unresolved tree. */
  const ONLY := NodeDef(
    "only", "extract", [], AllSuccess, Some(Condition("$config", Null)), Object(map["$config" := Text("sources")]),
    {"rows"}, 60.0, Retry(0, 0.0, 1.0, 0.0, {}), true, true, Natural, "", "only", Infrastructure, true, "default",
    map[])

  const CONFIG := Config(
    "application", "dag", "1", {}, "local", "1", "code", DATA, Null, map["extract" := Null], {"only"},
    map["only" := ONLY], 1, map["default" := 1], map[], true, false, 3600.0)

  /** What the sidecar schema asks of `sources`, here all csv: at least one, each with a format, a path and a
      schema, and nothing else. */
  predicate SourcesFollowSchema(data: Json) {
    && data.Object? && "sources" in data.fields && data.fields["sources"].Object?
    && var sources := data.fields["sources"].fields;
    && sources != map[]
    && forall name | name in sources ::
         && sources[name].Object?
         && var source := sources[name].fields;
         && source.Keys == {"format", "path", "schema"}
         && source["format"] == Text("csv") && source["path"].Text? && source["schema"].Text?
         && source["path"] != Text("") && source["schema"] != Text("")
  }

  lemma SourcesAreFound()
    ensures Split("sources", '.') == ["sources"]
    ensures LookupPath(DATA, ["sources"]) == Some(DATA.fields["sources"])
  {
    assert '.' !in "sources";
    PlainNames("sources");
    assert ["sources"][1..] == [];
    assert LookupPath(DATA.fields["sources"], []) == Some(DATA.fields["sources"]);
  }

  lemma OnlyIsReference()
    ensures IsReference(ONLY.parameters) && ONLY.parameters.fields.Keys == {"$config"}
    ensures |ONLY.parameters.fields| == 1 && ONLY.parameters.fields["$config"] == Text("sources")
  {
    assert "$config" in ONLY.parameters.fields.Keys * REFERENCES;
    assert |ONLY.parameters.fields| == |ONLY.parameters.fields.Keys|;
  }

  lemma OnlyIsAccepted()
    ensures Accepts(ONLY.parameters, CONFIG, ONLY)
  {
    OnlyIsReference();
    SourcesAreFound();
  }

  lemma OnlyRaises()
    ensures RaisesOn(CONFIG, ONLY)
  {
    OnlyIsReference();
    SourcesAreFound();
    assert "$config" !in DATA.fields["sources"].fields;
  }

  lemma OnlyHasNoFault()
    ensures NodeFault(CONFIG, ONLY).None? && Correct(CONFIG, ONLY)
  {
    hide Accepts;
    OnlyIsAccepted();
    OnlyIsReference();
    FaultsExactly(CONFIG, ONLY);
  }

  lemma ListedOnce()
    ensures NodeMap([ONLY]) == map["only" := ONLY]
  {
    assert [ONLY][..0] == [];
    assert NodeMap([]) == map[];
  }

  lemma OnlyIsPlanned()
    ensures Planned(CONFIG.nodes, ["only"]) && Acyclic(CONFIG.nodes) && CONFIG.entries == Roots(CONFIG.nodes)
  {
    assert "only" in ["only"];
    forall c | Cycle(CONFIG.nodes, c) ensures false {
      CycleBlocks(CONFIG.nodes, ["only"], c);
    }
  }

  lemma SourcesAreValid()
    ensures SourcesFollowSchema(CONFIG.data)
  {
    var source := SHIPMENTS.fields;
    assert source["format"] == Text("csv") && source["path"] == Text("shipments.csv");
    assert source["schema"] == Text("id STRING");
    var sources := DATA.fields["sources"].fields;
    assert sources == map["shipments" := SHIPMENTS];
    assert "shipments" in sources;
  }

  /** Schema, validator and planner accept the configuration, with the one-node plan. */
  lemma ConfigIsAccepted()
    ensures SchemaValid(CONFIG, [ONLY]) && SourcesFollowSchema(CONFIG.data)
    ensures WellFormed(CONFIG, [ONLY], 1) && Acyclic(CONFIG.nodes) && CONFIG.entries == Roots(CONFIG.nodes)
    ensures ValidConfig(CONFIG, ["only"]) && CrashProne(CONFIG)
  {
    hide NodeFault, Correct, RaisesOn, Acyclic, NodeMap, ValidNode, SourcesFollowSchema, Planned;
    ListedOnce();
    SourcesAreValid();
    OnlyHasNoFault();
    OnlyRaises();
    OnlyIsPlanned();
    WellFormedNodes(CONFIG, [ONLY], 1);
    assert CONFIG.nodes["only"] == ONLY;
  }

  /** In every run of it, the trigger of its only node fires and the condition raises. */
  lemma EveryRunRaises(job: Job, recs: Records)
    requires job.cfg == CONFIG
    ensures VerdictOf(job, recs, "only") == Raises
  {
    OnlyRaises();
    OnlyIsReference();
    SourcesAreFound();
    assert CONFIG.nodes["only"] == ONLY;
    assert ParametersOf(job, "only", 1, recs) == Some(DATA.fields["sources"]);
  }
}
