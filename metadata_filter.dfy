/** `_get_metadata_filter_condition` and the part of `_automatic_metadata_filter_func`
    after the model's answer is parsed: the disabled / automatic / manual dispatch,
    manual value resolution, the filter list, AND versus OR, the documents the
    filters select and the matched document ids grouped by dataset. */
module MetadataFilter {
  import opened Common
  import opened MetadataValues
  import opened Records
  import opened ConditionCompiler
  import opened Whitespace
  import opened ModelConfig

  /** The first segment a condition's template resolves to. */
  datatype VariableSegment = NumberSegment(n: int) | StringSegment(text: string) | OtherSegment(valueType: string)

  /** A condition as authored for manual mode. */
  datatype ConfiguredCondition = ConfiguredCondition(name: string, comparisonOperator: string, value: Option<CondValue>)

  datatype FilteringConditions = FilteringConditions(logicalOperator: string, conditions: seq<ConfiguredCondition>)

  /** The node's metadata-filtering settings. */
  datatype FilterSettings = FilterSettings(
    mode: string,
    conditions: Option<FilteringConditions>,
    metadataModel: Option<ModelRef>)

  /** A condition as recorded in the metadata condition handed to the retriever. */
  datatype Condition = Condition(name: string, comparisonOperator: Option<string>, value: Option<CondValue>)

  datatype MetadataCondition = MetadataCondition(logicalOperator: string, conditions: seq<Condition>)

  /** One entry of the parsed `metadata_map` list; `NotAnObject` is an entry
      without `.get`, on which the extraction raises. */
  datatype MapItem =
    | MapItem(fieldName: Option<string>, fieldValue: Option<CondValue>, comparisonOperator: Option<string>)
    | NotAnObject

  /** What the language-model step of automatic mode yields. `promptError` is
      an exception raised while the prompt is built (`LLMNode.fetch_prompt_messages`
      and the rest of `_get_prompt_template` after the mode check); those calls
      come before the guarded block, so it propagates. `parsed` is Err when the
      model call or the JSON parsing raised inside the guarded block, and
      Ok(None) when the parsed object has no "metadata_map" key. */
  datatype ModelAnswer = ModelAnswer(promptError: Option<Error>, parsed: Result<Option<seq<MapItem>>>)

  /** A model-suggested filter that names a known field. */
  datatype AutoFilter = AutoFilter(metadataName: string, value: Option<CondValue>, condition: Option<string>)

  /** The document-id allowlist per dataset and the condition group. */
  datatype FilterOutcome = FilterOutcome(
    documentIds: Option<map<string, seq<string>>>,
    condition: Option<MetadataCondition>)

  // ----- automatic mode -----

  /** The names of the metadata fields declared on the given datasets, in table order. */
  function FieldNames(fields: seq<DatasetMetadataField>, datasetIds: seq<string>): (r: seq<string>)
    ensures forall n :: n in r <==> exists f :: f in fields && f.datasetId in datasetIds && f.name == n
    decreases |fields|
  {
    if fields == [] then []
    else
      var f := fields[|fields| - 1];
      assert fields == fields[..|fields| - 1] + [f];
      FieldNames(fields[..|fields| - 1], datasetIds) + if f.datasetId in datasetIds then [f.name] else []
  }

  /** Whether a model-output entry names one of the known fields. */
  predicate IsKnown(item: MapItem, names: seq<string>) {
    item.MapItem? && item.fieldName.Some? && item.fieldName.value in names
  }

  /** The filter kept for a known entry. */
  function FilterOf(item: MapItem): AutoFilter
    requires item.MapItem? && item.fieldName.Some?
  {
    AutoFilter(item.fieldName.value, item.fieldValue, item.comparisonOperator)
  }

  /** The entries whose field name is known, as filters, in model-output order. */
  function KnownFilters(items: seq<MapItem>, names: seq<string>): (r: seq<AutoFilter>)
    ensures |r| <= |items|
    ensures forall f :: f in r ==> f.metadataName in names
    decreases |items|
  {
    if items == [] then []
    else
      var item := items[|items| - 1];
      KnownFilters(items[..|items| - 1], names) + if IsKnown(item, names) then [FilterOf(item)] else []
  }

  /** Keeping known entries commutes with concatenation, so the kept filters keep
      the model's order. */
  lemma {:induction false} KnownFiltersConcat(a: seq<MapItem>, b: seq<MapItem>, names: seq<string>)
    ensures KnownFilters(a + b, names) == KnownFilters(a, names) + KnownFilters(b, names)
    decreases |b|
  {
    if b == [] {
      assert a + b == a;
    } else {
      var ab := a + b;
      assert ab[..|ab| - 1] == a + b[..|b| - 1];
      assert ab[|ab| - 1] == b[|b| - 1];
      KnownFiltersConcat(a, b[..|b| - 1], names);
    }
  }

  /** Every entry naming a known field is kept. */
  lemma {:induction false} KnownFiltersComplete(items: seq<MapItem>, names: seq<string>, item: MapItem)
    requires item in items && IsKnown(item, names)
    ensures FilterOf(item) in KnownFilters(items, names)
    decreases |items|
  {
    var last := items[|items| - 1];
    if item != last {
      assert items == items[..|items| - 1] + [last];
      KnownFiltersComplete(items[..|items| - 1], names, item);
    }
  }

  predicate AllObjects(items: seq<MapItem>) {
    forall i :: 0 <= i < |items| ==> items[i].MapItem?
  }

  /** `_automatic_metadata_filter_func`. The missing-model, model-check, mode
      and prompt-building errors are raised before the guarded block and
      propagate; an exception inside it yields no filters. */
  function AutomaticMetadataFilters(
    datasetIds: seq<string>,
    fields: seq<DatasetMetadataField>,
    metadataModel: Option<ModelRef>,
    models: ModelRef -> ModelEnv,
    answer: ModelAnswer): Result<seq<AutoFilter>>
  {
    var names := FieldNames(fields, datasetIds);
    if metadataModel.None? then Err(Error(ValueError, "metadata_model_config is required"))
    else
      var _ :- GetModelConfig(metadataModel.value, models(metadataModel.value));
      var mode := metadataModel.value.mode;
      if mode != "chat" && mode != "completion" then
        Err(Error(ValueError, "'" + mode + "' is not a valid ModelMode"))
      else if answer.promptError.Some? then Err(answer.promptError.value)
      else
        Ok(match answer.parsed
           case Err(_) => []
           case Ok(None) => []
           case Ok(Some(items)) => if AllObjects(items) then KnownFilters(items, names) else [])
  }

  /** Once the metadata model is usable, an exception while building the prompt
      propagates, while the guarded block never fails: an exception in it
      yields no filters, and otherwise exactly the entries naming a declared
      field are kept. */
  lemma AutomaticFiltersDegrade(
    datasetIds: seq<string>, fields: seq<DatasetMetadataField>, metadataModel: Option<ModelRef>,
    models: ModelRef -> ModelEnv, answer: ModelAnswer)
    requires metadataModel.Some? && GetModelConfig(metadataModel.value, models(metadataModel.value)).Ok?
    requires metadataModel.value.mode in {"chat", "completion"}
    ensures var r := AutomaticMetadataFilters(datasetIds, fields, metadataModel, models, answer);
            && (answer.promptError.Some? ==> r == Err(answer.promptError.value))
            && (answer.promptError.None? ==> r.Ok?)
            && (r.Ok? && (answer.parsed.Err? || answer.parsed.value.None?) ==> r.value == [])
            && (r.Ok? ==> forall f :: f in r.value ==>
                  exists fd :: fd in fields && fd.datasetId in datasetIds && fd.name == f.metadataName)
  {
    var r := AutomaticMetadataFilters(datasetIds, fields, metadataModel, models, answer);
    var names := FieldNames(fields, datasetIds);
    if r.Ok? {
      assert forall f :: f in r.value ==> f.metadataName in names;
    }
  }

  // ----- manual mode -----

  /** The value a manual condition is compiled with: a string value of an
      operator other than "empty" / "not empty" is resolved as a template; a
      numeric result stays a number, a string result is normalised, and any
      other type raises. */
  function ResolveManualValue(op: string, value: Option<CondValue>, resolve: string -> VariableSegment)
    : Result<Option<CondValue>>
  {
    if value.Some? && op != "empty" && op != "not empty" && value.value.Str? then
      match resolve(value.value.s)
      case NumberSegment(n) => Ok(Some(Num(n)))
      case StringSegment(t) => Ok(Some(Str(Normalize(t))))
      case OtherSegment(_) => Err(Error(ValueError, "Invalid expected metadata value type"))
    else
      Ok(value)
  }

  /** A resolved string value has no carriage return, newline or tab and no
      whitespace at either end; a number stays that number; None, numbers and
      the values of "empty" / "not empty" pass through unchanged. */
  lemma ManualValueResolution(op: string, value: Option<CondValue>, resolve: string -> VariableSegment)
    ensures var r := ResolveManualValue(op, value, resolve);
            && (r.Ok? && r.value.Some? && r.value.value.Str? && value.Some? && value.value.Str?
                && op != "empty" && op != "not empty" ==>
                  NoBreaks(r.value.value.s) && Trimmed(r.value.value.s))
            && (value.Some? && value.value.Str? && op != "empty" && op != "not empty" ==>
                  (r.Err? <==> resolve(value.value.s).OtherSegment?)
                  && (resolve(value.value.s).NumberSegment? ==> r == Ok(Some(Num(resolve(value.value.s).n)))))
            && (value.None? || value.value.Num? || op == "empty" || op == "not empty" ==> r == Ok(value))
  {
    if value.Some? && op != "empty" && op != "not empty" && value.value.Str? {
      var seg := resolve(value.value.s);
      if seg.StringSegment? {
        NormalizeShape(seg.text);
      }
    }
  }

  /** The manual loop: the recorded conditions and the filter list, or the first
      resolution error. A condition whose value is None adds a recorded
      condition and no predicate. */
  function ManualFilters(conds: seq<ConfiguredCondition>, resolve: string -> VariableSegment)
    : Result<(seq<Condition>, seq<Predicate>)>
    decreases |conds|
  {
    if conds == [] then Ok(([], []))
    else
      var pair :- ManualFilters(conds[..|conds| - 1], resolve);
      var c := conds[|conds| - 1];
      var v :- ResolveManualValue(c.comparisonOperator, c.value, resolve);
      Ok((pair.0 + [Condition(c.name, Some(c.comparisonOperator), v)],
          pair.1 + Appended(Compile(Some(c.comparisonOperator), c.name, v))))
  }

  /** The manual loop as the source writes it: the list is rebound to the
      compiler's return value, which is None for a None value. The list is then
      None (no filter is applied), and a later condition that compiles calls
      `append` on None. */
  function ManualFiltersAsWritten(conds: seq<ConfiguredCondition>, resolve: string -> VariableSegment)
    : Result<(seq<Condition>, Option<seq<Predicate>>)>
    decreases |conds|
  {
    if conds == [] then Ok(([], Some([])))
    else
      var pair :- ManualFiltersAsWritten(conds[..|conds| - 1], resolve);
      var c := conds[|conds| - 1];
      var v :- ResolveManualValue(c.comparisonOperator, c.value, resolve);
      var recorded := pair.0 + [Condition(c.name, Some(c.comparisonOperator), v)];
      var p := Compile(Some(c.comparisonOperator), c.name, v);
      if v.None? then Ok((recorded, None))
      else if pair.1.None? then
        if p.Some? then Err(Error(AttributeError, "'NoneType' object has no attribute 'append'"))
        else Ok((recorded, None))
      else Ok((recorded, Some(pair.1.value + Appended(p))))
  }

  /** An error in a prefix of the conditions is the loop's error. */
  lemma {:induction false} ManualErrorPropagates(conds: seq<ConfiguredCondition>, resolve: string -> VariableSegment, i: nat)
    requires i <= |conds| && ManualFilters(conds[..i], resolve).Err?
    ensures ManualFilters(conds, resolve) == ManualFilters(conds[..i], resolve)
    decreases |conds| - i
  {
    if i < |conds| {
      var init := conds[..|conds| - 1];
      assert init[..i] == conds[..i];
      ManualErrorPropagates(init, resolve, i);
    } else {
      assert conds[..i] == conds;
    }
  }

  /** Without None values the as-written loop and the corrected one agree. */
  lemma {:induction false} AsWrittenAgreesWithoutNone(conds: seq<ConfiguredCondition>, resolve: string -> VariableSegment)
    requires forall i :: 0 <= i < |conds| ==> conds[i].value.Some?
    ensures ManualFilters(conds, resolve).Ok? <==> ManualFiltersAsWritten(conds, resolve).Ok?
    ensures ManualFilters(conds, resolve).Ok? ==>
            ManualFiltersAsWritten(conds, resolve).value ==
              (ManualFilters(conds, resolve).value.0, Some(ManualFilters(conds, resolve).value.1))
    decreases |conds|
  {
    if conds != [] {
      AsWrittenAgreesWithoutNone(conds[..|conds| - 1], resolve);
    }
  }

  /** The literal template resolver: every template is its own text. */
  function LiteralResolve(s: string): VariableSegment {
    StringSegment(s)
  }

  /** The "contains" condition of the counterexamples, on its own. */
  lemma ContainsStep()
    ensures ResolveManualValue("contains", Some(Str("li")), LiteralResolve) == Ok(Some(Str("li")))
  {
    NormalizeFixesNormal("li");
  }

  /** Its predicate. */
  lemma ContainsPredicate()
    ensures Compile(Some("contains"), "author", Some(Str("li"))) == Some(Like("author", "%li%"))
  {
    assert ValueText(Str("li")) == "li";
    assert "%" + "li" + "%" == "%li%";
  }

  /** The valueless "empty" condition of the counterexamples, on its own. */
  lemma EmptyStep()
    ensures ResolveManualValue("empty", None, LiteralResolve) == Ok(None)
    ensures Compile(Some("empty"), "year", None) == None
  {
  }

  /** A "contains" condition followed by an "empty" condition without a value:
      as written, the None value discards the earlier predicate, so no filter
      is applied; the corrected loop keeps it. */
  lemma NoneValueDiscardsEarlierFilter()
    ensures var conds := [ConfiguredCondition("author", "contains", Some(Str("li"))),
                          ConfiguredCondition("year", "empty", None)];
            && ManualFiltersAsWritten(conds, LiteralResolve).Ok?
            && ManualFiltersAsWritten(conds, LiteralResolve).value.1 == None
            && ManualFilters(conds, LiteralResolve).Ok?
            && ManualFilters(conds, LiteralResolve).value.1 == [Like("author", "%li%")]
  {
    var c0 := ConfiguredCondition("author", "contains", Some(Str("li")));
    var c1 := ConfiguredCondition("year", "empty", None);
    var conds := [c0, c1];
    ContainsStep();
    ContainsPredicate();
    EmptyStep();
    var rec0 := [Condition("author", Some("contains"), Some(Str("li")))];
    assert conds[..1] == [c0];
    assert [c0][..0] == [];
    assert ManualFilters([c0], LiteralResolve) == Ok(([] + rec0, [] + [Like("author", "%li%")]));
    assert ManualFiltersAsWritten([c0], LiteralResolve) == Ok(([] + rec0, Some([] + [Like("author", "%li%")])));
    assert ManualFilters(conds, LiteralResolve).value.1 == [Like("author", "%li%")] + [];
  }

  /** The same two conditions in the other order: as written, the second one
      appends to None and raises. */
  lemma NoneValueThenConditionRaises()
    ensures var conds := [ConfiguredCondition("year", "empty", None),
                          ConfiguredCondition("author", "contains", Some(Str("li")))];
            && ManualFiltersAsWritten(conds, LiteralResolve).Err?
            && ManualFiltersAsWritten(conds, LiteralResolve).error.kind == AttributeError
            && ManualFilters(conds, LiteralResolve).Ok?
            && ManualFilters(conds, LiteralResolve).value.1 == [Like("author", "%li%")]
  {
    var c0 := ConfiguredCondition("year", "empty", None);
    var c1 := ConfiguredCondition("author", "contains", Some(Str("li")));
    var conds := [c0, c1];
    ContainsStep();
    ContainsPredicate();
    EmptyStep();
    var rec0 := [Condition("year", Some("empty"), None)];
    assert conds[..1] == [c0];
    assert [c0][..0] == [];
    assert ManualFilters([c0], LiteralResolve) == Ok(([] + rec0, [] + []));
    assert ManualFiltersAsWritten([c0], LiteralResolve) == Ok(([] + rec0, None));
    assert ManualFilters(conds, LiteralResolve).value.1 == [] + [Like("author", "%li%")];
  }

  // ----- the document query -----

  /** The filters of the automatic loop, one Compile per kept filter. */
  function AutoPredicates(filters: seq<AutoFilter>): seq<Predicate>
    decreases |filters|
  {
    if filters == [] then []
    else
      var f := filters[|filters| - 1];
      AutoPredicates(filters[..|filters| - 1]) + Appended(Compile(f.condition, f.metadataName, f.value))
  }

  /** The conditions recorded by the automatic loop, one per kept filter. */
  function AutoConditions(filters: seq<AutoFilter>): (r: seq<Condition>)
    ensures |r| == |filters|
    ensures forall i :: 0 <= i < |r| ==>
              r[i] == Condition(filters[i].metadataName, filters[i].condition, filters[i].value)
    decreases |filters|
  {
    if filters == [] then []
    else
      var f := filters[|filters| - 1];
      AutoConditions(filters[..|filters| - 1]) + [Condition(f.metadataName, f.condition, f.value)]
  }

  /** Filters are joined with AND only when conditions are configured with the
      logical operator "and"; otherwise with OR. */
  predicate IsConjunctive(settings: FilterSettings) {
    settings.conditions.Some? && settings.conditions.value.logicalOperator == "and"
  }

  /** The WHERE clause the filters add: none for an empty list, else their AND or OR. */
  predicate Passes(filters: seq<Predicate>, conjunctive: bool, meta: map<string, MetaValue>) {
    if filters == [] then true
    else if conjunctive then forall i :: 0 <= i < |filters| ==> Eval(filters[i], meta)
    else exists i :: 0 <= i < |filters| && Eval(filters[i], meta)
  }

  /** A document the query returns. */
  predicate Selected(d: Document, datasetIds: seq<string>, filters: seq<Predicate>, conjunctive: bool) {
    d.datasetId in datasetIds && IsQueryable(d) && Passes(filters, conjunctive, d.docMetadata)
  }

  /** The document query, in table order. */
  function DocumentQuery(docs: seq<Document>, datasetIds: seq<string>, filters: seq<Predicate>, conjunctive: bool)
    : (r: seq<Document>)
    ensures forall d :: d in r <==> d in docs && Selected(d, datasetIds, filters, conjunctive)
    decreases |docs|
  {
    if docs == [] then []
    else
      var d := docs[|docs| - 1];
      assert docs == docs[..|docs| - 1] + [d];
      DocumentQuery(docs[..|docs| - 1], datasetIds, filters, conjunctive)
        + if Selected(d, datasetIds, filters, conjunctive) then [d] else []
  }

  /** With no filter the query returns the queryable documents of the datasets
      unchanged, whatever the logical operator. */
  lemma {:induction false} NoFilterKeepsEligible(docs: seq<Document>, datasetIds: seq<string>, conjunctive: bool)
    requires forall d :: d in docs ==> d.datasetId in datasetIds && IsQueryable(d)
    ensures DocumentQuery(docs, datasetIds, [], conjunctive) == docs
    decreases |docs|
  {
    if docs != [] {
      var init := docs[..|docs| - 1];
      var last := docs[|docs| - 1];
      assert docs == init + [last];
      assert forall d :: d in init ==> d in docs;
      NoFilterKeepsEligible(init, datasetIds, conjunctive);
      assert Selected(last, datasetIds, [], conjunctive);
      assert DocumentQuery(docs, datasetIds, [], conjunctive) == DocumentQuery(init, datasetIds, [], conjunctive) + [last];
    }
  }

  // ----- grouping by dataset -----

  /** The ids of the documents of one dataset, in order. */
  function IdsIn(docs: seq<Document>, datasetId: string): seq<string>
    decreases |docs|
  {
    if docs == [] then []
    else
      var d := docs[|docs| - 1];
      IdsIn(docs[..|docs| - 1], datasetId) + if d.datasetId == datasetId then [d.id] else []
  }

  /** The defaultdict after appending every document's id under its dataset id. */
  function Grouped(docs: seq<Document>): map<string, seq<string>>
    decreases |docs|
  {
    if docs == [] then map[]
    else
      var d := docs[|docs| - 1];
      var m := Grouped(docs[..|docs| - 1]);
      m[d.datasetId := (if d.datasetId in m then m[d.datasetId] else []) + [d.id]]
  }

  /** None when no document matched, else the grouped ids. */
  function GroupIds(docs: seq<Document>): Option<map<string, seq<string>>> {
    if docs == [] then None else Some(Grouped(docs))
  }

  /** The grouped map has a key for exactly the datasets of the documents, and
      under each the ids of that dataset's documents in order. */
  lemma {:induction false} GroupedMeaning(docs: seq<Document>)
    ensures forall k :: k in Grouped(docs) <==> exists d :: d in docs && d.datasetId == k
    ensures forall k :: k in Grouped(docs) ==> Grouped(docs)[k] == IdsIn(docs, k)
    decreases |docs|
  {
    if docs != [] {
      var init := docs[..|docs| - 1];
      var last := docs[|docs| - 1];
      GroupedMeaning(init);
      assert docs == init + [last];
      assert forall d :: d in docs <==> d in init || d == last;
      forall k | k != last.datasetId && k !in Grouped(init)
        ensures IdsIn(docs, k) == []
      {
        IdsInAbsent(init, k);
      }
      if last.datasetId !in Grouped(init) {
        IdsInAbsent(init, last.datasetId);
      }
    }
  }

  lemma {:induction false} IdsInAbsent(docs: seq<Document>, k: string)
    requires forall d :: d in docs ==> d.datasetId != k
    ensures IdsIn(docs, k) == []
    decreases |docs|
  {
    if docs != [] {
      IdsInAbsent(docs[..|docs| - 1], k);
    }
  }

  /** The grouping loop over the query's documents. */
  method GroupByDataset(documents: seq<Document>) returns (ids: Option<map<string, seq<string>>>)
    ensures ids == GroupIds(documents)
    ensures ids.None? <==> documents == []
    ensures ids.Some? ==> forall k :: k in ids.value <==> exists d :: d in documents && d.datasetId == k
    ensures ids.Some? ==> forall k :: k in ids.value ==> ids.value[k] == IdsIn(documents, k)
  {
    GroupedMeaning(documents);
    if documents == [] {
      return None;
    }
    var m: map<string, seq<string>> := map[];
    for i := 0 to |documents|
      invariant m == Grouped(documents[..i])
    {
      var d := documents[i];
      assert documents[..i + 1][..i] == documents[..i];
      var current := if d.datasetId in m then m[d.datasetId] else [];
      m := m[d.datasetId := current + [d.id]];
    }
    assert documents[..|documents|] == documents;
    return Some(m);
  }

  // ----- the whole resolution -----

  /** The filter list and the condition group of an enabled mode: the kept
      model suggestions in automatic mode, the configured conditions in manual
      mode (none when no conditions are configured). */
  function AppliedFilters(
    datasetIds: seq<string>,
    settings: FilterSettings,
    fields: seq<DatasetMetadataField>,
    models: ModelRef -> ModelEnv,
    answer: ModelAnswer,
    resolve: string -> VariableSegment): Result<(seq<Predicate>, Option<MetadataCondition>)>
    requires settings.mode == "automatic" || settings.mode == "manual"
  {
    if settings.mode == "automatic" then
      var auto :- AutomaticMetadataFilters(datasetIds, fields, settings.metadataModel, models, answer);
      if auto == [] then Ok(([], None))
      else Ok((AutoPredicates(auto), Some(MetadataCondition(
        if settings.conditions.Some? then settings.conditions.value.logicalOperator else "or",
        AutoConditions(auto)))))
    else if settings.conditions.None? then Ok(([], None))
    else
      var pair :- ManualFilters(settings.conditions.value.conditions, resolve);
      Ok((pair.1, Some(MetadataCondition(settings.conditions.value.logicalOperator, pair.0))))
  }

  /** `_get_metadata_filter_condition`: the allowlist of matched document ids
      per dataset and the condition group, or the first error raised. */
  function FilterConditionOf(
    datasetIds: seq<string>,
    settings: FilterSettings,
    fields: seq<DatasetMetadataField>,
    models: ModelRef -> ModelEnv,
    answer: ModelAnswer,
    resolve: string -> VariableSegment,
    docs: seq<Document>): Result<FilterOutcome>
  {
    if settings.mode == "disabled" then Ok(FilterOutcome(None, None))
    else if settings.mode == "automatic" || settings.mode == "manual" then
      var applied :- AppliedFilters(datasetIds, settings, fields, models, answer, resolve);
      Ok(FilterOutcome(GroupIds(DocumentQuery(docs, datasetIds, applied.0, IsConjunctive(settings))), applied.1))
    else Err(Error(ValueError, "Invalid metadata filtering mode"))
  }

  /** "disabled" yields neither an allowlist nor a condition; a mode other than
      disabled, automatic and manual raises. */
  lemma ModeDispatch(
    datasetIds: seq<string>, settings: FilterSettings, fields: seq<DatasetMetadataField>,
    models: ModelRef -> ModelEnv, answer: ModelAnswer,
    resolve: string -> VariableSegment, docs: seq<Document>)
    ensures var r := FilterConditionOf(datasetIds, settings, fields, models, answer, resolve, docs);
            && (settings.mode == "disabled" ==> r == Ok(FilterOutcome(None, None)))
            && (settings.mode !in {"disabled", "automatic", "manual"} ==>
                  r == Err(Error(ValueError, "Invalid metadata filtering mode")))
  {
  }

  /** In automatic mode without configured conditions the condition group is
      joined with "or", and so are the filters. */
  lemma AutomaticDefaultsToOr(
    datasetIds: seq<string>, settings: FilterSettings, fields: seq<DatasetMetadataField>,
    models: ModelRef -> ModelEnv, answer: ModelAnswer,
    resolve: string -> VariableSegment, docs: seq<Document>)
    requires settings.mode == "automatic" && settings.conditions.None?
    ensures var r := FilterConditionOf(datasetIds, settings, fields, models, answer, resolve, docs);
            && !IsConjunctive(settings)
            && (r.Ok? && r.value.condition.Some? ==> r.value.condition.value.logicalOperator == "or")
  {
  }

  /** In an enabled mode whose filters resolve, the allowlist is None exactly
      when no document passes the filters that run applied, and otherwise each
      matched document is listed under its own dataset. The applied filters are
      the kept suggestions in automatic mode, the configured ones in manual
      mode, and none in manual mode without conditions. */
  lemma AllowlistMeaning(
    datasetIds: seq<string>, settings: FilterSettings, fields: seq<DatasetMetadataField>,
    models: ModelRef -> ModelEnv, answer: ModelAnswer,
    resolve: string -> VariableSegment, docs: seq<Document>)
    requires settings.mode == "automatic" || settings.mode == "manual"
    requires AppliedFilters(datasetIds, settings, fields, models, answer, resolve).Ok?
    ensures var r := FilterConditionOf(datasetIds, settings, fields, models, answer, resolve, docs);
            var filters := AppliedFilters(datasetIds, settings, fields, models, answer, resolve).value.0;
            var matched := DocumentQuery(docs, datasetIds, filters, IsConjunctive(settings));
            && r.Ok?
            && (settings.mode == "automatic" ==>
                  var auto := AutomaticMetadataFilters(datasetIds, fields, settings.metadataModel, models, answer);
                  auto.Ok? && filters == AutoPredicates(auto.value))
            && (settings.mode == "manual" && settings.conditions.None? ==> filters == [])
            && (settings.mode == "manual" && settings.conditions.Some? ==>
                  var manual := ManualFilters(settings.conditions.value.conditions, resolve);
                  manual.Ok? && filters == manual.value.1)
            && (r.value.documentIds.None? <==>
                  forall d :: d in docs ==> !Selected(d, datasetIds, filters, IsConjunctive(settings)))
            && (r.value.documentIds.Some? ==>
                  forall d :: d in matched ==> d.datasetId in r.value.documentIds.value &&
                                               d.id in r.value.documentIds.value[d.datasetId])
  {
    var filters := AppliedFilters(datasetIds, settings, fields, models, answer, resolve).value.0;
    var matched := DocumentQuery(docs, datasetIds, filters, IsConjunctive(settings));
    GroupedMeaning(matched);
    if matched != [] {
      forall d | d in matched
        ensures d.id in IdsIn(matched, d.datasetId)
      {
        IdsInHas(matched, d);
      }
    }
  }

  lemma {:induction false} IdsInHas(docs: seq<Document>, d: Document)
    requires d in docs
    ensures d.id in IdsIn(docs, d.datasetId)
    decreases |docs|
  {
    if docs[|docs| - 1] != d {
      assert docs == docs[..|docs| - 1] + [docs[|docs| - 1]];
      IdsInHas(docs[..|docs| - 1], d);
    }
  }

  /** The automatic loop: each kept filter is compiled into the filter list
      and recorded as a condition. */
  method AutomaticLoop(automaticFilters: seq<AutoFilter>) returns (predicates: seq<Predicate>, conditions: seq<Condition>)
    ensures predicates == AutoPredicates(automaticFilters)
    ensures conditions == AutoConditions(automaticFilters)
  {
    var filters := new FilterList();
    conditions := [];
    for i := 0 to |automaticFilters|
      invariant filters.items == AutoPredicates(automaticFilters[..i])
      invariant conditions == AutoConditions(automaticFilters[..i])
    {
      var f := automaticFilters[i];
      assert automaticFilters[..i + 1][..i] == automaticFilters[..i];
      var _ := filters.Process(f.condition, f.metadataName, f.value);
      conditions := conditions + [Condition(f.metadataName, f.condition, f.value)];
    }
    assert automaticFilters[..|automaticFilters|] == automaticFilters;
    predicates := filters.items;
  }

  /** The manual loop: each configured condition's value is resolved, recorded
      and compiled into the filter list; a resolution error ends the loop. */
  method ManualLoop(conds: seq<ConfiguredCondition>, resolve: string -> VariableSegment)
    returns (r: Result<(seq<Condition>, seq<Predicate>)>)
    ensures r == ManualFilters(conds, resolve)
  {
    var filters := new FilterList();
    var conditions: seq<Condition> := [];
    for i := 0 to |conds|
      invariant ManualFilters(conds[..i], resolve) == Ok((conditions, filters.items))
    {
      var c := conds[i];
      assert conds[..i + 1][..i] == conds[..i];
      var expected := ResolveManualValue(c.comparisonOperator, c.value, resolve);
      if expected.Err? {
        ManualErrorPropagates(conds, resolve, i + 1);
        return Err(expected.error);
      }
      conditions := conditions + [Condition(c.name, Some(c.comparisonOperator), expected.value)];
      var _ := filters.Process(Some(c.comparisonOperator), c.name, expected.value);
    }
    assert conds[..|conds|] == conds;
    return Ok((conditions, filters.items));
  }

  /** `_get_metadata_filter_condition`, with the document query and the language
      model's parsed answer as inputs. */
  method GetMetadataFilterCondition(
    datasetIds: seq<string>,
    settings: FilterSettings,
    fields: seq<DatasetMetadataField>,
    models: ModelRef -> ModelEnv,
    answer: ModelAnswer,
    resolve: string -> VariableSegment,
    docs: seq<Document>) returns (r: Result<FilterOutcome>)
    ensures r == FilterConditionOf(datasetIds, settings, fields, models, answer, resolve, docs)
  {
    var filters: seq<Predicate> := [];
    var metadataCondition: Option<MetadataCondition> := None;
    if settings.mode == "disabled" {
      return Ok(FilterOutcome(None, None));
    } else if settings.mode == "automatic" {
      var auto := AutomaticMetadataFilters(datasetIds, fields, settings.metadataModel, models, answer);
      if auto.Err? {
        return Err(auto.error);
      }
      if auto.value != [] {
        var conditions;
        filters, conditions := AutomaticLoop(auto.value);
        metadataCondition := Some(MetadataCondition(
          if settings.conditions.Some? then settings.conditions.value.logicalOperator else "or",
          conditions));
      }
    } else if settings.mode == "manual" {
      if settings.conditions.Some? {
        var pair := ManualLoop(settings.conditions.value.conditions, resolve);
        if pair.Err? {
          return Err(pair.error);
        }
        filters := pair.value.1;
        metadataCondition := Some(MetadataCondition(settings.conditions.value.logicalOperator, pair.value.0));
      }
    } else {
      return Err(Error(ValueError, "Invalid metadata filtering mode"));
    }
    var documents := DocumentQuery(docs, datasetIds, filters, IsConjunctive(settings));
    var ids := GroupByDataset(documents);
    return Ok(FilterOutcome(ids, metadataCondition));
  }
}
