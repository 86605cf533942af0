/**
 * The data-flow mapping page: a form whose handlers edit two lists of
 * strings and a few text fields, a save that validates and inserts one
 * `compliance_mappings` row, and the normalisation of stored rows into
 * the flows the page displays.
 */
module ComplianceMapping {
  import opened Wrappers
  import opened Text
  import opened Json

  // ---- List editing ----

  /** A list with the draft text of its next entry. */
  datatype ListEdit = ListEdit(items: seq<string>, draft: string)

  /** `handleAddDataType` / `handleAddClause`: append the trimmed draft and clear it, unless it is blank. */
  function AddTrimmed(e: ListEdit): ListEdit
  {
    if Trim(e.draft) != "" then ListEdit(e.items + [Trim(e.draft)], "") else e
  }

  /** `list.filter((_, i) => i !== index)`: keep every position but `index`. */
  function WithoutIndex(xs: seq<string>, index: int): seq<string>
  {
    if xs == [] then []
    else (if index == 0 then [] else [xs[0]]) + WithoutIndex(xs[1..], index - 1)
  }

  /** Removing index `i` deletes exactly that element; the rest keep their order; an index out of range removes nothing. */
  lemma {:induction false} WithoutIndexDeletesOne(xs: seq<string>, index: int)
    ensures WithoutIndex(xs, index) == if 0 <= index < |xs| then xs[..index] + xs[index + 1..] else xs
  {
    if xs != [] {
      WithoutIndexDeletesOne(xs[1..], index - 1);
      if index == 0 {
        assert xs[1..] == xs[..0] + xs[1..];
      } else if 0 < index < |xs| {
        assert xs[..index] == [xs[0]] + xs[1..][..index - 1];
        assert xs[index + 1..] == xs[1..][index..];
      } else {
        assert xs == [xs[0]] + xs[1..];
      }
    }
  }

  /** Every entry is non-blank and already trimmed: what adding produces and removing keeps. */
  predicate Clean(items: seq<string>)
  {
    forall i :: 0 <= i < |items| ==> items[i] != "" && Trim(items[i]) == items[i]
  }

  /**
   * Adding appends the trimmed draft after the earlier entries and clears
   * the draft; a blank draft changes nothing. The list stays clean.
   */
  lemma AddKeepsClean(e: ListEdit)
    requires Clean(e.items)
    ensures Clean(AddTrimmed(e).items)
    ensures Trim(e.draft) == "" ==> AddTrimmed(e) == e
    ensures Trim(e.draft) != "" ==> AddTrimmed(e).items[..|e.items|] == e.items && |AddTrimmed(e).items| == |e.items| + 1
    ensures Trim(e.draft) != "" ==> AddTrimmed(e).items[|e.items|] == Trim(e.draft) && AddTrimmed(e).draft == ""
  {
    TrimIdempotent(e.draft);
    if Trim(e.draft) != "" {
      assert AddTrimmed(e).items[..|e.items|] == e.items;
    }
  }

  lemma RemoveKeepsClean(xs: seq<string>, index: int)
    requires Clean(xs)
    ensures Clean(WithoutIndex(xs, index))
  {
    WithoutIndexDeletesOne(xs, index);
  }

  // ---- Saving ----

  /** The `compliance_mappings` row that `handleSaveFlow` inserts; a stored description may be null (None). */
  datatype MappingRow = MappingRow(
    userId: string,
    featureName: string,
    featureDescription: Option<string>,
    dataFlow: Json,
    linkedClauses: Json,
    complianceStatus: string)

  /** The form's state fields. */
  datatype FormState = FormState(
    featureName: string,
    featureDescription: string,
    dataTypes: seq<string>,
    newDataType: string,
    policyClauses: seq<string>,
    newClause: string,
    dialogOpen: bool,
    saving: bool)

  /** A save: refused with a toast, or an insert that failed or succeeded. */
  datatype SaveResult = Refused(message: string) | InsertFailed(row: MappingRow) | Saved(row: MappingRow)

  datatype SaveStep = SaveStep(form: FormState, result: SaveResult)

  /** The row built from the form: name as typed, `description || null`, `{dataTypes}` and the clause list. */
  function RowOf(f: FormState, userId: string): MappingRow
  {
    MappingRow(userId, f.featureName,
               if f.featureDescription == "" then None else Some(f.featureDescription),
               JObject(map["dataTypes" := JArray(Strings(f.dataTypes))]),
               JArray(Strings(f.policyClauses)),
               "compliant")
  }

  /** `handleSaveFlow` given whether the insert succeeds. */
  function Save(f: FormState, userId: string, insertSucceeds: bool): SaveStep
  {
    if Trim(f.featureName) == "" then SaveStep(f, Refused("Please enter a feature name"))
    else if |f.dataTypes| == 0 then SaveStep(f, Refused("Please add at least one data type"))
    else if insertSucceeds then
      SaveStep(f.(featureName := "", featureDescription := "", dataTypes := [], policyClauses := [],
                  dialogOpen := false, saving := false),
               Saved(RowOf(f, userId)))
    else SaveStep(f.(saving := false), InsertFailed(RowOf(f, userId)))
  }

  /** The name is checked first, then the data types; a refused save inserts nothing and changes nothing. */
  lemma SaveValidation(f: FormState, userId: string, ok: bool)
    ensures Save(f, userId, ok).result.Refused? <==> Trim(f.featureName) == "" || |f.dataTypes| == 0
    ensures Trim(f.featureName) == "" ==> Save(f, userId, ok) == SaveStep(f, Refused("Please enter a feature name"))
    ensures Trim(f.featureName) != "" && |f.dataTypes| == 0 ==>
              Save(f, userId, ok) == SaveStep(f, Refused("Please add at least one data type"))
  {
  }

  /**
   * The inserted row belongs to the signed-in user, carries the name, the
   * description as typed (null when empty), the data types and clauses, and
   * is `compliant`; success clears the name,
   * description and both lists and closes the dialog, but keeps both drafts.
   */
  lemma SavedRowAndReset(f: FormState, userId: string)
    requires Save(f, userId, true).result.Saved?
    ensures var row := Save(f, userId, true).result.row;
            && row.featureName == f.featureName
            && row.dataFlow == JObject(map["dataTypes" := JArray(Strings(f.dataTypes))])
            && row.linkedClauses == JArray(Strings(f.policyClauses))
            && row.complianceStatus == "compliant"
            && (row.featureDescription.None? <==> f.featureDescription == "")
            && row.userId == userId
            && row.featureDescription == (if f.featureDescription == "" then None else Some(f.featureDescription))
    ensures var g := Save(f, userId, true).form;
            && g.featureName == "" && g.featureDescription == "" && g.dataTypes == [] && g.policyClauses == []
            && !g.dialogOpen && g.newDataType == f.newDataType && g.newClause == f.newClause
  {
  }

  /** The form component's state, updated in place by its handlers. */
  class MappingForm {
    var featureName: string
    var featureDescription: string
    var dataTypes: seq<string>
    var newDataType: string
    var policyClauses: seq<string>
    var newClause: string
    var dialogOpen: bool
    var saving: bool

    function State(): FormState
      reads this
    {
      FormState(featureName, featureDescription, dataTypes, newDataType, policyClauses, newClause, dialogOpen, saving)
    }

    ghost predicate Valid()
      reads this
    {
      Clean(dataTypes) && Clean(policyClauses)
    }

    constructor ()
      ensures Valid() && State() == FormState("", "", [], "", [], "", false, false)
    {
      featureName, featureDescription, newDataType, newClause := "", "", "", "";
      dataTypes, policyClauses := [], [];
      dialogOpen, saving := false, false;
    }

    method AddDataType()
      requires Valid()
      modifies this
      ensures Valid()
      ensures var e := AddTrimmed(ListEdit(old(dataTypes), old(newDataType)));
              State() == old(State()).(dataTypes := e.items, newDataType := e.draft)
    {
      AddKeepsClean(ListEdit(dataTypes, newDataType));
      var trimmed := Trim(newDataType);
      if trimmed != "" {
        dataTypes := dataTypes + [trimmed];
        newDataType := "";
      }
    }

    method AddClause()
      requires Valid()
      modifies this
      ensures Valid()
      ensures var e := AddTrimmed(ListEdit(old(policyClauses), old(newClause)));
              State() == old(State()).(policyClauses := e.items, newClause := e.draft)
    {
      AddKeepsClean(ListEdit(policyClauses, newClause));
      var trimmed := Trim(newClause);
      if trimmed != "" {
        policyClauses := policyClauses + [trimmed];
        newClause := "";
      }
    }

    method RemoveDataType(index: int)
      requires Valid()
      modifies this
      ensures Valid()
      ensures State() == old(State()).(dataTypes := WithoutIndex(old(dataTypes), index))
    {
      RemoveKeepsClean(dataTypes, index);
      dataTypes := WithoutIndex(dataTypes, index);
    }

    method RemoveClause(index: int)
      requires Valid()
      modifies this
      ensures Valid()
      ensures State() == old(State()).(policyClauses := WithoutIndex(old(policyClauses), index))
    {
      RemoveKeepsClean(policyClauses, index);
      policyClauses := WithoutIndex(policyClauses, index);
    }

    method SaveFlow(userId: string, insertSucceeds: bool) returns (result: SaveResult)
      requires Valid()
      modifies this
      ensures Valid()
      ensures SaveStep(State(), result) == Save(old(State()), userId, insertSucceeds)
    {
      if Trim(featureName) == "" {
        return Refused("Please enter a feature name");
      }
      if |dataTypes| == 0 {
        return Refused("Please add at least one data type");
      }
      saving := true;
      var row := RowOf(State(), userId);
      if insertSucceeds {
        featureName := "";
        featureDescription := "";
        dataTypes := [];
        policyClauses := [];
        dialogOpen := false;
        result := Saved(row);
      } else {
        result := InsertFailed(row);
      }
      saving := false;
    }
  }

  // ---- Display ----

  /** A stored mapping as read back: the name and the two JSON columns. */
  datatype StoredMapping = StoredMapping(featureName: string, dataFlow: Json, linkedClauses: Json)

  datatype Icon = Lock | MapPin | CreditCard | Eye

  datatype Flow = Flow(feature: string, icon: Icon, dataTypes: seq<Json>, clauses: seq<Json>, color: string)

  const Icons: seq<Icon> := [Lock, MapPin, CreditCard, Eye]

  const Colors: seq<string> := [
    "from-primary/20 to-primary/5", "from-secondary/20 to-secondary/5",
    "from-accent/20 to-accent/5", "from-warning/20 to-warning/5"]

  /** Shown while the user has no mappings. */
  const DefaultFlows: seq<Flow> := [
    Flow("User Authentication", Lock, Strings(["Email", "Password Hash"]),
         Strings(["1.2 Account Information", "3.1 Authentication"]), Colors[0]),
    Flow("Location Services", MapPin, Strings(["GPS Coordinates", "IP Address"]),
         Strings(["1.4 Location Data", "2.3 Location Processing"]), Colors[1]),
    Flow("Payment Processing", CreditCard, Strings(["Card Details", "Billing Address"]),
         Strings(["1.5 Payment Data", "4.2 PCI Compliance"]), Colors[2]),
    Flow("Usage Analytics", Eye, Strings(["Page Views", "Click Events", "Session Duration"]),
         Strings(["1.6 Analytics Data", "2.5 Analytics Processing"]), Colors[3])]

  /** `(data_flow || {}).dataTypes || .data_types || []`, kept only if it is an array. */
  function FlowDataTypes(dataFlow: Json): seq<Json>
  {
    var df := Or(Some(dataFlow), JObject(map[]));
    var dt := Or(Member(df, "dataTypes"), Or(Member(df, "data_types"), JArray([])));
    if dt.JArray? then dt.items else []
  }

  /** An array is kept, a truthy non-array is wrapped, a falsy value gives none. */
  function FlowClauses(linked: Json): (r: seq<Json>)
    ensures linked.JArray? ==> r == linked.items
    ensures !linked.JArray? ==> |r| <= 1 && (r != [] <==> Truthy(linked)) && (r != [] ==> r[0] == linked)
  {
    if linked.JArray? then linked.items else if Truthy(linked) then [linked] else []
  }

  function FlowOf(m: StoredMapping, idx: nat): Flow
  {
    Flow(m.featureName, Icons[idx % 4], FlowDataTypes(m.dataFlow), FlowClauses(m.linkedClauses), Colors[idx % 4])
  }

  /** The flows the page shows. */
  function DataFlows(mappings: seq<StoredMapping>): (r: seq<Flow>)
    ensures |r| == if mappings == [] then 4 else |mappings|
    ensures mappings == [] ==> r == DefaultFlows
    ensures forall i :: 0 <= i < |mappings| ==>
              r[i].feature == mappings[i].featureName && r[i].icon == Icons[i % 4] && r[i].color == Colors[i % 4]
              && r[i].dataTypes == FlowDataTypes(mappings[i].dataFlow) && r[i].clauses == FlowClauses(mappings[i].linkedClauses)
  {
    if |mappings| > 0 then seq(|mappings|, i requires 0 <= i < |mappings| => FlowOf(mappings[i], i))
    else DefaultFlows
  }

  /** The four styles are told apart by the character after "from-". */
  lemma StyleOfIndex(j: nat)
    requires j < 4
    ensures Icons[j] == Lock <==> Colors[j] == Colors[0]
    ensures Icons[j] == Eye <==> Colors[j] == Colors[3]
    ensures forall k :: 0 <= k < 4 ==> (Icons[j] == Icons[k] <==> Colors[j] == Colors[k])
  {
    assert Colors[0][5] == 'p' && Colors[1][5] == 's' && Colors[2][5] == 'a' && Colors[3][5] == 'w';
  }

  lemma DefaultFlowsStyled(i: nat)
    requires i < 4
    ensures DefaultFlows[i].icon == Icons[i] && DefaultFlows[i].color == Colors[i]
  {
  }

  /** Icon and colour cycle with period four and always belong together. */
  lemma FlowStylesCycle(mappings: seq<StoredMapping>, i: nat)
    requires i < |DataFlows(mappings)|
    ensures var f := DataFlows(mappings)[i];
            (f.icon == Lock <==> f.color == Colors[0]) && (f.icon == Eye <==> f.color == Colors[3])
    ensures var f := DataFlows(mappings)[i];
            forall j :: 0 <= j < 4 ==> (f.icon == Icons[j] <==> f.color == Colors[j])
    ensures i + 4 < |DataFlows(mappings)| ==>
              DataFlows(mappings)[i + 4].icon == DataFlows(mappings)[i].icon
              && DataFlows(mappings)[i + 4].color == DataFlows(mappings)[i].color
  {
    var flows := DataFlows(mappings);
    if mappings == [] {
      DefaultFlowsStyled(i);
      StyleOfIndex(i);
    } else {
      StyleOfIndex(i % 4);
      if i + 4 < |mappings| {
        assert (i + 4) % 4 == i % 4;
      }
    }
  }

  /**
   * The normalisation of `data_flow`: `dataTypes` wins when it is truthy,
   * even when it is not an array (then the flow shows no data types), and
   * `data_types` is read only when `dataTypes` is missing or falsy.
   */
  lemma DataTypesFallbacks(m: map<string, Json>, ds: seq<Json>)
    ensures "dataTypes" in m && m["dataTypes"] == JArray(ds) ==> FlowDataTypes(JObject(m)) == ds
    ensures ("dataTypes" !in m || !Truthy(m["dataTypes"])) && "data_types" in m && m["data_types"] == JArray(ds) ==>
              FlowDataTypes(JObject(m)) == ds
    ensures "dataTypes" in m && Truthy(m["dataTypes"]) && !m["dataTypes"].JArray? ==> FlowDataTypes(JObject(m)) == []
    ensures forall v: Json :: !v.JObject? ==> FlowDataTypes(v) == []
    ensures ("dataTypes" !in m || !Truthy(m["dataTypes"])) && ("data_types" !in m || !m["data_types"].JArray?) ==>
              FlowDataTypes(JObject(m)) == []
  {
  }

  /** A row saved by the form is shown back with its name, data types and clauses. */
  lemma SavedMappingShowsBack(f: FormState, userId: string, idx: nat)
    requires Save(f, userId, true).result.Saved?
    ensures var row := Save(f, userId, true).result.row;
            var flow := FlowOf(StoredMapping(row.featureName, row.dataFlow, row.linkedClauses), idx);
            flow.feature == f.featureName
            && flow.dataTypes == Strings(f.dataTypes)
            && flow.clauses == Strings(f.policyClauses)
  {
    var row := Save(f, userId, true).result.row;
    assert row.dataFlow == JObject(map["dataTypes" := JArray(Strings(f.dataTypes))]);
    assert Member(row.dataFlow, "dataTypes") == Some(JArray(Strings(f.dataTypes)));
  }
}
