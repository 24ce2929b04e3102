/** The "Live Case File" panel of `app.py`: the filled/total counter, the
    progress bar, one row per required field, and the guard on the
    document-generation button. */
module Dashboard {
  import opened Json
  import Services
  import Session
  import Agent

  /** A required field's row: its value when truthy, otherwise the
      "Waiting for input..." caption. */
  datatype Row = Shown(labelText: string, value: Value) | Waiting(labelText: string)

  datatype View = View(filled: nat, total: nat, progress: real, rows: seq<Row>, pdfOffered: bool)

  /** `min(filled/total, 1.0)`; the division at app.py:117 is unguarded, so
      the schema must not be empty. */
  function Progress(filled: nat, total: nat): (p: real)
    requires total > 0
    ensures 0.0 <= p <= 1.0
    ensures filled >= total ==> p == 1.0
    ensures filled < total ==> p < 1.0
    ensures filled <= total ==> p * (total as real) == filled as real
  {
    var ratio := (filled as real) / (total as real);
    RatioAgainstOne(filled, total);
    if ratio <= 1.0 then ratio else 1.0
  }

  /** `filled/total` reaches 1 exactly when `filled` reaches `total`. */
  lemma RatioAgainstOne(filled: nat, total: nat)
    requires total > 0
    ensures (filled as real) / (total as real) * (total as real) == filled as real
    ensures 0.0 <= (filled as real) / (total as real)
    ensures (filled as real) / (total as real) <= 1.0 <==> filled <= total
    ensures (filled as real) / (total as real) < 1.0 <==> filled < total
  {
    var f, t := filled as real, total as real;
    var r := f / t;
    assert r * t == f;
    assert (r - 1.0) * t == f - t;
    if r <= 1.0 {
      assert (1.0 - r) * t >= 0.0;
    }
    if filled <= total {
      assert (r - 1.0) * t <= 0.0;
    }
  }

  /** `form_data.get(key, "")` read for display. */
  function RowFor(field: Services.Field, data: Object): Row {
    var v := if field.key in data then data[field.key] else Str("");
    if Truthy(v) then Shown(field.labelText, v) else Waiting(field.labelText)
  }

  /** The rows of the case-file panel, one per required field, in schema
      order. */
  function FieldRows(fields: seq<Services.Field>, data: Object): (rows: seq<Row>)
    ensures |rows| == |fields|
    ensures forall i :: 0 <= i < |fields| ==> rows[i].labelText == fields[i].labelText
    ensures forall i :: 0 <= i < |fields| ==>
              (rows[i].Shown? <==> fields[i].key in data && Truthy(data[fields[i].key]))
    ensures forall i :: 0 <= i < |fields| && rows[i].Shown? ==> rows[i].value == data[fields[i].key]
  {
    seq(|fields|, i requires 0 <= i < |fields| => RowFor(fields[i], data))
  }

  /** The whole panel for a session. `filled` counts every key of the case
      file, whatever its value and whether or not the schema has it. */
  function Render(s: Session.State): (v: View)
    requires s.currentService in Services.Registry
    ensures v.total == |Services.Registry[s.currentService].requiredFields| && v.total > 0
    ensures v.filled == |s.formData.Keys|
    ensures 0.0 <= v.progress <= 1.0
    ensures v.filled >= v.total <==> v.progress == 1.0
    ensures v.rows == FieldRows(Services.Registry[s.currentService].requiredFields, s.formData)
    ensures v.pdfOffered <==> |s.formData.Keys| > 0
  {
    Services.SchemaSizes();
    var fields := Services.Registry[s.currentService].requiredFields;
    var filled := |s.formData|;
    View(filled, |fields|, Progress(filled, |fields|), FieldRows(fields, s.formData), filled > 0)
  }

  /** Any new key raises `filled` by one: a `null` value or a key outside the
      schema counts as much as a real answer. */
  lemma FilledCountsEveryKey(s: Session.State, key: string, value: Value)
    requires s.currentService in Services.Registry
    requires key !in s.formData
    ensures Render(s.(formData := s.formData[key := value])).filled == Render(s).filled + 1
  {
  }

  lemma {:induction false} SubsetSize<T>(a: set<T>, b: set<T>)
    requires a <= b
    ensures |a| <= |b|
    ensures |a| == |b| ==> a == b
    decreases |b|
  {
    if a != {} {
      var x :| x in a;
      SubsetSize(a - {x}, b - {x});
      assert a == (a - {x}) + {x} && b == (b - {x}) + {x};
    }
  }

  /** When the case file only holds schema keys, the counter never exceeds
      the total and the bar is full exactly when every schema key is present. */
  lemma ScopedDataIsExact(s: Session.State)
    requires s.currentService in Services.Registry
    requires s.formData.Keys <= Services.KeySet(Services.Registry[s.currentService].requiredFields)
    ensures Render(s).filled <= Render(s).total
    ensures Render(s).progress == 1.0 <==>
              s.formData.Keys == Services.KeySet(Services.Registry[s.currentService].requiredFields)
  {
    var fields := Services.Registry[s.currentService].requiredFields;
    Services.SchemaSizes();
    Services.KeySetSize(fields);
    SubsetSize(s.formData.Keys, Services.KeySet(fields));
  }

  /** Because every key counts, the counter can read `total/total` with a full
      bar while a required field is still shown as waiting: here every schema
      key is present but one holds a falsy value such as `null`. */
  lemma FullBarWhileWaiting(s: Session.State, i: nat)
    requires s.currentService in Services.Registry
    requires s.formData.Keys == Services.KeySet(Services.Registry[s.currentService].requiredFields)
    requires i < |Services.Registry[s.currentService].requiredFields|
    requires !Truthy(s.formData[Services.Registry[s.currentService].requiredFields[i].key])
    ensures Render(s).filled == Render(s).total && Render(s).progress == 1.0
    ensures Render(s).rows[i].Waiting?
  {
    var fields := Services.Registry[s.currentService].requiredFields;
    Services.SchemaSizes();
    Services.KeySetSize(fields);
  }

  /** After a reset or a service switch the panel is empty: nothing filled,
      every row waiting, no document button. */
  lemma ResetClearsPanel(s: Session.State)
    requires s.currentService in Services.Registry
    ensures var v := Render(Session.SwitchService(s));
            v.filled == 0 && v.progress == 0.0 && !v.pdfOffered &&
            forall i :: 0 <= i < |v.rows| ==> v.rows[i].Waiting?
  {
  }

  /** A chat turn never lowers the counter, so once the document button is
      offered it stays offered until the next reset. */
  lemma ChatTurnKeepsProgress(s: Session.State, input: string, llm: seq<Agent.Message> -> Agent.Completion)
    requires s.currentService in Services.Registry
    ensures Render(Session.ChatTurn(s, input, llm)).filled >= Render(s).filled
    ensures Render(s).pdfOffered ==> Render(Session.ChatTurn(s, input, llm)).pdfOffered
  {
    var r := Session.ChatTurn(s, input, llm);
    SubsetSize(s.formData.Keys, r.formData.Keys);
  }
}
