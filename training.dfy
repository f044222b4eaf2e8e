/**
  The pure rules of the training script src/train.py: which columns become
  features, how their names are cleaned, the guard that refuses
  non-numeric features, and the choice between the two fitted models.
  A frame is modelled by its column names and dtypes; the data, the
  split, the resampling and the fitting are outside this model.
*/
module Training {
  import opened Wrappers
  import opened Naming
  import opened Schema

  /** The pandas dtypes the script can meet; only `Object` is what `select_dtypes(include=["object"])` picks. */
  datatype Dtype = Int64 | Float64 | Bool | Category | Object

  datatype Column = Column(name: string, dtype: Dtype)

  /** `df.columns`: the names of the frame's columns, in order. */
  function Names(columns: seq<Column>): seq<string> {
    seq(|columns|, i requires 0 <= i < |columns| => columns[i].name)
  }

  /** The label and the three identifiers, which never become features. */
  const IdentifierColumns: seq<string> := ["dropout", "id_student", "code_module", "code_presentation"]

  /** `df.drop(columns=drop_cols, errors="ignore")`: an absent identifier is simply skipped. */
  function DropIdentifiers(columns: seq<Column>): (r: seq<Column>)
    ensures |r| <= |columns|
    ensures forall i :: 0 <= i < |r| ==> r[i] in columns && r[i].name !in IdentifierColumns
  {
    if |columns| == 0 then []
    else
      var rest := DropIdentifiers(columns[..|columns| - 1]);
      var c := columns[|columns| - 1];
      if c.name in IdentifierColumns then rest else rest + [c]
  }

  /** A column survives the drop exactly when its name is not an identifier. */
  lemma {:induction false} DropIdentifiersMembers(columns: seq<Column>)
    ensures forall c :: c in DropIdentifiers(columns) <==> c in columns && c.name !in IdentifierColumns
  {
    if |columns| > 0 {
      var init := columns[..|columns| - 1];
      DropIdentifiersMembers(init);
      assert columns == init + [columns[|columns| - 1]];
    }
  }

  /** The drop keeps the surviving columns in their original order. */
  lemma {:induction false} DropIdentifiersConcat(a: seq<Column>, b: seq<Column>)
    ensures DropIdentifiers(a + b) == DropIdentifiers(a) + DropIdentifiers(b)
    decreases |b|
  {
    if |b| == 0 {
      assert a + b == a;
    } else {
      var init := b[..|b| - 1];
      assert (a + b)[..|a + b| - 1] == a + init;
      DropIdentifiersConcat(a, init);
    }
  }

  /** A frame without identifier columns passes through the drop unchanged. */
  lemma {:induction false} DropIdentifiersNoop(columns: seq<Column>)
    requires forall i :: 0 <= i < |columns| ==> columns[i].name !in IdentifierColumns
    ensures DropIdentifiers(columns) == columns
  {
    if |columns| > 0 {
      var init := columns[..|columns| - 1];
      DropIdentifiersNoop(init);
      assert columns == init + [columns[|columns| - 1]];
    }
  }

  /** The drop only removes columns, so a numeric frame stays numeric. */
  lemma {:induction false} DropIdentifiersNumeric(columns: seq<Column>)
    requires forall i :: 0 <= i < |columns| ==> columns[i].dtype != Object
    ensures forall i :: 0 <= i < |DropIdentifiers(columns)| ==> DropIdentifiers(columns)[i].dtype != Object
  {
    if |columns| > 0 {
      DropIdentifiersNumeric(columns[..|columns| - 1]);
    }
  }

  /** `clean_columns(df)`: a copy of the frame with every name cleaned and the dtypes kept. */
  function CleanFrame(columns: seq<Column>): (r: seq<Column>)
    ensures |r| == |columns|
    ensures forall i :: 0 <= i < |r| ==> Normalized(r[i].name) && r[i].dtype == columns[i].dtype
  {
    seq(|columns|, i requires 0 <= i < |columns| => Column(Clean(columns[i].name), columns[i].dtype))
  }

  /**
    The training cleaner renames exactly as the serving cleaner does,
    keeping the number, order and dtypes of the columns.
  */
  lemma CleanFrameNames(columns: seq<Column>)
    ensures |CleanFrame(columns)| == |columns|
    ensures Names(CleanFrame(columns)) == CleanColumns(Names(columns))
    ensures forall i :: 0 <= i < |columns| ==> CleanFrame(columns)[i].dtype == columns[i].dtype
  {
  }

  /** Cleaning again after resampling changes nothing. */
  lemma CleanFrameIdempotent(columns: seq<Column>)
    ensures CleanFrame(CleanFrame(columns)) == CleanFrame(columns)
  {
    forall i | 0 <= i < |columns|
      ensures CleanFrame(CleanFrame(columns))[i] == CleanFrame(columns)[i]
    {
      CleanIdempotent(columns[i].name);
    }
  }

  /** `select_dtypes(include=["object"]).columns.tolist()`: the object-typed names, in order. */
  function ObjectColumns(columns: seq<Column>): (r: seq<string>)
    ensures |r| <= |columns|
  {
    if |columns| == 0 then []
    else
      var rest := ObjectColumns(columns[..|columns| - 1]);
      var c := columns[|columns| - 1];
      if c.dtype == Object then rest + [c.name] else rest
  }

  /** The list is empty exactly when no column has the object dtype. */
  lemma {:induction false} ObjectColumnsEmpty(columns: seq<Column>)
    ensures |ObjectColumns(columns)| == 0 <==> forall i :: 0 <= i < |columns| ==> columns[i].dtype != Object
  {
    if |columns| > 0 {
      var init := columns[..|columns| - 1];
      ObjectColumnsEmpty(init);
      assert forall i :: 0 <= i < |init| ==> init[i] == columns[i];
    }
  }

  const NonNumericMessage: string := "Fix preprocessing; SMOTE/XGBoost require numeric."

  /**
    The guard before resampling: the features go on unchanged when no
    column is object-typed, and training stops with a `ValueError`
    otherwise.
  */
  function CheckNumeric(columns: seq<Column>): (r: Result<seq<Column>, string>)
    ensures r.Ok? <==> forall i :: 0 <= i < |columns| ==> columns[i].dtype != Object
    ensures r.Ok? ==> r.value == columns
    ensures r.Err? ==> r.error == NonNumericMessage
  {
    ObjectColumnsEmpty(columns);
    if |ObjectColumns(columns)| > 0 then Err(NonNumericMessage) else Ok(columns)
  }

  /**
    The guard looks at the object dtype only: a categorical or boolean
    column is let through.
  */
  lemma GuardIgnoresCategory(name: string)
    ensures CheckNumeric([Column(name, Category)]).Ok?
    ensures CheckNumeric([Column(name, Bool)]).Ok?
  {
  }

  /** Lines 60-76 of the script: drop identifiers, clean the names, refuse object columns. */
  function Features(df: seq<Column>): (r: Result<seq<Column>, string>)
    ensures r.Ok? ==> |r.value| <= |df|
    ensures r.Ok? ==> forall i :: 0 <= i < |r.value| ==> r.value[i].dtype != Object && Normalized(r.value[i].name)
    ensures r.Err? ==> r.error == NonNumericMessage
  {
    CheckNumeric(CleanFrame(DropIdentifiers(df)))
  }

  /**
    The frame reaches training exactly when no kept column is
    object-typed, and it then carries the cleaned names of the kept
    columns, in their original order.
  */
  lemma FeaturesNames(df: seq<Column>)
    ensures Features(df).Ok? <==> forall c :: c in df && c.name !in IdentifierColumns ==> c.dtype != Object
    ensures Features(df).Ok? ==> Names(Features(df).value) == CleanColumns(Names(DropIdentifiers(df)))
  {
    var kept := DropIdentifiers(df);
    DropIdentifiersMembers(df);
    CleanFrameNames(kept);
    assert (forall i :: 0 <= i < |kept| ==> kept[i].dtype != Object) <==> (forall c :: c in kept ==> c.dtype != Object);
  }

  /** A frame with no object-typed column at all always reaches training. */
  lemma NumericFramePasses(df: seq<Column>)
    requires forall i :: 0 <= i < |df| ==> df[i].dtype != Object
    ensures Features(df).Ok?
  {
    var kept := DropIdentifiers(df);
    DropIdentifiersNumeric(df);
    CleanFrameNames(kept);
  }

  /**
    Training/serving agreement: when the frame's non-identifier columns
    carry the raw schema names, the model that passes the guard is trained
    on exactly the names the serving side builds its row with.
  */
  lemma FeaturesMatchServing(df: seq<Column>)
    requires Features(df).Ok?
    requires Names(DropIdentifiers(df)) == RawFeatureColumns
    ensures Names(Features(df).value) == FeatureColumns
  {
    CleanFrameNames(DropIdentifiers(df));
  }

  datatype Model = RandomForest | XGBoost

  /** The name the script records for the saved model. */
  function ModelName(m: Model): string {
    match m
    case RandomForest => "random_forest"
    case XGBoost => "xgboost"
  }

  /** Lines 148-153: the model with the higher validation recall, ties going to XGBoost, and its name. */
  function ChooseBest(xgbRecall: real, rfRecall: real): (r: (Model, string))
    ensures r.0 == XGBoost <==> xgbRecall >= rfRecall
    ensures r.1 == ModelName(r.0)
  {
    if xgbRecall >= rfRecall then (XGBoost, "xgboost") else (RandomForest, "random_forest")
  }

  function Recall(m: Model, xgbRecall: real, rfRecall: real): real {
    match m
    case XGBoost => xgbRecall
    case RandomForest => rfRecall
  }

  /** The chosen model's recall is the larger of the two. */
  lemma ChooseBestIsMaximal(xgbRecall: real, rfRecall: real)
    ensures Recall(ChooseBest(xgbRecall, rfRecall).0, xgbRecall, rfRecall) >= xgbRecall
    ensures Recall(ChooseBest(xgbRecall, rfRecall).0, xgbRecall, rfRecall) >= rfRecall
  {
  }

  /** Swapping two different recalls swaps the choice; only a tie breaks the symmetry. */
  lemma ChooseBestSymmetry(a: real, b: real)
    ensures a != b ==> ChooseBest(a, b).0 != ChooseBest(b, a).0
    ensures a == b ==> ChooseBest(a, b).0 == XGBoost
  {
  }
}
