/**
  `preprocess_input` of src/app.py: the serving side turns one student's
  raw JSON record into the single fifty-column row the classifier was
  trained on.

  The row is a dictionary that starts with every schema column at 0; the
  numeric fields present in the record are copied in; then each of the six
  categorical fields sets one indicator column to 1. `PreprocessInput` does
  exactly that on a `Row` object and is proved to produce `Encode(raw)`,
  the row described column by column; the lemmas below then state what
  that row holds.
*/
module Encoder {
  import opened Wrappers
  import opened Naming
  import opened Schema
  import opened CleanedSchema

  /** A JSON value of the record, as far as the row builder tells values apart. */
  datatype Value = Null | Num(x: real) | Text(s: string)

  const Zero: Value := Num(0.0)
  const One: Value := Num(1.0)

  /** The decoded JSON object the dashboard posts. */
  type RawRecord = map<string, Value>

  /** `raw.get(key)`: a missing key reads as null. */
  function Get(raw: RawRecord, key: string): Value {
    if key in raw then raw[key] else Null
  }

  /**
    The column name a categorical value asks for: the value itself, cleaned
    unless the field is gender or disability. A null has none, and neither
    has a number: its printed form is never a column of `FEATURE_COLUMNS`
    (`PrintedNumberNamesNoColumn`).
  */
  function Candidate(f: Field, v: Value): (r: Option<string>)
    ensures r.Some? <==> v.Text?
    ensures r.Some? && f.CleansValue() ==> Normalized(r.value)
    ensures r.Some? && !f.CleansValue() ==> r.value == v.s
  {
    match v
    case Text(s) => Some(if f.CleansValue() then Clean(s) else s)
    case _ => None
  }

  /**
    The column the field's block sets to 1 in a row keyed by `schema`: the
    candidate when it is a key, otherwise the family's `_nan` column.
  */
  function TargetIn(schema: seq<string>, raw: RawRecord, f: Field): (r: string)
    ensures r == f.NanColumn() || (r in schema && Candidate(f, Get(raw, f.Name())) == Some(r))
    ensures Candidate(f, Get(raw, f.Name())).None? ==> r == f.NanColumn()
  {
    match Candidate(f, Get(raw, f.Name()))
    case Some(col) => if col in schema then col else f.NanColumn()
    case None => f.NanColumn()
  }

  /** The six targets, in the order the blocks run. */
  function TargetsIn(schema: seq<string>, raw: RawRecord): seq<string> {
    [TargetIn(schema, raw, Gender), TargetIn(schema, raw, Region), TargetIn(schema, raw, HighestEducation),
     TargetIn(schema, raw, ImdBand), TargetIn(schema, raw, AgeBand), TargetIn(schema, raw, Disability)]
  }

  /** A column after the zero fill and the numeric copy. */
  function Base(raw: RawRecord, c: string): Value {
    if c in NumericFields && c in raw then raw[c] else Zero
  }

  /** Whether some field's block sets column `c`. */
  predicate SetByIn(schema: seq<string>, raw: RawRecord, c: string) {
    exists g: Field :: TargetIn(schema, raw, g) == c
  }

  /** A column of the finished row: 1 if some block set it, else its base value. */
  function ExpectedIn(schema: seq<string>, raw: RawRecord, c: string): Value {
    if SetByIn(schema, raw, c) then One else Base(raw, c)
  }

  /** The finished row over `schema`, column by column in schema order. */
  function EncodeIn(schema: seq<string>, raw: RawRecord): (r: seq<Value>)
    ensures |r| == |schema|
  {
    seq(|schema|, i requires 0 <= i < |schema| => ExpectedIn(schema, raw, schema[i]))
  }

  /** Every cell of the row is 1, 0 or the record's value for a numeric field. */
  lemma EncodeInValues(schema: seq<string>, raw: RawRecord)
    ensures forall i :: 0 <= i < |schema| ==>
      var v := EncodeIn(schema, raw)[i];
      v == One || v == Zero || (schema[i] in NumericFields && schema[i] in raw && v == raw[schema[i]])
  {
  }

  /** The row `preprocess_input` returns for `raw`. */
  function Encode(raw: RawRecord): (r: seq<Value>)
    ensures |r| == |FeatureColumns|
  {
    EncodeIn(FeatureColumns, raw)
  }

  /** `pd.DataFrame([row])`: one row, its columns in the dictionary's key order. */
  datatype Frame = Frame(columns: seq<string>, values: seq<Value>)

  /** A Python dictionary from column names to values, keys kept in insertion order. */
  class Row {
    var keys: seq<string>
    var cells: map<string, Value>

    ghost predicate Valid()
      reads this
    {
      Distinct(keys) && (forall k :: k in cells <==> k in keys)
    }

    constructor ()
      ensures Valid() && keys == [] && cells == map[]
    {
      keys := [];
      cells := map[];
    }

    /** `row[key] = value`: a new key goes last, an existing one keeps its place. */
    method Store(key: string, value: Value)
      requires Valid()
      modifies this
      ensures Valid()
      ensures cells == old(cells)[key := value]
      ensures keys == if key in old(cells) then old(keys) else old(keys) + [key]
    {
      if key !in cells {
        keys := keys + [key];
      }
      cells := cells[key := value];
    }

    /** The one-row frame built from the dictionary. */
    method ToFrame() returns (frame: Frame)
      requires Valid()
      ensures frame.columns == keys
      ensures |frame.values| == |keys|
      ensures forall i :: 0 <= i < |keys| ==> frame.values[i] == cells[keys[i]]
    {
      var values: seq<Value> := [];
      for i := 0 to |keys|
        invariant |values| == i
        invariant forall j :: 0 <= j < i ==> values[j] == cells[keys[j]]
      {
        values := values + [cells[keys[i]]];
      }
      frame := Frame(keys, values);
    }
  }

  /** Every family's `_nan` column is a schema column. */
  lemma NanInSchema(f: Field)
    ensures f.NanColumn() in FeatureColumns
  {
    FamilyBlockShape(f);
    FamilyPositions(f);
    assert FeatureColumns[f.Offset() + |f.Columns()| - 1] == f.NanColumn();
  }

  /** What the row builder needs of its keys: distinct, holding every numeric field and every `_nan` column. */
  ghost predicate RowSchema(schema: seq<string>) {
    Distinct(schema)
    && (forall n :: 0 <= n < |NumericFields| ==> NumericFields[n] in schema)
    && (forall f: Field :: f.NanColumn() in schema)
  }

  lemma FeatureColumnsRowSchema()
    ensures RowSchema(FeatureColumns)
  {
    FeatureColumnsDistinct();
    NumericPositions();
    FeatureColumnsValue();
    forall f: Field ensures f.NanColumn() in FeatureColumns {
      NanInSchema(f);
    }
  }

  /**
    One categorical block of `preprocess_input`: read the field, and set
    either the column its value names or the family's `_nan` column.
  */
  method EncodeField(row: Row, schema: seq<string>, raw: RawRecord, f: Field)
    requires f.NanColumn() in schema
    requires row.Valid() && row.keys == schema
    modifies row
    ensures row.Valid() && row.keys == schema
    ensures row.cells == old(row.cells)[TargetIn(schema, raw, f) := One]
  {
    var v := Get(raw, f.Name());
    match v
    case Null =>
      row.Store(f.NanColumn(), One);
    case Num(_) =>
      // the printed number is not a column name
      row.Store(f.NanColumn(), One);
    case Text(s) =>
      var col := if f.CleansValue() then CleanColumns([s])[0] else s;
      assert Candidate(f, v) == Some(col);
      if col in row.cells {
        row.Store(col, One);
      } else {
        row.Store(f.NanColumn(), One);
      }
  }

  /** After the first `m` blocks, every column is 1 if one of them set it and its base value otherwise. */
  ghost predicate EncodedUpTo(cells: map<string, Value>, schema: seq<string>, raw: RawRecord, m: nat)
    requires m <= 6
  {
    forall k :: k in cells ==> cells[k] == if k in TargetsIn(schema, raw)[..m] then One else Base(raw, k)
  }

  lemma EncodedNone(cells: map<string, Value>, schema: seq<string>, raw: RawRecord)
    requires forall k :: k in cells ==> cells[k] == Base(raw, k)
    ensures EncodedUpTo(cells, schema, raw, 0)
  {
  }

  lemma EncodedStep(before: map<string, Value>, after: map<string, Value>, schema: seq<string>, raw: RawRecord, m: nat)
    requires m < 6
    requires EncodedUpTo(before, schema, raw, m)
    requires after == before[TargetsIn(schema, raw)[m] := One]
    ensures EncodedUpTo(after, schema, raw, m + 1)
  {
    assert TargetsIn(schema, raw)[..m + 1] == TargetsIn(schema, raw)[..m] + [TargetsIn(schema, raw)[m]];
  }

  /** `row = {col: 0 for col in FEATURE_COLUMNS}` */
  method ZeroRow(schema: seq<string>) returns (row: Row)
    requires Distinct(schema)
    ensures fresh(row)
    ensures row.Valid() && row.keys == schema
    ensures forall k :: k in row.cells ==> row.cells[k] == Zero
  {
    row := new Row();
    for i := 0 to |schema|
      invariant row.Valid()
      invariant row.keys == schema[..i]
      invariant forall k :: k in row.cells ==> row.cells[k] == Zero
    {
      assert schema[..i + 1] == schema[..i] + [schema[i]];
      row.Store(schema[i], Zero);
    }
    assert schema[..|schema|] == schema;
  }

  /** The dictionary after `row[f] = raw[f]` for every `f` of `fields` present in `raw`, in order. */
  function CopyFields(cells: map<string, Value>, raw: RawRecord, fields: seq<string>): (r: map<string, Value>)
    ensures cells.Keys <= r.Keys
    ensures forall k :: k in r && k !in cells ==> k in fields && k in raw
  {
    if |fields| == 0 then cells
    else
      var rest := CopyFields(cells, raw, fields[..|fields| - 1]);
      var f := fields[|fields| - 1];
      if f in raw then rest[f := raw[f]] else rest
  }

  /** Copying overwrites exactly the listed fields that the record has, and adds no key when they are all present. */
  lemma {:induction false} CopyFieldsValues(cells: map<string, Value>, raw: RawRecord, fields: seq<string>)
    requires forall n :: 0 <= n < |fields| ==> fields[n] in cells
    ensures CopyFields(cells, raw, fields).Keys == cells.Keys
    ensures forall k :: k in cells ==>
      CopyFields(cells, raw, fields)[k] == if k in fields && k in raw then raw[k] else cells[k]
  {
    if |fields| > 0 {
      var init := fields[..|fields| - 1];
      CopyFieldsValues(cells, raw, init);
      forall k | k in cells
        ensures k in fields <==> k in init || k == fields[|fields| - 1]
      {
        assert fields == init + [fields[|fields| - 1]];
      }
    }
  }

  /** After the zero fill, the numeric copy leaves every column at its base value. */
  lemma CopiedIsBase(zeros: map<string, Value>, raw: RawRecord)
    requires forall n :: 0 <= n < |NumericFields| ==> NumericFields[n] in zeros
    requires forall k :: k in zeros ==> zeros[k] == Zero
    ensures forall k :: k in CopyFields(zeros, raw, NumericFields) ==> CopyFields(zeros, raw, NumericFields)[k] == Base(raw, k)
  {
    CopyFieldsValues(zeros, raw, NumericFields);
  }

  /** The loop that copies every numeric field present in the record into the row. */
  method CopyNumericFields(row: Row, raw: RawRecord)
    requires row.Valid()
    requires forall n :: 0 <= n < |NumericFields| ==> NumericFields[n] in row.cells
    modifies row
    ensures row.Valid() && row.keys == old(row.keys)
    ensures row.cells == CopyFields(old(row.cells), raw, NumericFields)
  {
    for n := 0 to |NumericFields|
      invariant row.Valid() && row.keys == old(row.keys)
      invariant row.cells == CopyFields(old(row.cells), raw, NumericFields[..n])
    {
      var f := NumericFields[n];
      assert NumericFields[..n + 1][..n] == NumericFields[..n];
      if f in raw {
        row.Store(f, raw[f]);
      }
    }
    assert NumericFields[..|NumericFields|] == NumericFields;
  }

  /**
    The body of `preprocess_input` over the schema constant it reads: the
    result has exactly the schema's columns in order, each holding what
    `EncodeIn` says.
  */
  method BuildRow(schema: seq<string>, raw: RawRecord) returns (frame: Frame)
    requires RowSchema(schema)
    ensures frame.columns == schema
    ensures frame.values == EncodeIn(schema, raw)
  {
    var row := ZeroRow(schema);
    ghost var zeros := row.cells;
    CopyNumericFields(row, raw);
    CopiedIsBase(zeros, raw);
    ghost var base := row.cells;
    EncodeField(row, schema, raw, Gender);
    EncodeField(row, schema, raw, Region);
    EncodeField(row, schema, raw, HighestEducation);
    EncodeField(row, schema, raw, ImdBand);
    EncodeField(row, schema, raw, AgeBand);
    EncodeField(row, schema, raw, Disability);
    ghost var t := TargetsIn(schema, raw);
    assert row.cells == base[t[0] := One][t[1] := One][t[2] := One][t[3] := One][t[4] := One][t[5] := One];

    frame := row.ToFrame();
    EncodedRow(base, row.cells, frame.values, schema, raw);
  }

  /** The six targets are exactly the columns some block sets. */
  lemma TargetsSetBy(schema: seq<string>, raw: RawRecord, c: string)
    ensures c in TargetsIn(schema, raw) <==> SetByIn(schema, raw, c)
  {
    if c in TargetsIn(schema, raw) {
      ListedIsSet(schema, raw, c);
    }
    if SetByIn(schema, raw, c) {
      SetIsListed(schema, raw, c);
    }
  }

  lemma ListedIsSet(schema: seq<string>, raw: RawRecord, c: string)
    requires c in TargetsIn(schema, raw)
    ensures SetByIn(schema, raw, c)
  {
    var t := TargetsIn(schema, raw);
    var k :| 0 <= k < 6 && t[k] == c;
    var g := if k == 0 then Gender else if k == 1 then Region else if k == 2 then HighestEducation
      else if k == 3 then ImdBand else if k == 4 then AgeBand else Disability;
    assert TargetIn(schema, raw, g) == c;
  }

  lemma SetIsListed(schema: seq<string>, raw: RawRecord, c: string)
    requires SetByIn(schema, raw, c)
    ensures c in TargetsIn(schema, raw)
  {
    var t := TargetsIn(schema, raw);
    var g: Field :| TargetIn(schema, raw, g) == c;
    match g
    case Gender => assert t[0] == c;
    case Region => assert t[1] == c;
    case HighestEducation => assert t[2] == c;
    case ImdBand => assert t[3] == c;
    case AgeBand => assert t[4] == c;
    case Disability => assert t[5] == c;
  }

  /** Read out in schema order, the fully encoded dictionary is `EncodeIn`. */
  lemma EncodedRow(base: map<string, Value>, cells: map<string, Value>, values: seq<Value>,
                   schema: seq<string>, raw: RawRecord)
    requires forall k :: k in base ==> base[k] == Base(raw, k)
    requires cells == base[TargetsIn(schema, raw)[0] := One][TargetsIn(schema, raw)[1] := One]
      [TargetsIn(schema, raw)[2] := One][TargetsIn(schema, raw)[3] := One]
      [TargetsIn(schema, raw)[4] := One][TargetsIn(schema, raw)[5] := One]
    requires forall k :: k in cells <==> k in schema
    requires |values| == |schema|
    requires forall i :: 0 <= i < |schema| ==> values[i] == cells[schema[i]]
    ensures values == EncodeIn(schema, raw)
  {
    var t := TargetsIn(schema, raw);
    EncodedNone(base, schema, raw);
    EncodedStep(base, base[t[0] := One], schema, raw, 0);
    EncodedStep(base[t[0] := One], base[t[0] := One][t[1] := One], schema, raw, 1);
    EncodedStep(base[t[0] := One][t[1] := One], base[t[0] := One][t[1] := One][t[2] := One], schema, raw, 2);
    EncodedStep(base[t[0] := One][t[1] := One][t[2] := One],
                base[t[0] := One][t[1] := One][t[2] := One][t[3] := One], schema, raw, 3);
    EncodedStep(base[t[0] := One][t[1] := One][t[2] := One][t[3] := One],
                base[t[0] := One][t[1] := One][t[2] := One][t[3] := One][t[4] := One], schema, raw, 4);
    EncodedStep(base[t[0] := One][t[1] := One][t[2] := One][t[3] := One][t[4] := One], cells, schema, raw, 5);
    assert t[..6] == t;
    forall i | 0 <= i < |schema| ensures values[i] == EncodeIn(schema, raw)[i] {
      assert schema[i] in cells;
      TargetsSetBy(schema, raw, schema[i]);
    }
  }

  /**
    `preprocess_input`: one row with exactly the fifty schema columns, in
    schema order, holding `Encode(raw)`.
  */
  method PreprocessInput(raw: RawRecord) returns (frame: Frame)
    ensures frame.columns == FeatureColumns
    ensures |frame.columns| == 50
    ensures frame.values == Encode(raw)
  {
    FeatureColumnsRowSchema();
    FeatureColumnsValue();
    frame := BuildRow(FeatureColumns, raw);
  }

  /**
    The shape of `FEATURE_COLUMNS` the properties below rely on: fifty
    distinct names, the numeric fields first, then each family's cleaned
    block from its offset on, every name starting with a lower-case letter
    from a short list.
  */
  ghost predicate Layout(schema: seq<string>) {
    RowSchema(schema)
    && |schema| == 50
    && NumericBlock(schema)
    && (forall f: Field :: FamilyBlock(schema, f))
    && KnownInitials(schema)
  }

  /** The numeric fields come first. */
  ghost predicate NumericBlock(schema: seq<string>) {
    |NumericFields| <= |schema| && forall k :: 0 <= k < |NumericFields| ==> schema[k] == NumericFields[k]
  }

  /** Family `f`'s cleaned block starts at its offset. */
  ghost predicate FamilyBlock(schema: seq<string>, f: Field) {
    f.Offset() + |f.Columns()| <= |schema|
    && forall j :: 0 <= j < |f.Columns()| ==> schema[f.Offset() + j] == f.Columns()[j]
  }

  /** Every name starts with one of a few lower-case letters. */
  ghost predicate KnownInitials(schema: seq<string>) {
    forall i :: 0 <= i < |schema| ==> |schema[i]| >= 1 && schema[i][0] in "nsdvagrhi"
  }

  lemma FeatureColumnsLayout()
    ensures Layout(FeatureColumns)
  {
    FeatureColumnsRowSchema();
    FeatureColumnsValue();
    NumericPositions();
    SchemaInitials();
    FeatureColumnsFamilies();
  }

  lemma FeatureColumnsFamilies()
    ensures forall f: Field :: FamilyBlock(FeatureColumns, f)
  {
    forall f: Field ensures FamilyBlock(FeatureColumns, f) {
      FamilyPositions(f);
    }
  }

  /** The part of the row that holds one family's indicators. */
  function FamilySlice(schema: seq<string>, raw: RawRecord, f: Field): seq<Value>
    requires f.Offset() + |f.Columns()| <= |schema|
  {
    EncodeIn(schema, raw)[f.Offset()..f.Offset() + |f.Columns()|]
  }

  /** The position of a family's `_nan` column in the row. */
  function NanPosition(f: Field): nat {
    f.Offset() + |f.Columns()| - 1
  }

  lemma FamilyEnd(schema: seq<string>, f: Field)
    requires FamilyBlock(schema, f)
    ensures f.Offset() + |f.Columns()| <= |schema|
    ensures schema[NanPosition(f)] == f.NanColumn()
  {
    FamilyBlockShape(f);
    assert schema[f.Offset() + (|f.Columns()| - 1)] == f.Columns()[|f.Columns()| - 1];
  }

  /** Every categorical value is missing, unrecognised, or names a column of its own field. */
  predicate StaysInFamily(schema: seq<string>, raw: RawRecord) {
    forall g: Field :: TargetIn(schema, raw, g) in g.Columns()
  }

  /** A column of family `f` is never the target of another field that stays in its own family. */
  lemma OtherTargetMisses(schema: seq<string>, raw: RawRecord, f: Field, g: Field, c: string)
    requires TargetIn(schema, raw, g) in g.Columns()
    requires c in f.Columns() && f != g
    ensures TargetIn(schema, raw, g) != c
  {
    FamiliesDisjoint(f, g);
    DisjointMiss(f.Columns(), g.Columns(), c);
  }

  /** A column of family `f` is set by `f`'s own block or by none. */
  lemma FamilyColumnSetter(schema: seq<string>, raw: RawRecord, f: Field, c: string)
    requires StaysInFamily(schema, raw)
    requires c in f.Columns()
    ensures SetByIn(schema, raw, c) <==> c == TargetIn(schema, raw, f)
  {
    if SetByIn(schema, raw, c) {
      var g: Field :| TargetIn(schema, raw, g) == c;
      if g != f {
        OtherTargetMisses(schema, raw, f, g, c);
      }
    }
  }

  /** Column `j` of family `f` holds 1 if the field chose it and 0 otherwise. */
  lemma FamilyColumnValue(schema: seq<string>, raw: RawRecord, f: Field, j: int)
    requires FamilyBlock(schema, f) && StaysInFamily(schema, raw)
    requires 0 <= j < |f.Columns()|
    ensures f.Offset() + j < |schema|
    ensures EncodeIn(schema, raw)[f.Offset() + j] == if f.Columns()[j] == TargetIn(schema, raw, f) then One else Zero
  {
    var c := f.Columns()[j];
    FamilyColumnExpected(schema, raw, f, j);
    FamilyColumnSetter(schema, raw, f, c);
    FamilyColumnBase(raw, f, c);
  }

  lemma FamilyColumnExpected(schema: seq<string>, raw: RawRecord, f: Field, j: int)
    requires FamilyBlock(schema, f)
    requires 0 <= j < |f.Columns()|
    ensures f.Offset() + j < |schema|
    ensures EncodeIn(schema, raw)[f.Offset() + j] == ExpectedIn(schema, raw, f.Columns()[j])
  {
    BlockColumnExpected(schema, raw, f.Offset(), f.Columns(), j);
  }

  lemma BlockColumnExpected(schema: seq<string>, raw: RawRecord, offset: nat, block: seq<string>, j: int)
    requires offset + |block| <= |schema|
    requires forall k :: 0 <= k < |block| ==> schema[offset + k] == block[k]
    requires 0 <= j < |block|
    ensures EncodeIn(schema, raw)[offset + j] == ExpectedIn(schema, raw, block[j])
  {
    EncodeAt(schema, raw, offset + j);
  }

  /** The numeric copy never touches a categorical column. */
  lemma FamilyColumnBase(raw: RawRecord, f: Field, c: string)
    requires c in f.Columns()
    ensures Base(raw, c) == Zero
  {
    NumericNotCategorical(f);
    DisjointMiss(NumericFields, f.Columns(), c);
  }

  /** The column a field's block sets holds 1. */
  lemma TargetIsOne(schema: seq<string>, raw: RawRecord, f: Field, i: int)
    requires 0 <= i < |schema| && schema[i] == TargetIn(schema, raw, f)
    ensures EncodeIn(schema, raw)[i] == One
  {
  }

  lemma EncodeAt(schema: seq<string>, raw: RawRecord, i: int)
    requires 0 <= i < |schema|
    ensures EncodeIn(schema, raw)[i] == ExpectedIn(schema, raw, schema[i])
  {
  }


  /**
    One-hot: when every value stays in its own family, each family's slice
    of the row holds 1 at the column its field chose and 0 everywhere else,
    so exactly one of its columns is 1.
  */
  lemma OneHot(schema: seq<string>, raw: RawRecord, f: Field)
    requires FamilyBlock(schema, f) && StaysInFamily(schema, raw)
    ensures f.Offset() + |f.Columns()| <= |schema|
    ensures forall j :: 0 <= j < |f.Columns()| ==>
      FamilySlice(schema, raw, f)[j] == if f.Columns()[j] == TargetIn(schema, raw, f) then One else Zero
    ensures exists j :: 0 <= j < |f.Columns()| && FamilySlice(schema, raw, f)[j] == One
    ensures forall j, j' ::
      (0 <= j < |f.Columns()| && 0 <= j' < |f.Columns()| &&
       FamilySlice(schema, raw, f)[j] == One && FamilySlice(schema, raw, f)[j'] == One) ==> j == j'
  {
    SliceIndicators(schema, raw, f);
    FamilyBlockShape(f);
    ExactlyOne(FamilySlice(schema, raw, f), f.Columns(), TargetIn(schema, raw, f));
  }

  /** Each column of a family's slice is the indicator of the family's target. */
  lemma SliceIndicators(schema: seq<string>, raw: RawRecord, f: Field)
    requires FamilyBlock(schema, f) && StaysInFamily(schema, raw)
    ensures f.Offset() + |f.Columns()| <= |schema|
    ensures |FamilySlice(schema, raw, f)| == |f.Columns()|
    ensures forall j :: 0 <= j < |f.Columns()| ==>
      FamilySlice(schema, raw, f)[j] == if f.Columns()[j] == TargetIn(schema, raw, f) then One else Zero
  {
    FamilyEnd(schema, f);
    FamilyIndicators(schema, raw, f);
    IndicatorSlice(EncodeIn(schema, raw), f.Offset(), f.Columns(), TargetIn(schema, raw, f));
  }

  lemma FamilyIndicators(schema: seq<string>, raw: RawRecord, f: Field)
    requires FamilyBlock(schema, f) && StaysInFamily(schema, raw)
    ensures f.Offset() + |f.Columns()| <= |schema|
    ensures forall j :: 0 <= j < |f.Columns()| ==>
      EncodeIn(schema, raw)[f.Offset() + j] == if f.Columns()[j] == TargetIn(schema, raw, f) then One else Zero
  {
    FamilyEnd(schema, f);
    forall j | 0 <= j < |f.Columns()|
      ensures EncodeIn(schema, raw)[f.Offset() + j] == if f.Columns()[j] == TargetIn(schema, raw, f) then One else Zero
    {
      FamilyColumnValue(schema, raw, f, j);
    }
  }

  /** Indicators found at consecutive positions of a row are the slice of the row there. */
  lemma IndicatorSlice(row: seq<Value>, offset: nat, names: seq<string>, t: string)
    requires offset + |names| <= |row|
    requires forall j :: 0 <= j < |names| ==> row[offset + j] == if names[j] == t then One else Zero
    ensures |row[offset..offset + |names|]| == |names|
    ensures forall j :: 0 <= j < |names| ==> row[offset..offset + |names|][j] == if names[j] == t then One else Zero
  {
  }

  /** Indicators over distinct names, set where the name is `t`, have exactly one 1 when `t` is among the names. */
  lemma ExactlyOne(slice: seq<Value>, names: seq<string>, t: string)
    requires Distinct(names) && t in names && |slice| == |names|
    requires forall j :: 0 <= j < |names| ==> slice[j] == if names[j] == t then One else Zero
    ensures exists j :: 0 <= j < |names| && slice[j] == One
    ensures forall j, j' ::
      (0 <= j < |names| && 0 <= j' < |names| && slice[j] == One && slice[j'] == One) ==> j == j'
  {
    var j :| 0 <= j < |names| && names[j] == t;
    assert slice[j] == One;
  }

  /**
    Numeric pass-through: when every value stays in its own family, each
    numeric column holds the record's value if the record has the field,
    and 0 if it does not.
  */
  lemma NumericPassThrough(schema: seq<string>, raw: RawRecord)
    requires NumericBlock(schema) && StaysInFamily(schema, raw)
    ensures |NumericFields| <= |EncodeIn(schema, raw)|
    ensures forall k :: 0 <= k < |NumericFields| ==>
      EncodeIn(schema, raw)[k] == if NumericFields[k] in raw then raw[NumericFields[k]] else Zero
  {
    forall k | 0 <= k < |NumericFields|
      ensures EncodeIn(schema, raw)[k] == if NumericFields[k] in raw then raw[NumericFields[k]] else Zero
    {
      NumericNotSet(schema, raw, NumericFields[k]);
    }
  }

  lemma NumericNotSet(schema: seq<string>, raw: RawRecord, c: string)
    requires StaysInFamily(schema, raw)
    requires c in NumericFields
    ensures !SetByIn(schema, raw, c)
  {
    if SetByIn(schema, raw, c) {
      var g: Field :| TargetIn(schema, raw, g) == c;
      NumericNotCategorical(g);
      DisjointMiss(NumericFields, g.Columns(), c);
    }
  }

  /** A field the record lacks, or holds as null, sets its `_nan` column. */
  lemma MissingValueSetsNan(schema: seq<string>, raw: RawRecord, f: Field)
    requires FamilyBlock(schema, f)
    requires f.Name() !in raw || raw[f.Name()] == Null
    ensures TargetIn(schema, raw, f) == f.NanColumn()
    ensures NanPosition(f) < |schema| && EncodeIn(schema, raw)[NanPosition(f)] == One
  {
    FamilyEnd(schema, f);
  }

  /** A text value whose candidate name is not a schema column sets the `_nan` column. */
  lemma UnseenValueSetsNan(schema: seq<string>, raw: RawRecord, f: Field, s: string)
    requires FamilyBlock(schema, f)
    requires f.Name() in raw && raw[f.Name()] == Text(s)
    requires (if f.CleansValue() then Clean(s) else s) !in schema
    ensures TargetIn(schema, raw, f) == f.NanColumn()
    ensures NanPosition(f) < |schema| && EncodeIn(schema, raw)[NanPosition(f)] == One
  {
    FamilyEnd(schema, f);
  }

  /**
    A number where a level name is expected sets the `_nan` column too.
    `printed` is the number as `f"{x}"` writes it: over a schema of long
    names with known initials, such as `FEATURE_COLUMNS`, neither it nor
    its cleaned form is a key, so the source falls back to `_nan` as well.
  */
  lemma NumberSetsNan(schema: seq<string>, raw: RawRecord, f: Field, x: real, printed: string)
    requires FamilyBlock(schema, f)
    requires KnownInitials(schema)
    requires forall i :: 0 <= i < |schema| ==> |schema[i]| >= 7
    requires f.Name() in raw && raw[f.Name()] == Num(x)
    requires PrintedNumber(printed)
    ensures printed !in schema && Clean(printed) !in schema
    ensures TargetIn(schema, raw, f) == f.NanColumn()
    ensures NanPosition(f) < |schema| && EncodeIn(schema, raw)[NanPosition(f)] == One
  {
    PrintedNumberMisses(schema, printed);
    FamilyEnd(schema, f);
  }

  /**
    The forms Python's `f"{x}"` gives a number of the decoded JSON: an
    integer or a float, in positional or exponent form, starts with a digit
    or a minus sign; `NaN` and `Infinity` print as `nan` and `inf`.
  */
  predicate PrintedNumber(s: string) {
    (|s| >= 1 && (s[0] == '-' || '0' <= s[0] <= '9')) || s == "nan" || s == "inf"
  }

  /**
    No printed number is a column of `FEATURE_COLUMNS`, verbatim or
    cleaned, so a number in a categorical field falls back to `_nan` in the
    source just as `Candidate` has it.
  */
  lemma PrintedNumberNamesNoColumn(s: string)
    requires PrintedNumber(s)
    ensures s !in FeatureColumns && Clean(s) !in FeatureColumns
  {
    SchemaInitials();
    SchemaLengths();
    assert KnownInitials(FeatureColumns);
    PrintedNumberMisses(FeatureColumns, s);
  }

  /** The same for any schema whose names are long enough and start with a known letter. */
  lemma PrintedNumberMisses(schema: seq<string>, s: string)
    requires KnownInitials(schema)
    requires forall i :: 0 <= i < |schema| ==> |schema[i]| >= 7
    requires PrintedNumber(s)
    ensures s !in schema && Clean(s) !in schema
  {
    if |s| >= 1 && (s[0] == '-' || '0' <= s[0] <= '9') {
      LeadingSignMisses(schema, s);
    } else {
      ShortWordMisses(schema, s);
    }
  }

  /** A name starting with a digit or a minus sign, cleaned or not, has no known initial. */
  lemma LeadingSignMisses(schema: seq<string>, s: string)
    requires KnownInitials(schema)
    requires |s| >= 1 && (s[0] == '-' || '0' <= s[0] <= '9')
    ensures s !in schema && Clean(s) !in schema
  {
    assert s !in schema by {
      InitialMisses(schema, s);
    }
    assert Clean(s) !in schema by {
      assert !IsTrigger(s[0]);
      CleanFirst(s);
      InitialMisses(schema, Clean(s));
    }
  }

  /** A name whose first character sorts before `a` has no known initial. */
  lemma InitialMisses(schema: seq<string>, t: string)
    requires KnownInitials(schema)
    requires |t| >= 1 && t[0] < 'a'
    ensures t !in schema
  {
    if t in schema {
      var i :| 0 <= i < |schema| && schema[i] == t;
      LettersAbove(schema[i][0]);
    }
  }

  lemma LettersAbove(c: char)
    requires c in "nsdvagrhi"
    ensures c >= 'a'
  {
  }

  /** `nan` and `inf` are unchanged by the cleaner and shorter than every name. */
  lemma ShortWordMisses(schema: seq<string>, s: string)
    requires forall i :: 0 <= i < |schema| ==> |schema[i]| >= 7
    requires s == "nan" || s == "inf"
    ensures s !in schema && Clean(s) !in schema
  {
    assert Normalized(s);
    CleanFixedPoints(s);
  }

  /** An unknown region falls back to `region_nan`. */
  lemma UnknownRegion(schema: seq<string>, raw: RawRecord)
    requires KnownInitials(schema)
    requires "region" in raw && raw["region"] == Text("Atlantis")
    ensures TargetIn(schema, raw, Region) == "region_nan"
  {
    AtlantisClean();
    assert "Atlantis" !in schema;
  }

  lemma AtlantisClean()
    ensures Clean("Atlantis") == "Atlantis"
  {
    assert Normalized("Atlantis");
    CleanFixedPoints("Atlantis");
  }

  /** An empty string (which the dashboard never sends) falls back to `_nan`. */
  lemma EmptySelection(schema: seq<string>, raw: RawRecord, f: Field)
    requires KnownInitials(schema)
    requires f.Name() in raw && raw[f.Name()] == Text("")
    ensures TargetIn(schema, raw, f) == f.NanColumn()
  {
    assert "" !in schema;
  }

  /**
    Training and serving agree on names: a record carrying, for field `f`,
    the raw schema name of one of its levels (which is what the dashboard
    sends) sets exactly the cleaned column the model was trained with.
  */
  lemma RawLevelSelectsItsColumn(schema: seq<string>, raw: RawRecord, f: Field, j: int)
    requires FamilyBlock(schema, f)
    requires 0 <= j < |f.RawColumns()|
    requires f.Name() in raw && raw[f.Name()] == Text(f.RawColumns()[j])
    ensures j < |f.Columns()| && TargetIn(schema, raw, f) == f.Columns()[j]
    ensures f.Offset() + j < |schema| && EncodeIn(schema, raw)[f.Offset() + j] == One
  {
    assert j < |f.Columns()| && Candidate(f, Text(f.RawColumns()[j])) == Some(f.Columns()[j]) by {
      LevelCandidate(f, j);
    }
    FamilyColumnAt(schema, f, j);
    SelectsAt(schema, raw, f, Text(f.RawColumns()[j]), f.Offset() + j);
  }

  /** A value whose candidate is the schema column at `i` sets that column to 1. */
  lemma SelectsAt(schema: seq<string>, raw: RawRecord, f: Field, v: Value, i: int)
    requires 0 <= i < |schema|
    requires f.Name() in raw && raw[f.Name()] == v
    requires Candidate(f, v) == Some(schema[i])
    ensures TargetIn(schema, raw, f) == schema[i]
    ensures EncodeIn(schema, raw)[i] == One
  {
    TargetIsOne(schema, raw, f, i);
  }

  lemma FamilyColumnAt(schema: seq<string>, f: Field, j: int)
    requires FamilyBlock(schema, f)
    requires 0 <= j < |f.Columns()|
    ensures f.Offset() + j < |schema| && schema[f.Offset() + j] == f.Columns()[j]
  {
  }

  /** What the serving side makes of a raw level name is that level's cleaned column. */
  lemma LevelCandidate(f: Field, j: int)
    requires 0 <= j < |f.RawColumns()|
    ensures j < |f.Columns()|
    ensures Candidate(f, Text(f.RawColumns()[j])) == Some(f.Columns()[j])
  {
    CleanFieldColumns(f);
    assert Clean(f.RawColumns()[j]) == f.Columns()[j];
    if !f.CleansValue() {
      VerbatimFamilies(f);
    }
  }

  /** Gender and disability levels contain nothing the cleaner rewrites. */
  lemma VerbatimFamilies(f: Field)
    requires !f.CleansValue()
    ensures f.RawColumns() == f.Columns()
  {
  }

  /**
    As written, a value naming a column of another family is honoured: a
    gender of `studied_credits` overwrites the copied credits with 1 and
    leaves no gender column chosen.
  */
  lemma CrossFamilyOverride(schema: seq<string>, raw: RawRecord)
    requires NumericBlock(schema)
    requires "gender" in raw && raw["gender"] == Text("studied_credits")
    ensures TargetIn(schema, raw, Gender) == "studied_credits"
    ensures TargetIn(schema, raw, Gender) !in Gender.Columns()
    ensures EncodeIn(schema, raw)[1] == One
  {
    assert schema[1] == NumericFields[1];
    NumericNotCategorical(Gender);
    DisjointMiss(NumericFields, Gender.Columns(), "studied_credits");
  }

  /** As written, a gender of `region_Wales` next to a Scottish region sets two region columns. */
  lemma TwoRegions(schema: seq<string>, raw: RawRecord)
    requires FamilyBlock(schema, Region)
    requires "gender" in raw && raw["gender"] == Text("region_Wales")
    requires "region" in raw && raw["region"] == Text("region_Scotland")
    ensures FamilySlice(schema, raw, Region)[6] == One
    ensures FamilySlice(schema, raw, Region)[10] == One
  {
    ScotlandSet(schema, raw);
    WalesSet(schema, raw);
  }

  lemma ScotlandSet(schema: seq<string>, raw: RawRecord)
    requires FamilyBlock(schema, Region)
    requires "region" in raw && raw["region"] == Text("region_Scotland")
    ensures EncodeIn(schema, raw)[Region.Offset() + 6] == One
  {
    assert Region.RawColumns()[6] == "region_Scotland";
    RawLevelSelectsItsColumn(schema, raw, Region, 6);
  }

  lemma WalesSet(schema: seq<string>, raw: RawRecord)
    requires FamilyBlock(schema, Region)
    requires "gender" in raw && raw["gender"] == Text("region_Wales")
    ensures EncodeIn(schema, raw)[Region.Offset() + 10] == One
  {
    RegionNamesAt(schema);
    WalesChosen(schema, raw);
    TargetIsOne(schema, raw, Gender, Region.Offset() + 10);
  }

  /** A gender value naming a schema column is taken as that column. */
  lemma WalesChosen(schema: seq<string>, raw: RawRecord)
    requires "gender" in raw && raw["gender"] == Text("region_Wales")
    requires "region_Wales" in schema
    ensures TargetIn(schema, raw, Gender) == "region_Wales"
  {
  }

  lemma RegionNamesAt(schema: seq<string>)
    requires FamilyBlock(schema, Region)
    ensures schema[Region.Offset() + 6] == "region_Scotland"
    ensures schema[Region.Offset() + 10] == "region_Wales"
  {
    assert schema[Region.Offset() + 6] == Region.Columns()[6];
    assert schema[Region.Offset() + 10] == Region.Columns()[10];
  }
}
