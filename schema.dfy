/**
  The frozen feature schema of src/app.py: the fifty column names the trained
  classifier expects, in the order it expects them, and the cleaning of
  column labels that turns the raw names into the ones the classifier knows.
*/
module Schema {
  import opened Naming

  /**
    `clean_columns` applied to a frame's column labels: every label cleaned,
    with the number and the order of the labels kept. The frame itself is
    copied, so the caller's labels are untouched; on values that is simply
    the fact that the argument is not changed. `CleanColumnsIsChain` shows
    that this is the chain of six replacements the source writes.
  */
  function CleanColumns(columns: seq<string>): (r: seq<string>)
    ensures |r| == |columns|
    ensures forall i :: 0 <= i < |r| ==> Normalized(r[i])
  {
    seq(|columns|, i requires 0 <= i < |columns| => Clean(columns[i]))
  }

  /** Each cleaned label is what the six chained replacements make of it. */
  lemma CleanColumnsIsChain(columns: seq<string>)
    ensures forall i :: 0 <= i < |columns| ==> CleanColumns(columns)[i] == ReplaceChain(columns[i])
  {
    forall i | 0 <= i < |columns| {
      ChainIsClean(columns[i]);
    }
  }

  lemma CleanColumnsByElement(columns: seq<string>, cleaned: seq<string>)
    requires |columns| == |cleaned|
    requires forall i :: 0 <= i < |columns| ==> Clean(columns[i]) == cleaned[i]
    ensures CleanColumns(columns) == cleaned
  {
  }

  /** Cleaning a list of labels cleans its two parts independently. */
  lemma CleanColumnsConcat(a: seq<string>, b: seq<string>)
    ensures CleanColumns(a + b) == CleanColumns(a) + CleanColumns(b)
  {
    var whole, parts := CleanColumns(a + b), CleanColumns(a) + CleanColumns(b);
    forall i | 0 <= i < |whole| ensures whole[i] == parts[i] {
      if i < |a| {
        assert (a + b)[i] == a[i];
        assert parts[i] == CleanColumns(a)[i];
      } else {
        assert (a + b)[i] == b[i - |a|];
        assert parts[i] == CleanColumns(b)[i - |a|];
      }
    }
  }

  /** Cleaning labels a second time changes nothing. */
  lemma CleanColumnsIdempotent(columns: seq<string>)
    ensures CleanColumns(CleanColumns(columns)) == CleanColumns(columns)
  {
    var once := CleanColumns(columns);
    forall i | 0 <= i < |once| ensures Clean(once[i]) == once[i] {
      CleanIdempotent(columns[i]);
    }
    CleanColumnsByElement(once, once);
  }

  /** The nine numeric fields: the head of the schema and the copy loop of `preprocess_input`. */
  const NumericFields: seq<string> := [
    "num_of_prev_attempts", "studied_credits", "date_registration", "vle_total_clicks",
    "vle_days_active", "vle_first14", "vle_first28", "avg_assessment_score", "n_submissions"
  ]

  // The blocks of the raw schema literal, one per categorical field: the
  // levels the training data showed, then the field's `_nan` column.

  const RawGenderColumns: seq<string> := [
    "gender_F", "gender_M", "gender_nan"
  ]

  const RawRegionColumns: seq<string> := [
    "region_East Anglian Region", "region_East Midlands Region", "region_Ireland",
    "region_London Region", "region_North Region", "region_North Western Region",
    "region_Scotland", "region_South East Region", "region_South Region",
    "region_South West Region", "region_Wales", "region_West Midlands Region",
    "region_Yorkshire Region", "region_nan"
  ]

  const RawHighestEducationColumns: seq<string> := [
    "highest_education_A Level or Equivalent", "highest_education_HE Qualification",
    "highest_education_Lower Than A Level", "highest_education_No Formal quals",
    "highest_education_Post Graduate Qualification", "highest_education_nan"
  ]

  const RawImdBandColumns: seq<string> := [
    "imd_band_0-10%", "imd_band_10-20", "imd_band_20-30%", "imd_band_30-40%",
    "imd_band_40-50%", "imd_band_50-60%", "imd_band_60-70%", "imd_band_70-80%",
    "imd_band_80-90%", "imd_band_90-100%", "imd_band_nan"
  ]

  const RawAgeBandColumns: seq<string> := [
    "age_band_0-35", "age_band_35-55", "age_band_55<=", "age_band_nan"
  ]

  const RawDisabilityColumns: seq<string> := [
    "disability_N", "disability_Y", "disability_nan"
  ]

  // The same blocks after cleaning, written out.

  const GenderColumns: seq<string> := [
    "gender_F", "gender_M", "gender_nan"
  ]

  const RegionColumns: seq<string> := [
    "region_East_Anglian_Region", "region_East_Midlands_Region", "region_Ireland",
    "region_London_Region", "region_North_Region", "region_North_Western_Region",
    "region_Scotland", "region_South_East_Region", "region_South_Region",
    "region_South_West_Region", "region_Wales", "region_West_Midlands_Region",
    "region_Yorkshire_Region", "region_nan"
  ]

  const HighestEducationColumns: seq<string> := [
    "highest_education_A_Level_or_Equivalent", "highest_education_HE_Qualification",
    "highest_education_Lower_Than_A_Level", "highest_education_No_Formal_quals",
    "highest_education_Post_Graduate_Qualification", "highest_education_nan"
  ]

  const ImdBandColumns: seq<string> := [
    "imd_band_0-10pct", "imd_band_10-20", "imd_band_20-30pct", "imd_band_30-40pct",
    "imd_band_40-50pct", "imd_band_50-60pct", "imd_band_60-70pct", "imd_band_70-80pct",
    "imd_band_80-90pct", "imd_band_90-100pct", "imd_band_nan"
  ]

  const AgeBandColumns: seq<string> := [
    "age_band_0-35", "age_band_35-55", "age_band_55lt=", "age_band_nan"
  ]

  const DisabilityColumns: seq<string> := [
    "disability_N", "disability_Y", "disability_nan"
  ]

  /** The six categorical fields, each one-hot encoded into a family of columns. */
  datatype Field = Gender | Region | HighestEducation | ImdBand | AgeBand | Disability
  {
    /** The raw record key, which is also the prefix of the family's columns. */
    function Name(): string {
      match this
      case Gender => "gender"
      case Region => "region"
      case HighestEducation => "highest_education"
      case ImdBand => "imd_band"
      case AgeBand => "age_band"
      case Disability => "disability"
    }

    /** The column that stands for a missing or unrecognised value. */
    function NanColumn(): string {
      Name() + "_nan"
    }

    /**
      Whether the serving side cleans the received value before looking it
      up; gender and disability values are looked up verbatim.
    */
    predicate CleansValue() {
      !(Gender? || Disability?)
    }

    /** Position of the family's first column in the schema. */
    function Offset(): nat {
      match this
      case Gender => 9
      case Region => 12
      case HighestEducation => 26
      case ImdBand => 32
      case AgeBand => 43
      case Disability => 47
    }

    /** The family's block of the raw schema literal. */
    function RawColumns(): seq<string> {
      match this
      case Gender => RawGenderColumns
      case Region => RawRegionColumns
      case HighestEducation => RawHighestEducationColumns
      case ImdBand => RawImdBandColumns
      case AgeBand => RawAgeBandColumns
      case Disability => RawDisabilityColumns
    }

    /** The family's block of the cleaned schema. */
    function Columns(): seq<string> {
      match this
      case Gender => GenderColumns
      case Region => RegionColumns
      case HighestEducation => HighestEducationColumns
      case ImdBand => ImdBandColumns
      case AgeBand => AgeBandColumns
      case Disability => DisabilityColumns
    }
  }

  /** The categorical fields in the order `preprocess_input` handles them. */
  const Fields: seq<Field> := [Gender, Region, HighestEducation, ImdBand, AgeBand, Disability]

  /** `_RAW_FEATURE_COLUMNS`: the numeric fields, then each family's block in turn. */
  const RawFeatureColumns: seq<string> :=
    NumericFields + RawGenderColumns + RawRegionColumns + RawHighestEducationColumns
    + RawImdBandColumns + RawAgeBandColumns + RawDisabilityColumns

  /** `FEATURE_COLUMNS`: the names the classifier was trained on, the raw list cleaned. */
  const FeatureColumns: seq<string> := CleanColumns(RawFeatureColumns)

  /** The cleaned blocks laid end to end, in schema order. */
  const CleanedLayout: seq<string> :=
    NumericFields + GenderColumns + RegionColumns + HighestEducationColumns
    + ImdBandColumns + AgeBandColumns + DisabilityColumns

  predicate Distinct(s: seq<string>) {
    forall i, j :: 0 <= i < j < |s| ==> s[i] != s[j]
  }

  /** No name of `a` is a name of `b`. */
  predicate Disjoint(a: seq<string>, b: seq<string>) {
    forall i, j :: 0 <= i < |a| && 0 <= j < |b| ==> a[i] != b[j]
  }

  predicate HasPrefix(s: string, p: string) {
    |p| <= |s| && s[..|p|] == p
  }

  /** Every name of `names` starts with `p`. */
  predicate AllPrefixed(names: seq<string>, p: string) {
    forall i :: 0 <= i < |names| ==> HasPrefix(names[i], p)
  }

  lemma DistinctConcat(a: seq<string>, b: seq<string>)
    requires Distinct(a) && Distinct(b) && Disjoint(a, b)
    ensures Distinct(a + b)
  {
    var ab := a + b;
    forall i, j | 0 <= i < j < |ab| ensures ab[i] != ab[j] {
      if j < |a| {
        assert ab[i] == a[i] && ab[j] == a[j];
      } else if i >= |a| {
        assert ab[i] == b[i - |a|] && ab[j] == b[j - |a|];
      } else {
        assert ab[i] == a[i] && ab[j] == b[j - |a|];
      }
    }
  }

  /**
    Each family's cleaned block holds distinct names, every one of them the
    field name and an underscore followed by a level, and ends in the
    family's `_nan` column.
  */
  lemma FamilyBlockShape(f: Field)
    ensures Distinct(f.Columns())
    ensures AllPrefixed(f.Columns(), f.Name() + "_")
    ensures |f.Columns()| >= 2 && f.Columns()[|f.Columns()| - 1] == f.NanColumn()
  {
    match f
    case Gender =>
      GenderColumnsDistinct();
      GenderColumnsPrefixed();
    case Region =>
      RegionColumnsDistinct();
      RegionColumnsPrefixed();
    case HighestEducation =>
      HighestEducationColumnsDistinct();
      HighestEducationColumnsPrefixed();
    case ImdBand =>
      ImdBandColumnsDistinct();
      ImdBandColumnsPrefixed();
    case AgeBand =>
      AgeBandColumnsDistinct();
      AgeBandColumnsPrefixed();
    case Disability =>
      DisabilityColumnsDistinct();
      DisabilityColumnsPrefixed();
  }

  lemma GenderColumnsDistinct()
    ensures Distinct(Gender.Columns())
    ensures |Gender.Columns()| >= 2 && Gender.Columns()[|Gender.Columns()| - 1] == Gender.NanColumn()
  {
  }

  lemma GenderColumnsPrefixed()
    ensures AllPrefixed(Gender.Columns(), Gender.Name() + "_")
  {
  }

  lemma RegionColumnsDistinct()
    ensures Distinct(Region.Columns())
    ensures |Region.Columns()| >= 2 && Region.Columns()[|Region.Columns()| - 1] == Region.NanColumn()
  {
  }

  lemma RegionColumnsPrefixed()
    ensures AllPrefixed(Region.Columns(), Region.Name() + "_")
  {
  }

  lemma HighestEducationColumnsDistinct()
    ensures Distinct(HighestEducation.Columns())
    ensures |HighestEducation.Columns()| >= 2 && HighestEducation.Columns()[|HighestEducation.Columns()| - 1] == HighestEducation.NanColumn()
  {
  }

  lemma HighestEducationColumnsPrefixed()
    ensures AllPrefixed(HighestEducation.Columns(), HighestEducation.Name() + "_")
  {
  }

  lemma ImdBandColumnsDistinct()
    ensures Distinct(ImdBand.Columns())
    ensures |ImdBand.Columns()| >= 2 && ImdBand.Columns()[|ImdBand.Columns()| - 1] == ImdBand.NanColumn()
  {
  }

  lemma ImdBandColumnsPrefixed()
    ensures AllPrefixed(ImdBand.Columns(), ImdBand.Name() + "_")
  {
  }

  lemma AgeBandColumnsDistinct()
    ensures Distinct(AgeBand.Columns())
    ensures |AgeBand.Columns()| >= 2 && AgeBand.Columns()[|AgeBand.Columns()| - 1] == AgeBand.NanColumn()
  {
  }

  lemma AgeBandColumnsPrefixed()
    ensures AllPrefixed(AgeBand.Columns(), AgeBand.Name() + "_")
  {
  }

  lemma DisabilityColumnsDistinct()
    ensures Distinct(Disability.Columns())
    ensures |Disability.Columns()| >= 2 && Disability.Columns()[|Disability.Columns()| - 1] == Disability.NanColumn()
  {
  }

  lemma DisabilityColumnsPrefixed()
    ensures AllPrefixed(Disability.Columns(), Disability.Name() + "_")
  {
  }

  /** The numeric field names are distinct. */
  lemma NumericFieldsDistinct()
    ensures Distinct(NumericFields)
  {
  }

  // No name occurs in two blocks.

  lemma NumericAgeBandDisjoint()
    ensures Disjoint(NumericFields, AgeBandColumns)
  {
  }

  lemma NumericDisabilityDisjoint()
    ensures Disjoint(NumericFields, DisabilityColumns)
  {
  }

  /** The six field names start with six different letters. */
  lemma InitialsDiffer(f: Field, g: Field)
    requires f != g
    ensures f.Name()[0] != g.Name()[0]
  {
  }

  lemma PrefixInitial(s: string, p: string)
    ensures HasPrefix(s, p) && |p| >= 1 ==> s[0] == p[0]
  {
    if HasPrefix(s, p) && |p| >= 1 {
      assert s[0] == s[..|p|][0];
    }
  }

  /**
    Names that start with one of `initials` share nothing with names that
    carry a prefix starting with another letter.
  */
  lemma InitialsSeparate(names: seq<string>, prefixed: seq<string>, p: string, initials: string)
    requires forall i :: 0 <= i < |names| ==> |names[i]| >= 1 && names[i][0] in initials
    requires AllPrefixed(prefixed, p)
    requires |p| >= 1 && p[0] !in initials
    ensures Disjoint(names, prefixed)
  {
    forall i, j | 0 <= i < |names| && 0 <= j < |prefixed| ensures names[i] != prefixed[j] {
      PrefixInitial(prefixed[j], p);
    }
  }

  /** No cleaned name belongs to two families: their prefixes already differ. */
  lemma FamiliesDisjoint(f: Field, g: Field)
    requires f != g
    ensures Disjoint(f.Columns(), g.Columns())
  {
    FamilyBlockShape(f);
    FamilyBlockShape(g);
    InitialsDiffer(f, g);
    var p, q := f.Name() + "_", g.Name() + "_";
    forall i, j | 0 <= i < |f.Columns()| && 0 <= j < |g.Columns()|
      ensures f.Columns()[i] != g.Columns()[j]
    {
      PrefixInitial(f.Columns()[i], p);
      PrefixInitial(g.Columns()[j], q);
    }
  }

  /** The letters the numeric field names start with. */
  lemma NumericInitials()
    ensures forall i :: 0 <= i < |NumericFields| ==> |NumericFields[i]| >= 1 && NumericFields[i][0] in "nsdva"
  {
  }

  /** No numeric field name is the name of a categorical column. */
  lemma NumericNotCategorical(f: Field)
    ensures Disjoint(NumericFields, f.Columns())
  {
    NumericInitials();
    match f
    case Gender =>
      GenderColumnsPrefixed();
      InitialsSeparate(NumericFields, f.Columns(), f.Name() + "_", "nsdva");
    case Region =>
      RegionColumnsPrefixed();
      InitialsSeparate(NumericFields, f.Columns(), f.Name() + "_", "nsdva");
    case HighestEducation =>
      HighestEducationColumnsPrefixed();
      InitialsSeparate(NumericFields, f.Columns(), f.Name() + "_", "nsdva");
    case ImdBand =>
      ImdBandColumnsPrefixed();
      InitialsSeparate(NumericFields, f.Columns(), f.Name() + "_", "nsdva");
    case AgeBand => NumericAgeBandDisjoint();
    case Disability => NumericDisabilityDisjoint();
  }

  /** A name of one of two disjoint lists is not a name of the other. */
  lemma DisjointMiss(a: seq<string>, b: seq<string>, c: string)
    requires Disjoint(a, b)
    ensures c in a ==> c !in b
    ensures c in b ==> c !in a
  {
  }

  lemma DisjointUnion(a: seq<string>, b: seq<string>, c: seq<string>)
    requires Disjoint(a, c) && Disjoint(b, c)
    ensures Disjoint(a + b, c)
  {
    var ab := a + b;
    forall i, j | 0 <= i < |ab| && 0 <= j < |c| ensures ab[i] != c[j] {
      if i < |a| {
        assert ab[i] == a[i];
      } else {
        assert ab[i] == b[i - |a|];
      }
    }
  }

  /** Appending a block that shares no name with any earlier block keeps names distinct. */
  lemma AppendBlock(prefix: seq<string>, last: seq<string>, block: seq<string>)
    requires Distinct(prefix + last) && Distinct(block)
    requires Disjoint(prefix, block) && Disjoint(last, block)
    ensures Distinct(prefix + last + block)
    ensures Disjoint(prefix + last, block)
  {
    DisjointUnion(prefix, last, block);
    DistinctConcat(prefix + last, block);
  }

  /** The cleaned schema, block by block, names every column once. */
  lemma CleanedLayoutDistinct()
    ensures Distinct(CleanedLayout)
  {
    var n, g, r, h := NumericFields, GenderColumns, RegionColumns, HighestEducationColumns;
    var i, a, d := ImdBandColumns, AgeBandColumns, DisabilityColumns;
    NumericFieldsDistinct();
    FamilyBlockShape(Gender);
    FamilyBlockShape(Region);
    FamilyBlockShape(HighestEducation);
    FamilyBlockShape(ImdBand);
    FamilyBlockShape(AgeBand);
    FamilyBlockShape(Disability);
    NumericBlocksDisjoint();
    FamilyBlocksDisjoint();
    SevenBlocksDistinct(n, g, r, h, i, a, d);
  }

  lemma NumericBlocksDisjoint()
    ensures Disjoint(NumericFields, GenderColumns) && Disjoint(NumericFields, RegionColumns)
    ensures Disjoint(NumericFields, HighestEducationColumns) && Disjoint(NumericFields, ImdBandColumns)
    ensures Disjoint(NumericFields, AgeBandColumns) && Disjoint(NumericFields, DisabilityColumns)
  {
    NumericNotCategorical(Gender);
    NumericNotCategorical(Region);
    NumericNotCategorical(HighestEducation);
    NumericNotCategorical(ImdBand);
    NumericNotCategorical(AgeBand);
    NumericNotCategorical(Disability);
  }

  lemma FamilyBlocksDisjoint()
    ensures Disjoint(GenderColumns, RegionColumns) && Disjoint(GenderColumns, HighestEducationColumns)
    ensures Disjoint(GenderColumns, ImdBandColumns) && Disjoint(GenderColumns, AgeBandColumns)
    ensures Disjoint(GenderColumns, DisabilityColumns)
    ensures Disjoint(RegionColumns, HighestEducationColumns) && Disjoint(RegionColumns, ImdBandColumns)
    ensures Disjoint(RegionColumns, AgeBandColumns) && Disjoint(RegionColumns, DisabilityColumns)
    ensures Disjoint(HighestEducationColumns, ImdBandColumns) && Disjoint(HighestEducationColumns, AgeBandColumns)
    ensures Disjoint(HighestEducationColumns, DisabilityColumns)
    ensures Disjoint(ImdBandColumns, AgeBandColumns) && Disjoint(ImdBandColumns, DisabilityColumns)
    ensures Disjoint(AgeBandColumns, DisabilityColumns)
  {
    FamiliesDisjoint(Gender, Region);
    FamiliesDisjoint(Gender, HighestEducation);
    FamiliesDisjoint(Gender, ImdBand);
    FamiliesDisjoint(Gender, AgeBand);
    FamiliesDisjoint(Gender, Disability);
    FamiliesDisjoint(Region, HighestEducation);
    FamiliesDisjoint(Region, ImdBand);
    FamiliesDisjoint(Region, AgeBand);
    FamiliesDisjoint(Region, Disability);
    FamiliesDisjoint(HighestEducation, ImdBand);
    FamiliesDisjoint(HighestEducation, AgeBand);
    FamiliesDisjoint(HighestEducation, Disability);
    FamiliesDisjoint(ImdBand, AgeBand);
    FamiliesDisjoint(ImdBand, Disability);
    FamiliesDisjoint(AgeBand, Disability);
  }

  /** Seven distinct, pairwise disjoint blocks laid end to end stay distinct. */
  lemma SevenBlocksDistinct(n: seq<string>, g: seq<string>, r: seq<string>, h: seq<string>,
                            i: seq<string>, a: seq<string>, d: seq<string>)
    requires Distinct(n) && Distinct(g) && Distinct(r) && Distinct(h)
    requires Distinct(i) && Distinct(a) && Distinct(d)
    requires Disjoint(n, g) && Disjoint(n, r) && Disjoint(n, h) && Disjoint(n, i) && Disjoint(n, a) && Disjoint(n, d)
    requires Disjoint(g, r) && Disjoint(g, h) && Disjoint(g, i) && Disjoint(g, a) && Disjoint(g, d)
    requires Disjoint(r, h) && Disjoint(r, i) && Disjoint(r, a) && Disjoint(r, d)
    requires Disjoint(h, i) && Disjoint(h, a) && Disjoint(h, d)
    requires Disjoint(i, a) && Disjoint(i, d) && Disjoint(a, d)
    ensures Distinct(n + g + r + h + i + a + d)
  {
    DistinctConcat(n, g);
    AppendBlock(n, g, r);
    DisjointUnion(n, g, h);
    AppendBlock(n + g, r, h);
    DisjointUnion(n, g, i);
    DisjointUnion(n + g, r, i);
    AppendBlock(n + g + r, h, i);
    DisjointUnion(n, g, a);
    DisjointUnion(n + g, r, a);
    DisjointUnion(n + g + r, h, a);
    AppendBlock(n + g + r + h, i, a);
    DisjointUnion(n, g, d);
    DisjointUnion(n + g, r, d);
    DisjointUnion(n + g + r, h, d);
    DisjointUnion(n + g + r + h, i, d);
    AppendBlock(n + g + r + h + i, a, d);
  }
}
