/**
  What the cleaner makes of the schema literal of src/app.py: the cleaned
  list, written out, and the fact that it still names every column once.
  Each raw name is split around the characters the cleaner rewrites and
  cleaned piece by piece with the lemmas of `Naming`. The many small
  per-name lemmas below exist only to keep each proof within the
  verifier's resource limit; the fact they serve is `FeatureColumnsValue`.
*/
module CleanedSchema {
  import opened Naming
  import opened Schema

  /**
    `FEATURE_COLUMNS` spelled out: the numeric fields unchanged, spaces
    become underscores, `%` becomes `pct` and `<` becomes `lt`.
  */
  lemma FeatureColumnsValue()
    ensures FeatureColumns == CleanedLayout
    ensures |FeatureColumns| == 50
  {
    var n, g, r, h := NumericFields, RawGenderColumns, RawRegionColumns, RawHighestEducationColumns;
    var i, a, d := RawImdBandColumns, RawAgeBandColumns, RawDisabilityColumns;
    CleanColumnsConcat(n + g + r + h + i + a, d);
    CleanColumnsConcat(n + g + r + h + i, a);
    CleanColumnsConcat(n + g + r + h, i);
    CleanColumnsConcat(n + g + r, h);
    CleanColumnsConcat(n + g, r);
    CleanColumnsConcat(n, g);
    CleanNumericFields();
    CleanGenderColumns();
    CleanRegionColumns();
    CleanHighestEducationColumns();
    CleanImdBandColumns();
    CleanAgeBandColumns();
    CleanDisabilityColumns();
  }

  /**
    Cleaning keeps the fifty names apart, so the row built from them has
    fifty columns. (The cleaner alone does not promise this: it maps
    `a b` and `a_b` to the same name.)
  */
  lemma FeatureColumnsDistinct()
    ensures Distinct(FeatureColumns)
  {
    FeatureColumnsValue();
    CleanedLayoutDistinct();
  }

  /** Each family's block of `FEATURE_COLUMNS` is its raw block cleaned. */
  lemma CleanFieldColumns(f: Field)
    ensures CleanColumns(f.RawColumns()) == f.Columns()
  {
    match f
    case Gender => CleanGenderColumns();
    case Region => CleanRegionColumns();
    case HighestEducation => CleanHighestEducationColumns();
    case ImdBand => CleanImdBandColumns();
    case AgeBand => CleanAgeBandColumns();
    case Disability => CleanDisabilityColumns();
  }

  /** The numeric fields head the schema. */
  lemma NumericPositions()
    ensures forall k :: 0 <= k < |NumericFields| ==> FeatureColumns[k] == NumericFields[k]
  {
    FeatureColumnsValue();
  }

  /** Each family's cleaned block sits in the schema from the family's offset on. */
  lemma FamilyPositions(f: Field)
    ensures f.Offset() + |f.Columns()| <= |FeatureColumns|
    ensures forall j :: 0 <= j < |f.Columns()| ==> FeatureColumns[f.Offset() + j] == f.Columns()[j]
  {
    FeatureColumnsValue();
    LayoutPositions(f);
  }

  lemma LayoutPositions(f: Field)
    ensures f.Offset() + |f.Columns()| <= |CleanedLayout|
    ensures forall j :: 0 <= j < |f.Columns()| ==> CleanedLayout[f.Offset() + j] == f.Columns()[j]
  {
    var n, g, r, h := NumericFields, GenderColumns, RegionColumns, HighestEducationColumns;
    var i, a, d := ImdBandColumns, AgeBandColumns, DisabilityColumns;
    assert |n| == 9 && |g| == 3 && |r| == 14 && |h| == 6 && |i| == 11 && |a| == 4 && |d| == 3;
    match f
    case Gender => BlockAt(n, g, r, h, i, a, d);
    case Region => BlockAt(n + g, r, h, i, a, d, []);
    case HighestEducation => BlockAt(n + g + r, h, i, a, d, [], []);
    case ImdBand => BlockAt(n + g + r + h, i, a, d, [], [], []);
    case AgeBand => BlockAt(n + g + r + h + i, a, d, [], [], [], []);
    case Disability => BlockAt(n + g + r + h + i + a, d, [], [], [], [], []);
  }

  /** The second of seven blocks laid end to end starts where the first ends. */
  lemma BlockAt(before: seq<string>, block: seq<string>, s1: seq<string>, s2: seq<string>,
                s3: seq<string>, s4: seq<string>, s5: seq<string>)
    ensures |before| + |block| <= |before + block + s1 + s2 + s3 + s4 + s5|
    ensures forall j :: 0 <= j < |block| ==> (before + block + s1 + s2 + s3 + s4 + s5)[|before| + j] == block[j]
  {
    var whole := before + block + s1 + s2 + s3 + s4 + s5;
    forall j | 0 <= j < |block| ensures whole[|before| + j] == block[j] {
      var k := |before| + j;
      assert whole[k] == (before + block + s1 + s2 + s3 + s4)[k];
      assert (before + block + s1 + s2 + s3 + s4)[k] == (before + block + s1 + s2 + s3)[k];
      assert (before + block + s1 + s2 + s3)[k] == (before + block + s1 + s2)[k];
      assert (before + block + s1 + s2)[k] == (before + block + s1)[k];
      assert (before + block + s1)[k] == (before + block)[k];
    }
  }

  /** Every cleaned column of a family starts with the family's initial. */
  lemma FamilyInitial(f: Field, j: int)
    requires 0 <= j < |f.Columns()|
    ensures |f.Columns()[j]| >= 1 && f.Columns()[j][0] == f.Name()[0]
    ensures f.Name()[0] in "nsdvagrhi"
  {
    FamilyBlockShape(f);
    PrefixInitial(f.Columns()[j], f.Name() + "_");
  }

  /** The schema's names all start with one of a few lower-case letters. */
  lemma SchemaInitials()
    ensures forall i :: 0 <= i < |FeatureColumns| ==> |FeatureColumns[i]| >= 1 && FeatureColumns[i][0] in "nsdvagrhi"
  {
    FeatureColumnsValue();
    NumericPositions();
    NumericInitials();
    forall i | 0 <= i < |FeatureColumns|
      ensures |FeatureColumns[i]| >= 1 && FeatureColumns[i][0] in "nsdvagrhi"
    {
      var f := if i < 12 then Gender else if i < 26 then Region else if i < 32 then HighestEducation
        else if i < 43 then ImdBand else if i < 47 then AgeBand else Disability;
      if i >= 9 {
        FamilyPositions(f);
        FamilyInitial(f, i - f.Offset());
      }
    }
  }


  /** Every schema name is at least seven characters long. */
  lemma SchemaLengths()
    ensures forall i :: 0 <= i < |FeatureColumns| ==> |FeatureColumns[i]| >= 7
  {
    FeatureColumnsValue();
    NumericPositions();
    assert forall k :: 0 <= k < |NumericFields| ==> |NumericFields[k]| >= 7;
    forall i | 0 <= i < |FeatureColumns|
      ensures |FeatureColumns[i]| >= 7
    {
      var f := if i < 12 then Gender else if i < 26 then Region else if i < 32 then HighestEducation
        else if i < 43 then ImdBand else if i < 47 then AgeBand else Disability;
      if i >= 9 {
        FamilyPositions(f);
        FamilyLength(f, i - f.Offset());
      }
    }
  }

  /** A family column is longer than its field name, which it carries with an underscore. */
  lemma FamilyLength(f: Field, j: int)
    requires 0 <= j < |f.Columns()|
    ensures |f.Columns()[j]| >= |f.Name()| + 1 >= 7
  {
    FamilyBlockShape(f);
    assert HasPrefix(f.Columns()[j], f.Name() + "_");
  }

  /** The numeric field names contain nothing the cleaner rewrites. */
  lemma CleanNumericFields()
    ensures CleanColumns(NumericFields) == NumericFields
  {
    forall i | 0 <= i < |NumericFields| ensures Clean(NumericFields[i]) == NumericFields[i] {
      if i == 0 {
        NumericNumOfPrevAttemptsUnchanged();
      } else if i == 1 {
        NumericStudiedCreditsUnchanged();
      } else if i == 2 {
        NumericDateRegistrationUnchanged();
      } else if i == 3 {
        NumericVleTotalClicksUnchanged();
      } else if i == 4 {
        NumericVleDaysActiveUnchanged();
      } else if i == 5 {
        NumericVleFirst14Unchanged();
      } else if i == 6 {
        NumericVleFirst28Unchanged();
      } else if i == 7 {
        NumericAvgAssessmentScoreUnchanged();
      } else {
        NumericNSubmissionsUnchanged();
      }
    }
    CleanColumnsByElement(NumericFields, NumericFields);
  }

  lemma NumericNumOfPrevAttemptsUnchanged()
    ensures Clean(NumericFields[0]) == NumericFields[0]
  {
    assert NumericFields[0] == "num_of_prev_attempts";
    assert Normalized("num_of_prev_attempts");
    CleanFixedPoints("num_of_prev_attempts");
  }

  lemma NumericStudiedCreditsUnchanged()
    ensures Clean(NumericFields[1]) == NumericFields[1]
  {
    assert NumericFields[1] == "studied_credits";
    assert Normalized("studied_credits");
    CleanFixedPoints("studied_credits");
  }

  lemma NumericDateRegistrationUnchanged()
    ensures Clean(NumericFields[2]) == NumericFields[2]
  {
    assert NumericFields[2] == "date_registration";
    assert Normalized("date_registration");
    CleanFixedPoints("date_registration");
  }

  lemma NumericVleTotalClicksUnchanged()
    ensures Clean(NumericFields[3]) == NumericFields[3]
  {
    assert NumericFields[3] == "vle_total_clicks";
    assert Normalized("vle_total_clicks");
    CleanFixedPoints("vle_total_clicks");
  }

  lemma NumericVleDaysActiveUnchanged()
    ensures Clean(NumericFields[4]) == NumericFields[4]
  {
    assert NumericFields[4] == "vle_days_active";
    assert Normalized("vle_days_active");
    CleanFixedPoints("vle_days_active");
  }

  lemma NumericVleFirst14Unchanged()
    ensures Clean(NumericFields[5]) == NumericFields[5]
  {
    assert NumericFields[5] == "vle_first14";
    assert Normalized("vle_first14");
    CleanFixedPoints("vle_first14");
  }

  lemma NumericVleFirst28Unchanged()
    ensures Clean(NumericFields[6]) == NumericFields[6]
  {
    assert NumericFields[6] == "vle_first28";
    assert Normalized("vle_first28");
    CleanFixedPoints("vle_first28");
  }

  lemma NumericAvgAssessmentScoreUnchanged()
    ensures Clean(NumericFields[7]) == NumericFields[7]
  {
    assert NumericFields[7] == "avg_assessment_score";
    assert Normalized("avg_assessment_score");
    CleanFixedPoints("avg_assessment_score");
  }

  lemma NumericNSubmissionsUnchanged()
    ensures Clean(NumericFields[8]) == NumericFields[8]
  {
    assert NumericFields[8] == "n_submissions";
    assert Normalized("n_submissions");
    CleanFixedPoints("n_submissions");
  }

  /** What the cleaner makes of the gender block. */
  lemma CleanGenderColumns()
    ensures CleanColumns(RawGenderColumns) == GenderColumns
  {
    forall i | 0 <= i < |RawGenderColumns| ensures Clean(RawGenderColumns[i]) == GenderColumns[i] {
      if i == 0 {
        GenderFUnchanged();
      } else if i == 1 {
        GenderMUnchanged();
      } else {
        GenderNanUnchanged();
      }
    }
    CleanColumnsByElement(RawGenderColumns, GenderColumns);
  }

  lemma GenderFUnchanged()
    ensures Clean(RawGenderColumns[0]) == GenderColumns[0]
  {
    assert RawGenderColumns[0] == "gender_F";
    assert GenderColumns[0] == "gender_F";
    assert Normalized("gender_F");
    CleanFixedPoints("gender_F");
  }

  lemma GenderMUnchanged()
    ensures Clean(RawGenderColumns[1]) == GenderColumns[1]
  {
    assert RawGenderColumns[1] == "gender_M";
    assert GenderColumns[1] == "gender_M";
    assert Normalized("gender_M");
    CleanFixedPoints("gender_M");
  }

  lemma GenderNanUnchanged()
    ensures Clean(RawGenderColumns[2]) == GenderColumns[2]
  {
    assert RawGenderColumns[2] == "gender_nan";
    assert GenderColumns[2] == "gender_nan";
    assert Normalized("gender_nan");
    CleanFixedPoints("gender_nan");
  }

  /** What the cleaner makes of the region block. */
  lemma CleanRegionColumns()
    ensures CleanColumns(RawRegionColumns) == RegionColumns
  {
    forall i | 0 <= i < |RawRegionColumns| ensures Clean(RawRegionColumns[i]) == RegionColumns[i] {
      if i == 0 {
        RegionEastAnglianRegionCleaned();
      } else if i == 1 {
        RegionEastMidlandsRegionCleaned();
      } else if i == 2 {
        RegionIrelandUnchanged();
      } else if i == 3 {
        RegionLondonRegionCleaned();
      } else if i == 4 {
        RegionNorthRegionCleaned();
      } else if i == 5 {
        RegionNorthWesternRegionCleaned();
      } else if i == 6 {
        RegionScotlandUnchanged();
      } else if i == 7 {
        RegionSouthEastRegionCleaned();
      } else if i == 8 {
        RegionSouthRegionCleaned();
      } else if i == 9 {
        RegionSouthWestRegionCleaned();
      } else if i == 10 {
        RegionWalesUnchanged();
      } else if i == 11 {
        RegionWestMidlandsRegionCleaned();
      } else if i == 12 {
        RegionYorkshireRegionCleaned();
      } else {
        RegionNanUnchanged();
      }
    }
    CleanColumnsByElement(RawRegionColumns, RegionColumns);
  }

  lemma RegionEastAnglianRegionCleaned()
    ensures Clean(RawRegionColumns[0]) == RegionColumns[0]
  {
    assert RawRegionColumns[0] == "region_East Anglian Region";
    assert RegionColumns[0] == "region_East_Anglian_Region";
    RegionEastAnglianRegionPieces();
    RegionEastAnglianRegionJoined();
    CleanTwoTriggers("region_East Anglian Region", "region_East", ' ', "Anglian", ' ', "Region");
    assert CleanChar(' ') == "_";
  }

  lemma RegionEastAnglianRegionPieces()
    ensures "region_East Anglian Region" == "region_East" + [' '] + ("Anglian" + [' '] + "Region")
    ensures Normalized("region_East") && Normalized("Anglian") && Normalized("Region")
  {
  }

  lemma RegionEastAnglianRegionJoined()
    ensures "region_East_Anglian_Region" == "region_East" + "_" + ("Anglian" + "_" + "Region")
  {
  }

  lemma RegionEastMidlandsRegionCleaned()
    ensures Clean(RawRegionColumns[1]) == RegionColumns[1]
  {
    assert RawRegionColumns[1] == "region_East Midlands Region";
    assert RegionColumns[1] == "region_East_Midlands_Region";
    RegionEastMidlandsRegionPieces();
    RegionEastMidlandsRegionJoined();
    CleanTwoTriggers("region_East Midlands Region", "region_East", ' ', "Midlands", ' ', "Region");
    assert CleanChar(' ') == "_";
  }

  lemma RegionEastMidlandsRegionPieces()
    ensures "region_East Midlands Region" == "region_East" + [' '] + ("Midlands" + [' '] + "Region")
    ensures Normalized("region_East") && Normalized("Midlands") && Normalized("Region")
  {
  }

  lemma RegionEastMidlandsRegionJoined()
    ensures "region_East_Midlands_Region" == "region_East" + "_" + ("Midlands" + "_" + "Region")
  {
  }

  lemma RegionIrelandUnchanged()
    ensures Clean(RawRegionColumns[2]) == RegionColumns[2]
  {
    assert RawRegionColumns[2] == "region_Ireland";
    assert RegionColumns[2] == "region_Ireland";
    assert Normalized("region_Ireland");
    CleanFixedPoints("region_Ireland");
  }

  lemma RegionLondonRegionCleaned()
    ensures Clean(RawRegionColumns[3]) == RegionColumns[3]
  {
    assert RawRegionColumns[3] == "region_London Region";
    assert RegionColumns[3] == "region_London_Region";
    RegionLondonRegionPieces();
    RegionLondonRegionJoined();
    CleanOneTrigger("region_London Region", "region_London", ' ', "Region");
    assert CleanChar(' ') == "_";
  }

  lemma RegionLondonRegionPieces()
    ensures "region_London Region" == "region_London" + [' '] + "Region"
    ensures Normalized("region_London") && Normalized("Region")
  {
  }

  lemma RegionLondonRegionJoined()
    ensures "region_London_Region" == "region_London" + "_" + "Region"
  {
  }

  lemma RegionNorthRegionCleaned()
    ensures Clean(RawRegionColumns[4]) == RegionColumns[4]
  {
    assert RawRegionColumns[4] == "region_North Region";
    assert RegionColumns[4] == "region_North_Region";
    RegionNorthRegionPieces();
    RegionNorthRegionJoined();
    CleanOneTrigger("region_North Region", "region_North", ' ', "Region");
    assert CleanChar(' ') == "_";
  }

  lemma RegionNorthRegionPieces()
    ensures "region_North Region" == "region_North" + [' '] + "Region"
    ensures Normalized("region_North") && Normalized("Region")
  {
  }

  lemma RegionNorthRegionJoined()
    ensures "region_North_Region" == "region_North" + "_" + "Region"
  {
  }

  lemma RegionNorthWesternRegionCleaned()
    ensures Clean(RawRegionColumns[5]) == RegionColumns[5]
  {
    assert RawRegionColumns[5] == "region_North Western Region";
    assert RegionColumns[5] == "region_North_Western_Region";
    RegionNorthWesternRegionPieces();
    RegionNorthWesternRegionJoined();
    CleanTwoTriggers("region_North Western Region", "region_North", ' ', "Western", ' ', "Region");
    assert CleanChar(' ') == "_";
  }

  lemma RegionNorthWesternRegionPieces()
    ensures "region_North Western Region" == "region_North" + [' '] + ("Western" + [' '] + "Region")
    ensures Normalized("region_North") && Normalized("Western") && Normalized("Region")
  {
  }

  lemma RegionNorthWesternRegionJoined()
    ensures "region_North_Western_Region" == "region_North" + "_" + ("Western" + "_" + "Region")
  {
  }

  lemma RegionScotlandUnchanged()
    ensures Clean(RawRegionColumns[6]) == RegionColumns[6]
  {
    assert RawRegionColumns[6] == "region_Scotland";
    assert RegionColumns[6] == "region_Scotland";
    assert Normalized("region_Scotland");
    CleanFixedPoints("region_Scotland");
  }

  lemma RegionSouthEastRegionCleaned()
    ensures Clean(RawRegionColumns[7]) == RegionColumns[7]
  {
    assert RawRegionColumns[7] == "region_South East Region";
    assert RegionColumns[7] == "region_South_East_Region";
    RegionSouthEastRegionPieces();
    RegionSouthEastRegionJoined();
    CleanTwoTriggers("region_South East Region", "region_South", ' ', "East", ' ', "Region");
    assert CleanChar(' ') == "_";
  }

  lemma RegionSouthEastRegionPieces()
    ensures "region_South East Region" == "region_South" + [' '] + ("East" + [' '] + "Region")
    ensures Normalized("region_South") && Normalized("East") && Normalized("Region")
  {
  }

  lemma RegionSouthEastRegionJoined()
    ensures "region_South_East_Region" == "region_South" + "_" + ("East" + "_" + "Region")
  {
  }

  lemma RegionSouthRegionCleaned()
    ensures Clean(RawRegionColumns[8]) == RegionColumns[8]
  {
    assert RawRegionColumns[8] == "region_South Region";
    assert RegionColumns[8] == "region_South_Region";
    RegionSouthRegionPieces();
    RegionSouthRegionJoined();
    CleanOneTrigger("region_South Region", "region_South", ' ', "Region");
    assert CleanChar(' ') == "_";
  }

  lemma RegionSouthRegionPieces()
    ensures "region_South Region" == "region_South" + [' '] + "Region"
    ensures Normalized("region_South") && Normalized("Region")
  {
  }

  lemma RegionSouthRegionJoined()
    ensures "region_South_Region" == "region_South" + "_" + "Region"
  {
  }

  lemma RegionSouthWestRegionCleaned()
    ensures Clean(RawRegionColumns[9]) == RegionColumns[9]
  {
    assert RawRegionColumns[9] == "region_South West Region";
    assert RegionColumns[9] == "region_South_West_Region";
    RegionSouthWestRegionPieces();
    RegionSouthWestRegionJoined();
    CleanTwoTriggers("region_South West Region", "region_South", ' ', "West", ' ', "Region");
    assert CleanChar(' ') == "_";
  }

  lemma RegionSouthWestRegionPieces()
    ensures "region_South West Region" == "region_South" + [' '] + ("West" + [' '] + "Region")
    ensures Normalized("region_South") && Normalized("West") && Normalized("Region")
  {
  }

  lemma RegionSouthWestRegionJoined()
    ensures "region_South_West_Region" == "region_South" + "_" + ("West" + "_" + "Region")
  {
  }

  lemma RegionWalesUnchanged()
    ensures Clean(RawRegionColumns[10]) == RegionColumns[10]
  {
    assert RawRegionColumns[10] == "region_Wales";
    assert RegionColumns[10] == "region_Wales";
    assert Normalized("region_Wales");
    CleanFixedPoints("region_Wales");
  }

  lemma RegionWestMidlandsRegionCleaned()
    ensures Clean(RawRegionColumns[11]) == RegionColumns[11]
  {
    assert RawRegionColumns[11] == "region_West Midlands Region";
    assert RegionColumns[11] == "region_West_Midlands_Region";
    RegionWestMidlandsRegionPieces();
    RegionWestMidlandsRegionJoined();
    CleanTwoTriggers("region_West Midlands Region", "region_West", ' ', "Midlands", ' ', "Region");
    assert CleanChar(' ') == "_";
  }

  lemma RegionWestMidlandsRegionPieces()
    ensures "region_West Midlands Region" == "region_West" + [' '] + ("Midlands" + [' '] + "Region")
    ensures Normalized("region_West") && Normalized("Midlands") && Normalized("Region")
  {
  }

  lemma RegionWestMidlandsRegionJoined()
    ensures "region_West_Midlands_Region" == "region_West" + "_" + ("Midlands" + "_" + "Region")
  {
  }

  lemma RegionYorkshireRegionCleaned()
    ensures Clean(RawRegionColumns[12]) == RegionColumns[12]
  {
    assert RawRegionColumns[12] == "region_Yorkshire Region";
    assert RegionColumns[12] == "region_Yorkshire_Region";
    RegionYorkshireRegionPieces();
    RegionYorkshireRegionJoined();
    CleanOneTrigger("region_Yorkshire Region", "region_Yorkshire", ' ', "Region");
    assert CleanChar(' ') == "_";
  }

  lemma RegionYorkshireRegionPieces()
    ensures "region_Yorkshire Region" == "region_Yorkshire" + [' '] + "Region"
    ensures Normalized("region_Yorkshire") && Normalized("Region")
  {
  }

  lemma RegionYorkshireRegionJoined()
    ensures "region_Yorkshire_Region" == "region_Yorkshire" + "_" + "Region"
  {
  }

  lemma RegionNanUnchanged()
    ensures Clean(RawRegionColumns[13]) == RegionColumns[13]
  {
    assert RawRegionColumns[13] == "region_nan";
    assert RegionColumns[13] == "region_nan";
    assert Normalized("region_nan");
    CleanFixedPoints("region_nan");
  }

  /** What the cleaner makes of the highest education block. */
  lemma CleanHighestEducationColumns()
    ensures CleanColumns(RawHighestEducationColumns) == HighestEducationColumns
  {
    forall i | 0 <= i < |RawHighestEducationColumns| ensures Clean(RawHighestEducationColumns[i]) == HighestEducationColumns[i] {
      if i == 0 {
        HighestEducationALevelOrEquivalentCleaned();
      } else if i == 1 {
        HighestEducationHEQualificationCleaned();
      } else if i == 2 {
        HighestEducationLowerThanALevelCleaned();
      } else if i == 3 {
        HighestEducationNoFormalQualsCleaned();
      } else if i == 4 {
        HighestEducationPostGraduateQualificationCleaned();
      } else {
        HighestEducationNanUnchanged();
      }
    }
    CleanColumnsByElement(RawHighestEducationColumns, HighestEducationColumns);
  }

  lemma HighestEducationALevelOrEquivalentCleaned()
    ensures Clean(RawHighestEducationColumns[0]) == HighestEducationColumns[0]
  {
    assert RawHighestEducationColumns[0] == "highest_education_A Level or Equivalent";
    assert HighestEducationColumns[0] == "highest_education_A_Level_or_Equivalent";
    HighestEducationALevelOrEquivalentPieces();
    HighestEducationALevelOrEquivalentJoined();
    CleanThreeTriggers("highest_education_A Level or Equivalent", "highest_education_A", ' ', "Level", ' ', "or", ' ', "Equivalent");
    assert CleanChar(' ') == "_";
  }

  lemma HighestEducationALevelOrEquivalentPieces()
    ensures "highest_education_A Level or Equivalent" == "highest_education_A" + [' '] + ("Level" + [' '] + ("or" + [' '] + "Equivalent"))
    ensures Normalized("highest_education_A") && Normalized("Level") && Normalized("or") && Normalized("Equivalent")
  {
  }

  lemma HighestEducationALevelOrEquivalentJoined()
    ensures "highest_education_A_Level_or_Equivalent" == "highest_education_A" + "_" + ("Level" + "_" + ("or" + "_" + "Equivalent"))
  {
  }

  lemma HighestEducationHEQualificationCleaned()
    ensures Clean(RawHighestEducationColumns[1]) == HighestEducationColumns[1]
  {
    assert RawHighestEducationColumns[1] == "highest_education_HE Qualification";
    assert HighestEducationColumns[1] == "highest_education_HE_Qualification";
    HighestEducationHEQualificationPieces();
    HighestEducationHEQualificationJoined();
    CleanOneTrigger("highest_education_HE Qualification", "highest_education_HE", ' ', "Qualification");
    assert CleanChar(' ') == "_";
  }

  lemma HighestEducationHEQualificationPieces()
    ensures "highest_education_HE Qualification" == "highest_education_HE" + [' '] + "Qualification"
    ensures Normalized("highest_education_HE") && Normalized("Qualification")
  {
  }

  lemma HighestEducationHEQualificationJoined()
    ensures "highest_education_HE_Qualification" == "highest_education_HE" + "_" + "Qualification"
  {
  }

  lemma HighestEducationLowerThanALevelCleaned()
    ensures Clean(RawHighestEducationColumns[2]) == HighestEducationColumns[2]
  {
    assert RawHighestEducationColumns[2] == "highest_education_Lower Than A Level";
    assert HighestEducationColumns[2] == "highest_education_Lower_Than_A_Level";
    HighestEducationLowerThanALevelPieces();
    HighestEducationLowerThanALevelJoined();
    CleanThreeTriggers("highest_education_Lower Than A Level", "highest_education_Lower", ' ', "Than", ' ', "A", ' ', "Level");
    assert CleanChar(' ') == "_";
  }

  lemma HighestEducationLowerThanALevelPieces()
    ensures "highest_education_Lower Than A Level" == "highest_education_Lower" + [' '] + ("Than" + [' '] + ("A" + [' '] + "Level"))
    ensures Normalized("highest_education_Lower") && Normalized("Than") && Normalized("A") && Normalized("Level")
  {
  }

  lemma HighestEducationLowerThanALevelJoined()
    ensures "highest_education_Lower_Than_A_Level" == "highest_education_Lower" + "_" + ("Than" + "_" + ("A" + "_" + "Level"))
  {
  }

  lemma HighestEducationNoFormalQualsCleaned()
    ensures Clean(RawHighestEducationColumns[3]) == HighestEducationColumns[3]
  {
    assert RawHighestEducationColumns[3] == "highest_education_No Formal quals";
    assert HighestEducationColumns[3] == "highest_education_No_Formal_quals";
    HighestEducationNoFormalQualsPieces();
    HighestEducationNoFormalQualsJoined();
    CleanTwoTriggers("highest_education_No Formal quals", "highest_education_No", ' ', "Formal", ' ', "quals");
    assert CleanChar(' ') == "_";
  }

  lemma HighestEducationNoFormalQualsPieces()
    ensures "highest_education_No Formal quals" == "highest_education_No" + [' '] + ("Formal" + [' '] + "quals")
    ensures Normalized("highest_education_No") && Normalized("Formal") && Normalized("quals")
  {
  }

  lemma HighestEducationNoFormalQualsJoined()
    ensures "highest_education_No_Formal_quals" == "highest_education_No" + "_" + ("Formal" + "_" + "quals")
  {
  }

  lemma HighestEducationPostGraduateQualificationCleaned()
    ensures Clean(RawHighestEducationColumns[4]) == HighestEducationColumns[4]
  {
    assert RawHighestEducationColumns[4] == "highest_education_Post Graduate Qualification";
    assert HighestEducationColumns[4] == "highest_education_Post_Graduate_Qualification";
    HighestEducationPostGraduateQualificationPieces();
    HighestEducationPostGraduateQualificationJoined();
    CleanTwoTriggers("highest_education_Post Graduate Qualification", "highest_education_Post", ' ', "Graduate", ' ', "Qualification");
    assert CleanChar(' ') == "_";
  }

  lemma HighestEducationPostGraduateQualificationPieces()
    ensures "highest_education_Post Graduate Qualification" == "highest_education_Post" + [' '] + ("Graduate" + [' '] + "Qualification")
    ensures Normalized("highest_education_Post") && Normalized("Graduate") && Normalized("Qualification")
  {
  }

  lemma HighestEducationPostGraduateQualificationJoined()
    ensures "highest_education_Post_Graduate_Qualification" == "highest_education_Post" + "_" + ("Graduate" + "_" + "Qualification")
  {
  }

  lemma HighestEducationNanUnchanged()
    ensures Clean(RawHighestEducationColumns[5]) == HighestEducationColumns[5]
  {
    assert RawHighestEducationColumns[5] == "highest_education_nan";
    assert HighestEducationColumns[5] == "highest_education_nan";
    assert Normalized("highest_education_nan");
    CleanFixedPoints("highest_education_nan");
  }

  /** What the cleaner makes of the deprivation band block. */
  lemma CleanImdBandColumns()
    ensures CleanColumns(RawImdBandColumns) == ImdBandColumns
  {
    forall i | 0 <= i < |RawImdBandColumns| ensures Clean(RawImdBandColumns[i]) == ImdBandColumns[i] {
      if i == 0 {
        ImdBand0To10Cleaned();
      } else if i == 1 {
        ImdBand10To20Unchanged();
      } else if i == 2 {
        ImdBand20To30Cleaned();
      } else if i == 3 {
        ImdBand30To40Cleaned();
      } else if i == 4 {
        ImdBand40To50Cleaned();
      } else if i == 5 {
        ImdBand50To60Cleaned();
      } else if i == 6 {
        ImdBand60To70Cleaned();
      } else if i == 7 {
        ImdBand70To80Cleaned();
      } else if i == 8 {
        ImdBand80To90Cleaned();
      } else if i == 9 {
        ImdBand90To100Cleaned();
      } else {
        ImdBandNanUnchanged();
      }
    }
    CleanColumnsByElement(RawImdBandColumns, ImdBandColumns);
  }

  lemma ImdBand0To10Cleaned()
    ensures Clean(RawImdBandColumns[0]) == ImdBandColumns[0]
  {
    assert RawImdBandColumns[0] == "imd_band_0-10%";
    assert ImdBandColumns[0] == "imd_band_0-10pct";
    ImdBand0To10Pieces();
    ImdBand0To10Joined();
    CleanOneTrigger("imd_band_0-10%", "imd_band_0-10", '%', "");
    assert CleanChar('%') == "pct";
  }

  lemma ImdBand0To10Pieces()
    ensures "imd_band_0-10%" == "imd_band_0-10" + ['%'] + ""
    ensures Normalized("imd_band_0-10") && Normalized("")
  {
  }

  lemma ImdBand0To10Joined()
    ensures "imd_band_0-10pct" == "imd_band_0-10" + "pct" + ""
  {
  }

  lemma ImdBand10To20Unchanged()
    ensures Clean(RawImdBandColumns[1]) == ImdBandColumns[1]
  {
    assert RawImdBandColumns[1] == "imd_band_10-20";
    assert ImdBandColumns[1] == "imd_band_10-20";
    assert Normalized("imd_band_10-20");
    CleanFixedPoints("imd_band_10-20");
  }

  lemma ImdBand20To30Cleaned()
    ensures Clean(RawImdBandColumns[2]) == ImdBandColumns[2]
  {
    assert RawImdBandColumns[2] == "imd_band_20-30%";
    assert ImdBandColumns[2] == "imd_band_20-30pct";
    ImdBand20To30Pieces();
    ImdBand20To30Joined();
    CleanOneTrigger("imd_band_20-30%", "imd_band_20-30", '%', "");
    assert CleanChar('%') == "pct";
  }

  lemma ImdBand20To30Pieces()
    ensures "imd_band_20-30%" == "imd_band_20-30" + ['%'] + ""
    ensures Normalized("imd_band_20-30") && Normalized("")
  {
  }

  lemma ImdBand20To30Joined()
    ensures "imd_band_20-30pct" == "imd_band_20-30" + "pct" + ""
  {
  }

  lemma ImdBand30To40Cleaned()
    ensures Clean(RawImdBandColumns[3]) == ImdBandColumns[3]
  {
    assert RawImdBandColumns[3] == "imd_band_30-40%";
    assert ImdBandColumns[3] == "imd_band_30-40pct";
    ImdBand30To40Pieces();
    ImdBand30To40Joined();
    CleanOneTrigger("imd_band_30-40%", "imd_band_30-40", '%', "");
    assert CleanChar('%') == "pct";
  }

  lemma ImdBand30To40Pieces()
    ensures "imd_band_30-40%" == "imd_band_30-40" + ['%'] + ""
    ensures Normalized("imd_band_30-40") && Normalized("")
  {
  }

  lemma ImdBand30To40Joined()
    ensures "imd_band_30-40pct" == "imd_band_30-40" + "pct" + ""
  {
  }

  lemma ImdBand40To50Cleaned()
    ensures Clean(RawImdBandColumns[4]) == ImdBandColumns[4]
  {
    assert RawImdBandColumns[4] == "imd_band_40-50%";
    assert ImdBandColumns[4] == "imd_band_40-50pct";
    ImdBand40To50Pieces();
    ImdBand40To50Joined();
    CleanOneTrigger("imd_band_40-50%", "imd_band_40-50", '%', "");
    assert CleanChar('%') == "pct";
  }

  lemma ImdBand40To50Pieces()
    ensures "imd_band_40-50%" == "imd_band_40-50" + ['%'] + ""
    ensures Normalized("imd_band_40-50") && Normalized("")
  {
  }

  lemma ImdBand40To50Joined()
    ensures "imd_band_40-50pct" == "imd_band_40-50" + "pct" + ""
  {
  }

  lemma ImdBand50To60Cleaned()
    ensures Clean(RawImdBandColumns[5]) == ImdBandColumns[5]
  {
    assert RawImdBandColumns[5] == "imd_band_50-60%";
    assert ImdBandColumns[5] == "imd_band_50-60pct";
    ImdBand50To60Pieces();
    ImdBand50To60Joined();
    CleanOneTrigger("imd_band_50-60%", "imd_band_50-60", '%', "");
    assert CleanChar('%') == "pct";
  }

  lemma ImdBand50To60Pieces()
    ensures "imd_band_50-60%" == "imd_band_50-60" + ['%'] + ""
    ensures Normalized("imd_band_50-60") && Normalized("")
  {
  }

  lemma ImdBand50To60Joined()
    ensures "imd_band_50-60pct" == "imd_band_50-60" + "pct" + ""
  {
  }

  lemma ImdBand60To70Cleaned()
    ensures Clean(RawImdBandColumns[6]) == ImdBandColumns[6]
  {
    assert RawImdBandColumns[6] == "imd_band_60-70%";
    assert ImdBandColumns[6] == "imd_band_60-70pct";
    ImdBand60To70Pieces();
    ImdBand60To70Joined();
    CleanOneTrigger("imd_band_60-70%", "imd_band_60-70", '%', "");
    assert CleanChar('%') == "pct";
  }

  lemma ImdBand60To70Pieces()
    ensures "imd_band_60-70%" == "imd_band_60-70" + ['%'] + ""
    ensures Normalized("imd_band_60-70") && Normalized("")
  {
  }

  lemma ImdBand60To70Joined()
    ensures "imd_band_60-70pct" == "imd_band_60-70" + "pct" + ""
  {
  }

  lemma ImdBand70To80Cleaned()
    ensures Clean(RawImdBandColumns[7]) == ImdBandColumns[7]
  {
    assert RawImdBandColumns[7] == "imd_band_70-80%";
    assert ImdBandColumns[7] == "imd_band_70-80pct";
    ImdBand70To80Pieces();
    ImdBand70To80Joined();
    CleanOneTrigger("imd_band_70-80%", "imd_band_70-80", '%', "");
    assert CleanChar('%') == "pct";
  }

  lemma ImdBand70To80Pieces()
    ensures "imd_band_70-80%" == "imd_band_70-80" + ['%'] + ""
    ensures Normalized("imd_band_70-80") && Normalized("")
  {
  }

  lemma ImdBand70To80Joined()
    ensures "imd_band_70-80pct" == "imd_band_70-80" + "pct" + ""
  {
  }

  lemma ImdBand80To90Cleaned()
    ensures Clean(RawImdBandColumns[8]) == ImdBandColumns[8]
  {
    assert RawImdBandColumns[8] == "imd_band_80-90%";
    assert ImdBandColumns[8] == "imd_band_80-90pct";
    ImdBand80To90Pieces();
    ImdBand80To90Joined();
    CleanOneTrigger("imd_band_80-90%", "imd_band_80-90", '%', "");
    assert CleanChar('%') == "pct";
  }

  lemma ImdBand80To90Pieces()
    ensures "imd_band_80-90%" == "imd_band_80-90" + ['%'] + ""
    ensures Normalized("imd_band_80-90") && Normalized("")
  {
  }

  lemma ImdBand80To90Joined()
    ensures "imd_band_80-90pct" == "imd_band_80-90" + "pct" + ""
  {
  }

  lemma ImdBand90To100Cleaned()
    ensures Clean(RawImdBandColumns[9]) == ImdBandColumns[9]
  {
    assert RawImdBandColumns[9] == "imd_band_90-100%";
    assert ImdBandColumns[9] == "imd_band_90-100pct";
    ImdBand90To100Pieces();
    ImdBand90To100Joined();
    CleanOneTrigger("imd_band_90-100%", "imd_band_90-100", '%', "");
    assert CleanChar('%') == "pct";
  }

  lemma ImdBand90To100Pieces()
    ensures "imd_band_90-100%" == "imd_band_90-100" + ['%'] + ""
    ensures Normalized("imd_band_90-100") && Normalized("")
  {
  }

  lemma ImdBand90To100Joined()
    ensures "imd_band_90-100pct" == "imd_band_90-100" + "pct" + ""
  {
  }

  lemma ImdBandNanUnchanged()
    ensures Clean(RawImdBandColumns[10]) == ImdBandColumns[10]
  {
    assert RawImdBandColumns[10] == "imd_band_nan";
    assert ImdBandColumns[10] == "imd_band_nan";
    assert Normalized("imd_band_nan");
    CleanFixedPoints("imd_band_nan");
  }

  /** What the cleaner makes of the age band block. */
  lemma CleanAgeBandColumns()
    ensures CleanColumns(RawAgeBandColumns) == AgeBandColumns
  {
    forall i | 0 <= i < |RawAgeBandColumns| ensures Clean(RawAgeBandColumns[i]) == AgeBandColumns[i] {
      if i == 0 {
        AgeBand0To35Unchanged();
      } else if i == 1 {
        AgeBand35To55Unchanged();
      } else if i == 2 {
        AgeBand55AndOverCleaned();
      } else {
        AgeBandNanUnchanged();
      }
    }
    CleanColumnsByElement(RawAgeBandColumns, AgeBandColumns);
  }

  lemma AgeBand0To35Unchanged()
    ensures Clean(RawAgeBandColumns[0]) == AgeBandColumns[0]
  {
    assert RawAgeBandColumns[0] == "age_band_0-35";
    assert AgeBandColumns[0] == "age_band_0-35";
    assert Normalized("age_band_0-35");
    CleanFixedPoints("age_band_0-35");
  }

  lemma AgeBand35To55Unchanged()
    ensures Clean(RawAgeBandColumns[1]) == AgeBandColumns[1]
  {
    assert RawAgeBandColumns[1] == "age_band_35-55";
    assert AgeBandColumns[1] == "age_band_35-55";
    assert Normalized("age_band_35-55");
    CleanFixedPoints("age_band_35-55");
  }

  lemma AgeBand55AndOverCleaned()
    ensures Clean(RawAgeBandColumns[2]) == AgeBandColumns[2]
  {
    assert RawAgeBandColumns[2] == "age_band_55<=";
    assert AgeBandColumns[2] == "age_band_55lt=";
    AgeBand55AndOverPieces();
    AgeBand55AndOverJoined();
    CleanOneTrigger("age_band_55<=", "age_band_55", '<', "=");
    assert CleanChar('<') == "lt";
  }

  lemma AgeBand55AndOverPieces()
    ensures "age_band_55<=" == "age_band_55" + ['<'] + "="
    ensures Normalized("age_band_55") && Normalized("=")
  {
  }

  lemma AgeBand55AndOverJoined()
    ensures "age_band_55lt=" == "age_band_55" + "lt" + "="
  {
  }

  lemma AgeBandNanUnchanged()
    ensures Clean(RawAgeBandColumns[3]) == AgeBandColumns[3]
  {
    assert RawAgeBandColumns[3] == "age_band_nan";
    assert AgeBandColumns[3] == "age_band_nan";
    assert Normalized("age_band_nan");
    CleanFixedPoints("age_band_nan");
  }

  /** What the cleaner makes of the disability block. */
  lemma CleanDisabilityColumns()
    ensures CleanColumns(RawDisabilityColumns) == DisabilityColumns
  {
    forall i | 0 <= i < |RawDisabilityColumns| ensures Clean(RawDisabilityColumns[i]) == DisabilityColumns[i] {
      if i == 0 {
        DisabilityNUnchanged();
      } else if i == 1 {
        DisabilityYUnchanged();
      } else {
        DisabilityNanUnchanged();
      }
    }
    CleanColumnsByElement(RawDisabilityColumns, DisabilityColumns);
  }

  lemma DisabilityNUnchanged()
    ensures Clean(RawDisabilityColumns[0]) == DisabilityColumns[0]
  {
    assert RawDisabilityColumns[0] == "disability_N";
    assert DisabilityColumns[0] == "disability_N";
    assert Normalized("disability_N");
    CleanFixedPoints("disability_N");
  }

  lemma DisabilityYUnchanged()
    ensures Clean(RawDisabilityColumns[1]) == DisabilityColumns[1]
  {
    assert RawDisabilityColumns[1] == "disability_Y";
    assert DisabilityColumns[1] == "disability_Y";
    assert Normalized("disability_Y");
    CleanFixedPoints("disability_Y");
  }

  lemma DisabilityNanUnchanged()
    ensures Clean(RawDisabilityColumns[2]) == DisabilityColumns[2]
  {
    assert RawDisabilityColumns[2] == "disability_nan";
    assert DisabilityColumns[2] == "disability_nan";
    assert Normalized("disability_nan");
    CleanFixedPoints("disability_nan");
  }

}
