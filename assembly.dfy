/**
  Assembly of the single input row handed to the classifier: 32 named
  columns in a fixed order, the categorical answers encoded, the numeric
  answers passed through. The row is written section by section, following
  the six groups of the form; concatenated, the sections give the columns
  in exactly the order of the dictionary the form builds.
*/
module Assembly {
  import opened Sequences
  import opened Encoding
  import opened Form
  import opened Rows

  /**
    The columns of the row, in the key order of the dictionary literal, each
    with the domain its widget allows. Nothing in the page checks this order
    or these names against the columns the classifier was trained on.
  */
  const Schema: seq<Column> :=
    DemographicSchema + LifestyleSchema + MedicalHistorySchema
    + ClinicalSchema + CognitiveSchema + SymptomSchema

  const DemographicSchema: seq<Column> := [
    Column("Age", IntRange(60, 90)),
    Column("Gender", Code(GeneroOptions)),
    Column("Ethnicity", Code(EtniaOptions)),
    Column("EducationLevel", Code(EducacionOptions))
  ]

  const LifestyleSchema: seq<Column> := [
    Column("BMI", RealRange(15.0, 40.0)),
    Column("Smoking", Code(BinarioOptions)),
    Column("AlcoholConsumption", RealRange(0.0, 20.0)),
    Column("PhysicalActivity", RealRange(0.0, 10.0)),
    Column("DietQuality", RealRange(0.0, 10.0)),
    Column("SleepQuality", RealRange(4.0, 10.0))
  ]

  const MedicalHistorySchema: seq<Column> := [
    Column("FamilyHistoryAlzheimers", Code(BinarioOptions)),
    Column("CardiovascularDisease", Code(BinarioOptions)),
    Column("Diabetes", Code(BinarioOptions)),
    Column("Depression", Code(BinarioOptions)),
    Column("HeadInjury", Code(BinarioOptions)),
    Column("Hypertension", Code(BinarioOptions))
  ]

  const ClinicalSchema: seq<Column> := [
    Column("SystolicBP", IntRange(90, 180)),
    Column("DiastolicBP", IntRange(60, 120)),
    Column("CholesterolTotal", RealRange(150.0, 300.0)),
    Column("CholesterolLDL", RealRange(50.0, 200.0)),
    Column("CholesterolHDL", RealRange(20.0, 100.0)),
    Column("CholesterolTriglycerides", RealRange(50.0, 400.0))
  ]

  const CognitiveSchema: seq<Column> := [
    Column("MMSE", RealRange(0.0, 30.0)),
    Column("FunctionalAssessment", RealRange(0.0, 10.0)),
    Column("MemoryComplaints", Code(BinarioOptions)),
    Column("BehavioralProblems", Code(BinarioOptions)),
    Column("ADL", RealRange(0.0, 10.0))
  ]

  const SymptomSchema: seq<Column> := [
    Column("Confusion", Code(BinarioOptions)),
    Column("Disorientation", Code(BinarioOptions)),
    Column("PersonalityChanges", Code(BinarioOptions)),
    Column("DifficultyCompletingTasks", Code(BinarioOptions)),
    Column("Forgetfulness", Code(BinarioOptions))
  ]

  /** The row built from one submission. */
  function InputRow(f: PatientRecord): Row {
    DemographicColumns(f) + LifestyleColumns(f) + MedicalHistoryColumns(f)
    + ClinicalColumns(f) + CognitiveColumns(f) + SymptomColumns(f)
  }

  function DemographicColumns(f: PatientRecord): Row {
    [
      ("Age", IntV(f.age)),
      ("Gender", IntV(Codificar(f.gender, GeneroMap))),
      ("Ethnicity", IntV(Codificar(f.ethnicity, EtniaMap))),
      ("EducationLevel", IntV(Codificar(f.education, EducacionMap)))
    ]
  }

  function LifestyleColumns(f: PatientRecord): Row {
    [
      ("BMI", RealV(f.bmi)),
      ("Smoking", IntV(Codificar(f.smoking, BinarioMap))),
      ("AlcoholConsumption", RealV(f.alcohol)),
      ("PhysicalActivity", RealV(f.physical)),
      ("DietQuality", RealV(f.dietQuality)),
      ("SleepQuality", RealV(f.sleepQuality))
    ]
  }

  function MedicalHistoryColumns(f: PatientRecord): Row {
    [
      ("FamilyHistoryAlzheimers", IntV(Codificar(f.familyHistory, BinarioMap))),
      ("CardiovascularDisease", IntV(Codificar(f.cardiovascular, BinarioMap))),
      ("Diabetes", IntV(Codificar(f.diabetes, BinarioMap))),
      ("Depression", IntV(Codificar(f.depression, BinarioMap))),
      ("HeadInjury", IntV(Codificar(f.headInjury, BinarioMap))),
      ("Hypertension", IntV(Codificar(f.hypertension, BinarioMap)))
    ]
  }

  function ClinicalColumns(f: PatientRecord): Row {
    [
      ("SystolicBP", IntV(f.systolic)),
      ("DiastolicBP", IntV(f.diastolic)),
      ("CholesterolTotal", RealV(f.cholTotal)),
      ("CholesterolLDL", RealV(f.cholLdl)),
      ("CholesterolHDL", RealV(f.cholHdl)),
      ("CholesterolTriglycerides", RealV(f.cholTrig))
    ]
  }

  function CognitiveColumns(f: PatientRecord): Row {
    [
      ("MMSE", RealV(f.mmse)),
      ("FunctionalAssessment", RealV(f.funcAssess)),
      ("MemoryComplaints", IntV(Codificar(f.memoryComplaints, BinarioMap))),
      ("BehavioralProblems", IntV(Codificar(f.behavioralProblems, BinarioMap))),
      ("ADL", RealV(f.adl))
    ]
  }

  function SymptomColumns(f: PatientRecord): Row {
    [
      ("Confusion", IntV(Codificar(f.confusion, BinarioMap))),
      ("Disorientation", IntV(Codificar(f.disorientation, BinarioMap))),
      ("PersonalityChanges", IntV(Codificar(f.personalityChanges, BinarioMap))),
      ("DifficultyCompletingTasks", IntV(Codificar(f.taskDifficulty, BinarioMap))),
      ("Forgetfulness", IntV(Codificar(f.forgetfulness, BinarioMap)))
    ]
  }

  // ---------------------------------------------------------------------
  // Section by section

  lemma DemographicSection(f: PatientRecord)
    ensures Names(DemographicColumns(f)) == ColumnNames(DemographicSchema)
    ensures CodesFit(DemographicColumns(f), DemographicSchema)
    ensures ValidDemographics(f) ==> Conforms(DemographicColumns(f), DemographicSchema)
  {
    TableCodesInRange(f.gender);
    TableCodesInRange(f.ethnicity);
    TableCodesInRange(f.education);
  }

  lemma LifestyleSection(f: PatientRecord)
    ensures Names(LifestyleColumns(f)) == ColumnNames(LifestyleSchema)
    ensures CodesFit(LifestyleColumns(f), LifestyleSchema)
    ensures ValidLifestyle(f) ==> Conforms(LifestyleColumns(f), LifestyleSchema)
  {
    TableCodesInRange(f.smoking);
  }

  lemma MedicalHistorySection(f: PatientRecord)
    ensures Names(MedicalHistoryColumns(f)) == ColumnNames(MedicalHistorySchema)
    ensures CodesFit(MedicalHistoryColumns(f), MedicalHistorySchema)
    ensures ValidMedicalHistory(f) ==> Conforms(MedicalHistoryColumns(f), MedicalHistorySchema)
  {
    TableCodesInRange(f.familyHistory);
    TableCodesInRange(f.cardiovascular);
    TableCodesInRange(f.diabetes);
    TableCodesInRange(f.depression);
    TableCodesInRange(f.headInjury);
    TableCodesInRange(f.hypertension);
  }

  lemma ClinicalSection(f: PatientRecord)
    ensures Names(ClinicalColumns(f)) == ColumnNames(ClinicalSchema)
    ensures CodesFit(ClinicalColumns(f), ClinicalSchema)
    ensures ValidClinical(f) ==> Conforms(ClinicalColumns(f), ClinicalSchema)
  {
  }

  lemma CognitiveSection(f: PatientRecord)
    ensures Names(CognitiveColumns(f)) == ColumnNames(CognitiveSchema)
    ensures CodesFit(CognitiveColumns(f), CognitiveSchema)
    ensures ValidCognitive(f) ==> Conforms(CognitiveColumns(f), CognitiveSchema)
  {
    TableCodesInRange(f.memoryComplaints);
    TableCodesInRange(f.behavioralProblems);
  }

  lemma SymptomSection(f: PatientRecord)
    ensures Names(SymptomColumns(f)) == ColumnNames(SymptomSchema)
    ensures CodesFit(SymptomColumns(f), SymptomSchema)
    ensures ValidSymptoms(f) ==> Conforms(SymptomColumns(f), SymptomSchema)
  {
    TableCodesInRange(f.confusion);
    TableCodesInRange(f.disorientation);
    TableCodesInRange(f.personalityChanges);
    TableCodesInRange(f.taskDifficulty);
    TableCodesInRange(f.forgetfulness);
  }

  /** Within each section no column name repeats. */
  lemma SectionNamesDistinct()
    ensures Distinct(ColumnNames(DemographicSchema)) && Distinct(ColumnNames(LifestyleSchema))
    ensures Distinct(ColumnNames(MedicalHistorySchema)) && Distinct(ColumnNames(ClinicalSchema))
    ensures Distinct(ColumnNames(CognitiveSchema)) && Distinct(ColumnNames(SymptomSchema))
  {
  }

  /** No column name of an earlier section reappears in a later one. */
  lemma SectionNamesDisjointEarly()
    ensures Disjoint(ColumnNames(DemographicSchema), ColumnNames(LifestyleSchema))
    ensures Disjoint(ColumnNames(DemographicSchema), ColumnNames(MedicalHistorySchema))
    ensures Disjoint(ColumnNames(LifestyleSchema), ColumnNames(MedicalHistorySchema))
    ensures Disjoint(ColumnNames(DemographicSchema), ColumnNames(ClinicalSchema))
    ensures Disjoint(ColumnNames(LifestyleSchema), ColumnNames(ClinicalSchema))
    ensures Disjoint(ColumnNames(MedicalHistorySchema), ColumnNames(ClinicalSchema))
  {
  }

  lemma SectionNamesDisjointLate()
    ensures Disjoint(ColumnNames(DemographicSchema), ColumnNames(CognitiveSchema))
    ensures Disjoint(ColumnNames(LifestyleSchema), ColumnNames(CognitiveSchema))
    ensures Disjoint(ColumnNames(MedicalHistorySchema), ColumnNames(CognitiveSchema))
    ensures Disjoint(ColumnNames(ClinicalSchema), ColumnNames(CognitiveSchema))
  {
  }

  lemma SectionNamesDisjointLast()
    ensures Disjoint(ColumnNames(DemographicSchema), ColumnNames(SymptomSchema))
    ensures Disjoint(ColumnNames(LifestyleSchema), ColumnNames(SymptomSchema))
    ensures Disjoint(ColumnNames(MedicalHistorySchema), ColumnNames(SymptomSchema))
    ensures Disjoint(ColumnNames(ClinicalSchema), ColumnNames(SymptomSchema))
    ensures Disjoint(ColumnNames(CognitiveSchema), ColumnNames(SymptomSchema))
  {
  }

  /** The schema has 32 columns and no column name twice. */
  lemma SchemaWellFormed()
    ensures |Schema| == 32 && Distinct(ColumnNames(Schema))
  {
    var d, l, m := ColumnNames(DemographicSchema), ColumnNames(LifestyleSchema), ColumnNames(MedicalHistorySchema);
    var c, g, s := ColumnNames(ClinicalSchema), ColumnNames(CognitiveSchema), ColumnNames(SymptomSchema);
    SectionNamesDistinct();
    SectionNamesDisjointEarly();
    SectionNamesDisjointLate();
    SectionNamesDisjointLast();
    ColumnNamesAppend(DemographicSchema, LifestyleSchema);
    ColumnNamesAppend(DemographicSchema + LifestyleSchema, MedicalHistorySchema);
    ColumnNamesAppend(DemographicSchema + LifestyleSchema + MedicalHistorySchema, ClinicalSchema);
    ColumnNamesAppend(DemographicSchema + LifestyleSchema + MedicalHistorySchema + ClinicalSchema, CognitiveSchema);
    ColumnNamesAppend(DemographicSchema + LifestyleSchema + MedicalHistorySchema + ClinicalSchema + CognitiveSchema, SymptomSchema);
    DistinctAppend(d, l);
    DisjointAppend(d, l, m);
    DistinctAppend(d + l, m);
    DisjointAppend(d, l, c);
    DisjointAppend(d + l, m, c);
    DistinctAppend(d + l + m, c);
    DisjointAppend(d, l, g);
    DisjointAppend(d + l, m, g);
    DisjointAppend(d + l + m, c, g);
    DistinctAppend(d + l + m + c, g);
    DisjointAppend(d, l, s);
    DisjointAppend(d + l, m, s);
    DisjointAppend(d + l + m, c, s);
    DisjointAppend(d + l + m + c, g, s);
    DistinctAppend(d + l + m + c + g, s);
  }

  /**
    The assembled row has exactly the schema's columns in the schema's order;
    every encoded column holds an index of its widget's options, whatever was
    answered; and a record the widgets accept yields a row within every bound.
  */
  lemma InputRowConforms(f: PatientRecord)
    ensures |InputRow(f)| == 32
    ensures Names(InputRow(f)) == ColumnNames(Schema)
    ensures CodesFit(InputRow(f), Schema)
    ensures ValidRecord(f) ==> Conforms(InputRow(f), Schema)
  {
    var d, l, m := DemographicColumns(f), LifestyleColumns(f), MedicalHistoryColumns(f);
    var c, g, s := ClinicalColumns(f), CognitiveColumns(f), SymptomColumns(f);
    var sd, sl, sm := DemographicSchema, LifestyleSchema, MedicalHistorySchema;
    var sc, sg, ss := ClinicalSchema, CognitiveSchema, SymptomSchema;
    DemographicSection(f);
    LifestyleSection(f);
    MedicalHistorySection(f);
    ClinicalSection(f);
    CognitiveSection(f);
    SymptomSection(f);
    NamesAppend(d, l);
    NamesAppend(d + l, m);
    NamesAppend(d + l + m, c);
    NamesAppend(d + l + m + c, g);
    NamesAppend(d + l + m + c + g, s);
    ColumnNamesAppend(sd, sl);
    ColumnNamesAppend(sd + sl, sm);
    ColumnNamesAppend(sd + sl + sm, sc);
    ColumnNamesAppend(sd + sl + sm + sc, sg);
    ColumnNamesAppend(sd + sl + sm + sc + sg, ss);
    CodesFitAppend(d, sd, l, sl);
    CodesFitAppend(d + l, sd + sl, m, sm);
    CodesFitAppend(d + l + m, sd + sl + sm, c, sc);
    CodesFitAppend(d + l + m + c, sd + sl + sm + sc, g, sg);
    CodesFitAppend(d + l + m + c + g, sd + sl + sm + sc + sg, s, ss);
    if ValidRecord(f) {
      ConformsAppend(d, sd, l, sl);
      ConformsAppend(d + l, sd + sl, m, sm);
      ConformsAppend(d + l + m, sd + sl + sm, c, sc);
      ConformsAppend(d + l + m + c, sd + sl + sm + sc, g, sg);
      ConformsAppend(d + l + m + c + g, sd + sl + sm + sc + sg, s, ss);
    }
  }

  // ---------------------------------------------------------------------
  // What the classifier sees under each column name

  /** Age passes through; gender, ethnicity and education go through their tables. */
  lemma DemographicValues(f: PatientRecord)
    ensures Lookup(InputRow(f), "Age") == Some(IntV(f.age))
    ensures Lookup(InputRow(f), "Gender") == Some(IntV(Codificar(f.gender, GeneroMap)))
    ensures Lookup(InputRow(f), "Ethnicity") == Some(IntV(Codificar(f.ethnicity, EtniaMap)))
    ensures Lookup(InputRow(f), "EducationLevel") == Some(IntV(Codificar(f.education, EducacionMap)))
  {
    InputRowConforms(f);
    SchemaWellFormed();
    LookupAt(InputRow(f), 0);
    LookupAt(InputRow(f), 1);
    LookupAt(InputRow(f), 2);
    LookupAt(InputRow(f), 3);
  }

  /** The lifestyle numbers pass through; smoking goes through the yes/no table. */
  lemma LifestyleValues(f: PatientRecord)
    ensures Lookup(InputRow(f), "BMI") == Some(RealV(f.bmi))
    ensures Lookup(InputRow(f), "Smoking") == Some(IntV(Codificar(f.smoking, BinarioMap)))
    ensures Lookup(InputRow(f), "AlcoholConsumption") == Some(RealV(f.alcohol))
    ensures Lookup(InputRow(f), "PhysicalActivity") == Some(RealV(f.physical))
    ensures Lookup(InputRow(f), "DietQuality") == Some(RealV(f.dietQuality))
    ensures Lookup(InputRow(f), "SleepQuality") == Some(RealV(f.sleepQuality))
  {
    InputRowConforms(f);
    SchemaWellFormed();
    LookupAt(InputRow(f), 4);
    LookupAt(InputRow(f), 5);
    LookupAt(InputRow(f), 6);
    LookupAt(InputRow(f), 7);
    LookupAt(InputRow(f), 8);
    LookupAt(InputRow(f), 9);
  }

  /** The six medical-history answers go through the yes/no table. */
  lemma MedicalHistoryValues(f: PatientRecord)
    ensures Lookup(InputRow(f), "FamilyHistoryAlzheimers") == Some(IntV(Codificar(f.familyHistory, BinarioMap)))
    ensures Lookup(InputRow(f), "CardiovascularDisease") == Some(IntV(Codificar(f.cardiovascular, BinarioMap)))
    ensures Lookup(InputRow(f), "Diabetes") == Some(IntV(Codificar(f.diabetes, BinarioMap)))
    ensures Lookup(InputRow(f), "Depression") == Some(IntV(Codificar(f.depression, BinarioMap)))
    ensures Lookup(InputRow(f), "HeadInjury") == Some(IntV(Codificar(f.headInjury, BinarioMap)))
    ensures Lookup(InputRow(f), "Hypertension") == Some(IntV(Codificar(f.hypertension, BinarioMap)))
  {
    InputRowConforms(f);
    SchemaWellFormed();
    LookupAt(InputRow(f), 10);
    LookupAt(InputRow(f), 11);
    LookupAt(InputRow(f), 12);
    LookupAt(InputRow(f), 13);
    LookupAt(InputRow(f), 14);
    LookupAt(InputRow(f), 15);
  }

  /** The blood pressures and the four cholesterol measurements pass through. */
  lemma ClinicalValues(f: PatientRecord)
    ensures Lookup(InputRow(f), "SystolicBP") == Some(IntV(f.systolic))
    ensures Lookup(InputRow(f), "DiastolicBP") == Some(IntV(f.diastolic))
    ensures Lookup(InputRow(f), "CholesterolTotal") == Some(RealV(f.cholTotal))
    ensures Lookup(InputRow(f), "CholesterolLDL") == Some(RealV(f.cholLdl))
    ensures Lookup(InputRow(f), "CholesterolHDL") == Some(RealV(f.cholHdl))
    ensures Lookup(InputRow(f), "CholesterolTriglycerides") == Some(RealV(f.cholTrig))
  {
    InputRowConforms(f);
    SchemaWellFormed();
    LookupAt(InputRow(f), 16);
    LookupAt(InputRow(f), 17);
    LookupAt(InputRow(f), 18);
    LookupAt(InputRow(f), 19);
    LookupAt(InputRow(f), 20);
    LookupAt(InputRow(f), 21);
  }

  /** MMSE, functional assessment and ADL pass through; the two complaints go through the yes/no table. */
  lemma CognitiveValues(f: PatientRecord)
    ensures Lookup(InputRow(f), "MMSE") == Some(RealV(f.mmse))
    ensures Lookup(InputRow(f), "FunctionalAssessment") == Some(RealV(f.funcAssess))
    ensures Lookup(InputRow(f), "MemoryComplaints") == Some(IntV(Codificar(f.memoryComplaints, BinarioMap)))
    ensures Lookup(InputRow(f), "BehavioralProblems") == Some(IntV(Codificar(f.behavioralProblems, BinarioMap)))
    ensures Lookup(InputRow(f), "ADL") == Some(RealV(f.adl))
  {
    InputRowConforms(f);
    SchemaWellFormed();
    LookupAt(InputRow(f), 22);
    LookupAt(InputRow(f), 23);
    LookupAt(InputRow(f), 24);
    LookupAt(InputRow(f), 25);
    LookupAt(InputRow(f), 26);
  }

  /** The five symptoms go through the yes/no table. */
  lemma SymptomValues(f: PatientRecord)
    ensures Lookup(InputRow(f), "Confusion") == Some(IntV(Codificar(f.confusion, BinarioMap)))
    ensures Lookup(InputRow(f), "Disorientation") == Some(IntV(Codificar(f.disorientation, BinarioMap)))
    ensures Lookup(InputRow(f), "PersonalityChanges") == Some(IntV(Codificar(f.personalityChanges, BinarioMap)))
    ensures Lookup(InputRow(f), "DifficultyCompletingTasks") == Some(IntV(Codificar(f.taskDifficulty, BinarioMap)))
    ensures Lookup(InputRow(f), "Forgetfulness") == Some(IntV(Codificar(f.forgetfulness, BinarioMap)))
  {
    InputRowConforms(f);
    SchemaWellFormed();
    LookupAt(InputRow(f), 27);
    LookupAt(InputRow(f), 28);
    LookupAt(InputRow(f), 29);
    LookupAt(InputRow(f), 30);
    LookupAt(InputRow(f), 31);
  }

  predicate IsBit(v: Option<Value>) {
    v == Some(IntV(0)) || v == Some(IntV(1))
  }

  /** The smoking answer is encoded as 0 or 1. */
  lemma LifestyleBits(f: PatientRecord)
    ensures IsBit(Lookup(InputRow(f), "Smoking"))
  {
    LifestyleValues(f);
    BinaryCodeIsBit(f.smoking);
  }

  /** The six medical-history answers are encoded as 0 or 1. */
  lemma MedicalHistoryBits(f: PatientRecord)
    ensures IsBit(Lookup(InputRow(f), "FamilyHistoryAlzheimers"))
    ensures IsBit(Lookup(InputRow(f), "CardiovascularDisease"))
    ensures IsBit(Lookup(InputRow(f), "Diabetes"))
    ensures IsBit(Lookup(InputRow(f), "Depression"))
    ensures IsBit(Lookup(InputRow(f), "HeadInjury"))
    ensures IsBit(Lookup(InputRow(f), "Hypertension"))
  {
    MedicalHistoryValues(f);
    BinaryCodeIsBit(f.familyHistory);
    BinaryCodeIsBit(f.cardiovascular);
    BinaryCodeIsBit(f.diabetes);
    BinaryCodeIsBit(f.depression);
    BinaryCodeIsBit(f.headInjury);
    BinaryCodeIsBit(f.hypertension);
  }

  /** The two cognitive complaints are encoded as 0 or 1. */
  lemma CognitiveBits(f: PatientRecord)
    ensures IsBit(Lookup(InputRow(f), "MemoryComplaints"))
    ensures IsBit(Lookup(InputRow(f), "BehavioralProblems"))
  {
    CognitiveValues(f);
    BinaryCodeIsBit(f.memoryComplaints);
    BinaryCodeIsBit(f.behavioralProblems);
  }

  /** The five symptoms are encoded as 0 or 1. */
  lemma SymptomBits(f: PatientRecord)
    ensures IsBit(Lookup(InputRow(f), "Confusion"))
    ensures IsBit(Lookup(InputRow(f), "Disorientation"))
    ensures IsBit(Lookup(InputRow(f), "PersonalityChanges"))
    ensures IsBit(Lookup(InputRow(f), "DifficultyCompletingTasks"))
    ensures IsBit(Lookup(InputRow(f), "Forgetfulness"))
  {
    SymptomValues(f);
    BinaryCodeIsBit(f.confusion);
    BinaryCodeIsBit(f.disorientation);
    BinaryCodeIsBit(f.personalityChanges);
    BinaryCodeIsBit(f.taskDifficulty);
    BinaryCodeIsBit(f.forgetfulness);
  }

  // ---------------------------------------------------------------------
  // No information is lost on form input

  /** For answers the widgets can produce, equal yes/no codes mean equal answers. */
  lemma YesNoCodesInjective(v: Label, w: Label)
    requires YesNo(v) && YesNo(w) && Codificar(v, BinarioMap) == Codificar(w, BinarioMap)
    ensures v == w
  {
    TablesMatchWidgets();
    CodesInjective(BinarioOptions, BinarioMap, v, w);
  }

  lemma DemographicInjective(f: PatientRecord, g: PatientRecord)
    requires ValidDemographics(f) && ValidDemographics(g)
    requires DemographicColumns(f) == DemographicColumns(g)
    ensures f.age == g.age && f.gender == g.gender
    ensures f.ethnicity == g.ethnicity && f.education == g.education
  {
    assert DemographicColumns(f)[0] == DemographicColumns(g)[0];
    assert DemographicColumns(f)[1] == DemographicColumns(g)[1];
    assert DemographicColumns(f)[2] == DemographicColumns(g)[2];
    assert DemographicColumns(f)[3] == DemographicColumns(g)[3];
    TablesMatchWidgets();
    CodesInjective(GeneroOptions, GeneroMap, f.gender, g.gender);
    CodesInjective(EtniaOptions, EtniaMap, f.ethnicity, g.ethnicity);
    CodesInjective(EducacionOptions, EducacionMap, f.education, g.education);
  }

  lemma LifestyleInjective(f: PatientRecord, g: PatientRecord)
    requires ValidLifestyle(f) && ValidLifestyle(g)
    requires LifestyleColumns(f) == LifestyleColumns(g)
    ensures f.bmi == g.bmi && f.smoking == g.smoking && f.alcohol == g.alcohol
    ensures f.physical == g.physical && f.dietQuality == g.dietQuality && f.sleepQuality == g.sleepQuality
  {
    assert LifestyleColumns(f)[0] == LifestyleColumns(g)[0];
    assert LifestyleColumns(f)[1] == LifestyleColumns(g)[1];
    assert LifestyleColumns(f)[2] == LifestyleColumns(g)[2];
    assert LifestyleColumns(f)[3] == LifestyleColumns(g)[3];
    assert LifestyleColumns(f)[4] == LifestyleColumns(g)[4];
    assert LifestyleColumns(f)[5] == LifestyleColumns(g)[5];
    YesNoCodesInjective(f.smoking, g.smoking);
  }

  lemma MedicalHistoryInjective(f: PatientRecord, g: PatientRecord)
    requires ValidMedicalHistory(f) && ValidMedicalHistory(g)
    requires MedicalHistoryColumns(f) == MedicalHistoryColumns(g)
    ensures f.familyHistory == g.familyHistory && f.cardiovascular == g.cardiovascular
    ensures f.diabetes == g.diabetes && f.depression == g.depression
    ensures f.headInjury == g.headInjury && f.hypertension == g.hypertension
  {
    assert MedicalHistoryColumns(f)[0] == MedicalHistoryColumns(g)[0];
    assert MedicalHistoryColumns(f)[1] == MedicalHistoryColumns(g)[1];
    assert MedicalHistoryColumns(f)[2] == MedicalHistoryColumns(g)[2];
    assert MedicalHistoryColumns(f)[3] == MedicalHistoryColumns(g)[3];
    assert MedicalHistoryColumns(f)[4] == MedicalHistoryColumns(g)[4];
    assert MedicalHistoryColumns(f)[5] == MedicalHistoryColumns(g)[5];
    YesNoCodesInjective(f.familyHistory, g.familyHistory);
    YesNoCodesInjective(f.cardiovascular, g.cardiovascular);
    YesNoCodesInjective(f.diabetes, g.diabetes);
    YesNoCodesInjective(f.depression, g.depression);
    YesNoCodesInjective(f.headInjury, g.headInjury);
    YesNoCodesInjective(f.hypertension, g.hypertension);
  }

  lemma ClinicalInjective(f: PatientRecord, g: PatientRecord)
    requires ClinicalColumns(f) == ClinicalColumns(g)
    ensures f.systolic == g.systolic && f.diastolic == g.diastolic
    ensures f.cholTotal == g.cholTotal && f.cholLdl == g.cholLdl
    ensures f.cholHdl == g.cholHdl && f.cholTrig == g.cholTrig
  {
    assert ClinicalColumns(f)[0] == ClinicalColumns(g)[0];
    assert ClinicalColumns(f)[1] == ClinicalColumns(g)[1];
    assert ClinicalColumns(f)[2] == ClinicalColumns(g)[2];
    assert ClinicalColumns(f)[3] == ClinicalColumns(g)[3];
    assert ClinicalColumns(f)[4] == ClinicalColumns(g)[4];
    assert ClinicalColumns(f)[5] == ClinicalColumns(g)[5];
  }

  lemma CognitiveInjective(f: PatientRecord, g: PatientRecord)
    requires ValidCognitive(f) && ValidCognitive(g)
    requires CognitiveColumns(f) == CognitiveColumns(g)
    ensures f.mmse == g.mmse && f.funcAssess == g.funcAssess && f.adl == g.adl
    ensures f.memoryComplaints == g.memoryComplaints && f.behavioralProblems == g.behavioralProblems
  {
    assert CognitiveColumns(f)[0] == CognitiveColumns(g)[0];
    assert CognitiveColumns(f)[1] == CognitiveColumns(g)[1];
    assert CognitiveColumns(f)[2] == CognitiveColumns(g)[2];
    assert CognitiveColumns(f)[3] == CognitiveColumns(g)[3];
    assert CognitiveColumns(f)[4] == CognitiveColumns(g)[4];
    YesNoCodesInjective(f.memoryComplaints, g.memoryComplaints);
    YesNoCodesInjective(f.behavioralProblems, g.behavioralProblems);
  }

  lemma SymptomInjective(f: PatientRecord, g: PatientRecord)
    requires ValidSymptoms(f) && ValidSymptoms(g)
    requires SymptomColumns(f) == SymptomColumns(g)
    ensures f.confusion == g.confusion && f.disorientation == g.disorientation
    ensures f.personalityChanges == g.personalityChanges
    ensures f.taskDifficulty == g.taskDifficulty && f.forgetfulness == g.forgetfulness
  {
    assert SymptomColumns(f)[0] == SymptomColumns(g)[0];
    assert SymptomColumns(f)[1] == SymptomColumns(g)[1];
    assert SymptomColumns(f)[2] == SymptomColumns(g)[2];
    assert SymptomColumns(f)[3] == SymptomColumns(g)[3];
    assert SymptomColumns(f)[4] == SymptomColumns(g)[4];
    YesNoCodesInjective(f.confusion, g.confusion);
    YesNoCodesInjective(f.disorientation, g.disorientation);
    YesNoCodesInjective(f.personalityChanges, g.personalityChanges);
    YesNoCodesInjective(f.taskDifficulty, g.taskDifficulty);
    YesNoCodesInjective(f.forgetfulness, g.forgetfulness);
  }

  /**
    Two records the form can produce that yield the same feature row are the
    same record: the assembly loses no information on form input.
  */
  lemma InputRowInjective(f: PatientRecord, g: PatientRecord)
    requires ValidRecord(f) && ValidRecord(g)
    requires InputRow(f) == InputRow(g)
    ensures f == g
  {
    var d, l, m, c, k, s := DemographicColumns(f), LifestyleColumns(f), MedicalHistoryColumns(f),
      ClinicalColumns(f), CognitiveColumns(f), SymptomColumns(f);
    var d', l', m', c', k', s' := DemographicColumns(g), LifestyleColumns(g), MedicalHistoryColumns(g),
      ClinicalColumns(g), CognitiveColumns(g), SymptomColumns(g);
    AppendCancel(d + l + m + c + k, s, d' + l' + m' + c' + k', s');
    AppendCancel(d + l + m + c, k, d' + l' + m' + c', k');
    AppendCancel(d + l + m, c, d' + l' + m', c');
    AppendCancel(d + l, m, d' + l', m');
    AppendCancel(d, l, d', l');
    DemographicInjective(f, g);
    LifestyleInjective(f, g);
    MedicalHistoryInjective(f, g);
    ClinicalInjective(f, g);
    CognitiveInjective(f, g);
    SymptomInjective(f, g);
  }

  /**
    Outside the widgets the row does lose information: a gender label the table
    does not know is encoded exactly like "Masculino".
  */
  lemma UnknownGenderReadsAsMasculino(f: PatientRecord, v: Label)
    requires v !in GeneroOptions
    ensures InputRow(f.(gender := v)) == InputRow(f.(gender := GeneroOptions[0]))
  {
    TablesMatchWidgets();
    UnknownLooksLikeFirst(GeneroOptions, GeneroMap, v);
  }

  /** A concrete collision: two different records, one feature row. */
  lemma UnknownGenderCollides()
    ensures DefaultRecord().(gender := "Otro") != DefaultRecord()
    ensures InputRow(DefaultRecord().(gender := "Otro")) == InputRow(DefaultRecord())
  {
    UnknownGenderReadsAsMasculino(DefaultRecord(), "Otro");
  }

  /**
    A woman of 70, Caucasian, answering "No" everywhere, with MMSE 25: gender
    is encoded 1, ethnicity 0, every yes/no column 0 and the age passes through.
  */
  lemma FemaleScenario()
    ensures var f := DefaultRecord().(gender := "Femenino", mmse := 25.0);
      && |InputRow(f)| == 32
      && Lookup(InputRow(f), "Age") == Some(IntV(70))
      && Lookup(InputRow(f), "Gender") == Some(IntV(1))
      && Lookup(InputRow(f), "Ethnicity") == Some(IntV(0))
      && Lookup(InputRow(f), "MMSE") == Some(RealV(25.0))
      && Lookup(InputRow(f), "Smoking") == Some(IntV(0))
      && Lookup(InputRow(f), "FamilyHistoryAlzheimers") == Some(IntV(0))
      && Lookup(InputRow(f), "CardiovascularDisease") == Some(IntV(0))
      && Lookup(InputRow(f), "Diabetes") == Some(IntV(0))
      && Lookup(InputRow(f), "Depression") == Some(IntV(0))
      && Lookup(InputRow(f), "HeadInjury") == Some(IntV(0))
      && Lookup(InputRow(f), "Hypertension") == Some(IntV(0))
      && Lookup(InputRow(f), "MemoryComplaints") == Some(IntV(0))
      && Lookup(InputRow(f), "BehavioralProblems") == Some(IntV(0))
      && Lookup(InputRow(f), "Confusion") == Some(IntV(0))
      && Lookup(InputRow(f), "Disorientation") == Some(IntV(0))
      && Lookup(InputRow(f), "PersonalityChanges") == Some(IntV(0))
      && Lookup(InputRow(f), "DifficultyCompletingTasks") == Some(IntV(0))
      && Lookup(InputRow(f), "Forgetfulness") == Some(IntV(0))
  {
    var f := DefaultRecord().(gender := "Femenino", mmse := 25.0);
    InputRowConforms(f);
    DemographicValues(f);
    LifestyleValues(f);
    MedicalHistoryValues(f);
    CognitiveValues(f);
    SymptomValues(f);
  }
}
