/**
  The answers the form collects, one field per widget, and the constraints
  the widgets themselves enforce (numeric minimum and maximum, or a fixed
  list of options).
*/
module Form {
  import opened Encoding

  /**
    One submission of the form. Integer widgets (age and the two blood
    pressures) give `int`; the other numeric widgets give floats, modelled
    as `real`; radio buttons and select boxes give the chosen label.
  */
  datatype PatientRecord = PatientRecord(
    // Demographics
    age: int, gender: Label, ethnicity: Label, education: Label,
    // Lifestyle
    bmi: real, smoking: Label, alcohol: real, physical: real, dietQuality: real, sleepQuality: real,
    // Medical history
    familyHistory: Label, cardiovascular: Label, diabetes: Label, depression: Label,
    headInjury: Label, hypertension: Label,
    // Clinical measurements
    systolic: int, diastolic: int, cholTotal: real, cholLdl: real, cholHdl: real, cholTrig: real,
    // Cognitive and functional assessments
    mmse: real, funcAssess: real, memoryComplaints: Label, behavioralProblems: Label, adl: real,
    // Symptoms
    confusion: Label, disorientation: Label, personalityChanges: Label, taskDifficulty: Label,
    forgetfulness: Label
  )

  /** A yes/no radio button answers with one of its two options. */
  predicate YesNo(v: Label) {
    v in BinarioOptions
  }

  /** The record could have come from the widgets: every bound and option list is respected. */
  predicate ValidRecord(f: PatientRecord) {
    ValidDemographics(f) && ValidLifestyle(f) && ValidMedicalHistory(f)
    && ValidClinical(f) && ValidCognitive(f) && ValidSymptoms(f)
  }

  predicate ValidDemographics(f: PatientRecord) {
    && 60 <= f.age <= 90
    && f.gender in GeneroOptions
    && f.ethnicity in EtniaOptions
    && f.education in EducacionOptions
  }

  predicate ValidLifestyle(f: PatientRecord) {
    && 15.0 <= f.bmi <= 40.0
    && YesNo(f.smoking)
    && 0.0 <= f.alcohol <= 20.0
    && 0.0 <= f.physical <= 10.0
    && 0.0 <= f.dietQuality <= 10.0
    && 4.0 <= f.sleepQuality <= 10.0
  }

  predicate ValidMedicalHistory(f: PatientRecord) {
    && YesNo(f.familyHistory) && YesNo(f.cardiovascular) && YesNo(f.diabetes)
    && YesNo(f.depression) && YesNo(f.headInjury) && YesNo(f.hypertension)
  }

  predicate ValidClinical(f: PatientRecord) {
    && 90 <= f.systolic <= 180
    && 60 <= f.diastolic <= 120
    && 150.0 <= f.cholTotal <= 300.0
    && 50.0 <= f.cholLdl <= 200.0
    && 20.0 <= f.cholHdl <= 100.0
    && 50.0 <= f.cholTrig <= 400.0
  }

  predicate ValidCognitive(f: PatientRecord) {
    && 0.0 <= f.mmse <= 30.0
    && 0.0 <= f.funcAssess <= 10.0
    && YesNo(f.memoryComplaints) && YesNo(f.behavioralProblems)
    && 0.0 <= f.adl <= 10.0
  }

  predicate ValidSymptoms(f: PatientRecord) {
    && YesNo(f.confusion) && YesNo(f.disorientation) && YesNo(f.personalityChanges)
    && YesNo(f.taskDifficulty) && YesNo(f.forgetfulness)
  }

  /**
    The record the form holds before the user touches it: each numeric widget's
    declared default value, and the first option of each radio button and select box.
  */
  function DefaultRecord(): (f: PatientRecord)
    ensures ValidRecord(f)
    ensures f.gender == GeneroOptions[0] && f.ethnicity == EtniaOptions[0]
    ensures f.education == EducacionOptions[0] && f.smoking == BinarioOptions[0]
    ensures f.familyHistory == BinarioOptions[0] && f.cardiovascular == BinarioOptions[0]
    ensures f.diabetes == BinarioOptions[0] && f.depression == BinarioOptions[0]
    ensures f.headInjury == BinarioOptions[0] && f.hypertension == BinarioOptions[0]
    ensures f.memoryComplaints == BinarioOptions[0] && f.behavioralProblems == BinarioOptions[0]
    ensures f.confusion == BinarioOptions[0] && f.disorientation == BinarioOptions[0]
    ensures f.personalityChanges == BinarioOptions[0] && f.taskDifficulty == BinarioOptions[0]
    ensures f.forgetfulness == BinarioOptions[0]
  {
    PatientRecord(
      70, "Masculino", "Caucásico", "Ninguno",
      25.0, "No", 1.0, 3.0, 5.0, 7.0,
      "No", "No", "No", "No", "No", "No",
      120, 80, 200.0, 100.0, 50.0, 150.0,
      25.0, 8.0, "No", "No", 9.0,
      "No", "No", "No", "No", "No")
  }
}
