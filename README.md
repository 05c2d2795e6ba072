# Alzheimer risk form: encoding and feature assembly

The dashboard asks a clinician for 32 attributes of a patient, in six
sections: demographics, lifestyle, medical history, clinical measurements,
cognitive and functional assessments, and symptoms. Numbers come from
number inputs and sliders with fixed bounds. Labels come from radio buttons
and select boxes with fixed option lists. When the button is pressed:

- the labels go through `codificar` and its four tables (`genero_map`,
  `etnia_map`, `educacion_map`, `binario_map`);
- the values become one feature row with 32 named columns, in the key order
  of the dictionary literal (app.py:85-118). The page never checks that order
  or those names against the columns the classifier was trained on; a comment
  in the source (app.py:120-125) only warns that they must match;
- the classifier's predicted label picks a verdict banner and the
  probability to display.

This project models that pipeline in Dafny and proves what it guarantees.

- `sequences.dfy` (`Sequences`): distinctness and disjointness of sequences,
  and how both behave under concatenation.
- `encoding.dfy` (`Encoding`): `Codificar`, the widget option lists and the
  four tables. It proves each table encodes the option at index i as i, so
  codes are injective on offered labels and always lie in [0, n-1]. Any
  other label is encoded as 0, exactly like the first option.
- `form.dfy` (`Form`): the patient record the widgets produce. `ValidRecord`
  holds the widget bounds and option lists. It also holds the record the
  form shows before any input.
- `rows.dfy` (`Rows`): feature rows as sequences of (name, value) pairs,
  column schemas with a domain per column, and lookup by name.
- `assembly.dfy` (`Assembly`): the feature row built from a record, and the
  32-column schema it follows. Proved:
  - the 32 names are distinct and appear in the order of the dictionary
    literal;
  - every categorical column holds a valid code;
  - on valid records every numeric column stays within its widget's bounds;
  - each column holds the field it names;
  - the 14 yes/no columns hold 0 or 1;
  - no two valid records give the same row;
  - outside the widgets, an unknown gender label collides with "Masculino".
- `presenter.dfy` (`Presenter`): the verdict and the metric shown for a
  predicted label and a probability vector.

Modelling choices:

- The dictionary literal is written as six concatenated section lists in
  its own key order. Its keys are proved distinct, so first-match `Lookup`
  agrees with Python dictionary lookup, and the row's order is the order
  `pd.DataFrame([input_dict])` gives the columns.
- Python floats are modelled as Dafny `real`, and Python integers as `int`.
- The source catches any exception raised while predicting and shows an
  error. The one such failure the model sees is indexing the probability
  vector, in `Present`. That index happens after the verdict banner has
  been rendered, so the page then shows the banner and the error message
  together. The model follows the code on this point: a failed metric
  still carries the verdict.

## Model

| member | source | states |
|---|---|---|
| Encoding.Codificar | app.py:73-74 | A label that is a key of the table gets the table's code; any other label gets 0 and is silently accepted |
| Encoding.GeneroOptions | app.py:25 | The options of the gender radio button, in display order |
| Encoding.EtniaOptions | app.py:26 | The options of the ethnicity select box, in display order |
| Encoding.EducacionOptions | app.py:27 | The options of the education select box, in display order |
| Encoding.BinarioOptions | app.py:32 | The options of every yes/no radio button, in display order |
| Encoding.GeneroMap | app.py:77 | The gender table |
| Encoding.EtniaMap | app.py:78 | The ethnicity table |
| Encoding.EducacionMap | app.py:79 | The education table |
| Encoding.BinarioMap | app.py:80 | The yes/no table |
| Encoding.TablesMatchWidgets | app.py:77-80 | Each of the four tables maps the widget option shown at index i to i and has no keys beyond the widget's options |
| Encoding.CodeInRange | app.py:73-80 | Whatever the label, its code is an index of the option list, in [0, n-1] |
| Encoding.EncodeDecode | app.py:73-80 | Indexing the option list with an offered label's code gives the label back |
| Encoding.DecodeEncode | app.py:73-80 | The option at index i is encoded as i |
| Encoding.CodesInjective | app.py:73-80 | Two offered labels get the same code if and only if they are the same label |
| Encoding.UnknownLooksLikeFirst | app.py:73-74 | A label not among the options gets code 0, the code of the first option |
| Encoding.UnknownGenderIsMasculino | app.py:77 | The empty label and "masculino" in lower case get gender code 0, like "Masculino"; "Femenino" gets 1 |
| Encoding.BinaryCodeIsBit | app.py:80 | Any answer encoded through the yes/no table is 0 or 1 |
| Encoding.OnlySiIsOne | app.py:80 | A yes/no code is 1 exactly when the label is "Sí"; "Si" and "sí" are encoded 0 |
| Encoding.TableCodesInRange | app.py:77-80 | Through each of the four tables every label gets a code below the length of that table's option list |
| Form.ValidRecord | app.py:24-70 | A record the widgets can produce: each number within its widget's min and max, each label one of its widget's options |
| Form.DefaultRecord | app.py:24-70 | The record the form starts from satisfies every widget bound, so each declared numeric default lies within its widget's min and max; all 17 categorical fields hold the first option of their widget |
| Assembly.InputRow | app.py:85-118 | The feature row of a record, as the dictionary literal builds it; its properties are stated by the lemmas below |
| Assembly.SchemaWellFormed | app.py:85-118 | The feature schema has 32 columns whose names are pairwise distinct |
| Assembly.InputRowConforms | app.py:85-118 | The row has 32 entries named as the schema names them, in that order; every categorical column holds a valid option index; on a record within the widget bounds every column is within its domain |
| Assembly.DemographicValues | app.py:86-89 | Age passes through; gender, ethnicity and education hold the codes of their tables |
| Assembly.LifestyleValues | app.py:90-95 | BMI, alcohol, physical activity, diet and sleep quality pass through; smoking holds its yes/no code |
| Assembly.MedicalHistoryValues | app.py:96-101 | The six medical-history columns hold the yes/no codes of their answers |
| Assembly.ClinicalValues | app.py:102-107 | Both blood pressures and the four cholesterol values pass through unchanged |
| Assembly.CognitiveValues | app.py:108-112 | MMSE, functional assessment and ADL pass through; memory complaints and behavioral problems hold their yes/no codes |
| Assembly.SymptomValues | app.py:113-117 | The five symptom columns hold the yes/no codes of their answers |
| Assembly.LifestyleBits | app.py:91 | The smoking column holds 0 or 1 whatever was answered |
| Assembly.MedicalHistoryBits | app.py:96-101 | Each medical-history column holds 0 or 1 whatever was answered |
| Assembly.CognitiveBits | app.py:110-111 | The memory-complaint and behavioral-problem columns hold 0 or 1 |
| Assembly.SymptomBits | app.py:113-117 | Each symptom column holds 0 or 1 whatever was answered |
| Assembly.YesNoCodesInjective | app.py:80 | Two yes/no answers offered by the widgets with the same code are the same answer |
| Assembly.DemographicInjective | app.py:86-89 | Valid records with equal demographic columns have equal age, gender, ethnicity and education |
| Assembly.LifestyleInjective | app.py:90-95 | Valid records with equal lifestyle columns have equal lifestyle fields |
| Assembly.MedicalHistoryInjective | app.py:96-101 | Valid records with equal medical-history columns have equal answers |
| Assembly.ClinicalInjective | app.py:102-107 | Records with equal clinical columns have equal clinical measurements |
| Assembly.CognitiveInjective | app.py:108-112 | Valid records with equal cognitive columns have equal cognitive fields |
| Assembly.SymptomInjective | app.py:113-117 | Valid records with equal symptom columns have equal symptom answers |
| Assembly.InputRowInjective | app.py:85-118 | Two records within the widget bounds and options that give the same row are the same record |
| Assembly.UnknownGenderReadsAsMasculino | app.py:87 | Replacing the gender by any label outside the options gives the row produced with "Masculino" |
| Assembly.UnknownGenderCollides | app.py:87 | The default record with gender "Otro" differs from the default record but gives the same row |
| Assembly.FemaleScenario | app.py:85-118 | A 70-year-old Caucasian woman answering "No" everywhere with MMSE 25 gets a 32-entry row with Age 70, Gender 1, Ethnicity 0, MMSE 25 and 0 in all fourteen yes/no columns |
| Rows.Lookup | app.py:85-118 | Reading a column of the row by name; its properties are stated by `Rows.LookupAt` and `Rows.LookupAbsent` |
| Rows.LookupAt | app.py:85-118 | In a row with distinct names, looking up the name of entry i gives entry i's value |
| Rows.LookupAbsent | app.py:85-118 | Looking up a name that is not in the row finds nothing |
| Presenter.Classify | app.py:132 | The verdict is positive exactly when the predicted label equals 1 |
| Presenter.Present | app.py:132-138 | The verdict is chosen by `Classify`; the metric appears exactly when the probability vector has an entry for the verdict's class, and it shows that entry times 100 |
| Presenter.Banner | app.py:134-137 | The banner text of each verdict |
| Presenter.MetricLabel | app.py:135-138 | The metric label of each verdict |
| Presenter.VerdictsAreDistinguishable | app.py:133-137 | The two banners and the two metric labels differ |
| Presenter.ExactlyOneBanner | app.py:132-137 | The positive banner is rendered exactly when the label is 1, the negative banner exactly when it is not |
| Presenter.ShowsPredictedClass | app.py:129-138 | For a label 0 or 1 and two probabilities, the metric appears and reports the probability of the predicted class |
| Presenter.OtherLabelsReadAsNegative | app.py:132-138 | Any label other than 1 shows the negative verdict with the probability of class 0 |
| Presenter.PositiveWithoutSecondProbabilityFails | app.py:132-134 | A positive label with fewer than two probabilities fails on the metric after showing the positive verdict |

## Left out

- The Streamlit page itself: titles, expanders, widget labels and the button. The widgets are modelled only by their option lists, bounds and defaults (`Form.ValidRecord`, `Form.DefaultRecord`).
- Widget step sizes (0.1, 0.5, 1.0): the model accepts any value between the bounds.
- Loading the model file (app.py:8-15) and halting when it is missing: that is file I/O before the form exists.
- The classifier's `predict` and `predict_proba`: they are foreign code. Their outputs are the parameters of `Presenter.Present`. The model does not assume the two probabilities sum to 1, because nothing in the page checks it.
- Exceptions raised inside `predict` or `predict_proba`. The only exception modelled is the probability index error, as `Presenter.Failed`.
- `pd.DataFrame` construction: the row is the ordered sequence of the dictionary's entries.
- Formatting to two decimals and the "%" suffix: `Presenter.Present` gives the percentage as an exact real.
- Floating-point rounding: floats are modelled as reals.
