/**
 * The label table `diseases_list` that turns the classifier's integer label into a disease
 * name, and the two ways the front ends look a label up: the console app indexes the dict (an
 * absent label raises `KeyError`), the backend server uses `.get` with a fallback name.
 */
module DiseaseLabels {
  import opened Outcomes

  /** `diseases_list` of DobbyVoiceFrApp/main.py, in the order the literal writes it. */
  const ConsoleDiseasesList: map<int, string> :=
    map[
      15 := "Fungal infection", 4 := "Allergy", 16 := "GERD", 9 := "Chronic cholestasis",
      14 := "Drug Reaction", 33 := "Peptic ulcer diseae", 1 := "AIDS", 12 := "Diabetes ",
      17 := "Gastroenteritis", 6 := "Bronchial Asthma", 23 := "Hypertension ", 30 := "Migraine",
      7 := "Cervical spondylosis", 32 := "Paralysis (brain hemorrhage)", 28 := "Jaundice", 29 := "Malaria",
      8 := "Chicken pox", 11 := "Dengue", 37 := "Typhoid", 40 := "hepatitis A",
      19 := "Hepatitis B", 20 := "Hepatitis C", 21 := "Hepatitis D", 22 := "Hepatitis E",
      3 := "Alcoholic hepatitis", 36 := "Tuberculosis", 10 := "Common Cold", 34 := "Pneumonia",
      13 := "Dimorphic hemmorhoids(piles)", 18 := "Heart attack", 39 := "Varicose veins", 26 := "Hypothyroidism",
      24 := "Hyperthyroidism", 25 := "Hypoglycemia", 31 := "Osteoarthristis", 5 := "Arthritis",
      0 := "(vertigo) Paroymsal  Positional Vertigo", 2 := "Acne", 38 := "Urinary tract infection", 35 := "Psoriasis",
      27 := "Impetigo"
    ]

  /** `diseases_list` of backendServer/app.py, in the order the literal writes it. */
  const ServerDiseasesList: map<int, string> :=
    map[
      15 := "Fungal infection", 4 := "Allergy", 16 := "GERD", 9 := "Chronic cholestasis",
      14 := "Drug Reaction", 33 := "Peptic ulcer diseae", 1 := "AIDS", 12 := "Diabetes ",
      17 := "Gastroenteritis", 6 := "Bronchial Asthma", 23 := "Hypertension ", 30 := "Migraine",
      7 := "Cervical spondylosis", 32 := "Paralysis (brain hemorrhage)", 28 := "Jaundice", 29 := "Malaria",
      8 := "Chicken pox", 11 := "Dengue", 37 := "Typhoid", 40 := "hepatitis A",
      19 := "Hepatitis B", 20 := "Hepatitis C", 21 := "Hepatitis D", 22 := "Hepatitis E",
      3 := "Alcoholic hepatitis", 36 := "Tuberculosis", 10 := "Common Cold", 34 := "Pneumonia",
      13 := "Dimorphic hemmorhoids(piles)", 18 := "Heart attack", 39 := "Varicose veins", 26 := "Hypothyroidism",
      24 := "Hyperthyroidism", 25 := "Hypoglycemia", 31 := "Osteoarthristis", 5 := "Arthritis",
      0 := "(vertigo) Paroymsal  Positional Vertigo", 2 := "Acne", 38 := "Urinary tract infection", 35 := "Psoriasis",
      27 := "Impetigo"
    ]

  /** The name the backend server reports for a label the table does not have. */
  const UnknownDisease: string := "Unknown disease"

  /** The labels 0 .. n-1, as a set of n labels. */
  function LabelRange(n: nat): (r: set<int>)
    ensures forall i :: i in r <==> 0 <= i < n
    ensures |r| == n
  {
    if n == 0 then {} else LabelRange(n - 1) + {n - 1}
  }

  /** A table whose labels are exactly 0 .. n-1 has n entries. */
  lemma TableSize(table: map<int, string>, n: nat)
    requires forall predicted :: predicted in table <==> 0 <= predicted < n
    ensures |table| == n
  {
    assert table.Keys == LabelRange(n);
  }

  /** The two copies of the table are the same table. */
  lemma DiseasesListsAgree()
    ensures ServerDiseasesList == ConsoleDiseasesList
  {
  }

  /** The table has a name for exactly the labels 0 .. 40. */
  lemma DiseasesListLabels()
    ensures forall predicted :: predicted in ConsoleDiseasesList <==> 0 <= predicted <= 40
  {
  }

  /** The table has 41 entries, one per label the classifier was trained on. */
  lemma DiseasesListSize()
    ensures |ConsoleDiseasesList| == 41
  {
    DiseasesListLabels();
    TableSize(ConsoleDiseasesList, 41);
  }

  /** No label is named like the server's fallback, so the fallback is recognisable. */
  lemma UnknownDiseaseUnlisted()
    ensures UnknownDisease !in ConsoleDiseasesList.Values
  {
  }

  /** Why the console lookup failed: `diseases_list[label]` raised `KeyError` for that label. */
  datatype DecodeError = KeyError(key: int)

  /**
   * The console app's decode, `diseases_list[predicted_disease]`: the label's name, or a
   * `KeyError` for a label outside 0 .. 40.
   */
  function DecodeStrict(predicted: int): (r: Result<string, DecodeError>)
    ensures r.Success? <==> 0 <= predicted <= 40
    ensures r.Success? ==> r.value != UnknownDisease
    ensures r.Failure? ==> r.error == KeyError(predicted)
    ensures r.Success? ==> r.value == ConsoleDiseasesList[predicted]
  {
    UnknownDiseaseUnlisted();
    DiseasesListLabels();
    if predicted in ConsoleDiseasesList then Success(ConsoleDiseasesList[predicted]) else Failure(KeyError(predicted))
  }

  /**
   * The backend server's decode, `diseases_list.get(predicted_disease, "Unknown disease")`:
   * total, and the fallback name comes back exactly for the labels outside 0 .. 40.
   */
  function DecodeOrUnknown(predicted: int): (name: string)
    ensures name == UnknownDisease <==> !(0 <= predicted <= 40)
    ensures 0 <= predicted <= 40 ==> name in ServerDiseasesList.Values
    ensures predicted in ServerDiseasesList ==> name == ServerDiseasesList[predicted]
  {
    UnknownDiseaseUnlisted();
    DiseasesListLabels();
    DiseasesListsAgree();
    if predicted in ServerDiseasesList then ServerDiseasesList[predicted] else UnknownDisease
  }

  /**
   * The two front ends decode alike: the server reports the console's name whenever the console
   * finds one, and the fallback name exactly where the console raises.
   */
  lemma DecodersAgree(predicted: int)
    ensures DecodeOrUnknown(predicted) == DecodeStrict(predicted).GetOr(UnknownDisease)
  {
    DiseasesListsAgree();
  }
}
