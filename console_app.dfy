/**
 * The console front end of DobbyVoiceFrApp/main.py, from the line the user typed (or the
 * recognised speech) to the disease and its details: tokenize, encode against the console
 * vocabulary, classify, decode by indexing `diseases_list`, resolve the details.
 */
module ConsoleApp {
  import opened Outcomes
  import opened SymptomTables
  import opened SymptomEncoder
  import opened DiseaseLabels
  import opened DetailResolver
  import opened Tokenizer

  /** What the console prints and speaks: the predicted disease and its details. */
  datatype Diagnosis = Diagnosis(disease: string, details: Details)

  /**
   * The classifier sees a vector of length 132 whatever the tokens, with a 1 exactly at the
   * positions of the console symptom names among them.
   */
  lemma ConsoleInputVector(tokens: seq<string>)
    ensures |Encoding(ConsoleSymptomsDict, tokens)| == 132
    ensures forall i :: 0 <= i < 132 ==> (Encoding(ConsoleSymptomsDict, tokens)[i] == 1 <==> ConsoleSymptomNames[i] in tokens)
  {
    ConsoleSymptomNamesDistinct();
    ConsoleSymptomCount();
    EncodingOfNames(ConsoleSymptomNames, tokens);
  }

  /**
   * `get_predicted_value(patient_symptoms)`: the classifier's label for the encoded tokens,
   * decoded by `diseases_list[...]`, which fails with `KeyError` for a label outside 0 .. 40.
   */
  method GetPredictedValue(classifier: seq<int> -> int, patientSymptoms: seq<string>)
    returns (r: Result<string, DecodeError>)
    ensures r == DecodeStrict(classifier(Encoding(ConsoleSymptomsDict, patientSymptoms)))
  {
    ConsoleSymptomsDictIndexing();
    var inputVector := Encode(ConsoleSymptomsDict, patientSymptoms);
    var predictedDisease := classifier(inputVector);
    r := DecodeStrict(predictedDisease);
  }

  /**
   * The pipeline of `main` after the input is read: split the line on commas and strip each
   * piece, predict, then look the disease up with `helper`. A `KeyError` ends the run.
   */
  method Diagnose(classifier: seq<int> -> int, tables: ReferenceTables, symptomsInput: string)
    returns (r: Result<Diagnosis, DecodeError>)
    ensures var decoded := DecodeStrict(classifier(Encoding(ConsoleSymptomsDict, Tokenize(symptomsInput))));
      r.Success? <==> decoded.Success?
    ensures r.Success? ==>
      var name := DecodeStrict(classifier(Encoding(ConsoleSymptomsDict, Tokenize(symptomsInput)))).value;
      r.value == Diagnosis(name, FetchDetails(tables, name))
    ensures r.Failure? ==> r.error == KeyError(classifier(Encoding(ConsoleSymptomsDict, Tokenize(symptomsInput))))
  {
    var userSymptoms := Tokenize(symptomsInput);
    var predictedDisease := GetPredictedValue(classifier, userSymptoms);
    if predictedDisease.Failure? {
      return Failure(predictedDisease.error);
    }
    var details := FetchDetails(tables, predictedDisease.value);
    r := Success(Diagnosis(predictedDisease.value, details));
  }
}
