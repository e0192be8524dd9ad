/**
 * The `/predict` endpoint of backendServer/app.py: the symptoms of the JSON body are encoded
 * against the server's vocabulary, the classifier's label is decoded with a fallback name, and
 * the details of that name make up the response.
 */
module BackendServer {
  import opened Outcomes
  import opened SymptomTables
  import opened SymptomEncoder
  import opened DiseaseLabels
  import opened DetailResolver

  /** The parsed JSON body; its `symptoms` member may be missing. */
  datatype RequestBody = RequestBody(symptoms: Option<seq<string>>)

  /** The JSON object the endpoint answers with. */
  datatype Response = Response(
    disease: string,
    description: string,
    precautions: seq<string>,
    medications: seq<string>,
    diet: seq<string>,
    workout: seq<string>
  )

  /** `data.get('symptoms', [])`: the symptoms the body lists, none when it lists none. */
  function RequestedSymptoms(body: RequestBody): (symptoms: seq<string>)
    ensures body.symptoms.Some? ==> symptoms == body.symptoms.value
    ensures body.symptoms.None? ==> symptoms == []
  {
    body.symptoms.GetOr([])
  }

  /**
   * The server's classifier sees a vector of length 132, with a 1 exactly at the positions of
   * the server's symptom names among the requested ones.
   */
  lemma ServerInputVector(body: RequestBody)
    ensures |Encoding(ServerSymptomsDict, RequestedSymptoms(body))| == 132
    ensures forall i :: 0 <= i < 132 ==>
      (Encoding(ServerSymptomsDict, RequestedSymptoms(body))[i] == 1 <==> ServerSymptomNames[i] in RequestedSymptoms(body))
  {
    ServerSymptomNamesDistinct();
    ServerSpellings();
    EncodingOfNames(ServerSymptomNames, RequestedSymptoms(body));
  }

  /**
   * The server's vocabulary spells three symptoms differently from the console app's (positions
   * 73, 82 and 102). Symptom lists that use none of those six spellings are encoded alike by
   * both, and each of the server's spellings sets its position only on the server.
   */
  lemma ServerEncodesLikeConsole(tokens: seq<string>)
    requires forall t :: t in tokens ==>
      t != "swollen extremeties" && t != "swellingjoints" && t != "dischromic _patches" && t !in ServerRespellings
    ensures Encoding(ServerSymptomsDict, tokens) == Encoding(ConsoleSymptomsDict, tokens)
  {
    ConsoleSymptomNamesDistinct();
    ServerSymptomNamesDistinct();
    ConsoleSymptomCount();
    ServerSymptomNamesDrift();
    ConsoleSpellings();
    ServerSpellings();
    var c, s := ConsoleSymptomNames, ServerSymptomNames;
    forall i | 0 <= i < |c| && c[i] != s[i] ensures c[i] !in tokens && s[i] !in tokens {
      assert i == 73 || i == 82 || i == 102;
    }
    EncodingsAgree(c, s, tokens);
  }

  /** A server spelling of a drifted symptom changes the server's vector. */
  lemma ServerSpellingOnServer(x: string)
    requires x in ServerRespellings
    ensures Encoding(ServerSymptomsDict, [x]) != Encoding(ServerSymptomsDict, [])
  {
    ServerRespelledKeys();
    ServerSymptomsDictIndexing();
    KeyChangesEncoding(ServerSymptomsDict, x);
  }

  /** A server spelling of a drifted symptom leaves the console's vector all zero. */
  lemma ServerSpellingNotOnConsole(x: string)
    requires x in ServerRespellings
    ensures Encoding(ConsoleSymptomsDict, [x]) == Encoding(ConsoleSymptomsDict, [])
  {
    ConsoleRespelledKeys();
    NonKeyKeepsEncoding(ConsoleSymptomsDict, x);
  }

  /** A console spelling of a drifted symptom changes the console's vector. */
  lemma ConsoleSpellingOnConsole(x: string)
    requires x == "swollen extremeties" || x == "swellingjoints" || x == "dischromic _patches"
    ensures Encoding(ConsoleSymptomsDict, [x]) != Encoding(ConsoleSymptomsDict, [])
  {
    ConsoleRespelledKeys();
    ConsoleSymptomsDictIndexing();
    KeyChangesEncoding(ConsoleSymptomsDict, x);
  }

  /** A console spelling of a drifted symptom leaves the server's vector all zero. */
  lemma ConsoleSpellingNotOnServer(x: string)
    requires x == "swollen extremeties" || x == "swellingjoints" || x == "dischromic _patches"
    ensures Encoding(ServerSymptomsDict, [x]) == Encoding(ServerSymptomsDict, [])
  {
    ServerRespelledKeys();
    NonKeyKeepsEncoding(ServerSymptomsDict, x);
  }

  /** A body without `symptoms` is not an error: the classifier is asked about the all-zero vector. */
  lemma MissingSymptomsAllZero(body: RequestBody)
    requires body.symptoms.None?
    ensures forall i :: 0 <= i < |ServerSymptomsDict| ==> Encoding(ServerSymptomsDict, RequestedSymptoms(body))[i] == 0
  {
    ServerSymptomsDictIndexing();
    EncodingAllZero(ServerSymptomsDict, []);
  }

  /**
   * `predict()`: encode the requested symptoms, classify, decode with
   * `diseases_list.get(label, "Unknown disease")` and answer with that name and its details.
   * The endpoint never fails on the label: an unknown one becomes "Unknown disease".
   */
  method Predict(classifier: seq<int> -> int, tables: ReferenceTables, body: RequestBody)
    returns (response: Response)
    ensures var predicted := classifier(Encoding(ServerSymptomsDict, RequestedSymptoms(body)));
      response.disease == DecodeOrUnknown(predicted)
    ensures var predicted := classifier(Encoding(ServerSymptomsDict, RequestedSymptoms(body)));
      response.disease == UnknownDisease <==> !(0 <= predicted <= 40)
    ensures var d := FetchDetails(tables, response.disease);
      response == Response(response.disease, d.description, d.precautions, d.medications, d.diet, d.workout)
  {
    var symptoms := RequestedSymptoms(body);
    ServerSymptomsDictIndexing();
    var inputVector := Encode(ServerSymptomsDict, symptoms);
    var predictedDisease := classifier(inputVector);
    var diseaseName := DecodeOrUnknown(predictedDisease);
    var details := FetchDetails(tables, diseaseName);
    response := Response(diseaseName, details.description, details.precautions,
      details.medications, details.diet, details.workout);
  }
}
