# Symptom checker pipeline

A Dafny model of the symptom-to-disease pipeline in the two Python entry points of the Dobby
assistant:

- **Console app** (`DobbyVoiceFrApp/main.py`). It reads a comma-separated line of symptoms and
  splits and strips it into tokens. It encodes the tokens as a 0/1 vector over the 132-entry
  `symptoms_dict` and asks the classifier for a label. It decodes the label by indexing the
  41-entry `diseases_list`, then looks up the disease in five reference tables with `helper`.
- **Backend server** (`backendServer/app.py`, `POST /predict`). It takes the `symptoms` of the
  JSON body, with an empty list when that member is missing. It encodes them against its own
  copy of `symptoms_dict` and decodes the label with
  `diseases_list.get(label, "Unknown disease")`. The response is the disease name and what
  `fetch_details` gives for it.

Modules, one per part of the pipeline:

| file | module | models |
|---|---|---|
| `outcomes.dfy` | `Outcomes` | `Option` and `Result` |
| `vocabulary.dfy` | `Vocabulary` | what a `{name: position, ...}` dict literal evaluates to |
| `symptom_tables.dfy` | `SymptomTables` | both `symptoms_dict` literals, one constant per source line |
| `disease_labels.dfy` | `DiseaseLabels` | both `diseases_list` literals and the two ways to look up a label |
| `encoder.dfy` | `SymptomEncoder` | the encoding loop, as a method over an array |
| `details.dfy` | `DetailResolver` | `helper` / `fetch_details` over tables given as rows |
| `tokenizer.dfy` | `Tokenizer` | `[s.strip() for s in symptoms_input.split(',')]` |
| `console_app.dfy` | `ConsoleApp` | `get_predicted_value` and the pipeline of `main` |
| `backend_server.dfy` | `BackendServer` | the body of `predict` |

The classifier (`model.predict`) is a parameter of type `seq<int> -> int`. Each reference table
(a CSV file read by pandas) is a sequence of rows. A row holds the `Disease` cell and the cell
the lookup reads.

The two copies of `symptoms_dict` are not the same. The server spells three keys differently:

| position | console app | backend server |
|---|---|---|
| 73 | `swollen extremeties` | `swollen extremities` |
| 82 | `swellingjoints` | `swelling joints` |
| 102 | `dischromic _patches` | `dichromatic_patches` |

The model keeps each literal as written. It proves two things about the difference:
- Symptom lists that use none of these six spellings encode the same on both sides.
- Each of the six spellings sets a position on one side only.

The two copies of `diseases_list` are identical.

## Model

| member | source | states |
|---|---|---|
| Vocabulary.DictOf | DobbyVoiceFrApp/main.py:65-77 | The dict a `{name: position}` literal builds. Its keys are exactly the listed names. Each key's value is a position holding that key, and no later position holds it (a repeated key keeps its last position). No two keys share a value. |
| SymptomTables.ConsoleSymptomNames | DobbyVoiceFrApp/main.py:65-77 | The 132 keys of the console `symptoms_dict` as written, in order, one constant per source line. Each key's written value is its position. |
| SymptomTables.ConsoleSymptomsDict | DobbyVoiceFrApp/main.py:65-77 | The console `symptoms_dict` as written: the dict of those keys. |
| SymptomTables.ServerSymptomNames | backendServer/app.py:28-40 | The 132 keys of the server `symptoms_dict` as written, in order, one constant per source line. |
| SymptomTables.ServerSymptomsDict | backendServer/app.py:28-41 | The server `symptoms_dict` as written: the dict of those keys. |
| Vocabulary.ListedCard | DobbyVoiceFrApp/main.py:65-77 | A name list has as many distinct names as entries exactly when no name repeats. |
| Vocabulary.DictOfSize | DobbyVoiceFrApp/main.py:65-77 | The literal's dict has one entry per written key if and only if no key is written twice. |
| Vocabulary.DictOfPositions | DobbyVoiceFrApp/main.py:65-77 | Without repeats, every name maps to its own position. |
| Vocabulary.DictOfIndexing | DobbyVoiceFrApp/main.py:65-77 | Without repeats, the dict has one entry per name, and its values are exactly 0 .. n-1. So every value indexes a vector of length `len(dict)`. |
| SymptomTables.ConsoleSymptomNamesDistinct | DobbyVoiceFrApp/main.py:65-77 | No key of the console `symptoms_dict` is written twice. |
| SymptomTables.ConsoleSymptomsDictIndexing | DobbyVoiceFrApp/main.py:65-77 | The console `symptoms_dict` has 132 entries. Its values are distinct, cover exactly 0 .. 131, and each key maps to the position where the literal writes it. |
| SymptomTables.ServerSymptomNamesDistinct | backendServer/app.py:28-40 | No key of the server `symptoms_dict` is written twice. None of the three console spellings is among its keys. |
| SymptomTables.ServerSymptomsDictIndexing | backendServer/app.py:28-40 | The server `symptoms_dict` has 132 entries. Its values cover exactly 0 .. 131, each key at its written position. |
| SymptomTables.ServerLinesDrift | backendServer/app.py:38-39 | The two source lines where the literals differ: the server's line is the console's line with the three respelled names. |
| SymptomTables.ServerSymptomNamesDrift | backendServer/app.py:28-40 | The server's key list is the console's list with positions 73, 82 and 102 replaced, and nothing else changed. |
| SymptomTables.ConsoleSymptomNamesNotRespelled | DobbyVoiceFrApp/main.py:65-77 | None of the server's three spellings is a console key. |
| SymptomTables.ConsoleRespelledKeys | DobbyVoiceFrApp/main.py:75-76 | The console's spellings map to 73, 82 and 102. The server's spellings are not console keys. |
| SymptomTables.ServerRespelledKeys | backendServer/app.py:38-39 | The server's spellings map to 73, 82 and 102. The console's spellings are not server keys. |
| DiseaseLabels.ConsoleDiseasesList | DobbyVoiceFrApp/main.py:81-84 | The 41 label/name pairs of the console `diseases_list` as written. |
| DiseaseLabels.ServerDiseasesList | backendServer/app.py:44-49 | The 41 label/name pairs of the server `diseases_list` as written. |
| DiseaseLabels.DiseasesListsAgree | backendServer/app.py:44-49 | The server's `diseases_list` is the same table as the console's. |
| DiseaseLabels.DiseasesListLabels | DobbyVoiceFrApp/main.py:81-84 | The labels of `diseases_list` are exactly 0 .. 40. |
| DiseaseLabels.DiseasesListSize | DobbyVoiceFrApp/main.py:81-84 | `diseases_list` has 41 entries. |
| DiseaseLabels.UnknownDiseaseUnlisted | backendServer/app.py:73 | No label is named "Unknown disease", so the server's fallback cannot be confused with a real disease. |
| DiseaseLabels.DecodeStrict | DobbyVoiceFrApp/main.py:117 | Indexing `diseases_list` succeeds exactly for labels 0 .. 40, and then gives that label's own name, which is not the fallback. Any other label fails with `KeyError` carrying that label. |
| DiseaseLabels.DecodeOrUnknown | backendServer/app.py:73 | `.get` with a fallback is total. A label in the table gives its own name. "Unknown disease" comes back exactly for the labels outside 0 .. 40. |
| DiseaseLabels.DecodersAgree | backendServer/app.py:73 | The server's decode is the console's decode with every `KeyError` replaced by "Unknown disease". |
| SymptomEncoder.Encode | DobbyVoiceFrApp/main.py:112-115 | Fills a zeroed array of length `len(symptoms_dict)`: position i is 1 if and only if some token is a key mapping to i, and every other position is 0. The result equals the specification `Encoding`. |
| SymptomEncoder.EncodingAppend | DobbyVoiceFrApp/main.py:113-115 | One more token sets its key's position, or changes nothing when it is not a key. This is the loop step. |
| SymptomEncoder.EncodingIgnoresUnknown | DobbyVoiceFrApp/main.py:113-114 | A token that is not a key leaves the vector unchanged, wherever it is inserted. |
| SymptomEncoder.EncodingIgnoresOrderAndRepeats | DobbyVoiceFrApp/main.py:113-115 | Token lists holding the same keys, in any order and any number of times, give the same vector. |
| SymptomEncoder.EncodingSetsEachKey | DobbyVoiceFrApp/main.py:115 | Every supplied key has its position set. |
| SymptomEncoder.EncodingDeterminesKeys | DobbyVoiceFrApp/main.py:112-115 | With distinct values, two token lists give the same vector if and only if they hold the same keys. |
| SymptomEncoder.SameKeyAt | DobbyVoiceFrApp/main.py:112-115 | With distinct values, a key one list holds is held by any list that encodes the same. |
| SymptomEncoder.KeyChangesEncoding | backendServer/app.py:69-70 | A single token that is a key gives a vector other than the all-zero one. |
| SymptomEncoder.NonKeyKeepsEncoding | backendServer/app.py:69 | A single token that is not a key gives the all-zero vector. |
| SymptomEncoder.EncodingOfNames | DobbyVoiceFrApp/main.py:112-115 | For the dict of a list of names without repeats, position i is 1 exactly when the i-th name is among the tokens. |
| SymptomEncoder.EncodingsAgree | backendServer/app.py:66-70 | Two such name lists that differ only at names no token uses give the same vector. |
| SymptomEncoder.EncodingAllZero | backendServer/app.py:65-70 | No tokens give the all-zero vector. A token list gives it exactly when none of its tokens is a key. |
| DetailResolver.Matching | DobbyVoiceFrApp/main.py:50 | The filter on the `Disease` column: exactly the cells of the rows about the disease, and never more cells than rows. |
| DetailResolver.MatchingEmpty | DobbyVoiceFrApp/main.py:47 | The filter is empty exactly when no row is about the disease (`.empty`). |
| DetailResolver.MatchingAppend | DobbyVoiceFrApp/main.py:54 | Filtering a table in two parts filters each part and keeps table order. |
| DetailResolver.MatchingFirst | DobbyVoiceFrApp/main.py:47 | The filter starts with the cell of the first row about the disease (`.values[0]`). |
| DetailResolver.Description | DobbyVoiceFrApp/main.py:47 | "No description available." when no row matches, otherwise the `Description` of the first matching row, which is a row of the table about that disease. |
| DetailResolver.Precautions | DobbyVoiceFrApp/main.py:50-51 | The four `Precaution_1..4` cells of the first matching row, or `["No precautions listed."]`. The result has 4 entries when a row matches and 1 otherwise. |
| DetailResolver.ListedOr | DobbyVoiceFrApp/main.py:54-60 | Medications, diet and workout: the placeholder when no row matches. Otherwise the filter itself: the cell of every matching row, one per row, in table order. |
| DetailResolver.ListedInTableOrder | DobbyVoiceFrApp/main.py:54-60 | When both parts of a table match, the listed cells are the first part's cells followed by the second part's. |
| DetailResolver.FetchDetails | backendServer/app.py:52-59 | Total for every disease name. Each field is its own lookup: the first matching description, the first matching precautions, the filtered medication, diet and workout cells, or the field's fixed placeholder. |
| DetailResolver.FirstRowIndex | DobbyVoiceFrApp/main.py:47 | When some row is about the disease, the position of the first such row. |
| DetailResolver.FetchDetailsOfUnlistedDisease | backendServer/app.py:53-58 | A name that no table lists, such as "Unknown disease", gets all five placeholders. |
| DetailResolver.FetchDetailsFieldsIndependent | backendServer/app.py:53-58 | Each field depends only on its own table and the name, so tables that agree on one column give that field alike. |
| Tokenizer.IsSpace | DobbyVoiceFrApp/main.py:154 | The characters `str.isspace()` accepts, which `str.strip()` removes: the Unicode White_Space characters and U+001C .. U+001F. |
| Tokenizer.SpaceEnd | DobbyVoiceFrApp/main.py:154 | The end of the leading whitespace from a position: everything skipped is whitespace, and what follows is not. |
| Tokenizer.SpaceStart | DobbyVoiceFrApp/main.py:154 | The start of the trailing whitespace, searching back no further than a bound. |
| Tokenizer.Strip | DobbyVoiceFrApp/main.py:154 | `str.strip()`: the result is a contiguous part of the string, only whitespace lies around it, and it neither starts nor ends with whitespace. |
| Tokenizer.StripKeepsOut | DobbyVoiceFrApp/main.py:154 | Stripping adds no character. |
| Tokenizer.StripTrimmed | DobbyVoiceFrApp/main.py:154 | A string without leading or trailing whitespace strips to itself. |
| Tokenizer.StripIdempotent | DobbyVoiceFrApp/main.py:154 | Stripping twice is stripping once. |
| Tokenizer.Split | DobbyVoiceFrApp/main.py:154 | `str.split(',')`: one piece more than separators, no piece holds the separator, and joining the pieces with the separator gives back the input. |
| Tokenizer.SplitJoin | DobbyVoiceFrApp/main.py:154 | Splitting a joined list of separator-free pieces gives the pieces back. |
| Tokenizer.SplitNoSeparator | DobbyVoiceFrApp/main.py:154 | A string without the separator is a single piece. |
| Tokenizer.SplitPrefix | DobbyVoiceFrApp/main.py:154 | A separator-free prefix followed by the separator becomes the first piece. |
| Tokenizer.Tokenize | DobbyVoiceFrApp/main.py:154 | Token i is the stripped i-th comma-separated piece. So there are (number of commas + 1) tokens, no token holds a comma, and none starts or ends with whitespace. |
| ConsoleApp.ConsoleInputVector | DobbyVoiceFrApp/main.py:112-115 | The console classifier always sees a vector of length 132. Position i is 1 exactly when the i-th console key is among the tokens. |
| ConsoleApp.GetPredictedValue | DobbyVoiceFrApp/main.py:111-117 | The result is the strict decode of the classifier's label for the encoded tokens: a `KeyError` exactly when the label is outside 0 .. 40. |
| ConsoleApp.Diagnose | DobbyVoiceFrApp/main.py:154-160 | Tokenize, predict and resolve. It succeeds exactly when the label decodes, with that name and `helper`'s details for it. Otherwise it ends with the `KeyError` of the label. |
| BackendServer.RequestedSymptoms | backendServer/app.py:65 | `data.get('symptoms', [])`: the listed symptoms, or none when the member is missing. |
| BackendServer.ServerInputVector | backendServer/app.py:66-70 | The server classifier always sees a vector of length 132. Position i is 1 exactly when the i-th server key is among the requested symptoms. |
| BackendServer.MissingSymptomsAllZero | backendServer/app.py:65-66 | A body without `symptoms` gives the all-zero vector. |
| BackendServer.ServerEncodesLikeConsole | backendServer/app.py:28-40 | Symptom lists avoiding the six drifted spellings encode the same on the server as in the console app. |
| BackendServer.ServerSpellingOnServer | backendServer/app.py:38-39 | Each server spelling of a drifted symptom sets a position on the server. |
| BackendServer.ServerSpellingNotOnConsole | DobbyVoiceFrApp/main.py:75-76 | Each server spelling is ignored by the console app. |
| BackendServer.ConsoleSpellingOnConsole | DobbyVoiceFrApp/main.py:75-76 | Each console spelling of a drifted symptom sets a position in the console app. |
| BackendServer.ConsoleSpellingNotOnServer | backendServer/app.py:38-39 | Each console spelling is ignored by the server. |
| BackendServer.Predict | backendServer/app.py:63-83 | The response's `disease` is the `.get` decode of the classifier's label for the encoded symptoms. It is "Unknown disease" exactly when the label is outside 0 .. 40. The other five fields are `fetch_details` of that name. |

## Left out

- Speech recognition, text to speech and the wake-word loop (`DobbyVoiceFrApp/main.py:86-140`): these are external services and blocking I/O. The text that `speech_to_text` returns, including its two apology strings, reaches the model only as the input string of `ConsoleApp.Diagnose`.
- Reading the console line (`input(...).strip()` at `DobbyVoiceFrApp/main.py:145`) and the `audio` branch (lines 148-149). `ConsoleApp.Diagnose` takes the line that results.
- Printing and the formatted `result_text` (`DobbyVoiceFrApp/main.py:163-176`): this is presentation only.
- The classifier: loading it with pickle and its internals. It is the function parameter `classifier`. Its label is taken to be an integer, so a label of another type is not modelled.
- Loading the CSV files with pandas and the `Disease` column checks. The tables are given as rows.
- numpy and pandas representations. The vector entries are the integers 0 and 1, not `float64`. `.values` and `.tolist()` become sequences, and NaN cells in the precaution columns are not modelled.
- Flask routing, CORS, `jsonify`, the health check and the server start.
- A JSON body that is not an object (`[]`, `"itching"`, `5`, `null`): `data.get` raises `AttributeError` at `backendServer/app.py:65` and the endpoint answers with a server error. The model's `RequestBody` is always an object, so `BackendServer.Predict` has no such error path.
- `"symptoms": null`: `.get` returns `None` and the loop at `backendServer/app.py:68` raises `TypeError`. The model's `None` for `symptoms` means the member is absent, not `null`.
- A JSON body whose `symptoms` is not a list of strings. Python would iterate over a string's characters, or fail on a number. The model's body holds either no `symptoms` or a list of strings.
- The TypeScript front end under `app/`.
- `fetch_details` is deterministic by construction, since `DetailResolver.FetchDetails` is a function. No separate lemma states it.
- The console's `KeyError` for a label outside 0 .. 40 is modelled as a `Failure` result that `ConsoleApp.Diagnose` passes on, rather than as a precondition. The source handles the case by raising, and the model follows it.
