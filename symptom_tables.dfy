/**
 * The two copies of the symptom vocabulary `symptoms_dict`, as each file writes it: the
 * console app's in DobbyVoiceFrApp/main.py and the backend server's in backendServer/app.py.
 * Both literals list 132 keys with the values 0, 1, ..., 131 in order, so each copy is kept
 * here as the list of its keys (one constant per source line) and the dict is `DictOf` of that
 * list. The copies differ in three keys, at positions 73, 82 and 102.
 */
module SymptomTables {
  import opened Vocabulary

  // DobbyVoiceFrApp/main.py, the keys of `symptoms_dict` on each source line.
  const ConsoleLine65: seq<string> := ["itching", "skin rash", "nodal skin eruptions", "continuous sneezing", "shivering", "chills", "joint pain", "stomach pain", "acidity", "ulcers on tongue"]
  const ConsoleLine66: seq<string> := ["muscle wasting", "vomiting", "burning micturition", "spotting urination", "fatigue", "weight gain", "anxiety", "cold hands and feets", "mood swings"]
  const ConsoleLine67: seq<string> := ["weight loss", "restlessness", "lethargy"]
  const ConsoleLine68: seq<string> := ["patches in throat", "irregular sugar level", "cough", "high fever", "sunken eyes", "breathlessness", "sweating"]
  const ConsoleLine69: seq<string> := ["dehydration", "indigestion", "headache", "yellowish skin", "dark urine", "nausea", "loss of appetite", "pain behind the eyes"]
  const ConsoleLine70: seq<string> := ["back pain", "constipation", "abdominal pain", "diarrhoea", "mild fever", "yellow urine", "yellowing of eyes", "acute liver failure"]
  const ConsoleLine71: seq<string> := ["fluid overload", "swelling of stomach", "swelled lymph_nodes", "malaise", "blurred and distorted vision", "phlegm", "throat irritation"]
  const ConsoleLine72: seq<string> := ["redness of eyes", "sinus pressure", "runny nose", "congestion"]
  const ConsoleLine73: seq<string> := ["chest pain", "weakness in limbs", "e", "pain during bowel movements", "pain in anal region", "bloody stool", "irritation in anus", "neck pain", "dizziness", "cramps", "bruising", "obesity", "swollen legs"]
  const ConsoleLine74: seq<string> := ["swollen blood vessels", "puffy face and eyes", "enlarged thyroid", "brittle nails"]
  const ConsoleLine75: seq<string> := ["swollen extremeties", "excessive hunger", "extra marital contacts", "drying and tingling lips", "slurred speech", "knee pain", "hip joint_pain", "muscle weakness", "stiffneck", "swellingjoints", "movement stiffness", "spinning_movements", "loss_of_balance", "unsteadiness", "weakness_of_one_body_side"]
  const ConsoleLine76: seq<string> := ["loss_of_smell", "bladder_discomfort", "foul_smell_of urine", "continuous_feel_of_urine", "passage_of_gases", "internal_itching", "toxic_look_(typhos)", "depression", "irritability", "muscle_pain", "altered_sensorium", "red_spots_over_body", "belly_pain", "abnormal_menstruation", "dischromic _patches", "watering_from_eyes", "increased_appetite", "polyuria", "family_history", "mucoid_sputum", "rusty_sputum"]
  const ConsoleLine77: seq<string> := ["lack_of_concentration", "visual_disturbances", "receiving_blood_transfusion", "receiving_unsterile_injections", "coma", "stomach_bleeding", "distention_of_abdomen", "history_of_alcohol_consumption", "fluid_overload.1", "blood_in_sputum", "prominent_veins_on_calf", "palpitations", "painful_walking", "pus_filled_pimples", "blackheads", "scurring", "skin_peeling", "silver_like_dusting", "small_dents_in_nails", "inflammatory_nails", "blister", "red_sore_around_nose", "yellow_crust_ooze"]

  /** The console copy's keys in the order the literal lists them; a key's value is its position. */
  const ConsoleSymptomNames: seq<string> :=
    ConsoleLine65 + ConsoleLine66 + ConsoleLine67 + ConsoleLine68 + ConsoleLine69 + ConsoleLine70 + ConsoleLine71 +
    ConsoleLine72 + ConsoleLine73 + ConsoleLine74 + ConsoleLine75 + ConsoleLine76 + ConsoleLine77

  /** `symptoms_dict` of the console app. */
  const ConsoleSymptomsDict: map<string, nat> := DictOf(ConsoleSymptomNames)

  // backendServer/app.py, the keys of `symptoms_dict` on each source line.
  const ServerLine28: seq<string> := ["itching", "skin rash", "nodal skin eruptions", "continuous sneezing", "shivering", "chills", "joint pain", "stomach pain", "acidity", "ulcers on tongue"]
  const ServerLine29: seq<string> := ["muscle wasting", "vomiting", "burning micturition", "spotting urination", "fatigue", "weight gain", "anxiety", "cold hands and feets", "mood swings"]
  const ServerLine30: seq<string> := ["weight loss", "restlessness", "lethargy"]
  const ServerLine31: seq<string> := ["patches in throat", "irregular sugar level", "cough", "high fever", "sunken eyes", "breathlessness", "sweating"]
  const ServerLine32: seq<string> := ["dehydration", "indigestion", "headache", "yellowish skin", "dark urine", "nausea", "loss of appetite", "pain behind the eyes"]
  const ServerLine33: seq<string> := ["back pain", "constipation", "abdominal pain", "diarrhoea", "mild fever", "yellow urine", "yellowing of eyes", "acute liver failure"]
  const ServerLine34: seq<string> := ["fluid overload", "swelling of stomach", "swelled lymph_nodes", "malaise", "blurred and distorted vision", "phlegm", "throat irritation"]
  const ServerLine35: seq<string> := ["redness of eyes", "sinus pressure", "runny nose", "congestion"]
  const ServerLine36: seq<string> := ["chest pain", "weakness in limbs", "e", "pain during bowel movements", "pain in anal region", "bloody stool", "irritation in anus", "neck pain", "dizziness", "cramps", "bruising", "obesity", "swollen legs"]
  const ServerLine37: seq<string> := ["swollen blood vessels", "puffy face and eyes", "enlarged thyroid", "brittle nails"]
  const ServerLine38: seq<string> := ["swollen extremities", "excessive hunger", "extra marital contacts", "drying and tingling lips", "slurred speech", "knee pain", "hip joint_pain", "muscle weakness", "stiffneck", "swelling joints", "movement stiffness", "spinning_movements", "loss_of_balance", "unsteadiness", "weakness_of_one_body_side"]
  const ServerLine39: seq<string> := ["loss_of_smell", "bladder_discomfort", "foul_smell_of urine", "continuous_feel_of_urine", "passage_of_gases", "internal_itching", "toxic_look_(typhos)", "depression", "irritability", "muscle_pain", "altered_sensorium", "red_spots_over_body", "belly_pain", "abnormal_menstruation", "dichromatic_patches", "watering_from_eyes", "increased_appetite", "polyuria", "family_history", "mucoid_sputum", "rusty_sputum"]
  const ServerLine40: seq<string> := ["lack_of_concentration", "visual_disturbances", "receiving_blood_transfusion", "receiving_unsterile_injections", "coma", "stomach_bleeding", "distention_of_abdomen", "history_of_alcohol_consumption", "fluid_overload.1", "blood_in_sputum", "prominent_veins_on_calf", "palpitations", "painful_walking", "pus_filled_pimples", "blackheads", "scurring", "skin_peeling", "silver_like_dusting", "small_dents_in_nails", "inflammatory_nails", "blister", "red_sore_around_nose", "yellow_crust_ooze"]

  /** The server copy's keys in the order the literal lists them; a key's value is its position. */
  const ServerSymptomNames: seq<string> :=
    ServerLine28 + ServerLine29 + ServerLine30 + ServerLine31 + ServerLine32 + ServerLine33 + ServerLine34 +
    ServerLine35 + ServerLine36 + ServerLine37 + ServerLine38 + ServerLine39 + ServerLine40

  /** `symptoms_dict` of the backend server. */
  const ServerSymptomsDict: map<string, nat> := DictOf(ServerSymptomNames)

  // The distinctness proof of the console keys, one source line or one pair of source lines per
  // lemma: each compares at most a few hundred pairs of literals, which keeps every proof
  // obligation small.

  lemma ConsoleLine65Distinct() ensures Distinct(ConsoleLine65) {}
  lemma ConsoleLine66Distinct() ensures Distinct(ConsoleLine66) {}
  lemma ConsoleLine67Distinct() ensures Distinct(ConsoleLine67) {}
  lemma ConsoleLine68Distinct() ensures Distinct(ConsoleLine68) {}
  lemma ConsoleLine69Distinct() ensures Distinct(ConsoleLine69) {}
  lemma ConsoleLine70Distinct() ensures Distinct(ConsoleLine70) {}
  lemma ConsoleLine71Distinct() ensures Distinct(ConsoleLine71) {}
  lemma ConsoleLine72Distinct() ensures Distinct(ConsoleLine72) {}
  lemma ConsoleLine73Distinct() ensures Distinct(ConsoleLine73) {
    ConsoleLine73HalvesDistinct();
    ConsoleLine73HalvesApart();
    DistinctAppend(ConsoleLine73[..6], ConsoleLine73[6..]);
    assert ConsoleLine73[..6] + ConsoleLine73[6..] == ConsoleLine73;
  }
  lemma ConsoleLine73HalvesDistinct() ensures Distinct(ConsoleLine73[..6]) && Distinct(ConsoleLine73[6..]) {}
  lemma ConsoleLine73HalvesApart() ensures Apart(ConsoleLine73[..6], ConsoleLine73[6..]) {}
  lemma ConsoleLine74Distinct() ensures Distinct(ConsoleLine74) {}
  lemma ConsoleLine75Distinct() ensures Distinct(ConsoleLine75) {
    ConsoleLine75HalvesDistinct();
    ConsoleLine75HalvesApart();
    DistinctAppend(ConsoleLine75[..7], ConsoleLine75[7..]);
    assert ConsoleLine75[..7] + ConsoleLine75[7..] == ConsoleLine75;
  }
  lemma ConsoleLine75HalvesDistinct() ensures Distinct(ConsoleLine75[..7]) && Distinct(ConsoleLine75[7..]) {}
  lemma ConsoleLine75HalvesApart() ensures Apart(ConsoleLine75[..7], ConsoleLine75[7..]) {}
  lemma ConsoleLine76Distinct() ensures Distinct(ConsoleLine76) {
    ConsoleLine76HalvesDistinct();
    ConsoleLine76HalvesApart();
    DistinctAppend(ConsoleLine76[..10], ConsoleLine76[10..]);
    assert ConsoleLine76[..10] + ConsoleLine76[10..] == ConsoleLine76;
  }
  lemma ConsoleLine76HalvesDistinct() ensures Distinct(ConsoleLine76[..10]) && Distinct(ConsoleLine76[10..]) {}
  lemma ConsoleLine76HalvesApart() ensures Apart(ConsoleLine76[..10], ConsoleLine76[10..]) {}
  lemma ConsoleLine77Distinct() ensures Distinct(ConsoleLine77) {
    ConsoleLine77HalvesDistinct();
    ConsoleLine77HalvesApart();
    DistinctAppend(ConsoleLine77[..11], ConsoleLine77[11..]);
    assert ConsoleLine77[..11] + ConsoleLine77[11..] == ConsoleLine77;
  }
  lemma ConsoleLine77HalvesDistinct() ensures Distinct(ConsoleLine77[..11]) && Distinct(ConsoleLine77[11..]) {}
  lemma ConsoleLine77HalvesApart() ensures Apart(ConsoleLine77[..11], ConsoleLine77[11..]) {}
  lemma ConsoleLines65And66Apart() ensures Apart(ConsoleLine65, ConsoleLine66) {}
  lemma ConsoleLines65And67Apart() ensures Apart(ConsoleLine65, ConsoleLine67) {}
  lemma ConsoleLines65And68Apart() ensures Apart(ConsoleLine65, ConsoleLine68) {}
  lemma ConsoleLines65And69Apart() ensures Apart(ConsoleLine65, ConsoleLine69) {}
  lemma ConsoleLines65And70Apart() ensures Apart(ConsoleLine65, ConsoleLine70) {}
  lemma ConsoleLines65And71Apart() ensures Apart(ConsoleLine65, ConsoleLine71) {}
  lemma ConsoleLines65And72Apart() ensures Apart(ConsoleLine65, ConsoleLine72) {}
  lemma ConsoleLines65And73Apart() ensures Apart(ConsoleLine65, ConsoleLine73) {}
  lemma ConsoleLines65And74Apart() ensures Apart(ConsoleLine65, ConsoleLine74) {}
  lemma ConsoleLines65And75Apart() ensures Apart(ConsoleLine65, ConsoleLine75) {}
  lemma ConsoleLines65And76Apart() ensures Apart(ConsoleLine65, ConsoleLine76) {}
  lemma ConsoleLines65And77Apart() ensures Apart(ConsoleLine65, ConsoleLine77) {}
  lemma ConsoleLines66And67Apart() ensures Apart(ConsoleLine66, ConsoleLine67) {}
  lemma ConsoleLines66And68Apart() ensures Apart(ConsoleLine66, ConsoleLine68) {}
  lemma ConsoleLines66And69Apart() ensures Apart(ConsoleLine66, ConsoleLine69) {}
  lemma ConsoleLines66And70Apart() ensures Apart(ConsoleLine66, ConsoleLine70) {}
  lemma ConsoleLines66And71Apart() ensures Apart(ConsoleLine66, ConsoleLine71) {}
  lemma ConsoleLines66And72Apart() ensures Apart(ConsoleLine66, ConsoleLine72) {}
  lemma ConsoleLines66And73Apart() ensures Apart(ConsoleLine66, ConsoleLine73) {}
  lemma ConsoleLines66And74Apart() ensures Apart(ConsoleLine66, ConsoleLine74) {}
  lemma ConsoleLines66And75Apart() ensures Apart(ConsoleLine66, ConsoleLine75) {}
  lemma ConsoleLines66And76Apart() ensures Apart(ConsoleLine66, ConsoleLine76) {}
  lemma ConsoleLines66And77Apart() ensures Apart(ConsoleLine66, ConsoleLine77) {}
  lemma ConsoleLines67And68Apart() ensures Apart(ConsoleLine67, ConsoleLine68) {}
  lemma ConsoleLines67And69Apart() ensures Apart(ConsoleLine67, ConsoleLine69) {}
  lemma ConsoleLines67And70Apart() ensures Apart(ConsoleLine67, ConsoleLine70) {}
  lemma ConsoleLines67And71Apart() ensures Apart(ConsoleLine67, ConsoleLine71) {}
  lemma ConsoleLines67And72Apart() ensures Apart(ConsoleLine67, ConsoleLine72) {}
  lemma ConsoleLines67And73Apart() ensures Apart(ConsoleLine67, ConsoleLine73) {}
  lemma ConsoleLines67And74Apart() ensures Apart(ConsoleLine67, ConsoleLine74) {}
  lemma ConsoleLines67And75Apart() ensures Apart(ConsoleLine67, ConsoleLine75) {}
  lemma ConsoleLines67And76Apart() ensures Apart(ConsoleLine67, ConsoleLine76) {}
  lemma ConsoleLines67And77Apart() ensures Apart(ConsoleLine67, ConsoleLine77) {}
  lemma ConsoleLines68And69Apart() ensures Apart(ConsoleLine68, ConsoleLine69) {}
  lemma ConsoleLines68And70Apart() ensures Apart(ConsoleLine68, ConsoleLine70) {}
  lemma ConsoleLines68And71Apart() ensures Apart(ConsoleLine68, ConsoleLine71) {}
  lemma ConsoleLines68And72Apart() ensures Apart(ConsoleLine68, ConsoleLine72) {}
  lemma ConsoleLines68And73Apart() ensures Apart(ConsoleLine68, ConsoleLine73) {}
  lemma ConsoleLines68And74Apart() ensures Apart(ConsoleLine68, ConsoleLine74) {}
  lemma ConsoleLines68And75Apart() ensures Apart(ConsoleLine68, ConsoleLine75) {}
  lemma ConsoleLines68And76Apart() ensures Apart(ConsoleLine68, ConsoleLine76) {}
  lemma ConsoleLines68And77Apart() ensures Apart(ConsoleLine68, ConsoleLine77) {}
  lemma ConsoleLines69And70Apart() ensures Apart(ConsoleLine69, ConsoleLine70) {}
  lemma ConsoleLines69And71Apart() ensures Apart(ConsoleLine69, ConsoleLine71) {}
  lemma ConsoleLines69And72Apart() ensures Apart(ConsoleLine69, ConsoleLine72) {}
  lemma ConsoleLines69And73Apart() ensures Apart(ConsoleLine69, ConsoleLine73) {}
  lemma ConsoleLines69And74Apart() ensures Apart(ConsoleLine69, ConsoleLine74) {}
  lemma ConsoleLines69And75Apart() ensures Apart(ConsoleLine69, ConsoleLine75) {}
  lemma ConsoleLines69And76Apart() ensures Apart(ConsoleLine69, ConsoleLine76) {}
  lemma ConsoleLines69And77Apart() ensures Apart(ConsoleLine69, ConsoleLine77) {}
  lemma ConsoleLines70And71Apart() ensures Apart(ConsoleLine70, ConsoleLine71) {}
  lemma ConsoleLines70And72Apart() ensures Apart(ConsoleLine70, ConsoleLine72) {}
  lemma ConsoleLines70And73Apart() ensures Apart(ConsoleLine70, ConsoleLine73) {}
  lemma ConsoleLines70And74Apart() ensures Apart(ConsoleLine70, ConsoleLine74) {}
  lemma ConsoleLines70And75Apart() ensures Apart(ConsoleLine70, ConsoleLine75) {}
  lemma ConsoleLines70And76Apart() ensures Apart(ConsoleLine70, ConsoleLine76) {}
  lemma ConsoleLines70And77Apart() ensures Apart(ConsoleLine70, ConsoleLine77) {}
  lemma ConsoleLines71And72Apart() ensures Apart(ConsoleLine71, ConsoleLine72) {}
  lemma ConsoleLines71And73Apart() ensures Apart(ConsoleLine71, ConsoleLine73) {}
  lemma ConsoleLines71And74Apart() ensures Apart(ConsoleLine71, ConsoleLine74) {}
  lemma ConsoleLines71And75Apart() ensures Apart(ConsoleLine71, ConsoleLine75) {}
  lemma ConsoleLines71And76Apart() ensures Apart(ConsoleLine71, ConsoleLine76) {}
  lemma ConsoleLines71And77Apart() ensures Apart(ConsoleLine71, ConsoleLine77) {}
  lemma ConsoleLines72And73Apart() ensures Apart(ConsoleLine72, ConsoleLine73) {}
  lemma ConsoleLines72And74Apart() ensures Apart(ConsoleLine72, ConsoleLine74) {}
  lemma ConsoleLines72And75Apart() ensures Apart(ConsoleLine72, ConsoleLine75) {}
  lemma ConsoleLines72And76Apart() ensures Apart(ConsoleLine72, ConsoleLine76) {}
  lemma ConsoleLines72And77Apart() ensures Apart(ConsoleLine72, ConsoleLine77) {}
  lemma ConsoleLines73And74Apart() ensures Apart(ConsoleLine73, ConsoleLine74) {}
  lemma ConsoleLines73And75Apart() ensures Apart(ConsoleLine73, ConsoleLine75) {}
  lemma ConsoleLines73And76Apart() ensures Apart(ConsoleLine73, ConsoleLine76) {}
  lemma ConsoleLines73And77Apart() ensures Apart(ConsoleLine73, ConsoleLine77) {}
  lemma ConsoleLines74And75Apart() ensures Apart(ConsoleLine74, ConsoleLine75) {}
  lemma ConsoleLines74And76Apart() ensures Apart(ConsoleLine74, ConsoleLine76) {}
  lemma ConsoleLines74And77Apart() ensures Apart(ConsoleLine74, ConsoleLine77) {}
  lemma ConsoleLines75And76Apart() ensures Apart(ConsoleLine75, ConsoleLine76) {}
  lemma ConsoleLines75And77Apart() ensures Apart(ConsoleLine75, ConsoleLine77) {}
  lemma ConsoleLines76And77Apart() ensures Apart(ConsoleLine76, ConsoleLine77) {}

  /** No key of the console vocabulary is written twice. */
  lemma ConsoleSymptomNamesDistinct()
    ensures Distinct(ConsoleSymptomNames)
  {
    ConsoleLine65Distinct();
    ConsoleLine66Distinct();
    ConsoleLine67Distinct();
    ConsoleLine68Distinct();
    ConsoleLine69Distinct();
    ConsoleLine70Distinct();
    ConsoleLine71Distinct();
    ConsoleLine72Distinct();
    ConsoleLine73Distinct();
    ConsoleLine74Distinct();
    ConsoleLine75Distinct();
    ConsoleLine76Distinct();
    ConsoleLine77Distinct();
    var prefix := ConsoleLine65;
    // line 66 against lines 65-65
    ConsoleLines65And66Apart();
    DistinctAppend(prefix, ConsoleLine66);
    prefix := prefix + ConsoleLine66;
    // line 67 against lines 65-66
    ConsoleLines65And67Apart();
    ConsoleLines66And67Apart();
    ApartAppend(ConsoleLine65, ConsoleLine66, ConsoleLine67);
    DistinctAppend(prefix, ConsoleLine67);
    prefix := prefix + ConsoleLine67;
    // line 68 against lines 65-67
    ConsoleLines65And68Apart();
    ConsoleLines66And68Apart();
    ApartAppend(ConsoleLine65, ConsoleLine66, ConsoleLine68);
    ConsoleLines67And68Apart();
    ApartAppend((ConsoleLine65 + ConsoleLine66), ConsoleLine67, ConsoleLine68);
    DistinctAppend(prefix, ConsoleLine68);
    prefix := prefix + ConsoleLine68;
    // line 69 against lines 65-68
    ConsoleLines65And69Apart();
    ConsoleLines66And69Apart();
    ApartAppend(ConsoleLine65, ConsoleLine66, ConsoleLine69);
    ConsoleLines67And69Apart();
    ApartAppend((ConsoleLine65 + ConsoleLine66), ConsoleLine67, ConsoleLine69);
    ConsoleLines68And69Apart();
    ApartAppend(((ConsoleLine65 + ConsoleLine66) + ConsoleLine67), ConsoleLine68, ConsoleLine69);
    DistinctAppend(prefix, ConsoleLine69);
    prefix := prefix + ConsoleLine69;
    // line 70 against lines 65-69
    ConsoleLines65And70Apart();
    ConsoleLines66And70Apart();
    ApartAppend(ConsoleLine65, ConsoleLine66, ConsoleLine70);
    ConsoleLines67And70Apart();
    ApartAppend((ConsoleLine65 + ConsoleLine66), ConsoleLine67, ConsoleLine70);
    ConsoleLines68And70Apart();
    ApartAppend(((ConsoleLine65 + ConsoleLine66) + ConsoleLine67), ConsoleLine68, ConsoleLine70);
    ConsoleLines69And70Apart();
    ApartAppend((((ConsoleLine65 + ConsoleLine66) + ConsoleLine67) + ConsoleLine68), ConsoleLine69, ConsoleLine70);
    DistinctAppend(prefix, ConsoleLine70);
    prefix := prefix + ConsoleLine70;
    // line 71 against lines 65-70
    ConsoleLines65And71Apart();
    ConsoleLines66And71Apart();
    ApartAppend(ConsoleLine65, ConsoleLine66, ConsoleLine71);
    ConsoleLines67And71Apart();
    ApartAppend((ConsoleLine65 + ConsoleLine66), ConsoleLine67, ConsoleLine71);
    ConsoleLines68And71Apart();
    ApartAppend(((ConsoleLine65 + ConsoleLine66) + ConsoleLine67), ConsoleLine68, ConsoleLine71);
    ConsoleLines69And71Apart();
    ApartAppend((((ConsoleLine65 + ConsoleLine66) + ConsoleLine67) + ConsoleLine68), ConsoleLine69, ConsoleLine71);
    ConsoleLines70And71Apart();
    ApartAppend(((((ConsoleLine65 + ConsoleLine66) + ConsoleLine67) + ConsoleLine68) + ConsoleLine69), ConsoleLine70, ConsoleLine71);
    DistinctAppend(prefix, ConsoleLine71);
    prefix := prefix + ConsoleLine71;
    // line 72 against lines 65-71
    ConsoleLines65And72Apart();
    ConsoleLines66And72Apart();
    ApartAppend(ConsoleLine65, ConsoleLine66, ConsoleLine72);
    ConsoleLines67And72Apart();
    ApartAppend((ConsoleLine65 + ConsoleLine66), ConsoleLine67, ConsoleLine72);
    ConsoleLines68And72Apart();
    ApartAppend(((ConsoleLine65 + ConsoleLine66) + ConsoleLine67), ConsoleLine68, ConsoleLine72);
    ConsoleLines69And72Apart();
    ApartAppend((((ConsoleLine65 + ConsoleLine66) + ConsoleLine67) + ConsoleLine68), ConsoleLine69, ConsoleLine72);
    ConsoleLines70And72Apart();
    ApartAppend(((((ConsoleLine65 + ConsoleLine66) + ConsoleLine67) + ConsoleLine68) + ConsoleLine69), ConsoleLine70, ConsoleLine72);
    ConsoleLines71And72Apart();
    ApartAppend((((((ConsoleLine65 + ConsoleLine66) + ConsoleLine67) + ConsoleLine68) + ConsoleLine69) + ConsoleLine70), ConsoleLine71, ConsoleLine72);
    DistinctAppend(prefix, ConsoleLine72);
    prefix := prefix + ConsoleLine72;
    // line 73 against lines 65-72
    ConsoleLines65And73Apart();
    ConsoleLines66And73Apart();
    ApartAppend(ConsoleLine65, ConsoleLine66, ConsoleLine73);
    ConsoleLines67And73Apart();
    ApartAppend((ConsoleLine65 + ConsoleLine66), ConsoleLine67, ConsoleLine73);
    ConsoleLines68And73Apart();
    ApartAppend(((ConsoleLine65 + ConsoleLine66) + ConsoleLine67), ConsoleLine68, ConsoleLine73);
    ConsoleLines69And73Apart();
    ApartAppend((((ConsoleLine65 + ConsoleLine66) + ConsoleLine67) + ConsoleLine68), ConsoleLine69, ConsoleLine73);
    ConsoleLines70And73Apart();
    ApartAppend(((((ConsoleLine65 + ConsoleLine66) + ConsoleLine67) + ConsoleLine68) + ConsoleLine69), ConsoleLine70, ConsoleLine73);
    ConsoleLines71And73Apart();
    ApartAppend((((((ConsoleLine65 + ConsoleLine66) + ConsoleLine67) + ConsoleLine68) + ConsoleLine69) + ConsoleLine70), ConsoleLine71, ConsoleLine73);
    ConsoleLines72And73Apart();
    ApartAppend(((((((ConsoleLine65 + ConsoleLine66) + ConsoleLine67) + ConsoleLine68) + ConsoleLine69) + ConsoleLine70) + ConsoleLine71), ConsoleLine72, ConsoleLine73);
    DistinctAppend(prefix, ConsoleLine73);
    prefix := prefix + ConsoleLine73;
    // line 74 against lines 65-73
    ConsoleLines65And74Apart();
    ConsoleLines66And74Apart();
    ApartAppend(ConsoleLine65, ConsoleLine66, ConsoleLine74);
    ConsoleLines67And74Apart();
    ApartAppend((ConsoleLine65 + ConsoleLine66), ConsoleLine67, ConsoleLine74);
    ConsoleLines68And74Apart();
    ApartAppend(((ConsoleLine65 + ConsoleLine66) + ConsoleLine67), ConsoleLine68, ConsoleLine74);
    ConsoleLines69And74Apart();
    ApartAppend((((ConsoleLine65 + ConsoleLine66) + ConsoleLine67) + ConsoleLine68), ConsoleLine69, ConsoleLine74);
    ConsoleLines70And74Apart();
    ApartAppend(((((ConsoleLine65 + ConsoleLine66) + ConsoleLine67) + ConsoleLine68) + ConsoleLine69), ConsoleLine70, ConsoleLine74);
    ConsoleLines71And74Apart();
    ApartAppend((((((ConsoleLine65 + ConsoleLine66) + ConsoleLine67) + ConsoleLine68) + ConsoleLine69) + ConsoleLine70), ConsoleLine71, ConsoleLine74);
    ConsoleLines72And74Apart();
    ApartAppend(((((((ConsoleLine65 + ConsoleLine66) + ConsoleLine67) + ConsoleLine68) + ConsoleLine69) + ConsoleLine70) + ConsoleLine71), ConsoleLine72, ConsoleLine74);
    ConsoleLines73And74Apart();
    ApartAppend((((((((ConsoleLine65 + ConsoleLine66) + ConsoleLine67) + ConsoleLine68) + ConsoleLine69) + ConsoleLine70) + ConsoleLine71) + ConsoleLine72), ConsoleLine73, ConsoleLine74);
    DistinctAppend(prefix, ConsoleLine74);
    prefix := prefix + ConsoleLine74;
    // line 75 against lines 65-74
    ConsoleLines65And75Apart();
    ConsoleLines66And75Apart();
    ApartAppend(ConsoleLine65, ConsoleLine66, ConsoleLine75);
    ConsoleLines67And75Apart();
    ApartAppend((ConsoleLine65 + ConsoleLine66), ConsoleLine67, ConsoleLine75);
    ConsoleLines68And75Apart();
    ApartAppend(((ConsoleLine65 + ConsoleLine66) + ConsoleLine67), ConsoleLine68, ConsoleLine75);
    ConsoleLines69And75Apart();
    ApartAppend((((ConsoleLine65 + ConsoleLine66) + ConsoleLine67) + ConsoleLine68), ConsoleLine69, ConsoleLine75);
    ConsoleLines70And75Apart();
    ApartAppend(((((ConsoleLine65 + ConsoleLine66) + ConsoleLine67) + ConsoleLine68) + ConsoleLine69), ConsoleLine70, ConsoleLine75);
    ConsoleLines71And75Apart();
    ApartAppend((((((ConsoleLine65 + ConsoleLine66) + ConsoleLine67) + ConsoleLine68) + ConsoleLine69) + ConsoleLine70), ConsoleLine71, ConsoleLine75);
    ConsoleLines72And75Apart();
    ApartAppend(((((((ConsoleLine65 + ConsoleLine66) + ConsoleLine67) + ConsoleLine68) + ConsoleLine69) + ConsoleLine70) + ConsoleLine71), ConsoleLine72, ConsoleLine75);
    ConsoleLines73And75Apart();
    ApartAppend((((((((ConsoleLine65 + ConsoleLine66) + ConsoleLine67) + ConsoleLine68) + ConsoleLine69) + ConsoleLine70) + ConsoleLine71) + ConsoleLine72), ConsoleLine73, ConsoleLine75);
    ConsoleLines74And75Apart();
    ApartAppend(((((((((ConsoleLine65 + ConsoleLine66) + ConsoleLine67) + ConsoleLine68) + ConsoleLine69) + ConsoleLine70) + ConsoleLine71) + ConsoleLine72) + ConsoleLine73), ConsoleLine74, ConsoleLine75);
    DistinctAppend(prefix, ConsoleLine75);
    prefix := prefix + ConsoleLine75;
    // line 76 against lines 65-75
    ConsoleLines65And76Apart();
    ConsoleLines66And76Apart();
    ApartAppend(ConsoleLine65, ConsoleLine66, ConsoleLine76);
    ConsoleLines67And76Apart();
    ApartAppend((ConsoleLine65 + ConsoleLine66), ConsoleLine67, ConsoleLine76);
    ConsoleLines68And76Apart();
    ApartAppend(((ConsoleLine65 + ConsoleLine66) + ConsoleLine67), ConsoleLine68, ConsoleLine76);
    ConsoleLines69And76Apart();
    ApartAppend((((ConsoleLine65 + ConsoleLine66) + ConsoleLine67) + ConsoleLine68), ConsoleLine69, ConsoleLine76);
    ConsoleLines70And76Apart();
    ApartAppend(((((ConsoleLine65 + ConsoleLine66) + ConsoleLine67) + ConsoleLine68) + ConsoleLine69), ConsoleLine70, ConsoleLine76);
    ConsoleLines71And76Apart();
    ApartAppend((((((ConsoleLine65 + ConsoleLine66) + ConsoleLine67) + ConsoleLine68) + ConsoleLine69) + ConsoleLine70), ConsoleLine71, ConsoleLine76);
    ConsoleLines72And76Apart();
    ApartAppend(((((((ConsoleLine65 + ConsoleLine66) + ConsoleLine67) + ConsoleLine68) + ConsoleLine69) + ConsoleLine70) + ConsoleLine71), ConsoleLine72, ConsoleLine76);
    ConsoleLines73And76Apart();
    ApartAppend((((((((ConsoleLine65 + ConsoleLine66) + ConsoleLine67) + ConsoleLine68) + ConsoleLine69) + ConsoleLine70) + ConsoleLine71) + ConsoleLine72), ConsoleLine73, ConsoleLine76);
    ConsoleLines74And76Apart();
    ApartAppend(((((((((ConsoleLine65 + ConsoleLine66) + ConsoleLine67) + ConsoleLine68) + ConsoleLine69) + ConsoleLine70) + ConsoleLine71) + ConsoleLine72) + ConsoleLine73), ConsoleLine74, ConsoleLine76);
    ConsoleLines75And76Apart();
    ApartAppend((((((((((ConsoleLine65 + ConsoleLine66) + ConsoleLine67) + ConsoleLine68) + ConsoleLine69) + ConsoleLine70) + ConsoleLine71) + ConsoleLine72) + ConsoleLine73) + ConsoleLine74), ConsoleLine75, ConsoleLine76);
    DistinctAppend(prefix, ConsoleLine76);
    prefix := prefix + ConsoleLine76;
    // line 77 against lines 65-76
    ConsoleLines65And77Apart();
    ConsoleLines66And77Apart();
    ApartAppend(ConsoleLine65, ConsoleLine66, ConsoleLine77);
    ConsoleLines67And77Apart();
    ApartAppend((ConsoleLine65 + ConsoleLine66), ConsoleLine67, ConsoleLine77);
    ConsoleLines68And77Apart();
    ApartAppend(((ConsoleLine65 + ConsoleLine66) + ConsoleLine67), ConsoleLine68, ConsoleLine77);
    ConsoleLines69And77Apart();
    ApartAppend((((ConsoleLine65 + ConsoleLine66) + ConsoleLine67) + ConsoleLine68), ConsoleLine69, ConsoleLine77);
    ConsoleLines70And77Apart();
    ApartAppend(((((ConsoleLine65 + ConsoleLine66) + ConsoleLine67) + ConsoleLine68) + ConsoleLine69), ConsoleLine70, ConsoleLine77);
    ConsoleLines71And77Apart();
    ApartAppend((((((ConsoleLine65 + ConsoleLine66) + ConsoleLine67) + ConsoleLine68) + ConsoleLine69) + ConsoleLine70), ConsoleLine71, ConsoleLine77);
    ConsoleLines72And77Apart();
    ApartAppend(((((((ConsoleLine65 + ConsoleLine66) + ConsoleLine67) + ConsoleLine68) + ConsoleLine69) + ConsoleLine70) + ConsoleLine71), ConsoleLine72, ConsoleLine77);
    ConsoleLines73And77Apart();
    ApartAppend((((((((ConsoleLine65 + ConsoleLine66) + ConsoleLine67) + ConsoleLine68) + ConsoleLine69) + ConsoleLine70) + ConsoleLine71) + ConsoleLine72), ConsoleLine73, ConsoleLine77);
    ConsoleLines74And77Apart();
    ApartAppend(((((((((ConsoleLine65 + ConsoleLine66) + ConsoleLine67) + ConsoleLine68) + ConsoleLine69) + ConsoleLine70) + ConsoleLine71) + ConsoleLine72) + ConsoleLine73), ConsoleLine74, ConsoleLine77);
    ConsoleLines75And77Apart();
    ApartAppend((((((((((ConsoleLine65 + ConsoleLine66) + ConsoleLine67) + ConsoleLine68) + ConsoleLine69) + ConsoleLine70) + ConsoleLine71) + ConsoleLine72) + ConsoleLine73) + ConsoleLine74), ConsoleLine75, ConsoleLine77);
    ConsoleLines76And77Apart();
    ApartAppend(((((((((((ConsoleLine65 + ConsoleLine66) + ConsoleLine67) + ConsoleLine68) + ConsoleLine69) + ConsoleLine70) + ConsoleLine71) + ConsoleLine72) + ConsoleLine73) + ConsoleLine74) + ConsoleLine75), ConsoleLine76, ConsoleLine77);
    DistinctAppend(prefix, ConsoleLine77);
    prefix := prefix + ConsoleLine77;
  }

  /** The console list has the 132 keys the literal writes. */
  lemma ConsoleSymptomCount()
    ensures |ConsoleSymptomNames| == 132
  {
  }

  /** The console vocabulary addresses each of the 132 positions of a feature vector exactly once. */
  lemma ConsoleSymptomsDictIndexing()
    ensures |ConsoleSymptomsDict| == 132
    ensures ValuesInRange(ConsoleSymptomsDict)
    ensures forall v: nat :: v in ConsoleSymptomsDict.Values <==> v < 132
    ensures forall i :: 0 <= i < 132 ==> ConsoleSymptomNames[i] in ConsoleSymptomsDict && ConsoleSymptomsDict[ConsoleSymptomNames[i]] == i
  {
    ConsoleSymptomCount();
    ConsoleSymptomNamesDistinct();
    DictOfIndexing(ConsoleSymptomNames);
  }

  /** The spellings the server copy uses at positions 73, 82 and 102. */
  const ServerRespellings: seq<string> := ["swollen extremities", "swelling joints", "dichromatic_patches"]

  // None of the server spellings is a console key: checked a few source lines per lemma.
  lemma ConsoleLines65To72NotRespelled()
    ensures Apart(ConsoleLine65, ServerRespellings)
    ensures Apart(ConsoleLine66, ServerRespellings)
    ensures Apart(ConsoleLine67, ServerRespellings)
    ensures Apart(ConsoleLine68, ServerRespellings)
    ensures Apart(ConsoleLine69, ServerRespellings)
    ensures Apart(ConsoleLine70, ServerRespellings)
    ensures Apart(ConsoleLine71, ServerRespellings)
    ensures Apart(ConsoleLine72, ServerRespellings)
  {
  }

  lemma ConsoleLines73To77NotRespelled()
    ensures Apart(ConsoleLine73, ServerRespellings)
    ensures Apart(ConsoleLine74, ServerRespellings)
    ensures Apart(ConsoleLine75, ServerRespellings)
    ensures Apart(ConsoleLine76, ServerRespellings)
    ensures Apart(ConsoleLine77, ServerRespellings)
  {
  }

  /** The server copy spells its three differing keys in ways the console copy never uses. */
  lemma ConsoleSymptomNamesNotRespelled()
    ensures forall x :: x in ServerRespellings ==> x !in ConsoleSymptomNames
  {
    ConsoleLines65To72NotRespelled();
    ConsoleLines73To77NotRespelled();
    ApartAppend(ConsoleLine65, ConsoleLine66, ServerRespellings);
    ApartAppend(ConsoleLine65 + ConsoleLine66, ConsoleLine67, ServerRespellings);
    ApartAppend(ConsoleLine65 + ConsoleLine66 + ConsoleLine67, ConsoleLine68, ServerRespellings);
    ApartAppend(ConsoleLine65 + ConsoleLine66 + ConsoleLine67 + ConsoleLine68, ConsoleLine69, ServerRespellings);
    ApartAppend(ConsoleLine65 + ConsoleLine66 + ConsoleLine67 + ConsoleLine68 + ConsoleLine69, ConsoleLine70, ServerRespellings);
    ApartAppend(ConsoleLine65 + ConsoleLine66 + ConsoleLine67 + ConsoleLine68 + ConsoleLine69 + ConsoleLine70, ConsoleLine71, ServerRespellings);
    ApartAppend(ConsoleLine65 + ConsoleLine66 + ConsoleLine67 + ConsoleLine68 + ConsoleLine69 + ConsoleLine70 + ConsoleLine71, ConsoleLine72, ServerRespellings);
    ApartAppend(ConsoleLine65 + ConsoleLine66 + ConsoleLine67 + ConsoleLine68 + ConsoleLine69 + ConsoleLine70 + ConsoleLine71 + ConsoleLine72, ConsoleLine73, ServerRespellings);
    ApartAppend(ConsoleLine65 + ConsoleLine66 + ConsoleLine67 + ConsoleLine68 + ConsoleLine69 + ConsoleLine70 + ConsoleLine71 + ConsoleLine72 + ConsoleLine73, ConsoleLine74, ServerRespellings);
    ApartAppend(ConsoleLine65 + ConsoleLine66 + ConsoleLine67 + ConsoleLine68 + ConsoleLine69 + ConsoleLine70 + ConsoleLine71 + ConsoleLine72 + ConsoleLine73 + ConsoleLine74, ConsoleLine75, ServerRespellings);
    ApartAppend(ConsoleLine65 + ConsoleLine66 + ConsoleLine67 + ConsoleLine68 + ConsoleLine69 + ConsoleLine70 + ConsoleLine71 + ConsoleLine72 + ConsoleLine73 + ConsoleLine74 + ConsoleLine75, ConsoleLine76, ServerRespellings);
    ApartAppend(ConsoleLine65 + ConsoleLine66 + ConsoleLine67 + ConsoleLine68 + ConsoleLine69 + ConsoleLine70 + ConsoleLine71 + ConsoleLine72 + ConsoleLine73 + ConsoleLine74 + ConsoleLine75 + ConsoleLine76, ConsoleLine77, ServerRespellings);
    assert Apart(ConsoleSymptomNames, ServerRespellings);
  }

  /** On the two source lines where they differ, a server line is the console line with keys respelled. */
  lemma ServerLinesDrift()
    ensures ServerLine38 == ConsoleLine75[0 := "swollen extremities"][9 := "swelling joints"]
    ensures ServerLine39 == ConsoleLine76[14 := "dichromatic_patches"]
  {
  }

  /**
   * The server copy is the console copy with three keys spelled differently: positions 73, 82
   * and 102; every other key is the same at the same position.
   */
  lemma ServerSymptomNamesDrift()
    ensures |ServerSymptomNames| == |ConsoleSymptomNames|
    ensures ServerSymptomNames == ConsoleSymptomNames[73 := "swollen extremities"][82 := "swelling joints"][102 := "dichromatic_patches"]
  {
    var front := ConsoleLine65 + ConsoleLine66 + ConsoleLine67 + ConsoleLine68 + ConsoleLine69 + ConsoleLine70 + ConsoleLine71 +
      ConsoleLine72 + ConsoleLine73 + ConsoleLine74;
    assert |front| == 73;
    var l75 := ConsoleLine75[0 := "swollen extremities"];
    UpdateAppendRight(front, ConsoleLine75, 0, "swollen extremities");
    UpdateAppendLeft(front + ConsoleLine75, ConsoleLine76, 73, "swollen extremities");
    UpdateAppendLeft(front + ConsoleLine75 + ConsoleLine76, ConsoleLine77, 73, "swollen extremities");
    UpdateAppendRight(front, l75, 9, "swelling joints");
    UpdateAppendLeft(front + l75, ConsoleLine76, 82, "swelling joints");
    UpdateAppendLeft(front + l75 + ConsoleLine76, ConsoleLine77, 82, "swelling joints");
    var l75b := l75[9 := "swelling joints"];
    UpdateAppendRight(front + l75b, ConsoleLine76, 14, "dichromatic_patches");
    UpdateAppendLeft(front + l75b + ConsoleLine76, ConsoleLine77, 102, "dichromatic_patches");
    ServerLinesDrift();
  }

  /** The console spellings at the three positions where the copies differ. */
  lemma ConsoleSpellings()
    ensures ConsoleSymptomNames[73] == "swollen extremeties"
    ensures ConsoleSymptomNames[82] == "swellingjoints"
    ensures ConsoleSymptomNames[102] == "dischromic _patches"
  {
  }

  /** No key of the server vocabulary is written twice, and none of the replaced console spellings remains. */
  lemma ServerSymptomNamesDistinct()
    ensures Distinct(ServerSymptomNames)
    ensures "swollen extremeties" !in ServerSymptomNames
    ensures "swellingjoints" !in ServerSymptomNames
    ensures "dischromic _patches" !in ServerSymptomNames
  {
    var x1, x2, x3 := "swollen extremities", "swelling joints", "dichromatic_patches";
    var c0 := ConsoleSymptomNames;
    ConsoleSymptomCount();
    ConsoleSymptomNamesDistinct();
    ConsoleSymptomNamesNotRespelled();
    ConsoleSpellings();
    var c1 := c0[73 := x1];
    var c2 := c1[82 := x2];
    var c3 := c2[102 := x3];
    DistinctReplace(c0, 73, x1);
    NotInReplace(c0, 73, x1, x2);
    DistinctReplace(c1, 82, x2);
    NotInReplace(c0, 73, x1, x3);
    NotInReplace(c1, 82, x2, x3);
    DistinctReplace(c2, 102, x3);
    ReplaceDrops(c0, 73, x1);
    NotInReplace(c1, 82, x2, c0[73]);
    NotInReplace(c2, 102, x3, c0[73]);
    ReplaceDrops(c1, 82, x2);
    NotInReplace(c2, 102, x3, c1[82]);
    ReplaceDrops(c2, 102, x3);
    ServerSymptomNamesDrift();
  }

  /** The server spellings at the three positions where the copies differ. */
  lemma ServerSpellings()
    ensures |ServerSymptomNames| == 132
    ensures ServerSymptomNames[73] == "swollen extremities"
    ensures ServerSymptomNames[82] == "swelling joints"
    ensures ServerSymptomNames[102] == "dichromatic_patches"
  {
    ConsoleSymptomCount();
    ServerSymptomNamesDrift();
  }

  /** The server vocabulary addresses each of the 132 positions of a feature vector exactly once. */
  lemma ServerSymptomsDictIndexing()
    ensures |ServerSymptomsDict| == 132
    ensures ValuesInRange(ServerSymptomsDict)
    ensures forall v: nat :: v in ServerSymptomsDict.Values <==> v < 132
    ensures forall i :: 0 <= i < 132 ==> ServerSymptomNames[i] in ServerSymptomsDict && ServerSymptomsDict[ServerSymptomNames[i]] == i
  {
    ConsoleSymptomCount();
    ServerSymptomNamesDrift();
    ServerSymptomNamesDistinct();
    DictOfIndexing(ServerSymptomNames);
  }

  /** The console app knows the three symptoms only under its own spellings. */
  lemma ConsoleRespelledKeys()
    ensures "swollen extremeties" in ConsoleSymptomsDict && ConsoleSymptomsDict["swollen extremeties"] == 73
    ensures "swellingjoints" in ConsoleSymptomsDict && ConsoleSymptomsDict["swellingjoints"] == 82
    ensures "dischromic _patches" in ConsoleSymptomsDict && ConsoleSymptomsDict["dischromic _patches"] == 102
    ensures forall x :: x in ServerRespellings ==> x !in ConsoleSymptomsDict
  {
    ConsoleSymptomsDictIndexing();
    ConsoleSpellings();
    ConsoleSymptomNamesNotRespelled();
  }

  /** The backend server knows the three symptoms only under its own spellings. */
  lemma ServerRespelledKeys()
    ensures "swollen extremities" in ServerSymptomsDict && ServerSymptomsDict["swollen extremities"] == 73
    ensures "swelling joints" in ServerSymptomsDict && ServerSymptomsDict["swelling joints"] == 82
    ensures "dichromatic_patches" in ServerSymptomsDict && ServerSymptomsDict["dichromatic_patches"] == 102
    ensures "swollen extremeties" !in ServerSymptomsDict
    ensures "swellingjoints" !in ServerSymptomsDict
    ensures "dischromic _patches" !in ServerSymptomsDict
  {
    ServerSymptomsDictIndexing();
    ServerSpellings();
    ServerSymptomNamesDistinct();
  }
}
