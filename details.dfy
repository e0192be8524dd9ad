/**
 * The detail resolver, `helper` in DobbyVoiceFrApp/main.py and `fetch_details` in
 * backendServer/app.py (the two are the same code): five reference tables are filtered on
 * their `Disease` column with exact string equality, and each lookup that finds no row falls
 * back to a fixed placeholder.
 */
module DetailResolver {

  /** One row of a reference table: its `Disease` cell and the cell the lookup reads. */
  datatype Row<T> = Row(disease: string, value: T)

  /** The cells `Precaution_1` .. `Precaution_4` of a precautions row. */
  datatype PrecautionSet = PrecautionSet(p1: string, p2: string, p3: string, p4: string)

  /** The five tables, each reduced to the `Disease` column and the column the resolver reads. */
  datatype ReferenceTables = ReferenceTables(
    descriptions: seq<Row<string>>,     // description.csv, column `Description`
    precautions: seq<Row<PrecautionSet>>, // precautions_df.csv
    medications: seq<Row<string>>,      // medications.csv, column `Medication`
    diets: seq<Row<string>>,            // diets.csv, column `Diet`
    workouts: seq<Row<string>>          // workout_df.csv, column `workout`
  )

  /** What the resolver returns: `desc, pre_list, meds, diet, wrkout`. */
  datatype Details = Details(
    description: string,
    precautions: seq<string>,
    medications: seq<string>,
    diet: seq<string>,
    workout: seq<string>
  )

  const NoDescription: string := "No description available."
  const NoPrecautions: seq<string> := ["No precautions listed."]
  const NoMedications: seq<string> := ["No medications listed."]
  const NoDiet: seq<string> := ["No diet listed."]
  const NoWorkout: seq<string> := ["No workout listed."]

  /** Some row of the table is about `disease`. */
  predicate HasRow<T>(rows: seq<Row<T>>, disease: string) {
    exists i :: 0 <= i < |rows| && rows[i].disease == disease
  }

  /** Row `i` is the first row of the table about `disease`. */
  predicate FirstRowAt<T>(rows: seq<Row<T>>, disease: string, i: int) {
    0 <= i < |rows| && rows[i].disease == disease && forall k :: 0 <= k < i ==> rows[k].disease != disease
  }

  /**
   * `table[table['Disease'] == disease][column].values`: the cells of the rows about `disease`,
   * in table order.
   */
  function Matching<T(!new)>(rows: seq<Row<T>>, disease: string): (vs: seq<T>)
    ensures |vs| <= |rows|
    ensures forall v :: v in vs <==> Row(disease, v) in rows
  {
    if rows == [] then []
    else
      var rest := Matching(rows[1..], disease);
      assert forall i :: 0 < i < |rows| ==> rows[i] == rows[1..][i - 1];
      if rows[0].disease == disease then [rows[0].value] + rest else rest
  }

  /** The filter is empty exactly when no row is about `disease`. */
  lemma MatchingEmpty<T(!new)>(rows: seq<Row<T>>, disease: string)
    ensures Matching(rows, disease) == [] <==> !HasRow(rows, disease)
  {
    if HasRow(rows, disease) {
      var i :| 0 <= i < |rows| && rows[i].disease == disease;
      assert Row(disease, rows[i].value) == rows[i];
      assert rows[i].value in Matching(rows, disease);
    }
  }

  /** Filtering a table made of two parts filters each part and keeps their order. */
  lemma {:induction false} MatchingAppend<T(!new)>(a: seq<Row<T>>, b: seq<Row<T>>, disease: string)
    ensures Matching(a + b, disease) == Matching(a, disease) + Matching(b, disease)
  {
    if a != [] {
      var ab := a + b;
      assert ab[0] == a[0];
      assert ab[1..] == a[1..] + b;
      MatchingAppend(a[1..], b, disease);
      var head := if a[0].disease == disease then [a[0].value] else [];
      assert Matching(ab, disease) == head + Matching(ab[1..], disease);
      assert Matching(a, disease) == head + Matching(a[1..], disease);
    } else {
      assert a + b == b;
    }
  }

  /** The filter starts with the cell of the first row about `disease`. */
  lemma {:induction false} MatchingFirst<T(!new)>(rows: seq<Row<T>>, disease: string, i: int)
    requires FirstRowAt(rows, disease, i)
    ensures Matching(rows, disease) != [] && Matching(rows, disease)[0] == rows[i].value
  {
    if i > 0 {
      MatchingFirst(rows[1..], disease, i - 1);
    }
  }

  /**
   * `desc`: the `Description` of the first row about `disease`, or the placeholder when the
   * filter is empty.
   */
  function Description(rows: seq<Row<string>>, disease: string): (desc: string)
    ensures !HasRow(rows, disease) ==> desc == NoDescription
    ensures forall i :: FirstRowAt(rows, disease, i) ==> desc == rows[i].value
    ensures HasRow(rows, disease) ==> Row(disease, desc) in rows
  {
    var found := Matching(rows, disease);
    MatchingEmpty(rows, disease);
    if found == [] then NoDescription
    else
      assert Row(disease, found[0]) in rows by {
        var i := FirstRowIndex(rows, disease);
        MatchingFirst(rows, disease, i);
        assert rows[i] == Row(disease, found[0]);
      }
      assert forall i :: FirstRowAt(rows, disease, i) ==> found[0] == rows[i].value by {
        forall i | FirstRowAt(rows, disease, i) {
          MatchingFirst(rows, disease, i);
        }
      }
      found[0]
  }

  /**
   * `pre_list`: the four precaution cells of the first row about `disease`, or the one-entry
   * placeholder when there is none.
   */
  function Precautions(rows: seq<Row<PrecautionSet>>, disease: string): (pre: seq<string>)
    ensures !HasRow(rows, disease) ==> pre == NoPrecautions
    ensures forall i :: FirstRowAt(rows, disease, i) ==>
      var p := rows[i].value; pre == [p.p1, p.p2, p.p3, p.p4]
    ensures |pre| == (if HasRow(rows, disease) then 4 else 1)
  {
    var found := Matching(rows, disease);
    MatchingEmpty(rows, disease);
    if found == [] then NoPrecautions
    else
      assert forall i :: FirstRowAt(rows, disease, i) ==> found[0] == rows[i].value by {
        forall i | FirstRowAt(rows, disease, i) {
          MatchingFirst(rows, disease, i);
        }
      }
      var p := found[0];
      [p.p1, p.p2, p.p3, p.p4]
  }

  /**
   * `meds`, `diet` and `wrkout`: every cell of the rows about `disease`, or the one-entry
   * placeholder when the filter is empty.
   */
  function ListedOr(rows: seq<Row<string>>, disease: string, placeholder: seq<string>): (vs: seq<string>)
    ensures !HasRow(rows, disease) ==> vs == placeholder
    ensures HasRow(rows, disease) ==> vs == Matching(rows, disease)
  {
    var found := Matching(rows, disease);
    MatchingEmpty(rows, disease);
    if found == [] then placeholder else found
  }

  /** A table made of two parts, both about `disease`, lists the first part's cells before the second's. */
  lemma ListedInTableOrder(a: seq<Row<string>>, b: seq<Row<string>>, disease: string, placeholder: seq<string>)
    requires HasRow(a, disease) && HasRow(b, disease)
    ensures ListedOr(a + b, disease, placeholder) == ListedOr(a, disease, placeholder) + ListedOr(b, disease, placeholder)
  {
    MatchingAppend(a, b, disease);
    MatchingEmpty(a, disease);
    MatchingEmpty(b, disease);
    MatchingEmpty(a + b, disease);
  }

  /** `helper(Disease)` / `fetch_details(disease)`: total; every field is its lookup or its placeholder. */
  function FetchDetails(tables: ReferenceTables, disease: string): (d: Details)
    ensures d.description == Description(tables.descriptions, disease)
    ensures d.precautions == Precautions(tables.precautions, disease)
    ensures d.medications == ListedOr(tables.medications, disease, NoMedications)
    ensures d.diet == ListedOr(tables.diets, disease, NoDiet)
    ensures d.workout == ListedOr(tables.workouts, disease, NoWorkout)
  {
    Details(
      Description(tables.descriptions, disease),
      Precautions(tables.precautions, disease),
      ListedOr(tables.medications, disease, NoMedications),
      ListedOr(tables.diets, disease, NoDiet),
      ListedOr(tables.workouts, disease, NoWorkout))
  }

  /** The position of the first row about `disease`. */
  function FirstRowIndex<T>(rows: seq<Row<T>>, disease: string): (i: nat)
    requires HasRow(rows, disease)
    ensures FirstRowAt(rows, disease, i)
  {
    if rows[0].disease == disease then 0
    else
      assert HasRow(rows[1..], disease) by {
        var j :| 0 <= j < |rows| && rows[j].disease == disease;
        assert rows[1..][j - 1] == rows[j];
      }
      1 + FirstRowIndex(rows[1..], disease)
  }

  /** A disease no table knows, such as the server's "Unknown disease", gets all five placeholders. */
  lemma FetchDetailsOfUnlistedDisease(tables: ReferenceTables, disease: string)
    requires !HasRow(tables.descriptions, disease) && !HasRow(tables.precautions, disease)
    requires !HasRow(tables.medications, disease) && !HasRow(tables.diets, disease) && !HasRow(tables.workouts, disease)
    ensures FetchDetails(tables, disease) == Details(NoDescription, NoPrecautions, NoMedications, NoDiet, NoWorkout)
  {
  }

  /** Each field reads its own table only: tables that agree on one column give that field alike. */
  lemma FetchDetailsFieldsIndependent(t1: ReferenceTables, t2: ReferenceTables, disease: string)
    ensures t1.descriptions == t2.descriptions ==> FetchDetails(t1, disease).description == FetchDetails(t2, disease).description
    ensures t1.precautions == t2.precautions ==> FetchDetails(t1, disease).precautions == FetchDetails(t2, disease).precautions
    ensures t1.medications == t2.medications ==> FetchDetails(t1, disease).medications == FetchDetails(t2, disease).medications
    ensures t1.diets == t2.diets ==> FetchDetails(t1, disease).diet == FetchDetails(t2, disease).diet
    ensures t1.workouts == t2.workouts ==> FetchDetails(t1, disease).workout == FetchDetails(t2, disease).workout
  {
  }
}
