/**
 * The symptom vocabulary as a dictionary literal: the source writes
 * `{name_0: 0, name_1: 1, ..., name_131: 131}`, each key with its own position as value.
 * `DictOf` gives the dict such a literal evaluates to, and the lemmas say when that dict
 * addresses every position of a feature vector exactly once.
 */
module Vocabulary {

  /** No name is listed twice. */
  predicate Distinct(names: seq<string>) {
    forall i, j :: 0 <= i < j < |names| ==> names[i] != names[j]
  }

  /** No name of `a` is also a name of `b`. */
  predicate Apart(a: seq<string>, b: seq<string>) {
    forall i, j :: 0 <= i < |a| && 0 <= j < |b| ==> a[i] != b[j]
  }

  /** Every value is a valid index into a vector of length `len(vocab)`. */
  predicate ValuesInRange(vocab: map<string, nat>) {
    forall k :: k in vocab ==> vocab[k] < |vocab|
  }

  /** No two keys share a value. */
  predicate Injective(vocab: map<string, nat>) {
    forall k1, k2 :: k1 in vocab && k2 in vocab && vocab[k1] == vocab[k2] ==> k1 == k2
  }

  /** The names as a set. */
  function Listed(names: seq<string>): set<string> {
    set k | k in names
  }

  /**
   * The dict that the literal `{names[0]: 0, names[1]: 1, ...}` evaluates to. Entries are
   * inserted left to right, so a repeated key keeps the position of its last occurrence.
   */
  function DictOf(names: seq<string>): (d: map<string, nat>)
    ensures d.Keys == Listed(names)
    ensures forall k :: k in d ==> d[k] < |names| && names[d[k]] == k
    ensures forall k, j :: k in d && d[k] < j < |names| ==> names[j] != k
    ensures Injective(d)
  {
    if names == [] then map[]
    else
      var n := |names| - 1;
      DictOf(names[..n])[names[n] := n]
  }

  /** A list of names has as many distinct names as entries exactly when it repeats none. */
  lemma {:induction false} ListedCard(names: seq<string>)
    ensures |Listed(names)| <= |names|
    ensures |Listed(names)| == |names| <==> Distinct(names)
  {
    if names != [] {
      var n := |names| - 1;
      var front, last := names[..n], names[n];
      ListedCard(front);
      assert names == front + [last];
      assert Listed(names) == Listed(front) + {last};
      if last in front {
        assert Listed(names) == Listed(front);
        var i :| 0 <= i < n && front[i] == last;
        assert names[i] == names[n];
      } else {
        assert |Listed(names)| == |Listed(front)| + 1;
        if Distinct(front) {
          forall i, j | 0 <= i < j < |names| ensures names[i] != names[j] {
            if j == n {
              assert names[i] == front[i];
            } else {
              assert names[i] == front[i] && names[j] == front[j];
            }
          }
        } else {
          var i, j :| 0 <= i < j < n && front[i] == front[j];
          assert names[i] == names[j];
        }
      }
    }
  }

  /** The literal's dict has one entry per listed name exactly when no name repeats. */
  lemma DictOfSize(names: seq<string>)
    ensures |DictOf(names)| == |names| <==> Distinct(names)
  {
    ListedCard(names);
    assert |DictOf(names)| == |Listed(names)|;
  }

  /** With no repeated name, each name maps to its own position. */
  lemma DictOfPositions(names: seq<string>)
    requires Distinct(names)
    ensures forall i :: 0 <= i < |names| ==> names[i] in DictOf(names) && DictOf(names)[names[i]] == i
  {
    var d := DictOf(names);
    forall i | 0 <= i < |names| ensures names[i] in d && d[names[i]] == i {
      assert names[i] in Listed(names);
      var j := d[names[i]];
      assert names[j] == names[i];
    }
  }

  /**
   * With no repeated name, the dict has one entry per name, each name maps to its own
   * position, and the values are exactly 0 .. |names|-1, so every value indexes a vector of
   * length `len(dict)`.
   */
  lemma DictOfIndexing(names: seq<string>)
    requires Distinct(names)
    ensures |DictOf(names)| == |names|
    ensures ValuesInRange(DictOf(names))
    ensures forall v: nat :: v in DictOf(names).Values <==> v < |names|
    ensures forall i :: 0 <= i < |names| ==> names[i] in DictOf(names) && DictOf(names)[names[i]] == i
  {
    var d := DictOf(names);
    DictOfSize(names);
    DictOfPositions(names);
    forall v | v in d.Values ensures v < |names| {
      var k :| k in d && d[k] == v;
    }
    forall v: nat | v < |names| ensures v in d.Values {
      assert d[names[v]] == v;
    }
  }

  /** Two lists without repeats and without a common name list no name twice together. */
  lemma DistinctAppend(a: seq<string>, b: seq<string>)
    requires Distinct(a) && Distinct(b) && Apart(a, b)
    ensures Distinct(a + b)
  {
    var ab := a + b;
    forall i, j | 0 <= i < j < |ab| ensures ab[i] != ab[j] {
      if j < |a| {
        assert ab[i] == a[i] && ab[j] == a[j];
      } else if i < |a| {
        assert ab[i] == a[i] && ab[j] == b[j - |a|];
      } else {
        assert ab[i] == b[i - |a|] && ab[j] == b[j - |a|];
      }
    }
  }

  /** A list apart from `c` stays apart from `c` when another list apart from `c` is appended. */
  lemma ApartAppend(a: seq<string>, b: seq<string>, c: seq<string>)
    requires Apart(a, c) && Apart(b, c)
    ensures Apart(a + b, c)
  {
    var ab := a + b;
    forall i, j | 0 <= i < |ab| && 0 <= j < |c| ensures ab[i] != c[j] {
      if i < |a| {
        assert ab[i] == a[i];
      } else {
        assert ab[i] == b[i - |a|];
      }
    }
  }

  /** Replacing one name of a list without repeats by a name it does not list keeps it free of repeats. */
  lemma DistinctReplace(a: seq<string>, i: nat, x: string)
    requires Distinct(a) && i < |a| && x !in a
    ensures Distinct(a[i := x])
  {
    var b := a[i := x];
    forall j, k | 0 <= j < k < |b| ensures b[j] != b[k] {
      if j == i {
        assert b[k] == a[k];
      } else if k == i {
        assert b[j] == a[j];
      } else {
        assert b[j] == a[j] && b[k] == a[k];
      }
    }
  }

  /** A name a list does not hold is still absent after one entry is replaced by a different name. */
  lemma NotInReplace(a: seq<string>, i: nat, x: string, y: string)
    requires i < |a| && y !in a && y != x
    ensures y !in a[i := x]
  {
    var b := a[i := x];
    forall j | 0 <= j < |b| ensures b[j] != y {
      if j != i {
        assert b[j] == a[j];
      }
    }
  }

  /** In a list without repeats, replacing an entry by another name removes the old name. */
  lemma ReplaceDrops(a: seq<string>, i: nat, x: string)
    requires Distinct(a) && i < |a| && a[i] != x
    ensures a[i] !in a[i := x]
  {
    var b := a[i := x];
    forall j | 0 <= j < |b| ensures b[j] != a[i] {
      if j != i {
        assert b[j] == a[j];
      }
    }
  }

  /** Replacing an entry in the front part of a concatenation replaces it in that part. */
  lemma UpdateAppendLeft(a: seq<string>, b: seq<string>, i: nat, x: string)
    requires i < |a|
    ensures (a + b)[i := x] == a[i := x] + b
  {
  }

  /** Replacing an entry in the back part of a concatenation replaces it in that part. */
  lemma UpdateAppendRight(a: seq<string>, b: seq<string>, k: nat, x: string)
    requires k < |b|
    ensures (a + b)[|a| + k := x] == a + b[k := x]
  {
  }
}
