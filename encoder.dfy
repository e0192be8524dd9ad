/**
 * The symptom encoder both front ends run before asking the classifier: a zero vector of
 * length `len(symptoms_dict)` in which every position that some supplied symptom maps to is
 * set to 1; tokens that are not keys of the vocabulary are skipped.
 */
module SymptomEncoder {
  import opened Vocabulary

  /** Some token is a key of `vocab` whose value is `i`. */
  predicate Mentions(vocab: map<string, nat>, tokens: seq<string>, i: int) {
    exists j :: 0 <= j < |tokens| && tokens[j] in vocab && vocab[tokens[j]] == i
  }

  /**
   * The vector the encoder is meant to produce: one entry per vocabulary key, 1 where some token
   * maps to that position and 0 everywhere else.
   */
  function Encoding(vocab: map<string, nat>, tokens: seq<string>): seq<int> {
    seq(|vocab|, i => if Mentions(vocab, tokens, i) then 1 else 0)
  }

  /** One more token sets its own position, when it is a key, and nothing else. */
  lemma MentionsAppend(vocab: map<string, nat>, tokens: seq<string>, t: string, i: int)
    ensures Mentions(vocab, tokens + [t], i) <==> Mentions(vocab, tokens, i) || (t in vocab && vocab[t] == i)
  {
    var longer := tokens + [t];
    if Mentions(vocab, longer, i) {
      var j :| 0 <= j < |longer| && longer[j] in vocab && vocab[longer[j]] == i;
      if j < |tokens| {
        assert tokens[j] == longer[j];
      }
    }
    if Mentions(vocab, tokens, i) {
      var j :| 0 <= j < |tokens| && tokens[j] in vocab && vocab[tokens[j]] == i;
      assert longer[j] == tokens[j];
    }
    if t in vocab && vocab[t] == i {
      assert longer[|tokens|] == t;
    }
  }

  /** The effect of one loop iteration on the vector: `input_vector[symptoms_dict[item]] = 1` for a key. */
  lemma EncodingAppend(vocab: map<string, nat>, tokens: seq<string>, t: string)
    requires ValuesInRange(vocab)
    ensures t in vocab ==> Encoding(vocab, tokens + [t]) == Encoding(vocab, tokens)[vocab[t] := 1]
    ensures t !in vocab ==> Encoding(vocab, tokens + [t]) == Encoding(vocab, tokens)
  {
    forall i | 0 <= i < |vocab| {
      MentionsAppend(vocab, tokens, t, i);
    }
  }

  /**
   * `input_vector = np.zeros(len(symptoms_dict))` followed by the loop over the tokens. The
   * vocabulary's values must index the vector, as `symptoms_dict`'s do.
   */
  method Encode(vocab: map<string, nat>, tokens: seq<string>) returns (vec: seq<int>)
    requires ValuesInRange(vocab)
    ensures vec == Encoding(vocab, tokens)
    ensures |vec| == |vocab|
    ensures forall i :: 0 <= i < |vec| ==> (vec[i] == 1 <==> Mentions(vocab, tokens, i))
    ensures forall i :: 0 <= i < |vec| ==> vec[i] == 0 || vec[i] == 1
  {
    var v := new int[|vocab|](_ => 0);
    var n := 0;
    while n < |tokens|
      invariant 0 <= n <= |tokens|
      invariant v[..] == Encoding(vocab, tokens[..n])
    {
      var item := tokens[n];
      EncodingAppend(vocab, tokens[..n], item);
      assert tokens[..n + 1] == tokens[..n] + [item];
      if item in vocab {
        v[vocab[item]] := 1;
      }
      n := n + 1;
    }
    assert tokens[..n] == tokens;
    vec := v[..];
  }

  /** A token that is not a key changes nothing, wherever it is inserted. */
  lemma EncodingIgnoresUnknown(vocab: map<string, nat>, tokens: seq<string>, k: nat, t: string)
    requires k <= |tokens| && t !in vocab
    ensures Encoding(vocab, tokens[..k] + [t] + tokens[k..]) == Encoding(vocab, tokens)
  {
    var longer := tokens[..k] + [t] + tokens[k..];
    forall i | 0 <= i < |vocab| ensures Mentions(vocab, longer, i) <==> Mentions(vocab, tokens, i) {
      if Mentions(vocab, longer, i) {
        var j :| 0 <= j < |longer| && longer[j] in vocab && vocab[longer[j]] == i;
        if j < k {
          assert tokens[j] == longer[j];
        } else {
          assert j != k;
          assert tokens[j - 1] == longer[j];
        }
      }
      if Mentions(vocab, tokens, i) {
        var j :| 0 <= j < |tokens| && tokens[j] in vocab && vocab[tokens[j]] == i;
        if j < k {
          assert longer[j] == tokens[j];
        } else {
          assert longer[j + 1] == tokens[j];
        }
      }
    }
  }

  /**
   * Only which keys occur matters: two token lists that hold the same keys, in any order and
   * any number of times, encode alike.
   */
  lemma EncodingIgnoresOrderAndRepeats(vocab: map<string, nat>, a: seq<string>, b: seq<string>)
    requires forall t :: t in vocab ==> (t in a <==> t in b)
    ensures Encoding(vocab, a) == Encoding(vocab, b)
  {
    forall i | 0 <= i < |vocab| ensures Mentions(vocab, a, i) ==> Mentions(vocab, b, i) {
      if Mentions(vocab, a, i) {
        var j :| 0 <= j < |a| && a[j] in vocab && vocab[a[j]] == i;
        assert a[j] in b;
      }
    }
    forall i | 0 <= i < |vocab| ensures Mentions(vocab, b, i) ==> Mentions(vocab, a, i) {
      if Mentions(vocab, b, i) {
        var j :| 0 <= j < |b| && b[j] in vocab && vocab[b[j]] == i;
        assert b[j] in a;
      }
    }
  }

  /** Every key among the tokens has its position set. */
  lemma EncodingSetsEachKey(vocab: map<string, nat>, tokens: seq<string>, t: string)
    requires ValuesInRange(vocab) && t in vocab && t in tokens
    ensures Encoding(vocab, tokens)[vocab[t]] == 1
  {
    var j :| 0 <= j < |tokens| && tokens[j] == t;
    assert Mentions(vocab, tokens, vocab[t]);
  }

  /**
   * When the vocabulary gives every key its own position, the vector tells exactly which keys were
   * supplied: two token lists encode alike if and only if they hold the same keys.
   */
  lemma EncodingDeterminesKeys(vocab: map<string, nat>, a: seq<string>, b: seq<string>)
    requires ValuesInRange(vocab) && Injective(vocab)
    ensures Encoding(vocab, a) == Encoding(vocab, b) <==> forall t :: t in vocab ==> (t in a <==> t in b)
  {
    if Encoding(vocab, a) == Encoding(vocab, b) {
      forall t | t in vocab ensures t in a <==> t in b {
        SameKeyAt(vocab, a, b, t);
        SameKeyAt(vocab, b, a, t);
      }
    } else if forall t :: t in vocab ==> (t in a <==> t in b) {
      EncodingIgnoresOrderAndRepeats(vocab, a, b);
    }
  }

  /** A key in `a` whose position is also set by `b` is in `b` too, when no two keys share a position. */
  lemma SameKeyAt(vocab: map<string, nat>, a: seq<string>, b: seq<string>, t: string)
    requires ValuesInRange(vocab) && Injective(vocab) && t in vocab
    requires Encoding(vocab, a) == Encoding(vocab, b)
    ensures t in a ==> t in b
  {
    if t in a {
      EncodingSetsEachKey(vocab, a, t);
      assert Encoding(vocab, b)[vocab[t]] == 1;
      var j :| 0 <= j < |b| && b[j] in vocab && vocab[b[j]] == vocab[t];
      assert b[j] == t;
    }
  }

  /** A single token that is a key gives a vector other than the all-zero one. */
  lemma KeyChangesEncoding(vocab: map<string, nat>, t: string)
    requires ValuesInRange(vocab) && t in vocab
    ensures Encoding(vocab, [t]) != Encoding(vocab, [])
  {
    EncodingSetsEachKey(vocab, [t], t);
  }

  /** A single token that is not a key gives the all-zero vector. */
  lemma NonKeyKeepsEncoding(vocab: map<string, nat>, t: string)
    requires t !in vocab
    ensures Encoding(vocab, [t]) == Encoding(vocab, [])
  {
    EncodingIgnoresUnknown(vocab, [], 0, t);
    assert [][..0] + [t] + [][0..] == [t];
  }

  /**
   * For the dict of a list of names without repeats, such as `symptoms_dict`, position `i` of
   * the vector is 1 exactly when the `i`-th name is among the tokens.
   */
  lemma EncodingOfNames(names: seq<string>, tokens: seq<string>)
    requires Distinct(names)
    ensures |Encoding(DictOf(names), tokens)| == |names|
    ensures forall i :: 0 <= i < |names| ==> (Encoding(DictOf(names), tokens)[i] == 1 <==> names[i] in tokens)
  {
    var vocab := DictOf(names);
    DictOfIndexing(names);
    forall i | 0 <= i < |names| ensures Encoding(vocab, tokens)[i] == 1 <==> names[i] in tokens {
      if Encoding(vocab, tokens)[i] == 1 {
        var j :| 0 <= j < |tokens| && tokens[j] in vocab && vocab[tokens[j]] == i;
        assert tokens[j] == names[i];
      }
      if names[i] in tokens {
        EncodingSetsEachKey(vocab, tokens, names[i]);
      }
    }
  }

  /**
   * Two name lists without repeats that differ only at positions whose names no token uses
   * give the same vector.
   */
  lemma EncodingsAgree(a: seq<string>, b: seq<string>, tokens: seq<string>)
    requires Distinct(a) && Distinct(b) && |a| == |b|
    requires forall i :: 0 <= i < |a| && a[i] != b[i] ==> a[i] !in tokens && b[i] !in tokens
    ensures Encoding(DictOf(a), tokens) == Encoding(DictOf(b), tokens)
  {
    EncodingOfNames(a, tokens);
    EncodingOfNames(b, tokens);
  }

  /** The all-zero vector comes out exactly when no token is a key; no tokens at all is one such case. */
  lemma EncodingAllZero(vocab: map<string, nat>, tokens: seq<string>)
    requires ValuesInRange(vocab)
    ensures forall i :: 0 <= i < |vocab| ==> Encoding(vocab, [])[i] == 0
    ensures Encoding(vocab, tokens) == Encoding(vocab, []) <==> forall t :: t in tokens ==> t !in vocab
  {
    if Encoding(vocab, tokens) == Encoding(vocab, []) {
      forall t | t in tokens ensures t !in vocab {
        if t in vocab {
          EncodingSetsEachKey(vocab, tokens, t);
        }
      }
    } else if forall t :: t in tokens ==> t !in vocab {
      EncodingIgnoresOrderAndRepeats(vocab, tokens, []);
    }
  }
}
