/** The value table of the Q-learning enemy (`QLiteAI.qTable`, a
    `Dictionary<string, float[]>`) and its save-file form, the parallel-list
    `SerializationWrapper`. Reading and writing the file itself is not modelled. */
module ValueTable {
  import opened Common

  /** Idle, move toward, move back, move left, move right. */
  const ActionCount: int := 5

  type QTable = map<string, seq<real>>

  /** Every vector of the table has one value per action. */
  predicate WellFormed(table: QTable) {
    forall k :: k in table ==> |table[k]| == ActionCount
  }

  /** `new float[actions.Length]` */
  const Zeros: seq<real> := [0.0, 0.0, 0.0, 0.0, 0.0]

  /** The lazy insert of `ChooseAction`: an unseen key gets an all-zero vector,
      a known key keeps its vector. */
  function WithState(table: QTable, key: string): (t: QTable)
    ensures t.Keys == table.Keys + {key}
    ensures forall k :: k in table ==> t[k] == table[k]
    ensures key !in table ==> t[key] == Zeros
    ensures WellFormed(table) ==> WellFormed(t)
  {
    if key in table then table else table[key := Zeros]
  }

  /** `UpdateQValue`'s step with the next-state bootstrap fixed at `maxNext = 0`:
      the value moves a `learningRate` fraction of the way to the reward, and the
      discount factor has nothing to multiply. */
  function QStep(q: real, reward: real, learningRate: real, discount: real): (r: real)
    ensures r - reward == (1.0 - learningRate) * (q - reward)
    ensures 0.0 <= learningRate <= 1.0 && q <= reward ==> q <= r <= reward
    ensures 0.0 <= learningRate <= 1.0 && reward <= q ==> reward <= r <= q
  {
    var maxNext := 0.0;
    var target := reward + discount * maxNext;
    assert target == reward;
    StepFacts(q, target, learningRate);
    q + learningRate * (target - q)
  }

  /** The arithmetic behind `QStep`. */
  lemma StepFacts(q: real, reward: real, learningRate: real)
    ensures q + learningRate * (reward - q) - reward == (1.0 - learningRate) * (q - reward)
    ensures 0.0 <= learningRate <= 1.0 && q <= reward ==> q <= q + learningRate * (reward - q) <= reward
    ensures 0.0 <= learningRate <= 1.0 && reward <= q ==> reward <= q + learningRate * (reward - q) <= q
  {
    var d := reward - q;
    var step := learningRate * d;
    assert (1.0 - learningRate) * (q - reward) == step - d;
    FractionBetween(learningRate, d);
  }

  lemma NonNegativeProduct(a: real, b: real)
    requires a >= 0.0 && b >= 0.0
    ensures a * b >= 0.0
  {
  }

  /** A fraction in [0, 1] of `d` lies between 0 and `d`. */
  lemma FractionBetween(k: real, d: real)
    ensures 0.0 <= k <= 1.0 && d >= 0.0 ==> 0.0 <= k * d <= d
    ensures 0.0 <= k <= 1.0 && d <= 0.0 ==> d <= k * d <= 0.0
  {
    if 0.0 <= k <= 1.0 {
      var j := 1.0 - k;
      assert j * d == d - k * d;
      if d >= 0.0 {
        NonNegativeProduct(j, d);
        NonNegativeProduct(k, d);
      } else {
        NonNegativeProduct(j, -d);
        NonNegativeProduct(k, -d);
      }
    }
  }

  /** The discount factor does not influence learning. */
  lemma DiscountHasNoEffect(q: real, reward: real, learningRate: real, d1: real, d2: real)
    ensures QStep(q, reward, learningRate, d1) == QStep(q, reward, learningRate, d2)
  {
  }

  /** `UpdateQValue(state, action, reward)` on the table: exactly one cell changes. */
  function Learn(table: QTable, key: string, action: int, reward: real, learningRate: real, discount: real): (t: QTable)
    requires key in table && 0 <= action < |table[key]|
    ensures t.Keys == table.Keys
    ensures forall k :: k in table && k != key ==> t[k] == table[k]
    ensures |t[key]| == |table[key]|
    ensures forall j :: 0 <= j < |table[key]| && j != action ==> t[key][j] == table[key][j]
    ensures t[key][action] == QStep(table[key][action], reward, learningRate, discount)
    ensures WellFormed(table) ==> WellFormed(t)
  {
    table[key := table[key][action := QStep(table[key][action], reward, learningRate, discount)]]
  }

  // ---- the save-file form ----

  predicate NoDuplicates(keys: seq<string>) {
    forall i, j :: 0 <= i < j < |keys| ==> keys[i] != keys[j]
  }

  /** The parallel lists list every entry of `table` once, each key beside its vector. */
  predicate Represents(keys: seq<string>, values: seq<seq<real>>, table: QTable) {
    && |keys| == |values|
    && NoDuplicates(keys)
    && (forall i :: 0 <= i < |keys| ==> keys[i] in table && values[i] == table[keys[i]])
    && (forall k :: k in table ==> k in keys)
  }

  /** What `ToDictionary`'s loop builds: `dict[keys[i]] = values[i]` for i = 0, 1, ... */
  function Assemble(keys: seq<string>, values: seq<seq<real>>): QTable
    requires |keys| <= |values|
    decreases |keys|
  {
    if keys == [] then map[]
    else Assemble(keys[..|keys| - 1], values)[keys[|keys| - 1] := values[|keys| - 1]]
  }

  /** `keys[i]` occurs nowhere after position `i`. */
  predicate LastOccurrence(keys: seq<string>, i: int)
    requires 0 <= i < |keys|
  {
    forall j :: i < j < |keys| ==> keys[j] != keys[i]
  }

  /** The loaded table has exactly the listed keys, and on a repeated key the
      vector at its last position wins. */
  lemma {:induction false} AssembleLastWins(keys: seq<string>, values: seq<seq<real>>)
    requires |keys| <= |values|
    ensures forall k :: k in Assemble(keys, values) <==> k in keys
    ensures forall i :: 0 <= i < |keys| && LastOccurrence(keys, i) ==> Assemble(keys, values)[keys[i]] == values[i]
    decreases |keys|
  {
    if keys != [] {
      var n := |keys| - 1;
      var front := keys[..n];
      AssembleLastWins(front, values);
      forall i | 0 <= i < |keys| && LastOccurrence(keys, i)
        ensures Assemble(keys, values)[keys[i]] == values[i]
      {
        if i < n {
          assert LastOccurrence(front, i) by {
            forall j | i < j < |front| ensures front[j] != front[i] {
              assert front[j] == keys[j];
            }
          }
        }
      }
      forall k ensures k in Assemble(keys, values) <==> k in keys {
        assert k in keys <==> k in front || k == keys[n] by {
          assert keys == front + [keys[n]];
        }
      }
    }
  }

  /** Every vector of the loaded table comes from the saved lists. */
  lemma {:induction false} AssembleWellFormed(keys: seq<string>, values: seq<seq<real>>)
    requires |keys| <= |values|
    requires forall i :: 0 <= i < |values| ==> |values[i]| == ActionCount
    ensures WellFormed(Assemble(keys, values))
    decreases |keys|
  {
    if keys != [] {
      AssembleWellFormed(keys[..|keys| - 1], values);
    }
  }

  /** Round trip: loading the lists that represent a table gives back that table,
      same keys and same vectors. */
  lemma RoundTrip(keys: seq<string>, values: seq<seq<real>>, table: QTable)
    requires Represents(keys, values, table)
    ensures Assemble(keys, values) == table
  {
    AssembleLastWins(keys, values);
    var t := Assemble(keys, values);
    forall k | k in table ensures k in t && t[k] == table[k] {
      var i :| 0 <= i < |keys| && keys[i] == k;
      assert LastOccurrence(keys, i);
    }
    assert t.Keys == table.Keys;
  }

  /** `QLiteAI.SerializationWrapper`: the table as two parallel lists, in the form
      the save file holds. */
  class SerializationWrapper {
    var keys: seq<string>
    var values: seq<seq<real>>

    /** Lists every entry of `dict`. A `Dictionary` promises no enumeration order,
        so the order is left open. */
    constructor (dict: QTable)
      ensures Represents(keys, values, dict)
    {
      var ks: seq<string> := [];
      var vs: seq<seq<real>> := [];
      var remaining := dict.Keys;
      while remaining != {}
        invariant remaining <= dict.Keys
        invariant |ks| == |vs| && NoDuplicates(ks)
        invariant forall i :: 0 <= i < |ks| ==> ks[i] in dict && ks[i] !in remaining && vs[i] == dict[ks[i]]
        invariant forall k :: k in dict ==> k in remaining || k in ks
        decreases remaining
      {
        var k :| k in remaining;
        ks, vs := ks + [k], vs + [dict[k]];
        remaining := remaining - {k};
      }
      keys, values := ks, vs;
    }

    /** Rebuilds the table. A values list shorter than the keys list makes
        `values[i]` throw; a longer one has its surplus ignored. */
    method ToDictionary() returns (r: Result<QTable>)
      ensures |values| < |keys| <==> r.Failure?
      ensures r.Success? ==> r.value == Assemble(keys, values)
    {
      var dict: QTable := map[];
      var i := 0;
      while i < |keys|
        invariant 0 <= i <= |keys| && i <= |values|
        invariant dict == Assemble(keys[..i], values)
      {
        if i == |values| {
          return Failure("index out of range: values has fewer entries than keys");
        }
        assert keys[..i + 1][..i] == keys[..i];
        dict := dict[keys[i] := values[i]];
        i := i + 1;
      }
      assert keys[..|keys|] == keys;
      r := Success(dict);
    }
  }
}
