/**
 * The label encoder both backend services use: its classes are the distinct
 * values it was fitted on, in increasing order, and a value's code is the
 * index of that value among the classes.
 */
module LabelEncoding {
  import opened Wrappers
  import opened Ordering

  predicate Distinct<T(==)>(s: seq<T>) {
    forall i, j :: 0 <= i < j < |s| ==> s[i] != s[j]
  }

  /** Position of the first occurrence of x in s. */
  function IndexOf<T(==)>(s: seq<T>, x: T): (i: nat)
    requires x in s
    ensures i < |s| && s[i] == x
    ensures forall j :: 0 <= j < i ==> s[j] != x
  {
    if s[0] == x then 0 else 1 + IndexOf(s[1..], x)
  }

  /** classes_ after fitting on string values. */
  function StringClasses(values: seq<string>): (classes: seq<string>)
    ensures StrictlyIncreasing(classes, StringLess)
    ensures Distinct(classes)
    ensures forall v :: v in classes <==> v in values
  {
    StringLessIsStrictTotalOrder();
    SortedUniqueCorrect(values, StringLess);
    var classes := SortedUnique(values, StringLess);
    IncreasingIsDistinct(classes, StringLess);
    classes
  }

  /** classes_ after fitting on numeric values. */
  function RealClasses(values: seq<real>): (classes: seq<real>)
    ensures StrictlyIncreasing(classes, RealLess)
    ensures Distinct(classes)
    ensures forall v :: v in classes <==> v in values
  {
    RealLessIsStrictTotalOrder();
    SortedUniqueCorrect(values, RealLess);
    var classes := SortedUnique(values, RealLess);
    IncreasingIsDistinct(classes, RealLess);
    classes
  }

  /**
   * transform: every value must be a class (the library raises and names the
   * unseen values otherwise); each value is replaced by its class index.
   */
  function Encode<T(==)>(classes: seq<T>, values: seq<T>): (r: Result<seq<nat>, set<T>>)
    ensures r.Success? <==> forall i :: 0 <= i < |values| ==> values[i] in classes
    ensures r.Success? ==> |r.value| == |values|
    ensures r.Success? ==> forall i :: 0 <= i < |values| ==> r.value[i] < |classes| && classes[r.value[i]] == values[i]
    ensures r.Failure? ==> r.error != {} && forall v :: v in r.error ==> v in values && v !in classes
    ensures r.Failure? ==> forall i :: 0 <= i < |values| && values[i] !in classes ==> values[i] in r.error
  {
    var unseen := set v | v in values && v !in classes;
    assert forall i :: 0 <= i < |values| ==> values[i] in classes || values[i] in unseen;
    if unseen != {} then
      Failure(unseen)
    else
      Success(seq(|values|, i requires 0 <= i < |values| => IndexOf(classes, values[i])))
  }

  /** The class-to-code dictionary, dict(zip(classes_, transform(classes_))). */
  function CodeMap(classes: seq<string>): map<string, int> {
    map c | c in classes :: IndexOf(classes, c)
  }

  lemma {:induction false} DistinctCardinality<T>(s: seq<T>)
    requires Distinct(s)
    ensures |set x | x in s| == |s|
  {
    if s != [] {
      var tail := s[1..];
      assert Distinct(tail) by {
        forall i, j | 0 <= i < j < |tail| ensures tail[i] != tail[j] {
          assert tail[i] == s[i + 1] && tail[j] == s[j + 1];
        }
      }
      DistinctCardinality(tail);
      assert (set x | x in s) == {s[0]} + (set x | x in tail) by {
        assert s == [s[0]] + tail;
      }
      assert s[0] !in (set x | x in tail) by {
        forall k | 0 <= k < |tail| ensures tail[k] != s[0] {
          assert tail[k] == s[k + 1];
        }
      }
    }
  }

  /**
   * Over distinct classes the dictionary has exactly one entry per class and
   * sends each class to its own code.
   */
  lemma CodeMapSendsClassToIndex(classes: seq<string>)
    requires Distinct(classes)
    ensures CodeMap(classes).Keys == set c | c in classes
    ensures |CodeMap(classes)| == |classes|
    ensures forall i :: 0 <= i < |classes| ==> CodeMap(classes)[classes[i]] == i
  {
    var m := CodeMap(classes);
    assert m.Keys == set c | c in classes;
    DistinctCardinality(classes);
    forall i | 0 <= i < |classes| ensures m[classes[i]] == i {
      var k := IndexOf(classes, classes[i]);
      assert k <= i;
    }
  }
}
