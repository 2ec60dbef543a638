/**
 The classifier's output as the result screen consumes it: a ranked list of
 (label, confidence) pairs, the confidence floor every consumer applies, the
 face-presence gate and the choice of the matched character.
 */
module Predictions {
  import opened Wrappers

  /** One entry of a classifier answer, in the classifier's own order. */
  datatype Prediction = Prediction(name: string, confidence: real)

  /** Predictions below this confidence are discarded before anything is decided. */
  const ConfidenceFloor: real := 0.01

  /** The label the face-presence classifier gives to an image holding a person. */
  const PeopleLabel: string := "People"

  predicate Passes(p: Prediction) {
    p.confidence >= ConfidenceFloor
  }

  /** The predictions that reach the floor, in the order the classifier gave them. */
  function Surviving(ps: seq<Prediction>): (kept: seq<Prediction>)
    ensures |kept| <= |ps|
    ensures forall p :: p in kept <==> p in ps && Passes(p)
  {
    if ps == [] then []
    else if Passes(ps[0]) then [ps[0]] + Surviving(ps[1..])
    else Surviving(ps[1..])
  }

  /** `i` is the index of the highest-ranked prediction that reaches the floor. */
  ghost predicate FirstSurvivorAt(ps: seq<Prediction>, i: int) {
    0 <= i < |ps| && Passes(ps[i]) && forall j :: 0 <= j < i ==> !Passes(ps[j])
  }

  /** Filtering distributes over concatenation: it never reorders predictions. */
  lemma {:induction false} SurvivingAppend(a: seq<Prediction>, b: seq<Prediction>)
    ensures Surviving(a + b) == Surviving(a) + Surviving(b)
  {
    if a == [] {
      assert a + b == b;
    } else {
      assert (a + b)[0] == a[0];
      assert (a + b)[1..] == a[1..] + b;
      SurvivingAppend(a[1..], b);
      if Passes(a[0]) {
        assert Surviving(a + b) == [a[0]] + (Surviving(a[1..]) + Surviving(b));
      }
    }
  }

  /** Filtering twice keeps the same predictions as filtering once. */
  lemma {:induction false} SurvivingIdempotent(ps: seq<Prediction>)
    ensures Surviving(Surviving(ps)) == Surviving(ps)
  {
    if ps != [] {
      SurvivingIdempotent(ps[1..]);
      if Passes(ps[0]) {
        var rest := Surviving(ps[1..]);
        assert ([ps[0]] + rest)[0] == ps[0];
        assert ([ps[0]] + rest)[1..] == rest;
      }
    }
  }

  /**
   The head of the filtered list is exactly the first prediction, in the
   classifier's order, that reaches the floor; the filtered list is empty
   exactly when no prediction reaches it.
   */
  lemma {:induction false} SurvivingHead(ps: seq<Prediction>)
    ensures Surviving(ps) != [] ==> exists i :: FirstSurvivorAt(ps, i) && Surviving(ps)[0] == ps[i]
    ensures forall i :: FirstSurvivorAt(ps, i) ==> Surviving(ps) != [] && Surviving(ps)[0] == ps[i]
    ensures Surviving(ps) == [] <==> forall i :: 0 <= i < |ps| ==> !Passes(ps[i])
  {
    if ps != [] {
      SurvivingHead(ps[1..]);
      if Passes(ps[0]) {
        assert FirstSurvivorAt(ps, 0);
      } else {
        if Surviving(ps) != [] {
          var k :| FirstSurvivorAt(ps[1..], k) && Surviving(ps[1..])[0] == ps[1..][k];
          assert FirstSurvivorAt(ps, k + 1);
        }
        forall i | FirstSurvivorAt(ps, i) ensures Surviving(ps) != [] && Surviving(ps)[0] == ps[i] {
          assert i > 0;
          assert FirstSurvivorAt(ps[1..], i - 1);
        }
      }
    }
    assert Surviving(ps) == [] <==> forall i :: 0 <= i < |ps| ==> !Passes(ps[i]) by {
      if Surviving(ps) != [] {
        assert Surviving(ps)[0] in Surviving(ps);
      }
    }
  }

  /**
   Face-presence gate (`personFound`): the image shows a person when the first
   prediction that reaches the floor is labelled "People".
   */
  function PersonFound(ps: seq<Prediction>): (found: bool)
    ensures found ==> exists p :: p in ps && Passes(p) && p.name == PeopleLabel
    ensures (forall i :: 0 <= i < |ps| ==> !Passes(ps[i])) ==> !found
  {
    var predicts := Surviving(ps);
    |predicts| > 0 && predicts[0].name == PeopleLabel
  }

  /**
   The gate in terms of the classifier's raw list: it accepts exactly when the
   first prediction at or above the floor is "People". Predictions ranked
   higher but below the floor play no part.
   */
  lemma PersonFoundIff(ps: seq<Prediction>)
    ensures PersonFound(ps) <==> exists i :: FirstSurvivorAt(ps, i) && ps[i].name == PeopleLabel
  {
    SurvivingHead(ps);
  }

  /** A prediction below the floor is skipped by the gate, not taken as a rejection. */
  lemma PersonFoundSkipsBelowFloor(p: Prediction, ps: seq<Prediction>)
    requires !Passes(p)
    ensures PersonFound([p] + ps) == PersonFound(ps)
  {
    SurvivingAppend([p], ps);
  }

  /**
   Character choice in `detectHPCharacter`: the first prediction that reaches
   the floor, or nothing when none does.
   */
  function SelectCharacter(ps: seq<Prediction>): (chosen: Option<Prediction>)
    ensures chosen.None? <==> forall i :: 0 <= i < |ps| ==> !Passes(ps[i])
    ensures chosen.Some? ==> exists i :: FirstSurvivorAt(ps, i) && chosen.value == ps[i]
    ensures forall i :: FirstSurvivorAt(ps, i) ==> chosen == Some(ps[i])
  {
    SurvivingHead(ps);
    var predicts := Surviving(ps);
    if predicts == [] then None else Some(predicts[0])
  }

  /** Once some prediction survives, predictions appended after the list never change the choice. */
  lemma SelectCharacterIgnoresLater(ps: seq<Prediction>, later: seq<Prediction>)
    requires SelectCharacter(ps).Some?
    ensures SelectCharacter(ps + later) == SelectCharacter(ps)
  {
    SurvivingAppend(ps, later);
  }
}
