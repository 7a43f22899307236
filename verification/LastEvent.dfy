// A yes-or-no fact under a run of events: what the run does step by step, and which single
// event decides it.
module LastEvent {

  datatype Effect = Sets | Clears | Leaves

  function After(effect: Effect, held: bool): bool {
    match effect
    case Sets => true
    case Clears => false
    case Leaves => held
  }

  /** The fact after every event has acted in turn. */
  function Outcome(effects: seq<Effect>, start: bool): bool {
    if effects == [] then start else Outcome(effects[1..], After(effects[0], start))
  }

  predicate QuietFrom(effects: seq<Effect>, k: nat) {
    forall j :: k <= j < |effects| ==> effects[j].Leaves?
  }

  /** The last event that says anything sets the fact, or none says anything and it held at the start. */
  ghost predicate LastSets(effects: seq<Effect>, start: bool) {
    || (exists k :: 0 <= k < |effects| && effects[k].Sets? && QuietFrom(effects, k + 1))
    || (start && QuietFrom(effects, 0))
  }

  lemma {:induction false} LastEventWins(effects: seq<Effect>, start: bool)
    ensures Outcome(effects, start) <==> LastSets(effects, start)
  {
    if effects != [] {
      var rest := effects[1..];
      LastEventWins(rest, After(effects[0], start));
      assert forall k :: 0 <= k < |rest| ==> rest[k] == effects[k + 1];
      assert forall k :: 0 <= k <= |rest| ==> (QuietFrom(rest, k) <==> QuietFrom(effects, k + 1)) by {
        forall k | 0 <= k <= |rest|
          ensures QuietFrom(rest, k) <==> QuietFrom(effects, k + 1)
        {
          assert forall j :: k + 1 <= j < |effects| ==> effects[j] == rest[j - 1];
        }
      }
      if k :| 0 <= k < |rest| && rest[k].Sets? && QuietFrom(rest, k + 1) {
        assert effects[k + 1].Sets? && QuietFrom(effects, k + 2);
      }
      if k :| 0 <= k < |effects| && effects[k].Sets? && QuietFrom(effects, k + 1) {
        if k > 0 {
          assert rest[k - 1].Sets? && QuietFrom(rest, k);
        } else {
          assert QuietFrom(rest, 0);
        }
      }
      if QuietFrom(effects, 0) {
        assert effects[0].Leaves?;
        assert QuietFrom(rest, 0);
      }
    }
  }

  lemma {:induction false} OutcomeOfSum(x: seq<Effect>, y: seq<Effect>, start: bool)
    ensures Outcome(x + y, start) == Outcome(y, Outcome(x, start))
  {
    if x == [] {
      assert x + y == y;
    } else {
      assert (x + y)[1..] == x[1..] + y;
      OutcomeOfSum(x[1..], y, After(x[0], start));
    }
  }

  /** A fact that changed was changed by an event that set or cleared it. */
  lemma ChangeHasCause(effects: seq<Effect>, start: bool)
    ensures !start && Outcome(effects, start) ==> exists k :: 0 <= k < |effects| && effects[k].Sets?
    ensures start && !Outcome(effects, start) ==> exists k :: 0 <= k < |effects| && effects[k].Clears?
  {
    LastEventWins(effects, start);
    if start && !Outcome(effects, start) && forall k :: 0 <= k < |effects| ==> !effects[k].Clears? {
      SomethingLast(effects);
    }
  }

  lemma {:induction false} SomethingLast(effects: seq<Effect>)
    requires forall k :: 0 <= k < |effects| ==> !effects[k].Clears?
    ensures QuietFrom(effects, 0) || exists k :: 0 <= k < |effects| && effects[k].Sets? && QuietFrom(effects, k + 1)
  {
    if effects != [] {
      var front := effects[..|effects| - 1];
      if effects[|effects| - 1].Sets? {
        assert QuietFrom(effects, |effects|);
      } else {
        SomethingLast(front);
        if k :| 0 <= k < |front| && front[k].Sets? && QuietFrom(front, k + 1) {
          assert effects[k].Sets? && QuietFrom(effects, k + 1) by {
            assert forall j :: k + 1 <= j < |front| ==> effects[j] == front[j];
          }
        } else {
          assert forall j :: 0 <= j < |front| ==> effects[j] == front[j];
        }
      }
    }
  }

  /** The last event that says anything. */
  lemma LastMention(effects: seq<Effect>) returns (k: nat)
    requires !QuietFrom(effects, 0)
    ensures k < |effects| && !effects[k].Leaves? && QuietFrom(effects, k + 1)
  {
    k := |effects| - 1;
    while effects[k].Leaves?
      invariant 0 <= k < |effects| && QuietFrom(effects, k + 1)
      decreases k
    {
      k := k - 1;
    }
  }

  /** A fact that held is lost exactly when the last event that says anything clears it. */
  lemma LostIffLastClears(effects: seq<Effect>)
    ensures !Outcome(effects, true)
       <==> exists k :: 0 <= k < |effects| && effects[k].Clears? && QuietFrom(effects, k + 1)
  {
    LastEventWins(effects, true);
    if !LastSets(effects, true) {
      var k := LastMention(effects);
      assert effects[k].Clears?;
    }
    if k :| 0 <= k < |effects| && effects[k].Clears? && QuietFrom(effects, k + 1) {
      assert !QuietFrom(effects, 0);
      forall m | 0 <= m < |effects| && effects[m].Sets?
        ensures !QuietFrom(effects, m + 1)
      {
        assert m < k;
      }
    }
  }
}
