/** The `StateManager`: which screen is current, the order in which screens are left and
    entered, and the game data the screens hand to one another (the two character picks,
    the stage pick and the match results). */
module Flow {
  import opened Common
  import opened Moves

  /** `GameStateType` members that have a screen. */
  datatype Screen = MainMenu | CharacterSelect | StageSelect | VersusScreen | Gameplay | WinScreen

  /** A call of a screen's `exit` or `enter` hook. */
  datatype Hook = Exited(exited: Screen) | Entered(entered: Screen)

  /** The `type` of the stage select entries: index 0 is "plains", index 1 "battlefield". */
  datatype StageChoice = PlainsChoice | BattlefieldChoice

  /** `match_results` as `transition_to_win_screen` stores it. */
  datatype MatchResults = MatchResults(winner: int, loser: int, winnerCharacter: Archetype,
                                       loserCharacter: Archetype, matchTime: real,
                                       winnerDamage: real, loserDamage: real)

  datatype FlowView = FlowView(current: Option<Screen>, hooks: seq<Hook>,
                               selectedCharacters: Option<(Archetype, Archetype)>,
                               selectedStage: Option<StageChoice>,
                               matchResults: Option<MatchResults>)

  /** Enter calls at even positions, and each odd position the exit of the screen entered
      just before it. */
  predicate Alternates(h: seq<Hook>)
  {
    (forall i :: 0 <= i < |h| ==> (i % 2 == 0 <==> h[i].Entered?)) &&
    (forall i :: 0 <= i < |h| && i % 2 == 1 ==> h[i] == Exited(h[i - 1].entered))
  }

  /** The hook log of a manager that has entered screens one after another: the calls
      alternate, and the current screen is the last one entered. */
  predicate Nested(v: FlowView)
  {
    (v.current.None? <==> |v.hooks| == 0) &&
    (v.current.Some? ==> |v.hooks| % 2 == 1 && v.hooks[|v.hooks| - 1] == Entered(v.current.value)) &&
    Alternates(v.hooks)
  }

  /** Leaving the screen entered last and entering another keeps the calls alternating. */
  lemma AlternatesAppend(h: seq<Hook>, s: Screen, t: Screen)
    requires Alternates(h) && |h| % 2 == 1 && h[|h| - 1] == Entered(s)
    ensures Alternates(h + [Exited(s), Entered(t)])
  {
    var r := h + [Exited(s), Entered(t)];
    var n := |h|;
    forall i | 0 <= i < |r|
      ensures (i % 2 == 0 <==> r[i].Entered?)
      ensures i % 2 == 1 ==> r[i] == Exited(r[i - 1].entered)
    {
      if i < n {
        assert r[i] == h[i];
        if i % 2 == 1 {
          assert r[i - 1] == h[i - 1];
        }
      } else if i == n {
        assert r[i - 1] == h[n - 1];
      } else {
        assert i == n + 1 && i % 2 == 0;
      }
    }
  }

  /** `change_state`: the old screen's `exit`, then the new screen's `enter`. */
  function ChangeScreen(v: FlowView, t: Screen): (r: FlowView)
  {
    var left := if v.current.Some? then [Exited(v.current.value)] else [];
    v.(current := Some(t), hooks := v.hooks + left + [Entered(t)])
  }

  /** The manager as `__init__` leaves it: the menu entered, nothing selected. */
  function InitialFlow(): (r: FlowView)
    ensures Nested(r) && r.current == Some(MainMenu)
  {
    ChangeScreen(FlowView(None, [], None, None, None), MainMenu)
  }

  /** A screen change leaves the screen it was on before it enters the new one, and only
      then; the picks and results stay as they were. */
  lemma ChangeScreenNested(v: FlowView, t: Screen)
    requires Nested(v)
    ensures var r := ChangeScreen(v, t);
            Nested(r) && r.current == Some(t) &&
            r.hooks[..|v.hooks|] == v.hooks &&
            (v.current.Some? ==> r.hooks[|v.hooks|..] == [Exited(v.current.value), Entered(t)]) &&
            (v.current.None? ==> r.hooks[|v.hooks|..] == [Entered(t)]) &&
            r.selectedCharacters == v.selectedCharacters && r.selectedStage == v.selectedStage &&
            r.matchResults == v.matchResults
  {
    var r := ChangeScreen(v, t);
    if v.current.Some? {
      assert r.hooks == v.hooks + [Exited(v.current.value), Entered(t)];
      AlternatesAppend(v.hooks, v.current.value, t);
    } else {
      assert r.hooks == [Entered(t)];
    }
  }

  class StateManager {
    var current: Option<Screen>
    var hooks: seq<Hook>
    var selectedCharacters: Option<(Archetype, Archetype)>
    var selectedStage: Option<StageChoice>
    var matchResults: Option<MatchResults>

    function View(): FlowView
      reads this
    {
      FlowView(current, hooks, selectedCharacters, selectedStage, matchResults)
    }

    /** `__init__`: no screen and no data, then the main menu. */
    constructor ()
      ensures View() == InitialFlow()
    {
      current := None;
      hooks := [];
      selectedCharacters := None;
      selectedStage := None;
      matchResults := None;
      new;
      ChangeState(MainMenu);
    }

    /** `change_state`. */
    method ChangeState(t: Screen)
      modifies this
      ensures View() == ChangeScreen(old(View()), t)
    {
      if current.Some? {
        hooks := hooks + [Exited(current.value)];
      }
      current := Some(t);
      hooks := hooks + [Entered(t)];
    }
  }
}
