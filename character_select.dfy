/** `CharacterSelectState`: both players move a cursor over the three fighters and confirm
    it; once both have confirmed, a one-second delay runs out and the picks are handed to
    the state manager on the way to stage select. */
module CharacterSelection {
  import opened Common
  import opened Moves
  import opened Flow
  import opened Events

  const RosterSize: int := 3

  /** The `characters` list, in screen order. */
  function Roster(i: int): (a: Archetype)
    requires 0 <= i < RosterSize
  {
    if i == 0 then Warrior else if i == 1 then Speedster else Heavy
  }

  /** `SelectionState`. */
  datatype Phase = Selecting | BothConfirmed | Transitioning

  datatype PickView = PickView(cursor1: int, cursor2: int,
                               selection1: Option<int>, selection2: Option<int>,
                               phase: Phase, transitionTimer: real, lastJoyMoveTime: int)

  /** What the screen's methods keep true: cursors on the roster, a confirmed pick equal to
      its player's cursor (which no longer moves), and the screen past selecting exactly
      when both players have confirmed. */
  predicate PickValid(v: PickView)
  {
    0 <= v.cursor1 < RosterSize && 0 <= v.cursor2 < RosterSize &&
    (v.selection1.Some? ==> v.selection1.value == v.cursor1) &&
    (v.selection2.Some? ==> v.selection2.value == v.cursor2) &&
    v.phase != Transitioning &&
    (v.phase == BothConfirmed <==> v.selection1.Some? && v.selection2.Some?)
  }

  /** `move_cursor`. */
  function CursorMoved(v: PickView, player: int, direction: int): (r: PickView)
  {
    if player == 1 && v.selection1.None? then v.(cursor1 := (v.cursor1 + direction) % RosterSize)
    else if player == 2 && v.selection2.None? then v.(cursor2 := (v.cursor2 + direction) % RosterSize)
    else v
  }

  /** `check_both_selected`. */
  function CheckBoth(v: PickView): (r: PickView)
  {
    if v.selection1.Some? && v.selection2.Some? then v.(phase := BothConfirmed, transitionTimer := 1.0)
    else v
  }

  /** `confirm_selection`. */
  function Confirm(v: PickView, player: int): (r: PickView)
  {
    var w := if player == 1 && v.selection1.None? then v.(selection1 := Some(v.cursor1))
             else if player == 2 && v.selection2.None? then v.(selection2 := Some(v.cursor2))
             else v;
    CheckBoth(w)
  }

  /** `enter`: cursors home, no picks, selecting again; the transition timer is kept. */
  function ResetPicks(v: PickView): (r: PickView)
  {
    v.(cursor1 := 0, cursor2 := 0, selection1 := None, selection2 := None, phase := Selecting)
  }

  /** A stick push on the horizontal axis, once the delay since the last one has passed. */
  function JoyMove(v: PickView, player: int, value: real, now: int): (r: (PickView, bool))
  {
    if now - v.lastJoyMoveTime > JoyMoveDelay then
      if value < -0.5 then (CursorMoved(v, player, -1).(lastJoyMoveTime := now), true)
      else if value > 0.5 then (CursorMoved(v, player, 1).(lastJoyMoveTime := now), true)
      else (v, true)
    else (v, false)
  }

  /** `handle_event`: the new screen, the new manager and whether the event was consumed. */
  function PickEvent(v: PickView, f: FlowView, e: Event): (r: (PickView, FlowView, bool))
  {
    if v.phase != Selecting then (v, f, false)
    else
      match e
      case KeyDown(k) =>
        if k == KeyA then (CursorMoved(v, 1, -1), f, true)
        else if k == KeyD then (CursorMoved(v, 1, 1), f, true)
        else if k == LeftShift then (Confirm(v, 1), f, true)
        else if k == KeyL then (CursorMoved(v, 2, -1), f, true)
        else if k == KeyQuote then (CursorMoved(v, 2, 1), f, true)
        else if k == RightShift then (Confirm(v, 2), f, true)
        else if k == Escape then (v, ChangeScreen(f, MainMenu), true)
        else (v, f, true)
      case JoyButtonDown(player, button) =>
        if player.None? then (v, f, false)
        else if button == (if player.value == 1 then 1 else 0) then (Confirm(v, player.value), f, true)
        else (v, f, false)
      case JoyAxisMotion(player, axis, value, now) =>
        if player.None? || axis != 0 then (v, f, false)
        else var (w, handled) := JoyMove(v, player.value, value, now); (w, f, handled)
      case OtherEvent => (v, f, false)
  }

  /** `update`: after both confirmations the timer runs down, and when it is spent the two
      picks are stored and the manager moves on to stage select. */
  function PickUpdate(v: PickView, f: FlowView, dt: real): (r: (PickView, FlowView))
    requires PickValid(v)
  {
    if v.phase == BothConfirmed then
      var w := v.(transitionTimer := v.transitionTimer - dt);
      if w.transitionTimer <= 0.0 then
        var picks := (Roster(v.selection1.value), Roster(v.selection2.value));
        (w, ChangeScreen(f.(selectedCharacters := Some(picks)), StageSelect))
      else (w, f)
    else (v, f)
  }

  /** A cursor moves by the direction, modulo the roster, only for an unconfirmed player,
      and nothing else changes. */
  lemma MoveCursorFacts(v: PickView, player: int, direction: int)
    requires PickValid(v)
    ensures var r := CursorMoved(v, player, direction);
            PickValid(r) &&
            r.cursor1 == (if player == 1 && v.selection1.None? then (v.cursor1 + direction) % RosterSize else v.cursor1) &&
            r.cursor2 == (if player == 2 && v.selection2.None? then (v.cursor2 + direction) % RosterSize else v.cursor2) &&
            r.selection1 == v.selection1 && r.selection2 == v.selection2 && r.phase == v.phase &&
            r.transitionTimer == v.transitionTimer
  {
  }

  /** Moving one way and then the other brings a cursor back. */
  lemma MoveCursorInverse(v: PickView, player: int, direction: int)
    requires PickValid(v)
    ensures CursorMoved(CursorMoved(v, player, direction), player, -direction) == v
  {
    var r := CursorMoved(v, player, direction);
    if player == 1 && v.selection1.None? {
      assert (((v.cursor1 + direction) % RosterSize) - direction) % RosterSize == v.cursor1;
      assert CursorMoved(r, player, -direction).cursor1 == v.cursor1;
    } else if player == 2 && v.selection2.None? {
      assert (((v.cursor2 + direction) % RosterSize) - direction) % RosterSize == v.cursor2;
      assert CursorMoved(r, player, -direction).cursor2 == v.cursor2;
    }
  }

  /** A confirmation copies the player's cursor into an empty pick and otherwise keeps the
      pick; the screen moves on, with a one-second timer, exactly when both have picked. */
  lemma ConfirmFacts(v: PickView, player: int)
    requires PickValid(v) && v.phase == Selecting
    ensures var r := Confirm(v, player);
            PickValid(r) && r.cursor1 == v.cursor1 && r.cursor2 == v.cursor2 &&
            r.selection1 == (if player == 1 then Some(v.cursor1) else v.selection1) &&
            r.selection2 == (if player == 2 then Some(v.cursor2) else v.selection2) &&
            (r.phase == BothConfirmed <==> r.selection1.Some? && r.selection2.Some?) &&
            (r.phase == BothConfirmed ==> r.transitionTimer == 1.0) &&
            (r.phase == Selecting ==> r.transitionTimer == v.transitionTimer)
  {
  }

  /** Confirming twice is confirming once. */
  lemma ConfirmIdempotent(v: PickView, player: int)
    requires PickValid(v)
    ensures Confirm(Confirm(v, player), player) == Confirm(v, player)
  {
  }

  /** Outside selecting, every event is ignored and reported as not consumed. */
  lemma PickEventIgnoredUnlessSelecting(v: PickView, f: FlowView, e: Event)
    requires v.phase != Selecting
    ensures PickEvent(v, f, e) == (v, f, false)
  {
  }

  /** Events keep the screen valid; the manager either stays or, on Escape, goes back to the
      main menu, keeping its hook log nested. */
  lemma PickEventFacts(v: PickView, f: FlowView, e: Event)
    requires PickValid(v) && Nested(f)
    ensures var (r, g, _) := PickEvent(v, f, e);
            PickValid(r) && Nested(g) &&
            (g == f || (e == KeyDown(Escape) && v.phase == Selecting && g == ChangeScreen(f, MainMenu)))
  {
    ChangeScreenNested(f, MainMenu);
    if v.phase == Selecting {
      MoveCursorFacts(v, 1, -1);
      MoveCursorFacts(v, 1, 1);
      MoveCursorFacts(v, 2, -1);
      MoveCursorFacts(v, 2, 1);
      ConfirmFacts(v, 1);
      ConfirmFacts(v, 2);
      match e
      case JoyButtonDown(player, _) =>
        if player.Some? {
          ConfirmFacts(v, player.value);
        }
      case JoyAxisMotion(player, _, _, _) =>
        if player.Some? {
          MoveCursorFacts(v, player.value, -1);
          MoveCursorFacts(v, player.value, 1);
        }
      case _ =>
    }
  }

  /** The update hands the picks on exactly when the timer runs out after both players have
      confirmed: the manager then holds the two fighters under the cursors and has left for
      stage select; otherwise it is untouched. */
  lemma PickUpdateFacts(v: PickView, f: FlowView, dt: real)
    requires PickValid(v) && Nested(f)
    ensures var (r, g) := PickUpdate(v, f, dt);
            var leaves := v.phase == BothConfirmed && v.transitionTimer - dt <= 0.0;
            PickValid(r) && Nested(g) &&
            (leaves ==> g.selectedCharacters == Some((Roster(v.cursor1), Roster(v.cursor2))) &&
                        g.current == Some(StageSelect) && g.hooks[..|f.hooks|] == f.hooks &&
                        g.selectedStage == f.selectedStage && g.matchResults == f.matchResults) &&
            (!leaves ==> g == f) &&
            (v.phase == Selecting ==> r == v)
  {
    if v.phase == BothConfirmed && v.transitionTimer - dt <= 0.0 {
      ChangeScreenNested(f.(selectedCharacters := Some((Roster(v.cursor1), Roster(v.cursor2)))), StageSelect);
    }
  }

  class CharacterSelect {
    var cursor1: int
    var cursor2: int
    var selection1: Option<int>
    var selection2: Option<int>
    var phase: Phase
    var transitionTimer: real
    var lastJoyMoveTime: int
    const manager: StateManager

    function View(): PickView
      reads this
    {
      PickView(cursor1, cursor2, selection1, selection2, phase, transitionTimer, lastJoyMoveTime)
    }

    /** `__init__`. */
    constructor (manager: StateManager)
      ensures View() == PickView(0, 0, None, None, Selecting, 0.0, 0) && PickValid(View())
      ensures this.manager == manager
    {
      cursor1, cursor2 := 0, 0;
      selection1, selection2 := None, None;
      phase := Selecting;
      transitionTimer := 0.0;
      lastJoyMoveTime := 0;
      this.manager := manager;
    }

    method Enter()
      modifies this
      ensures View() == ResetPicks(old(View())) && PickValid(View())
    {
      cursor1, cursor2 := 0, 0;
      selection1, selection2 := None, None;
      phase := Selecting;
    }

    method MoveCursor(player: int, direction: int)
      modifies this
      ensures View() == CursorMoved(old(View()), player, direction)
    {
      if player == 1 && selection1.None? {
        cursor1 := (cursor1 + direction) % RosterSize;
      } else if player == 2 && selection2.None? {
        cursor2 := (cursor2 + direction) % RosterSize;
      }
    }

    method CheckBothSelected()
      modifies this
      ensures View() == CheckBoth(old(View()))
    {
      if selection1.Some? && selection2.Some? {
        phase := BothConfirmed;
        transitionTimer := 1.0;
      }
    }

    method ConfirmSelection(player: int)
      modifies this
      ensures View() == Confirm(old(View()), player)
    {
      if player == 1 && selection1.None? {
        selection1 := Some(cursor1);
      } else if player == 2 && selection2.None? {
        selection2 := Some(cursor2);
      }
      CheckBothSelected();
    }

    method HandleEvent(e: Event) returns (handled: bool)
      modifies this, manager
      ensures (View(), manager.View(), handled) == PickEvent(old(View()), old(manager.View()), e)
    {
      if phase != Selecting {
        return false;
      }
      match e {
        case KeyDown(k) =>
          if k == KeyA {
            MoveCursor(1, -1);
          } else if k == KeyD {
            MoveCursor(1, 1);
          } else if k == LeftShift {
            ConfirmSelection(1);
          } else if k == KeyL {
            MoveCursor(2, -1);
          } else if k == KeyQuote {
            MoveCursor(2, 1);
          } else if k == RightShift {
            ConfirmSelection(2);
          } else if k == Escape {
            manager.ChangeState(MainMenu);
          }
          return true;
        case JoyButtonDown(player, button) =>
          if player.None? {
            return false;
          }
          var attackButton := if player.value == 1 then 1 else 0;
          if button == attackButton {
            ConfirmSelection(player.value);
            return true;
          }
          return false;
        case JoyAxisMotion(player, axis, value, now) =>
          if player.None? || axis != 0 {
            return false;
          }
          if now - lastJoyMoveTime > JoyMoveDelay {
            if value < -0.5 {
              MoveCursor(player.value, -1);
              lastJoyMoveTime := now;
            } else if value > 0.5 {
              MoveCursor(player.value, 1);
              lastJoyMoveTime := now;
            }
            return true;
          }
          return false;
        case OtherEvent =>
          return false;
      }
    }

    method Update(dt: real)
      requires PickValid(View())
      modifies this, manager
      ensures (View(), manager.View()) == PickUpdate(old(View()), old(manager.View()), dt)
    {
      if phase == BothConfirmed {
        transitionTimer := transitionTimer - dt;
        if transitionTimer <= 0.0 {
          manager.selectedCharacters := Some((Roster(selection1.value), Roster(selection2.value)));
          manager.ChangeState(StageSelect);
        }
      }
    }
  }
}
