/** `StageSelectState`: player 1 moves a cursor over the two stages and confirms it; after
    a one-second delay the pick is handed to the state manager on the way to the versus
    screen. */
module StageSelection {
  import opened Common
  import opened Flow
  import opened Events

  const StageCount: int := 2

  /** The `stages` list, by its `type` entry: "plains" first, then "battlefield". */
  function StageAt(i: int): (c: StageChoice)
    requires 0 <= i < StageCount
  {
    if i == 0 then PlainsChoice else BattlefieldChoice
  }

  datatype StageView = StageView(current: int, confirmed: Option<int>, transitionTimer: real,
                                 lastJoyMoveTime: int)

  /** The cursor is on a stage, and a confirmed stage is the one under the cursor, which no
      longer moves. */
  predicate StageValid(v: StageView)
  {
    0 <= v.current < StageCount && (v.confirmed.Some? ==> v.confirmed.value == v.current)
  }

  /** `move_cursor`. */
  function CursorMoved(v: StageView, direction: int): (r: StageView)
  {
    v.(current := (v.current + direction) % StageCount)
  }

  /** `confirm_selection`. */
  function Confirmed(v: StageView): (r: StageView)
  {
    v.(confirmed := Some(v.current), transitionTimer := 1.0)
  }

  /** `enter`. */
  function ResetStage(v: StageView): (r: StageView)
  {
    v.(current := 0, confirmed := None, transitionTimer := 0.0)
  }

  /** `handle_event`: the new screen, the new manager and whether the event was consumed. */
  function StageEvent(v: StageView, f: FlowView, e: Event): (r: (StageView, FlowView, bool))
  {
    if v.confirmed.Some? then (v, f, false)
    else
      match e
      case KeyDown(k) =>
        if k == KeyA || k == KeyF then (CursorMoved(v, -1), f, true)
        else if k == KeyD || k == KeyJ then (CursorMoved(v, 1), f, true)
        else if k == Return || k == Space || k == LeftShift then (Confirmed(v), f, true)
        else if k == Escape then (v, ChangeScreen(f, CharacterSelect), true)
        else (v, f, true)
      case JoyButtonDown(player, button) =>
        if player != Some(1) then (v, f, false)
        else if button == 1 then (Confirmed(v), f, true)
        else (v, f, false)
      case JoyAxisMotion(player, axis, value, now) =>
        if player != Some(1) || axis != 0 then (v, f, false)
        else if now - v.lastJoyMoveTime > JoyMoveDelay then
          if value < -0.5 then (CursorMoved(v, -1).(lastJoyMoveTime := now), f, true)
          else if value > 0.5 then (CursorMoved(v, 1).(lastJoyMoveTime := now), f, true)
          else (v, f, true)
        else (v, f, false)
      case OtherEvent => (v, f, false)
  }

  /** `update`: after the confirmation the timer runs down, and when it is spent the stage
      is stored and the manager moves on to the versus screen. */
  function StageUpdate(v: StageView, f: FlowView, dt: real): (r: (StageView, FlowView))
    requires StageValid(v)
  {
    if v.confirmed.Some? then
      var w := v.(transitionTimer := v.transitionTimer - dt);
      if w.transitionTimer <= 0.0 then
        (w, ChangeScreen(f.(selectedStage := Some(StageAt(v.confirmed.value))), VersusScreen))
      else (w, f)
    else (v, f)
  }

  /** Moving one way and then the other brings the cursor back, and it stays on a stage. */
  lemma CursorMovedInverse(v: StageView, direction: int)
    requires StageValid(v) && v.confirmed.None?
    ensures StageValid(CursorMoved(v, direction))
    ensures CursorMoved(CursorMoved(v, direction), -direction) == v
  {
    assert (((v.current + direction) % StageCount) - direction) % StageCount == v.current;
  }

  /** Once a stage is confirmed, every event is ignored and reported as not consumed. */
  lemma StageEventIgnoredAfterConfirm(v: StageView, f: FlowView, e: Event)
    requires v.confirmed.Some?
    ensures StageEvent(v, f, e) == (v, f, false)
  {
  }

  /** Events keep the screen valid; a confirming event fixes the stage under the cursor
      with a one-second timer; the manager either stays or, on Escape, goes back to
      character select with its hook log nested. */
  lemma StageEventFacts(v: StageView, f: FlowView, e: Event)
    requires StageValid(v) && Nested(f)
    ensures var (r, g, _) := StageEvent(v, f, e);
            StageValid(r) && Nested(g) &&
            (r.confirmed != v.confirmed ==> r.confirmed == Some(v.current) && r.transitionTimer == 1.0) &&
            (g == f || (e == KeyDown(Escape) && v.confirmed.None? && g == ChangeScreen(f, CharacterSelect)))
  {
    ChangeScreenNested(f, CharacterSelect);
    if v.confirmed.None? {
      CursorMovedInverse(v, -1);
      CursorMovedInverse(v, 1);
    }
  }

  /** The update hands the stage on exactly when the timer runs out after a confirmation:
      the manager then holds the stage under the cursor and has left for the versus screen;
      otherwise it is untouched. */
  lemma StageUpdateFacts(v: StageView, f: FlowView, dt: real)
    requires StageValid(v) && Nested(f)
    ensures var (r, g) := StageUpdate(v, f, dt);
            var leaves := v.confirmed.Some? && v.transitionTimer - dt <= 0.0;
            StageValid(r) && Nested(g) &&
            (leaves ==> g.selectedStage == Some(StageAt(v.current)) && g.current == Some(VersusScreen) &&
                        g.hooks[..|f.hooks|] == f.hooks &&
                        g.selectedCharacters == f.selectedCharacters && g.matchResults == f.matchResults) &&
            (!leaves ==> g == f) &&
            (v.confirmed.None? ==> r == v)
  {
    if v.confirmed.Some? && v.transitionTimer - dt <= 0.0 {
      ChangeScreenNested(f.(selectedStage := Some(StageAt(v.current))), VersusScreen);
    }
  }

  class StageSelect {
    var current: int
    var confirmed: Option<int>
    var transitionTimer: real
    var lastJoyMoveTime: int
    const manager: StateManager

    function View(): StageView
      reads this
    {
      StageView(current, confirmed, transitionTimer, lastJoyMoveTime)
    }

    /** `__init__`. */
    constructor (manager: StateManager)
      ensures View() == StageView(0, None, 0.0, 0) && this.manager == manager
    {
      current := 0;
      confirmed := None;
      transitionTimer := 0.0;
      lastJoyMoveTime := 0;
      this.manager := manager;
    }

    /** `enter`: the cursor home, nothing confirmed, no timer. */
    method Enter()
      modifies this
      ensures View() == ResetStage(old(View())) && StageValid(View())
    {
      current := 0;
      confirmed := None;
      transitionTimer := 0.0;
    }

    method MoveCursor(direction: int)
      modifies this
      ensures View() == CursorMoved(old(View()), direction)
    {
      current := (current + direction) % StageCount;
    }

    method ConfirmSelection()
      modifies this
      ensures View() == Confirmed(old(View()))
    {
      confirmed := Some(current);
      transitionTimer := 1.0;
    }

    method HandleEvent(e: Event) returns (handled: bool)
      modifies this, manager
      ensures (View(), manager.View(), handled) == StageEvent(old(View()), old(manager.View()), e)
    {
      if confirmed.Some? {
        return false;
      }
      match e {
        case KeyDown(k) =>
          if k == KeyA || k == KeyF {
            MoveCursor(-1);
          } else if k == KeyD || k == KeyJ {
            MoveCursor(1);
          } else if k == Return || k == Space || k == LeftShift {
            ConfirmSelection();
          } else if k == Escape {
            manager.ChangeState(CharacterSelect);
          }
          return true;
        case JoyButtonDown(player, button) =>
          if player != Some(1) {
            return false;
          }
          if button == 1 {
            ConfirmSelection();
            return true;
          }
          return false;
        case JoyAxisMotion(player, axis, value, now) =>
          if player != Some(1) || axis != 0 {
            return false;
          }
          if now - lastJoyMoveTime > JoyMoveDelay {
            if value < -0.5 {
              MoveCursor(-1);
              lastJoyMoveTime := now;
            } else if value > 0.5 {
              MoveCursor(1);
              lastJoyMoveTime := now;
            }
            return true;
          }
          return false;
        case OtherEvent =>
          return false;
      }
    }

    method Update(dt: real)
      requires StageValid(View())
      modifies this, manager
      ensures (View(), manager.View()) == StageUpdate(old(View()), old(manager.View()), dt)
    {
      if confirmed.Some? {
        transitionTimer := transitionTimer - dt;
        if transitionTimer <= 0.0 {
          manager.selectedStage := Some(StageAt(confirmed.value));
          manager.ChangeState(VersusScreen);
        }
      }
    }
  }
}
