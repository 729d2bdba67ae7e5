/** `SimpleMenuState`, the screen registered for the main menu: two options ("Start Game",
    "Quit") and a highlighted one that wraps around in both directions. */
module Menu {
  import opened Common
  import opened Flow
  import opened Events

  const OptionCount: int := 2

  /** The highlighted option, whether a `QUIT` event has been posted, and the manager. */
  datatype MenuView = MenuView(selected: int, quitPosted: bool, flow: FlowView)

  /** `select_option`: option 0 starts character select, option 1 posts `QUIT`. */
  function Select(v: MenuView): (r: MenuView)
  {
    if v.selected == 0 then v.(flow := ChangeScreen(v.flow, CharacterSelect))
    else if v.selected == 1 then v.(quitPosted := true)
    else v
  }

  /** `handle_event`: the new menu and whether the event was consumed. */
  function MenuEvent(v: MenuView, e: Event): (r: (MenuView, bool))
  {
    match e
    case KeyDown(k) =>
      if k == Up || k == KeyW then (v.(selected := (v.selected - 1) % OptionCount), true)
      else if k == Down || k == KeyS then (v.(selected := (v.selected + 1) % OptionCount), true)
      else if k == Return || k == Space then (Select(v), true)
      else (v, false)
    case JoyButtonDown(_, button) =>
      if button == 3 then (Select(v), true) else (v, false)
    case JoyAxisMotion(_, axis, value, _) =>
      if axis == 1 && Abs(value) > 0.5 then
        if value < -0.5 then (v.(selected := (v.selected - 1) % OptionCount), true)
        else if value > 0.5 then (v.(selected := (v.selected + 1) % OptionCount), true)
        else (v, true)
      else (v, false)
    case OtherEvent => (v, false)
  }

  /** Choosing the highlighted option leaves the menu only for character select and only
      from option 0, and posts `QUIT` only from option 1. */
  lemma SelectFacts(v: MenuView)
    requires Nested(v.flow)
    ensures var r := Select(v);
            r.selected == v.selected && Nested(r.flow) &&
            (r.flow == v.flow || (v.selected == 0 && r.flow == ChangeScreen(v.flow, CharacterSelect))) &&
            (r.flow != v.flow ==> r.flow.current == Some(CharacterSelect)) &&
            (r.quitPosted != v.quitPosted ==> v.selected == 1)
  {
    ChangeScreenNested(v.flow, CharacterSelect);
  }

  /** Whatever the event, the highlight stays on one of the two options; the menu is left
      only for character select and only from option 0, and only option 1 posts `QUIT`. */
  lemma MenuEventFacts(v: MenuView, e: Event)
    requires 0 <= v.selected < OptionCount && Nested(v.flow)
    ensures var (r, _) := MenuEvent(v, e);
            0 <= r.selected < OptionCount && Nested(r.flow) &&
            (r.flow == v.flow || r.flow == ChangeScreen(v.flow, CharacterSelect)) &&
            (r.flow != v.flow ==> v.selected == 0 && r.flow.current == Some(CharacterSelect)) &&
            (r.quitPosted != v.quitPosted ==> v.selected == 1)
  {
    var (r, _) := MenuEvent(v, e);
    if r.flow != v.flow || r.quitPosted != v.quitPosted {
      assert r == Select(v);
      SelectFacts(v);
    }
  }

  /** Moving up then down, or down then up, brings the highlight back. */
  lemma MenuWrapInverse(v: MenuView)
    requires 0 <= v.selected < OptionCount
    ensures MenuEvent(MenuEvent(v, KeyDown(Up)).0, KeyDown(Down)).0 == v
    ensures MenuEvent(MenuEvent(v, KeyDown(Down)).0, KeyDown(Up)).0 == v
  {
    if v.selected == 0 {
      assert MenuEvent(v, KeyDown(Up)).0.selected == 1;
    } else {
      assert MenuEvent(v, KeyDown(Up)).0.selected == 0;
    }
  }

  class SimpleMenu {
    var selected: int
    var quitPosted: bool
    const manager: StateManager

    function View(): MenuView
      reads this, manager
    {
      MenuView(selected, quitPosted, manager.View())
    }

    /** `__init__`: the first option highlighted. */
    constructor (manager: StateManager)
      ensures this.manager == manager && selected == 0 && !quitPosted
    {
      this.manager := manager;
      selected := 0;
      quitPosted := false;
    }

    method SelectOption()
      modifies this, manager
      ensures View() == Select(old(View()))
    {
      if selected == 0 {
        manager.ChangeState(CharacterSelect);
      } else if selected == 1 {
        quitPosted := true;
      }
    }

    method HandleEvent(e: Event) returns (handled: bool)
      modifies this, manager
      ensures (View(), handled) == MenuEvent(old(View()), e)
    {
      match e {
        case KeyDown(k) =>
          if k == Up || k == KeyW {
            selected := (selected - 1) % OptionCount;
            return true;
          } else if k == Down || k == KeyS {
            selected := (selected + 1) % OptionCount;
            return true;
          } else if k == Return || k == Space {
            SelectOption();
            return true;
          }
          return false;
        case JoyButtonDown(_, button) =>
          if button == 3 {
            SelectOption();
            return true;
          }
          return false;
        case JoyAxisMotion(_, axis, value, _) =>
          if axis == 1 && Abs(value) > 0.5 {
            if value < -0.5 {
              selected := (selected - 1) % OptionCount;
            } else if value > 0.5 {
              selected := (selected + 1) % OptionCount;
            }
            return true;
          }
          return false;
        case OtherEvent =>
          return false;
      }
    }
  }
}
