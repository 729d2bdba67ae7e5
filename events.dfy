/** The pygame events the menu and selection screens react to, reduced to the fields those
    screens read. A joystick event carries the player id that
    `InputManager.get_player_id_from_joystick` resolves for its `instance_id` (`None` for an
    unassigned stick or an event without one), and an axis event carries the
    `pygame.time.get_ticks()` reading taken when it is handled. */
module Events {
  import opened Common

  datatype Key =
    | KeyA | KeyD | KeyF | KeyJ | KeyL | KeyS | KeyW | KeyQuote
    | LeftShift | RightShift | Return | Space | Escape | Up | Down
    | OtherKey

  datatype Event =
    | KeyDown(key: Key)
    | JoyButtonDown(player: Option<int>, button: int)
    | JoyAxisMotion(player: Option<int>, axis: int, value: real, now: int)
    | OtherEvent

  /** `joy_move_delay`: milliseconds a stick must wait between two cursor moves. */
  const JoyMoveDelay: int := 200
}
