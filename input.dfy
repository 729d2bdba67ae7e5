/** Per-player input snapshots (`PlayerInput`) and the small queries the fighters and the
    menus make of them (`InputManager`). Key polling and joystick hot-plugging are device
    plumbing: a keyboard update receives the six mapped key states, a joystick update the
    two axis readings and two button readings. */
module Input {
  import opened Common

  /** Dead zone of the analog sticks. */
  const AxisThreshold: real := 0.5
  /** Number of frames the history buffer keeps. */
  const BufferSize: nat := 6

  /** The six tracked actions, named after `InputAction`. */
  datatype Action = MoveLeft | MoveRight | Jump | Crouch | Attack | Grab

  /** One frame of the six action states. */
  datatype Buttons = Buttons(left: bool, right: bool, up: bool, down: bool, attack: bool, grab: bool)

  const NoButtons := Buttons(false, false, false, false, false, false)

  function Held(b: Buttons, a: Action): bool
  {
    match a
    case MoveLeft => b.left
    case MoveRight => b.right
    case Jump => b.up
    case Crouch => b.down
    case Attack => b.attack
    case Grab => b.grab
  }

  /** The eight strings `get_attack_direction` can return. */
  datatype AttackDirection =
    | Neutral | Side | Up | Down
    | NeutralSpecial | SideSpecial | UpSpecial | DownSpecial

  predicate IsSpecial(d: AttackDirection)
  {
    d.NeutralSpecial? || d.SideSpecial? || d.UpSpecial? || d.DownSpecial?
  }

  /** The value held by one `PlayerInput`. */
  datatype Pad = Pad(current: Buttons, previous: Buttons, horizontalAxis: real, verticalAxis: real,
                     buffer: seq<Buttons>)

  const InitialPad := Pad(NoButtons, NoButtons, 0.0, 0.0, [])

  function IsPressed(p: Pad, a: Action): bool
  {
    Held(p.current, a)
  }

  /** Rising edge of an action. */
  function WasJustPressed(p: Pad, a: Action): (r: bool)
    ensures r ==> IsPressed(p, a) && !WasJustReleased(p, a)
  {
    Held(p.current, a) && !Held(p.previous, a)
  }

  /** Falling edge of an action. */
  function WasJustReleased(p: Pad, a: Action): (r: bool)
    ensures r ==> !IsPressed(p, a) && Held(p.previous, a)
  {
    !Held(p.current, a) && Held(p.previous, a)
  }

  /** Classifies the held directions, with the grab button as the special modifier. */
  function AttackDirectionOf(p: Pad): (r: AttackDirection)
    ensures IsSpecial(r) <==> IsPressed(p, Grab)
    ensures (r.Up? || r.UpSpecial?) <==> IsPressed(p, Jump)
    ensures (r.Down? || r.DownSpecial?) <==> !IsPressed(p, Jump) && IsPressed(p, Crouch)
    ensures (r.Side? || r.SideSpecial?) <==>
              !IsPressed(p, Jump) && !IsPressed(p, Crouch) && (IsPressed(p, MoveLeft) || IsPressed(p, MoveRight))
  {
    var special := IsPressed(p, Grab);
    if IsPressed(p, Jump) then (if special then UpSpecial else Up)
    else if IsPressed(p, Crouch) then (if special then DownSpecial else Down)
    else if IsPressed(p, MoveLeft) || IsPressed(p, MoveRight) then (if special then SideSpecial else Side)
    else (if special then NeutralSpecial else Neutral)
  }

  /** An axis from two opposing keys, the negative key counted first. */
  function KeyAxis(negative: bool, positive: bool): (r: real)
    ensures r == -1.0 || r == 0.0 || r == 1.0
    ensures r == -1.0 <==> negative && !positive
    ensures r == 1.0 <==> positive && !negative
  {
    (if negative then -1.0 else 0.0) + (if positive then 1.0 else 0.0)
  }

  /** Appends the newest frame and drops the oldest once the buffer is over its size. */
  function PushFrame(buffer: seq<Buttons>, frame: Buttons): (r: seq<Buttons>)
    ensures |r| == |buffer| + 1 || |r| == |buffer|
    ensures |buffer| <= BufferSize ==> |r| <= BufferSize
    ensures |r| > 0 && r[|r| - 1] == frame
    ensures r == (buffer + [frame])[|buffer| + 1 - |r|..]
  {
    var grown := buffer + [frame];
    if |grown| > BufferSize then grown[1..] else grown
  }

  /** `PlayerInput.update`: the previous frame is remembered before the new key states are read. */
  function KeyboardUpdate(p: Pad, keys: Buttons): (r: Pad)
    ensures r.previous == p.current && r.current == keys
    ensures r.horizontalAxis == KeyAxis(keys.left, keys.right)
    ensures r.verticalAxis == KeyAxis(keys.up, keys.down)
    ensures r.buffer == PushFrame(p.buffer, keys)
    ensures |p.buffer| <= BufferSize ==> |r.buffer| <= BufferSize
    ensures |r.buffer| > 0 && r.buffer[|r.buffer| - 1] == keys
  {
    Pad(keys, p.current, KeyAxis(keys.left, keys.right), KeyAxis(keys.up, keys.down), PushFrame(p.buffer, keys))
  }

  /** One joystick poll: two axes in [-1, 1] and the attack and grab buttons. */
  datatype JoyReading = JoyReading(axisH: real, axisV: real, attack: bool, grab: bool)

  function DeadZone(a: real): (r: real)
    ensures r == 0.0 || (r == a && Abs(a) >= AxisThreshold)
    ensures Abs(a) >= AxisThreshold ==> r == a
  {
    if Abs(a) < AxisThreshold then 0.0 else a
  }

  /** `PlayerInput.update_from_joystick` with a joystick assigned. */
  function JoystickUpdate(p: Pad, j: JoyReading): (r: Pad)
    ensures r.previous == p.current
    ensures !(r.current.left && r.current.right) && !(r.current.up && r.current.down)
    ensures r.current.left <==> j.axisH < -AxisThreshold
    ensures r.current.right <==> j.axisH > AxisThreshold
    ensures r.current.up <==> j.axisV < -AxisThreshold
    ensures r.current.down <==> j.axisV > AxisThreshold
    ensures r.horizontalAxis == DeadZone(j.axisH) && r.verticalAxis == DeadZone(j.axisV)
    ensures r.horizontalAxis == 0.0 || Abs(r.horizontalAxis) >= AxisThreshold
    ensures r.verticalAxis == 0.0 || Abs(r.verticalAxis) >= AxisThreshold
    ensures r.current.attack == j.attack && r.current.grab == j.grab
    ensures r.buffer == PushFrame(p.buffer, r.current)
    ensures |p.buffer| <= BufferSize ==> |r.buffer| <= BufferSize
  {
    var h := DeadZone(j.axisH);
    var v := DeadZone(j.axisV);
    var now := Buttons(h < -AxisThreshold, h > AxisThreshold, v < -AxisThreshold, v > AxisThreshold, j.attack, j.grab);
    Pad(now, p.current, h, v, PushFrame(p.buffer, now))
  }

  /** The effective look-back window of `was_pressed_in_buffer` (negative: none). */
  function Window(framesBack: Option<int>, length: nat): (k: nat)
    ensures k <= length
    ensures framesBack.None? ==> k == if BufferSize <= length then BufferSize else length
    ensures framesBack.Some? && 0 <= framesBack.value <= length ==> k == framesBack.value
  {
    var fb := if framesBack.None? then BufferSize as int else framesBack.value;
    if fb <= 0 then 0 else if fb < length then fb else length
  }

  class PlayerInput {
    var current: Buttons
    var previous: Buttons
    var buffer: seq<Buttons>
    var horizontalAxis: real
    var verticalAxis: real
    var hasJoystick: bool

    function View(): Pad
      reads this
    {
      Pad(current, previous, horizontalAxis, verticalAxis, buffer)
    }

    ghost predicate Valid()
      reads this
    {
      |buffer| <= BufferSize
    }

    constructor ()
      ensures Valid() && View() == InitialPad && !hasJoystick
    {
      current, previous := NoButtons, NoButtons;
      buffer := [];
      horizontalAxis, verticalAxis := 0.0, 0.0;
      hasJoystick := false;
    }

    method AssignJoystick()
      modifies this
      ensures hasJoystick && View() == old(View())
    {
      hasJoystick := true;
    }

    method UnassignJoystick()
      modifies this
      ensures !hasJoystick && View() == old(View())
    {
      hasJoystick := false;
    }

    /** The current frame goes onto the history, whose oldest frame is dropped past six. */
    method PushCurrent()
      modifies this
      ensures buffer == PushFrame(old(buffer), current)
      ensures current == old(current) && previous == old(previous) && hasJoystick == old(hasJoystick)
      ensures horizontalAxis == old(horizontalAxis) && verticalAxis == old(verticalAxis)
    {
      buffer := buffer + [current];
      if |buffer| > BufferSize {
        buffer := buffer[1..];
      }
    }

    /** Keyboard poll with the six mapped key states. */
    method Update(keys: Buttons)
      requires Valid()
      modifies this
      ensures Valid() && hasJoystick == old(hasJoystick)
      ensures View() == KeyboardUpdate(old(View()), keys)
    {
      previous := current;
      current := keys;
      horizontalAxis := 0.0;
      if current.left { horizontalAxis := horizontalAxis - 1.0; }
      if current.right { horizontalAxis := horizontalAxis + 1.0; }
      verticalAxis := 0.0;
      if current.up { verticalAxis := verticalAxis - 1.0; }
      if current.down { verticalAxis := verticalAxis + 1.0; }
      PushCurrent();
    }

    /** Joystick poll; with no joystick assigned nothing changes. */
    method UpdateFromJoystick(j: JoyReading)
      requires Valid()
      modifies this
      ensures Valid() && hasJoystick == old(hasJoystick)
      ensures !hasJoystick ==> View() == old(View())
      ensures hasJoystick ==> View() == JoystickUpdate(old(View()), j)
    {
      if !hasJoystick {
        return;
      }
      previous := current;
      var h := ApplyDeadZone(j.axisH);
      var v := ApplyDeadZone(j.axisV);
      horizontalAxis, verticalAxis := h, v;
      current := Buttons(h < -AxisThreshold, h > AxisThreshold, v < -AxisThreshold, v > AxisThreshold, j.attack, j.grab);
      PushCurrent();
    }

    /** The dead zone on one stick reading: a reading under the threshold in magnitude reads as 0. */
    static method ApplyDeadZone(a: real) returns (r: real)
      ensures r == DeadZone(a)
    {
      r := a;
      if Abs(r) < AxisThreshold {
        r := 0.0;
      }
    }

    /** Scans the newest `framesBack` frames (default: the buffer size) for the action. */
    method WasPressedInBuffer(a: Action, framesBack: Option<int>) returns (r: bool)
      ensures r == PressedWithin(buffer, a, Window(framesBack, |buffer|))
      ensures buffer == [] ==> !r
    {
      var toCheck := Window(framesBack, |buffer|);
      var i := 0;
      while i < toCheck
        invariant 0 <= i <= toCheck
        invariant forall k :: |buffer| - i <= k < |buffer| ==> !Held(buffer[k], a)
      {
        if Held(buffer[|buffer| - (i + 1)], a) {
          return true;
        }
        i := i + 1;
      }
      return false;
    }
  }

  /** Special-move patterns `detect_special_move` recognises; anything else is `OtherPattern`. */
  datatype MovePattern = QuarterCircleForward | QuarterCircleBack | OtherPattern

  class InputManager {
    const player1Input: PlayerInput
    const player2Input: PlayerInput
    var player1JoyId: Option<int>
    var player2JoyId: Option<int>

    constructor ()
      ensures fresh(player1Input) && fresh(player2Input) && player1Input != player2Input
      ensures player1Input.Valid() && player2Input.Valid()
      ensures player1JoyId.None? && player2JoyId.None?
    {
      player1Input := new PlayerInput();
      player2Input := new PlayerInput();
      player1JoyId, player2JoyId := None, None;
    }

    /** Player 1 or 2's input; any other id raises. */
    function GetPlayerInput(playerId: int): (r: Result<PlayerInput>)
      reads this
      ensures r.Ok? <==> playerId == 1 || playerId == 2
      ensures playerId == 1 ==> r == Ok(player1Input)
      ensures playerId == 2 ==> r == Ok(player2Input)
    {
      if playerId == 1 then Ok(player1Input)
      else if playerId == 2 then Ok(player2Input)
      else Err(InvalidPlayerId)
    }

    function GetPlayerIdFromJoystick(instanceId: int): (r: Option<int>)
      reads this
      ensures r.None? || r.value == 1 || r.value == 2
      ensures r == Some(1) <==> player1JoyId == Some(instanceId)
      ensures r == Some(2) <==> player1JoyId != Some(instanceId) && player2JoyId == Some(instanceId)
    {
      if player1JoyId == Some(instanceId) then Some(1)
      else if player2JoyId == Some(instanceId) then Some(2)
      else None
    }

    /** The simplified motion check: `down` within 4 frames and the forward (or back) key
        within 2; an unknown pattern is never recognised. */
    method DetectSpecialMove(playerId: int, pattern: MovePattern) returns (r: Result<bool>)
      ensures r.Err? <==> playerId != 1 && playerId != 2
      ensures r.Ok? && r.value ==> !pattern.OtherPattern?
      ensures r.Ok? && pattern.QuarterCircleForward? ==>
                r.value == (PressedWithin(PadOf(playerId).buffer, Crouch, 4) && PressedWithin(PadOf(playerId).buffer, MoveRight, 2))
      ensures r.Ok? && pattern.QuarterCircleBack? ==>
                r.value == (PressedWithin(PadOf(playerId).buffer, Crouch, 4) && PressedWithin(PadOf(playerId).buffer, MoveLeft, 2))
    {
      var input :- GetPlayerInput(playerId);
      if pattern.QuarterCircleForward? || pattern.QuarterCircleBack? {
        var down := input.WasPressedInBuffer(Crouch, Some(4));
        WindowClamp(input.buffer, Crouch, 4);
        var sideKey := if pattern.QuarterCircleForward? then MoveRight else MoveLeft;
        var side := input.WasPressedInBuffer(sideKey, Some(2));
        WindowClamp(input.buffer, sideKey, 2);
        return Ok(down && side);
      }
      return Ok(false);
    }

    function PadOf(playerId: int): Pad
      reads this, player1Input, player2Input
    {
      if playerId == 1 then player1Input.View() else player2Input.View()
    }
  }

  /** Index `i` is among the newest `k` frames of the buffer. */
  predicate InWindow(buffer: seq<Buttons>, k: nat, i: int)
  {
    |buffer| - k <= i < |buffer| && 0 <= i
  }

  /** The action is held in one of the newest `k` frames. */
  predicate PressedWithin(buffer: seq<Buttons>, a: Action, k: nat)
  {
    exists i :: 0 <= i < |buffer| && InWindow(buffer, k, i) && Held(buffer[i], a)
  }

  /** Asking for more frames than the buffer holds looks at the whole buffer. */
  lemma WindowClamp(buffer: seq<Buttons>, a: Action, k: nat)
    ensures PressedWithin(buffer, a, Window(Some(k), |buffer|)) == PressedWithin(buffer, a, k)
  {
    var w := Window(Some(k), |buffer|);
    forall i ensures InWindow(buffer, w, i) <==> InWindow(buffer, k, i) {
    }
  }
}
