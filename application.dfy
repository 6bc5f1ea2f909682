/** The small decisions of the application: the window mode read from the
    configuration file, the `--gpu` index check, and the keyboard and mouse
    callbacks that forward only in-range PRESS and RELEASE events. */
module Application {
  import opened Wrappers

  // ---------------------------------------------------------------- window mode

  datatype WindowMode = Windowed | WindowedFullscreen | Fullscreen

  /** The window mode for the configuration's `application.window.mode`
      string; an unknown string is reported and falls back to windowed. */
  function WindowModeFor(mode: string): (m: WindowMode)
    ensures m == WindowedFullscreen <==> mode == "windowed_fullscreen"
    ensures m == Fullscreen <==> mode == "fullscreen"
    ensures m == Windowed <==> mode != "windowed_fullscreen" && mode != "fullscreen"
  {
    if mode == "windowed" then Windowed
    else if mode == "windowed_fullscreen" then WindowedFullscreen
    else if mode == "fullscreen" then Fullscreen
    else Windowed
  }

  // ---------------------------------------------------------------- GPU choice

  /** Which physical device is used: the one the user named with `--gpu`,
      or the one the device wrapper rates best. */
  datatype DeviceChoice = Preferred(index: nat) | PickBest

  /** A `--gpu` index at or past the number of physical devices is an
      error ("Invalid GPU index"); otherwise the named device is used, and
      without `--gpu` the best-rated one. */
  function ChoosePhysicalDevice(preferred: Option<nat>, deviceCount: nat): (r: Result<DeviceChoice, string>)
    ensures r.Failure? <==> preferred.Some? && preferred.value >= deviceCount
    ensures r.Failure? ==> r.error == "Invalid GPU index"
    ensures r.Success? && preferred.Some? ==> r.value == Preferred(preferred.value) && preferred.value < deviceCount
    ensures r.Success? && preferred.None? ==> r.value == PickBest
  {
    if preferred.Some? && preferred.value >= deviceCount then Failure("Invalid GPU index")
    else if preferred.Some? then Success(Preferred(preferred.value))
    else Success(PickBest)
  }

  // ---------------------------------------------------------------- input callbacks

  /** `GLFW_KEY_LAST` (`GLFW_KEY_MENU`) and `GLFW_MOUSE_BUTTON_LAST`
      (`GLFW_MOUSE_BUTTON_8`). */
  const KeyLast: int := 348
  const MouseButtonLast: int := 7

  /** `GLFW_RELEASE`, `GLFW_PRESS`; `GLFW_REPEAT` is 2. */
  const Release: int := 0
  const Press: int := 1

  /** A call into the keyboard and mouse input data. */
  datatype InputEvent = PressKey(key: nat) | ReleaseKey(key: nat)
                      | PressMouseButton(button: nat) | ReleaseMouseButton(button: nat)

  /** The call `key_callback` makes for a key and an action, if any. */
  function KeyEvent(key: int, action: int): (e: Option<InputEvent>)
    ensures e.Some? <==> 0 <= key <= KeyLast && (action == Press || action == Release)
    ensures e.Some? ==> e.value == (if action == Press then PressKey(key) else ReleaseKey(key))
  {
    if key < 0 || key > KeyLast then None
    else if action == Press then Some(PressKey(key))
    else if action == Release then Some(ReleaseKey(key))
    else None
  }

  /** The call `mouse_button_callback` makes for a button and an action, if any. */
  function MouseButtonEvent(button: int, action: int): (e: Option<InputEvent>)
    ensures e.Some? <==> 0 <= button <= MouseButtonLast && (action == Press || action == Release)
    ensures e.Some? ==> e.value == (if action == Press then PressMouseButton(button) else ReleaseMouseButton(button))
  {
    if button < 0 || button > MouseButtonLast then None
    else if action == Press then Some(PressMouseButton(button))
    else if action == Release then Some(ReleaseMouseButton(button))
    else None
  }

  function EventList(e: Option<InputEvent>): seq<InputEvent> {
    if e.Some? then [e.value] else []
  }

  /** The application's view of the input: the calls it has made into the
      keyboard and mouse input data, whose own bookkeeping is not part of
      this model. */
  class InputForwarder {
    var events: seq<InputEvent>

    constructor()
      ensures events == []
    {
      events := [];
    }

    /** key_callback: an out-of-range key is ignored; PRESS and RELEASE are
        forwarded and every other action (REPEAT) is dropped. */
    method KeyCallback(key: int, action: int)
      modifies this
      ensures events == old(events) + EventList(KeyEvent(key, action))
    {
      if key < 0 || key > KeyLast {
        return;
      }
      if action == Press {
        events := events + [PressKey(key)];
      } else if action == Release {
        events := events + [ReleaseKey(key)];
      }
    }

    /** mouse_button_callback, with the same rule for buttons. */
    method MouseButtonCallback(button: int, action: int)
      modifies this
      ensures events == old(events) + EventList(MouseButtonEvent(button, action))
    {
      if button < 0 || button > MouseButtonLast {
        return;
      }
      if action == Press {
        events := events + [PressMouseButton(button)];
      } else if action == Release {
        events := events + [ReleaseMouseButton(button)];
      }
    }
  }
}
