/**
 * `parse_code`: the lookup from a DOM `KeyboardEvent.code` value (the key
 * code values of the W3C UI Events specification) to the engine's `Key`.
 * Every code outside the table is `Key.Unknown`.
 *
 * The `Key` type and its parts are declared in a file that is not part of
 * this model; the datatypes below hold exactly the variants the lookup
 * produces.
 */
module Keyboard {

  datatype Number = Zero | One | Two | Three | Four | Five | Six | Seven | Eight | Nine

  datatype Alpha = A | B | C | D | E | F | G | H | I | J | K | L | M | N | O | P | Q | R | S | T | U | V | W | X | Y | Z

  datatype Function =
    F1 | F2 | F3 | F4 | F5 | F6 | F7 | F8 | F9 | F10 | F11 | F12
    | F13 | F14 | F15 | F16 | F17 | F18 | F19 | F20 | F21 | F22 | F23 | F24

  datatype Location = Left | Right

  datatype Arrow = Up | Down | Left | Right

  datatype Numpad = Number(number: Number) | Multiply | Add | Decimal | Equal | Enter

  datatype Key =
    | Escape | Number(number: Number) | Dash | Equal | Backspace | Tab | Alpha(alpha: Alpha)
    | OpenBracket | CloseBracket | Enter | Control(location: Location) | Semicolon | Quote
    | Backtick | Shift(location: Location) | Comma | Period | Slash | Numpad(numpad: Numpad)
    | Alt(location: Location) | Meta(location: Location) | Space | CapsLock | Function(fn: Function)
    | Pause | ScrollLock | PrintScreen | NumLock | Home | Insert | PageUp | PageDown
    | Arrow(arrow: Arrow) | End | Delete | ContextMenu | Backslash | Unknown

  /**
   * The key a `KeyboardEvent.code` value stands for; `Unknown` for every code
   * outside the table. The arms are tried in order; this function holds the
   * first fifteen and hands every other code to the next group.
   */
  function ParseCode(code: string): Key
  {
    match code
    case "Escape" => Key.Escape
    case "Digit0" => Key.Number(Number.Zero)
    case "Digit1" => Key.Number(Number.One)
    case "Digit2" => Key.Number(Number.Two)
    case "Digit3" => Key.Number(Number.Three)
    case "Digit4" => Key.Number(Number.Four)
    case "Digit5" => Key.Number(Number.Five)
    case "Digit6" => Key.Number(Number.Six)
    case "Digit7" => Key.Number(Number.Seven)
    case "Digit8" => Key.Number(Number.Eight)
    case "Digit9" => Key.Number(Number.Nine)
    case "Minus" => Key.Dash
    case "Equal" => Key.Equal
    case "Backspace" => Key.Backspace
    case "Tab" => Key.Tab
    case _ => ParseLetterCode(code)
  }

  /** The letter keys, row by row; other codes go on to the next group. */
  function ParseLetterCode(code: string): Key
  {
    match code
    case "KeyQ" => Key.Alpha(Alpha.Q)
    case "KeyW" => Key.Alpha(Alpha.W)
    case "KeyE" => Key.Alpha(Alpha.E)
    case "KeyR" => Key.Alpha(Alpha.R)
    case "KeyT" => Key.Alpha(Alpha.T)
    case "KeyY" => Key.Alpha(Alpha.Y)
    case "KeyU" => Key.Alpha(Alpha.U)
    case "KeyI" => Key.Alpha(Alpha.I)
    case "KeyO" => Key.Alpha(Alpha.O)
    case "KeyP" => Key.Alpha(Alpha.P)
    case "KeyA" => Key.Alpha(Alpha.A)
    case "KeyS" => Key.Alpha(Alpha.S)
    case "KeyD" => Key.Alpha(Alpha.D)
    case "KeyF" => Key.Alpha(Alpha.F)
    case "KeyG" => Key.Alpha(Alpha.G)
    case "KeyH" => Key.Alpha(Alpha.H)
    case "KeyJ" => Key.Alpha(Alpha.J)
    case "KeyK" => Key.Alpha(Alpha.K)
    case "KeyL" => Key.Alpha(Alpha.L)
    case "KeyZ" => Key.Alpha(Alpha.Z)
    case "KeyX" => Key.Alpha(Alpha.X)
    case "KeyC" => Key.Alpha(Alpha.C)
    case "KeyV" => Key.Alpha(Alpha.V)
    case "KeyB" => Key.Alpha(Alpha.B)
    case "KeyN" => Key.Alpha(Alpha.N)
    case "KeyM" => Key.Alpha(Alpha.M)
    case _ => ParseModifierCode(code)
  }

  /** Punctuation, the modifiers and the space bar; other codes go on to the next group. */
  function ParseModifierCode(code: string): Key
  {
    match code
    case "BracketLeft" => Key.OpenBracket
    case "BracketRight" => Key.CloseBracket
    case "Enter" => Key.Enter
    case "ControlLeft" => Key.Control(Location.Left)
    case "ControlRight" => Key.Control(Location.Right)
    case "Semicolon" => Key.Semicolon
    case "Quote" => Key.Quote
    case "Backquote" => Key.Backtick
    case "ShiftLeft" => Key.Shift(Location.Left)
    case "ShiftRight" => Key.Shift(Location.Right)
    case "Comma" => Key.Comma
    case "Period" => Key.Period
    case "Slash" => Key.Slash
    case "NumpadMultiply" => Key.Numpad(Numpad.Multiply)
    case "AltLeft" => Key.Alt(Location.Left)
    case "AltRight" => Key.Alt(Location.Right)
    case "MetaLeft" => Key.Meta(Location.Left)
    case "MetaRight" => Key.Meta(Location.Right)
    case "Space" => Key.Space
    case "CapsLock" => Key.CapsLock
    case _ => ParseFunctionCode(code)
  }

  /** `F1`..`F24`; other codes go on to the next group. */
  function ParseFunctionCode(code: string): Key
  {
    match code
    case "F1" => Key.Function(Function.F1)
    case "F2" => Key.Function(Function.F2)
    case "F3" => Key.Function(Function.F3)
    case "F4" => Key.Function(Function.F4)
    case "F5" => Key.Function(Function.F5)
    case "F6" => Key.Function(Function.F6)
    case "F7" => Key.Function(Function.F7)
    case "F8" => Key.Function(Function.F8)
    case "F9" => Key.Function(Function.F9)
    case "F10" => Key.Function(Function.F10)
    case "F11" => Key.Function(Function.F11)
    case "F12" => Key.Function(Function.F12)
    case "F13" => Key.Function(Function.F13)
    case "F14" => Key.Function(Function.F14)
    case "F15" => Key.Function(Function.F15)
    case "F16" => Key.Function(Function.F16)
    case "F17" => Key.Function(Function.F17)
    case "F18" => Key.Function(Function.F18)
    case "F19" => Key.Function(Function.F19)
    case "F20" => Key.Function(Function.F20)
    case "F21" => Key.Function(Function.F21)
    case "F22" => Key.Function(Function.F22)
    case "F23" => Key.Function(Function.F23)
    case "F24" => Key.Function(Function.F24)
    case _ => ParseKeypadCode(code)
  }

  /** The keypad and the lock keys; other codes go on to the next group. */
  function ParseKeypadCode(code: string): Key
  {
    match code
    case "Pause" => Key.Pause
    case "ScrollLock" => Key.ScrollLock
    case "Numpad0" => Key.Numpad(Numpad.Number(Number.Zero))
    case "Numpad1" => Key.Numpad(Numpad.Number(Number.One))
    case "Numpad2" => Key.Numpad(Numpad.Number(Number.Two))
    case "Numpad3" => Key.Numpad(Numpad.Number(Number.Three))
    case "Numpad4" => Key.Numpad(Numpad.Number(Number.Four))
    case "Numpad5" => Key.Numpad(Numpad.Number(Number.Five))
    case "Numpad6" => Key.Numpad(Numpad.Number(Number.Six))
    case "Numpad7" => Key.Numpad(Numpad.Number(Number.Seven))
    case "Numpad8" => Key.Numpad(Numpad.Number(Number.Eight))
    case "Numpad9" => Key.Numpad(Numpad.Number(Number.Nine))
    case "NumpadAdd" => Key.Numpad(Numpad.Add)
    case "NumpadDecimal" => Key.Numpad(Numpad.Decimal)
    case "PrintScreen" => Key.PrintScreen
    case "NumpadEqual" => Key.Numpad(Numpad.Equal)
    case "NumpadEnter" => Key.Numpad(Numpad.Enter)
    case "NumLock" => Key.NumLock
    case _ => ParseNavigationCode(code)
  }

  /** The navigation keys; every code left over is `Unknown`. */
  function ParseNavigationCode(code: string): Key
  {
    match code
    case "Home" => Key.Home
    case "Insert" => Key.Insert
    case "PageUp" => Key.PageUp
    case "PageDown" => Key.PageDown
    case "ArrowUp" => Key.Arrow(Arrow.Up)
    case "ArrowDown" => Key.Arrow(Arrow.Down)
    case "ArrowLeft" => Key.Arrow(Arrow.Left)
    case "ArrowRight" => Key.Arrow(Arrow.Right)
    case "End" => Key.End
    case "Delete" => Key.Delete
    case "ContextMenu" => Key.ContextMenu
    case "Backslash" => Key.Backslash
    case _ => Key.Unknown
  }

  /** The codes each group of arms recognises, in table order. */
  const TOP_ROW_CODES: seq<string> := ["Escape", "Digit0", "Digit1", "Digit2", "Digit3", "Digit4", "Digit5", "Digit6", "Digit7", "Digit8", "Digit9", "Minus", "Equal", "Backspace", "Tab"]
  const LETTER_CODES: seq<string> := ["KeyQ", "KeyW", "KeyE", "KeyR", "KeyT", "KeyY", "KeyU", "KeyI", "KeyO", "KeyP", "KeyA", "KeyS", "KeyD", "KeyF", "KeyG", "KeyH", "KeyJ", "KeyK", "KeyL", "KeyZ", "KeyX", "KeyC", "KeyV", "KeyB", "KeyN", "KeyM"]
  const MIDDLE_CODES: seq<string> := ["BracketLeft", "BracketRight", "Enter", "ControlLeft", "ControlRight", "Semicolon", "Quote", "Backquote", "ShiftLeft", "ShiftRight", "Comma", "Period", "Slash", "NumpadMultiply", "AltLeft", "AltRight", "MetaLeft", "MetaRight", "Space", "CapsLock"]
  const FUNCTION_CODES: seq<string> := ["F1", "F2", "F3", "F4", "F5", "F6", "F7", "F8", "F9", "F10", "F11", "F12", "F13", "F14", "F15", "F16", "F17", "F18", "F19", "F20", "F21", "F22", "F23", "F24"]
  const KEYPAD_CODES: seq<string> := ["Pause", "ScrollLock", "Numpad0", "Numpad1", "Numpad2", "Numpad3", "Numpad4", "Numpad5", "Numpad6", "Numpad7", "Numpad8", "Numpad9", "NumpadAdd", "NumpadDecimal", "PrintScreen", "NumpadEqual", "NumpadEnter", "NumLock"]
  const NAVIGATION_CODES: seq<string> := ["Home", "Insert", "PageUp", "PageDown", "ArrowUp", "ArrowDown", "ArrowLeft", "ArrowRight", "End", "Delete", "ContextMenu", "Backslash"]

  /** Every code the table recognises. */
  const CODES: seq<string> := TOP_ROW_CODES + LETTER_CODES + MIDDLE_CODES + FUNCTION_CODES + KEYPAD_CODES + NAVIGATION_CODES

  /** A code `ParseLetterCode` does not send to `Unknown` is one of its own arms or of a later group. */
  lemma {:induction false} ParseLetterCodeKnown(code: string)
    ensures ParseLetterCode(code) != Key.Unknown ==> code in LETTER_CODES + MIDDLE_CODES + FUNCTION_CODES + KEYPAD_CODES + NAVIGATION_CODES
  {
    ParseModifierCodeKnown(code);
  }

  /** A code `ParseModifierCode` does not send to `Unknown` is one of its own arms or of a later group. */
  lemma {:induction false} ParseModifierCodeKnown(code: string)
    ensures ParseModifierCode(code) != Key.Unknown ==> code in MIDDLE_CODES + FUNCTION_CODES + KEYPAD_CODES + NAVIGATION_CODES
  {
    ParseFunctionCodeKnown(code);
  }

  /** A code `ParseFunctionCode` does not send to `Unknown` is one of its own arms or of a later group. */
  lemma {:induction false} ParseFunctionCodeKnown(code: string)
    ensures ParseFunctionCode(code) != Key.Unknown ==> code in FUNCTION_CODES + KEYPAD_CODES + NAVIGATION_CODES
  {
    ParseKeypadCodeKnown(code);
  }

  /** A code `ParseKeypadCode` does not send to `Unknown` is one of its own arms or of a later group. */
  lemma {:induction false} ParseKeypadCodeKnown(code: string)
    ensures ParseKeypadCode(code) != Key.Unknown ==> code in KEYPAD_CODES + NAVIGATION_CODES
  {
    ParseNavigationCodeKnown(code);
  }

  /** A code `ParseNavigationCode` does not send to `Unknown` is one of its own arms or of a later group. */
  lemma {:induction false} ParseNavigationCodeKnown(code: string)
    ensures ParseNavigationCode(code) != Key.Unknown ==> code in NAVIGATION_CODES
  {
  }

  /**
   * The default arm: every code outside the table is `Unknown`. (The
   * lemmas below give the key of each code in the table, none of which is
   * `Unknown`.)
   */
  lemma UnknownOutsideTable(code: string)
    ensures code !in CODES ==> ParseCode(code) == Key.Unknown
  {
    ParseLetterCodeKnown(code);
  }

  lemma DigitRowPart1()
    ensures ParseCode("Digit0") == Key.Number(Number.Zero)
    ensures ParseCode("Digit1") == Key.Number(Number.One)
    ensures ParseCode("Digit2") == Key.Number(Number.Two)
    ensures ParseCode("Digit3") == Key.Number(Number.Three)
    ensures ParseCode("Digit4") == Key.Number(Number.Four)
    ensures ParseCode("Digit5") == Key.Number(Number.Five)
  {
  }

  lemma DigitRowPart2()
    ensures ParseCode("Digit6") == Key.Number(Number.Six)
    ensures ParseCode("Digit7") == Key.Number(Number.Seven)
    ensures ParseCode("Digit8") == Key.Number(Number.Eight)
    ensures ParseCode("Digit9") == Key.Number(Number.Nine)
  {
  }

  /** `Digit0`..`Digit9` map to `Number.Zero`..`Number.Nine`, in order. */
  lemma DigitRow()
    ensures ParseCode("Digit0") == Key.Number(Number.Zero)
    ensures ParseCode("Digit1") == Key.Number(Number.One)
    ensures ParseCode("Digit2") == Key.Number(Number.Two)
    ensures ParseCode("Digit3") == Key.Number(Number.Three)
    ensures ParseCode("Digit4") == Key.Number(Number.Four)
    ensures ParseCode("Digit5") == Key.Number(Number.Five)
    ensures ParseCode("Digit6") == Key.Number(Number.Six)
    ensures ParseCode("Digit7") == Key.Number(Number.Seven)
    ensures ParseCode("Digit8") == Key.Number(Number.Eight)
    ensures ParseCode("Digit9") == Key.Number(Number.Nine)
  {
    DigitRowPart1();
    DigitRowPart2();
  }

  lemma LetterKeysPart1()
    ensures ParseCode("KeyQ") == Key.Alpha(Alpha.Q)
    ensures ParseCode("KeyW") == Key.Alpha(Alpha.W)
    ensures ParseCode("KeyE") == Key.Alpha(Alpha.E)
    ensures ParseCode("KeyR") == Key.Alpha(Alpha.R)
    ensures ParseCode("KeyT") == Key.Alpha(Alpha.T)
    ensures ParseCode("KeyY") == Key.Alpha(Alpha.Y)
  {
  }

  lemma LetterKeysPart2()
    ensures ParseCode("KeyU") == Key.Alpha(Alpha.U)
    ensures ParseCode("KeyI") == Key.Alpha(Alpha.I)
    ensures ParseCode("KeyO") == Key.Alpha(Alpha.O)
    ensures ParseCode("KeyP") == Key.Alpha(Alpha.P)
    ensures ParseCode("KeyA") == Key.Alpha(Alpha.A)
    ensures ParseCode("KeyS") == Key.Alpha(Alpha.S)
  {
  }

  lemma LetterKeysPart3()
    ensures ParseCode("KeyD") == Key.Alpha(Alpha.D)
    ensures ParseCode("KeyF") == Key.Alpha(Alpha.F)
    ensures ParseCode("KeyG") == Key.Alpha(Alpha.G)
    ensures ParseCode("KeyH") == Key.Alpha(Alpha.H)
    ensures ParseCode("KeyJ") == Key.Alpha(Alpha.J)
    ensures ParseCode("KeyK") == Key.Alpha(Alpha.K)
  {
  }

  lemma LetterKeysPart4()
    ensures ParseCode("KeyL") == Key.Alpha(Alpha.L)
    ensures ParseCode("KeyZ") == Key.Alpha(Alpha.Z)
    ensures ParseCode("KeyX") == Key.Alpha(Alpha.X)
    ensures ParseCode("KeyC") == Key.Alpha(Alpha.C)
    ensures ParseCode("KeyV") == Key.Alpha(Alpha.V)
    ensures ParseCode("KeyB") == Key.Alpha(Alpha.B)
  {
  }

  lemma LetterKeysPart5()
    ensures ParseCode("KeyN") == Key.Alpha(Alpha.N)
    ensures ParseCode("KeyM") == Key.Alpha(Alpha.M)
  {
  }

  /** Each letter code `KeyX` maps to `Alpha.X`, for all 26 letters. */
  lemma LetterKeys()
    ensures ParseCode("KeyQ") == Key.Alpha(Alpha.Q)
    ensures ParseCode("KeyW") == Key.Alpha(Alpha.W)
    ensures ParseCode("KeyE") == Key.Alpha(Alpha.E)
    ensures ParseCode("KeyR") == Key.Alpha(Alpha.R)
    ensures ParseCode("KeyT") == Key.Alpha(Alpha.T)
    ensures ParseCode("KeyY") == Key.Alpha(Alpha.Y)
    ensures ParseCode("KeyU") == Key.Alpha(Alpha.U)
    ensures ParseCode("KeyI") == Key.Alpha(Alpha.I)
    ensures ParseCode("KeyO") == Key.Alpha(Alpha.O)
    ensures ParseCode("KeyP") == Key.Alpha(Alpha.P)
    ensures ParseCode("KeyA") == Key.Alpha(Alpha.A)
    ensures ParseCode("KeyS") == Key.Alpha(Alpha.S)
    ensures ParseCode("KeyD") == Key.Alpha(Alpha.D)
    ensures ParseCode("KeyF") == Key.Alpha(Alpha.F)
    ensures ParseCode("KeyG") == Key.Alpha(Alpha.G)
    ensures ParseCode("KeyH") == Key.Alpha(Alpha.H)
    ensures ParseCode("KeyJ") == Key.Alpha(Alpha.J)
    ensures ParseCode("KeyK") == Key.Alpha(Alpha.K)
    ensures ParseCode("KeyL") == Key.Alpha(Alpha.L)
    ensures ParseCode("KeyZ") == Key.Alpha(Alpha.Z)
    ensures ParseCode("KeyX") == Key.Alpha(Alpha.X)
    ensures ParseCode("KeyC") == Key.Alpha(Alpha.C)
    ensures ParseCode("KeyV") == Key.Alpha(Alpha.V)
    ensures ParseCode("KeyB") == Key.Alpha(Alpha.B)
    ensures ParseCode("KeyN") == Key.Alpha(Alpha.N)
    ensures ParseCode("KeyM") == Key.Alpha(Alpha.M)
  {
    LetterKeysPart1();
    LetterKeysPart2();
    LetterKeysPart3();
    LetterKeysPart4();
    LetterKeysPart5();
  }

  lemma ModifierSidesPart1()
    ensures ParseCode("ControlLeft") == Key.Control(Location.Left)
    ensures ParseCode("ControlRight") == Key.Control(Location.Right)
    ensures ParseCode("ShiftLeft") == Key.Shift(Location.Left)
  {
  }

  lemma ModifierSidesPart2()
    ensures ParseCode("ShiftRight") == Key.Shift(Location.Right)
    ensures ParseCode("AltLeft") == Key.Alt(Location.Left)
    ensures ParseCode("AltRight") == Key.Alt(Location.Right)
  {
  }

  lemma ModifierSidesPart3()
    ensures ParseCode("MetaLeft") == Key.Meta(Location.Left)
    ensures ParseCode("MetaRight") == Key.Meta(Location.Right)
  {
  }

  /** The `Left`/`Right` suffix of `Control`, `Shift`, `Alt` and `Meta` selects `Location.Left`/`Location.Right`. */
  lemma ModifierSides()
    ensures ParseCode("ControlLeft") == Key.Control(Location.Left)
    ensures ParseCode("ControlRight") == Key.Control(Location.Right)
    ensures ParseCode("ShiftLeft") == Key.Shift(Location.Left)
    ensures ParseCode("ShiftRight") == Key.Shift(Location.Right)
    ensures ParseCode("AltLeft") == Key.Alt(Location.Left)
    ensures ParseCode("AltRight") == Key.Alt(Location.Right)
    ensures ParseCode("MetaLeft") == Key.Meta(Location.Left)
    ensures ParseCode("MetaRight") == Key.Meta(Location.Right)
  {
    ModifierSidesPart1();
    ModifierSidesPart2();
    ModifierSidesPart3();
  }

  lemma FunctionKeysPart1()
    ensures ParseCode("F1") == Key.Function(Function.F1)
    ensures ParseCode("F2") == Key.Function(Function.F2)
    ensures ParseCode("F3") == Key.Function(Function.F3)
  {
  }

  lemma FunctionKeysPart2()
    ensures ParseCode("F4") == Key.Function(Function.F4)
    ensures ParseCode("F5") == Key.Function(Function.F5)
    ensures ParseCode("F6") == Key.Function(Function.F6)
  {
  }

  lemma FunctionKeysPart3()
    ensures ParseCode("F7") == Key.Function(Function.F7)
    ensures ParseCode("F8") == Key.Function(Function.F8)
    ensures ParseCode("F9") == Key.Function(Function.F9)
  {
  }

  lemma FunctionKeysPart4()
    ensures ParseCode("F10") == Key.Function(Function.F10)
    ensures ParseCode("F11") == Key.Function(Function.F11)
    ensures ParseCode("F12") == Key.Function(Function.F12)
  {
  }

  lemma FunctionKeysPart5()
    ensures ParseCode("F13") == Key.Function(Function.F13)
    ensures ParseCode("F14") == Key.Function(Function.F14)
    ensures ParseCode("F15") == Key.Function(Function.F15)
  {
  }

  lemma FunctionKeysPart6()
    ensures ParseCode("F16") == Key.Function(Function.F16)
    ensures ParseCode("F17") == Key.Function(Function.F17)
    ensures ParseCode("F18") == Key.Function(Function.F18)
  {
  }

  lemma FunctionKeysPart7()
    ensures ParseCode("F19") == Key.Function(Function.F19)
    ensures ParseCode("F20") == Key.Function(Function.F20)
    ensures ParseCode("F21") == Key.Function(Function.F21)
  {
  }

  lemma FunctionKeysPart8()
    ensures ParseCode("F22") == Key.Function(Function.F22)
    ensures ParseCode("F23") == Key.Function(Function.F23)
    ensures ParseCode("F24") == Key.Function(Function.F24)
  {
  }

  /** `F1`..`F24` map to `Function.F1`..`Function.F24`. */
  lemma FunctionKeys()
    ensures ParseCode("F1") == Key.Function(Function.F1)
    ensures ParseCode("F2") == Key.Function(Function.F2)
    ensures ParseCode("F3") == Key.Function(Function.F3)
    ensures ParseCode("F4") == Key.Function(Function.F4)
    ensures ParseCode("F5") == Key.Function(Function.F5)
    ensures ParseCode("F6") == Key.Function(Function.F6)
    ensures ParseCode("F7") == Key.Function(Function.F7)
    ensures ParseCode("F8") == Key.Function(Function.F8)
    ensures ParseCode("F9") == Key.Function(Function.F9)
    ensures ParseCode("F10") == Key.Function(Function.F10)
    ensures ParseCode("F11") == Key.Function(Function.F11)
    ensures ParseCode("F12") == Key.Function(Function.F12)
    ensures ParseCode("F13") == Key.Function(Function.F13)
    ensures ParseCode("F14") == Key.Function(Function.F14)
    ensures ParseCode("F15") == Key.Function(Function.F15)
    ensures ParseCode("F16") == Key.Function(Function.F16)
    ensures ParseCode("F17") == Key.Function(Function.F17)
    ensures ParseCode("F18") == Key.Function(Function.F18)
    ensures ParseCode("F19") == Key.Function(Function.F19)
    ensures ParseCode("F20") == Key.Function(Function.F20)
    ensures ParseCode("F21") == Key.Function(Function.F21)
    ensures ParseCode("F22") == Key.Function(Function.F22)
    ensures ParseCode("F23") == Key.Function(Function.F23)
    ensures ParseCode("F24") == Key.Function(Function.F24)
  {
    FunctionKeysPart1();
    FunctionKeysPart2();
    FunctionKeysPart3();
    FunctionKeysPart4();
    FunctionKeysPart5();
    FunctionKeysPart6();
    FunctionKeysPart7();
    FunctionKeysPart8();
  }

  lemma NumpadDigitsPart1()
    ensures ParseCode("Numpad0") == Key.Numpad(Numpad.Number(Number.Zero))
    ensures ParseCode("Numpad1") == Key.Numpad(Numpad.Number(Number.One))
  {
  }

  lemma NumpadDigitsPart2()
    ensures ParseCode("Numpad2") == Key.Numpad(Numpad.Number(Number.Two))
    ensures ParseCode("Numpad3") == Key.Numpad(Numpad.Number(Number.Three))
  {
  }

  lemma NumpadDigitsPart3()
    ensures ParseCode("Numpad4") == Key.Numpad(Numpad.Number(Number.Four))
    ensures ParseCode("Numpad5") == Key.Numpad(Numpad.Number(Number.Five))
  {
  }

  lemma NumpadDigitsPart4()
    ensures ParseCode("Numpad6") == Key.Numpad(Numpad.Number(Number.Six))
    ensures ParseCode("Numpad7") == Key.Numpad(Numpad.Number(Number.Seven))
  {
  }

  lemma NumpadDigitsPart5()
    ensures ParseCode("Numpad8") == Key.Numpad(Numpad.Number(Number.Eight))
    ensures ParseCode("Numpad9") == Key.Numpad(Numpad.Number(Number.Nine))
  {
  }

  /** `Numpad0`..`Numpad9` map to `Numpad.Number(Zero)`..`Numpad.Number(Nine)`, keys apart from those of the digit row. */
  lemma NumpadDigits()
    ensures ParseCode("Numpad0") == Key.Numpad(Numpad.Number(Number.Zero))
    ensures ParseCode("Numpad1") == Key.Numpad(Numpad.Number(Number.One))
    ensures ParseCode("Numpad2") == Key.Numpad(Numpad.Number(Number.Two))
    ensures ParseCode("Numpad3") == Key.Numpad(Numpad.Number(Number.Three))
    ensures ParseCode("Numpad4") == Key.Numpad(Numpad.Number(Number.Four))
    ensures ParseCode("Numpad5") == Key.Numpad(Numpad.Number(Number.Five))
    ensures ParseCode("Numpad6") == Key.Numpad(Numpad.Number(Number.Six))
    ensures ParseCode("Numpad7") == Key.Numpad(Numpad.Number(Number.Seven))
    ensures ParseCode("Numpad8") == Key.Numpad(Numpad.Number(Number.Eight))
    ensures ParseCode("Numpad9") == Key.Numpad(Numpad.Number(Number.Nine))
  {
    NumpadDigitsPart1();
    NumpadDigitsPart2();
    NumpadDigitsPart3();
    NumpadDigitsPart4();
    NumpadDigitsPart5();
  }

  lemma NumpadOperatorsPart1()
    ensures ParseCode("NumpadMultiply") == Key.Numpad(Numpad.Multiply)
  {
  }

  lemma NumpadOperatorsPart2()
    ensures ParseCode("NumpadAdd") == Key.Numpad(Numpad.Add)
    ensures ParseCode("NumpadDecimal") == Key.Numpad(Numpad.Decimal)
  {
  }

  lemma NumpadOperatorsPart3()
    ensures ParseCode("NumpadEqual") == Key.Numpad(Numpad.Equal)
    ensures ParseCode("NumpadEnter") == Key.Numpad(Numpad.Enter)
  {
  }

  /** The keypad operators and its Enter key are keys of their own, apart from `Equal`, `Enter` and the other main-block keys. */
  lemma NumpadOperators()
    ensures ParseCode("NumpadMultiply") == Key.Numpad(Numpad.Multiply)
    ensures ParseCode("NumpadAdd") == Key.Numpad(Numpad.Add)
    ensures ParseCode("NumpadDecimal") == Key.Numpad(Numpad.Decimal)
    ensures ParseCode("NumpadEqual") == Key.Numpad(Numpad.Equal)
    ensures ParseCode("NumpadEnter") == Key.Numpad(Numpad.Enter)
  {
    NumpadOperatorsPart1();
    NumpadOperatorsPart2();
    NumpadOperatorsPart3();
  }

  lemma ArrowKeysPart1()
    ensures ParseCode("ArrowUp") == Key.Arrow(Arrow.Up)
    ensures ParseCode("ArrowDown") == Key.Arrow(Arrow.Down)
  {
  }

  lemma ArrowKeysPart2()
    ensures ParseCode("ArrowLeft") == Key.Arrow(Arrow.Left)
    ensures ParseCode("ArrowRight") == Key.Arrow(Arrow.Right)
  {
  }

  /** The four arrow codes map to the four `Arrow` directions. */
  lemma ArrowKeys()
    ensures ParseCode("ArrowUp") == Key.Arrow(Arrow.Up)
    ensures ParseCode("ArrowDown") == Key.Arrow(Arrow.Down)
    ensures ParseCode("ArrowLeft") == Key.Arrow(Arrow.Left)
    ensures ParseCode("ArrowRight") == Key.Arrow(Arrow.Right)
  {
    ArrowKeysPart1();
    ArrowKeysPart2();
  }

  lemma PlainKeysPart1()
    ensures ParseCode("Escape") == Key.Escape
    ensures ParseCode("Minus") == Key.Dash
    ensures ParseCode("Equal") == Key.Equal
    ensures ParseCode("Backspace") == Key.Backspace
    ensures ParseCode("Tab") == Key.Tab
  {
  }

  lemma PlainKeysPart2()
    ensures ParseCode("BracketLeft") == Key.OpenBracket
    ensures ParseCode("BracketRight") == Key.CloseBracket
    ensures ParseCode("Enter") == Key.Enter
  {
  }

  lemma PlainKeysPart3()
    ensures ParseCode("Semicolon") == Key.Semicolon
    ensures ParseCode("Quote") == Key.Quote
    ensures ParseCode("Backquote") == Key.Backtick
  {
  }

  lemma PlainKeysPart4()
    ensures ParseCode("Comma") == Key.Comma
    ensures ParseCode("Period") == Key.Period
    ensures ParseCode("Slash") == Key.Slash
  {
  }

  lemma PlainKeysPart5()
    ensures ParseCode("Space") == Key.Space
    ensures ParseCode("CapsLock") == Key.CapsLock
  {
  }

  lemma PlainKeysPart6()
    ensures ParseCode("Pause") == Key.Pause
    ensures ParseCode("ScrollLock") == Key.ScrollLock
  {
  }

  lemma PlainKeysPart7()
    ensures ParseCode("PrintScreen") == Key.PrintScreen
    ensures ParseCode("NumLock") == Key.NumLock
  {
  }

  lemma PlainKeysPart8()
    ensures ParseCode("Home") == Key.Home
    ensures ParseCode("Insert") == Key.Insert
  {
  }

  lemma PlainKeysPart9()
    ensures ParseCode("PageUp") == Key.PageUp
    ensures ParseCode("PageDown") == Key.PageDown
  {
  }

  lemma PlainKeysPart10()
    ensures ParseCode("End") == Key.End
    ensures ParseCode("Delete") == Key.Delete
  {
  }

  lemma PlainKeysPart11()
    ensures ParseCode("ContextMenu") == Key.ContextMenu
    ensures ParseCode("Backslash") == Key.Backslash
  {
  }

  /** Every other code of the table maps to its own key without a parameter. */
  lemma PlainKeys()
    ensures ParseCode("Escape") == Key.Escape
    ensures ParseCode("Minus") == Key.Dash
    ensures ParseCode("Equal") == Key.Equal
    ensures ParseCode("Backspace") == Key.Backspace
    ensures ParseCode("Tab") == Key.Tab
    ensures ParseCode("BracketLeft") == Key.OpenBracket
    ensures ParseCode("BracketRight") == Key.CloseBracket
    ensures ParseCode("Enter") == Key.Enter
    ensures ParseCode("Semicolon") == Key.Semicolon
    ensures ParseCode("Quote") == Key.Quote
    ensures ParseCode("Backquote") == Key.Backtick
    ensures ParseCode("Comma") == Key.Comma
    ensures ParseCode("Period") == Key.Period
    ensures ParseCode("Slash") == Key.Slash
    ensures ParseCode("Space") == Key.Space
    ensures ParseCode("CapsLock") == Key.CapsLock
    ensures ParseCode("Pause") == Key.Pause
    ensures ParseCode("ScrollLock") == Key.ScrollLock
    ensures ParseCode("PrintScreen") == Key.PrintScreen
    ensures ParseCode("NumLock") == Key.NumLock
    ensures ParseCode("Home") == Key.Home
    ensures ParseCode("Insert") == Key.Insert
    ensures ParseCode("PageUp") == Key.PageUp
    ensures ParseCode("PageDown") == Key.PageDown
    ensures ParseCode("End") == Key.End
    ensures ParseCode("Delete") == Key.Delete
    ensures ParseCode("ContextMenu") == Key.ContextMenu
    ensures ParseCode("Backslash") == Key.Backslash
  {
    PlainKeysPart1();
    PlainKeysPart2();
    PlainKeysPart3();
    PlainKeysPart4();
    PlainKeysPart5();
    PlainKeysPart6();
    PlainKeysPart7();
    PlainKeysPart8();
    PlainKeysPart9();
    PlainKeysPart10();
    PlainKeysPart11();
  }

  // The converse of `UnknownOutsideTable`, group by group: no code of the
  // table is `Unknown`, since `CodeOf` (below) takes its key back to it.

  /** No code of the top-row group is `Unknown`. */
  lemma TopRowCodesKnown()
    ensures forall code :: code in TOP_ROW_CODES ==> ParseCode(code) != Key.Unknown
  {
    TopRowCodesInverse();
  }

  /** No code of the letter group is `Unknown`. */
  lemma LetterCodesKnown()
    ensures forall code :: code in LETTER_CODES ==> ParseCode(code) != Key.Unknown
  {
    LetterCodesInverse();
  }

  /** No code of the middle group is `Unknown`. */
  lemma MiddleCodesKnown()
    ensures forall code :: code in MIDDLE_CODES ==> ParseCode(code) != Key.Unknown
  {
    MiddleCodesInverse();
  }

  /** No code of the function group is `Unknown`. */
  lemma FunctionCodesKnown()
    ensures forall code :: code in FUNCTION_CODES ==> ParseCode(code) != Key.Unknown
  {
    FunctionCodesInverse();
  }

  /** No code of the keypad group is `Unknown`. */
  lemma KeypadCodesKnown()
    ensures forall code :: code in KEYPAD_CODES ==> ParseCode(code) != Key.Unknown
  {
    KeypadCodesInverse();
  }

  /** No code of the navigation group is `Unknown`. */
  lemma NavigationCodesKnown()
    ensures forall code :: code in NAVIGATION_CODES ==> ParseCode(code) != Key.Unknown
  {
    NavigationCodesInverse();
  }

  /**
   * The code each key comes from: the inverse of `ParseCode` on the table,
   * and the empty string for `Unknown`, which no table code gives.
   */
  function CodeOf(k: Key): string
  {
    match k
    case Escape => "Escape"
    case Number(n) =>
      match n {
        case Zero => "Digit0"
        case One => "Digit1"
        case Two => "Digit2"
        case Three => "Digit3"
        case Four => "Digit4"
        case Five => "Digit5"
        case Six => "Digit6"
        case Seven => "Digit7"
        case Eight => "Digit8"
        case Nine => "Digit9"
      }
    case Dash => "Minus"
    case Equal => "Equal"
    case Backspace => "Backspace"
    case Tab => "Tab"
    case Alpha(a) =>
      match a {
        case Q => "KeyQ"
        case W => "KeyW"
        case E => "KeyE"
        case R => "KeyR"
        case T => "KeyT"
        case Y => "KeyY"
        case U => "KeyU"
        case I => "KeyI"
        case O => "KeyO"
        case P => "KeyP"
        case A => "KeyA"
        case S => "KeyS"
        case D => "KeyD"
        case F => "KeyF"
        case G => "KeyG"
        case H => "KeyH"
        case J => "KeyJ"
        case K => "KeyK"
        case L => "KeyL"
        case Z => "KeyZ"
        case X => "KeyX"
        case C => "KeyC"
        case V => "KeyV"
        case B => "KeyB"
        case N => "KeyN"
        case M => "KeyM"
      }
    case OpenBracket => "BracketLeft"
    case CloseBracket => "BracketRight"
    case Enter => "Enter"
    case Control(l) =>
      match l {
        case Left => "ControlLeft"
        case Right => "ControlRight"
      }
    case Semicolon => "Semicolon"
    case Quote => "Quote"
    case Backtick => "Backquote"
    case Shift(l) =>
      match l {
        case Left => "ShiftLeft"
        case Right => "ShiftRight"
      }
    case Comma => "Comma"
    case Period => "Period"
    case Slash => "Slash"
    case Numpad(p) =>
      match p {
        case Multiply => "NumpadMultiply"
        case Number(n) =>
          match n {
            case Zero => "Numpad0"
            case One => "Numpad1"
            case Two => "Numpad2"
            case Three => "Numpad3"
            case Four => "Numpad4"
            case Five => "Numpad5"
            case Six => "Numpad6"
            case Seven => "Numpad7"
            case Eight => "Numpad8"
            case Nine => "Numpad9"
          }
        case Add => "NumpadAdd"
        case Decimal => "NumpadDecimal"
        case Equal => "NumpadEqual"
        case Enter => "NumpadEnter"
      }
    case Alt(l) =>
      match l {
        case Left => "AltLeft"
        case Right => "AltRight"
      }
    case Meta(l) =>
      match l {
        case Left => "MetaLeft"
        case Right => "MetaRight"
      }
    case Space => "Space"
    case CapsLock => "CapsLock"
    case Function(f) =>
      match f {
        case F1 => "F1"
        case F2 => "F2"
        case F3 => "F3"
        case F4 => "F4"
        case F5 => "F5"
        case F6 => "F6"
        case F7 => "F7"
        case F8 => "F8"
        case F9 => "F9"
        case F10 => "F10"
        case F11 => "F11"
        case F12 => "F12"
        case F13 => "F13"
        case F14 => "F14"
        case F15 => "F15"
        case F16 => "F16"
        case F17 => "F17"
        case F18 => "F18"
        case F19 => "F19"
        case F20 => "F20"
        case F21 => "F21"
        case F22 => "F22"
        case F23 => "F23"
        case F24 => "F24"
      }
    case Pause => "Pause"
    case ScrollLock => "ScrollLock"
    case PrintScreen => "PrintScreen"
    case NumLock => "NumLock"
    case Home => "Home"
    case Insert => "Insert"
    case PageUp => "PageUp"
    case PageDown => "PageDown"
    case Arrow(d) =>
      match d {
        case Up => "ArrowUp"
        case Down => "ArrowDown"
        case Left => "ArrowLeft"
        case Right => "ArrowRight"
      }
    case End => "End"
    case Delete => "Delete"
    case ContextMenu => "ContextMenu"
    case Backslash => "Backslash"
    case Unknown => ""
  }

  // Injectivity on the table: `CodeOf` undoes `ParseCode` on every table
  // code, group by group, a few positions at a time.

  lemma TopRowCodesInverse1()
    ensures forall i :: 0 <= i < 2 ==> CodeOf(ParseCode(TOP_ROW_CODES[i])) == TOP_ROW_CODES[i]
  {
    DigitRowPart1();
    PlainKeysPart1();
  }

  lemma TopRowCodesInverse2()
    ensures forall i :: 2 <= i < 4 ==> CodeOf(ParseCode(TOP_ROW_CODES[i])) == TOP_ROW_CODES[i]
  {
    DigitRowPart1();
  }

  lemma TopRowCodesInverse3()
    ensures forall i :: 4 <= i < 6 ==> CodeOf(ParseCode(TOP_ROW_CODES[i])) == TOP_ROW_CODES[i]
  {
    DigitRowPart1();
  }

  lemma TopRowCodesInverse4()
    ensures forall i :: 6 <= i < 8 ==> CodeOf(ParseCode(TOP_ROW_CODES[i])) == TOP_ROW_CODES[i]
  {
    DigitRowPart1();
    DigitRowPart2();
  }

  lemma TopRowCodesInverse5()
    ensures forall i :: 8 <= i < 10 ==> CodeOf(ParseCode(TOP_ROW_CODES[i])) == TOP_ROW_CODES[i]
  {
    DigitRowPart2();
  }

  lemma TopRowCodesInverse6()
    ensures forall i :: 10 <= i < 12 ==> CodeOf(ParseCode(TOP_ROW_CODES[i])) == TOP_ROW_CODES[i]
  {
    DigitRowPart2();
    PlainKeysPart1();
  }

  lemma TopRowCodesInverse7()
    ensures forall i :: 12 <= i < 14 ==> CodeOf(ParseCode(TOP_ROW_CODES[i])) == TOP_ROW_CODES[i]
  {
    PlainKeysPart1();
  }

  lemma TopRowCodesInverse8()
    ensures forall i :: 14 <= i < 15 ==> CodeOf(ParseCode(TOP_ROW_CODES[i])) == TOP_ROW_CODES[i]
  {
    PlainKeysPart1();
  }

  /** `CodeOf` gives back every code of the top-row group. */
  lemma TopRowCodesInverse()
    ensures forall code :: code in TOP_ROW_CODES ==> CodeOf(ParseCode(code)) == code
  {
    TopRowCodesInverse1();
    TopRowCodesInverse2();
    TopRowCodesInverse3();
    TopRowCodesInverse4();
    TopRowCodesInverse5();
    TopRowCodesInverse6();
    TopRowCodesInverse7();
    TopRowCodesInverse8();
  }

  lemma LetterCodesInverse1()
    ensures forall i :: 0 <= i < 2 ==> CodeOf(ParseCode(LETTER_CODES[i])) == LETTER_CODES[i]
  {
    LetterKeysPart1();
  }

  lemma LetterCodesInverse2()
    ensures forall i :: 2 <= i < 4 ==> CodeOf(ParseCode(LETTER_CODES[i])) == LETTER_CODES[i]
  {
    LetterKeysPart1();
  }

  lemma LetterCodesInverse3()
    ensures forall i :: 4 <= i < 6 ==> CodeOf(ParseCode(LETTER_CODES[i])) == LETTER_CODES[i]
  {
    LetterKeysPart1();
  }

  lemma LetterCodesInverse4()
    ensures forall i :: 6 <= i < 8 ==> CodeOf(ParseCode(LETTER_CODES[i])) == LETTER_CODES[i]
  {
    LetterKeysPart2();
  }

  lemma LetterCodesInverse5()
    ensures forall i :: 8 <= i < 10 ==> CodeOf(ParseCode(LETTER_CODES[i])) == LETTER_CODES[i]
  {
    LetterKeysPart2();
  }

  lemma LetterCodesInverse6()
    ensures forall i :: 10 <= i < 12 ==> CodeOf(ParseCode(LETTER_CODES[i])) == LETTER_CODES[i]
  {
    LetterKeysPart2();
  }

  lemma LetterCodesInverse7()
    ensures forall i :: 12 <= i < 14 ==> CodeOf(ParseCode(LETTER_CODES[i])) == LETTER_CODES[i]
  {
    LetterKeysPart3();
  }

  lemma LetterCodesInverse8()
    ensures forall i :: 14 <= i < 16 ==> CodeOf(ParseCode(LETTER_CODES[i])) == LETTER_CODES[i]
  {
    LetterKeysPart3();
  }

  lemma LetterCodesInverse9()
    ensures forall i :: 16 <= i < 18 ==> CodeOf(ParseCode(LETTER_CODES[i])) == LETTER_CODES[i]
  {
    LetterKeysPart3();
  }

  lemma LetterCodesInverse10()
    ensures forall i :: 18 <= i < 20 ==> CodeOf(ParseCode(LETTER_CODES[i])) == LETTER_CODES[i]
  {
    LetterKeysPart4();
  }

  lemma LetterCodesInverse11()
    ensures forall i :: 20 <= i < 22 ==> CodeOf(ParseCode(LETTER_CODES[i])) == LETTER_CODES[i]
  {
    LetterKeysPart4();
  }

  lemma LetterCodesInverse12()
    ensures forall i :: 22 <= i < 24 ==> CodeOf(ParseCode(LETTER_CODES[i])) == LETTER_CODES[i]
  {
    LetterKeysPart4();
  }

  lemma LetterCodesInverse13()
    ensures forall i :: 24 <= i < 26 ==> CodeOf(ParseCode(LETTER_CODES[i])) == LETTER_CODES[i]
  {
    LetterKeysPart5();
  }

  /** `CodeOf` gives back every code of the letter group. */
  lemma LetterCodesInverse()
    ensures forall code :: code in LETTER_CODES ==> CodeOf(ParseCode(code)) == code
  {
    LetterCodesInverse1();
    LetterCodesInverse2();
    LetterCodesInverse3();
    LetterCodesInverse4();
    LetterCodesInverse5();
    LetterCodesInverse6();
    LetterCodesInverse7();
    LetterCodesInverse8();
    LetterCodesInverse9();
    LetterCodesInverse10();
    LetterCodesInverse11();
    LetterCodesInverse12();
    LetterCodesInverse13();
  }

  lemma MiddleCodesInverse1()
    ensures forall i :: 0 <= i < 2 ==> CodeOf(ParseCode(MIDDLE_CODES[i])) == MIDDLE_CODES[i]
  {
    PlainKeysPart2();
  }

  lemma MiddleCodesInverse2()
    ensures forall i :: 2 <= i < 4 ==> CodeOf(ParseCode(MIDDLE_CODES[i])) == MIDDLE_CODES[i]
  {
    ModifierSidesPart1();
    PlainKeysPart2();
  }

  lemma MiddleCodesInverse3()
    ensures forall i :: 4 <= i < 6 ==> CodeOf(ParseCode(MIDDLE_CODES[i])) == MIDDLE_CODES[i]
  {
    ModifierSidesPart1();
    PlainKeysPart3();
  }

  lemma MiddleCodesInverse4()
    ensures forall i :: 6 <= i < 8 ==> CodeOf(ParseCode(MIDDLE_CODES[i])) == MIDDLE_CODES[i]
  {
    PlainKeysPart3();
  }

  lemma MiddleCodesInverse5()
    ensures forall i :: 8 <= i < 10 ==> CodeOf(ParseCode(MIDDLE_CODES[i])) == MIDDLE_CODES[i]
  {
    ModifierSidesPart1();
    ModifierSidesPart2();
  }

  lemma MiddleCodesInverse6()
    ensures forall i :: 10 <= i < 12 ==> CodeOf(ParseCode(MIDDLE_CODES[i])) == MIDDLE_CODES[i]
  {
    PlainKeysPart4();
  }

  lemma MiddleCodesInverse7()
    ensures forall i :: 12 <= i < 14 ==> CodeOf(ParseCode(MIDDLE_CODES[i])) == MIDDLE_CODES[i]
  {
    NumpadOperatorsPart1();
    PlainKeysPart4();
  }

  lemma MiddleCodesInverse8()
    ensures forall i :: 14 <= i < 16 ==> CodeOf(ParseCode(MIDDLE_CODES[i])) == MIDDLE_CODES[i]
  {
    ModifierSidesPart2();
  }

  lemma MiddleCodesInverse9()
    ensures forall i :: 16 <= i < 18 ==> CodeOf(ParseCode(MIDDLE_CODES[i])) == MIDDLE_CODES[i]
  {
    ModifierSidesPart3();
  }

  lemma MiddleCodesInverse10()
    ensures forall i :: 18 <= i < 20 ==> CodeOf(ParseCode(MIDDLE_CODES[i])) == MIDDLE_CODES[i]
  {
    PlainKeysPart5();
  }

  /** `CodeOf` gives back every code of the middle group. */
  lemma MiddleCodesInverse()
    ensures forall code :: code in MIDDLE_CODES ==> CodeOf(ParseCode(code)) == code
  {
    MiddleCodesInverse1();
    MiddleCodesInverse2();
    MiddleCodesInverse3();
    MiddleCodesInverse4();
    MiddleCodesInverse5();
    MiddleCodesInverse6();
    MiddleCodesInverse7();
    MiddleCodesInverse8();
    MiddleCodesInverse9();
    MiddleCodesInverse10();
  }

  lemma FunctionCodesInverse1()
    ensures forall i :: 0 <= i < 2 ==> CodeOf(ParseCode(FUNCTION_CODES[i])) == FUNCTION_CODES[i]
  {
    FunctionKeysPart1();
  }

  lemma FunctionCodesInverse2()
    ensures forall i :: 2 <= i < 4 ==> CodeOf(ParseCode(FUNCTION_CODES[i])) == FUNCTION_CODES[i]
  {
    FunctionKeysPart1();
    FunctionKeysPart2();
  }

  lemma FunctionCodesInverse3()
    ensures forall i :: 4 <= i < 6 ==> CodeOf(ParseCode(FUNCTION_CODES[i])) == FUNCTION_CODES[i]
  {
    FunctionKeysPart2();
  }

  lemma FunctionCodesInverse4()
    ensures forall i :: 6 <= i < 8 ==> CodeOf(ParseCode(FUNCTION_CODES[i])) == FUNCTION_CODES[i]
  {
    FunctionKeysPart3();
  }

  lemma FunctionCodesInverse5()
    ensures forall i :: 8 <= i < 10 ==> CodeOf(ParseCode(FUNCTION_CODES[i])) == FUNCTION_CODES[i]
  {
    FunctionKeysPart3();
    FunctionKeysPart4();
  }

  lemma FunctionCodesInverse6()
    ensures forall i :: 10 <= i < 12 ==> CodeOf(ParseCode(FUNCTION_CODES[i])) == FUNCTION_CODES[i]
  {
    FunctionKeysPart4();
  }

  lemma FunctionCodesInverse7()
    ensures forall i :: 12 <= i < 14 ==> CodeOf(ParseCode(FUNCTION_CODES[i])) == FUNCTION_CODES[i]
  {
    FunctionKeysPart5();
  }

  lemma FunctionCodesInverse8()
    ensures forall i :: 14 <= i < 16 ==> CodeOf(ParseCode(FUNCTION_CODES[i])) == FUNCTION_CODES[i]
  {
    FunctionKeysPart5();
    FunctionKeysPart6();
  }

  lemma FunctionCodesInverse9()
    ensures forall i :: 16 <= i < 18 ==> CodeOf(ParseCode(FUNCTION_CODES[i])) == FUNCTION_CODES[i]
  {
    FunctionKeysPart6();
  }

  lemma FunctionCodesInverse10()
    ensures forall i :: 18 <= i < 20 ==> CodeOf(ParseCode(FUNCTION_CODES[i])) == FUNCTION_CODES[i]
  {
    FunctionKeysPart7();
  }

  lemma FunctionCodesInverse11()
    ensures forall i :: 20 <= i < 22 ==> CodeOf(ParseCode(FUNCTION_CODES[i])) == FUNCTION_CODES[i]
  {
    FunctionKeysPart7();
    FunctionKeysPart8();
  }

  lemma FunctionCodesInverse12()
    ensures forall i :: 22 <= i < 24 ==> CodeOf(ParseCode(FUNCTION_CODES[i])) == FUNCTION_CODES[i]
  {
    FunctionKeysPart8();
  }

  /** `CodeOf` gives back every code of the function group. */
  lemma FunctionCodesInverse()
    ensures forall code :: code in FUNCTION_CODES ==> CodeOf(ParseCode(code)) == code
  {
    FunctionCodesInverse1();
    FunctionCodesInverse2();
    FunctionCodesInverse3();
    FunctionCodesInverse4();
    FunctionCodesInverse5();
    FunctionCodesInverse6();
    FunctionCodesInverse7();
    FunctionCodesInverse8();
    FunctionCodesInverse9();
    FunctionCodesInverse10();
    FunctionCodesInverse11();
    FunctionCodesInverse12();
  }

  lemma KeypadCodesInverse1()
    ensures forall i :: 0 <= i < 2 ==> CodeOf(ParseCode(KEYPAD_CODES[i])) == KEYPAD_CODES[i]
  {
    PlainKeysPart6();
  }

  lemma KeypadCodesInverse2()
    ensures forall i :: 2 <= i < 4 ==> CodeOf(ParseCode(KEYPAD_CODES[i])) == KEYPAD_CODES[i]
  {
    NumpadDigitsPart1();
  }

  lemma KeypadCodesInverse3()
    ensures forall i :: 4 <= i < 6 ==> CodeOf(ParseCode(KEYPAD_CODES[i])) == KEYPAD_CODES[i]
  {
    NumpadDigitsPart2();
  }

  lemma KeypadCodesInverse4()
    ensures forall i :: 6 <= i < 8 ==> CodeOf(ParseCode(KEYPAD_CODES[i])) == KEYPAD_CODES[i]
  {
    NumpadDigitsPart3();
  }

  lemma KeypadCodesInverse5()
    ensures forall i :: 8 <= i < 10 ==> CodeOf(ParseCode(KEYPAD_CODES[i])) == KEYPAD_CODES[i]
  {
    NumpadDigitsPart4();
  }

  lemma KeypadCodesInverse6()
    ensures forall i :: 10 <= i < 12 ==> CodeOf(ParseCode(KEYPAD_CODES[i])) == KEYPAD_CODES[i]
  {
    NumpadDigitsPart5();
  }

  lemma KeypadCodesInverse7()
    ensures forall i :: 12 <= i < 14 ==> CodeOf(ParseCode(KEYPAD_CODES[i])) == KEYPAD_CODES[i]
  {
    NumpadOperatorsPart2();
  }

  lemma KeypadCodesInverse8()
    ensures forall i :: 14 <= i < 16 ==> CodeOf(ParseCode(KEYPAD_CODES[i])) == KEYPAD_CODES[i]
  {
    NumpadOperatorsPart3();
    PlainKeysPart7();
  }

  lemma KeypadCodesInverse9()
    ensures forall i :: 16 <= i < 18 ==> CodeOf(ParseCode(KEYPAD_CODES[i])) == KEYPAD_CODES[i]
  {
    NumpadOperatorsPart3();
    PlainKeysPart7();
  }

  /** `CodeOf` gives back every code of the keypad group. */
  lemma KeypadCodesInverse()
    ensures forall code :: code in KEYPAD_CODES ==> CodeOf(ParseCode(code)) == code
  {
    KeypadCodesInverse1();
    KeypadCodesInverse2();
    KeypadCodesInverse3();
    KeypadCodesInverse4();
    KeypadCodesInverse5();
    KeypadCodesInverse6();
    KeypadCodesInverse7();
    KeypadCodesInverse8();
    KeypadCodesInverse9();
  }

  lemma NavigationCodesInverse1()
    ensures forall i :: 0 <= i < 2 ==> CodeOf(ParseCode(NAVIGATION_CODES[i])) == NAVIGATION_CODES[i]
  {
    PlainKeysPart8();
  }

  lemma NavigationCodesInverse2()
    ensures forall i :: 2 <= i < 4 ==> CodeOf(ParseCode(NAVIGATION_CODES[i])) == NAVIGATION_CODES[i]
  {
    PlainKeysPart9();
  }

  lemma NavigationCodesInverse3()
    ensures forall i :: 4 <= i < 6 ==> CodeOf(ParseCode(NAVIGATION_CODES[i])) == NAVIGATION_CODES[i]
  {
    ArrowKeysPart1();
  }

  lemma NavigationCodesInverse4()
    ensures forall i :: 6 <= i < 8 ==> CodeOf(ParseCode(NAVIGATION_CODES[i])) == NAVIGATION_CODES[i]
  {
    ArrowKeysPart2();
  }

  lemma NavigationCodesInverse5()
    ensures forall i :: 8 <= i < 10 ==> CodeOf(ParseCode(NAVIGATION_CODES[i])) == NAVIGATION_CODES[i]
  {
    PlainKeysPart10();
  }

  lemma NavigationCodesInverse6()
    ensures forall i :: 10 <= i < 12 ==> CodeOf(ParseCode(NAVIGATION_CODES[i])) == NAVIGATION_CODES[i]
  {
    PlainKeysPart11();
  }

  /** `CodeOf` gives back every code of the navigation group. */
  lemma NavigationCodesInverse()
    ensures forall code :: code in NAVIGATION_CODES ==> CodeOf(ParseCode(code)) == code
  {
    NavigationCodesInverse1();
    NavigationCodesInverse2();
    NavigationCodesInverse3();
    NavigationCodesInverse4();
    NavigationCodesInverse5();
    NavigationCodesInverse6();
  }

  /** `CodeOf` gives back every code of the table. */
  lemma ParseCodeInverse()
    ensures forall code :: code in CODES ==> CodeOf(ParseCode(code)) == code
  {
    TopRowCodesInverse();
    LetterCodesInverse();
    MiddleCodesInverse();
    FunctionCodesInverse();
    KeypadCodesInverse();
    NavigationCodesInverse();
  }

  /** Distinct codes of the table give distinct keys. */
  lemma ParseCodeInjective()
    ensures forall a, b :: a in CODES && b in CODES && ParseCode(a) == ParseCode(b) ==> a == b
  {
    ParseCodeInverse();
  }
}
