/**
 * The key-code half of the input translator: GDK key symbols (the values of
 * gdkkeysyms.h) are mapped to Servo's abstract `Key` vocabulary, and the
 * Unicode character GDK reports for the key is kept only when it is not a
 * control character.
 */
module Keys {
  import opened Wrappers

  /** Servo's abstract keyboard keys, in the order of its enumeration. */
  datatype Key =
    | Space
    | Apostrophe
    | Comma
    | Minus
    | Period
    | Slash
    | Num0
    | Num1
    | Num2
    | Num3
    | Num4
    | Num5
    | Num6
    | Num7
    | Num8
    | Num9
    | Semicolon
    | Equal
    | A
    | B
    | C
    | D
    | E
    | F
    | G
    | H
    | I
    | J
    | K
    | L
    | M
    | N
    | O
    | P
    | Q
    | R
    | S
    | T
    | U
    | V
    | W
    | X
    | Y
    | Z
    | LeftBracket
    | Backslash
    | RightBracket
    | GraveAccent
    | World1
    | World2
    | Escape
    | Enter
    | Tab
    | Backspace
    | Insert
    | Delete
    | Right
    | Left
    | Down
    | Up
    | PageUp
    | PageDown
    | Home
    | End
    | CapsLock
    | ScrollLock
    | NumLock
    | PrintScreen
    | Pause
    | F1
    | F2
    | F3
    | F4
    | F5
    | F6
    | F7
    | F8
    | F9
    | F10
    | F11
    | F12
    | F13
    | F14
    | F15
    | F16
    | F17
    | F18
    | F19
    | F20
    | F21
    | F22
    | F23
    | F24
    | F25
    | Kp0
    | Kp1
    | Kp2
    | Kp3
    | Kp4
    | Kp5
    | Kp6
    | Kp7
    | Kp8
    | Kp9
    | KpDecimal
    | KpDivide
    | KpMultiply
    | KpSubtract
    | KpAdd
    | KpEnter
    | KpEqual
    | LeftShift
    | LeftControl
    | LeftAlt
    | LeftSuper
    | RightShift
    | RightControl
    | RightAlt
    | RightSuper
    | Menu
    | NavigateBackward
    | NavigateForward

  /** Rust's `char::is_control`: the general category Cc (C0 controls, DEL and C1 controls). */
  predicate IsControl(c: char) {
    c as int <= 0x1f || 0x7f <= c as int <= 0x9f
  }

  /** The arms of the table for space, punctuation and the digits. */
  function PunctuationKey(code: int): Option<Key> {
    match code
    case 0x0020 => Some(Space)
    case 0x0027 => Some(Apostrophe)
    case 0x002c => Some(Comma)
    case 0x002d => Some(Minus)
    case 0x002e => Some(Period)
    case 0x002f => Some(Slash)
    case 0x0030 => Some(Num0)
    case 0x0031 => Some(Num1)
    case 0x0032 => Some(Num2)
    case 0x0033 => Some(Num3)
    case 0x0034 => Some(Num4)
    case 0x0035 => Some(Num5)
    case 0x0036 => Some(Num6)
    case 0x0037 => Some(Num7)
    case 0x0038 => Some(Num8)
    case 0x0039 => Some(Num9)
    case 0x003b => Some(Semicolon)
    case 0x003d => Some(Equal)
    case _ => None
  }

  /** The arms of the table for the Latin letters (either case) and the brackets. */
  function LetterKey(code: int): Option<Key> {
    match code
    case 0x0041 | 0x0061 => Some(A)
    case 0x0042 | 0x0062 => Some(B)
    case 0x0043 | 0x0063 => Some(C)
    case 0x0044 | 0x0064 => Some(D)
    case 0x0045 | 0x0065 => Some(E)
    case 0x0046 | 0x0066 => Some(F)
    case 0x0047 | 0x0067 => Some(G)
    case 0x0048 | 0x0068 => Some(H)
    case 0x0049 | 0x0069 => Some(I)
    case 0x004a | 0x006a => Some(J)
    case 0x004b | 0x006b => Some(K)
    case 0x004c | 0x006c => Some(L)
    case 0x004d | 0x006d => Some(M)
    case 0x004e | 0x006e => Some(N)
    case 0x004f | 0x006f => Some(O)
    case 0x0050 | 0x0070 => Some(P)
    case 0x0051 | 0x0071 => Some(Q)
    case 0x0052 | 0x0072 => Some(R)
    case 0x0053 | 0x0073 => Some(S)
    case 0x0054 | 0x0074 => Some(T)
    case 0x0055 | 0x0075 => Some(U)
    case 0x0056 | 0x0076 => Some(V)
    case 0x0057 | 0x0077 => Some(W)
    case 0x0058 | 0x0078 => Some(X)
    case 0x0059 | 0x0079 => Some(Y)
    case 0x005a | 0x007a => Some(Z)
    case 0x005b => Some(LeftBracket)
    case 0x005c => Some(Backslash)
    case 0x005d => Some(RightBracket)
    case _ => None
  }

  /** The arms of the table for the dead grave accent and the 3270 print-screen key. */
  function DeadKey(code: int): Option<Key> {
    match code
    case 0xfe50 => Some(GraveAccent)
    case 0xfd1d => Some(PrintScreen)
    case _ => None
  }

  /** The arms of the table for editing, cursor-motion and lock keys. */
  function EditingKey(code: int): Option<Key> {
    match code
    case 0xff1b => Some(Escape)
    case 0xff0d => Some(Enter)
    case 0xff09 => Some(Tab)
    case 0xff08 => Some(Backspace)
    case 0xff63 => Some(Insert)
    case 0xff53 => Some(Right)
    case 0xff51 => Some(Left)
    case 0xff54 => Some(Down)
    case 0xff52 => Some(Up)
    case 0xff55 => Some(PageUp)
    case 0xff56 => Some(PageDown)
    case 0xff50 => Some(Home)
    case 0xff57 => Some(End)
    case 0xff14 => Some(ScrollLock)
    case 0xff7f => Some(NumLock)
    case 0xff13 => Some(Pause)
    case 0xff67 => Some(Menu)
    case _ => None
  }

  /** The arms of the table for the numeric keypad. */
  function KeypadKey(code: int): Option<Key> {
    match code
    case 0xffb0 => Some(Kp0)
    case 0xffb1 => Some(Kp1)
    case 0xffb2 => Some(Kp2)
    case 0xffb3 => Some(Kp3)
    case 0xffb4 => Some(Kp4)
    case 0xffb5 => Some(Kp5)
    case 0xffb6 => Some(Kp6)
    case 0xffb7 => Some(Kp7)
    case 0xffb8 => Some(Kp8)
    case 0xffb9 => Some(Kp9)
    case 0xffae => Some(KpDecimal)
    case 0xffaf => Some(KpDivide)
    case 0xffaa => Some(KpMultiply)
    case 0xffad => Some(KpSubtract)
    case 0xffab => Some(KpAdd)
    case 0xff8d => Some(KpEnter)
    case 0xffbd => Some(KpEqual)
    case _ => None
  }

  /** The arms of the table for the function keys F1 to F25. */
  function FunctionKey(code: int): Option<Key> {
    match code
    case 0xffbe => Some(F1)
    case 0xffbf => Some(F2)
    case 0xffc0 => Some(F3)
    case 0xffc1 => Some(F4)
    case 0xffc2 => Some(F5)
    case 0xffc3 => Some(F6)
    case 0xffc4 => Some(F7)
    case 0xffc5 => Some(F8)
    case 0xffc6 => Some(F9)
    case 0xffc7 => Some(F10)
    case 0xffc8 => Some(F11)
    case 0xffc9 => Some(F12)
    case 0xffca => Some(F13)
    case 0xffcb => Some(F14)
    case 0xffcc => Some(F15)
    case 0xffcd => Some(F16)
    case 0xffce => Some(F17)
    case 0xffcf => Some(F18)
    case 0xffd0 => Some(F19)
    case 0xffd1 => Some(F20)
    case 0xffd2 => Some(F21)
    case 0xffd3 => Some(F22)
    case 0xffd4 => Some(F23)
    case 0xffd5 => Some(F24)
    case 0xffd6 => Some(F25)
    case _ => None
  }

  /** The arms of the table for the modifier keys, Caps Lock and Delete. */
  function ModifierKey(code: int): Option<Key> {
    match code
    case 0xffff => Some(Delete)
    case 0xffe5 => Some(CapsLock)
    case 0xffe1 => Some(LeftShift)
    case 0xffe3 => Some(LeftControl)
    case 0xffe9 => Some(LeftAlt)
    case 0xffeb => Some(LeftSuper)
    case 0xffe2 => Some(RightShift)
    case 0xffe4 => Some(RightControl)
    case 0xffea => Some(RightAlt)
    case 0xffec => Some(RightSuper)
    case _ => None
  }

  /**
   * The key table of `to_key`: one arm per recognised GDK key symbol, grouped
   * by the ranges of the symbols; any other code is unrecognised.
   */
  function KeyTable(code: int): Option<Key> {
    if code < 0x41 then PunctuationKey(code)
    else if code < 0x80 then LetterKey(code)
    else if code < 0xff00 then DeadKey(code)
    else if code < 0xff80 then EditingKey(code)
    else if code < 0xffbe then KeypadKey(code)
    else if code < 0xffe0 then FunctionKey(code)
    else ModifierKey(code)
  }

  /** The GDK key symbols of the upper-case Latin letters `A` to `Z`. */
  predicate IsUpperLetterCode(code: int) {
    0x41 <= code <= 0x5a
  }

  /** The pair `to_key` returns: the character to report and the abstract key. */
  datatype Translation = Translation(ch: Option<char>, key: Option<Key>)

  /**
   * `to_key`: `unicode` is what `gdk::keyval_to_unicode` reports for `code`.
   * An unrecognised code gives no key and no character, whatever its Unicode
   * value; a recognised one gives its key, with the character only when it is
   * present and not a control character.
   */
  function ToKey(code: int, unicode: Option<char>): (r: Translation)
    ensures r.key == KeyTable(code)
    ensures r.key == None ==> r.ch == None
    ensures r.ch != None <==> r.key != None && unicode != None && !IsControl(unicode.value)
    ensures r.ch != None ==> r.ch == unicode
  {
    var ch := if unicode.Some? && !IsControl(unicode.value) then unicode else None;
    match KeyTable(code)
    case None => Translation(None, None)
    case Some(k) => Translation(ch, Some(k))
  }

  /** Only symbols in the range 0x20 to 0xffff are ever recognised. */
  lemma RecognisedRange(code: int)
    requires KeyTable(code) != None
    ensures 0x20 <= code <= 0xffff
  {
  }

  /** The cursor keys that the window scrolls with. */
  lemma ArrowKeys()
    ensures KeyTable(0xff52) == Some(Up) && KeyTable(0xff54) == Some(Down)
    ensures KeyTable(0xff51) == Some(Left) && KeyTable(0xff53) == Some(Right)
  {
  }

  /** Upper- and lower-case letter symbols give the same key. */
  lemma LettersIgnoreCase(code: int)
    requires IsUpperLetterCode(code)
    ensures KeyTable(code) != None && KeyTable(code) == KeyTable(code + 0x20)
  {
  }
}
