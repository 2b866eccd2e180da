/**
 * Keyboard keys and modifiers of cushy-gl/src/keys.rs: printability by
 * declaration order, display and symbol names, and the modifier strings.
 */
module Keys {
  import opened Opt

  /** `Key`, in declaration order (the order `Ord` derives). */
  datatype Key =
    | Space | Apostrophe | Comma | Minus | Period | Slash
    | Num0 | Num1 | Num2 | Num3 | Num4 | Num5
    | Num6 | Num7 | Num8 | Num9 | Semicolon | Equal
    | A | B | C | D | E | F
    | G | H | I | J | K | L
    | M | N | O | P | Q | R
    | S | T | U | V | W | X
    | Y | Z | LeftBracket | Backslash | RightBracket | GraveAccent
    | World1 | World2 | Escape | Enter | Tab | Backspace
    | Insert | Delete | Right | Left | Down | Up
    | PageUp | PageDown | Home | End | CapsLock | ScrollLock
    | NumLock | PrintScreen | Pause | F1 | F2 | F3
    | F4 | F5 | F6 | F7 | F8 | F9
    | F10 | F11 | F12 | F13 | F14 | F15
    | F16 | F17 | F18 | F19 | F20 | F21
    | F22 | F23 | F24 | F25 | Kp0 | Kp1
    | Kp2 | Kp3 | Kp4 | Kp5 | Kp6 | Kp7
    | Kp8 | Kp9 | KpDecimal | KpDivide | KpMultiply | KpSubtract
    | KpAdd | KpEnter | KpEqual | LeftShift | LeftControl | LeftAlt
    | LeftWin | RightShift | RightControl | RightAlt | RightWin | Menu

  /** The position of a key in the declaration, which the derived `Ord` compares. */
  function Ordinal(k: Key): (n: nat)
    ensures n < 120
  {
    match k
    case Space => 0
    case Apostrophe => 1
    case Comma => 2
    case Minus => 3
    case Period => 4
    case Slash => 5
    case Num0 => 6
    case Num1 => 7
    case Num2 => 8
    case Num3 => 9
    case Num4 => 10
    case Num5 => 11
    case Num6 => 12
    case Num7 => 13
    case Num8 => 14
    case Num9 => 15
    case Semicolon => 16
    case Equal => 17
    case A => 18
    case B => 19
    case C => 20
    case D => 21
    case E => 22
    case F => 23
    case G => 24
    case H => 25
    case I => 26
    case J => 27
    case K => 28
    case L => 29
    case M => 30
    case N => 31
    case O => 32
    case P => 33
    case Q => 34
    case R => 35
    case S => 36
    case T => 37
    case U => 38
    case V => 39
    case W => 40
    case X => 41
    case Y => 42
    case Z => 43
    case LeftBracket => 44
    case Backslash => 45
    case RightBracket => 46
    case GraveAccent => 47
    case World1 => 48
    case World2 => 49
    case Escape => 50
    case Enter => 51
    case Tab => 52
    case Backspace => 53
    case Insert => 54
    case Delete => 55
    case Right => 56
    case Left => 57
    case Down => 58
    case Up => 59
    case PageUp => 60
    case PageDown => 61
    case Home => 62
    case End => 63
    case CapsLock => 64
    case ScrollLock => 65
    case NumLock => 66
    case PrintScreen => 67
    case Pause => 68
    case F1 => 69
    case F2 => 70
    case F3 => 71
    case F4 => 72
    case F5 => 73
    case F6 => 74
    case F7 => 75
    case F8 => 76
    case F9 => 77
    case F10 => 78
    case F11 => 79
    case F12 => 80
    case F13 => 81
    case F14 => 82
    case F15 => 83
    case F16 => 84
    case F17 => 85
    case F18 => 86
    case F19 => 87
    case F20 => 88
    case F21 => 89
    case F22 => 90
    case F23 => 91
    case F24 => 92
    case F25 => 93
    case Kp0 => 94
    case Kp1 => 95
    case Kp2 => 96
    case Kp3 => 97
    case Kp4 => 98
    case Kp5 => 99
    case Kp6 => 100
    case Kp7 => 101
    case Kp8 => 102
    case Kp9 => 103
    case KpDecimal => 104
    case KpDivide => 105
    case KpMultiply => 106
    case KpSubtract => 107
    case KpAdd => 108
    case KpEnter => 109
    case KpEqual => 110
    case LeftShift => 111
    case LeftControl => 112
    case LeftAlt => 113
    case LeftWin => 114
    case RightShift => 115
    case RightControl => 116
    case RightAlt => 117
    case RightWin => 118
    case Menu => 119
  }

  /** `Key::is_printable`: declared before `World1`. */
  predicate IsPrintable(k: Key) {
    Ordinal(k) < Ordinal(World1)
  }

  /**
   * The printable keys are the first 48 of the declaration, from `Space` to
   * `GraveAccent`; `World1` and everything after it are not printable.
   */
  lemma PrintableAreFirst48(k: Key)
    ensures IsPrintable(k) <==> Ordinal(k) < 48
  {
    PrintableBoundary();
  }

  lemma PrintableBoundary()
    ensures Ordinal(Space) == 0 && Ordinal(GraveAccent) == 47 && Ordinal(World1) == 48
  {
  }

  /** `Key::display_name`: the name shown to the user. */
  function DisplayName(k: Key): string {
    match k
    case Space => "Space"
    case Apostrophe => "'"
    case Comma => ","
    case Minus => "-"
    case Period => "."
    case Slash => "/"
    case Num0 => "0"
    case Num1 => "1"
    case Num2 => "2"
    case Num3 => "3"
    case Num4 => "4"
    case Num5 => "5"
    case Num6 => "6"
    case Num7 => "7"
    case Num8 => "8"
    case Num9 => "9"
    case Semicolon => ";"
    case Equal => "="
    case A => "A"
    case B => "B"
    case C => "C"
    case D => "D"
    case E => "E"
    case F => "F"
    case G => "G"
    case H => "H"
    case I => "I"
    case J => "J"
    case K => "K"
    case L => "L"
    case M => "M"
    case N => "N"
    case O => "O"
    case P => "P"
    case Q => "Q"
    case R => "R"
    case S => "S"
    case T => "T"
    case U => "U"
    case V => "V"
    case W => "W"
    case X => "X"
    case Y => "Y"
    case Z => "Z"
    case LeftBracket => "["
    case Backslash => "\\"
    case RightBracket => "]"
    case GraveAccent => "`"
    case World1 => "World1"
    case World2 => "World2"
    case Escape => "Esc"
    case Enter => "Enter"
    case Tab => "Tab"
    case Backspace => "Backspace"
    case Insert => "Insert"
    case Delete => "Delete"
    case Right => "→"
    case Left => "←"
    case Down => "↓"
    case Up => "↑"
    case PageUp => "Page Up"
    case PageDown => "Page Down"
    case Home => "Home"
    case End => "End"
    case CapsLock => "Caps Lock"
    case ScrollLock => "Scroll Lock"
    case NumLock => "Num Lock"
    case PrintScreen => "Print Screen"
    case Pause => "Pause"
    case F1 => "F1"
    case F2 => "F2"
    case F3 => "F3"
    case F4 => "F4"
    case F5 => "F5"
    case F6 => "F6"
    case F7 => "F7"
    case F8 => "F8"
    case F9 => "F9"
    case F10 => "F10"
    case F11 => "F11"
    case F12 => "F12"
    case F13 => "F13"
    case F14 => "F14"
    case F15 => "F15"
    case F16 => "F16"
    case F17 => "F17"
    case F18 => "F18"
    case F19 => "F19"
    case F20 => "F20"
    case F21 => "F21"
    case F22 => "F22"
    case F23 => "F23"
    case F24 => "F24"
    case F25 => "F25"
    case Kp0 => "Keypad 0"
    case Kp1 => "Keypad 1"
    case Kp2 => "Keypad 2"
    case Kp3 => "Keypad 3"
    case Kp4 => "Keypad 4"
    case Kp5 => "Keypad 5"
    case Kp6 => "Keypad 6"
    case Kp7 => "Keypad 7"
    case Kp8 => "Keypad 8"
    case Kp9 => "Keypad 9"
    case KpDecimal => "Keypad ."
    case KpDivide => "Keypad /"
    case KpMultiply => "Keypad *"
    case KpSubtract => "Keypad -"
    case KpAdd => "Keypad +"
    case KpEnter => "Keypad Enter"
    case KpEqual => "Keypad ="
    case LeftShift => "Left Shift"
    case LeftControl => "Left Control"
    case LeftAlt => "Left Alt"
    case LeftWin => "Left Windows"
    case RightShift => "Right Shift"
    case RightControl => "Right Control"
    case RightAlt => "Right Alt"
    case RightWin => "Right Windows"
    case Menu => "Menu"
  }

  /** Where letters and digits sit in the declaration. */
  lemma LetterAndDigitPositions()
    ensures Ordinal(A) == 18 && Ordinal(Z) == 43 && Ordinal(Num0) == 6 && Ordinal(Num9) == 15
  {
  }

  /** The display name of a letter key is that upper-case letter. */
  lemma DisplayNameOfLetter(k: Key)
    requires Ordinal(A) <= Ordinal(k) <= Ordinal(Z)
    ensures DisplayName(k) == [(('A' as int) + Ordinal(k) - Ordinal(A)) as char]
  {
    LetterAndDigitPositions();
    var n := Ordinal(k);
    if n == 18 {
      NamesAt18(k);
    } else if n == 19 {
      NamesAt19(k);
    } else if n == 20 {
      NamesAt20(k);
    } else if n == 21 {
      NamesAt21(k);
    } else if n == 22 {
      NamesAt22(k);
    } else if n == 23 {
      NamesAt23(k);
    } else if n == 24 {
      NamesAt24(k);
    } else if n == 25 {
      NamesAt25(k);
    } else if n == 26 {
      NamesAt26(k);
    } else if n == 27 {
      NamesAt27(k);
    } else if n == 28 {
      NamesAt28(k);
    } else if n == 29 {
      NamesAt29(k);
    } else if n == 30 {
      NamesAt30(k);
    } else if n == 31 {
      NamesAt31(k);
    } else if n == 32 {
      NamesAt32(k);
    } else if n == 33 {
      NamesAt33(k);
    } else if n == 34 {
      NamesAt34(k);
    } else if n == 35 {
      NamesAt35(k);
    } else if n == 36 {
      NamesAt36(k);
    } else if n == 37 {
      NamesAt37(k);
    } else if n == 38 {
      NamesAt38(k);
    } else if n == 39 {
      NamesAt39(k);
    } else if n == 40 {
      NamesAt40(k);
    } else if n == 41 {
      NamesAt41(k);
    } else if n == 42 {
      NamesAt42(k);
    } else {
      NamesAt43(k);
    }
  }

  /** The display name of a digit key is that digit. */
  lemma DisplayNameOfDigit(k: Key)
    requires Ordinal(Num0) <= Ordinal(k) <= Ordinal(Num9)
    ensures DisplayName(k) == [(('0' as int) + Ordinal(k) - Ordinal(Num0)) as char]
  {
    LetterAndDigitPositions();
    var n := Ordinal(k);
    if n == 6 {
      NamesAt6(k);
    } else if n == 7 {
      NamesAt7(k);
    } else if n == 8 {
      NamesAt8(k);
    } else if n == 9 {
      NamesAt9(k);
    } else if n == 10 {
      NamesAt10(k);
    } else if n == 11 {
      NamesAt11(k);
    } else if n == 12 {
      NamesAt12(k);
    } else if n == 13 {
      NamesAt13(k);
    } else if n == 14 {
      NamesAt14(k);
    } else {
      NamesAt15(k);
    }
  }

  /** `Key::sym_name`: the variant's own identifier. */
  function SymName(k: Key): string {
    match k
    case Space => "Space"
    case Apostrophe => "Apostrophe"
    case Comma => "Comma"
    case Minus => "Minus"
    case Period => "Period"
    case Slash => "Slash"
    case Num0 => "Num0"
    case Num1 => "Num1"
    case Num2 => "Num2"
    case Num3 => "Num3"
    case Num4 => "Num4"
    case Num5 => "Num5"
    case Num6 => "Num6"
    case Num7 => "Num7"
    case Num8 => "Num8"
    case Num9 => "Num9"
    case Semicolon => "Semicolon"
    case Equal => "Equal"
    case A => "A"
    case B => "B"
    case C => "C"
    case D => "D"
    case E => "E"
    case F => "F"
    case G => "G"
    case H => "H"
    case I => "I"
    case J => "J"
    case K => "K"
    case L => "L"
    case M => "M"
    case N => "N"
    case O => "O"
    case P => "P"
    case Q => "Q"
    case R => "R"
    case S => "S"
    case T => "T"
    case U => "U"
    case V => "V"
    case W => "W"
    case X => "X"
    case Y => "Y"
    case Z => "Z"
    case LeftBracket => "LeftBracket"
    case Backslash => "Backslash"
    case RightBracket => "RightBracket"
    case GraveAccent => "GraveAccent"
    case World1 => "World1"
    case World2 => "World2"
    case Escape => "Escape"
    case Enter => "Enter"
    case Tab => "Tab"
    case Backspace => "Backspace"
    case Insert => "Insert"
    case Delete => "Delete"
    case Right => "Right"
    case Left => "Left"
    case Down => "Down"
    case Up => "Up"
    case PageUp => "PageUp"
    case PageDown => "PageDown"
    case Home => "Home"
    case End => "End"
    case CapsLock => "CapsLock"
    case ScrollLock => "ScrollLock"
    case NumLock => "NumLock"
    case PrintScreen => "PrintScreen"
    case Pause => "Pause"
    case F1 => "F1"
    case F2 => "F2"
    case F3 => "F3"
    case F4 => "F4"
    case F5 => "F5"
    case F6 => "F6"
    case F7 => "F7"
    case F8 => "F8"
    case F9 => "F9"
    case F10 => "F10"
    case F11 => "F11"
    case F12 => "F12"
    case F13 => "F13"
    case F14 => "F14"
    case F15 => "F15"
    case F16 => "F16"
    case F17 => "F17"
    case F18 => "F18"
    case F19 => "F19"
    case F20 => "F20"
    case F21 => "F21"
    case F22 => "F22"
    case F23 => "F23"
    case F24 => "F24"
    case F25 => "F25"
    case Kp0 => "Kp0"
    case Kp1 => "Kp1"
    case Kp2 => "Kp2"
    case Kp3 => "Kp3"
    case Kp4 => "Kp4"
    case Kp5 => "Kp5"
    case Kp6 => "Kp6"
    case Kp7 => "Kp7"
    case Kp8 => "Kp8"
    case Kp9 => "Kp9"
    case KpDecimal => "KpDecimal"
    case KpDivide => "KpDivide"
    case KpMultiply => "KpMultiply"
    case KpSubtract => "KpSubtract"
    case KpAdd => "KpAdd"
    case KpEnter => "KpEnter"
    case KpEqual => "KpEqual"
    case LeftShift => "LeftShift"
    case LeftControl => "LeftControl"
    case LeftAlt => "LeftAlt"
    case LeftWin => "LeftWin"
    case RightShift => "RightShift"
    case RightControl => "RightControl"
    case RightAlt => "RightAlt"
    case RightWin => "RightWin"
    case Menu => "Menu"
  }

  /** The key whose symbol name is `s`, if any: the inverse of `SymName`. */
  function KeyOfSym(s: string): Option<Key> {
    if |s| == 0 then None
    else
      match s[0]
      case 'S' => (
        match s
        case "Space" => Some(Space)
        case "Slash" => Some(Slash)
        case "Semicolon" => Some(Semicolon)
        case "S" => Some(S)
        case "ScrollLock" => Some(ScrollLock)
        case _ => None)
      case 'A' => (
        match s
        case "Apostrophe" => Some(Apostrophe)
        case "A" => Some(A)
        case _ => None)
      case 'C' => (
        match s
        case "Comma" => Some(Comma)
        case "C" => Some(C)
        case "CapsLock" => Some(CapsLock)
        case _ => None)
      case 'M' => (
        match s
        case "Minus" => Some(Minus)
        case "M" => Some(M)
        case "Menu" => Some(Menu)
        case _ => None)
      case 'P' => (
        match s
        case "Period" => Some(Period)
        case "P" => Some(P)
        case "PageUp" => Some(PageUp)
        case "PageDown" => Some(PageDown)
        case "PrintScreen" => Some(PrintScreen)
        case "Pause" => Some(Pause)
        case _ => None)
      case 'N' => (
        match s
        case "Num0" => Some(Num0)
        case "Num1" => Some(Num1)
        case "Num2" => Some(Num2)
        case "Num3" => Some(Num3)
        case "Num4" => Some(Num4)
        case "Num5" => Some(Num5)
        case "Num6" => Some(Num6)
        case "Num7" => Some(Num7)
        case "Num8" => Some(Num8)
        case "Num9" => Some(Num9)
        case "N" => Some(N)
        case "NumLock" => Some(NumLock)
        case _ => None)
      case 'E' => (
        match s
        case "Equal" => Some(Equal)
        case "E" => Some(E)
        case "Escape" => Some(Escape)
        case "Enter" => Some(Enter)
        case "End" => Some(End)
        case _ => None)
      case 'B' => (
        match s
        case "B" => Some(B)
        case "Backslash" => Some(Backslash)
        case "Backspace" => Some(Backspace)
        case _ => None)
      case 'D' => (
        match s
        case "D" => Some(D)
        case "Delete" => Some(Delete)
        case "Down" => Some(Down)
        case _ => None)
      case 'F' => (
        match s
        case "F" => Some(F)
        case "F1" => Some(F1)
        case "F2" => Some(F2)
        case "F3" => Some(F3)
        case "F4" => Some(F4)
        case "F5" => Some(F5)
        case "F6" => Some(F6)
        case "F7" => Some(F7)
        case "F8" => Some(F8)
        case "F9" => Some(F9)
        case "F10" => Some(F10)
        case "F11" => Some(F11)
        case "F12" => Some(F12)
        case "F13" => Some(F13)
        case "F14" => Some(F14)
        case "F15" => Some(F15)
        case "F16" => Some(F16)
        case "F17" => Some(F17)
        case "F18" => Some(F18)
        case "F19" => Some(F19)
        case "F20" => Some(F20)
        case "F21" => Some(F21)
        case "F22" => Some(F22)
        case "F23" => Some(F23)
        case "F24" => Some(F24)
        case "F25" => Some(F25)
        case _ => None)
      case 'G' => (
        match s
        case "G" => Some(G)
        case "GraveAccent" => Some(GraveAccent)
        case _ => None)
      case 'H' => (
        match s
        case "H" => Some(H)
        case "Home" => Some(Home)
        case _ => None)
      case 'I' => (
        match s
        case "I" => Some(I)
        case "Insert" => Some(Insert)
        case _ => None)
      case 'J' => (
        match s
        case "J" => Some(J)
        case _ => None)
      case 'K' => (
        match s
        case "K" => Some(K)
        case "Kp0" => Some(Kp0)
        case "Kp1" => Some(Kp1)
        case "Kp2" => Some(Kp2)
        case "Kp3" => Some(Kp3)
        case "Kp4" => Some(Kp4)
        case "Kp5" => Some(Kp5)
        case "Kp6" => Some(Kp6)
        case "Kp7" => Some(Kp7)
        case "Kp8" => Some(Kp8)
        case "Kp9" => Some(Kp9)
        case "KpDecimal" => Some(KpDecimal)
        case "KpDivide" => Some(KpDivide)
        case "KpMultiply" => Some(KpMultiply)
        case "KpSubtract" => Some(KpSubtract)
        case "KpAdd" => Some(KpAdd)
        case "KpEnter" => Some(KpEnter)
        case "KpEqual" => Some(KpEqual)
        case _ => None)
      case 'L' => (
        match s
        case "L" => Some(L)
        case "LeftBracket" => Some(LeftBracket)
        case "Left" => Some(Left)
        case "LeftShift" => Some(LeftShift)
        case "LeftControl" => Some(LeftControl)
        case "LeftAlt" => Some(LeftAlt)
        case "LeftWin" => Some(LeftWin)
        case _ => None)
      case 'O' => (
        match s
        case "O" => Some(O)
        case _ => None)
      case 'Q' => (
        match s
        case "Q" => Some(Q)
        case _ => None)
      case 'R' => (
        match s
        case "R" => Some(R)
        case "RightBracket" => Some(RightBracket)
        case "Right" => Some(Right)
        case "RightShift" => Some(RightShift)
        case "RightControl" => Some(RightControl)
        case "RightAlt" => Some(RightAlt)
        case "RightWin" => Some(RightWin)
        case _ => None)
      case 'T' => (
        match s
        case "T" => Some(T)
        case "Tab" => Some(Tab)
        case _ => None)
      case 'U' => (
        match s
        case "U" => Some(U)
        case "Up" => Some(Up)
        case _ => None)
      case 'V' => (
        match s
        case "V" => Some(V)
        case _ => None)
      case 'W' => (
        match s
        case "W" => Some(W)
        case "World1" => Some(World1)
        case "World2" => Some(World2)
        case _ => None)
      case 'X' => (
        match s
        case "X" => Some(X)
        case _ => None)
      case 'Y' => (
        match s
        case "Y" => Some(Y)
        case _ => None)
      case 'Z' => (
        match s
        case "Z" => Some(Z)
        case _ => None)
      case _ => None
  }

  /** Reading a symbol name back gives the key: no two keys share a symbol name. */
  lemma SymNameRoundTrip(k: Key)
    ensures KeyOfSym(SymName(k)) == Some(k)
  {
    var n := Ordinal(k);
    if n < 15 {
      SymNameRoundTripFrom0(k);
    } else if n < 30 {
      SymNameRoundTripFrom15(k);
    } else if n < 45 {
      SymNameRoundTripFrom30(k);
    } else if n < 60 {
      SymNameRoundTripFrom45(k);
    } else if n < 75 {
      SymNameRoundTripFrom60(k);
    } else if n < 90 {
      SymNameRoundTripFrom75(k);
    } else if n < 105 {
      SymNameRoundTripFrom90(k);
    } else {
      SymNameRoundTripFrom105(k);
    }
  }

  lemma SymNameInjective(j: Key, k: Key)
    ensures SymName(j) == SymName(k) <==> j == k
  {
    SymNameRoundTrip(j);
    SymNameRoundTrip(k);
  }


  // ---------------------------------------------------------------- Modifiers

  /** `Modifiers`: which of Shift, Control, Alt and the Windows key are held. */
  datatype Modifiers = Modifiers(shift: bool, control: bool, alt: bool, win: bool)

  /** `Modifiers::with`. */
  function With(shift: bool, control: bool, alt: bool, win: bool): (m: Modifiers)
    ensures m.shift == shift && m.control == control && m.alt == alt && m.win == win
  {
    Modifiers(shift, control, alt, win)
  }

  /** `Modifiers::new` and `Modifiers::none`. */
  function NoModifiers(): (m: Modifiers)
    ensures !m.shift && !m.control && !m.alt && !m.win
  {
    With(false, false, false, false)
  }

  function ShiftOnly(): (m: Modifiers)
    ensures m.shift && !m.control && !m.alt && !m.win
  {
    With(true, false, false, false)
  }

  function ControlOnly(): (m: Modifiers)
    ensures !m.shift && m.control && !m.alt && !m.win
  {
    With(false, true, false, false)
  }

  function AltOnly(): (m: Modifiers)
    ensures !m.shift && !m.control && m.alt && !m.win
  {
    With(false, false, true, false)
  }

  function WinOnly(): (m: Modifiers)
    ensures !m.shift && !m.control && !m.alt && m.win
  {
    With(false, false, false, true)
  }

  function CtrlAlt(): (m: Modifiers)
    ensures !m.shift && m.control && m.alt && !m.win
  {
    With(false, true, true, false)
  }

  function CtrlShift(): (m: Modifiers)
    ensures m.shift && m.control && !m.alt && !m.win
  {
    With(true, true, false, false)
  }

  function AltShift(): (m: Modifiers)
    ensures m.shift && !m.control && m.alt && !m.win
  {
    With(true, false, true, false)
  }

  /** The four marks a modifier string uses, for Shift, Control, Alt and Windows in that order. */
  datatype Marks = Marks(shift: char, control: char, alt: char, win: char) {
    predicate Distinct() {
      shift != control && shift != alt && shift != win
      && control != alt && control != win && alt != win
    }
  }

  /** The marks of `to_string`. */
  const Letters := Marks('S', 'C', 'A', 'W')

  /** The marks of `to_string_alt`. */
  const Symbols := Marks('⇧', '^', '!', '#')

  function Flag(on: bool, c: char): seq<char> {
    if on then [c] else []
  }

  /** The string of a modifier set: the marks of the held keys, in the fixed order. */
  function FlagString(m: Modifiers, marks: Marks): string {
    Flag(m.shift, marks.shift) + Flag(m.control, marks.control)
      + Flag(m.alt, marks.alt) + Flag(m.win, marks.win)
  }

  function Count(b: bool): nat { if b then 1 else 0 }

  /** The number of held modifiers. */
  function Held(m: Modifiers): nat {
    Count(m.shift) + Count(m.control) + Count(m.alt) + Count(m.win)
  }

  /** Reads a modifier set back from its string. */
  function ModifiersOf(s: string, marks: Marks): Modifiers {
    Modifiers(marks.shift in s, marks.control in s, marks.alt in s, marks.win in s)
  }

  /**
   * With distinct marks the string has one mark per held modifier, is empty
   * exactly when none is held, and determines the modifier set.
   */
  lemma FlagStringDecodes(m: Modifiers, marks: Marks)
    requires marks.Distinct()
    ensures |FlagString(m, marks)| == Held(m)
    ensures FlagString(m, marks) == [] <==> m == NoModifiers()
    ensures ModifiersOf(FlagString(m, marks), marks) == m
  {
    var s := FlagString(m, marks);
    assert marks.shift in s <==> m.shift;
    assert marks.control in s <==> m.control;
    assert marks.alt in s <==> m.alt;
    assert marks.win in s <==> m.win;
  }

  lemma MarksDistinct()
    ensures Letters.Distinct() && Symbols.Distinct()
  {
  }

  /** Both strings put the mark of each held modifier at the same position. */
  lemma StringsAlign(m: Modifiers, i: nat)
    requires i < |FlagString(m, Letters)|
    ensures |FlagString(m, Symbols)| == |FlagString(m, Letters)|
    ensures FlagString(m, Letters)[i] == 'S' <==> FlagString(m, Symbols)[i] == '⇧'
    ensures FlagString(m, Letters)[i] == 'C' <==> FlagString(m, Symbols)[i] == '^'
    ensures FlagString(m, Letters)[i] == 'A' <==> FlagString(m, Symbols)[i] == '!'
    ensures FlagString(m, Letters)[i] == 'W' <==> FlagString(m, Symbols)[i] == '#'
  {
  }

  /** Builds the string of `m` by successive pushes, as `to_string` and `to_string_alt` do. */
  method PushFlags(m: Modifiers, marks: Marks) returns (s: string)
    ensures s == FlagString(m, marks)
  {
    s := "";
    if m.shift {
      s := s + [marks.shift];
    }
    if m.control {
      s := s + [marks.control];
    }
    if m.alt {
      s := s + [marks.alt];
    }
    if m.win {
      s := s + [marks.win];
    }
  }

  /** `Modifiers::to_string`: 'S', 'C', 'A', 'W'. */
  method ToString(m: Modifiers) returns (s: string)
    ensures s == FlagString(m, Letters)
    ensures |s| == Held(m) && ModifiersOf(s, Letters) == m
  {
    s := PushFlags(m, Letters);
    FlagStringDecodes(m, Letters);
  }

  /** `Modifiers::to_string_alt`: '⇧', '^', '!', '#'. */
  method ToStringAlt(m: Modifiers) returns (s: string)
    ensures s == FlagString(m, Symbols)
    ensures |s| == Held(m) && ModifiersOf(s, Symbols) == m
  {
    s := PushFlags(m, Symbols);
    FlagStringDecodes(m, Symbols);
  }

  /** The GLFW modifier bits: Shift 1, Control 2, Alt 4, Super 8. */
  const GLFW_MOD_SHIFT: bv8 := 0x1
  const GLFW_MOD_CONTROL: bv8 := 0x2
  const GLFW_MOD_ALT: bv8 := 0x4
  const GLFW_MOD_SUPER: bv8 := 0x8

  /** `Modifiers::from_glfw`: a flag is held when its bit is set. */
  function FromGlfwMods(bits: bv8): (m: Modifiers)
    ensures m.shift == (bits & GLFW_MOD_SHIFT != 0)
    ensures m.control == (bits & GLFW_MOD_CONTROL != 0)
    ensures m.alt == (bits & GLFW_MOD_ALT != 0)
    ensures m.win == (bits & GLFW_MOD_SUPER != 0)
  {
    Modifiers(bits & GLFW_MOD_SHIFT != 0, bits & GLFW_MOD_CONTROL != 0,
      bits & GLFW_MOD_ALT != 0, bits & GLFW_MOD_SUPER != 0)
  }

  /** Only the four modifier bits matter, and each maps to its own flag. */
  lemma FromGlfwModsLowBits(bits: bv8)
    ensures FromGlfwMods(bits) == FromGlfwMods(bits & 0xF)
    ensures FromGlfwMods(0) == NoModifiers()
    ensures FromGlfwMods(GLFW_MOD_CONTROL | GLFW_MOD_ALT) == CtrlAlt()
  {
  }

  // ---------------------------------------------------------------- Per-position case splits

  // The lemmas below only discharge the key tables one declaration position
  // at a time, which is far cheaper for the verifier than a single case split
  // over all 120 keys. NamesAt<n> states, for the key at position n, that its
  // symbol name reads back to it and, for a letter or a digit, its display
  // name; SymNameRoundTripFrom<g> covers positions g to g+14. They serve
  // SymNameRoundTrip, DisplayNameOfLetter and DisplayNameOfDigit above.

  lemma NamesAt0(k: Key)
    requires Ordinal(k) == 0
    ensures KeyOfSym(SymName(k)) == Some(k)
  {
  }

  lemma NamesAt1(k: Key)
    requires Ordinal(k) == 1
    ensures KeyOfSym(SymName(k)) == Some(k)
  {
  }

  lemma NamesAt2(k: Key)
    requires Ordinal(k) == 2
    ensures KeyOfSym(SymName(k)) == Some(k)
  {
  }

  lemma NamesAt3(k: Key)
    requires Ordinal(k) == 3
    ensures KeyOfSym(SymName(k)) == Some(k)
  {
  }

  lemma NamesAt4(k: Key)
    requires Ordinal(k) == 4
    ensures KeyOfSym(SymName(k)) == Some(k)
  {
  }

  lemma NamesAt5(k: Key)
    requires Ordinal(k) == 5
    ensures KeyOfSym(SymName(k)) == Some(k)
  {
  }

  lemma NamesAt6(k: Key)
    requires Ordinal(k) == 6
    ensures KeyOfSym(SymName(k)) == Some(k)
    ensures DisplayName(k) == "0"
  {
  }

  lemma NamesAt7(k: Key)
    requires Ordinal(k) == 7
    ensures KeyOfSym(SymName(k)) == Some(k)
    ensures DisplayName(k) == "1"
  {
  }

  lemma NamesAt8(k: Key)
    requires Ordinal(k) == 8
    ensures KeyOfSym(SymName(k)) == Some(k)
    ensures DisplayName(k) == "2"
  {
  }

  lemma NamesAt9(k: Key)
    requires Ordinal(k) == 9
    ensures KeyOfSym(SymName(k)) == Some(k)
    ensures DisplayName(k) == "3"
  {
  }

  lemma NamesAt10(k: Key)
    requires Ordinal(k) == 10
    ensures KeyOfSym(SymName(k)) == Some(k)
    ensures DisplayName(k) == "4"
  {
  }

  lemma NamesAt11(k: Key)
    requires Ordinal(k) == 11
    ensures KeyOfSym(SymName(k)) == Some(k)
    ensures DisplayName(k) == "5"
  {
  }

  lemma NamesAt12(k: Key)
    requires Ordinal(k) == 12
    ensures KeyOfSym(SymName(k)) == Some(k)
    ensures DisplayName(k) == "6"
  {
  }

  lemma NamesAt13(k: Key)
    requires Ordinal(k) == 13
    ensures KeyOfSym(SymName(k)) == Some(k)
    ensures DisplayName(k) == "7"
  {
  }

  lemma NamesAt14(k: Key)
    requires Ordinal(k) == 14
    ensures KeyOfSym(SymName(k)) == Some(k)
    ensures DisplayName(k) == "8"
  {
  }

  lemma NamesAt15(k: Key)
    requires Ordinal(k) == 15
    ensures KeyOfSym(SymName(k)) == Some(k)
    ensures DisplayName(k) == "9"
  {
  }

  lemma NamesAt16(k: Key)
    requires Ordinal(k) == 16
    ensures KeyOfSym(SymName(k)) == Some(k)
  {
  }

  lemma NamesAt17(k: Key)
    requires Ordinal(k) == 17
    ensures KeyOfSym(SymName(k)) == Some(k)
  {
  }

  lemma NamesAt18(k: Key)
    requires Ordinal(k) == 18
    ensures KeyOfSym(SymName(k)) == Some(k)
    ensures DisplayName(k) == "A"
  {
  }

  lemma NamesAt19(k: Key)
    requires Ordinal(k) == 19
    ensures KeyOfSym(SymName(k)) == Some(k)
    ensures DisplayName(k) == "B"
  {
  }

  lemma NamesAt20(k: Key)
    requires Ordinal(k) == 20
    ensures KeyOfSym(SymName(k)) == Some(k)
    ensures DisplayName(k) == "C"
  {
  }

  lemma NamesAt21(k: Key)
    requires Ordinal(k) == 21
    ensures KeyOfSym(SymName(k)) == Some(k)
    ensures DisplayName(k) == "D"
  {
  }

  lemma NamesAt22(k: Key)
    requires Ordinal(k) == 22
    ensures KeyOfSym(SymName(k)) == Some(k)
    ensures DisplayName(k) == "E"
  {
  }

  lemma NamesAt23(k: Key)
    requires Ordinal(k) == 23
    ensures KeyOfSym(SymName(k)) == Some(k)
    ensures DisplayName(k) == "F"
  {
  }

  lemma NamesAt24(k: Key)
    requires Ordinal(k) == 24
    ensures KeyOfSym(SymName(k)) == Some(k)
    ensures DisplayName(k) == "G"
  {
  }

  lemma NamesAt25(k: Key)
    requires Ordinal(k) == 25
    ensures KeyOfSym(SymName(k)) == Some(k)
    ensures DisplayName(k) == "H"
  {
  }

  lemma NamesAt26(k: Key)
    requires Ordinal(k) == 26
    ensures KeyOfSym(SymName(k)) == Some(k)
    ensures DisplayName(k) == "I"
  {
  }

  lemma NamesAt27(k: Key)
    requires Ordinal(k) == 27
    ensures KeyOfSym(SymName(k)) == Some(k)
    ensures DisplayName(k) == "J"
  {
  }

  lemma NamesAt28(k: Key)
    requires Ordinal(k) == 28
    ensures KeyOfSym(SymName(k)) == Some(k)
    ensures DisplayName(k) == "K"
  {
  }

  lemma NamesAt29(k: Key)
    requires Ordinal(k) == 29
    ensures KeyOfSym(SymName(k)) == Some(k)
    ensures DisplayName(k) == "L"
  {
  }

  lemma NamesAt30(k: Key)
    requires Ordinal(k) == 30
    ensures KeyOfSym(SymName(k)) == Some(k)
    ensures DisplayName(k) == "M"
  {
  }

  lemma NamesAt31(k: Key)
    requires Ordinal(k) == 31
    ensures KeyOfSym(SymName(k)) == Some(k)
    ensures DisplayName(k) == "N"
  {
  }

  lemma NamesAt32(k: Key)
    requires Ordinal(k) == 32
    ensures KeyOfSym(SymName(k)) == Some(k)
    ensures DisplayName(k) == "O"
  {
  }

  lemma NamesAt33(k: Key)
    requires Ordinal(k) == 33
    ensures KeyOfSym(SymName(k)) == Some(k)
    ensures DisplayName(k) == "P"
  {
  }

  lemma NamesAt34(k: Key)
    requires Ordinal(k) == 34
    ensures KeyOfSym(SymName(k)) == Some(k)
    ensures DisplayName(k) == "Q"
  {
  }

  lemma NamesAt35(k: Key)
    requires Ordinal(k) == 35
    ensures KeyOfSym(SymName(k)) == Some(k)
    ensures DisplayName(k) == "R"
  {
  }

  lemma NamesAt36(k: Key)
    requires Ordinal(k) == 36
    ensures KeyOfSym(SymName(k)) == Some(k)
    ensures DisplayName(k) == "S"
  {
  }

  lemma NamesAt37(k: Key)
    requires Ordinal(k) == 37
    ensures KeyOfSym(SymName(k)) == Some(k)
    ensures DisplayName(k) == "T"
  {
  }

  lemma NamesAt38(k: Key)
    requires Ordinal(k) == 38
    ensures KeyOfSym(SymName(k)) == Some(k)
    ensures DisplayName(k) == "U"
  {
  }

  lemma NamesAt39(k: Key)
    requires Ordinal(k) == 39
    ensures KeyOfSym(SymName(k)) == Some(k)
    ensures DisplayName(k) == "V"
  {
  }

  lemma NamesAt40(k: Key)
    requires Ordinal(k) == 40
    ensures KeyOfSym(SymName(k)) == Some(k)
    ensures DisplayName(k) == "W"
  {
  }

  lemma NamesAt41(k: Key)
    requires Ordinal(k) == 41
    ensures KeyOfSym(SymName(k)) == Some(k)
    ensures DisplayName(k) == "X"
  {
  }

  lemma NamesAt42(k: Key)
    requires Ordinal(k) == 42
    ensures KeyOfSym(SymName(k)) == Some(k)
    ensures DisplayName(k) == "Y"
  {
  }

  lemma NamesAt43(k: Key)
    requires Ordinal(k) == 43
    ensures KeyOfSym(SymName(k)) == Some(k)
    ensures DisplayName(k) == "Z"
  {
  }

  lemma NamesAt44(k: Key)
    requires Ordinal(k) == 44
    ensures KeyOfSym(SymName(k)) == Some(k)
  {
  }

  lemma NamesAt45(k: Key)
    requires Ordinal(k) == 45
    ensures KeyOfSym(SymName(k)) == Some(k)
  {
  }

  lemma NamesAt46(k: Key)
    requires Ordinal(k) == 46
    ensures KeyOfSym(SymName(k)) == Some(k)
  {
  }

  lemma NamesAt47(k: Key)
    requires Ordinal(k) == 47
    ensures KeyOfSym(SymName(k)) == Some(k)
  {
  }

  lemma NamesAt48(k: Key)
    requires Ordinal(k) == 48
    ensures KeyOfSym(SymName(k)) == Some(k)
  {
  }

  lemma NamesAt49(k: Key)
    requires Ordinal(k) == 49
    ensures KeyOfSym(SymName(k)) == Some(k)
  {
  }

  lemma NamesAt50(k: Key)
    requires Ordinal(k) == 50
    ensures KeyOfSym(SymName(k)) == Some(k)
  {
  }

  lemma NamesAt51(k: Key)
    requires Ordinal(k) == 51
    ensures KeyOfSym(SymName(k)) == Some(k)
  {
  }

  lemma NamesAt52(k: Key)
    requires Ordinal(k) == 52
    ensures KeyOfSym(SymName(k)) == Some(k)
  {
  }

  lemma NamesAt53(k: Key)
    requires Ordinal(k) == 53
    ensures KeyOfSym(SymName(k)) == Some(k)
  {
  }

  lemma NamesAt54(k: Key)
    requires Ordinal(k) == 54
    ensures KeyOfSym(SymName(k)) == Some(k)
  {
  }

  lemma NamesAt55(k: Key)
    requires Ordinal(k) == 55
    ensures KeyOfSym(SymName(k)) == Some(k)
  {
  }

  lemma NamesAt56(k: Key)
    requires Ordinal(k) == 56
    ensures KeyOfSym(SymName(k)) == Some(k)
  {
  }

  lemma NamesAt57(k: Key)
    requires Ordinal(k) == 57
    ensures KeyOfSym(SymName(k)) == Some(k)
  {
  }

  lemma NamesAt58(k: Key)
    requires Ordinal(k) == 58
    ensures KeyOfSym(SymName(k)) == Some(k)
  {
  }

  lemma NamesAt59(k: Key)
    requires Ordinal(k) == 59
    ensures KeyOfSym(SymName(k)) == Some(k)
  {
  }

  lemma NamesAt60(k: Key)
    requires Ordinal(k) == 60
    ensures KeyOfSym(SymName(k)) == Some(k)
  {
  }

  lemma NamesAt61(k: Key)
    requires Ordinal(k) == 61
    ensures KeyOfSym(SymName(k)) == Some(k)
  {
  }

  lemma NamesAt62(k: Key)
    requires Ordinal(k) == 62
    ensures KeyOfSym(SymName(k)) == Some(k)
  {
  }

  lemma NamesAt63(k: Key)
    requires Ordinal(k) == 63
    ensures KeyOfSym(SymName(k)) == Some(k)
  {
  }

  lemma NamesAt64(k: Key)
    requires Ordinal(k) == 64
    ensures KeyOfSym(SymName(k)) == Some(k)
  {
  }

  lemma NamesAt65(k: Key)
    requires Ordinal(k) == 65
    ensures KeyOfSym(SymName(k)) == Some(k)
  {
  }

  lemma NamesAt66(k: Key)
    requires Ordinal(k) == 66
    ensures KeyOfSym(SymName(k)) == Some(k)
  {
  }

  lemma NamesAt67(k: Key)
    requires Ordinal(k) == 67
    ensures KeyOfSym(SymName(k)) == Some(k)
  {
  }

  lemma NamesAt68(k: Key)
    requires Ordinal(k) == 68
    ensures KeyOfSym(SymName(k)) == Some(k)
  {
  }

  lemma NamesAt69(k: Key)
    requires Ordinal(k) == 69
    ensures KeyOfSym(SymName(k)) == Some(k)
  {
  }

  lemma NamesAt70(k: Key)
    requires Ordinal(k) == 70
    ensures KeyOfSym(SymName(k)) == Some(k)
  {
  }

  lemma NamesAt71(k: Key)
    requires Ordinal(k) == 71
    ensures KeyOfSym(SymName(k)) == Some(k)
  {
  }

  lemma NamesAt72(k: Key)
    requires Ordinal(k) == 72
    ensures KeyOfSym(SymName(k)) == Some(k)
  {
  }

  lemma NamesAt73(k: Key)
    requires Ordinal(k) == 73
    ensures KeyOfSym(SymName(k)) == Some(k)
  {
  }

  lemma NamesAt74(k: Key)
    requires Ordinal(k) == 74
    ensures KeyOfSym(SymName(k)) == Some(k)
  {
  }

  lemma NamesAt75(k: Key)
    requires Ordinal(k) == 75
    ensures KeyOfSym(SymName(k)) == Some(k)
  {
  }

  lemma NamesAt76(k: Key)
    requires Ordinal(k) == 76
    ensures KeyOfSym(SymName(k)) == Some(k)
  {
  }

  lemma NamesAt77(k: Key)
    requires Ordinal(k) == 77
    ensures KeyOfSym(SymName(k)) == Some(k)
  {
  }

  lemma NamesAt78(k: Key)
    requires Ordinal(k) == 78
    ensures KeyOfSym(SymName(k)) == Some(k)
  {
  }

  lemma NamesAt79(k: Key)
    requires Ordinal(k) == 79
    ensures KeyOfSym(SymName(k)) == Some(k)
  {
  }

  lemma NamesAt80(k: Key)
    requires Ordinal(k) == 80
    ensures KeyOfSym(SymName(k)) == Some(k)
  {
  }

  lemma NamesAt81(k: Key)
    requires Ordinal(k) == 81
    ensures KeyOfSym(SymName(k)) == Some(k)
  {
  }

  lemma NamesAt82(k: Key)
    requires Ordinal(k) == 82
    ensures KeyOfSym(SymName(k)) == Some(k)
  {
  }

  lemma NamesAt83(k: Key)
    requires Ordinal(k) == 83
    ensures KeyOfSym(SymName(k)) == Some(k)
  {
  }

  lemma NamesAt84(k: Key)
    requires Ordinal(k) == 84
    ensures KeyOfSym(SymName(k)) == Some(k)
  {
  }

  lemma NamesAt85(k: Key)
    requires Ordinal(k) == 85
    ensures KeyOfSym(SymName(k)) == Some(k)
  {
  }

  lemma NamesAt86(k: Key)
    requires Ordinal(k) == 86
    ensures KeyOfSym(SymName(k)) == Some(k)
  {
  }

  lemma NamesAt87(k: Key)
    requires Ordinal(k) == 87
    ensures KeyOfSym(SymName(k)) == Some(k)
  {
  }

  lemma NamesAt88(k: Key)
    requires Ordinal(k) == 88
    ensures KeyOfSym(SymName(k)) == Some(k)
  {
  }

  lemma NamesAt89(k: Key)
    requires Ordinal(k) == 89
    ensures KeyOfSym(SymName(k)) == Some(k)
  {
  }

  lemma NamesAt90(k: Key)
    requires Ordinal(k) == 90
    ensures KeyOfSym(SymName(k)) == Some(k)
  {
  }

  lemma NamesAt91(k: Key)
    requires Ordinal(k) == 91
    ensures KeyOfSym(SymName(k)) == Some(k)
  {
  }

  lemma NamesAt92(k: Key)
    requires Ordinal(k) == 92
    ensures KeyOfSym(SymName(k)) == Some(k)
  {
  }

  lemma NamesAt93(k: Key)
    requires Ordinal(k) == 93
    ensures KeyOfSym(SymName(k)) == Some(k)
  {
  }

  lemma NamesAt94(k: Key)
    requires Ordinal(k) == 94
    ensures KeyOfSym(SymName(k)) == Some(k)
  {
  }

  lemma NamesAt95(k: Key)
    requires Ordinal(k) == 95
    ensures KeyOfSym(SymName(k)) == Some(k)
  {
  }

  lemma NamesAt96(k: Key)
    requires Ordinal(k) == 96
    ensures KeyOfSym(SymName(k)) == Some(k)
  {
  }

  lemma NamesAt97(k: Key)
    requires Ordinal(k) == 97
    ensures KeyOfSym(SymName(k)) == Some(k)
  {
  }

  lemma NamesAt98(k: Key)
    requires Ordinal(k) == 98
    ensures KeyOfSym(SymName(k)) == Some(k)
  {
  }

  lemma NamesAt99(k: Key)
    requires Ordinal(k) == 99
    ensures KeyOfSym(SymName(k)) == Some(k)
  {
  }

  lemma NamesAt100(k: Key)
    requires Ordinal(k) == 100
    ensures KeyOfSym(SymName(k)) == Some(k)
  {
  }

  lemma NamesAt101(k: Key)
    requires Ordinal(k) == 101
    ensures KeyOfSym(SymName(k)) == Some(k)
  {
  }

  lemma NamesAt102(k: Key)
    requires Ordinal(k) == 102
    ensures KeyOfSym(SymName(k)) == Some(k)
  {
  }

  lemma NamesAt103(k: Key)
    requires Ordinal(k) == 103
    ensures KeyOfSym(SymName(k)) == Some(k)
  {
  }

  lemma NamesAt104(k: Key)
    requires Ordinal(k) == 104
    ensures KeyOfSym(SymName(k)) == Some(k)
  {
  }

  lemma NamesAt105(k: Key)
    requires Ordinal(k) == 105
    ensures KeyOfSym(SymName(k)) == Some(k)
  {
  }

  lemma NamesAt106(k: Key)
    requires Ordinal(k) == 106
    ensures KeyOfSym(SymName(k)) == Some(k)
  {
  }

  lemma NamesAt107(k: Key)
    requires Ordinal(k) == 107
    ensures KeyOfSym(SymName(k)) == Some(k)
  {
  }

  lemma NamesAt108(k: Key)
    requires Ordinal(k) == 108
    ensures KeyOfSym(SymName(k)) == Some(k)
  {
  }

  lemma NamesAt109(k: Key)
    requires Ordinal(k) == 109
    ensures KeyOfSym(SymName(k)) == Some(k)
  {
  }

  lemma NamesAt110(k: Key)
    requires Ordinal(k) == 110
    ensures KeyOfSym(SymName(k)) == Some(k)
  {
  }

  lemma NamesAt111(k: Key)
    requires Ordinal(k) == 111
    ensures KeyOfSym(SymName(k)) == Some(k)
  {
  }

  lemma NamesAt112(k: Key)
    requires Ordinal(k) == 112
    ensures KeyOfSym(SymName(k)) == Some(k)
  {
  }

  lemma NamesAt113(k: Key)
    requires Ordinal(k) == 113
    ensures KeyOfSym(SymName(k)) == Some(k)
  {
  }

  lemma NamesAt114(k: Key)
    requires Ordinal(k) == 114
    ensures KeyOfSym(SymName(k)) == Some(k)
  {
  }

  lemma NamesAt115(k: Key)
    requires Ordinal(k) == 115
    ensures KeyOfSym(SymName(k)) == Some(k)
  {
  }

  lemma NamesAt116(k: Key)
    requires Ordinal(k) == 116
    ensures KeyOfSym(SymName(k)) == Some(k)
  {
  }

  lemma NamesAt117(k: Key)
    requires Ordinal(k) == 117
    ensures KeyOfSym(SymName(k)) == Some(k)
  {
  }

  lemma NamesAt118(k: Key)
    requires Ordinal(k) == 118
    ensures KeyOfSym(SymName(k)) == Some(k)
  {
  }

  lemma NamesAt119(k: Key)
    requires Ordinal(k) == 119
    ensures KeyOfSym(SymName(k)) == Some(k)
  {
  }

  lemma SymNameRoundTripFrom0(k: Key)
    requires 0 <= Ordinal(k) < 15
    ensures KeyOfSym(SymName(k)) == Some(k)
  {
    var n := Ordinal(k);
    if n == 0 {
      NamesAt0(k);
    } else if n == 1 {
      NamesAt1(k);
    } else if n == 2 {
      NamesAt2(k);
    } else if n == 3 {
      NamesAt3(k);
    } else if n == 4 {
      NamesAt4(k);
    } else if n == 5 {
      NamesAt5(k);
    } else if n == 6 {
      NamesAt6(k);
    } else if n == 7 {
      NamesAt7(k);
    } else if n == 8 {
      NamesAt8(k);
    } else if n == 9 {
      NamesAt9(k);
    } else if n == 10 {
      NamesAt10(k);
    } else if n == 11 {
      NamesAt11(k);
    } else if n == 12 {
      NamesAt12(k);
    } else if n == 13 {
      NamesAt13(k);
    } else {
      NamesAt14(k);
    }
  }

  lemma SymNameRoundTripFrom15(k: Key)
    requires 15 <= Ordinal(k) < 30
    ensures KeyOfSym(SymName(k)) == Some(k)
  {
    var n := Ordinal(k);
    if n == 15 {
      NamesAt15(k);
    } else if n == 16 {
      NamesAt16(k);
    } else if n == 17 {
      NamesAt17(k);
    } else if n == 18 {
      NamesAt18(k);
    } else if n == 19 {
      NamesAt19(k);
    } else if n == 20 {
      NamesAt20(k);
    } else if n == 21 {
      NamesAt21(k);
    } else if n == 22 {
      NamesAt22(k);
    } else if n == 23 {
      NamesAt23(k);
    } else if n == 24 {
      NamesAt24(k);
    } else if n == 25 {
      NamesAt25(k);
    } else if n == 26 {
      NamesAt26(k);
    } else if n == 27 {
      NamesAt27(k);
    } else if n == 28 {
      NamesAt28(k);
    } else {
      NamesAt29(k);
    }
  }

  lemma SymNameRoundTripFrom30(k: Key)
    requires 30 <= Ordinal(k) < 45
    ensures KeyOfSym(SymName(k)) == Some(k)
  {
    var n := Ordinal(k);
    if n == 30 {
      NamesAt30(k);
    } else if n == 31 {
      NamesAt31(k);
    } else if n == 32 {
      NamesAt32(k);
    } else if n == 33 {
      NamesAt33(k);
    } else if n == 34 {
      NamesAt34(k);
    } else if n == 35 {
      NamesAt35(k);
    } else if n == 36 {
      NamesAt36(k);
    } else if n == 37 {
      NamesAt37(k);
    } else if n == 38 {
      NamesAt38(k);
    } else if n == 39 {
      NamesAt39(k);
    } else if n == 40 {
      NamesAt40(k);
    } else if n == 41 {
      NamesAt41(k);
    } else if n == 42 {
      NamesAt42(k);
    } else if n == 43 {
      NamesAt43(k);
    } else {
      NamesAt44(k);
    }
  }

  lemma SymNameRoundTripFrom45(k: Key)
    requires 45 <= Ordinal(k) < 60
    ensures KeyOfSym(SymName(k)) == Some(k)
  {
    var n := Ordinal(k);
    if n == 45 {
      NamesAt45(k);
    } else if n == 46 {
      NamesAt46(k);
    } else if n == 47 {
      NamesAt47(k);
    } else if n == 48 {
      NamesAt48(k);
    } else if n == 49 {
      NamesAt49(k);
    } else if n == 50 {
      NamesAt50(k);
    } else if n == 51 {
      NamesAt51(k);
    } else if n == 52 {
      NamesAt52(k);
    } else if n == 53 {
      NamesAt53(k);
    } else if n == 54 {
      NamesAt54(k);
    } else if n == 55 {
      NamesAt55(k);
    } else if n == 56 {
      NamesAt56(k);
    } else if n == 57 {
      NamesAt57(k);
    } else if n == 58 {
      NamesAt58(k);
    } else {
      NamesAt59(k);
    }
  }

  lemma SymNameRoundTripFrom60(k: Key)
    requires 60 <= Ordinal(k) < 75
    ensures KeyOfSym(SymName(k)) == Some(k)
  {
    var n := Ordinal(k);
    if n == 60 {
      NamesAt60(k);
    } else if n == 61 {
      NamesAt61(k);
    } else if n == 62 {
      NamesAt62(k);
    } else if n == 63 {
      NamesAt63(k);
    } else if n == 64 {
      NamesAt64(k);
    } else if n == 65 {
      NamesAt65(k);
    } else if n == 66 {
      NamesAt66(k);
    } else if n == 67 {
      NamesAt67(k);
    } else if n == 68 {
      NamesAt68(k);
    } else if n == 69 {
      NamesAt69(k);
    } else if n == 70 {
      NamesAt70(k);
    } else if n == 71 {
      NamesAt71(k);
    } else if n == 72 {
      NamesAt72(k);
    } else if n == 73 {
      NamesAt73(k);
    } else {
      NamesAt74(k);
    }
  }

  lemma SymNameRoundTripFrom75(k: Key)
    requires 75 <= Ordinal(k) < 90
    ensures KeyOfSym(SymName(k)) == Some(k)
  {
    var n := Ordinal(k);
    if n == 75 {
      NamesAt75(k);
    } else if n == 76 {
      NamesAt76(k);
    } else if n == 77 {
      NamesAt77(k);
    } else if n == 78 {
      NamesAt78(k);
    } else if n == 79 {
      NamesAt79(k);
    } else if n == 80 {
      NamesAt80(k);
    } else if n == 81 {
      NamesAt81(k);
    } else if n == 82 {
      NamesAt82(k);
    } else if n == 83 {
      NamesAt83(k);
    } else if n == 84 {
      NamesAt84(k);
    } else if n == 85 {
      NamesAt85(k);
    } else if n == 86 {
      NamesAt86(k);
    } else if n == 87 {
      NamesAt87(k);
    } else if n == 88 {
      NamesAt88(k);
    } else {
      NamesAt89(k);
    }
  }

  lemma SymNameRoundTripFrom90(k: Key)
    requires 90 <= Ordinal(k) < 105
    ensures KeyOfSym(SymName(k)) == Some(k)
  {
    var n := Ordinal(k);
    if n == 90 {
      NamesAt90(k);
    } else if n == 91 {
      NamesAt91(k);
    } else if n == 92 {
      NamesAt92(k);
    } else if n == 93 {
      NamesAt93(k);
    } else if n == 94 {
      NamesAt94(k);
    } else if n == 95 {
      NamesAt95(k);
    } else if n == 96 {
      NamesAt96(k);
    } else if n == 97 {
      NamesAt97(k);
    } else if n == 98 {
      NamesAt98(k);
    } else if n == 99 {
      NamesAt99(k);
    } else if n == 100 {
      NamesAt100(k);
    } else if n == 101 {
      NamesAt101(k);
    } else if n == 102 {
      NamesAt102(k);
    } else if n == 103 {
      NamesAt103(k);
    } else {
      NamesAt104(k);
    }
  }

  lemma SymNameRoundTripFrom105(k: Key)
    requires 105 <= Ordinal(k) < 120
    ensures KeyOfSym(SymName(k)) == Some(k)
  {
    var n := Ordinal(k);
    if n == 105 {
      NamesAt105(k);
    } else if n == 106 {
      NamesAt106(k);
    } else if n == 107 {
      NamesAt107(k);
    } else if n == 108 {
      NamesAt108(k);
    } else if n == 109 {
      NamesAt109(k);
    } else if n == 110 {
      NamesAt110(k);
    } else if n == 111 {
      NamesAt111(k);
    } else if n == 112 {
      NamesAt112(k);
    } else if n == 113 {
      NamesAt113(k);
    } else if n == 114 {
      NamesAt114(k);
    } else if n == 115 {
      NamesAt115(k);
    } else if n == 116 {
      NamesAt116(k);
    } else if n == 117 {
      NamesAt117(k);
    } else if n == 118 {
      NamesAt118(k);
    } else {
      NamesAt119(k);
    }
  }
}
