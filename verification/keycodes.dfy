/** The key codes a configuration file may name, and the table from names to
    key codes (`KEYCODES` in src/config_read.rs). */
module KeyCodes {
  import opened Results

  /** One variant per entry of the name table, in table order. */
  datatype KeyCode =
    Key1 | Key2 | Key3 | Key4 | Key5 | Key6 | Key7 | Key8 | Key9 | Key0 | A | B | C | D |
    E | F | G | H | I | J | K | L | M | N | O | P | Q | R | S | T | U | V | W | X | Y | Z |
    Escape | F1 | F2 | F3 | F4 | F5 | F6 | F7 | F8 | F9 | F10 | F11 | F12 | F13 | F14 |
    F15 | F16 | F17 | F18 | F19 | F20 | F21 | F22 | F23 | F24 | Snapshot | Scroll | Pause |
    Insert | Home | Delete | End | PageDown | PageUp | Left | Up | Right | Down | Back |
    Return | Space | Compose | Caret | Numlock | Numpad0 | Numpad1 | Numpad2 | Numpad3 |
    Numpad4 | Numpad5 | Numpad6 | Numpad7 | Numpad8 | Numpad9 | AbntC1 | AbntC2 |
    NumpadAdd | Apostrophe | Apps | Asterix | Plus | At | Ax | Backslash | Calculator |
    Capital | Colon | Comma | Convert | NumpadDecimal | NumpadDivide | Equals | Grave |
    Kana | Kanji | LAlt | LBracket | LControl | LShift | LWin | Mail | MediaSelect |
    MediaStop | Minus | NumpadMultiply | Mute | MyComputer | NavigateForward |
    NavigateBackward | NextTrack | NoConvert | NumpadComma | NumpadEnter | NumpadEquals |
    OEM102 | Period | PlayPause | Power | PrevTrack | RAlt | RBracket | RControl | RShift |
    RWin | Semicolon | Slash | Sleep | Stop | NumpadSubtract | Sysrq | Tab | Underline |
    Unlabeled | VolumeDown | VolumeUp | Wake | WebBack | WebFavorites | WebForward |
    WebHome | WebRefresh | WebSearch | WebStop | Yen | Copy | Paste | Cut

  /** The name table: each key code paired with its own identifier. The table
      is written in 8 rows of at most 21 entries, joined in order. */
  const KEYCODES: seq<(string, KeyCode)> :=
    ROW0 + ROW1 + ROW2 + ROW3 + ROW4 + ROW5 + ROW6 + ROW7

  const ROW0: seq<(string, KeyCode)> := [
    ("Key1", Key1), ("Key2", Key2), ("Key3", Key3), ("Key4", Key4), ("Key5", Key5),
    ("Key6", Key6), ("Key7", Key7), ("Key8", Key8), ("Key9", Key9), ("Key0", Key0),
    ("A", A), ("B", B), ("C", C), ("D", D), ("E", E), ("F", F), ("G", G), ("H", H),
    ("I", I), ("J", J), ("K", K)
  ]

  const ROW1: seq<(string, KeyCode)> := [
    ("L", L), ("M", M), ("N", N), ("O", O), ("P", P), ("Q", Q), ("R", R), ("S", S),
    ("T", T), ("U", U), ("V", V), ("W", W), ("X", X), ("Y", Y), ("Z", Z),
    ("Escape", Escape), ("F1", F1), ("F2", F2), ("F3", F3), ("F4", F4), ("F5", F5)
  ]

  const ROW2: seq<(string, KeyCode)> := [
    ("F6", F6), ("F7", F7), ("F8", F8), ("F9", F9), ("F10", F10), ("F11", F11),
    ("F12", F12), ("F13", F13), ("F14", F14), ("F15", F15), ("F16", F16), ("F17", F17),
    ("F18", F18), ("F19", F19), ("F20", F20), ("F21", F21), ("F22", F22), ("F23", F23),
    ("F24", F24), ("Snapshot", Snapshot), ("Scroll", Scroll)
  ]

  const ROW3: seq<(string, KeyCode)> := [
    ("Pause", Pause), ("Insert", Insert), ("Home", Home), ("Delete", Delete), ("End", End),
    ("PageDown", PageDown), ("PageUp", PageUp), ("Left", Left), ("Up", Up),
    ("Right", Right), ("Down", Down), ("Back", Back), ("Return", Return), ("Space", Space),
    ("Compose", Compose), ("Caret", Caret), ("Numlock", Numlock), ("Numpad0", Numpad0),
    ("Numpad1", Numpad1), ("Numpad2", Numpad2), ("Numpad3", Numpad3)
  ]

  const ROW4: seq<(string, KeyCode)> := [
    ("Numpad4", Numpad4), ("Numpad5", Numpad5), ("Numpad6", Numpad6), ("Numpad7", Numpad7),
    ("Numpad8", Numpad8), ("Numpad9", Numpad9), ("AbntC1", AbntC1), ("AbntC2", AbntC2),
    ("NumpadAdd", NumpadAdd), ("Apostrophe", Apostrophe), ("Apps", Apps),
    ("Asterix", Asterix), ("Plus", Plus), ("At", At), ("Ax", Ax), ("Backslash", Backslash),
    ("Calculator", Calculator), ("Capital", Capital), ("Colon", Colon), ("Comma", Comma),
    ("Convert", Convert)
  ]

  const ROW5: seq<(string, KeyCode)> := [
    ("NumpadDecimal", NumpadDecimal), ("NumpadDivide", NumpadDivide), ("Equals", Equals),
    ("Grave", Grave), ("Kana", Kana), ("Kanji", Kanji), ("LAlt", LAlt),
    ("LBracket", LBracket), ("LControl", LControl), ("LShift", LShift), ("LWin", LWin),
    ("Mail", Mail), ("MediaSelect", MediaSelect), ("MediaStop", MediaStop),
    ("Minus", Minus), ("NumpadMultiply", NumpadMultiply), ("Mute", Mute),
    ("MyComputer", MyComputer), ("NavigateForward", NavigateForward),
    ("NavigateBackward", NavigateBackward), ("NextTrack", NextTrack)
  ]

  const ROW6: seq<(string, KeyCode)> := [
    ("NoConvert", NoConvert), ("NumpadComma", NumpadComma), ("NumpadEnter", NumpadEnter),
    ("NumpadEquals", NumpadEquals), ("OEM102", OEM102), ("Period", Period),
    ("PlayPause", PlayPause), ("Power", Power), ("PrevTrack", PrevTrack), ("RAlt", RAlt),
    ("RBracket", RBracket), ("RControl", RControl), ("RShift", RShift), ("RWin", RWin),
    ("Semicolon", Semicolon), ("Slash", Slash), ("Sleep", Sleep), ("Stop", Stop),
    ("NumpadSubtract", NumpadSubtract), ("Sysrq", Sysrq), ("Tab", Tab)
  ]

  const ROW7: seq<(string, KeyCode)> := [
    ("Underline", Underline), ("Unlabeled", Unlabeled), ("VolumeDown", VolumeDown),
    ("VolumeUp", VolumeUp), ("Wake", Wake), ("WebBack", WebBack),
    ("WebFavorites", WebFavorites), ("WebForward", WebForward), ("WebHome", WebHome),
    ("WebRefresh", WebRefresh), ("WebSearch", WebSearch), ("WebStop", WebStop),
    ("Yen", Yen), ("Copy", Copy), ("Paste", Paste), ("Cut", Cut)
  ]

  /** A decision tree over the names of the table: it tests the length and then
      one distinguishing character at a time. It looks at no more of `s` than it
      needs to tell the table's names apart, so it is cheap to evaluate, and it
      serves to show that no name occurs twice in the table. */
  function Decode(s: string): Option<KeyCode>
  {
    if |s| == 1 then
      if s[0] == 'A' then
        Some(A)
      else if s[0] == 'B' then
        Some(B)
      else if s[0] == 'C' then
        Some(C)
      else if s[0] == 'D' then
        Some(D)
      else if s[0] == 'E' then
        Some(E)
      else if s[0] == 'F' then
        Some(F)
      else if s[0] == 'G' then
        Some(G)
      else if s[0] == 'H' then
        Some(H)
      else if s[0] == 'I' then
        Some(I)
      else if s[0] == 'J' then
        Some(J)
      else if s[0] == 'K' then
        Some(K)
      else if s[0] == 'L' then
        Some(L)
      else if s[0] == 'M' then
        Some(M)
      else if s[0] == 'N' then
        Some(N)
      else if s[0] == 'O' then
        Some(O)
      else if s[0] == 'P' then
        Some(P)
      else if s[0] == 'Q' then
        Some(Q)
      else if s[0] == 'R' then
        Some(R)
      else if s[0] == 'S' then
        Some(S)
      else if s[0] == 'T' then
        Some(T)
      else if s[0] == 'U' then
        Some(U)
      else if s[0] == 'V' then
        Some(V)
      else if s[0] == 'W' then
        Some(W)
      else if s[0] == 'X' then
        Some(X)
      else if s[0] == 'Y' then
        Some(Y)
      else if s[0] == 'Z' then
        Some(Z)
      else None
    else if |s| == 2 then
      if s[1] == '1' then
        Some(F1)
      else if s[1] == '2' then
        Some(F2)
      else if s[1] == '3' then
        Some(F3)
      else if s[1] == '4' then
        Some(F4)
      else if s[1] == '5' then
        Some(F5)
      else if s[1] == '6' then
        Some(F6)
      else if s[1] == '7' then
        Some(F7)
      else if s[1] == '8' then
        Some(F8)
      else if s[1] == '9' then
        Some(F9)
      else if s[1] == 'p' then
        Some(Up)
      else if s[1] == 't' then
        Some(At)
      else if s[1] == 'x' then
        Some(Ax)
      else None
    else if |s| == 3 then
      if s[2] == '0' then
        if s[1] == '1' then
          Some(F10)
        else if s[1] == '2' then
          Some(F20)
        else None
      else if s[2] == '1' then
        if s[1] == '1' then
          Some(F11)
        else if s[1] == '2' then
          Some(F21)
        else None
      else if s[2] == '2' then
        if s[1] == '1' then
          Some(F12)
        else if s[1] == '2' then
          Some(F22)
        else None
      else if s[2] == '3' then
        if s[1] == '1' then
          Some(F13)
        else if s[1] == '2' then
          Some(F23)
        else None
      else if s[2] == '4' then
        if s[1] == '1' then
          Some(F14)
        else if s[1] == '2' then
          Some(F24)
        else None
      else if s[2] == '5' then
        Some(F15)
      else if s[2] == '6' then
        Some(F16)
      else if s[2] == '7' then
        Some(F17)
      else if s[2] == '8' then
        Some(F18)
      else if s[2] == '9' then
        Some(F19)
      else if s[2] == 'b' then
        Some(Tab)
      else if s[2] == 'd' then
        Some(End)
      else if s[2] == 'n' then
        Some(Yen)
      else if s[2] == 't' then
        Some(Cut)
      else None
    else if |s| == 4 then
      if s[3] == '0' then
        Some(Key0)
      else if s[3] == '1' then
        Some(Key1)
      else if s[3] == '2' then
        Some(Key2)
      else if s[3] == '3' then
        Some(Key3)
      else if s[3] == '4' then
        Some(Key4)
      else if s[3] == '5' then
        Some(Key5)
      else if s[3] == '6' then
        Some(Key6)
      else if s[3] == '7' then
        Some(Key7)
      else if s[3] == '8' then
        Some(Key8)
      else if s[3] == '9' then
        Some(Key9)
      else if s[3] == 'a' then
        Some(Kana)
      else if s[3] == 'e' then
        if s[0] == 'H' then
          Some(Home)
        else if s[0] == 'M' then
          Some(Mute)
        else if s[0] == 'W' then
          Some(Wake)
        else None
      else if s[3] == 'k' then
        Some(Back)
      else if s[3] == 'l' then
        Some(Mail)
      else if s[3] == 'n' then
        if s[0] == 'D' then
          Some(Down)
        else if s[0] == 'L' then
          Some(LWin)
        else if s[0] == 'R' then
          Some(RWin)
        else None
      else if s[3] == 'p' then
        Some(Stop)
      else if s[3] == 's' then
        if s[0] == 'A' then
          Some(Apps)
        else if s[0] == 'P' then
          Some(Plus)
        else None
      else if s[3] == 't' then
        if s[0] == 'L' then
          if s[1] == 'A' then
            Some(LAlt)
          else if s[1] == 'e' then
            Some(Left)
          else None
        else if s[0] == 'R' then
          Some(RAlt)
        else None
      else if s[3] == 'y' then
        Some(Copy)
      else None
    else if |s| == 5 then
      if s[3] == 'c' then
        Some(Space)
      else if s[3] == 'e' then
        if s[0] == 'C' then
          Some(Caret)
        else if s[0] == 'P' then
          Some(Power)
        else if s[0] == 'S' then
          Some(Sleep)
        else None
      else if s[3] == 'h' then
        Some(Right)
      else if s[3] == 'j' then
        Some(Kanji)
      else if s[3] == 'm' then
        Some(Comma)
      else if s[3] == 'o' then
        Some(Colon)
      else if s[3] == 'r' then
        Some(Sysrq)
      else if s[3] == 's' then
        if s[0] == 'P' then
          Some(Pause)
        else if s[0] == 'S' then
          Some(Slash)
        else None
      else if s[3] == 't' then
        Some(Paste)
      else if s[3] == 'u' then
        Some(Minus)
      else if s[3] == 'v' then
        Some(Grave)
      else None
    else if |s| == 6 then
      if s[2] == 'M' then
        Some(OEM102)
      else if s[2] == 'c' then
        Some(Escape)
      else if s[2] == 'g' then
        Some(PageUp)
      else if s[2] == 'h' then
        if s[0] == 'L' then
          Some(LShift)
        else if s[0] == 'R' then
          Some(RShift)
        else None
      else if s[2] == 'l' then
        Some(Delete)
      else if s[2] == 'n' then
        if s[5] == '1' then
          Some(AbntC1)
        else if s[5] == '2' then
          Some(AbntC2)
        else None
      else if s[2] == 'r' then
        if s[0] == 'P' then
          Some(Period)
        else if s[0] == 'S' then
          Some(Scroll)
        else None
      else if s[2] == 's' then
        Some(Insert)
      else if s[2] == 't' then
        Some(Return)
      else if s[2] == 'u' then
        Some(Equals)
      else None
    else if |s| == 7 then
      if s[6] == '0' then
        Some(Numpad0)
      else if s[6] == '1' then
        Some(Numpad1)
      else if s[6] == '2' then
        Some(Numpad2)
      else if s[6] == '3' then
        Some(Numpad3)
      else if s[6] == '4' then
        Some(Numpad4)
      else if s[6] == '5' then
        Some(Numpad5)
      else if s[6] == '6' then
        Some(Numpad6)
      else if s[6] == '7' then
        Some(Numpad7)
      else if s[6] == '8' then
        Some(Numpad8)
      else if s[6] == '9' then
        Some(Numpad9)
      else if s[6] == 'e' then
        if s[0] == 'C' then
          Some(Compose)
        else if s[0] == 'W' then
          Some(WebHome)
        else None
      else if s[6] == 'k' then
        if s[0] == 'N' then
          Some(Numlock)
        else if s[0] == 'W' then
          Some(WebBack)
        else None
      else if s[6] == 'l' then
        Some(Capital)
      else if s[6] == 'p' then
        Some(WebStop)
      else if s[6] == 't' then
        Some(Convert)
      else if s[6] == 'x' then
        Some(Asterix)
      else None
    else if |s| == 8 then
      if s[0] == 'L' then
        if s[1] == 'B' then
          Some(LBracket)
        else if s[1] == 'C' then
          Some(LControl)
        else None
      else if s[0] == 'P' then
        Some(PageDown)
      else if s[0] == 'R' then
        if s[1] == 'B' then
          Some(RBracket)
        else if s[1] == 'C' then
          Some(RControl)
        else None
      else if s[0] == 'S' then
        Some(Snapshot)
      else if s[0] == 'V' then
        Some(VolumeUp)
      else None
    else if |s| == 9 then
      if s[3] == 'S' then
        Some(WebSearch)
      else if s[3] == 'a' then
        Some(Unlabeled)
      else if s[3] == 'e' then
        Some(Underline)
      else if s[3] == 'i' then
        if s[0] == 'M' then
          Some(MediaStop)
        else if s[0] == 'S' then
          Some(Semicolon)
        else None
      else if s[3] == 'k' then
        Some(Backslash)
      else if s[3] == 'o' then
        Some(NoConvert)
      else if s[3] == 'p' then
        Some(NumpadAdd)
      else if s[3] == 't' then
        Some(NextTrack)
      else if s[3] == 'v' then
        Some(PrevTrack)
      else if s[3] == 'y' then
        Some(PlayPause)
      else None
    else if |s| == 10 then
      if s[3] == 'F' then
        Some(WebForward)
      else if s[3] == 'R' then
        Some(WebRefresh)
      else if s[3] == 'c' then
        Some(Calculator)
      else if s[3] == 'o' then
        Some(MyComputer)
      else if s[3] == 's' then
        Some(Apostrophe)
      else if s[3] == 'u' then
        Some(VolumeDown)
      else None
    else if |s| == 11 then
      if s[6] == 'C' then
        Some(NumpadComma)
      else if s[6] == 'E' then
        Some(NumpadEnter)
      else if s[6] == 'e' then
        Some(MediaSelect)
      else None
    else if |s| == 12 then
      if s[6] == 'D' then
        Some(NumpadDivide)
      else if s[6] == 'E' then
        Some(NumpadEquals)
      else if s[6] == 'o' then
        Some(WebFavorites)
      else None
    else if |s| == 13 then
      Some(NumpadDecimal)
    else if |s| == 14 then
      if s[6] == 'M' then
        Some(NumpadMultiply)
      else if s[6] == 'S' then
        Some(NumpadSubtract)
      else None
    else if |s| == 15 then
      Some(NavigateForward)
    else if |s| == 16 then
      Some(NavigateBackward)
    else None
  }

  lemma DecodeRow0()
    ensures forall j | 0 <= j < |ROW0| :: Decode(ROW0[j].0) == Some(ROW0[j].1)
  {
  }

  lemma DecodeRow1()
    ensures forall j | 0 <= j < |ROW1| :: Decode(ROW1[j].0) == Some(ROW1[j].1)
  {
  }

  lemma DecodeRow2()
    ensures forall j | 0 <= j < |ROW2| :: Decode(ROW2[j].0) == Some(ROW2[j].1)
  {
  }

  lemma DecodeRow3()
    ensures forall j | 0 <= j < |ROW3| :: Decode(ROW3[j].0) == Some(ROW3[j].1)
  {
  }

  lemma DecodeRow4()
    ensures forall j | 0 <= j < |ROW4| :: Decode(ROW4[j].0) == Some(ROW4[j].1)
  {
  }

  lemma DecodeRow5()
    ensures forall j | 0 <= j < |ROW5| :: Decode(ROW5[j].0) == Some(ROW5[j].1)
  {
  }

  lemma DecodeRow6()
    ensures forall j | 0 <= j < |ROW6| :: Decode(ROW6[j].0) == Some(ROW6[j].1)
  {
  }

  lemma DecodeRow7()
    ensures forall j | 0 <= j < |ROW7| :: Decode(ROW7[j].0) == Some(ROW7[j].1)
  {
  }

  /** Every entry's name decodes to that entry's own key code. */
  lemma DecodeTable()
    ensures forall j | 0 <= j < |KEYCODES| :: Decode(KEYCODES[j].0) == Some(KEYCODES[j].1)
  {
    DecodeRow0();
    DecodeRow1();
    DecodeRow2();
    DecodeRow3();
    DecodeRow4();
    DecodeRow5();
    DecodeRow6();
    DecodeRow7();
  }
}
