/** The part of a crossterm key event that the session and the pages look at. */
module Keys {

  /** Key codes; `OtherCode` stands for every code no handler of the model matches on. */
  datatype KeyCode = Char(c: char) | Esc | Enter | Left | Right | Up | Down | Tab | OtherCode

  datatype KeyKind = Press | Repeat | Release

  /** `ctrl` holds when the CONTROL bit is among the modifiers. */
  datatype Key = Key(code: KeyCode, ctrl: bool, kind: KeyKind)
}
