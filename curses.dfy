/** The ncurses key codes the programs compare `getch()` results with. */
module Curses {
  const KeyDown: int := 258
  const KeyUp: int := 259
  const KeyLeft: int := 260
  const KeyRight: int := 261
  const KeyHome: int := 262
  const KeyBackspace: int := 263
  const KeyDc: int := 330
  const KeyNPage: int := 338
  const KeyPPage: int := 339
  const KeyEnd: int := 360
}
