/** The key codes the core reacts to. Every other code the terminal can deliver
    (function keys, Tab, Esc, ...) is `Other`; the global quit keys are handled
    before the core sees a key and are not part of this model. */
module Keys {

  datatype Key = Left | Right | Up | Down | Enter | Backspace | Char(c: char) | Other
}
