/** The optional value the bot's helpers return where the source returns `null`. */
module Wrappers {

  datatype Option<+T> = None | Some(value: T)
}
