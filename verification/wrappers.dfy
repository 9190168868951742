/** The optional value used wherever the bot's code tests a reference for null. */
module Wrappers {

  datatype Option<+T> = None | Some(value: T)
}
