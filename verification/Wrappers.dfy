/** Result types shared by the models of the voice-assistant components. */
module Wrappers {
  datatype Option<+T> = None | Some(value: T)
}
