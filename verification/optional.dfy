/** Generic optional value, used for the interval handle and for the sound
    an event may emit. */
module Optional {
  datatype Option<+T> = None | Some(value: T)
}
