/** The usual optional value, standing for a Unity reference that may be unset. */
module Options {
  datatype Option<+T> = None | Some(value: T)
}
