/** The conventional Some/None wrapper, used for the optional fields of
    the form's error record and for lookups that may find nothing. */
module Optional {

  datatype Option<+T> = None | Some(value: T)

}
