/** The nullable pointers of the preference code (a `char *` that may be NULL,
    a lookup that may find nothing) are carried as an Option. */
module Options {
  datatype Option<+T> = None | Some(value: T)
}
