/** The optional value used for the source's `goalPosition?` field and for
    React state initialised to `null`. */
module Optional {

  datatype Option<+T> = None | Some(value: T)
}
