/** Optional values: `None` stands for an absent JavaScript value; each use says which. */
module Optional {

  datatype Option<+T> = None | Some(value: T)
}
