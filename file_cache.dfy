/** A directory of cache files, keyed by file identity.  A file either parses
    (it holds a value) or it exists but cannot be read back (it is corrupt);
    a key that is absent means the file does not exist. */
module FileCache {

  datatype Entry<T> = Readable(value: T) | Unreadable

  class Store<K(==), T> {
    var files: map<K, Entry<T>>

    constructor ()
      ensures files == map[]
    {
      files := map[];
    }

    /** True when the file for `key` exists and parses. */
    predicate HasReadable(key: K)
      reads this
    {
      key in files && files[key].Readable?
    }
  }
}
