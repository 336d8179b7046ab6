/** The per-user file system, as the library sees it. Each XDG directory the
    library uses (the colour-override data directory, its own config directory
    and GTK's config directory) is one `Directory`: a map from file name to
    file contents. Resolving the base directories, creating them, and the
    RON/TOML text formats are not modelled: a file written from a record reads
    back as that record, and a file that does not hold a readable record reads
    back as `Malformed`. */
module Storage {
  import opened Wrappers

  /** The contents of a record file (RON or TOML) once deserialised. */
  datatype Document<T> = Parsed(value: T) | Malformed

  class Directory<T> {
    var files: map<string, T>

    constructor (files: map<string, T>)
      ensures this.files == files
    {
      this.files := files;
    }

    /** `place_*_file` then `File::create` and a write: creates the named file or
        replaces its contents; no other file changes. */
    method Put(name: string, contents: T)
      modifies this
      ensures files == old(files)[name := contents]
    {
      files := files[name := contents];
    }

    /** `find_*_file` then a read: the contents of the named file, if it exists. */
    function Find(name: string): (r: Option<T>)
      reads this
      ensures r.Some? <==> name in files
      ensures r.Some? ==> r.value == files[name]
    {
      if name in files then Some(files[name]) else None
    }
  }
}
