/** The output files, as the loader sees them: each path holds the records
    written to it, one record per line, in the order they were written. */
module FileStore {
  import opened Values

  type Files = map<string, seq<Record>>

  /** The lines currently in the file at `path`; a path never written reads as empty. */
  function Lines(files: Files, path: string): seq<Record>
  {
    if path in files then files[path] else []
  }

  /** The files after `records` are appended to `path`. */
  function Appended(files: Files, path: string, records: seq<Record>): (after: Files)
    ensures Lines(after, path) == Lines(files, path) + records
    ensures forall p :: p != path ==> Lines(after, p) == Lines(files, p)
  {
    if records == [] then files else files[path := Lines(files, path) + records]
  }

  /** The files after `path` is opened for writing, which empties it. */
  function Truncated(files: Files, path: string): (after: Files)
    ensures Lines(after, path) == []
    ensures forall p :: p != path ==> Lines(after, p) == Lines(files, p)
  {
    files[path := []]
  }

  lemma AppendedTwice(files: Files, path: string, a: seq<Record>, b: seq<Record>)
    ensures Appended(Appended(files, path, a), path, b) == Appended(files, path, a + b)
  {
    if a == [] {
      assert a + b == b;
    } else if b == [] {
      assert a + b == a;
    } else {
      assert Lines(files, path) + a + b == Lines(files, path) + (a + b);
    }
  }

  /** The file system the loader writes to. */
  class FileSystem {
    var files: Files

    constructor (initial: Files)
      ensures files == initial
    {
      files := initial;
    }

    /** `open(path, 'w')`: the file is emptied. */
    method Truncate(path: string)
      modifies this
      ensures files == Truncated(old(files), path)
    {
      files := Truncated(files, path);
    }

    /** `open(path, 'a+')` followed by one write per record. */
    method Append(path: string, records: seq<Record>)
      modifies this
      ensures files == Appended(old(files), path, records)
    {
      files := Appended(files, path, records);
    }
  }
}
