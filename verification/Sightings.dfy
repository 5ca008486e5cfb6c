/**
What identifies a file or directory as it was when it was read.
*/
module Sightings {
  import opened Options

  datatype Stamp = Stamp(id: nat, mtime: int, ctime: int)

  predicate IsSettled(stamp: Stamp, before: int) {
    stamp.mtime < before && stamp.ctime < before
  }

  /** What a walk saw of a directory: its stamp, and its `.gitignore`'s. */
  datatype Sighting = Sighting(stamp: Stamp, rules: Option<Stamp>)
}
