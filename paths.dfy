/** Path handling of the builder: the Windows drive rewrite and the two path
    operations it borrows from `@angular-devkit/core`. */
module Paths {

  /** `normalize` and `resolve` of `@angular-devkit/core`. Their code is not part
      of this model, so they are carried as arbitrary total functions. */
  datatype PathOps = PathOps(normalize: string -> string, resolve: (string, string) -> string)

  /** The path starts with the root segment `/C/` (upper-case C drive only). */
  predicate HasUpperCDriveRoot(path: string)
  {
    |path| >= 3 && path[0] == '/' && path[1] == 'C' && path[2] == '/'
  }

  /** `path.replace(/^\/C\//, '/c/')`: lower-cases the drive letter of a leading
      `/C/`. The pattern is anchored and has no flags, so only position 0 is
      looked at, and only the letter C. */
  function ReplacePathForWindows(path: string): (r: string)
    ensures |r| == |path|
    ensures HasUpperCDriveRoot(path) ==> r == "/c/" + path[3..]
    ensures !HasUpperCDriveRoot(path) ==> r == path
    ensures forall i | 0 <= i < |path| && i != 1 :: r[i] == path[i]
    ensures !HasUpperCDriveRoot(r)
  {
    if HasUpperCDriveRoot(path) then "/c/" + path[3..] else path
  }

  /** The rewrite changes a path exactly when it starts with `/C/`. */
  lemma ReplaceChangesExactlyUpperCDrive(path: string)
    ensures ReplacePathForWindows(path) != path <==> HasUpperCDriveRoot(path)
  {
  }

  /** Applying the rewrite twice is the same as applying it once. */
  lemma ReplaceIdempotent(path: string)
    ensures ReplacePathForWindows(ReplacePathForWindows(path)) == ReplacePathForWindows(path)
  {
  }

  /** Any other drive letter, and the lower-case `c`, are left as they are. */
  lemma OtherDrivesUntouched(drive: char, rest: string)
    requires drive != 'C'
    ensures ReplacePathForWindows(['/', drive, '/'] + rest) == ['/', drive, '/'] + rest
  {
  }

  /** A `/C/` that does not open the path is left as it is: whatever `prefix`
      is, as long as the path does not itself start with `/C/`. */
  lemma InnerUpperCDriveUntouched(prefix: string, rest: string)
    requires prefix != [] && !HasUpperCDriveRoot(prefix + "/C/")
    ensures ReplacePathForWindows(prefix + "/C/" + rest) == prefix + "/C/" + rest
  {
    assert (prefix + "/C/" + rest)[..3] == (prefix + "/C/")[..3];
  }
}
