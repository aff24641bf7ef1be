/** The file-name guard the service applies to its config and key file
    names before touching the file system. */
module Paths {
  import opened Wrappers
  import opened PyStrings

  /** POSIX `os.path.basename(p)`: the text after the last `/` (all of `p`
      when it has none, empty when `p` ends in `/`). */
  function Basename(p: string): (r: string)
    ensures |r| <= |p| && r == p[|p| - |r|..]
    ensures '/' !in r
    ensures |r| < |p| ==> p[|p| - |r| - 1] == '/'
  {
    if p == [] || p[|p| - 1] == '/' then []
    else Basename(p[..|p| - 1]) + [p[|p| - 1]]
  }

  /** The names the guard lets through: non-empty, no `..` anywhere, and
      not hidden (no leading `.`). */
  predicate AcceptedName(name: string) {
    name != [] && !Contains(name, "..") && name[0] != '.'
  }

  /** `_sanitize_path`: keep only the base name of `filename` and raise
      `ValueError` when that base name is not an accepted name. */
  function SanitizePath(filename: string): (r: Result<string, string>)
    ensures r.Success? <==> AcceptedName(Basename(filename))
    ensures r.Success? ==> r.value == Basename(filename)
    ensures r.Failure? ==> r.error == "Invalid filename: " + filename
  {
    var safeName := Basename(filename);
    if safeName == [] || Contains(safeName, "..") || safeName[0] == '.' then
      Failure("Invalid filename: " + filename)
    else
      Success(safeName)
  }

  /** A name without `/` is its own base name. */
  lemma BasenameOfPlainName(name: string)
    requires '/' !in name
    ensures Basename(name) == name
  {
  }

  /** What an accepted result is: a non-empty trailing part of the input,
      cut just after a `/` (or the whole input), with no separator, no
      parent reference and no leading dot. */
  lemma SanitizedNameIsSafe(filename: string)
    requires SanitizePath(filename).Success?
    ensures var name := SanitizePath(filename).value;
      && name != [] && '/' !in name && name[0] != '.' && !Contains(name, "..")
      && |name| <= |filename| && filename[|filename| - |name|..] == name
      && (|name| == |filename| || filename[|filename| - |name| - 1] == '/')
  {
  }

  /** Sanitising an accepted name again returns it unchanged. */
  lemma SanitizeIdempotent(filename: string)
    requires SanitizePath(filename).Success?
    ensures SanitizePath(SanitizePath(filename).value) == SanitizePath(filename)
  {
    BasenameOfPlainName(SanitizePath(filename).value);
  }

  /** A leading `../` is cut off with the directory part rather than
      rejected: `../secret` is accepted as `secret`. */
  lemma ParentPrefixIsStripped()
    ensures SanitizePath("../secret") == Success("secret")
  {
    var p := "../secret";
    assert Basename(p) == "secret" by {
      assert p[..|p| - 1] == "../secre";
      assert "../secre"[..7] == "../secr";
      assert "../secr"[..6] == "../sec";
      assert "../sec"[..5] == "../se";
      assert "../se"[..4] == "../s";
      assert "../s"[..3] == "../";
    }
    assert '.' !in "secret";
    AbsentFirstCharNotContained("secret", "..");
  }

  /** Hidden names (base name starting with `.`) are rejected, whatever
      directory part precedes them. */
  lemma HiddenNameRejected(filename: string)
    requires Basename(filename) != [] && Basename(filename)[0] == '.'
    ensures SanitizePath(filename) == Failure("Invalid filename: " + filename)
  {
  }

  /** A `..` anywhere in the base name is rejected. */
  lemma ParentReferenceRejected(filename: string)
    requires Contains(Basename(filename), "..")
    ensures SanitizePath(filename) == Failure("Invalid filename: " + filename)
  {
  }

  /** The empty path and every path ending in `/` have an empty base name
      and are rejected. */
  lemma DirectoryPathRejected(filename: string)
    requires filename == [] || filename[|filename| - 1] == '/'
    ensures SanitizePath(filename) == Failure("Invalid filename: " + filename)
  {
  }
}
