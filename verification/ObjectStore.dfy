/** Where an object and its partial live: two shard directories, and the digest for a name. */
module ObjectStore {
  import opened Wrappers
  import opened FileSystem
  import opened Text

  const PARTIAL_SUFFIX := ".aethereal-partial"

  datatype PathError = DigestTooShort

  function ObjectRelativePath(sha: string): Result<string, PathError> {
    if |sha| < 4 then Failure(DigestTooShort) else Success(sha[..2] + "/" + sha[2..4] + "/" + sha)
  }

  /** The path of the object with another last component. */
  function PartialRelativePath(sha: string): Result<string, PathError> {
    if |sha| < 4 then Failure(DigestTooShort)
    else Success(sha[..2] + "/" + sha[2..4] + "/" + (sha + PARTIAL_SUFFIX))
  }

  /** What a digest is printed as has no dot and no slash. */
  predicate Digest(sha: string) {
    |sha| >= 4 && Free(sha, '.') && Free(sha, '/')
  }

  lemma TailOfObject(sha: string)
    requires |sha| >= 4
    ensures ObjectRelativePath(sha).value[6..] == sha && ObjectRelativePath(sha).value[..2] == sha[..2]
    ensures PartialRelativePath(sha).value[6..] == sha + PARTIAL_SUFFIX
  {
    var head := sha[..2] + "/" + sha[2..4] + "/";
    assert ObjectRelativePath(sha).value == head + sha;
    assert PartialRelativePath(sha).value == head + (sha + PARTIAL_SUFFIX);
  }

  /** The names of objects and of partials are all different, so `Final` and `Partial` name different files. */
  lemma ObjectPathsDiffer(sha: string, other: string)
    requires Digest(sha) && Digest(other)
    ensures ObjectRelativePath(sha) == ObjectRelativePath(other) ==> sha == other
    ensures PartialRelativePath(sha) == PartialRelativePath(other) ==> sha == other
    ensures ObjectRelativePath(sha) != PartialRelativePath(other)
  {
    TailOfObject(sha);
    TailOfObject(other);
    var name := other + PARTIAL_SUFFIX;
    assert name[|other|] == '.' && '.' in name;
    assert sha != name;
    if PartialRelativePath(sha) == PartialRelativePath(other) {
      assert (sha + PARTIAL_SUFFIX)[..|sha|] == sha && name[..|other|] == other;
    }
  }

  /** An object and its partial share a directory, and two objects do exactly when their digests begin alike. */
  lemma ShardsAreDirectories(sha: string, other: string)
    requires Digest(sha) && Digest(other)
    ensures DirectoryOf(Final(sha)) == DirectoryOf(Partial(sha))
    ensures DirectoryOf(Final(sha)) == DirectoryOf(Final(other))
            <==> ObjectRelativePath(sha).value[..6] == ObjectRelativePath(other).value[..6]
  {
    HeadOfObject(sha);
    HeadOfObject(other);
    var a, b := sha[..2] + "/" + sha[2..4] + "/", other[..2] + "/" + other[2..4] + "/";
    assert a[..2] == sha[..2] && b[..2] == other[..2] && a[3..5] == sha[2..4] && b[3..5] == other[2..4];
    assert sha[..4] == sha[..2] + sha[2..4] && other[..4] == other[..2] + other[2..4];
    assert sha[..4][..2] == sha[..2] && sha[..4][2..] == sha[2..4];
    assert other[..4][..2] == other[..2] && other[..4][2..] == other[2..4];
  }

  /** A digest has a path exactly if it has four characters; for example `ab/cd/abcdef`. */
  lemma ObjectPathReads(sha: string)
    ensures ObjectRelativePath(sha).Success? <==> |sha| >= 4
    ensures PartialRelativePath(sha).Success? <==> |sha| >= 4
    ensures ObjectRelativePath("abcdef") == Success("ab/cd/abcdef")
    ensures PartialRelativePath("abcdef") == Success("ab/cd/abcdef.aethereal-partial")
  {
    assert "abcdef"[..2] == "ab" && "abcdef"[2..4] == "cd";
    assert "ab" + "/" + "cd" + "/" + "abcdef" == "ab/cd/abcdef";
    assert "ab" + "/" + "cd" + "/" + ("abcdef" + PARTIAL_SUFFIX) == "ab/cd/abcdef.aethereal-partial";
  }

  lemma HeadOfObject(sha: string)
    requires |sha| >= 4
    ensures ObjectRelativePath(sha).value[..6] == sha[..2] + "/" + sha[2..4] + "/"
  {
    assert ObjectRelativePath(sha).value == (sha[..2] + "/" + sha[2..4] + "/") + sha;
  }
}
