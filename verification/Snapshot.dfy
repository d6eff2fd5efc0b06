/** The identity of a source: a canonical manifest of its files, and the digest of that. */
module Snapshot {
  import opened Wrappers
  import opened Identity
  import opened Decimals
  import opened Text
  import opened Utf8
  import opened Sorting
  import opened Sums

  datatype RecordError = AbsolutePath | ParentReference | NegativeSize | DigestNotAscii

  datatype SourceFileRecord = SourceFileRecord(rel: string, size: int, sha: string)

  datatype SourceSnapshot = SourceSnapshot(sha: string, fileCount: nat, totalBytes: int)

  function Slashed(s: string): string {
    seq(|s|, i requires 0 <= i < |s| => if s[i] == '\\' then '/' else s[i])
  }

  function Kept(parts: seq<string>): seq<string> {
    if parts == [] then []
    else if parts[0] == "" || parts[0] == "." then Kept(parts[1..])
    else [parts[0]] + Kept(parts[1..])
  }

  /** Forward slashes only, and no empty or `.` component; absolute paths and `..` are refused. */
  function NormalizeRelativePath(rel: string): Result<string, RecordError> {
    var path := Slashed(rel);
    if path != "" && path[0] == '/' then Failure(AbsolutePath)
    else
      var parts := Kept(Split(path, '/'));
      if ".." in parts then Failure(ParentReference) else Success(Join(parts, '/'))
  }

  /** A component that may stand in a normalized path. */
  predicate Component(p: string) {
    p != "" && p != "." && p != ".." && Free(p, '/') && Free(p, '\\')
  }

  /** A normalized path is the empty one, or components joined by slashes. */
  ghost predicate Normalized(path: string) {
    exists parts: seq<string> :: (forall p <- parts :: Component(p)) && path == Join(parts, '/')
  }

  lemma {:induction false} KeptIsKept(parts: seq<string>, p: string)
    requires p in Kept(parts)
    ensures p in parts && p != "" && p != "."
  {
    assert parts[0] in parts && forall q <- parts[1..] :: q in parts;
    if p in Kept(parts[1..]) {
      KeptIsKept(parts[1..], p);
    }
  }

  lemma {:induction false} AllKept(parts: seq<string>)
    requires forall p <- parts :: p != "" && p != "."
    ensures Kept(parts) == parts
  {
    if parts != [] {
      assert parts[0] in parts && forall p <- parts[1..] :: p in parts;
      AllKept(parts[1..]);
      assert parts == [parts[0]] + parts[1..];
    }
  }

  lemma SlashedHasNoBackslash(s: string)
    ensures Free(Slashed(s), '\\')
    ensures Free(s, '\\') ==> Slashed(s) == s
  {
    assert forall i | 0 <= i < |s| :: Slashed(s)[i] != '\\' && s[i] in s;
  }

  lemma {:induction false} JoinIsFree(parts: seq<string>)
    requires forall p <- parts :: Component(p)
    ensures Free(Join(parts, '/'), '\\')
    ensures parts != [] ==> Join(parts, '/') != "" && Join(parts, '/')[0] != '/'
  {
    if parts != [] {
      assert parts[0] in parts && parts[0][0] in parts[0];
      if |parts| > 1 {
        JoinIsFree(parts[1..]);
      }
    }
  }

  lemma SlashedReads(s: string)
    ensures |Slashed(s)| == |s|
    ensures forall i | 0 <= i < |s| :: if s[i] == '\\' then Slashed(s)[i] == '/' else Slashed(s)[i] == s[i]
  {
  }

  /** Kept are the components of each part, and of a single one all but the empty one and the dot. */
  lemma {:induction false} KeptJoins(parts: seq<string>, more: seq<string>)
    ensures Kept(parts + more) == Kept(parts) + Kept(more)
    ensures |parts| == 1 ==> Kept(parts) == if parts[0] == "" || parts[0] == "." then [] else parts
  {
    if parts == [] {
      assert parts + more == more;
    } else {
      KeptJoins(parts[1..], more);
      assert (parts + more)[1..] == parts[1..] + more;
      if |parts| == 1 {
        assert parts == [parts[0]];
      }
    }
  }

  /** A path is refused exactly if it begins with a slash of either kind, or has a `..` between slashes of either kind. */
  lemma NormalizeIff(rel: string)
    ensures NormalizeRelativePath(rel) == Failure(AbsolutePath) <==> rel != "" && (rel[0] == '/' || rel[0] == '\\')
    ensures NormalizeRelativePath(rel) == Failure(ParentReference)
            <==> !(rel != "" && (rel[0] == '/' || rel[0] == '\\')) && ".." in Split(Slashed(rel), '/')
    ensures NormalizeRelativePath(rel).Failure? ==> NormalizeRelativePath(rel).error in {AbsolutePath, ParentReference}
  {
    SlashedReads(rel);
    var parts := Split(Slashed(rel), '/');
    if ".." in Kept(parts) {
      KeptIsKept(parts, "..");
    }
    if ".." in parts {
      KeptKeeps(parts, "..");
    }
  }

  lemma {:induction false} KeptKeeps(parts: seq<string>, p: string)
    requires p in parts && p != "" && p != "."
    ensures p in Kept(parts)
  {
    if p != parts[0] {
      assert p in parts[1..];
      KeptKeeps(parts[1..], p);
    }
  }

  /** What normalization lets through is normalized. */
  lemma NormalizeNormalizes(rel: string)
    requires NormalizeRelativePath(rel).Success?
    ensures Normalized(NormalizeRelativePath(rel).value)
  {
    var path := Slashed(rel);
    var parts := Kept(Split(path, '/'));
    SlashedHasNoBackslash(rel);
    forall p <- parts
      ensures Component(p)
    {
      KeptIsKept(Split(path, '/'), p);
      SplitIsFree(path, '/', p);
    }
  }

  /** And a normalized path is let through as it is: the fixed points are exactly the normalized paths. */
  lemma NormalizedIsFixed(path: string)
    ensures Normalized(path) <==> NormalizeRelativePath(path) == Success(path)
  {
    if Normalized(path) {
      var parts: seq<string> :| (forall p <- parts :: Component(p)) && path == Join(parts, '/');
      JoinIsFree(parts);
      SlashedHasNoBackslash(path);
      if parts == [] {
        CutIsExact("", '/');
        assert Split(path, '/') == [""];
        assert Kept([""]) == [];
      } else {
        SplitJoin(parts, '/');
        AllKept(parts);
      }
    }
    if NormalizeRelativePath(path) == Success(path) {
      NormalizeNormalizes(path);
    }
  }

  predicate Ascii(s: string) {
    forall c <- s :: c < 128 as char
  }

  /** Path, size and digest, parted by NUL and ended by a newline. */
  function EncodeRecord(r: SourceFileRecord): Result<Bytes, RecordError> {
    if r.size < 0 then Failure(NegativeSize)
    else
      var path := NormalizeRelativePath(r.rel);
      if path.Failure? then Failure(path.error)
      else if !Ascii(r.sha) then Failure(DigestNotAscii)
      else Success(Encode(path.value) + [0] + Encode(Decimal(r.size)) + [0] + Encode(r.sha) + [10])
  }

  /** The sort key of a record whose path is let through. */
  function KeyOf(r: SourceFileRecord): string {
    var path := NormalizeRelativePath(r.rel);
    if path.Success? then path.value else ""
  }

  function FirstPathError(records: seq<SourceFileRecord>): Option<RecordError> {
    if records == [] then None
    else
      var path := NormalizeRelativePath(records[0].rel);
      if path.Failure? then Some(path.error) else FirstPathError(records[1..])
  }

  function EncodeAll(records: seq<SourceFileRecord>): Result<Bytes, RecordError> {
    if records == [] then Success([])
    else
      var first := EncodeRecord(records[0]);
      if first.Failure? then first
      else
        var rest := EncodeAll(records[1..]);
        if rest.Failure? then rest else Success(first.value + rest.value)
  }

  /** The records in the order of their normalized paths. */
  function BuildCanonicalManifest(records: seq<SourceFileRecord>): Result<Bytes, RecordError> {
    var error := FirstPathError(records);
    if error.Some? then Failure(error.value) else EncodeAll(SortBy(KeyOf, records))
  }

  function TotalSizes(records: seq<SourceFileRecord>): int {
    if records == [] then 0 else records[0].size + TotalSizes(records[1..])
  }

  function BuildSourceSnapshot(h: Hash, records: seq<SourceFileRecord>): Result<SourceSnapshot, RecordError> {
    var manifest := BuildCanonicalManifest(records);
    if manifest.Failure? then Failure(manifest.error)
    else Success(SourceSnapshot(h(manifest.value), |records|, TotalSizes(records)))
  }

  /** What a record says, once its path is normalized. */
  datatype Fact = Fact(path: string, size: nat, sha: string)

  predicate Encodable(r: SourceFileRecord) {
    r.size >= 0 && NormalizeRelativePath(r.rel).Success? && Ascii(r.sha)
  }

  function FactOf(r: SourceFileRecord): Fact {
    Fact(KeyOf(r), if r.size < 0 then 0 else r.size, r.sha)
  }

  function FactsOf(records: seq<SourceFileRecord>): set<Fact> {
    set r | r in records :: FactOf(r)
  }

  lemma {:induction false} FirstPathErrorIff(records: seq<SourceFileRecord>)
    ensures FirstPathError(records).None? <==> forall r <- records :: NormalizeRelativePath(r.rel).Success?
  {
    if records != [] {
      FirstPathErrorIff(records[1..]);
      assert records == [records[0]] + records[1..];
      assert records[0] in records && forall r <- records[1..] :: r in records;
    }
  }

  lemma {:induction false} EncodeAllIff(records: seq<SourceFileRecord>)
    ensures EncodeAll(records).Success? <==> forall r <- records :: Encodable(r)
  {
    if records != [] {
      EncodeAllIff(records[1..]);
      assert records == [records[0]] + records[1..];
      assert EncodeRecord(records[0]).Success? <==> Encodable(records[0]);
      assert records[0] in records && forall r <- records[1..] :: r in records;
    }
  }

  /** A manifest can be built exactly of records that can be encoded. */
  lemma ManifestIff(records: seq<SourceFileRecord>)
    ensures BuildCanonicalManifest(records).Success? <==> forall r <- records :: Encodable(r)
  {
    SortSorts(KeyOf, records);
    SameElements(SortBy(KeyOf, records), records);
    FirstPathErrorIff(records);
    EncodeAllIff(SortBy(KeyOf, records));
  }

  lemma {:induction false} FirstPathErrorAt(records: seq<SourceFileRecord>, k: nat)
    requires k < |records| && NormalizeRelativePath(records[k].rel).Failure?
    requires forall j | 0 <= j < k :: NormalizeRelativePath(records[j].rel).Success?
    ensures FirstPathError(records) == Some(NormalizeRelativePath(records[k].rel).error)
  {
    if k > 0 {
      assert NormalizeRelativePath(records[0].rel).Success?;
      assert records[1..][k - 1] == records[k];
      FirstPathErrorAt(records[1..], k - 1);
    }
  }

  /** Why a manifest cannot be built: the first record with a bad path tells, if there is one. */
  lemma FirstBadPathTells(records: seq<SourceFileRecord>, k: nat)
    requires k < |records| && NormalizeRelativePath(records[k].rel).Failure?
    requires forall j | 0 <= j < k :: NormalizeRelativePath(records[j].rel).Success?
    ensures BuildCanonicalManifest(records) == Failure(NormalizeRelativePath(records[k].rel).error)
  {
    FirstPathErrorAt(records, k);
  }

  /** A record is refused for a negative size first, then for its path, and then for its digest. */
  lemma EncodeRecordIff(r: SourceFileRecord)
    ensures EncodeRecord(r) == Failure(NegativeSize) <==> r.size < 0
    ensures r.size >= 0 && NormalizeRelativePath(r.rel).Failure? ==> EncodeRecord(r) == Failure(NormalizeRelativePath(r.rel).error)
    ensures EncodeRecord(r) == Failure(DigestNotAscii)
            <==> r.size >= 0 && NormalizeRelativePath(r.rel).Success? && exists c <- r.sha :: c as int >= 128
  {
    NormalizeIff(r.rel);
    assert Ascii(r.sha) <==> forall c <- r.sha :: (c as int) < 128;
  }

  /** For example, size 12 and digest `ff` under the path `b/a`. */
  lemma RecordExample()
    ensures EncodeRecord(SourceFileRecord("b/a", 12, "ff")) == Success([98, 47, 97, 0, 49, 50, 0, 102, 102, 10])
  {
    PathExample();
    assert Decimal(12) == "12" by {
      assert Decimal(12) == [Digit(1)] + [Digit(2)];
    }
    EncodeExamples();
    assert [98, 47, 97] + [0] + [49, 50] + [0] + [102, 102] + [10] == [98, 47, 97, 0, 49, 50, 0, 102, 102, 10];
  }

  lemma PathExample()
    ensures NormalizeRelativePath("b/a") == Success("b/a")
  {
    var parts := ["b", "a"];
    assert parts[1..] == ["a"] && Join(["a"], '/') == "a";
    assert Join(parts, '/') == "b" + ['/'] + "a" == "b/a";
    assert forall p <- parts :: Component(p);
    NormalizedIsFixed("b/a");
  }

  lemma EncodeExamples()
    ensures Encode("b/a") == [98, 47, 97] && Encode("12") == [49, 50] && Encode("ff") == [102, 102]
  {
    EncodeOfOne('b');
    EncodeOfOne('/');
    EncodeOfOne('a');
    EncodeOfOne('1');
    EncodeOfOne('2');
    EncodeOfOne('f');
    EncodeJoins("1", "2");
    EncodeJoins("f", "f");
    EncodeJoins("b", "/");
    EncodeJoins("b/", "a");
    assert "1" + "2" == "12" && "f" + "f" == "ff" && "b" + "/" == "b/" && "b/" + "a" == "b/a";
  }

  lemma EncodeOfOne(c: char)
    ensures Encode([c]) == EncodeChar(c)
  {
    assert [c][1..] == "" && Flat(EncodeChar, "") == [];
    assert EncodeChar(c) + [] == EncodeChar(c);
  }

  /** The size of a snapshot is the sum of the sizes. */
  lemma {:induction false} TotalSizesAddUp(records: seq<SourceFileRecord>, more: seq<SourceFileRecord>)
    ensures TotalSizes(records + more) == TotalSizes(records) + TotalSizes(more)
    ensures |records| == 1 ==> TotalSizes(records) == records[0].size
  {
    if records == [] {
      assert records + more == more;
    } else {
      TotalSizesAddUp(records[1..], more);
      assert (records + more)[1..] == records[1..] + more;
    }
  }

  function SizeOf(f: Fact): nat {
    f.size
  }

  lemma {:induction false} FactsAreCounted(records: seq<SourceFileRecord>)
    requires DistinctBy(KeyOf, records) && forall r <- records :: r.size >= 0
    ensures |FactsOf(records)| == |records| && SumOver(FactsOf(records), SizeOf) == TotalSizes(records)
  {
    if records == [] {
      assert FactsOf(records) == {};
    } else {
      var first, rest := records[0], records[1..];
      FirstIsNew(records);
      FactsAreCounted(rest);
      SumOverAdds(FactsOf(rest), FactOf(first), SizeOf);
    }
  }

  lemma FirstIsNew(records: seq<SourceFileRecord>)
    requires records != [] && DistinctBy(KeyOf, records)
    ensures DistinctBy(KeyOf, records[1..])
    ensures FactOf(records[0]) !in FactsOf(records[1..])
    ensures FactsOf(records) == FactsOf(records[1..]) + {FactOf(records[0])}
    ensures forall r <- records[1..] :: r in records
  {
    var first, rest := records[0], records[1..];
    assert records == [first] + rest;
    forall r <- rest
      ensures KeyOf(r) != KeyOf(first)
    {
      var i :| 0 <= i < |rest| && rest[i] == r;
      assert records[i + 1] == r;
    }
  }

  /** For distinct paths a snapshot tells how many files there are, and how many bytes they have together. */
  lemma SnapshotCounts(h: Hash, records: seq<SourceFileRecord>)
    requires DistinctBy(KeyOf, records) && BuildSourceSnapshot(h, records).Success?
    ensures var snapshot := BuildSourceSnapshot(h, records).value;
            && snapshot.fileCount == |FactsOf(records)| && snapshot.totalBytes == SumOver(FactsOf(records), SizeOf)
            && BuildCanonicalManifest(records).Success? && snapshot.sha == h(BuildCanonicalManifest(records).value)
  {
    ManifestIff(records);
    forall r <- records
      ensures r.size >= 0
    {
      assert Encodable(r);
    }
    FactsAreCounted(records);
  }

  /** Canonical: where normalized paths differ, the order of the records does not show. */
  lemma ManifestIsCanonical(records: seq<SourceFileRecord>, others: seq<SourceFileRecord>)
    requires DistinctBy(KeyOf, records) && multiset(records) == multiset(others)
    requires BuildCanonicalManifest(records).Success?
    ensures BuildCanonicalManifest(others) == BuildCanonicalManifest(records)
  {
    ManifestIff(records);
    SameElements(records, others);
    ManifestIff(others);
    SortIsCanonical(KeyOf, records, others);
  }

  /** The text whose bytes the manifest is. */
  function TextOf(facts: seq<Fact>): string {
    if facts == [] then "" else FactText(facts[0]) + TextOf(facts[1..])
  }

  function FactText(f: Fact): string {
    f.path + ['\0'] + (Decimal(f.size) + ['\0'] + (f.sha + ['\n']))
  }

  /** The parser: a path up to a NUL, digits up to a NUL, a digest up to a newline, and so on. */
  function ParseManifest(text: string): Option<seq<Fact>>
    decreases |text|
  {
    if text == "" then Some([])
    else
      var path := CutAt(text, '\0');
      if path.None? then None
      else
        var size := CutAt(path.value.1, '\0');
        if size.None? || !AllDigits(size.value.0) then None
        else
          var sha := CutAt(size.value.1, '\n');
          if sha.None? then None
          else
            var rest := ParseManifest(sha.value.1);
            if rest.None? then None
            else Some([Fact(path.value.0, ValueOf(size.value.0), sha.value.0)] + rest.value)
  }

  /** No path holds a NUL, and no digest a newline; a path may well hold a newline. */
  predicate Plain(f: Fact) {
    Free(f.path, '\0') && Free(f.sha, '\n')
  }

  lemma DecimalIsFree(n: nat)
    ensures Free(Decimal(n), '\0')
  {
    DecimalRoundTrip(n);
    forall c <- Decimal(n)
      ensures c != '\0'
    {
      assert IsDigit(c);
    }
  }

  /** Parsing inverts field joining, decimal printing and record separation. */
  lemma {:induction false} ParseInvertsText(facts: seq<Fact>)
    requires forall f <- facts :: Plain(f)
    ensures ParseManifest(TextOf(facts)) == Some(facts)
  {
    if facts != [] {
      var f, rest := facts[0], TextOf(facts[1..]);
      assert Plain(f);
      var afterSize := f.sha + ['\n'] + rest;
      var afterPath := Decimal(f.size) + ['\0'] + afterSize;
      assert TextOf(facts) == f.path + ['\0'] + afterPath;
      CutsAtFirst(f.path, afterPath, '\0');
      DecimalIsFree(f.size);
      DecimalRoundTrip(f.size);
      CutsAtFirst(Decimal(f.size), afterSize, '\0');
      CutsAtFirst(f.sha, rest, '\n');
      ParseInvertsText(facts[1..]);
      assert facts == [f] + facts[1..];
    }
  }

  function FactSeq(records: seq<SourceFileRecord>): seq<Fact> {
    seq(|records|, i requires 0 <= i < |records| => FactOf(records[i]))
  }

  lemma SeparatorsEncode()
    ensures Encode(['\0']) == [0] && Encode(['\n']) == [10]
  {
  }

  lemma RecordIsText(r: SourceFileRecord)
    requires Encodable(r)
    ensures EncodeRecord(r) == Success(Encode(FactText(FactOf(r))))
  {
    var f := FactOf(r);
    EncodeJoins(f.path + ['\0'], Decimal(f.size) + ['\0'] + (f.sha + ['\n']));
    EncodeJoins(f.path, ['\0']);
    EncodeJoins(Decimal(f.size) + ['\0'], f.sha + ['\n']);
    EncodeJoins(Decimal(f.size), ['\0']);
    EncodeJoins(f.sha, ['\n']);
    SeparatorsEncode();
    var a, b, c := Encode(f.path), Encode(Decimal(f.size)), Encode(f.sha);
    assert Encode(FactText(f)) == (a + [0]) + ((b + [0]) + (c + [10]));
    assert a + [0] + b + [0] + c + [10] == (a + [0]) + ((b + [0]) + (c + [10]));
  }

  lemma {:induction false} ManifestIsText(records: seq<SourceFileRecord>)
    requires forall r <- records :: Encodable(r)
    ensures EncodeAll(records) == Success(Encode(TextOf(FactSeq(records))))
  {
    if records != [] {
      RecordIsText(records[0]);
      ManifestIsText(records[1..]);
      assert FactSeq(records)[1..] == FactSeq(records[1..]);
      EncodeJoins(FactText(FactOf(records[0])), TextOf(FactSeq(records[1..])));
    }
  }

  lemma FactsOfSorted(records: seq<SourceFileRecord>)
    ensures (set f | f in FactSeq(SortBy(KeyOf, records))) == FactsOf(records)
  {
    var sorted := SortBy(KeyOf, records);
    SortSorts(KeyOf, records);
    SameElements(sorted, records);
    forall f
      ensures f in FactSeq(sorted) <==> f in FactsOf(records)
    {
      if f in FactSeq(sorted) {
        var i :| 0 <= i < |sorted| && FactSeq(sorted)[i] == f;
        assert sorted[i] in records;
      }
      if r :| r in records && FactOf(r) == f {
        var i :| 0 <= i < |sorted| && sorted[i] == r;
        assert FactSeq(sorted)[i] == f;
      }
    }
  }

  /** Injective: equal manifests come from records that say the same. */
  lemma ManifestIsInjective(records: seq<SourceFileRecord>, others: seq<SourceFileRecord>)
    requires BuildCanonicalManifest(records).Success?
    requires BuildCanonicalManifest(records) == BuildCanonicalManifest(others)
    requires forall r <- records :: Plain(FactOf(r))
    requires forall r <- others :: Plain(FactOf(r))
    ensures FactsOf(records) == FactsOf(others) && |records| == |others|
  {
    ManifestParses(records);
    ManifestParses(others);
    var a, b := SortBy(KeyOf, records), SortBy(KeyOf, others);
    EncodeIsInjective(TextOf(FactSeq(a)), TextOf(FactSeq(b)));
    assert FactSeq(a) == FactSeq(b);
    FactsOfSorted(records);
    FactsOfSorted(others);
    SortSorts(KeyOf, records);
    SortSorts(KeyOf, others);
  }

  lemma ManifestParses(records: seq<SourceFileRecord>)
    requires BuildCanonicalManifest(records).Success? && forall r <- records :: Plain(FactOf(r))
    ensures var facts := FactSeq(SortBy(KeyOf, records));
            BuildCanonicalManifest(records) == Success(Encode(TextOf(facts))) && ParseManifest(TextOf(facts)) == Some(facts)
  {
    var sorted := SortBy(KeyOf, records);
    ManifestIff(records);
    SortSorts(KeyOf, records);
    SameElements(sorted, records);
    ManifestIsText(sorted);
    forall f <- FactSeq(sorted)
      ensures Plain(f)
    {
      var i :| 0 <= i < |sorted| && FactSeq(sorted)[i] == f;
      assert sorted[i] in records;
    }
    ParseInvertsText(FactSeq(sorted));
  }

  /** With a collision-free digest, a snapshot identity stands for one set of files. */
  lemma SnapshotDeterminesContents(h: Hash, records: seq<SourceFileRecord>, others: seq<SourceFileRecord>)
    requires CollisionFree(h)
    requires BuildSourceSnapshot(h, records).Success? && BuildSourceSnapshot(h, others).Success?
    requires BuildSourceSnapshot(h, records).value.sha == BuildSourceSnapshot(h, others).value.sha
    requires forall r <- records :: Plain(FactOf(r))
    requires forall r <- others :: Plain(FactOf(r))
    ensures FactsOf(records) == FactsOf(others)
  {
    ManifestIsInjective(records, others);
  }
}
