/** Job ids and session paths: ids count up within their date, and paths of two jobs never meet. */
module JobIds {
  import opened Wrappers
  import opened Decimals
  import opened Text

  /** What `%Y%m%d` gives for a date. */
  type Day = s: string | |s| == 8 && AllDigits(s) witness "20260101"

  function PrefixOf(day: Day): string {
    day + "-"
  }

  function JobId(day: Day, sequence: nat): string {
    PrefixOf(day) + Padded(sequence)
  }

  /** The ids that begin with the prefix of the day. */
  function OfDay(ids: set<string>, day: Day): set<string> {
    set id | id in ids && PrefixOf(day) <= id
  }

  function NextJobId(ids: set<string>, day: Day): string {
    JobId(day, |OfDay(ids, day)| + 1)
  }

  function FirstIds(day: Day, n: nat): set<string> {
    set k | 1 <= k <= n :: JobId(day, k)
  }

  /** Every id belongs to a day, and the ids of each day are exactly those numbered 1 to n. */
  ghost predicate Sequential(ids: set<string>) {
    && (forall id <- ids :: exists day: Day, k: nat :: id == JobId(day, k))
    && (forall day: Day :: OfDay(ids, day) == FirstIds(day, |OfDay(ids, day)|))
  }

  /** Two ids are the same only if their day and their number are. */
  lemma JobIdIsInjective(day: Day, k: nat, other: Day, n: nat)
    requires JobId(day, k) == JobId(other, n)
    ensures day == other && k == n
  {
    var id := JobId(day, k);
    assert id[..8] == day && id[9..] == Padded(k);
    assert id == JobId(other, n) && id[..8] == other && id[9..] == Padded(n);
    PaddedRoundTrip(k);
    PaddedRoundTrip(n);
  }

  /** An id is its day, a dash, and its number in three digits or more; for example `20260704-007`. */
  lemma JobIdReads(day: Day, k: nat)
    ensures var id := JobId(day, k);
            && id[..8] == day && id[8] == '-' && |id| >= 12 && (k < 1000 ==> |id| == 12)
            && AllDigits(id[9..]) && ValueOf(id[9..]) == k
    ensures JobId("20260704", 7) == "20260704-007"
  {
    var id := JobId(day, k);
    PaddedHasThreeDigits(k);
    PaddedRoundTrip(k);
    assert id[9..] == Padded(k) && id[..8] == day;
    PaddedHasThreeDigits(7);
  }

  lemma PrefixMeansDay(day: Day, other: Day, k: nat)
    ensures PrefixOf(day) <= JobId(other, k) <==> day == other
  {
    var id := JobId(other, k);
    assert id[..9] == PrefixOf(other);
    if PrefixOf(day) <= id {
      assert id[..9] == PrefixOf(day);
      assert PrefixOf(day)[..8] == day && PrefixOf(other)[..8] == other;
    }
  }

  /** The next id of a day has not been used, on that day or on any other. */
  lemma NextIdIsFresh(ids: set<string>, day: Day)
    requires Sequential(ids)
    ensures NextJobId(ids, day) !in ids
  {
    var n := |OfDay(ids, day)|;
    var id := NextJobId(ids, day);
    if id in ids {
      PrefixMeansDay(day, day, n + 1);
      assert id in OfDay(ids, day);
      var k: nat :| 1 <= k <= n && id == JobId(day, k);
      JobIdIsInjective(day, k, day, n + 1);
    }
  }

  /** Whatever the clock says, using the next id of its day keeps the ids of every day in sequence. */
  lemma NextIdKeepsSequence(ids: set<string>, day: Day)
    requires Sequential(ids)
    ensures Sequential(ids + {NextJobId(ids, day)})
  {
    var n := |OfDay(ids, day)|;
    var id := NextJobId(ids, day);
    var more := ids + {id};
    forall other: Day
      ensures OfDay(more, other) == FirstIds(other, |OfDay(more, other)|)
    {
      NextIdOfOneDay(ids, day, other);
    }
    assert id == JobId(day, n + 1);
  }

  lemma NextIdOfOneDay(ids: set<string>, day: Day, other: Day)
    requires Sequential(ids)
    ensures var more := ids + {NextJobId(ids, day)}; OfDay(more, other) == FirstIds(other, |OfDay(more, other)|)
  {
    var n := |OfDay(ids, day)|;
    var id := NextJobId(ids, day);
    NextIdIsFresh(ids, day);
    PrefixMeansDay(other, day, n + 1);
    OneMoreId(ids, id, other);
    if other == day {
      FirstIdsGrow(day, n);
    }
  }

  lemma OneMoreId(ids: set<string>, id: string, day: Day)
    requires id !in ids
    ensures OfDay(ids + {id}, day) == OfDay(ids, day) + if PrefixOf(day) <= id then {id} else {}
    ensures |OfDay(ids + {id}, day)| == |OfDay(ids, day)| + if PrefixOf(day) <= id then 1 else 0
  {
    if PrefixOf(day) <= id {
      assert OfDay(ids + {id}, day) == OfDay(ids, day) + {id};
    } else {
      assert OfDay(ids + {id}, day) == OfDay(ids, day);
    }
  }

  lemma FirstIdsGrow(day: Day, n: nat)
    ensures FirstIds(day, n + 1) == FirstIds(day, n) + {JobId(day, n + 1)}
  {
  }

  predicate IsNameChar(c: char) {
    'A' <= c <= 'Z' || 'a' <= c <= 'z' || '0' <= c <= '9' || c == '_' || c == '-'
  }

  /** The source name with every other character replaced; an empty one is called SOURCE. */
  function Sanitized(name: string): string {
    if name == "" then "SOURCE" else seq(|name|, i requires 0 <= i < |name| => if IsNameChar(name[i]) then name[i] else '_')
  }

  lemma SanitizedHasNameChars(name: string)
    ensures Sanitized(name) != "" && forall c <- Sanitized(name) :: IsNameChar(c)
  {
  }

  /** It has the length of the name, keeps every name character, and has an underscore for every other. */
  lemma SanitizedKeepsNames(name: string)
    ensures name != "" ==> |Sanitized(name)| == |name|
    ensures forall i | 0 <= i < |name| :: Sanitized(name)[i] == name[i] || (Sanitized(name)[i] == '_' && !IsNameChar(name[i]))
    ensures (forall c <- name :: IsNameChar(c)) && name != "" ==> Sanitized(name) == name
    ensures Sanitized("") == "SOURCE" && Sanitized("EOS R5 (a)") == "EOS_R5__a_"
  {
    if (forall c <- name :: IsNameChar(c)) && name != "" {
      forall i | 0 <= i < |name|
        ensures Sanitized(name)[i] == name[i]
      {
        assert name[i] in name;
      }
    }
  }

  function Folder(id: string, name: string): string {
    id + "_" + Sanitized(name)
  }

  /** The date with dashes. */
  function Dashed(day: Day): string {
    day[..4] + "-" + day[4..6] + "-" + day[6..]
  }

  /** The session root of a job, below the backup root: year, dashed date, and the job's own folder. */
  function SessionRoot(day: Day, id: string, name: string): string {
    day[..4] + "/" + Dashed(day) + "/" + Folder(id, name)
  }

  function SessionPath(root: string, rel: string): string {
    root + "/" + rel
  }

  /** `id` is the next id of some day, and `root` the session root it is given. */
  ghost predicate NewJob(ids: set<string>, id: string, root: string) {
    forall u: Unit :: NewJobFacts(ids, id, root, u)
  }

  ghost predicate NewJobFacts(ids: set<string>, id: string, root: string, u: Unit) {
    exists day: Day, name: string :: id == NextJobId(ids, day) && root == SessionRoot(day, id, name)
  }

  lemma UseNewJob(ids: set<string>, id: string, root: string) returns (day: Day, name: string)
    requires NewJob(ids, id, root)
    ensures id == NextJobId(ids, day) && root == SessionRoot(day, id, name)
  {
    assert NewJobFacts(ids, id, root, Unit);
    day, name :| id == NextJobId(ids, day) && root == SessionRoot(day, id, name);
  }

  lemma MakeNewJob(ids: set<string>, day: Day, name: string)
    ensures NewJob(ids, NextJobId(ids, day), SessionRoot(day, NextJobId(ids, day), name))
  {
    assert NewJobFacts(ids, NextJobId(ids, day), SessionRoot(day, NextJobId(ids, day), name), Unit);
  }

  lemma JobIdIsPlain(day: Day, k: nat)
    ensures Free(JobId(day, k), '_') && Free(JobId(day, k), '/')
  {
    PaddedRoundTrip(k);
  }

  lemma FolderIsPlain(day: Day, k: nat, name: string)
    ensures Free(Folder(JobId(day, k), name), '/')
  {
    JobIdIsPlain(day, k);
    SanitizedHasNameChars(name);
  }

  lemma DashedReads(day: Day)
    ensures var d := Dashed(day); |d| == 10 && d[4] == d[7] == '-' && d[..4] + d[5..7] + d[8..] == day
    ensures Free(day[..4], '/') && Free(Dashed(day), '/')
  {
    var d := Dashed(day);
    assert d[..4] == day[..4] && d[5..7] == day[4..6] && d[8..] == day[6..];
    assert forall c <- day :: c != '/';
    forall c <- day[..4]
      ensures c in day
    {
    }
    forall i | 0 <= i < |d|
      ensures d[i] != '/'
    {
      assert d[i] == '-' || d[i] in day;
    }
  }

  /** A session root is the year, the dashed date, and the folder of the job. */
  lemma SessionRootReads(day: Day, k: nat, name: string)
    ensures Split(SessionRoot(day, JobId(day, k), name), '/') == [day[..4], Dashed(day), JobId(day, k) + "_" + Sanitized(name)]
  {
    var year, date, folder := day[..4], Dashed(day), Folder(JobId(day, k), name);
    FolderIsPlain(day, k, name);
    DashedReads(day);
    SplitThree(year, date, folder);
    assert SessionRoot(day, JobId(day, k), name) == year + "/" + date + "/" + folder;
  }

  lemma SplitThree(a: string, b: string, c: string)
    requires Free(a, '/') && Free(b, '/') && Free(c, '/')
    ensures Split(a + "/" + b + "/" + c, '/') == [a, b, c]
  {
    var rest := b + ['/'] + c;
    assert a + "/" + b + "/" + c == a + ['/'] + rest;
    CutsAtFirst(a, rest, '/');
    CutsAtFirst(b, c, '/');
    CutIsExact(c, '/');
    assert Split(c, '/') == [c] && Split(rest, '/') == [b] + [c];
    assert Split(a + ['/'] + rest, '/') == [a] + ([b] + [c]);
  }

  lemma TailOfPath(day: Day, id: string, name: string, rel: string)
    ensures var p := SessionPath(SessionRoot(day, id, name), rel);
            |p| >= 16 && p[16..] == Folder(id, name) + "/" + rel
  {
    var head := day[..4] + "/" + Dashed(day) + "/";
    assert SessionRoot(day, id, name) == head + Folder(id, name);
    assert SessionPath(SessionRoot(day, id, name), rel) == head + (Folder(id, name) + "/" + rel);
  }

  /** A session path tells its job and the path within the job. */
  lemma SessionPathIsInjective(
      d0: Day, day0: Day, k0: nat, name0: string, rel0: string, d1: Day, day1: Day, k1: nat, name1: string, rel1: string)
    requires SessionPath(SessionRoot(d0, JobId(day0, k0), name0), rel0)
             == SessionPath(SessionRoot(d1, JobId(day1, k1), name1), rel1)
    ensures JobId(day0, k0) == JobId(day1, k1) && rel0 == rel1
  {
    var f0, f1 := Folder(JobId(day0, k0), name0), Folder(JobId(day1, k1), name1);
    TailOfPath(d0, JobId(day0, k0), name0, rel0);
    TailOfPath(d1, JobId(day1, k1), name1, rel1);
    FolderIsPlain(day0, k0, name0);
    FolderIsPlain(day1, k1, name1);
    SplitIsUnique(f0, rel0, f1, rel1, '/');
    JobIdIsPlain(day0, k0);
    JobIdIsPlain(day1, k1);
    SplitIsUnique(JobId(day0, k0), Sanitized(name0), JobId(day1, k1), Sanitized(name1), '_');
  }
}
