/** Counting signals over many run reports. Candidates for a planning-profile migration are built row by
    row, with counts merged into counts; the result is that of counting all rows at once. */
module RunReportBatch {
  import opened Wrappers
  import Planning
  import Texts

  datatype Severity = Info | Warning
  datatype Signal = Signal(name: string, severity: Severity, detail: Option<string>)
  datatype SignalCount = SignalCount(name: string, severity: Severity, count: nat)

  // ----- Reference counts -----

  function Occurrences(signals: seq<Signal>, name: string): nat {
    if signals == [] then 0
    else Occurrences(signals[..|signals| - 1], name) + if signals[|signals| - 1].name == name then 1 else 0
  }

  /** `Warning` as soon as one signal of the name is a warning. */
  function Worst(signals: seq<Signal>, name: string): Severity {
    if signals == [] then Info
    else if signals[|signals| - 1].name == name && signals[|signals| - 1].severity == Warning then Warning
    else Worst(signals[..|signals| - 1], name)
  }

  function Expected(signals: seq<Signal>, name: string): Option<SignalCount> {
    if Occurrences(signals, name) == 0 then None
    else Some(SignalCount(name, Worst(signals, name), Occurrences(signals, name)))
  }

  // ----- The counting loop -----

  function Lookup(counts: seq<SignalCount>, name: string): Option<SignalCount> {
    if counts == [] then None
    else if counts[0].name == name then Some(counts[0])
    else Lookup(counts[1..], name)
  }

  ghost predicate DistinctNames(counts: seq<SignalCount>) {
    counts != [] ==> Lookup(counts[1..], counts[0].name).None? && DistinctNames(counts[1..])
  }

  /** One signal counted in an insertion-ordered map of counts. */
  function Bump(counts: seq<SignalCount>, s: Signal): seq<SignalCount> {
    if counts == [] then [SignalCount(s.name, s.severity, 1)]
    else if counts[0].name == s.name then
      [SignalCount(s.name, if s.severity == Warning then Warning else counts[0].severity, counts[0].count + 1)]
        + counts[1..]
    else [counts[0]] + Bump(counts[1..], s)
  }

  function Tally(signals: seq<Signal>): seq<SignalCount> {
    if signals == [] then [] else Bump(Tally(signals[..|signals| - 1]), signals[|signals| - 1])
  }

  lemma {:induction false} BumpLookup(counts: seq<SignalCount>, s: Signal, name: string)
    requires DistinctNames(counts)
    ensures DistinctNames(Bump(counts, s))
    ensures Lookup(Bump(counts, s), name) ==
      if name != s.name then Lookup(counts, name)
      else match Lookup(counts, name)
           case None => Some(SignalCount(name, s.severity, 1))
           case Some(c) => Some(SignalCount(name, if s.severity == Warning then Warning else c.severity, c.count + 1))
  {
    if counts != [] {
      var bumped := Bump(counts, s);
      if counts[0].name == s.name {
        assert bumped[1..] == counts[1..];
      } else {
        BumpLookup(counts[1..], s, name);
        BumpLookup(counts[1..], s, counts[0].name);
        assert bumped[1..] == Bump(counts[1..], s);
      }
    }
  }

  lemma {:induction false} TallyIsExpected(signals: seq<Signal>, name: string)
    ensures DistinctNames(Tally(signals)) && Lookup(Tally(signals), name) == Expected(signals, name)
  {
    if signals != [] {
      var init, last := signals[..|signals| - 1], signals[|signals| - 1];
      TallyIsExpected(init, name);
      BumpLookup(Tally(init), last, name);
      FewWarningsWithoutOccurrence(init, name);
      assert Occurrences(signals, name) == Occurrences(init, name) + if last.name == name then 1 else 0;
      assert last.severity == Warning || last.severity == Info;
    }
  }

  lemma {:induction false} FewWarningsWithoutOccurrence(signals: seq<Signal>, name: string)
    ensures Occurrences(signals, name) == 0 ==> Worst(signals, name) == Info
  {
    if signals != [] {
      FewWarningsWithoutOccurrence(signals[..|signals| - 1], name);
    }
  }

  // ----- Sorting -----

  /** `localeCompare` on names is a parameter: a strict total order. */
  type NameOrder = (string, string) -> bool

  ghost predicate IsNameOrder(before: NameOrder) {
    && (forall a, b :: before(a, b) ==> !before(b, a))
    && (forall a, b, c :: before(a, b) && before(b, c) ==> before(a, c))
    && (forall a, b :: a == b || before(a, b) || before(b, a))
  }

  /** More counts first, then warnings, then by name. */
  predicate Less(before: NameOrder, a: SignalCount, b: SignalCount) {
    if a.count != b.count then a.count > b.count
    else if a.severity != b.severity then a.severity == Warning
    else before(a.name, b.name)
  }

  function InsertCount(before: NameOrder, c: SignalCount, counts: seq<SignalCount>): seq<SignalCount> {
    if counts != [] && Less(before, counts[0], c) then [counts[0]] + InsertCount(before, c, counts[1..])
      else [c] + counts
  }

  /** What `Array.prototype.sort` makes of the counts. */
  function Sorted(before: NameOrder, counts: seq<SignalCount>): seq<SignalCount> {
    if counts == [] then [] else InsertCount(before, counts[0], Sorted(before, counts[1..]))
  }

  ghost predicate InOrder(before: NameOrder, counts: seq<SignalCount>) {
    counts != [] ==> InOrder(before, counts[1..]) && forall i :: 1 <= i < |counts| ==>
      Less(before, counts[0], counts[i])
  }

  lemma LessIsTotal(before: NameOrder, a: SignalCount, b: SignalCount)
    requires IsNameOrder(before)
    ensures Less(before, a, b) ==> !Less(before, b, a)
    ensures a.name != b.name ==> Less(before, a, b) || Less(before, b, a)
  {
  }

  lemma LessIsTransitive(before: NameOrder, a: SignalCount, b: SignalCount, c: SignalCount)
    requires IsNameOrder(before) && Less(before, a, b) && Less(before, b, c)
    ensures Less(before, a, c)
  {
  }

  lemma {:induction false} InsertKeepsOrder(before: NameOrder, c: SignalCount, counts: seq<SignalCount>)
    requires IsNameOrder(before) && InOrder(before, counts) && Lookup(counts, c.name).None? && DistinctNames(counts)
    ensures InOrder(before, InsertCount(before, c, counts)) && DistinctNames(InsertCount(before, c, counts))
    ensures forall name :: Lookup(InsertCount(before, c, counts), name) == if name == c.name then Some(c)
      else Lookup(counts, name)
    ensures forall x :: x in InsertCount(before, c, counts) ==> x == c || x in counts
  {
    var inserted := InsertCount(before, c, counts);
    if counts != [] && Less(before, counts[0], c) {
      InsertKeepsOrder(before, c, counts[1..]);
      assert inserted[1..] == InsertCount(before, c, counts[1..]);
      forall i | 1 <= i < |inserted|
        ensures Less(before, counts[0], inserted[i])
      {
        assert inserted[i] in inserted[1..];
      }
    } else {
      assert inserted[1..] == counts;
      forall i | 1 <= i < |inserted|
        ensures Less(before, c, inserted[i])
      {
        LessIsTotal(before, c, counts[0]);
        if i > 1 {
          LessIsTransitive(before, c, counts[0], counts[i - 1]);
        }
      }
    }
  }

  lemma {:induction false} SortedKeepsCounts(before: NameOrder, counts: seq<SignalCount>)
    requires IsNameOrder(before) && DistinctNames(counts)
    ensures InOrder(before, Sorted(before, counts)) && DistinctNames(Sorted(before, counts))
    ensures forall name :: Lookup(Sorted(before, counts), name) == Lookup(counts, name)
  {
    if counts != [] {
      SortedKeepsCounts(before, counts[1..]);
      InsertKeepsOrder(before, counts[0], Sorted(before, counts[1..]));
    }
  }

  lemma {:induction false} FoundCount(counts: seq<SignalCount>, name: string)
    ensures match Lookup(counts, name)
            case None => forall i :: 0 <= i < |counts| ==> counts[i].name != name
            case Some(c) => c.name == name && exists i :: 0 <= i < |counts| && counts[i] == c
  {
    if counts != [] && counts[0].name != name {
      FoundCount(counts[1..], name);
      if Lookup(counts[1..], name).Some? {
        var i :| 0 <= i < |counts[1..]| && counts[1..][i] == Lookup(counts[1..], name).value;
        assert counts[i + 1] == Lookup(counts, name).value;
      }
    }
  }

  /** Sorted counts are determined by what they say about each name. */
  lemma {:induction false} SortedCountsAreCanonical(before: NameOrder, a: seq<SignalCount>, b: seq<SignalCount>)
    requires IsNameOrder(before) && InOrder(before, a) && InOrder(before, b) && DistinctNames(a) && DistinctNames(b)
    requires forall name :: Lookup(a, name) == Lookup(b, name)
    ensures a == b
    decreases |a|
  {
    assert b == [] || Lookup(b, b[0].name) == Lookup(a, b[0].name);
    if a != [] {
      assert Lookup(a, a[0].name) == Some(a[0]) == Lookup(b, a[0].name);
      FirstCountsAgree(before, a, b);
      forall name
        ensures Lookup(a[1..], name) == Lookup(b[1..], name)
      {
        assert Lookup(a, name) == Lookup(b, name);
      }
      SortedCountsAreCanonical(before, a[1..], b[1..]);
      assert a == [a[0]] + a[1..] && b == [b[0]] + b[1..];
    }
  }

  lemma FirstCountsAgree(before: NameOrder, a: seq<SignalCount>, b: seq<SignalCount>)
    requires IsNameOrder(before) && InOrder(before, a) && InOrder(before, b) && a != []
    requires forall name :: Lookup(a, name) == Lookup(b, name)
    ensures b != [] && a[0] == b[0]
  {
    assert Lookup(b, a[0].name) == Lookup(a, a[0].name) == Some(a[0]);
    FoundCount(b, a[0].name);
    var i :| 0 <= i < |b| && b[i] == a[0];
    assert Lookup(a, b[0].name) == Lookup(b, b[0].name) == Some(b[0]);
    FoundCount(a, b[0].name);
    var j :| 0 <= j < |a| && a[j] == b[0];
    LessIsTotal(before, a[0], b[0]);
  }

  function Build(before: NameOrder, signals: seq<Signal>): seq<SignalCount> {
    Sorted(before, Tally(signals))
  }

  /** Counts of `signals` say the expected thing about every name, in the one possible order. */
  lemma BuildIsExpected(before: NameOrder, signals: seq<Signal>)
    requires IsNameOrder(before)
    ensures InOrder(before, Build(before, signals)) && DistinctNames(Build(before, signals))
    ensures forall name :: Lookup(Build(before, signals), name) == Expected(signals, name)
  {
    TallyIsExpected(signals, "");
    SortedKeepsCounts(before, Tally(signals));
    forall name
      ensures Lookup(Build(before, signals), name) == Expected(signals, name)
    {
      TallyIsExpected(signals, name);
    }
  }

  /** The loop of `buildSignalCounts`. */
  method BuildSignalCounts(before: NameOrder, signals: seq<Signal>) returns (counts: seq<SignalCount>)
    ensures counts == Build(before, signals)
  {
    counts := [];
    for i := 0 to |signals|
      invariant counts == Tally(signals[..i])
    {
      assert signals[..i + 1][..i] == signals[..i];
      counts := Bump(counts, signals[i]);
    }
    assert signals[..|signals|] == signals;
    counts := Sorted(before, counts);
  }

  /** Counts are listed by falling number, then with warnings first, then by name. */
  lemma {:induction false} ListedByImportance(before: NameOrder, counts: seq<SignalCount>, i: nat, j: nat)
    requires InOrder(before, counts) && i < j < |counts|
    ensures counts[i].count >= counts[j].count
    ensures counts[i].count == counts[j].count && counts[i].severity != counts[j].severity ==>
              counts[i].severity == Warning && counts[j].severity == Info
    ensures counts[i].count == counts[j].count && counts[i].severity == counts[j].severity ==>
              before(counts[i].name, counts[j].name)
  {
    if i > 0 {
      ListedByImportance(before, counts[1..], i - 1, j - 1);
    } else {
      assert Less(before, counts[0], counts[j]);
    }
  }

  // ----- Merging -----

  function Repeat(s: Signal, n: nat): seq<Signal> {
    if n == 0 then [] else Repeat(s, n - 1) + [s]
  }

  /** Every count written out as that many signals. */
  function Expand(counts: seq<SignalCount>): seq<Signal> {
    if counts == [] then []
    else Repeat(Signal(counts[0].name, counts[0].severity, None), counts[0].count) + Expand(counts[1..])
  }

  function Merge(before: NameOrder, counts: seq<SignalCount>, signals: seq<Signal>): seq<SignalCount> {
    Build(before, Expand(counts) + signals)
  }

  /** The loops of `mergeSignalCounts`. */
  method MergeSignalCounts(before: NameOrder, currentCounts: seq<SignalCount>, signals: seq<Signal>)
    returns (counts: seq<SignalCount>)
    ensures counts == Merge(before, currentCounts, signals)
  {
    var expanded: seq<Signal> := [];
    for i := 0 to |currentCounts|
      invariant expanded + Expand(currentCounts[i..]) == Expand(currentCounts)
    {
      var count := currentCounts[i];
      ghost var done := expanded;
      for index := 0 to count.count
        invariant expanded == done + Repeat(Signal(count.name, count.severity, None), index)
      {
        expanded := expanded + [Signal(count.name, count.severity, None)];
      }
      assert currentCounts[i..][1..] == currentCounts[i + 1..];
      assert Expand(currentCounts[i..]) == Repeat(Signal(count.name, count.severity, None), count.count)
        + Expand(currentCounts[i + 1..]);
    }
    assert currentCounts[|currentCounts|..] == [] && expanded + [] == expanded;
    counts := BuildSignalCounts(before, expanded + signals);
  }

  lemma {:induction false} ConcatCounts(a: seq<Signal>, b: seq<Signal>, name: string)
    ensures Occurrences(a + b, name) == Occurrences(a, name) + Occurrences(b, name)
    ensures Worst(a + b, name) == if Worst(b, name) == Warning then Warning else Worst(a, name)
  {
    if b == [] {
      assert a + b == a;
    } else {
      assert (a + b)[..|a + b| - 1] == a + b[..|b| - 1];
      ConcatCounts(a, b[..|b| - 1], name);
    }
  }

  lemma {:induction false} RepeatCounts(s: Signal, n: nat, name: string)
    ensures Occurrences(Repeat(s, n), name) == if name == s.name then n else 0
    ensures Worst(Repeat(s, n), name) == if name == s.name && n > 0 then s.severity else Info
  {
    if n > 0 {
      RepeatCounts(s, n - 1, name);
      assert Repeat(s, n) == Repeat(s, n - 1) + [s];
      hide Repeat;
      OneMoreCounts(Repeat(s, n - 1), s, name);
    }
  }

  lemma OneMoreCounts(signals: seq<Signal>, s: Signal, name: string)
    ensures Occurrences(signals + [s], name) == Occurrences(signals, name) + if s.name == name then 1 else 0
    ensures Worst(signals + [s], name)
      == if s.name == name && s.severity == Warning then Warning else Worst(signals, name)
  {
    assert (signals + [s])[..|signals|] == signals;
  }

  lemma {:induction false} ExpandSaysTheSame(counts: seq<SignalCount>, name: string)
    requires DistinctNames(counts)
    ensures Occurrences(Expand(counts), name) == (match Lookup(counts, name) case None => 0 case Some(c) => c.count)
    ensures Worst(Expand(counts), name) ==
      (match Lookup(counts, name) case None => Info case Some(c) => if c.count > 0 then c.severity else Info)
  {
    if counts != [] {
      var s := Signal(counts[0].name, counts[0].severity, None);
      ExpandSaysTheSame(counts[1..], name);
      RepeatCounts(s, counts[0].count, name);
      ConcatCounts(Repeat(s, counts[0].count), Expand(counts[1..]), name);
    }
  }

  /** Merging new signals into the counts of old ones gives the counts of all of them, with the same
      severities and in the same order. */
  lemma MergeEqualsBuild(before: NameOrder, xs: seq<Signal>, ys: seq<Signal>)
    requires IsNameOrder(before)
    ensures Merge(before, Build(before, xs), ys) == Build(before, xs + ys)
  {
    var expanded := Expand(Build(before, xs)) + ys;
    BuildIsExpected(before, xs);
    BuildIsExpected(before, expanded);
    BuildIsExpected(before, xs + ys);
    forall name
      ensures Expected(expanded, name) == Expected(xs + ys, name)
    {
      ExpandSaysTheSame(Build(before, xs), name);
      ConcatCounts(Expand(Build(before, xs)), ys, name);
      ConcatCounts(xs, ys, name);
      FewWarningsWithoutOccurrence(xs, name);
    }
    hide Build, Expected, InOrder, IsNameOrder, Lookup, DistinctNames;
    SortedCountsAreCanonical(before, Build(before, expanded), Build(before, xs + ys));
  }

  // ----- Migration candidates -----

  datatype Status = Completed | Failed | Degraded | Clarification | NotHandled

  datatype Row = Row(status: Status, handled: bool, warningCount: int, activeProfileIds: seq<string>,
                     profileStepIds: seq<string>, signals: seq<Signal>)

  datatype Candidate = Candidate(profileId: string, runCount: nat, completedCount: nat, handledCount: nat,
                                 warningRowCount: nat,
                                 failedCount: nat, degradedCount: nat, clarificationCount: nat, notHandledCount: nat,
                                 profileStepIds: seq<string>, signalCounts: seq<SignalCount>,
                                   signalDetails: seq<string>)

  /** What `uniqueNonEmptyStrings` keeps of a string. */
  function Trimmed(s: string): Option<string> {
    if Texts.Trim(s) == "" then None else Some(Texts.Trim(s))
  }

  function UniqueNonEmpty(values: seq<string>): seq<string> {
    Planning.UniqueNormal(Trimmed, values)
  }

  /** The detail of each signal, or its name if it has none, unless that is empty. */
  function Details(signals: seq<Signal>): seq<string> {
    Planning.Filter(seq(|signals|, i requires 0 <= i < |signals| =>
                          if signals[i].detail.Some? then signals[i].detail.value else signals[i].name),
                    detail => |detail| > 0)
  }

  function NoRuns(profileId: string): Candidate {
    Candidate(profileId, 0, 0, 0, 0, 0, 0, 0, 0, [], [], [])
  }

  /** The body of the inner loop: one more row of a candidate. */
  function AddRow(before: NameOrder, c: Candidate, row: Row): Candidate {
    c.(runCount := c.runCount + 1,
       completedCount := c.completedCount + (if row.status.Completed? then 1 else 0),
       failedCount := c.failedCount + (if row.status.Failed? then 1 else 0),
       degradedCount := c.degradedCount + (if row.status.Degraded? then 1 else 0),
       clarificationCount := c.clarificationCount + (if row.status.Clarification? then 1 else 0),
       notHandledCount := c.notHandledCount + (if row.status.NotHandled? then 1 else 0),
       handledCount := c.handledCount + (if row.handled then 1 else 0),
       warningRowCount := c.warningRowCount + (if row.warningCount > 0 then 1 else 0),
       profileStepIds := UniqueNonEmpty(c.profileStepIds + row.profileStepIds),
       signalCounts := Merge(before, c.signalCounts, row.signals),
       signalDetails := UniqueNonEmpty(c.signalDetails + Details(row.signals)))
  }

  // The reference: all rows of a profile, counted at once.

  function RowsOf(rows: seq<Row>, profileId: string): seq<Row> {
    if rows == [] then []
    else
      var earlier, row := RowsOf(rows[..|rows| - 1], profileId), rows[|rows| - 1];
      if profileId in UniqueNonEmpty(row.activeProfileIds) then earlier + [row] else earlier
  }

  function Count(rows: seq<Row>, p: Row -> bool): nat {
    if rows == [] then 0 else Count(rows[..|rows| - 1], p) + if p(rows[|rows| - 1]) then 1 else 0
  }

  function AllSteps(rows: seq<Row>): seq<string> {
    if rows == [] then [] else AllSteps(rows[..|rows| - 1]) + rows[|rows| - 1].profileStepIds
  }

  function AllDetails(rows: seq<Row>): seq<string> {
    if rows == [] then [] else AllDetails(rows[..|rows| - 1]) + Details(rows[|rows| - 1].signals)
  }

  function AllSignals(rows: seq<Row>): seq<Signal> {
    if rows == [] then [] else AllSignals(rows[..|rows| - 1]) + rows[|rows| - 1].signals
  }

  function Recount(before: NameOrder, rows: seq<Row>, profileId: string): Candidate {
    Candidate(profileId, |rows|, Count(rows, (r: Row) => r.status.Completed?), Count(rows, (r: Row) => r.handled),
              Count(rows, (r: Row) => r.warningCount > 0), Count(rows, (r: Row) => r.status.Failed?),
              Count(rows, (r: Row) => r.status.Degraded?), Count(rows, (r: Row) => r.status.Clarification?),
              Count(rows, (r: Row) => r.status.NotHandled?), UniqueNonEmpty(AllSteps(rows)),
                Build(before, AllSignals(rows)),
              UniqueNonEmpty(AllDetails(rows)))
  }

  lemma TrimmedIsNormalizer()
    ensures Planning.IsNormalizer(Trimmed)
  {
    forall s | Trimmed(s).Some?
      ensures Trimmed(Trimmed(s).value) == Trimmed(s)
    {
      Texts.TrimIsIdempotent(s);
    }
  }

  lemma {:induction false} UniqueInParts(norm: Planning.Normalizer, a: seq<string>, b: seq<string>)
    requires Planning.IsNormalizer(norm)
    ensures Planning.UniqueNormal(norm, Planning.UniqueNormal(norm, a) + b) == Planning.UniqueNormal(norm, a + b)
  {
    var u := Planning.UniqueNormal(norm, a);
    if b == [] {
      assert u + b == u && a + b == a;
      Planning.UniqueNormalIsDistinct(norm, a);
      Planning.UniqueNormalOfNormal(norm, u);
    } else {
      var init, v := b[..|b| - 1], b[|b| - 1];
      UniqueInParts(norm, a, init);
      assert u + b == (u + init) + [v] && a + b == (a + init) + [v];
      hide *;
      Planning.NextIsKeptIfNew(norm, u + init, v);
      Planning.NextIsKeptIfNew(norm, a + init, v);
    }
  }

  /** Adding one row to a recount gives the recount of one row more. */
  lemma AddRowRecounts(before: NameOrder, rows: seq<Row>, row: Row, profileId: string)
    requires IsNameOrder(before)
    ensures AddRow(before, Recount(before, rows, profileId), row) == Recount(before, rows + [row], profileId)
  {
    hide Build, Merge, IsNameOrder, UniqueNonEmpty, Details;
    assert (rows + [row])[..|rows + [row]| - 1] == rows;
    MergeEqualsBuild(before, AllSignals(rows), row.signals);
    assert UniqueNonEmpty(UniqueNonEmpty(AllSteps(rows)) + row.profileStepIds) ==
      UniqueNonEmpty(AllSteps(rows) + row.profileStepIds) by {
      UniquePartByPart(AllSteps(rows), row.profileStepIds);
    }
    UniquePartByPart(AllDetails(rows), Details(row.signals));
  }

  lemma UniquePartByPart(a: seq<string>, b: seq<string>)
    ensures UniqueNonEmpty(UniqueNonEmpty(a) + b) == UniqueNonEmpty(a + b)
  {
    TrimmedIsNormalizer();
    UniqueInParts(Trimmed, a, b);
  }

  /** Exactly the profiles some row was active in have a candidate, and it is their recount. */
  ghost predicate CandidatesOf(before: NameOrder, rows: seq<Row>, candidates: map<string, Candidate>) {
    forall id ::
      if RowsOf(rows, id) == [] then id !in candidates
      else id in candidates && candidates[id] == Recount(before, RowsOf(rows, id), id)
  }

  /** The same while the profiles `ids` of the last row are done. */
  ghost predicate CandidatesDuring(before: NameOrder, rows: seq<Row>, row: Row, ids: seq<string>,
                                   candidates: map<string, Candidate>)
  {
    forall id ::
      var own := RowsOf(rows, id) + if id in ids then [row] else [];
      if own == [] then id !in candidates
      else id in candidates && candidates[id] == Recount(before, own, id)
  }

  lemma OneMoreProfile(before: NameOrder, rows: seq<Row>, row: Row, ids: seq<string>,
                       candidates: map<string, Candidate>, id: string)
    requires IsNameOrder(before) && CandidatesDuring(before, rows, row, ids, candidates) && id !in ids
    ensures CandidatesDuring(before, rows, row, ids + [id],
                             candidates[id := AddRow(before, if id in candidates then candidates[id]
                                                     else NoRuns(id), row)])
  {
    hide AddRow, Recount, RowsOf, IsNameOrder;
    assert RowsOf(rows, id) + [] == RowsOf(rows, id);
    AddRowRecounts(before, RowsOf(rows, id), row, id);
    NoRunsIsRecount(before, id);
  }

  lemma NoRunsIsRecount(before: NameOrder, id: string)
    ensures NoRuns(id) == Recount(before, [], id)
  {
  }

  lemma RowDone(before: NameOrder, rows: seq<Row>, row: Row, candidates: map<string, Candidate>)
    requires CandidatesDuring(before, rows, row, UniqueNonEmpty(row.activeProfileIds), candidates)
    ensures CandidatesOf(before, rows + [row], candidates)
  {
    hide Recount, UniqueNonEmpty;
    forall id
      ensures RowsOf(rows + [row], id) == RowsOf(rows, id) + if id in UniqueNonEmpty(row.activeProfileIds) then [row]
        else []
    {
      assert (rows + [row])[..|rows + [row]| - 1] == rows;
    }
  }

  lemma RowStarted(before: NameOrder, rows: seq<Row>, row: Row, candidates: map<string, Candidate>)
    requires CandidatesOf(before, rows, candidates)
    ensures CandidatesDuring(before, rows, row, [], candidates)
  {
    hide Recount, RowsOf;
    forall id
      ensures RowsOf(rows, id) + [] == RowsOf(rows, id)
    {
    }
  }

  lemma ProfileIdsAreDistinct(row: Row)
    ensures Distinct(UniqueNonEmpty(row.activeProfileIds))
  {
    TrimmedIsNormalizer();
    Planning.UniqueNormalIsDistinct(Trimmed, row.activeProfileIds);
  }

  lemma NextIsNew(ids: seq<string>, k: nat)
    requires k < |ids| && Distinct(ids)
    ensures ids[k] !in ids[..k] && ids[..k + 1] == ids[..k] + [ids[k]]
  {
  }

  /** The inner loop of `buildPlanningProfileMigrationCandidates`: one row, for each of its profiles. */
  method AddRowToCandidates(before: NameOrder, ghost rows: seq<Row>, row: Row, candidates: map<string, Candidate>)
    returns (updated: map<string, Candidate>)
    requires IsNameOrder(before) && CandidatesOf(before, rows, candidates)
    ensures CandidatesOf(before, rows + [row], updated)
  {
    hide *;
    var ids := UniqueNonEmpty(row.activeProfileIds);
    ProfileIdsAreDistinct(row);
    RowStarted(before, rows, row, candidates);
    updated := candidates;
    assert ids[..0] == [];
    for k := 0 to |ids|
      invariant CandidatesDuring(before, rows, row, ids[..k], updated)
    {
      NextIsNew(ids, k);
      OneMoreProfile(before, rows, row, ids[..k], updated, ids[k]);
      var candidate := if ids[k] in updated then updated[ids[k]] else NoRuns(ids[k]);
      updated := updated[ids[k] := AddRow(before, candidate, row)];
    }
    assert ids[..|ids|] == ids;
    RowDone(before, rows, row, updated);
  }

  /** The row loop of `buildPlanningProfileMigrationCandidates`: each candidate, built up by merging counts,
      holds the counts of all its rows. */
  method BuildCandidates(before: NameOrder, rows: seq<Row>) returns (candidates: map<string, Candidate>)
    requires IsNameOrder(before)
    ensures CandidatesOf(before, rows, candidates)
  {
    candidates := map[];
    assert CandidatesOf(before, [], candidates);
    hide *;
    for i := 0 to |rows|
      invariant CandidatesOf(before, rows[..i], candidates)
    {
      candidates := AddRowToCandidates(before, rows[..i], rows[i], candidates);
      assert rows[..i + 1] == rows[..i] + [rows[i]];
    }
    assert rows[..|rows|] == rows;
  }

  // ----- What a candidate says -----

  /** How often a condition holds of the rows. */
  ghost function Times(rows: seq<Row>, p: Row -> bool): nat {
    multiset(seq(|rows|, i requires 0 <= i < |rows| => p(rows[i])))[true]
  }

  lemma {:induction false} CountIsTimes(rows: seq<Row>, p: Row -> bool)
    ensures Count(rows, p) == Times(rows, p)
  {
    if rows != [] {
      var n := |rows| - 1;
      CountIsTimes(rows[..n], p);
      assert seq(|rows|, i requires 0 <= i < |rows| => p(rows[i]))
        == seq(n, i requires 0 <= i < n => p(rows[..n][i])) + [p(rows[n])];
    }
  }

  /** The numbers of a candidate are those of its rows. */
  lemma CandidateCounts(before: NameOrder, rows: seq<Row>, profileId: string)
    ensures var c := Recount(before, rows, profileId);
            && c.profileId == profileId && c.runCount == |rows|
            && c.completedCount == Times(rows, (r: Row) => r.status == Completed)
            && c.failedCount == Times(rows, (r: Row) => r.status == Failed)
            && c.degradedCount == Times(rows, (r: Row) => r.status == Degraded)
            && c.clarificationCount == Times(rows, (r: Row) => r.status == Clarification)
            && c.notHandledCount == Times(rows, (r: Row) => r.status == NotHandled)
            && c.handledCount == Times(rows, (r: Row) => r.handled)
            && c.warningRowCount == Times(rows, (r: Row) => r.warningCount >= 1)
  {
    CountIsTimes(rows, (r: Row) => r.status.Completed?);
    CountIsTimes(rows, (r: Row) => r.status.Failed?);
    CountIsTimes(rows, (r: Row) => r.status.Degraded?);
    CountIsTimes(rows, (r: Row) => r.status.Clarification?);
    CountIsTimes(rows, (r: Row) => r.status.NotHandled?);
    CountIsTimes(rows, (r: Row) => r.handled);
    CountIsTimes(rows, (r: Row) => r.warningCount > 0);
    SameTimes(rows, (r: Row) => r.status.Completed?, (r: Row) => r.status == Completed);
    SameTimes(rows, (r: Row) => r.status.Failed?, (r: Row) => r.status == Failed);
    SameTimes(rows, (r: Row) => r.status.Degraded?, (r: Row) => r.status == Degraded);
    SameTimes(rows, (r: Row) => r.status.Clarification?, (r: Row) => r.status == Clarification);
    SameTimes(rows, (r: Row) => r.status.NotHandled?, (r: Row) => r.status == NotHandled);
    SameTimes(rows, (r: Row) => r.warningCount > 0, (r: Row) => r.warningCount >= 1);
    hide Times, Count, UniqueNonEmpty, Build;
  }

  lemma SameTimes(rows: seq<Row>, p: Row -> bool, q: Row -> bool)
    requires forall r :: p(r) <==> q(r)
    ensures Times(rows, p) == Times(rows, q)
  {
    assert seq(|rows|, i requires 0 <= i < |rows| => p(rows[i])) ==
      seq(|rows|, i requires 0 <= i < |rows| => q(rows[i]));
  }

  /** Signal `i` says `x`: as its detail, or by its name if it has none. */
  ghost predicate Says(signals: seq<Signal>, i: int, x: string) {
    && 0 <= i < |signals|
    && match signals[i].detail
       case Some(detail) => x == detail
       case None => x == signals[i].name
  }

  lemma DetailIff(signals: seq<Signal>, x: string)
    ensures x in Details(signals) <==> x != "" && exists i :: Says(signals, i, x)
  {
    var texts := seq(|signals|, i requires 0 <= i < |signals| =>
                       if signals[i].detail.Some? then signals[i].detail.value else signals[i].name);
    hide Planning.Filter;
    if i :| Says(signals, i, x) {
      assert texts[i] == x;
    }
    if x in texts {
      var i :| 0 <= i < |texts| && texts[i] == x;
      assert Says(signals, i, x);
    }
  }

  ghost predicate NamesStep(rows: seq<Row>, i: int, x: string) {
    0 <= i < |rows| && Planning.AsksFor(Trimmed, rows[i].profileStepIds, x)
  }

  ghost predicate NamesDetail(rows: seq<Row>, i: int, x: string) {
    0 <= i < |rows| && Planning.AsksFor(Trimmed, Details(rows[i].signals), x)
  }

  lemma {:induction false} StepsAsked(rows: seq<Row>, x: string)
    ensures Planning.AsksFor(Trimmed, AllSteps(rows), x) <==> exists i :: NamesStep(rows, i, x)
  {
    hide Planning.AsksFor, Trimmed;
    if rows == [] {
      Planning.NobodyAsks(Trimmed, x);
    } else {
      var n := |rows| - 1;
      StepsAsked(rows[..n], x);
      Planning.AskedInEither(Trimmed, AllSteps(rows[..n]), rows[n].profileStepIds, x);
      if i :| NamesStep(rows, i, x) {
        assert i == n || NamesStep(rows[..n], i, x);
      }
      if i :| NamesStep(rows[..n], i, x) {
        assert NamesStep(rows, i, x);
      }
      assert NamesStep(rows, n, x) <==> Planning.AsksFor(Trimmed, rows[n].profileStepIds, x);
    }
  }

  lemma {:induction false} DetailsAsked(rows: seq<Row>, x: string)
    ensures Planning.AsksFor(Trimmed, AllDetails(rows), x) <==> exists i :: NamesDetail(rows, i, x)
  {
    hide Planning.AsksFor, Trimmed, Details;
    if rows == [] {
      Planning.NobodyAsks(Trimmed, x);
    } else {
      var n := |rows| - 1;
      DetailsAsked(rows[..n], x);
      Planning.AskedInEither(Trimmed, AllDetails(rows[..n]), Details(rows[n].signals), x);
      if i :| NamesDetail(rows, i, x) {
        assert i == n || NamesDetail(rows[..n], i, x);
      }
      if i :| NamesDetail(rows[..n], i, x) {
        assert NamesDetail(rows, i, x);
      }
      assert NamesDetail(rows, n, x) <==> Planning.AsksFor(Trimmed, Details(rows[n].signals), x);
    }
  }

  lemma NamedIff(values: seq<string>, x: string)
    ensures x in UniqueNonEmpty(values) <==> Planning.AsksFor(Trimmed, values, x)
  {
    Planning.KeptIffGiven(Trimmed, values, x);
  }

  /** The steps and details of a candidate are those that some row names, trimmed, without the empty ones. */
  lemma CandidateNames(before: NameOrder, rows: seq<Row>, profileId: string, x: string)
    ensures x in Recount(before, rows, profileId).profileStepIds <==> exists i :: NamesStep(rows, i, x)
    ensures x in Recount(before, rows, profileId).signalDetails <==> exists i :: NamesDetail(rows, i, x)
  {
    NamedIff(AllSteps(rows), x);
    NamedIff(AllDetails(rows), x);
    StepsAsked(rows, x);
    DetailsAsked(rows, x);
    hide UniqueNonEmpty, AllSteps, AllDetails, Build, Count, Planning.AsksFor;
  }

  /** A row counts for exactly the profiles that it names, by any spelling with white space around. */
  lemma {:induction false} RowsOfIff(rows: seq<Row>, profileId: string, row: Row)
    ensures row in RowsOf(rows, profileId) <==>
            row in rows && Planning.AsksFor(Trimmed, row.activeProfileIds, profileId)
  {
    if rows != [] {
      var init, last := rows[..|rows| - 1], rows[|rows| - 1];
      NamedIff(last.activeProfileIds, profileId);
      hide Planning.AsksFor, UniqueNonEmpty;
      RowsOfIff(init, profileId, row);
      assert rows == init + [last];
    }
  }

  // ----- Readiness -----

  datatype BlockingReason =
    | RunCountBelowMinimum(runs: nat, minimum: int)
    | NonCompletedRuns(missing: int)
    | UnhandledRuns(missing: int)
    | WarningRows(rows: nat)
    | MissingProfileSteps

  /** `finalizePlanningProfileMigrationCandidate`; without a reason the candidate is ready. */
  function BlockingReasons(c: Candidate, minRunCount: int): seq<BlockingReason> {
    (if c.runCount < minRunCount then [RunCountBelowMinimum(c.runCount, minRunCount)] else [])
    + (if c.completedCount != c.runCount then [NonCompletedRuns(c.runCount - c.completedCount)] else [])
    + (if c.handledCount != c.runCount then [UnhandledRuns(c.runCount - c.handledCount)] else [])
    + (if c.warningRowCount > 0 then [WarningRows(c.warningRowCount)] else [])
    + (if c.profileStepIds == [] then [MissingProfileSteps] else [])
  }

  /** Each reason against a candidate, and what it says. */
  lemma BlockingReasonIff(c: Candidate, minRunCount: int, r: BlockingReason)
    ensures r in BlockingReasons(c, minRunCount) <==>
            match r
            case RunCountBelowMinimum(runs, minimum) => runs == c.runCount && minimum == minRunCount && runs < minimum
            case NonCompletedRuns(missing) => missing == c.runCount - c.completedCount && missing != 0
            case UnhandledRuns(missing) => missing == c.runCount - c.handledCount && missing != 0
            case WarningRows(rows) => rows == c.warningRowCount && rows >= 1
            case MissingProfileSteps => c.profileStepIds == []
  {
  }

  lemma {:induction false} CountIsAllIff(rows: seq<Row>, p: Row -> bool)
    ensures Count(rows, p) <= |rows|
    ensures Count(rows, p) == |rows| <==> forall i :: 0 <= i < |rows| ==> p(rows[i])
    ensures Count(rows, p) == 0 <==> forall i :: 0 <= i < |rows| ==> !p(rows[i])
  {
    if rows != [] {
      CountIsAllIff(rows[..|rows| - 1], p);
    }
  }

  ghost predicate NamesSomeStep(rows: seq<Row>) {
    exists i :: 0 <= i < |rows| && NamesSome(Trimmed, rows[i].profileStepIds)
  }

  ghost predicate NamesSome(norm: Planning.Normalizer, values: seq<string>) {
    exists j :: 0 <= j < |values| && norm(values[j]).Some?
  }

  lemma {:induction false} StepsAreNamedIff(rows: seq<Row>)
    ensures UniqueNonEmpty(AllSteps(rows)) != [] <==> NamesSomeStep(rows)
  {
    hide Trimmed, NamesSome;
    if rows != [] {
      var n := |rows| - 1;
      StepsAreNamedIff(rows[..n]);
      UnionIsEmptyIff(Trimmed, AllSteps(rows[..n]), rows[n].profileStepIds);
      assert rows == rows[..n] + [rows[n]];
    }
  }

  lemma {:induction false} UnionIsEmptyIff(norm: Planning.Normalizer, a: seq<string>, b: seq<string>)
    ensures Planning.UniqueNormal(norm, a + b) == [] <==> Planning.UniqueNormal(norm, a) == [] && !NamesSome(norm, b)
  {
    if b == [] {
      assert a + b == a;
    } else {
      var n := |b| - 1;
      assert (a + b)[..|a + b| - 1] == a + b[..n];
      UnionIsEmptyIff(norm, a, b[..n]);
      assert b == b[..n] + [b[n]];
    }
  }

  /** A candidate is ready exactly when its profile was active in enough rows, all of them completed, handled
      and without warnings, and some of them named a step. */
  lemma ReadyIff(before: NameOrder, rows: seq<Row>, profileId: string, minRunCount: int)
    ensures BlockingReasons(Recount(before, rows, profileId), minRunCount) == [] <==>
            && |rows| >= minRunCount
            && (forall i :: 0 <= i < |rows| ==>
                rows[i].status == Completed && rows[i].handled && rows[i].warningCount <= 0)
            && NamesSomeStep(rows)
  {
    CountIsAllIff(rows, (r: Row) => r.status.Completed?);
    CountIsAllIff(rows, (r: Row) => r.handled);
    CountIsAllIff(rows, (r: Row) => r.warningCount > 0);
    StepsAreNamedIff(rows);
  }

  /** The five status counts of a candidate add up to its runs. */
  lemma {:induction false} StatusCountsAddUp(before: NameOrder, rows: seq<Row>, profileId: string)
    ensures var c := Recount(before, rows, profileId);
            c.completedCount + c.failedCount + c.degradedCount + c.clarificationCount + c.notHandledCount == c.runCount
  {
    if rows != [] {
      StatusCountsAddUp(before, rows[..|rows| - 1], profileId);
    }
  }
}
