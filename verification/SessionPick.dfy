/** Which session an event is about: `pickSessionForApplicant` and the store's
    newest-first lookups (packages/kyc-node/src/store.ts). */
module SessionPick {
  import opened Wrappers
  import opened SessionTypes

  /** The filters the store applies to its rows. */
  datatype Test =
    | Anyone
    | BoundTo(applicant: string)
    | UnboundOf(userId: string, provider: string)
    | OwnedBy(userId: string, provider: string)
    | OnLevel(level: string)
    | InProgress

  predicate Passes(test: Test, r: SessionRecord) {
    match test
    case Anyone => true
    case BoundTo(a) => r.providerApplicantId == Some(a)
    case UnboundOf(u, p) => r.userId == u && r.provider == p && r.providerApplicantId.None?
    case OwnedBy(u, p) => r.userId == u && r.provider == p
    case OnLevel(l) => r.levelName == Some(l)
    case InProgress => !Terminal(r.status)
  }

  function Filter(s: seq<SessionRecord>, q: Test): seq<SessionRecord> {
    if s == [] then []
    else
      var rest, last := s[..|s| - 1], s[|s| - 1];
      Filter(rest, q) + if Passes(q, last) then [last] else []
  }

  /** Stable insertion into a newest-first list: behind every record at least as new. */
  function Insert(s: seq<SessionRecord>, r: SessionRecord): seq<SessionRecord> {
    if s == [] || s[|s| - 1].createdAt >= r.createdAt then s + [r]
    else Insert(s[..|s| - 1], r) + [s[|s| - 1]]
  }

  /** `[...records].sort((a, b) => b.createdAt - a.createdAt)`; the sort is stable. */
  function NewestFirst(s: seq<SessionRecord>): seq<SessionRecord> {
    if s == [] then [] else Insert(NewestFirst(s[..|s| - 1]), s[|s| - 1])
  }

  function Find(s: seq<SessionRecord>, q: Test): Option<SessionRecord> {
    if s == [] then None
    else if Passes(q, s[0]) then Some(s[0])
    else Find(s[1..], q)
  }

  function OrElse<T>(a: Option<T>, b: Option<T>): Option<T> {
    if a.Some? then a else b
  }

  /** A level that takes part in the pick: an empty level name is falsy in the source. */
  predicate NamesLevel(level: Option<string>) {
    level.Some? && level.value != ""
  }

  function PickSessionForApplicant(records: seq<SessionRecord>, level: Option<string>): Option<SessionRecord> {
    var newestFirst := NewestFirst(records);
    var onLevel := if NamesLevel(level) then Find(newestFirst, OnLevel(level.value)) else None;
    var inProgress := Find(newestFirst, InProgress);
    OrElse(onLevel, OrElse(inProgress, Find(newestFirst, Anyone)))
  }

  /** One test, or two at once. */
  datatype Query = One(test: Test) | Both(first: Test, second: Test)

  predicate Matches(q: Query, r: SessionRecord) {
    match q
    case One(t) => Passes(t, r)
    case Both(a, b) => Passes(a, r) && Passes(b, r)
  }

  // ---- The reference: one scan that keeps the first record of the latest creation time ----

  function Newest(s: seq<SessionRecord>, q: Query): Option<SessionRecord> {
    if s == [] then None
    else
      var best, last := Newest(s[..|s| - 1], q), s[|s| - 1];
      if Matches(q, last) && (best.None? || best.value.createdAt < last.createdAt) then Some(last) else best
  }

  predicate SortedNewestFirst(s: seq<SessionRecord>) {
    forall i, j :: 0 <= i < j < |s| ==> s[i].createdAt >= s[j].createdAt
  }

  lemma {:induction false} InsertKeeps(s: seq<SessionRecord>, r: SessionRecord)
    ensures multiset(Insert(s, r)) == multiset(s) + multiset{r}
  {
    if s == [] || s[|s| - 1].createdAt >= r.createdAt {
    } else {
      InsertKeeps(s[..|s| - 1], r);
      assert s == s[..|s| - 1] + [s[|s| - 1]];
    }
  }

  lemma {:induction false} InsertSorts(s: seq<SessionRecord>, r: SessionRecord)
    requires SortedNewestFirst(s)
    ensures SortedNewestFirst(Insert(s, r))
  {
    if s == [] || s[|s| - 1].createdAt >= r.createdAt {
    } else {
      var rest, last := s[..|s| - 1], s[|s| - 1];
      InsertSorts(rest, r);
      InsertKeeps(rest, r);
      var t := Insert(rest, r);
      forall i | 0 <= i < |t| ensures t[i].createdAt >= last.createdAt {
        assert t[i] in multiset(t);
        assert t[i] == r || t[i] in rest;
      }
    }
  }

  lemma {:induction false} NewestFirstKeeps(s: seq<SessionRecord>)
    ensures multiset(NewestFirst(s)) == multiset(s)
  {
    if s == [] {
    } else {
      NewestFirstKeeps(s[..|s| - 1]);
      InsertKeeps(NewestFirst(s[..|s| - 1]), s[|s| - 1]);
      assert s == s[..|s| - 1] + [s[|s| - 1]];
    }
  }

  lemma {:induction false} NewestFirstSorts(s: seq<SessionRecord>)
    ensures SortedNewestFirst(NewestFirst(s))
    ensures multiset(NewestFirst(s)) == multiset(s)
  {
    NewestFirstKeeps(s);
    if s == [] {
    } else {
      NewestFirstSorts(s[..|s| - 1]);
      InsertSorts(NewestFirst(s[..|s| - 1]), s[|s| - 1]);
    }
  }

  lemma {:induction false} FindAppend(s: seq<SessionRecord>, r: SessionRecord, q: Test)
    ensures Find(s + [r], q) == OrElse(Find(s, q), if Passes(q, r) then Some(r) else None)
  {
    if s == [] {
    } else {
      assert (s + [r])[1..] == s[1..] + [r];
      FindAppend(s[1..], r, q);
    }
  }

  lemma {:induction false} FindFound(s: seq<SessionRecord>, q: Test)
    ensures Find(s, q).Some? ==> Find(s, q).value in s && Passes(q, Find(s, q).value)
    ensures Find(s, q).None? ==> forall r :: r in s ==> !Passes(q, r)
  {
    if s == [] {
    } else {
      FindFound(s[1..], q);
    }
  }

  lemma {:induction false} FindInsert(s: seq<SessionRecord>, r: SessionRecord, q: Test)
    requires SortedNewestFirst(s)
    ensures Find(Insert(s, r), q)
         == (var best := Find(s, q);
             if Passes(q, r) && (best.None? || best.value.createdAt < r.createdAt) then Some(r) else best)
  {
    FindFound(s, q);
    if s == [] || s[|s| - 1].createdAt >= r.createdAt {
      FindAppend(s, r, q);
    } else {
      var rest, last := s[..|s| - 1], s[|s| - 1];
      assert s == rest + [last];
      FindInsert(rest, r, q);
      FindAppend(rest, last, q);
      FindAppend(Insert(rest, r), last, q);
    }
  }

  /** Sorting and taking the first match finds what a single scan for the newest match finds. */
  lemma {:induction false} FindNewestFirst(s: seq<SessionRecord>, q: Test)
    ensures Find(NewestFirst(s), q) == Newest(s, One(q))
  {
    if s == [] {
    } else {
      var rest, last := s[..|s| - 1], s[|s| - 1];
      FindNewestFirst(rest, q);
      NewestFirstSorts(rest);
      FindInsert(NewestFirst(rest), last, q);
    }
  }

  lemma NewestAppend(s: seq<SessionRecord>, r: SessionRecord, q: Query)
    ensures Newest(s + [r], q)
         == (var best := Newest(s, q);
             if Matches(q, r) && (best.None? || best.value.createdAt < r.createdAt) then Some(r) else best)
  {
    assert (s + [r])[..|s|] == s;
  }

  lemma {:induction false} NewestFiltered(s: seq<SessionRecord>, f: Test, q: Test)
    ensures Newest(Filter(s, f), One(q)) == Newest(s, Both(f, q))
  {
    if s == [] {
    } else {
      var rest, last := s[..|s| - 1], s[|s| - 1];
      assert s == rest + [last];
      if Passes(f, last) {
        assert Filter(s, f) == Filter(rest, f) + [last];
        NewestAppend(Filter(rest, f), last, One(q));
      } else {
        assert Filter(s, f) == Filter(rest, f) + [] == Filter(rest, f);
      }
      NewestAppend(rest, last, Both(f, q));
      NewestFiltered(rest, f, q);
    }
  }

  predicate NewestMatch(s: seq<SessionRecord>, q: Query, r: SessionRecord) {
    r in s && Matches(q, r) && forall x :: x in s && Matches(q, x) ==> x.createdAt <= r.createdAt
  }

  predicate NoMatch(s: seq<SessionRecord>, q: Query) {
    forall r :: r in s ==> !Matches(q, r)
  }

  /** What the scan returns: a match no other match is newer than. */
  lemma {:induction false} NewestMeaning(s: seq<SessionRecord>, q: Query)
    ensures Newest(s, q).None? <==> NoMatch(s, q)
    ensures Newest(s, q).Some? ==> NewestMatch(s, q, Newest(s, q).value)
  {
    if s == [] {
    } else {
      var rest, last := s[..|s| - 1], s[|s| - 1];
      NewestMeaning(rest, q);
      assert s == rest + [last];
      assert forall r :: r in s <==> r in rest || r == last;
      assert last in s;
    }
  }

  lemma PickByNewest(records: seq<SessionRecord>, level: Option<string>)
    ensures PickSessionForApplicant(records, level)
         == OrElse(if NamesLevel(level) then Newest(records, One(OnLevel(level.value))) else None,
                   OrElse(Newest(records, One(InProgress)), Newest(records, One(Anyone))))
  {
    if NamesLevel(level) { FindNewestFirst(records, OnLevel(level.value)); }
    FindNewestFirst(records, InProgress);
    FindNewestFirst(records, Anyone);
  }

  /** The query that decides: on the event's level if a record is, else in progress if one is, else any. */
  function Deciding(records: seq<SessionRecord>, level: Option<string>): Query {
    if NamesLevel(level) && !NoMatch(records, One(OnLevel(level.value))) then One(OnLevel(level.value))
    else if !NoMatch(records, One(InProgress)) then One(InProgress)
    else One(Anyone)
  }

  /** The rule in words: the newest on the event's level, else the newest in progress, else the newest. */
  lemma PickMeaning(records: seq<SessionRecord>, level: Option<string>)
    ensures PickSessionForApplicant(records, level) == Newest(records, Deciding(records, level))
    ensures PickSessionForApplicant(records, level).None? <==> records == []
    ensures PickSessionForApplicant(records, level).Some? ==>
              NewestMatch(records, Deciding(records, level), PickSessionForApplicant(records, level).value)
  {
    PickByNewest(records, level);
    if NamesLevel(level) { NewestMeaning(records, One(OnLevel(level.value))); }
    NewestMeaning(records, One(InProgress));
    NewestMeaning(records, One(Anyone));
    if records != [] {
      assert records[0] in records && Matches(One(Anyone), records[0]);
    }
  }

  /** The same in the rows' own words; an empty level is no level. */
  lemma PickInWords(records: seq<SessionRecord>, level: Option<string>, picked: SessionRecord)
    requires PickSessionForApplicant(records, level) == Some(picked)
    ensures picked in records
    ensures var there := level.Some? && level.value != "" && exists r :: r in records && r.levelName == level;
            var open := exists r :: r in records && r.status != Approved && r.status != FinallyRejected;
            && (there ==> picked.levelName == level
                          && forall r :: r in records && r.levelName == level ==> r.createdAt <= picked.createdAt)
            && (!there && open ==>
                  && picked.status != Approved && picked.status != FinallyRejected
                  && forall r :: r in records && r.status != Approved && r.status != FinallyRejected ==>
                       r.createdAt <= picked.createdAt)
            && (!there && !open ==> forall r :: r in records ==> r.createdAt <= picked.createdAt)
  {
    PickMeaning(records, level);
    var q := Deciding(records, level);
    assert forall r :: r in records && Matches(q, r) ==> r.createdAt <= picked.createdAt;
  }

  // ---- the order the rows come in ----

  /** The in-memory store reads its rows in insertion order, the SQL store in an order of its own: the same rows. */
  ghost predicate Reordered(s: seq<SessionRecord>, t: seq<SessionRecord>) {
    multiset(s) == multiset(t)
  }

  /** No two different records share the newest creation time of the class that decides. */
  ghost predicate OneNewest(s: seq<SessionRecord>, q: Query) {
    forall a, b :: NewestMatch(s, q, a) && NewestMatch(s, q, b) ==> a == b
  }

  lemma ReorderedMatches(s: seq<SessionRecord>, t: seq<SessionRecord>, level: Option<string>)
    requires Reordered(s, t)
    ensures Deciding(s, level) == Deciding(t, level)
    ensures forall q, r :: NewestMatch(s, q, r) <==> NewestMatch(t, q, r)
  {
    assert forall r :: r in s <==> r in multiset(s);
    assert forall r :: r in t <==> r in multiset(t);
    assert forall r :: r in s <==> r in t;
  }

  lemma SamePick(s: seq<SessionRecord>, t: seq<SessionRecord>, level: Option<string>)
    requires Reordered(s, t) && OneNewest(s, Deciding(s, level))
    ensures PickSessionForApplicant(s, level) == PickSessionForApplicant(t, level)
  {
    ReorderedMatches(s, t, level);
    PickMeaning(s, level);
    PickMeaning(t, level);
    assert |s| == |multiset(s)| && |t| == |multiset(t)|;
  }

  /** A newest match that comes first is the one the scan keeps. */
  lemma {:induction false} FirstStays(a: SessionRecord, rest: seq<SessionRecord>, q: Query)
    requires Matches(q, a) && forall r :: r in rest && Matches(q, r) ==> r.createdAt <= a.createdAt
    ensures Newest([a] + rest, q) == Some(a)
  {
    var s := [a] + rest;
    if rest == [] {
      assert s[..|s| - 1] == [];
    } else {
      assert s[..|s| - 1] == [a] + rest[..|rest| - 1] && s[|s| - 1] == rest[|rest| - 1];
      FirstStays(a, rest[..|rest| - 1], q);
    }
  }

  /** Any record that ties for the newest of the deciding class is the pick of some order of the rows. */
  lemma TiedRecordCanBePicked(s: seq<SessionRecord>, level: Option<string>, a: SessionRecord)
    returns (t: seq<SessionRecord>)
    requires NewestMatch(s, Deciding(s, level), a)
    ensures Reordered(s, t) && PickSessionForApplicant(t, level) == Some(a)
  {
    var i :| 0 <= i < |s| && s[i] == a;
    var rest := s[..i] + s[i + 1..];
    t := [a] + rest;
    assert s == s[..i] + [a] + s[i + 1..];
    ReorderedMatches(s, t, level);
    FirstStays(a, rest, Deciding(s, level));
    PickMeaning(t, level);
  }

  /** Exactly when both stores decide alike, whatever order the rows come in: no two records tie for the newest of the
      class that decides. Ties elsewhere are harmless. */
  lemma PickIgnoresRowOrderExactly(s: seq<SessionRecord>, level: Option<string>)
    ensures (forall t :: Reordered(s, t) ==> PickSessionForApplicant(t, level) == PickSessionForApplicant(s, level))
       <==> OneNewest(s, Deciding(s, level))
  {
    var q := Deciding(s, level);
    if OneNewest(s, q) {
      forall t | Reordered(s, t) ensures PickSessionForApplicant(t, level) == PickSessionForApplicant(s, level) {
        SamePick(s, t, level);
      }
    } else {
      var a, b :| NewestMatch(s, q, a) && NewestMatch(s, q, b) && a != b;
      var first := TiedRecordCanBePicked(s, level, a);
      var second := TiedRecordCanBePicked(s, level, b);
      assert Reordered(s, first) && Reordered(s, second);
    }
  }

  /** With distinct creation times there are no ties at all. */
  lemma PickIgnoresRowOrder(s: seq<SessionRecord>, t: seq<SessionRecord>, level: Option<string>)
    requires Reordered(s, t)
    requires forall a, b :: a in s && b in s && a.createdAt == b.createdAt ==> a == b
    ensures PickSessionForApplicant(s, level) == PickSessionForApplicant(t, level)
  {
    PickIgnoresRowOrderExactly(s, level);
  }

  // ---- the lookups by applicant ----

  /** The query that decides among the rows bound to the applicant. */
  function DecidingFor(rows: seq<SessionRecord>, applicant: string, level: Option<string>): Query {
    if NamesLevel(level) && !NoMatch(rows, Both(BoundTo(applicant), OnLevel(level.value)))
    then Both(BoundTo(applicant), OnLevel(level.value))
    else if !NoMatch(rows, Both(BoundTo(applicant), InProgress)) then Both(BoundTo(applicant), InProgress)
    else Both(BoundTo(applicant), Anyone)
  }

  /** What the applicant lookup is to find among the rows: none exactly when no row is bound to the applicant, else the
      newest of them on the event's level, else the newest in progress, else the newest. */
  ghost predicate FoundFor(rows: seq<SessionRecord>, applicant: string, level: Option<string>,
                           found: Option<SessionRecord>)
  {
    && (found.None? <==> NoMatch(rows, One(BoundTo(applicant))))
    && (found.Some? ==> NewestMatch(rows, DecidingFor(rows, applicant, level), found.value))
  }

  /** In the rows' own words. */
  lemma FoundInWords(rows: seq<SessionRecord>, applicant: string, level: Option<string>, found: Option<SessionRecord>)
    requires FoundFor(rows, applicant, level, found)
    ensures found.None? <==> forall r :: r in rows ==> r.providerApplicantId != Some(applicant)
    ensures found.Some? ==>
              var mine := Some(applicant);
              var there := level.Some? && level.value != ""
                           && exists r :: r in rows && r.providerApplicantId == mine && r.levelName == level;
              && found.value in rows && found.value.providerApplicantId == mine
              && (there ==>
                    && found.value.levelName == level
                    && forall r :: r in rows && r.providerApplicantId == mine && r.levelName == level ==>
                         r.createdAt <= found.value.createdAt)
              && (!there ==>
                    forall r :: r in rows && r.providerApplicantId == mine
                                && (r.createdAt > found.value.createdAt
                                    || found.value.status == Approved || found.value.status == FinallyRejected) ==>
                      || r.status == Approved || r.status == FinallyRejected)
              && (!there && (found.value.status == Approved || found.value.status == FinallyRejected) ==>
                    forall r :: r in rows && r.providerApplicantId == mine ==> r.createdAt <= found.value.createdAt)
  {
    var q := DecidingFor(rows, applicant, level);
    assert forall r: SessionRecord :: Matches(One(BoundTo(applicant)), r) <==> r.providerApplicantId == Some(applicant);
    if found.Some? {
      assert forall r :: r in rows && Matches(q, r) ==> r.createdAt <= found.value.createdAt;
      if NamesLevel(level) {
        assert forall r: SessionRecord :: Matches(Both(BoundTo(applicant), OnLevel(level.value)), r) <==>
            r.providerApplicantId == Some(applicant) && r.levelName == level;
      }
    }
  }

  lemma ApplicantPick(rows: seq<SessionRecord>, applicant: string, level: Option<string>)
    ensures var found := PickSessionForApplicant(Filter(rows, BoundTo(applicant)), level);
            found == Newest(rows, DecidingFor(rows, applicant, level)) && FoundFor(rows, applicant, level, found)
  {
    PickByNewest(Filter(rows, BoundTo(applicant)), level);
    if NamesLevel(level) {
      NewestFiltered(rows, BoundTo(applicant), OnLevel(level.value));
      NewestMeaning(rows, Both(BoundTo(applicant), OnLevel(level.value)));
    }
    NewestFiltered(rows, BoundTo(applicant), InProgress);
    NewestMeaning(rows, Both(BoundTo(applicant), InProgress));
    NewestFiltered(rows, BoundTo(applicant), Anyone);
    NewestMeaning(rows, Both(BoundTo(applicant), Anyone));
    AnyoneAddsNothing(rows, BoundTo(applicant));
  }

  lemma AnyoneAddsNothing(rows: seq<SessionRecord>, test: Test)
    ensures NoMatch(rows, Both(test, Anyone)) <==> NoMatch(rows, One(test))
    ensures forall r :: NewestMatch(rows, Both(test, Anyone), r) <==> NewestMatch(rows, One(test), r)
  {
    assert forall r: SessionRecord :: Matches(Both(test, Anyone), r) <==> Matches(One(test), r);
  }

  /** The newest row that passes a test, if there is one. */
  lemma LatestPick(rows: seq<SessionRecord>, test: Test)
    ensures var found := Find(NewestFirst(Filter(rows, test)), Anyone);
            && (found.None? <==> NoMatch(rows, One(test)))
            && (found.Some? ==> NewestMatch(rows, One(test), found.value))
  {
    FindNewestFirst(Filter(rows, test), Anyone);
    NewestFiltered(rows, test, Anyone);
    NewestMeaning(rows, Both(test, Anyone));
    AnyoneAddsNothing(rows, test);
  }
}
