/** The Sumsub status rules (packages/kyc-core/src/providers/sumsub/mapping.ts) and the lookup
    table generated from them for the hosted page (packages/kyc-node/src/providers/sumsub/page.ts). */
module SumsubStatus {
  import opened Wrappers

  /** `reviewResult`, its fields as the strings a payload may carry. */
  datatype ReviewResult = ReviewResult(reviewAnswer: Option<string>, reviewRejectType: Option<string>)

  const REVIEW_STATUSES := ["init", "pending", "prechecked", "queued", "completed", "onHold"]
  const ANSWERS := ["", "GREEN", "RED"]
  const REJECT_TYPES := ["", "FINAL", "RETRY"]
  const FALLBACK := "initial"

  function MapSumsubStatus(reviewStatus: Option<string>, result: Option<ReviewResult>): string {
    match reviewStatus
    case None => "initial"
    case Some(status) =>
      if status == "completed" then
        if result.Some? && result.value.reviewAnswer == Some("GREEN") then "approved"
        else if result.Some? && result.value.reviewAnswer == Some("RED") then
          if result.value.reviewRejectType == Some("FINAL") then "finallyRejected" else "declined"
        else "pending"
      else if status == "pending" || status == "queued" || status == "prechecked" || status == "onHold" then "pending"
      else if status == "init" then "incomplete"
      else "initial"
  }

  /** What the review of a payload means, in the payload's words. */
  lemma ReviewMeans(reviewStatus: Option<string>, result: Option<ReviewResult>)
    ensures var status := MapSumsubStatus(reviewStatus, result);
            var answer := if result.Some? then result.value.reviewAnswer else None;
            var final := result.Some? && result.value.reviewRejectType == Some("FINAL");
            var completed := reviewStatus == Some("completed");
            && (status == "approved" <==> completed && answer == Some("GREEN"))
            && (status == "finallyRejected" <==> completed && answer == Some("RED") && final)
            && (status == "declined" <==> completed && answer == Some("RED") && !final)
            && (status == "pending" <==>
                  || (completed && answer != Some("GREEN") && answer != Some("RED"))
                  || reviewStatus == Some("pending") || reviewStatus == Some("queued")
                  || reviewStatus == Some("prechecked") || reviewStatus == Some("onHold"))
            && (status == "incomplete" <==> reviewStatus == Some("init"))
            && (status == "initial" <==>
                  || reviewStatus.None?
                  || reviewStatus.value !in ["completed", "pending", "queued", "prechecked", "onHold", "init"])
  {
    var all := ["completed", "pending", "queued", "prechecked", "onHold", "init"];
    assert all[0] == "completed" && all[1] == "pending" && all[2] == "queued" && all[3] == "prechecked";
    assert all[4] == "onHold" && all[5] == "init";
    assert "approved"[0] == 'a' && "finallyRejected"[0] == 'f' && "declined"[0] == 'd' && "pending"[0] == 'p';
    assert "incomplete"[2] == 'c' && "initial"[2] == 'i' && "init"[3] == 't' && |"init"| == 4;
    assert "completed"[0] == 'c' && "queued"[0] == 'q' && "prechecked"[1] == 'r' && "onHold"[0] == 'o';
  }

  function StatusKey(status: string, answer: string, rejectType: string): string {
    status + "|" + answer + "|" + rejectType
  }

  /** The value the table holds for a documented combination; an empty answer means no result at all. */
  function TableValue(status: string, answer: string, rejectType: string): string {
    MapSumsubStatus(Some(status),
                    if answer == "" then None
                    else Some(ReviewResult(Some(answer), if rejectType == "" then None else Some(rejectType))))
  }

  type Table = map<string, string>

  /** The table's keys are exactly those of the documented combinations, each with its value. */
  ghost predicate IsStatusTable(table: Table) {
    && (forall s, a, t :: s in REVIEW_STATUSES && a in ANSWERS && t in REJECT_TYPES ==>
          StatusKey(s, a, t) in table && table[StatusKey(s, a, t)] == TableValue(s, a, t))
    && (forall k :: k in table ==>
          exists s, a, t :: s in REVIEW_STATUSES && a in ANSWERS && t in REJECT_TYPES && k == StatusKey(s, a, t))
  }

  // ---- keys ----

  function Bars(s: string): nat {
    if s == [] then 0 else (if s[0] == '|' then 1 else 0) + Bars(s[1..])
  }

  lemma {:induction false} BarsAdd(s: string, t: string)
    ensures Bars(s + t) == Bars(s) + Bars(t)
  {
    if s == [] {
      assert s + t == t;
    } else {
      assert (s + t)[1..] == s[1..] + t;
      BarsAdd(s[1..], t);
    }
  }

  lemma {:induction false} NoBars(s: string)
    ensures Bars(s) == 0 <==> '|' !in s
  {
    if s == [] {
    } else {
      NoBars(s[1..]);
    }
  }

  lemma KeyBars(s: string, a: string, t: string)
    ensures Bars(StatusKey(s, a, t)) == Bars(s) + Bars(a) + Bars(t) + 2
  {
    BarsAdd(s + "|" + a + "|", t);
    BarsAdd(s + "|" + a, "|");
    BarsAdd(s + "|", a);
    BarsAdd(s, "|");
    assert Bars("|") == 1 by { assert "|"[1..] == ""; }
  }

  /** A prefix without bars up to a bar is determined by the whole. */
  lemma SplitOnce(s: string, rest: string, s': string, rest': string)
    requires '|' !in s && '|' !in s' && s + "|" + rest == s' + "|" + rest'
    ensures s == s' && rest == rest'
  {
    var whole, whole' := s + "|" + rest, s' + "|" + rest';
    assert whole[|s|] == '|' && whole'[|s'|] == '|';
    assert forall i :: 0 <= i < |s| ==> whole[i] == s[i] && s[i] in s;
    assert forall i :: 0 <= i < |s'| ==> whole'[i] == s'[i] && s'[i] in s';
    assert s == whole[..|s|] && s' == whole'[..|s'|];
    assert rest == whole[|s| + 1..] && rest' == whole'[|s'| + 1..];
  }

  /** A key of three bar-free parts is the key of no other parts, whatever strings they are. */
  lemma KeyDeterminesParts(s: string, a: string, t: string, s': string, a': string, t': string)
    requires '|' !in s && '|' !in a && '|' !in t && StatusKey(s, a, t) == StatusKey(s', a', t')
    ensures s == s' && a == a' && t == t'
  {
    KeyBars(s, a, t);
    KeyBars(s', a', t');
    NoBars(s); NoBars(a); NoBars(t);
    NoBars(s'); NoBars(a'); NoBars(t');
    assert StatusKey(s, a, t) == s + "|" + (a + "|" + t) && StatusKey(s', a', t') == s' + "|" + (a' + "|" + t');
    SplitOnce(s, a + "|" + t, s', a' + "|" + t');
    SplitOnce(a, t, a', t');
  }

  lemma VocabularyHasNoBars(s: string)
    requires s in REVIEW_STATUSES || s in ANSWERS || s in REJECT_TYPES
    ensures '|' !in s
  {
  }

  // ---- the table ----

  /** Three nested loops over the documented vocabulary. */
  method BuildSumsubStatusTable() returns (table: Table)
    ensures IsStatusTable(table)
  {
    table := map[];
    for i := 0 to |REVIEW_STATUSES|
      invariant Filled(table, i, 0, 0)
    {
      for j := 0 to |ANSWERS|
        invariant Filled(table, i, j, 0)
      {
        for k := 0 to |REJECT_TYPES|
          invariant Filled(table, i, j, k)
        {
          var s, a, t := REVIEW_STATUSES[i], ANSWERS[j], REJECT_TYPES[k];
          FillOne(table, i, j, k);
          table := table[StatusKey(s, a, t) := TableValue(s, a, t)];
        }
        RowFilled(table, i, j);
      }
      BlockFilled(table, i);
    }
    AllFilled(table);
  }

  predicate Before(i: int, j: int, k: int, x: int, y: int, z: int) {
    i < x || (i == x && (j < y || (j == y && k < z)))
  }

  predicate InRange(i: int, j: int, k: int) {
    0 <= i < |REVIEW_STATUSES| && 0 <= j < |ANSWERS| && 0 <= k < |REJECT_TYPES|
  }

  function KeyAt(i: int, j: int, k: int): string
    requires InRange(i, j, k)
  {
    StatusKey(REVIEW_STATUSES[i], ANSWERS[j], REJECT_TYPES[k])
  }

  /** The combinations before (x, y, z) are in, and nothing else is. */
  ghost predicate Filled(table: Table, x: int, y: int, z: int) {
    && (forall i, j, k :: InRange(i, j, k) && Before(i, j, k, x, y, z) ==>
          KeyAt(i, j, k) in table
          && table[KeyAt(i, j, k)] == TableValue(REVIEW_STATUSES[i], ANSWERS[j], REJECT_TYPES[k]))
    && (forall key :: key in table ==> exists i, j, k :: InRange(i, j, k) && KeyAt(i, j, k) == key)
  }

  lemma DistinctVocabulary(i: int, j: int)
    ensures 0 <= i < j < |REVIEW_STATUSES| ==> REVIEW_STATUSES[i] != REVIEW_STATUSES[j]
    ensures 0 <= i < j < |ANSWERS| ==> ANSWERS[i] != ANSWERS[j]
    ensures 0 <= i < j < |REJECT_TYPES| ==> REJECT_TYPES[i] != REJECT_TYPES[j]
  {
    assert "init"[0] == 'i' && "onHold"[0] == 'o' && "queued"[0] == 'q' && "completed"[0] == 'c';
    assert "pending"[1] == 'e' && "prechecked"[1] == 'r';
    assert |"GREEN"| == 5 && |"RED"| == 3 && "FINAL"[0] == 'F' && "RETRY"[0] == 'R';
  }

  lemma FillOne(table: Table, x: int, y: int, z: int)
    requires InRange(x, y, z) && Filled(table, x, y, z)
    ensures Filled(table[KeyAt(x, y, z) := TableValue(REVIEW_STATUSES[x], ANSWERS[y], REJECT_TYPES[z])], x, y, z + 1)
  {
    var table' := table[KeyAt(x, y, z) := TableValue(REVIEW_STATUSES[x], ANSWERS[y], REJECT_TYPES[z])];
    forall i, j, k | InRange(i, j, k) && Before(i, j, k, x, y, z)
      ensures KeyAt(i, j, k) != KeyAt(x, y, z)
    {
      if KeyAt(i, j, k) == KeyAt(x, y, z) {
        var s, a, t := REVIEW_STATUSES[x], ANSWERS[y], REJECT_TYPES[z];
        VocabularyHasNoBars(s); VocabularyHasNoBars(a); VocabularyHasNoBars(t);
        KeyDeterminesParts(s, a, t, REVIEW_STATUSES[i], ANSWERS[j], REJECT_TYPES[k]);
        DistinctVocabulary(i, x); DistinctVocabulary(j, y); DistinctVocabulary(k, z);
      }
    }
    assert forall i, j, k :: InRange(i, j, k) && Before(i, j, k, x, y, z + 1) ==>
        Before(i, j, k, x, y, z) || (i == x && j == y && k == z);
  }

  lemma RowFilled(table: Table, x: int, y: int)
    requires Filled(table, x, y, |REJECT_TYPES|)
    ensures Filled(table, x, y + 1, 0)
  {
  }

  lemma BlockFilled(table: Table, x: int)
    requires Filled(table, x, |ANSWERS|, 0)
    ensures Filled(table, x + 1, 0, 0)
  {
  }

  lemma AllFilled(table: Table)
    requires Filled(table, |REVIEW_STATUSES|, 0, 0)
    ensures IsStatusTable(table)
  {
    forall s, a, t | s in REVIEW_STATUSES && a in ANSWERS && t in REJECT_TYPES
      ensures StatusKey(s, a, t) in table && table[StatusKey(s, a, t)] == TableValue(s, a, t)
    {
      var i :| 0 <= i < |REVIEW_STATUSES| && REVIEW_STATUSES[i] == s;
      var j :| 0 <= j < |ANSWERS| && ANSWERS[j] == a;
      var k :| 0 <= k < |REJECT_TYPES| && REJECT_TYPES[k] == t;
      assert InRange(i, j, k) && KeyAt(i, j, k) == StatusKey(s, a, t);
    }
    forall key | key in table
      ensures exists s, a, t :: s in REVIEW_STATUSES && a in ANSWERS && t in REJECT_TYPES && key == StatusKey(s, a, t)
    {
      var i, j, k :| InRange(i, j, k) && KeyAt(i, j, k) == key;
      assert REVIEW_STATUSES[i] in REVIEW_STATUSES && ANSWERS[j] in ANSWERS && REJECT_TYPES[k] in REJECT_TYPES;
    }
  }

  // ---- the lookup ----

  function OrEmpty(s: Option<string>): string {
    if s.Some? then s.value else ""
  }

  /** `lookupSumsubStatus`: the full key, then without the reject type, then without the answer, then the fallback. */
  function LookupSumsubStatus(table: Table, reviewStatus: Option<string>, result: Option<ReviewResult>): string {
    var s := OrEmpty(reviewStatus);
    var a := if result.Some? then OrEmpty(result.value.reviewAnswer) else "";
    var t := if result.Some? then OrEmpty(result.value.reviewRejectType) else "";
    if StatusKey(s, a, t) in table then table[StatusKey(s, a, t)]
    else if StatusKey(s, a, "") in table then table[StatusKey(s, a, "")]
    else if StatusKey(s, "", "") in table then table[StatusKey(s, "", "")]
    else FALLBACK
  }

  /** `table[key] || ...`: an absent entry and an empty one are passed over alike. */
  function PageEntry(table: Table, key: string): Option<string> {
    if key in table && table[key] != "" then Some(table[key]) else None
  }

  /** The hosted page's own `mapStatus` script. */
  function PageMapStatus(table: Table, reviewStatus: Option<string>, result: Option<ReviewResult>): string {
    var s := OrEmpty(reviewStatus);
    var a := if result.Some? then OrEmpty(result.value.reviewAnswer) else "";
    var t := if result.Some? then OrEmpty(result.value.reviewRejectType) else "";
    var full, noType := PageEntry(table, s + "|" + a + "|" + t), PageEntry(table, s + "|" + a + "|");
    var noAnswer := PageEntry(table, s + "||");
    if full.Some? then full.value
    else if noType.Some? then noType.value
    else if noAnswer.Some? then noAnswer.value
    else FALLBACK
  }

  /** A combination is in the table exactly when its parts are documented ones. */
  lemma InTable(table: Table, s: string, a: string, t: string)
    requires IsStatusTable(table)
    ensures StatusKey(s, a, t) in table <==> s in REVIEW_STATUSES && a in ANSWERS && t in REJECT_TYPES
    ensures StatusKey(s, a, t) in table ==> table[StatusKey(s, a, t)] == TableValue(s, a, t)
  {
    if StatusKey(s, a, t) in table {
      var s', a', t' :| s' in REVIEW_STATUSES && a' in ANSWERS && t' in REJECT_TYPES
                        && StatusKey(s, a, t) == StatusKey(s', a', t');
      VocabularyHasNoBars(s'); VocabularyHasNoBars(a'); VocabularyHasNoBars(t');
      KeyDeterminesParts(s', a', t', s, a, t);
    }
  }

  /** For every status and result, of any strings at all, the page's lookup gives what the mapping gives. */
  lemma {:induction false} LookupIsMapping(table: Table, reviewStatus: Option<string>, result: Option<ReviewResult>)
    requires IsStatusTable(table)
    ensures LookupSumsubStatus(table, reviewStatus, result) == MapSumsubStatus(reviewStatus, result)
  {
    var s := OrEmpty(reviewStatus);
    var a := if result.Some? then OrEmpty(result.value.reviewAnswer) else "";
    var t := if result.Some? then OrEmpty(result.value.reviewRejectType) else "";
    FallsBack(table, s, a, t);
    EmptyWords();
    if s in REVIEW_STATUSES {
      KnownStatus(s, a, t, result);
    } else {
      UnknownStatus(s, result);
    }
  }

  lemma EmptyWords()
    ensures "" in ANSWERS && "" in REJECT_TYPES && "" !in REVIEW_STATUSES
  {
    assert ANSWERS[0] == "" && REJECT_TYPES[0] == "";
  }

  /** The fallback chain finds the value of the combination with its unknown parts left out. */
  lemma FallsBack(table: Table, s: string, a: string, t: string)
    requires IsStatusTable(table)
    ensures var found := if StatusKey(s, a, t) in table then table[StatusKey(s, a, t)]
                         else if StatusKey(s, a, "") in table then table[StatusKey(s, a, "")]
                         else if StatusKey(s, "", "") in table then table[StatusKey(s, "", "")]
                         else FALLBACK;
            found == if s !in REVIEW_STATUSES then FALLBACK
                     else if a !in ANSWERS then TableValue(s, "", "")
                     else TableValue(s, a, if t in REJECT_TYPES then t else "")
  {
    InTable(table, s, a, t);
    InTable(table, s, a, "");
    InTable(table, s, "", "");
    EmptyWords();
  }

  /** And so does the script the page really runs. */
  lemma PageIsMapping(table: Table, reviewStatus: Option<string>, result: Option<ReviewResult>)
    requires IsStatusTable(table)
    ensures PageMapStatus(table, reviewStatus, result) == MapSumsubStatus(reviewStatus, result)
  {
    var s := OrEmpty(reviewStatus);
    var a := if result.Some? then OrEmpty(result.value.reviewAnswer) else "";
    var t := if result.Some? then OrEmpty(result.value.reviewRejectType) else "";
    LookupIsMapping(table, reviewStatus, result);
    assert s + "|" + a + "|" == StatusKey(s, a, "") && s + "||" == StatusKey(s, "", "");
    NoEmptyValue(table, s, a, t);
    NoEmptyValue(table, s, a, "");
    NoEmptyValue(table, s, "", "");
  }

  lemma NoEmptyValue(table: Table, s: string, a: string, t: string)
    requires IsStatusTable(table)
    ensures PageEntry(table, StatusKey(s, a, t))
         == if StatusKey(s, a, t) in table then Some(table[StatusKey(s, a, t)]) else None
  {
    InTable(table, s, a, t);
    assert TableValue(s, a, t)[0] != ' ';
  }

  lemma KnownStatus(s: string, a: string, t: string, result: Option<ReviewResult>)
    requires s in REVIEW_STATUSES
    requires a == if result.Some? then OrEmpty(result.value.reviewAnswer) else ""
    requires t == if result.Some? then OrEmpty(result.value.reviewRejectType) else ""
    ensures MapSumsubStatus(Some(s), result)
         == if a !in ANSWERS then TableValue(s, "", "") else TableValue(s, a, if t in REJECT_TYPES then t else "")
  {
    assert ANSWERS[1] == "GREEN" && ANSWERS[2] == "RED" && REJECT_TYPES[1] == "FINAL" && REJECT_TYPES[2] == "RETRY";
    assert "GREEN" in ANSWERS && "RED" in ANSWERS && "FINAL" in REJECT_TYPES;
  }

  lemma UnknownStatus(s: string, result: Option<ReviewResult>)
    requires s !in REVIEW_STATUSES
    ensures MapSumsubStatus(Some(s), result) == FALLBACK
  {
    assert REVIEW_STATUSES[0] == "init" && REVIEW_STATUSES[1] == "pending" && REVIEW_STATUSES[2] == "prechecked";
    assert REVIEW_STATUSES[3] == "queued" && REVIEW_STATUSES[4] == "completed" && REVIEW_STATUSES[5] == "onHold";
  }
}
