/** The dashboard (`DashboardStatsView.get`): one user's predictions, newest
    first, with their counts and their history. */
module Dashboard {
  import opened Records

  /** The rows of `records` that belong to `user`, in table order
      (`Prediction.objects.filter(student=user)`). */
  function OwnedBy(records: seq<PredictionRecord>, user: UserId): (owned: seq<PredictionRecord>)
    ensures forall i :: 0 <= i < |owned| ==> owned[i].student == user
    ensures forall r :: multiset(owned)[r] == if r.student == user then multiset(records)[r] else 0
    ensures |owned| <= |records|
  {
    if records == [] then []
    else
      var init := records[..|records| - 1];
      var last := records[|records| - 1];
      assert records == init + [last];
      OwnedBy(init, user) + (if last.student == user then [last] else [])
  }

  /** Ordered by `created_at`, newest first. */
  predicate NewestFirst(rs: seq<PredictionRecord>)
  {
    forall i, j :: 0 <= i < j < |rs| ==> rs[i].createdAt >= rs[j].createdAt
  }

  /** Puts `x` in front of the first row that is not newer than it. */
  function Insert(x: PredictionRecord, s: seq<PredictionRecord>): (r: seq<PredictionRecord>)
    ensures multiset(r) == multiset(s) + multiset{x}
    ensures |r| == |s| + 1
    ensures forall k :: 0 <= k < |r| ==> r[k] == x || r[k] in s
  {
    if s == [] || x.createdAt >= s[0].createdAt then [x] + s
    else
      assert s == [s[0]] + s[1..];
      [s[0]] + Insert(x, s[1..])
  }

  /** A row no older than every row of a newest-first sequence can go in
      front of it. */
  lemma ConsNewestFirst(h: PredictionRecord, tail: seq<PredictionRecord>)
    requires NewestFirst(tail)
    requires forall k :: 0 <= k < |tail| ==> tail[k].createdAt <= h.createdAt
    ensures NewestFirst([h] + tail)
  {
    var r := [h] + tail;
    assert forall j :: 1 <= j < |r| ==> r[j] == tail[j - 1];
  }

  /** Inserting into a newest-first sequence keeps it newest first. */
  lemma {:induction false} InsertSorted(x: PredictionRecord, s: seq<PredictionRecord>)
    requires NewestFirst(s)
    ensures NewestFirst(Insert(x, s))
  {
    if s == [] || x.createdAt >= s[0].createdAt {
      ConsNewestFirst(x, s);
    } else {
      var tail := Insert(x, s[1..]);
      InsertSorted(x, s[1..]);
      forall k | 0 <= k < |tail|
        ensures tail[k].createdAt <= s[0].createdAt
      {
        if tail[k] != x {
          assert tail[k] in s[1..];
        }
      }
      ConsNewestFirst(s[0], tail);
    }
  }

  /** `.order_by('-created_at')`: newest first, a permutation of the rows.
      Rows with the same time stay with the later one first. */
  function SortNewest(rs: seq<PredictionRecord>): (sorted: seq<PredictionRecord>)
    ensures NewestFirst(sorted)
    ensures multiset(sorted) == multiset(rs)
    ensures |sorted| == |rs|
  {
    if rs == [] then []
    else
      var init := rs[..|rs| - 1];
      assert rs == init + [rs[|rs| - 1]];
      InsertSorted(rs[|rs| - 1], SortNewest(init));
      Insert(rs[|rs| - 1], SortNewest(init))
  }

  /** One row of the result count. */
  function Hit(r: PredictionRecord, value: int): nat
  {
    if r.result == value then 1 else 0
  }

  /** `.filter(result=value).count()`. */
  function Count(rs: seq<PredictionRecord>, value: int): (c: nat)
    ensures c <= |rs|
  {
    if rs == [] then 0 else Hit(rs[0], value) + Count(rs[1..], value)
  }

  /** The count is zero exactly when no row carries the label, and counts
      every row exactly when all of them do. */
  lemma {:induction false} CountExtremes(rs: seq<PredictionRecord>, value: int)
    ensures Count(rs, value) == 0 <==> forall i :: 0 <= i < |rs| ==> rs[i].result != value
    ensures Count(rs, value) == |rs| <==> forall i :: 0 <= i < |rs| ==> rs[i].result == value
  {
    if rs != [] {
      CountExtremes(rs[1..], value);
      assert forall i :: 1 <= i < |rs| ==> rs[1..][i - 1] == rs[i];
    }
  }

  /** One element of `history`: the row's time and its label. */
  datatype HistoryEntry = HistoryEntry(createdAt: Timestamp, result: int)

  function Entry(r: PredictionRecord): HistoryEntry
  {
    HistoryEntry(r.createdAt, r.result)
  }

  /** The history list comprehension, one entry per row, in row order. */
  function Entries(rs: seq<PredictionRecord>): (h: seq<HistoryEntry>)
    ensures |h| == |rs|
    ensures forall i :: 0 <= i < |rs| ==> h[i] == Entry(rs[i])
  {
    seq(|rs|, i requires 0 <= i < |rs| => Entry(rs[i]))
  }

  /** The JSON object the view answers with. */
  datatype Stats = Stats(total: nat, difficulte: nat, nonDifficulte: nat, history: seq<HistoryEntry>)

  /** The response built from the ordered query set. */
  function Summarize(predictions: seq<PredictionRecord>): Stats
  {
    Stats(|predictions|, Count(predictions, 1), Count(predictions, 0), Entries(predictions))
  }

  /** `DashboardStatsView.get`: counts and history of the user's rows. The
      counts agree with the user's rows in table order, the history has one
      entry per row, and the entries are newest first. */
  function DashboardStats(records: seq<PredictionRecord>, user: UserId): (s: Stats)
    ensures s.total == |OwnedBy(records, user)| == |s.history|
    ensures s.difficulte == Count(OwnedBy(records, user), 1)
    ensures s.nonDifficulte == Count(OwnedBy(records, user), 0)
    ensures forall i, j :: 0 <= i < j < |s.history| ==> s.history[i].createdAt >= s.history[j].createdAt
    ensures multiset(s.history) == multiset(Entries(OwnedBy(records, user)))
  {
    var predictions := SortNewest(OwnedBy(records, user));
    CountSorted(OwnedBy(records, user), 1);
    CountSorted(OwnedBy(records, user), 0);
    EntriesSorted(OwnedBy(records, user));
    Summarize(predictions)
  }

  /** The view's answer is the summary of the ordered query set. */
  lemma StatsFromQuery(records: seq<PredictionRecord>, user: UserId)
    ensures DashboardStats(records, user) == Summarize(SortNewest(OwnedBy(records, user)))
  {
  }

  lemma {:induction false} CountAppend(a: seq<PredictionRecord>, b: seq<PredictionRecord>, value: int)
    ensures Count(a + b, value) == Count(a, value) + Count(b, value)
  {
    if a != [] {
      assert (a + b)[1..] == a[1..] + b;
      CountAppend(a[1..], b, value);
    } else {
      assert a + b == b;
    }
  }

  lemma {:induction false} CountInsert(x: PredictionRecord, s: seq<PredictionRecord>, value: int)
    ensures Count(Insert(x, s), value) == Hit(x, value) + Count(s, value)
  {
    if s == [] || x.createdAt >= s[0].createdAt {
      assert ([x] + s)[1..] == s;
    } else {
      var tail := Insert(x, s[1..]);
      assert ([s[0]] + tail)[1..] == tail;
      CountInsert(x, s[1..], value);
    }
  }

  /** Ordering the rows does not change how many carry a label. */
  lemma {:induction false} CountSorted(rs: seq<PredictionRecord>, value: int)
    ensures Count(SortNewest(rs), value) == Count(rs, value)
  {
    if rs != [] {
      var init := rs[..|rs| - 1];
      var last := rs[|rs| - 1];
      assert rs == init + [last];
      CountSorted(init, value);
      CountInsert(last, SortNewest(init), value);
      CountAppend(init, [last], value);
      assert [last][1..] == [];
    }
  }

  lemma {:induction false} EntriesInsert(x: PredictionRecord, s: seq<PredictionRecord>)
    ensures multiset(Entries(Insert(x, s))) == multiset(Entries(s)) + multiset{Entry(x)}
  {
    if s == [] || x.createdAt >= s[0].createdAt {
      EntriesCons(x, s);
    } else {
      var tail := Insert(x, s[1..]);
      EntriesInsert(x, s[1..]);
      EntriesCons(s[0], tail);
      EntriesCons(s[0], s[1..]);
      assert [s[0]] + s[1..] == s;
    }
  }

  /** The history of the ordered rows holds the same entries as the rows. */
  lemma {:induction false} EntriesSorted(rs: seq<PredictionRecord>)
    ensures multiset(Entries(SortNewest(rs))) == multiset(Entries(rs))
  {
    if rs != [] {
      var init := rs[..|rs| - 1];
      var last := rs[|rs| - 1];
      assert rs == init + [last];
      EntriesSorted(init);
      EntriesInsert(last, SortNewest(init));
      assert Entries(rs) == Entries(init) + [Entry(last)];
    }
  }

  lemma {:induction false} CountAtMost(rs: seq<PredictionRecord>)
    ensures Count(rs, 1) + Count(rs, 0) <= |rs|
    ensures (forall i :: 0 <= i < |rs| ==> rs[i].result == 0 || rs[i].result == 1)
        ==> Count(rs, 1) + Count(rs, 0) == |rs|
  {
    if rs != [] {
      CountAtMost(rs[1..]);
      assert forall i :: 1 <= i < |rs| ==> rs[1..][i - 1] == rs[i];
    }
  }

  /** The two counts never exceed the total, and add up to it when every
      stored label is 0 or 1 (which the prediction view guarantees). */
  lemma CountsAddUp(records: seq<PredictionRecord>, user: UserId)
    ensures DashboardStats(records, user).difficulte + DashboardStats(records, user).nonDifficulte
        <= DashboardStats(records, user).total
    ensures (forall i :: 0 <= i < |records| ==> records[i].result == 0 || records[i].result == 1)
        ==> DashboardStats(records, user).difficulte + DashboardStats(records, user).nonDifficulte
            == DashboardStats(records, user).total
  {
    var owned := OwnedBy(records, user);
    CountAtMost(owned);
    if forall i :: 0 <= i < |records| ==> records[i].result == 0 || records[i].result == 1 {
      forall i | 0 <= i < |owned|
        ensures owned[i].result == 0 || owned[i].result == 1
      {
        assert multiset(owned)[owned[i]] > 0;
        assert owned[i] in multiset(records);
      }
    }
  }

  /** Appending a row extends the user's rows by it exactly when it is theirs. */
  lemma OwnedAppend(records: seq<PredictionRecord>, r: PredictionRecord, user: UserId)
    ensures OwnedBy(records + [r], user) == OwnedBy(records, user) + (if r.student == user then [r] else [])
  {
    var all := records + [r];
    assert all[..|all| - 1] == records;
  }

  /** Somebody else's prediction does not show on this user's dashboard. */
  lemma OtherUsersRowIsInvisible(records: seq<PredictionRecord>, r: PredictionRecord, user: UserId)
    requires r.student != user
    ensures DashboardStats(records + [r], user) == DashboardStats(records, user)
  {
    OwnedAppend(records, r, user);
    var before := OwnedBy(records, user);
    assert before + [] == before;
    assert OwnedBy(records + [r], user) == before;
  }

  /** Sorting rows together with one strictly newer than all of them puts
      that one first and leaves the others in order behind it. */
  lemma SortNewestTop(owned: seq<PredictionRecord>, r: PredictionRecord)
    requires forall y :: y in owned ==> y.createdAt < r.createdAt
    ensures SortNewest(owned + [r]) == [r] + SortNewest(owned)
  {
    var all := owned + [r];
    assert all[..|all| - 1] == owned;
    var sorted := SortNewest(owned);
    if sorted != [] {
      assert sorted[0] in multiset(sorted);
      assert sorted[0] in owned;
    }
  }

  /** A user's prediction strictly newer than all earlier rows tops
      their history and adds one to the total and to its label's count. */
  lemma NewestRowComesFirst(records: seq<PredictionRecord>, r: PredictionRecord, user: UserId)
    requires r.student == user
    requires forall q :: q in records ==> q.createdAt < r.createdAt
    ensures DashboardStats(records + [r], user).history == [Entry(r)] + DashboardStats(records, user).history
    ensures DashboardStats(records + [r], user).total == DashboardStats(records, user).total + 1
    ensures DashboardStats(records + [r], user).difficulte == DashboardStats(records, user).difficulte + Hit(r, 1)
    ensures DashboardStats(records + [r], user).nonDifficulte == DashboardStats(records, user).nonDifficulte + Hit(r, 0)
  {
    var sorted := SortNewest(OwnedBy(records, user));
    NewestQueryFirst(records, r, user);
    StatsFromQuery(records + [r], user);
    StatsFromQuery(records, user);
    SummarizeCons(r, sorted);
  }

  /** One more row in front of the ordered rows adds its entry in front of
      the history and one to the total and to its label's count. */
  lemma SummarizeCons(r: PredictionRecord, rs: seq<PredictionRecord>)
    ensures Summarize([r] + rs)
         == Stats(|rs| + 1, Hit(r, 1) + Count(rs, 1), Hit(r, 0) + Count(rs, 0), [Entry(r)] + Entries(rs))
  {
    var all := [r] + rs;
    assert all[1..] == rs;
    assert Count(all, 1) == Hit(r, 1) + Count(rs, 1);
    assert Count(all, 0) == Hit(r, 0) + Count(rs, 0);
    EntriesCons(r, rs);
  }

  lemma EntriesCons(r: PredictionRecord, rs: seq<PredictionRecord>)
    ensures Entries([r] + rs) == [Entry(r)] + Entries(rs)
  {
    var all := [r] + rs;
    assert forall i :: 1 <= i < |all| ==> all[i] == rs[i - 1];
  }

  /** The ordered query set with a newest own row added starts with it. */
  lemma NewestQueryFirst(records: seq<PredictionRecord>, r: PredictionRecord, user: UserId)
    requires r.student == user
    requires forall q :: q in records ==> q.createdAt < r.createdAt
    ensures SortNewest(OwnedBy(records + [r], user)) == [r] + SortNewest(OwnedBy(records, user))
  {
    var owned := OwnedBy(records, user);
    OwnedAppend(records, r, user);
    assert OwnedBy(records + [r], user) == owned + [r];
    forall y | y in owned
      ensures y.createdAt < r.createdAt
    {
      assert multiset(owned)[y] > 0;
      assert y in records;
    }
    SortNewestTop(owned, r);
  }
}
