/**
 * The allocation-transaction tracker: a list of submitted `allocate` calls
 * with their last known status, and a list of notifications about status
 * changes. The clock, the status fetches and the browser storage are outside
 * the model: `now` and the fetched statuses are parameters.
 */
module AllocateStatus {
  import opened Wrappers

  /** Status of a freshly submitted transaction; every other status is "completed". */
  const Pending: string := "pending"
  const Success: string := "success"
  const AbortByPostCondition: string := "abort_by_post_condition"
  const AbortByResponse: string := "abort_by_response"

  /** Completed records older than one day (in milliseconds) are dropped. */
  const CompletedTransactionMaxAge: int := 1000 * 60 * 60 * 24

  datatype AllocationTransaction = AllocationTransaction(
    txid: string,
    amount: int,
    constellation: int,
    status: string,
    timestamp: int)

  datatype TransactionNotification = TransactionNotification(
    txid: string,
    oldStatus: string,
    newStatus: string,
    amount: int,
    constellation: int,
    timestamp: int)

  // ------------------------------------------------------------ list queries

  /** `txs.filter(tx => tx.status === status)`. */
  function WithStatus(txs: seq<AllocationTransaction>, status: string): (r: seq<AllocationTransaction>)
    ensures |r| <= |txs|
    ensures forall tx :: tx in r <==> tx in txs && tx.status == status
  {
    if txs == [] then []
    else if txs[0].status == status then [txs[0]] + WithStatus(txs[1..], status)
    else WithStatus(txs[1..], status)
  }

  /** `txs.filter(tx => tx.status !== status)`. */
  function WithoutStatus(txs: seq<AllocationTransaction>, status: string): (r: seq<AllocationTransaction>)
    ensures |r| <= |txs|
    ensures forall tx :: tx in r <==> tx in txs && tx.status != status
  {
    if txs == [] then []
    else if txs[0].status != status then [txs[0]] + WithoutStatus(txs[1..], status)
    else WithoutStatus(txs[1..], status)
  }

  /** Filtering by status keeps list order: it distributes over concatenation. */
  lemma {:induction false} WithStatusAppend(a: seq<AllocationTransaction>, b: seq<AllocationTransaction>, status: string)
    ensures WithStatus(a + b, status) == WithStatus(a, status) + WithStatus(b, status)
  {
    if a == [] {
      assert a + b == b;
    } else {
      assert (a + b)[0] == a[0];
      assert (a + b)[1..] == a[1..] + b;
      WithStatusAppend(a[1..], b, status);
    }
  }

  /** The same for the complementary filter. */
  lemma {:induction false} WithoutStatusAppend(a: seq<AllocationTransaction>, b: seq<AllocationTransaction>, status: string)
    ensures WithoutStatus(a + b, status) == WithoutStatus(a, status) + WithoutStatus(b, status)
  {
    if a == [] {
      assert a + b == b;
    } else {
      assert (a + b)[0] == a[0];
      assert (a + b)[1..] == a[1..] + b;
      WithoutStatusAppend(a[1..], b, status);
    }
  }

  /** The records with a status and those without it split the list exactly. */
  lemma {:induction false} StatusPartition(txs: seq<AllocationTransaction>, status: string)
    ensures multiset(WithStatus(txs, status)) + multiset(WithoutStatus(txs, status)) == multiset(txs)
    ensures |WithStatus(txs, status)| + |WithoutStatus(txs, status)| == |txs|
  {
    if txs != [] {
      StatusPartition(txs[1..], status);
      assert txs == [txs[0]] + txs[1..];
    }
  }

  /** A record appended as pending becomes the last pending record; the earlier ones stay as they were. */
  lemma AppendedIsLastPending(txs: seq<AllocationTransaction>, tx: AllocationTransaction)
    requires tx.status == Pending
    ensures WithStatus(txs + [tx], Pending) == WithStatus(txs, Pending) + [tx]
    ensures WithoutStatus(txs + [tx], Pending) == WithoutStatus(txs, Pending)
  {
    WithStatusAppend(txs, [tx], Pending);
    WithoutStatusAppend(txs, [tx], Pending);
    assert [tx][1..] == [];
  }

  /**
   * `Array.prototype.findIndex` on the txid: the first record of `batch` with
   * that txid, or `None` where the source gets `-1`.
   */
  function FindIndex(batch: seq<AllocationTransaction>, txid: string): (r: Option<nat>)
    ensures r.Some? ==> r.value < |batch| && batch[r.value].txid == txid
    ensures r.Some? ==> forall k :: 0 <= k < r.value ==> batch[k].txid != txid
    ensures r.None? <==> forall k :: 0 <= k < |batch| ==> batch[k].txid != txid
  {
    if batch == [] then None
    else if batch[0].txid == txid then Some(0)
    else
      match FindIndex(batch[1..], txid)
      case None => None
      case Some(k) => Some(k + 1)
  }

  // -------------------------------------------------------- status refresh

  /**
   * The status the check settles on for the `i`-th record of the batch: the
   * fetched one, or, when the fetch failed, that batch record's own status.
   */
  function FetchedStatus(batch: seq<AllocationTransaction>, results: seq<Option<string>>, i: nat): (s: string)
    requires |results| == |batch| && i < |batch|
    ensures results[i].Some? ==> s == results[i].value
    ensures results[i].None? ==> s == batch[i].status
  {
    match results[i]
    case Some(status) => status
    case None => batch[i].status
  }

  /** The new status of `tx`, when its txid is in the batch and the settled status differs. */
  function NewStatus(tx: AllocationTransaction, batch: seq<AllocationTransaction>, results: seq<Option<string>>): (r: Option<string>)
    requires |results| == |batch|
    ensures r.Some? ==> r.value != tx.status
    ensures r.Some? ==> exists k :: 0 <= k < |batch| && batch[k].txid == tx.txid
  {
    match FindIndex(batch, tx.txid)
    case None => None
    case Some(k) =>
      var status := FetchedStatus(batch, results, k);
      if status != tx.status then Some(status) else None
  }

  function RefreshRecord(tx: AllocationTransaction, batch: seq<AllocationTransaction>, results: seq<Option<string>>): (r: AllocationTransaction)
    requires |results| == |batch|
    ensures r == tx.(status := r.status)
  {
    match NewStatus(tx, batch, results)
    case None => tx
    case Some(status) => tx.(status := status)
  }

  /**
   * The refresh of one record follows the first batch record with its txid:
   * without one the record is kept; with one it takes the settled status,
   * and a change is reported exactly when that status differs.
   */
  lemma RefreshRecordTakesFetched(tx: AllocationTransaction, batch: seq<AllocationTransaction>, results: seq<Option<string>>)
    requires |results| == |batch|
    ensures FindIndex(batch, tx.txid).None? ==> NewStatus(tx, batch, results).None? && RefreshRecord(tx, batch, results) == tx
    ensures FindIndex(batch, tx.txid).Some? ==>
      var status := FetchedStatus(batch, results, FindIndex(batch, tx.txid).value);
      && RefreshRecord(tx, batch, results).status == status
      && (NewStatus(tx, batch, results) == if status != tx.status then Some(status) else None)
  {
  }

  /** The list after a refresh: each record refreshed in place, in the same order. */
  function Refreshed(txs: seq<AllocationTransaction>, batch: seq<AllocationTransaction>, results: seq<Option<string>>): (r: seq<AllocationTransaction>)
    requires |results| == |batch|
    ensures |r| == |txs|
    ensures forall i :: 0 <= i < |txs| ==> r[i] == RefreshRecord(txs[i], batch, results)
  {
    if txs == [] then []
    else Refreshed(txs[..|txs| - 1], batch, results) + [RefreshRecord(txs[|txs| - 1], batch, results)]
  }

  /**
   * A refresh changes statuses only: every record keeps its txid, amount,
   * constellation and timestamp, and only records whose txid is in the batch
   * can have a new status.
   */
  lemma RefreshChangesOnlyStatus(txs: seq<AllocationTransaction>, batch: seq<AllocationTransaction>, results: seq<Option<string>>)
    requires |results| == |batch|
    ensures var r := Refreshed(txs, batch, results);
      forall i :: 0 <= i < |txs| ==> r[i] == txs[i].(status := r[i].status)
    ensures var r := Refreshed(txs, batch, results);
      forall i :: 0 <= i < |txs| && r[i] != txs[i] ==> exists k :: 0 <= k < |batch| && batch[k].txid == txs[i].txid
  {
    var r := Refreshed(txs, batch, results);
    forall i | 0 <= i < |txs| && r[i] != txs[i]
      ensures exists k :: 0 <= k < |batch| && batch[k].txid == txs[i].txid
    {
      assert NewStatus(txs[i], batch, results).Some?;
    }
  }

  /**
   * A record whose txid is in the batch takes the status the check settled
   * on for the first batch record with that txid (the fetched one, when the
   * fetch succeeded); any other record is left as it was.
   */
  lemma RefreshLandsFetchedStatus(txs: seq<AllocationTransaction>, batch: seq<AllocationTransaction>,
                                  results: seq<Option<string>>, i: nat, k: nat)
    requires |results| == |batch| && i < |txs|
    requires FindIndex(batch, txs[i].txid) == Some(k)
    ensures Refreshed(txs, batch, results)[i].status == FetchedStatus(batch, results, k)
    ensures results[k].Some? ==> Refreshed(txs, batch, results)[i].status == results[k].value
  {
    RefreshRecordTakesFetched(txs[i], batch, results);
  }

  /** A record whose txid is not in the batch is left as it was. */
  lemma RefreshKeepsUnbatched(txs: seq<AllocationTransaction>, batch: seq<AllocationTransaction>,
                              results: seq<Option<string>>, i: nat)
    requires |results| == |batch| && i < |txs|
    requires forall k :: 0 <= k < |batch| ==> batch[k].txid != txs[i].txid
    ensures Refreshed(txs, batch, results)[i] == txs[i]
  {
    RefreshRecordTakesFetched(txs[i], batch, results);
  }

  /** The notification a refresh gives for one record: none when it is unchanged, else one describing its change. */
  function Notice(tx: AllocationTransaction, batch: seq<AllocationTransaction>,
                  results: seq<Option<string>>, now: int): (r: seq<TransactionNotification>)
    requires |results| == |batch|
    ensures |r| <= 1
  {
    match NewStatus(tx, batch, results)
    case None => []
    case Some(status) => [TransactionNotification(tx.txid, tx.status, status, tx.amount, tx.constellation, now)]
  }

  /** A record gets a notification exactly when the refresh changes it, and the notification describes that change. */
  lemma NoticeDescribesChange(tx: AllocationTransaction, batch: seq<AllocationTransaction>,
                              results: seq<Option<string>>, now: int)
    requires |results| == |batch|
    ensures Notice(tx, batch, results, now) == [] <==> RefreshRecord(tx, batch, results) == tx
    ensures Notice(tx, batch, results, now) != [] ==>
      Notice(tx, batch, results, now)
        == [TransactionNotification(tx.txid, tx.status, RefreshRecord(tx, batch, results).status, tx.amount, tx.constellation, now)]
  {
  }

  /** One notification per changed record, in list order, all stamped `now`. */
  function ChangeNotifications(txs: seq<AllocationTransaction>, batch: seq<AllocationTransaction>,
                               results: seq<Option<string>>, now: int): (r: seq<TransactionNotification>)
    requires |results| == |batch|
    ensures |r| <= |txs|
    ensures forall n :: n in r ==> n.oldStatus != n.newStatus && n.timestamp == now
  {
    if txs == [] then []
    else ChangeNotifications(txs[..|txs| - 1], batch, results, now) + Notice(txs[|txs| - 1], batch, results, now)
  }

  /** When every record is left as it was, no notification arises. */
  lemma {:induction false} UnchangedGivesNoNotices(txs: seq<AllocationTransaction>, batch: seq<AllocationTransaction>,
                                                   results: seq<Option<string>>, now: int)
    requires |results| == |batch|
    requires forall i :: 0 <= i < |txs| ==> RefreshRecord(txs[i], batch, results) == txs[i]
    ensures ChangeNotifications(txs, batch, results, now) == []
  {
    if txs != [] {
      var init := txs[..|txs| - 1];
      assert forall i :: 0 <= i < |init| ==> init[i] == txs[i];
      UnchangedGivesNoNotices(init, batch, results, now);
      assert RefreshRecord(txs[|txs| - 1], batch, results) == txs[|txs| - 1];
      NoticeDescribesChange(txs[|txs| - 1], batch, results, now);
    }
  }

  /** When no notification arises, every record is left as it was. */
  lemma {:induction false} NoNoticesGiveUnchanged(txs: seq<AllocationTransaction>, batch: seq<AllocationTransaction>,
                                                  results: seq<Option<string>>, now: int)
    requires |results| == |batch|
    requires ChangeNotifications(txs, batch, results, now) == []
    ensures forall i :: 0 <= i < |txs| ==> RefreshRecord(txs[i], batch, results) == txs[i]
  {
    if txs != [] {
      var init, last := txs[..|txs| - 1], txs[|txs| - 1];
      assert ChangeNotifications(txs, batch, results, now)
        == ChangeNotifications(init, batch, results, now) + Notice(last, batch, results, now);
      NoNoticesGiveUnchanged(init, batch, results, now);
      NoticeDescribesChange(last, batch, results, now);
      forall i | 0 <= i < |txs| ensures RefreshRecord(txs[i], batch, results) == txs[i] {
        if i < |init| {
          assert txs[i] == init[i];
        } else {
          assert txs[i] == last;
        }
      }
    }
  }

  /** A refresh produces a notification exactly when it changes some record. */
  lemma NotificationsIffChanged(txs: seq<AllocationTransaction>, batch: seq<AllocationTransaction>,
                                results: seq<Option<string>>, now: int)
    requires |results| == |batch|
    ensures ChangeNotifications(txs, batch, results, now) == [] <==> Refreshed(txs, batch, results) == txs
  {
    var r := Refreshed(txs, batch, results);
    if ChangeNotifications(txs, batch, results, now) == [] {
      NoNoticesGiveUnchanged(txs, batch, results, now);
      assert r == txs;
    }
    if r == txs {
      assert forall i :: 0 <= i < |txs| ==> RefreshRecord(txs[i], batch, results) == txs[i];
      UnchangedGivesNoNotices(txs, batch, results, now);
    }
  }

  /**
   * Every changed record has its notification, carrying its txid, amount and
   * constellation and its old and new status.
   */
  lemma {:induction false} ChangesHaveNotices(txs: seq<AllocationTransaction>, batch: seq<AllocationTransaction>,
                                              results: seq<Option<string>>, now: int)
    requires |results| == |batch|
    ensures forall i :: 0 <= i < |txs| && RefreshRecord(txs[i], batch, results) != txs[i] ==>
      TransactionNotification(txs[i].txid, txs[i].status, RefreshRecord(txs[i], batch, results).status,
                              txs[i].amount, txs[i].constellation, now)
        in ChangeNotifications(txs, batch, results, now)
  {
    if txs != [] {
      var init, last := txs[..|txs| - 1], txs[|txs| - 1];
      ChangesHaveNotices(init, batch, results, now);
      var ci, cl := ChangeNotifications(init, batch, results, now), Notice(last, batch, results, now);
      var c := ChangeNotifications(txs, batch, results, now);
      NoticeDescribesChange(last, batch, results, now);
      assert c == ci + cl;
      forall i | 0 <= i < |txs| && RefreshRecord(txs[i], batch, results) != txs[i]
        ensures TransactionNotification(txs[i].txid, txs[i].status, RefreshRecord(txs[i], batch, results).status,
                                        txs[i].amount, txs[i].constellation, now) in c
      {
        if i < |init| {
          assert txs[i] == init[i];
        } else {
          assert txs[i] == last;
        }
      }
    }
  }

  /** Every notification describes a record the refresh changed. */
  lemma {:induction false} NoticesAreChanges(txs: seq<AllocationTransaction>, batch: seq<AllocationTransaction>,
                                             results: seq<Option<string>>, now: int)
    requires |results| == |batch|
    ensures forall n :: n in ChangeNotifications(txs, batch, results, now) ==>
      exists i :: 0 <= i < |txs| && RefreshRecord(txs[i], batch, results) != txs[i] && n ==
        TransactionNotification(txs[i].txid, txs[i].status, RefreshRecord(txs[i], batch, results).status,
                                txs[i].amount, txs[i].constellation, now)
  {
    if txs != [] {
      var init, last := txs[..|txs| - 1], txs[|txs| - 1];
      NoticesAreChanges(init, batch, results, now);
      var ci, cl := ChangeNotifications(init, batch, results, now), Notice(last, batch, results, now);
      var c := ChangeNotifications(txs, batch, results, now);
      NoticeDescribesChange(last, batch, results, now);
      assert c == ci + cl;
      forall n | n in c
        ensures exists i :: (0 <= i < |txs| && RefreshRecord(txs[i], batch, results) != txs[i] && n ==
          TransactionNotification(txs[i].txid, txs[i].status, RefreshRecord(txs[i], batch, results).status,
                                  txs[i].amount, txs[i].constellation, now))
      {
        if n in ci {
          var i :| 0 <= i < |init| && RefreshRecord(init[i], batch, results) != init[i] && n ==
            TransactionNotification(init[i].txid, init[i].status, RefreshRecord(init[i], batch, results).status,
                                    init[i].amount, init[i].constellation, now);
          assert txs[i] == init[i];
        } else {
          var i := |init|;
          assert n in cl;
          assert txs[i] == last;
        }
      }
    }
  }

  /**
   * A failed fetch settles on the batch record's status, so when the batch is
   * the current pending list (txids unique) and every fetch fails, nothing
   * changes.
   */
  lemma FailedFetchesChangeNothing(txs: seq<AllocationTransaction>, results: seq<Option<string>>, now: int)
    requires forall i, j :: 0 <= i < j < |txs| ==> txs[i].txid != txs[j].txid
    requires |results| == |WithStatus(txs, Pending)|
    requires forall k :: 0 <= k < |results| ==> results[k].None?
    ensures Refreshed(txs, WithStatus(txs, Pending), results) == txs
    ensures ChangeNotifications(txs, WithStatus(txs, Pending), results, now) == []
  {
    var batch := WithStatus(txs, Pending);
    forall i | 0 <= i < |txs|
      ensures NewStatus(txs[i], batch, results).None?
    {
      match FindIndex(batch, txs[i].txid)
      case None =>
      case Some(k) =>
        assert batch[k] in txs;
        var j :| 0 <= j < |txs| && txs[j] == batch[k];
        assert j == i;
    }
    NotificationsIffChanged(txs, batch, results, now);
  }

  /**
   * The fallback uses the status the record had when the batch was taken:
   * a record that has meanwhile become `success` is put back to `pending`
   * when the next fetch for it fails, with a notification saying so.
   */
  lemma FailedFetchRevertsNewerStatus()
    ensures var batched := AllocationTransaction("0xab", 1000, 3, Pending, 0);
      var current := [batched.(status := Success)];
      && Refreshed(current, [batched], [None]) == [batched]
      && ChangeNotifications(current, [batched], [None], 7)
           == [TransactionNotification("0xab", Success, Pending, 1000, 3, 7)]
  {
    var batched := AllocationTransaction("0xab", 1000, 3, Pending, 0);
    var current := [batched.(status := Success)];
    assert FindIndex([batched], "0xab") == Some(0);
    assert current[..0] == [];
  }

  // ---------------------------------------------------------------- cleanup

  /** A record survives cleanup when it is pending or younger than one day. */
  predicate Keep(tx: AllocationTransaction, now: int)
    ensures tx.status == Pending ==> Keep(tx, now)
    ensures tx.status != Pending ==> (Keep(tx, now) <==> tx.timestamp > now - CompletedTransactionMaxAge)
  {
    tx.status == Pending || now - tx.timestamp < CompletedTransactionMaxAge
  }

  /** `txs.filter(tx => Keep(tx, now))`. */
  function Kept(txs: seq<AllocationTransaction>, now: int): (r: seq<AllocationTransaction>)
    ensures |r| <= |txs|
    ensures forall tx :: tx in r <==> tx in txs && Keep(tx, now)
  {
    if txs == [] then []
    else if Keep(txs[0], now) then [txs[0]] + Kept(txs[1..], now)
    else Kept(txs[1..], now)
  }

  /** Cleanup removes a record exactly when it is completed and at least a day old. */
  lemma CleanupRemovesExactlyStale(txs: seq<AllocationTransaction>, now: int, tx: AllocationTransaction)
    requires tx in txs
    ensures tx !in Kept(txs, now) <==> tx.status != Pending && now - tx.timestamp >= 86400000
  {
  }

  /** Cleanup keeps every pending record, in order: the pending list is unchanged. */
  lemma {:induction false} CleanupKeepsPending(txs: seq<AllocationTransaction>, now: int)
    ensures WithStatus(Kept(txs, now), Pending) == WithStatus(txs, Pending)
  {
    if txs != [] {
      CleanupKeepsPending(txs[1..], now);
    }
  }

  /** A filter that keeps the length keeps the list: the source's length guard loses nothing. */
  lemma {:induction false} KeptSameLength(txs: seq<AllocationTransaction>, now: int)
    requires |Kept(txs, now)| == |txs|
    ensures Kept(txs, now) == txs
  {
    if txs != [] {
      assert Keep(txs[0], now);
      KeptSameLength(txs[1..], now);
    }
  }

  // ---------------------------------------------------------- notifications

  /** `notifications.filter(n => n.txid !== txid)`. */
  function WithoutTxid(ns: seq<TransactionNotification>, txid: string): (r: seq<TransactionNotification>)
    ensures |r| <= |ns|
    ensures forall n :: n in r <==> n in ns && n.txid != txid
  {
    if ns == [] then []
    else if ns[0].txid != txid then [ns[0]] + WithoutTxid(ns[1..], txid)
    else WithoutTxid(ns[1..], txid)
  }

  /** Dismissing keeps the other notifications in order. */
  lemma {:induction false} WithoutTxidAppend(a: seq<TransactionNotification>, b: seq<TransactionNotification>, txid: string)
    ensures WithoutTxid(a + b, txid) == WithoutTxid(a, txid) + WithoutTxid(b, txid)
  {
    if a == [] {
      assert a + b == b;
    } else {
      assert (a + b)[1..] == a[1..] + b;
      WithoutTxidAppend(a[1..], b, txid);
    }
  }

  /** Dismissing a txid that is not there removes nothing. */
  lemma {:induction false} WithoutTxidSameLength(ns: seq<TransactionNotification>, txid: string)
    requires |WithoutTxid(ns, txid)| == |ns|
    ensures WithoutTxid(ns, txid) == ns
  {
    if ns != [] {
      assert ns[0].txid != txid;
      WithoutTxidSameLength(ns[1..], txid);
    }
  }

  /** Newest first: timestamps never increase along the list. */
  predicate NewestFirst(ns: seq<TransactionNotification>) {
    forall i, j :: 0 <= i < j < |ns| ==> ns[i].timestamp >= ns[j].timestamp
  }

  /** Places `n` before the first entry that is not newer than it. */
  function Insert(n: TransactionNotification, sorted: seq<TransactionNotification>): (r: seq<TransactionNotification>)
    ensures |r| == |sorted| + 1
  {
    if sorted == [] || sorted[0].timestamp <= n.timestamp then [n] + sorted
    else [sorted[0]] + Insert(n, sorted[1..])
  }

  /** Inserting adds exactly `n` to the entries. */
  lemma {:induction false} InsertAddsOne(n: TransactionNotification, sorted: seq<TransactionNotification>)
    ensures multiset(Insert(n, sorted)) == multiset(sorted) + multiset{n}
  {
    if sorted != [] && sorted[0].timestamp > n.timestamp {
      InsertAddsOne(n, sorted[1..]);
      assert sorted == [sorted[0]] + sorted[1..];
    }
  }

  /** Inserting an entry no newer than `t` into entries no newer than `t` keeps them all no newer than `t`. */
  lemma {:induction false} InsertAtMost(n: TransactionNotification, sorted: seq<TransactionNotification>, t: int)
    requires forall k :: 0 <= k < |sorted| ==> sorted[k].timestamp <= t
    requires n.timestamp <= t
    ensures forall k :: 0 <= k < |Insert(n, sorted)| ==> Insert(n, sorted)[k].timestamp <= t
  {
    if sorted != [] && sorted[0].timestamp > n.timestamp {
      InsertAtMost(n, sorted[1..], t);
      var r := Insert(n, sorted);
      forall k | 0 <= k < |r| ensures r[k].timestamp <= t {
        if k > 0 {
          assert r[k] == Insert(n, sorted[1..])[k - 1];
        }
      }
    }
  }

  /** Inserting into a newest-first list keeps it newest first. */
  lemma {:induction false} InsertKeepsOrder(n: TransactionNotification, sorted: seq<TransactionNotification>)
    requires NewestFirst(sorted)
    ensures NewestFirst(Insert(n, sorted))
  {
    if sorted != [] && sorted[0].timestamp > n.timestamp {
      var tail := sorted[1..];
      var rest := Insert(n, tail);
      InsertKeepsOrder(n, tail);
      InsertAtMost(n, tail, sorted[0].timestamp);
      var r := Insert(n, sorted);
      assert r == [sorted[0]] + rest;
      forall i, j | 0 <= i < j < |r| ensures r[i].timestamp >= r[j].timestamp {
        if i == 0 {
          assert r[j] == rest[j - 1];
        } else {
          assert r[i] == rest[i - 1] && r[j] == rest[j - 1];
        }
      }
    } else {
      var r := Insert(n, sorted);
      assert r == [n] + sorted;
      forall i, j | 0 <= i < j < |r| ensures r[i].timestamp >= r[j].timestamp {
        if i == 0 {
          assert r[j] == sorted[j - 1];
        } else {
          assert r[i] == sorted[i - 1] && r[j] == sorted[j - 1];
        }
      }
    }
  }

  /** `[...ns].sort((a, b) => b.timestamp - a.timestamp)`: the same entries, newest first. */
  function SortNewestFirst(ns: seq<TransactionNotification>): (r: seq<TransactionNotification>)
    ensures NewestFirst(r)
    ensures multiset(r) == multiset(ns)
    ensures |r| == |ns|
  {
    if ns == [] then []
    else
      assert ns == [ns[0]] + ns[1..];
      InsertKeepsOrder(ns[0], SortNewestFirst(ns[1..]));
      InsertAddsOne(ns[0], SortNewestFirst(ns[1..]));
      Insert(ns[0], SortNewestFirst(ns[1..]))
  }

  /** The notifications stamped `t`, in list order. */
  function StampedAt(ns: seq<TransactionNotification>, t: int): (r: seq<TransactionNotification>)
    ensures |r| <= |ns|
    ensures forall i :: 0 <= i < |r| ==> r[i].timestamp == t
  {
    if ns == [] then []
    else (if ns[0].timestamp == t then [ns[0]] else []) + StampedAt(ns[1..], t)
  }

  /** A notification is kept by the filter exactly when it is in the list and stamped `t`. */
  lemma {:induction false} StampedAtMembers(ns: seq<TransactionNotification>, t: int, n: TransactionNotification)
    ensures n in StampedAt(ns, t) <==> n in ns && n.timestamp == t
  {
    if ns != [] {
      StampedAtMembers(ns[1..], t, n);
      assert ns == [ns[0]] + ns[1..];
    }
  }

  /** Filtering a list that starts with `x` filters `x`, then the rest. */
  lemma StampedAtCons(x: TransactionNotification, ns: seq<TransactionNotification>, t: int)
    ensures StampedAt([x] + ns, t) == (if x.timestamp == t then [x] else []) + StampedAt(ns, t)
  {
    assert ([x] + ns)[1..] == ns;
  }

  /** Inserting puts `n` before every entry stamped like it and leaves the others' order alone. */
  lemma {:induction false} InsertStable(n: TransactionNotification, sorted: seq<TransactionNotification>, t: int)
    ensures StampedAt(Insert(n, sorted), t) == (if n.timestamp == t then [n] else []) + StampedAt(sorted, t)
  {
    if sorted == [] || sorted[0].timestamp <= n.timestamp {
      StampedAtCons(n, sorted, t);
    } else {
      var x, tail := sorted[0], sorted[1..];
      var rest := Insert(n, tail);
      var mine := if n.timestamp == t then [n] else [];
      var its := if x.timestamp == t then [x] else [];
      // `x` is newer than `n`, so at most one of them is stamped `t`.
      assert mine == [] || its == [];
      calc {
        StampedAt(Insert(n, sorted), t);
        == { assert Insert(n, sorted) == [x] + rest; }
        StampedAt([x] + rest, t);
        == { StampedAtCons(x, rest, t); }
        its + StampedAt(rest, t);
        == { InsertStable(n, tail, t); }
        its + (mine + StampedAt(tail, t));
        == { if mine == [] { assert mine + (its + StampedAt(tail, t)) == its + StampedAt(tail, t); } }
        mine + (its + StampedAt(tail, t));
        == { StampedAtCons(x, tail, t); assert [x] + tail == sorted; }
        mine + StampedAt(sorted, t);
      }
    }
  }

  /**
   * The sort is stable: among notifications with the same timestamp, the
   * order of the input is kept.
   */
  lemma {:induction false} SortNewestFirstStable(ns: seq<TransactionNotification>, t: int)
    ensures StampedAt(SortNewestFirst(ns), t) == StampedAt(ns, t)
  {
    if ns != [] {
      SortNewestFirstStable(ns[1..], t);
      InsertStable(ns[0], SortNewestFirst(ns[1..]), t);
    }
  }

  /**
   * `limit ? sorted.slice(0, limit) : sorted`: no limit or a zero limit keeps
   * everything; a positive limit keeps at most that many; a negative one
   * drops that many from the end.
   */
  function Limited(sorted: seq<TransactionNotification>, limit: Option<int>): (r: seq<TransactionNotification>)
    ensures r <= sorted
    ensures limit.None? || limit.value == 0 ==> r == sorted
    ensures limit.Some? && limit.value > 0 ==> |r| == if limit.value < |sorted| then limit.value else |sorted|
    ensures limit.Some? && limit.value < 0 ==> |r| == if |sorted| + limit.value > 0 then |sorted| + limit.value else 0
  {
    if limit.None? || limit.value == 0 then sorted
    else if limit.value > 0 then sorted[..if limit.value < |sorted| then limit.value else |sorted|]
    else sorted[..if |sorted| + limit.value > 0 then |sorted| + limit.value else 0]
  }

  /**
   * What the notification query returns: newest first, only notifications
   * that exist, all of them without a limit, and for a positive limit the
   * `limit` newest (all when there are fewer).
   */
  lemma NotificationsQuery(ns: seq<TransactionNotification>, limit: Option<int>)
    ensures var r := Limited(SortNewestFirst(ns), limit);
      && NewestFirst(r)
      && multiset(r) <= multiset(ns)
      && (limit.None? || limit.value == 0 ==> multiset(r) == multiset(ns))
      && (limit.Some? && limit.value > 0 ==> |r| == if limit.value < |ns| then limit.value else |ns|)
  {
    var sorted := SortNewestFirst(ns);
    PrefixOfSorted(sorted, Limited(sorted, limit));
  }

  /** A prefix of a newest-first list is newest first and holds no more than the list. */
  lemma PrefixOfSorted(sorted: seq<TransactionNotification>, r: seq<TransactionNotification>)
    requires r <= sorted && NewestFirst(sorted)
    ensures NewestFirst(r)
    ensures multiset(r) <= multiset(sorted)
  {
    assert sorted == r + sorted[|r|..];
    assert multiset(sorted) == multiset(r) + multiset(sorted[|r|..]);
    forall i, j | 0 <= i < j < |r| ensures r[i].timestamp >= r[j].timestamp {
      assert r[i] == sorted[i] && r[j] == sorted[j];
    }
  }

  /** An entry of a list that a prefix does not account for sits after the prefix. */
  lemma LeftOutIsAfterPrefix(sorted: seq<TransactionNotification>, r: seq<TransactionNotification>, n: TransactionNotification)
    requires r <= sorted
    requires n in multiset(sorted) - multiset(r)
    ensures exists j :: |r| <= j < |sorted| && sorted[j] == n
  {
    var rest := sorted[|r|..];
    assert sorted == r + rest;
    assert multiset(sorted) == multiset(r) + multiset(rest);
    assert n in multiset(rest);
    var j :| 0 <= j < |rest| && rest[j] == n;
    assert sorted[|r| + j] == n;
  }

  /** The query keeps the newest: no notification it leaves out is newer than one it returns. */
  lemma NotificationsQueryKeepsNewest(ns: seq<TransactionNotification>, limit: Option<int>)
    ensures var r := Limited(SortNewestFirst(ns), limit);
      forall n, i :: n in multiset(ns) - multiset(r) && 0 <= i < |r| ==> n.timestamp <= r[i].timestamp
  {
    var sorted := SortNewestFirst(ns);
    var r := Limited(sorted, limit);
    forall n, i | n in multiset(ns) - multiset(r) && 0 <= i < |r|
      ensures n.timestamp <= r[i].timestamp
    {
      LeftOutIsAfterPrefix(sorted, r, n);
      var j :| |r| <= j < |sorted| && sorted[j] == n;
      assert sorted[i] == r[i];
    }
  }

  // ---------------------------------------------------------------- service

  class AllocateStatusService {
    var allocations: seq<AllocationTransaction>
    var notifications: seq<TransactionNotification>

    /** Starts from the lists kept in browser storage (empty when there are none). */
    constructor(storedAllocations: seq<AllocationTransaction>, storedNotifications: seq<TransactionNotification>)
      ensures allocations == storedAllocations && notifications == storedNotifications
    {
      allocations := storedAllocations;
      notifications := storedNotifications;
    }

    /** Appends one pending record stamped `now`; nothing else changes. */
    method AddAllocationTransaction(txid: string, amount: int, constellation: int, now: int)
      modifies this
      ensures allocations == old(allocations) + [AllocationTransaction(txid, amount, constellation, Pending, now)]
      ensures notifications == old(notifications)
    {
      var newTransaction := AllocationTransaction(txid, amount, constellation, Pending, now);
      allocations := allocations + [newTransaction];
    }

    /**
     * The `map` over the current records in a status check: each record in
     * the batch takes its settled status, and each change adds one
     * notification stamped `now`.
     */
    static method RefreshAll(currentTransactions: seq<AllocationTransaction>, batch: seq<AllocationTransaction>,
                             results: seq<Option<string>>, now: int)
      returns (updatedTransactions: seq<AllocationTransaction>, newNotifications: seq<TransactionNotification>, hasChanges: bool)
      requires |results| == |batch|
      ensures updatedTransactions == Refreshed(currentTransactions, batch, results)
      ensures newNotifications == ChangeNotifications(currentTransactions, batch, results, now)
      ensures hasChanges <==> newNotifications != []
    {
      hasChanges := false;
      newNotifications := [];
      updatedTransactions := [];
      var j := 0;
      while j < |currentTransactions|
        invariant 0 <= j <= |currentTransactions|
        invariant updatedTransactions == Refreshed(currentTransactions[..j], batch, results)
        invariant newNotifications == ChangeNotifications(currentTransactions[..j], batch, results, now)
        invariant hasChanges <==> newNotifications != []
      {
        var tx := currentTransactions[j];
        var next := tx;
        ghost var before := newNotifications;
        var pendingIndex := FindIndex(batch, tx.txid);
        if pendingIndex.Some? {
          var newStatus := FetchedStatus(batch, results, pendingIndex.value);
          if newStatus != tx.status {
            hasChanges := true;
            newNotifications := newNotifications +
              [TransactionNotification(tx.txid, tx.status, newStatus, tx.amount, tx.constellation, now)];
            next := tx.(status := newStatus);
          }
        }
        assert newNotifications == before + Notice(tx, batch, results, now);
        assert next == RefreshRecord(tx, batch, results);
        assert currentTransactions[..j + 1][..j] == currentTransactions[..j];
        assert currentTransactions[..j + 1][j] == tx;
        updatedTransactions := updatedTransactions + [next];
        j := j + 1;
      }
      assert currentTransactions[..j] == currentTransactions;
    }

    /**
     * The completion of a status check over `batch`, the pending records
     * taken earlier, with one fetch result per batch record (`None` for a
     * failed fetch). Both lists are rewritten only when some status changed.
     */
    method ApplyStatusResults(batch: seq<AllocationTransaction>, results: seq<Option<string>>, now: int)
      returns (hasChanges: bool)
      requires |results| == |batch|
      modifies this`allocations, this`notifications
      ensures hasChanges <==> ChangeNotifications(old(allocations), batch, results, now) != []
      ensures hasChanges ==> allocations == Refreshed(old(allocations), batch, results)
      ensures hasChanges ==> notifications == old(notifications) + ChangeNotifications(old(allocations), batch, results, now)
      ensures !hasChanges ==> allocations == old(allocations) && notifications == old(notifications)
    {
      var updatedTransactions, newNotifications;
      updatedTransactions, newNotifications, hasChanges := RefreshAll(allocations, batch, results, now);
      if hasChanges {
        allocations := updatedTransactions;
        if |newNotifications| > 0 {
          notifications := notifications + newNotifications;
        }
      }
    }

    /** Drops completed records at least a day old; pending ones always stay. */
    method CleanupOldTransactions(now: int)
      modifies this
      ensures allocations == Kept(old(allocations), now)
      ensures notifications == old(notifications)
    {
      var filteredTransactions := Kept(allocations, now);
      if |filteredTransactions| != |allocations| {
        allocations := filteredTransactions;
      } else {
        KeptSameLength(allocations, now);
      }
    }

    /** The first record with the txid, if any. */
    function GetTransaction(txid: string): (r: Option<AllocationTransaction>)
      reads this
      ensures r.Some? ==> r.value in allocations && r.value.txid == txid
      ensures r.None? <==> forall tx :: tx in allocations ==> tx.txid != txid
      ensures r.Some? ==> exists k :: (0 <= k < |allocations| && r.value == allocations[k]
        && forall j :: 0 <= j < k ==> allocations[j].txid != txid)
    {
      match FindIndex(allocations, txid)
      case None => None
      case Some(k) => Some(allocations[k])
    }

    function GetPendingTransactions(): (r: seq<AllocationTransaction>)
      reads this
      ensures forall tx :: tx in r <==> tx in allocations && tx.status == Pending
    {
      WithStatus(allocations, Pending)
    }

    function GetTransactionsByStatus(status: string): (r: seq<AllocationTransaction>)
      reads this
      ensures forall tx :: tx in r <==> tx in allocations && tx.status == status
    {
      WithStatus(allocations, status)
    }

    /** Completed means any status but pending: successes and both kinds of abort. */
    function GetCompletedTransactions(): (r: seq<AllocationTransaction>)
      reads this
      ensures forall tx :: tx in r <==> tx in allocations && tx.status != Pending
      ensures multiset(r) + multiset(GetPendingTransactions()) == multiset(allocations)
    {
      StatusPartition(allocations, Pending);
      WithoutStatus(allocations, Pending)
    }

    /** The notifications newest first, cut to `limit` when it is given and not zero. */
    function GetNotifications(limit: Option<int>): (r: seq<TransactionNotification>)
      reads this
      ensures NewestFirst(r)
      ensures multiset(r) <= multiset(notifications)
      ensures limit.None? || limit.value == 0 ==> multiset(r) == multiset(notifications)
      ensures limit.Some? && limit.value > 0 ==>
        |r| == (if limit.value < |notifications| then limit.value else |notifications|)
      ensures forall n, i :: n in multiset(notifications) - multiset(r) && 0 <= i < |r| ==> n.timestamp <= r[i].timestamp
      ensures r == Limited(SortNewestFirst(notifications), limit)
    {
      NotificationsQuery(notifications, limit);
      NotificationsQueryKeepsNewest(notifications, limit);
      Limited(SortNewestFirst(notifications), limit)
    }

    method ClearNotifications()
      modifies this
      ensures notifications == [] && allocations == old(allocations)
    {
      notifications := [];
    }

    /** Removes every notification about `txid` and keeps the rest in order. */
    method DismissNotification(txid: string)
      modifies this
      ensures notifications == WithoutTxid(old(notifications), txid)
      ensures allocations == old(allocations)
    {
      var updatedNotifications := WithoutTxid(notifications, txid);
      if |updatedNotifications| != |notifications| {
        notifications := updatedNotifications;
      } else {
        WithoutTxidSameLength(notifications, txid);
      }
    }
  }
}
