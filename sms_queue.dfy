/** The SMS outbox processor: `POST /api/send-sms` takes up to ten pending SMS rows of
    `notification_logs`, sends each once, and marks it sent or failed for good; `GET` counts the
    SMS rows by status. */
module SmsQueue {
  import opened Wrappers
  import Seqs
  import Tally

  const BATCH_SIZE: nat := 10
  const SMS: string := "sms"
  const PENDING: string := "pending"
  const SENT: string := "sent"
  const FAILED: string := "failed"

  /** One row of the `notification_logs` table. */
  datatype NotificationRow = NotificationRow(
    id: nat,
    notificationType: string,
    status: string,
    recipientPhone: string,
    messageContent: string,
    sentAt: Option<int>,
    errorMessage: Option<string>)

  /** One entry of `results`: the row, its phone, `sent` or `failed`, and the gateway's reply or error. */
  datatype Entry = Entry(id: nat, phone: string, status: string, outcome: ChannelResult)

  /** The POST reply: a 500 when the selection fails, `"No pending SMS notifications"` when nothing
      is pending, otherwise the count and the per-row results. */
  datatype PostResponse = DatabaseError | NoPendingSms | Completed(processed: nat, results: seq<Entry>)

  ghost predicate UniqueIds(rows: seq<NotificationRow>)
  {
    forall i, j :: 0 <= i < j < |rows| ==> rows[i].id != rows[j].id
  }

  /** `notification_type = 'sms' and status = 'pending'` */
  predicate PendingSms(r: NotificationRow)
  {
    r.notificationType == SMS && r.status == PENDING
  }

  /** The selection: the first ten pending SMS rows in the order the table returns them (the query
      has no `order` clause). */
  function SelectBatch(rows: seq<NotificationRow>): seq<NotificationRow>
  {
    Seqs.Take(Seqs.Filter(rows, PendingSms), BATCH_SIZE)
  }

  /** At most ten rows, only pending SMS rows of the table, each at most once; a pending SMS row is
      left behind only when ten rows were taken. */
  lemma SelectBatchSpec(rows: seq<NotificationRow>)
    requires UniqueIds(rows)
    ensures var b := SelectBatch(rows);
      && |b| <= BATCH_SIZE
      && (forall r :: r in b ==> r in rows && PendingSms(r))
      && (forall r :: r in rows && PendingSms(r) && r !in b ==> |b| == BATCH_SIZE)
      && Seqs.Distinct(b)
  {
    var f := Seqs.Filter(rows, PendingSms);
    var b := SelectBatch(rows);
    if |f| <= BATCH_SIZE {
      assert b == f;
    }
    forall r | r in rows && PendingSms(r) && r !in b ensures |b| == BATCH_SIZE {
      assert r in f;
    }
    assert multiset(b) <= multiset(f) by {
      var k := |b|;
      assert b == f[..k];
      assert f == f[..k] + f[k..];
    }
    forall x ensures multiset(f)[x] <= multiset(rows)[x] {
      Seqs.FilterCount(rows, PendingSms, x);
    }
    assert Seqs.Distinct(rows);
    Seqs.DistinctSub(rows, b);
  }

  /** The store updates the loop issues, each applied to the row with the given id. */
  datatype Patch =
    | MarkSent(at: int)            // `{ status: "sent", sent_at: now }`
    | MarkFailed(message: string)  // `{ status: "failed", error_message }`

  function ApplyPatch(r: NotificationRow, p: Patch): NotificationRow
  {
    match p
    case MarkSent(at) => r.(status := SENT, sentAt := Some(at))
    case MarkFailed(msg) => r.(status := FAILED, errorMessage := Some(msg))
  }

  /** `.update(patch).eq("id", id)` */
  function UpdateById(rows: seq<NotificationRow>, id: nat, p: Patch): (r: seq<NotificationRow>)
    ensures |r| == |rows|
    ensures forall i :: 0 <= i < |r| ==> r[i].id == rows[i].id
    ensures forall i :: 0 <= i < |r| ==> r[i] == if rows[i].id == id then ApplyPatch(rows[i], p) else rows[i]
  {
    seq(|rows|, i requires 0 <= i < |rows| => if rows[i].id == id then ApplyPatch(rows[i], p) else rows[i])
  }

  /** The update for a row: sent when the gateway accepted it, failed with its error otherwise. */
  function PatchFor(e: NotificationRow, now: int, send: NotificationRow -> ChannelResult): Patch
  {
    match send(e)
    case Delivered(_) => MarkSent(now)
    case Rejected(msg) => MarkFailed(msg)
  }

  /** The row after its one send: sent with `sent_at`, or failed with the error message; the first
      failure is final. Nothing else changes. */
  function Settle(r: NotificationRow, now: int, send: NotificationRow -> ChannelResult): (s: NotificationRow)
    ensures send(r).Delivered? ==> s.status == SENT && s.sentAt == Some(now) && s.errorMessage == r.errorMessage
    ensures send(r).Rejected? ==> s.status == FAILED && s.errorMessage == Some(send(r).message) && s.sentAt == r.sentAt
    ensures s.(status := r.status, sentAt := r.sentAt, errorMessage := r.errorMessage) == r
  {
    ApplyPatch(r, PatchFor(r, now, send))
  }

  /** The table after the loop has handled `batch`, row after row. */
  function SendRows(rows: seq<NotificationRow>, batch: seq<NotificationRow>, now: int, send: NotificationRow -> ChannelResult): (r: seq<NotificationRow>)
    ensures |r| == |rows|
    ensures forall i :: 0 <= i < |r| ==> r[i].id == rows[i].id
    decreases |batch|
  {
    if batch == [] then rows
    else
      var e := batch[|batch| - 1];
      UpdateById(SendRows(rows, batch[..|batch| - 1], now, send), e.id, PatchFor(e, now, send))
  }

  function EntryFor(e: NotificationRow, now: int, send: NotificationRow -> ChannelResult): Entry
  {
    Entry(e.id, e.recipientPhone, Settle(e, now, send).status, send(e))
  }

  /** `results`: one entry per fetched row, in fetch order. */
  function Report(batch: seq<NotificationRow>, now: int, send: NotificationRow -> ChannelResult): (es: seq<Entry>)
    ensures |es| == |batch|
    ensures forall i :: 0 <= i < |batch| ==> es[i].id == batch[i].id && es[i].phone == batch[i].recipientPhone
  {
    seq(|batch|, i requires 0 <= i < |batch| => EntryFor(batch[i], now, send))
  }

  lemma StepAt(rows: seq<NotificationRow>, before: seq<NotificationRow>, init: seq<NotificationRow>, e: NotificationRow,
               k: int, now: int, send: NotificationRow -> ChannelResult)
    requires UniqueIds(rows) && e in rows && e !in init
    requires |before| == |rows| && 0 <= k < |rows| && before[k].id == rows[k].id
    requires before[k] == if rows[k] in init then Settle(rows[k], now, send) else rows[k]
    ensures UpdateById(before, e.id, PatchFor(e, now, send))[k] == if rows[k] in init + [e] then Settle(rows[k], now, send) else rows[k]
  {
    if rows[k] != e {
      var p :| 0 <= p < |rows| && rows[p] == e;
      assert rows[k].id != e.id by {
        if k < p { assert rows[k].id != rows[p].id; } else { assert rows[p].id != rows[k].id; }
      }
    }
  }

  /** Each row of the batch ends up sent or failed as its send went; every other row is untouched. */
  lemma {:induction false} SendRowsEffect(rows: seq<NotificationRow>, batch: seq<NotificationRow>, now: int,
                                          send: NotificationRow -> ChannelResult)
    requires UniqueIds(rows) && Seqs.Distinct(batch)
    requires forall e :: e in batch ==> e in rows
    ensures var r := SendRows(rows, batch, now, send);
      forall k :: 0 <= k < |rows| ==> r[k] == if rows[k] in batch then Settle(rows[k], now, send) else rows[k]
    decreases |batch|
  {
    if batch != [] {
      var init, e := batch[..|batch| - 1], batch[|batch| - 1];
      assert batch == init + [e];
      assert e !in init by {
        forall i | 0 <= i < |init| ensures init[i] != e {
          assert batch[i] == init[i];
        }
      }
      SendRowsEffect(rows, init, now, send);
      var before := SendRows(rows, init, now, send);
      forall k | 0 <= k < |rows|
        ensures SendRows(rows, batch, now, send)[k] == if rows[k] in batch then Settle(rows[k], now, send) else rows[k]
      {
        StepAt(rows, before, init, e, k, now, send);
      }
    }
  }

  /** There is no retry: after one POST no row of the batch is pending, so none is ever sent twice. */
  lemma NoRetry(rows: seq<NotificationRow>, now: int, send: NotificationRow -> ChannelResult)
    requires UniqueIds(rows)
    ensures var out := SendRows(rows, SelectBatch(rows), now, send);
      forall k :: 0 <= k < |rows| && rows[k] in SelectBatch(rows) ==>
        (out[k].status == SENT || out[k].status == FAILED) && out[k] !in SelectBatch(out)
  {
    SelectBatchSpec(rows);
    SendRowsEffect(rows, SelectBatch(rows), now, send);
    var out := SendRows(rows, SelectBatch(rows), now, send);
    forall k | 0 <= k < |rows| && rows[k] in SelectBatch(rows)
      ensures (out[k].status == SENT || out[k].status == FAILED) && out[k] !in SelectBatch(out)
    {
      assert UniqueIds(out);
      SelectBatchSpec(out);
    }
  }

  lemma BatchStep(rows: seq<NotificationRow>, batch: seq<NotificationRow>, i: nat, now: int, send: NotificationRow -> ChannelResult)
    requires i < |batch|
    ensures SendRows(rows, batch[..i + 1], now, send) == UpdateById(SendRows(rows, batch[..i], now, send), batch[i].id, PatchFor(batch[i], now, send))
    ensures Report(batch[..i + 1], now, send) == Report(batch[..i], now, send) + [EntryFor(batch[i], now, send)]
  {
    assert batch[..i + 1][..i] == batch[..i];
  }

  /** Sending changes no id, so no two rows come to share one. */
  lemma SendRowsUnique(rows: seq<NotificationRow>, batch: seq<NotificationRow>, now: int, send: NotificationRow -> ChannelResult)
    requires UniqueIds(rows)
    ensures UniqueIds(SendRows(rows, batch, now, send))
  {
    var r := SendRows(rows, batch, now, send);
    forall i, j | 0 <= i < j < |r| ensures r[i].id != r[j].id {
      assert r[i].id == rows[i].id && r[j].id == rows[j].id;
    }
  }

  /** The `notification_logs` table as the SMS processor sees and changes it. */
  class SmsOutbox {
    var rows: seq<NotificationRow>

    ghost predicate Valid()
      reads this
    {
      UniqueIds(rows)
    }

    constructor (initial: seq<NotificationRow>)
      requires UniqueIds(initial)
      ensures Valid() && rows == initial
    {
      rows := initial;
    }

    /** `POST`: one batch. `selectionFails` stands for the store reporting an error on the select;
        `send` is the gateway's outcome for each row. */
    method Post(now: int, selectionFails: bool, send: NotificationRow -> ChannelResult) returns (response: PostResponse)
      requires Valid()
      modifies this
      ensures Valid()
      ensures selectionFails ==> response == DatabaseError && rows == old(rows)
      ensures !selectionFails && SelectBatch(old(rows)) == [] ==> response == NoPendingSms && rows == old(rows)
      ensures !selectionFails && SelectBatch(old(rows)) != [] ==>
        && response == Completed(|SelectBatch(old(rows))|, Report(SelectBatch(old(rows)), now, send))
        && rows == SendRows(old(rows), SelectBatch(old(rows)), now, send)
    {
      if selectionFails {
        return DatabaseError;
      }
      var batch := SelectBatch(rows);
      if |batch| == 0 {
        return NoPendingSms;
      }
      var results := SendBatch(batch, now, send);
      SendRowsUnique(old(rows), batch, now, send);
      return Completed(|results|, results);
    }

    /** The loop of `POST`: each row of `batch` in turn is sent and then marked sent or failed. */
    method SendBatch(batch: seq<NotificationRow>, now: int, send: NotificationRow -> ChannelResult) returns (results: seq<Entry>)
      modifies this
      ensures rows == SendRows(old(rows), batch, now, send)
      ensures results == Report(batch, now, send)
    {
      results := [];
      var i := 0;
      while i < |batch|
        invariant 0 <= i <= |batch|
        invariant rows == SendRows(old(rows), batch[..i], now, send)
        invariant results == Report(batch[..i], now, send)
      {
        BatchStep(old(rows), batch, i, now, send);
        var notification := batch[i];
        var result := send(notification);
        var status: string;
        if result.Delivered? {
          assert MarkSent(now) == PatchFor(notification, now, send);
          rows := UpdateById(rows, notification.id, MarkSent(now));
          status := SENT;
        } else {
          assert MarkFailed(result.message) == PatchFor(notification, now, send);
          rows := UpdateById(rows, notification.id, MarkFailed(result.message));
          status := FAILED;
        }
        assert status == Settle(notification, now, send).status;
        results := results + [Entry(notification.id, notification.recipientPhone, status, result)];
        i := i + 1;
      }
      assert batch[..|batch|] == batch;
    }
  }

  /** `notification_type = 'sms'` */
  predicate IsSms(r: NotificationRow)
  {
    r.notificationType == SMS
  }

  function StatusColumn(rows: seq<NotificationRow>): (s: seq<string>)
    ensures |s| == |rows|
    ensures forall i :: 0 <= i < |rows| ==> s[i] == rows[i].status
  {
    seq(|rows|, i requires 0 <= i < |rows| => rows[i].status)
  }

  /** `GET`: counts over the SMS rows only; a read error is a 500. */
  function GetStats(rows: seq<NotificationRow>, readFails: bool): (r: Tally.StatsResponse)
    ensures readFails <==> r.StatsError?
    ensures r.Stats? ==>
      && r.total == |Seqs.Filter(rows, IsSms)|
      && Tally.CountTotal(r.statusCounts) == r.total
      && Tally.UniqueStatuses(r.statusCounts)
      && forall q :: Tally.CountOf(r.statusCounts, q) == multiset(StatusColumn(Seqs.Filter(rows, IsSms)))[q]
  {
    if readFails then Tally.StatsError
    else
      var sms := Seqs.Filter(rows, IsSms);
      Tally.Stats(|sms|, Tally.Summarize(StatusColumn(sms)))
  }

  /** Rows of any other notification type never change the SMS counts. */
  lemma OtherTypesNotCounted(rows: seq<NotificationRow>, other: NotificationRow)
    requires !IsSms(other)
    ensures GetStats(rows + [other], false) == GetStats(rows, false)
  {
    Seqs.FilterAppend(rows, [other], IsSms);
    assert Seqs.Filter([other], IsSms) == [];
    assert rows + [other] != [];
    assert Seqs.Filter(rows + [other], IsSms) == Seqs.Filter(rows, IsSms);
  }
}
