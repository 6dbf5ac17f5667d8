/** The email outbox processor: `POST /api/process-email-queue` takes up to ten due rows of
    `email_queue`, oldest first, counts an attempt for each, tries the primary channel and then the
    fallback one, and settles the row as sent, failed or pending again; `GET` counts rows by status. */
module EmailQueue {
  import opened Wrappers
  import Seqs
  import Tally

  const BATCH_SIZE: nat := 10
  const PENDING: string := "pending"
  const SENT: string := "sent"
  const FAILED: string := "failed"

  /** One row of the `email_queue` table. */
  datatype EmailRow = EmailRow(
    id: nat,
    toEmail: string,
    subject: string,
    htmlContent: string,
    textContent: Option<string>,
    status: string,
    attempts: int,
    maxAttempts: int,
    scheduledAt: int,
    sentAt: Option<int>,
    errorMessage: Option<string>,
    createdAt: int)

  /** One entry of the `results` array: the row, its address, its new status, and the channel's
      result (on success) or the error message (on failure). */
  datatype Entry = Entry(id: nat, email: string, status: string, outcome: ChannelResult)

  /** The POST reply: a 500 when the selection fails, `"No pending emails"` (with no `processed`
      field) when nothing is due, otherwise the count and the per-row results. */
  datatype PostResponse = DatabaseError | NoPendingEmails | Completed(processed: nat, results: seq<Entry>)

  function HttpStatus(r: PostResponse): int
  {
    if r.DatabaseError? then 500 else 200
  }

  ghost predicate UniqueIds(rows: seq<EmailRow>)
  {
    forall i, j :: 0 <= i < j < |rows| ==> rows[i].id != rows[j].id
  }

  // ---------------------------------------------------------------------------------------------
  // Selection

  /** The eligibility the query means: pending, attempts left, and due. */
  predicate Eligible(r: EmailRow, now: int)
  {
    r.status == PENDING && r.attempts < r.maxAttempts && r.scheduledAt <= now
  }

  function EligibleAt(now: int): EmailRow -> bool
  {
    (r: EmailRow) => Eligible(r, now)
  }

  function CreatedAt(r: EmailRow): int
  {
    r.createdAt
  }

  /** The rows the processor works on: eligible rows, ordered by `created_at` ascending, at most ten. */
  function SelectBatch(rows: seq<EmailRow>, now: int): seq<EmailRow>
  {
    Seqs.Take(Seqs.SortBy(Seqs.Filter(rows, EligibleAt(now)), CreatedAt), BATCH_SIZE)
  }

  /** The selection takes at most ten rows, only eligible rows of the table, oldest first, as many as
      are eligible up to ten, and no eligible row left behind is older than one taken. */
  lemma SelectBatchSpec(rows: seq<EmailRow>, now: int)
    ensures var b := SelectBatch(rows, now);
      var due := Seqs.Filter(rows, EligibleAt(now));
      && |b| == (if |due| < BATCH_SIZE then |due| else BATCH_SIZE)
      && (forall r :: r in b ==> r in rows && Eligible(r, now))
      && Seqs.SortedBy(b, CreatedAt)
      && multiset(b) <= multiset(due)
      && (forall x, y :: x in b && y in multiset(due) - multiset(b) ==> x.createdAt <= y.createdAt)
  {
    var due := Seqs.Filter(rows, EligibleAt(now));
    var s := Seqs.SortBy(due, CreatedAt);
    Seqs.TakeSorted(s, BATCH_SIZE, CreatedAt);
    forall r | r in SelectBatch(rows, now) ensures r in rows && Eligible(r, now) {
      assert r in multiset(s);
    }
  }

  /** A sent or failed row is never selected again. */
  lemma SettledRowsNotSelected(rows: seq<EmailRow>, now: int, r: EmailRow)
    requires r.status == SENT || r.status == FAILED
    ensures r !in SelectBatch(rows, now)
  {
    SelectBatchSpec(rows, now);
  }

  /** The selection never takes the same row twice. */
  lemma SelectBatchDistinct(rows: seq<EmailRow>, now: int)
    requires UniqueIds(rows)
    ensures Seqs.Distinct(SelectBatch(rows, now))
  {
    SelectBatchSpec(rows, now);
    var due := Seqs.Filter(rows, EligibleAt(now));
    forall x ensures multiset(due)[x] <= multiset(rows)[x] {
      Seqs.FilterCount(rows, EligibleAt(now), x);
    }
    Seqs.DistinctSub(rows, SelectBatch(rows, now));
  }

  // ---------------------------------------------------------------------------------------------
  // The query as written: `.lt("attempts", "max_attempts")` compares the integer column with the
  // string literal "max_attempts", not with the column of that name.

  /** The rows a query returns, or the error the database reports. */
  datatype QueryResult = QueryError(message: string) | Rows(rows: seq<EmailRow>)

  predicate AllDigits(s: string)
  {
    forall c :: c in s ==> '0' <= c <= '9'
  }

  /** A filter value the database accepts for an integer column: optional minus, then digits. */
  predicate IsIntegerLiteral(s: string)
  {
    if |s| > 0 && s[0] == '-' then |s| > 1 && AllDigits(s[1..]) else |s| > 0 && AllDigits(s)
  }

  /** The decimal value of a string of digits. */
  function DigitsValue(s: string): nat
    requires AllDigits(s)
    decreases |s|
  {
    if s == [] then 0
    else
      var init, last := s[..|s| - 1], s[|s| - 1];
      assert forall c :: c in init ==> c in s;
      assert last in s;
      assert '0' <= last <= '9';
      assert last as int >= '0' as int;
      DigitsValue(init) * 10 + (last as int - '0' as int)
  }

  function IntegerValue(s: string): int
    requires IsIntegerLiteral(s)
  {
    if |s| > 0 && s[0] == '-' then -(DigitsValue(s[1..]) as int) else DigitsValue(s)
  }

  /** `attempts < <literal>`: the literal must read as an integer, or the whole query fails. */
  function AttemptsBelowLiteral(rows: seq<EmailRow>, literal: string): QueryResult
  {
    if IsIntegerLiteral(literal) then
      var bound := IntegerValue(literal);
      Rows(Seqs.Filter(rows, (r: EmailRow) => r.attempts < bound))
    else QueryError("invalid input syntax for type integer: \"" + literal + "\"")
  }

  /** The selection exactly as the handler builds it. */
  function SelectAsWritten(rows: seq<EmailRow>, now: int): QueryResult
  {
    var pending := Seqs.Filter(rows, (r: EmailRow) => r.status == PENDING);
    match AttemptsBelowLiteral(pending, "max_attempts")
    case QueryError(m) => QueryError(m)
    case Rows(rs) =>
      Rows(Seqs.Take(Seqs.SortBy(Seqs.Filter(rs, (r: EmailRow) => r.scheduledAt <= now), CreatedAt), BATCH_SIZE))
  }

  /** As written, the selection fails on every table, so every POST answers 500 and no row is ever
      processed; the intended selection takes a due row. */
  lemma SelectAsWrittenAlwaysFails(rows: seq<EmailRow>, now: int)
    ensures SelectAsWritten(rows, now).QueryError?
  {
    var lit := "max_attempts";
    assert lit[0] == 'm' && lit[0] in lit;
    assert !IsIntegerLiteral(lit);
  }

  lemma AsWrittenMissesDueRow()
    ensures var r := EmailRow(1, "a@b.c", "s", "h", None, PENDING, 0, 3, 0, None, None, 0);
      SelectAsWritten([r], 0).QueryError? && SelectBatch([r], 0) == [r]
  {
    var r := EmailRow(1, "a@b.c", "s", "h", None, PENDING, 0, 3, 0, None, None, 0);
    SelectAsWrittenAlwaysFails([r], 0);
    assert Seqs.Filter([r], EligibleAt(0)) == [r] by {
      assert EligibleAt(0)(r);
      assert [r][1..] == [];
    }
    assert Seqs.SortBy([r], CreatedAt) == [r] by {
      var s := Seqs.SortBy([r], CreatedAt);
      assert |s| == 1 && s[0] in multiset(s);
    }
  }

  // ---------------------------------------------------------------------------------------------
  // One row

  /** The store updates the loop issues, each applied to the row with the given id. */
  datatype Patch =
    | SetAttempts(attempts: int)                  // `{ attempts: email.attempts + 1 }`
    | MarkSent(at: int)                           // `{ status: "sent", sent_at: now }`
    | MarkUnsent(status: string, message: string) // `{ status: newStatus, error_message }`

  function ApplyPatch(r: EmailRow, p: Patch): EmailRow
  {
    match p
    case SetAttempts(n) => r.(attempts := n)
    case MarkSent(at) => r.(status := SENT, sentAt := Some(at))
    case MarkUnsent(st, msg) => r.(status := st, errorMessage := Some(msg))
  }

  /** `.update(patch).eq("id", id)` */
  function UpdateById(rows: seq<EmailRow>, id: nat, p: Patch): (r: seq<EmailRow>)
    ensures |r| == |rows|
    ensures forall i :: 0 <= i < |r| ==> r[i].id == rows[i].id
    ensures forall i :: 0 <= i < |r| ==> r[i] == if rows[i].id == id then ApplyPatch(rows[i], p) else rows[i]
  {
    seq(|rows|, i requires 0 <= i < |rows| => if rows[i].id == id then ApplyPatch(rows[i], p) else rows[i])
  }

  /** The primary channel first; only when it throws is the fallback channel called, and then the
      fallback's outcome is the row's outcome. */
  function Deliver(e: EmailRow, primary: EmailRow -> ChannelResult, fallback: EmailRow -> ChannelResult): ChannelResult
  {
    match primary(e)
    case Delivered(_) => primary(e)
    case Rejected(_) => fallback(e)
  }

  /** The status after both channels failed, from the fetched attempt count. */
  function StatusAfterFailure(fetchedAttempts: int, maxAttempts: int): string
  {
    if fetchedAttempts + 1 >= maxAttempts then FAILED else PENDING
  }

  function FinalPatch(e: EmailRow, now: int, primary: EmailRow -> ChannelResult, fallback: EmailRow -> ChannelResult): Patch
  {
    match Deliver(e, primary, fallback)
    case Delivered(_) => MarkSent(now)
    case Rejected(msg) => MarkUnsent(StatusAfterFailure(e.attempts, e.maxAttempts), msg)
  }

  /** The row after its attempt: one more attempt counted, then sent (the old error message is left
      in place), or back to pending / failed with the error recorded. Nothing else changes. */
  function Settled(e: EmailRow, now: int, primary: EmailRow -> ChannelResult, fallback: EmailRow -> ChannelResult): (r: EmailRow)
    ensures r.attempts == e.attempts + 1
    ensures Deliver(e, primary, fallback).Delivered? ==>
      r.status == SENT && r.sentAt == Some(now) && r.errorMessage == e.errorMessage
    ensures Deliver(e, primary, fallback).Rejected? ==>
      && r.status == (if e.attempts + 1 >= e.maxAttempts then FAILED else PENDING)
      && r.errorMessage == Some(Deliver(e, primary, fallback).message)
      && r.sentAt == e.sentAt
    ensures r.(attempts := e.attempts, status := e.status, sentAt := e.sentAt, errorMessage := e.errorMessage) == e
  {
    ApplyPatch(ApplyPatch(e, SetAttempts(e.attempts + 1)), FinalPatch(e, now, primary, fallback))
  }

  function EntryFor(e: EmailRow, now: int, primary: EmailRow -> ChannelResult, fallback: EmailRow -> ChannelResult): Entry
  {
    Entry(e.id, e.toEmail, Settled(e, now, primary, fallback).status, Deliver(e, primary, fallback))
  }

  /** The row invariants the retry policy maintains. */
  ghost predicate WellFormed(r: EmailRow)
  {
    && 0 <= r.attempts <= r.maxAttempts
    && (r.status == FAILED ==> r.attempts == r.maxAttempts)
    && (r.status == SENT ==> r.sentAt.Some?)
  }

  /** Attempting an eligible row never takes it past its attempt ceiling, fails it exactly when the
      ceiling is reached, and stamps every sent row. */
  lemma SettledWellFormed(e: EmailRow, now: int, primary: EmailRow -> ChannelResult, fallback: EmailRow -> ChannelResult)
    requires WellFormed(e) && Eligible(e, now)
    ensures WellFormed(Settled(e, now, primary, fallback))
  {
  }

  // ---------------------------------------------------------------------------------------------
  // The batch

  /** The table after the loop has handled `batch`, row after row. */
  function ProcessRows(rows: seq<EmailRow>, batch: seq<EmailRow>, now: int,
                       primary: EmailRow -> ChannelResult, fallback: EmailRow -> ChannelResult): (r: seq<EmailRow>)
    ensures |r| == |rows|
    ensures forall i :: 0 <= i < |r| ==> r[i].id == rows[i].id
    decreases |batch|
  {
    if batch == [] then rows
    else
      var e := batch[|batch| - 1];
      var before := ProcessRows(rows, batch[..|batch| - 1], now, primary, fallback);
      UpdateById(UpdateById(before, e.id, SetAttempts(e.attempts + 1)), e.id, FinalPatch(e, now, primary, fallback))
  }

  /** One more row of the batch handled, seen at one row of the table. */
  lemma StepAt(rows: seq<EmailRow>, before: seq<EmailRow>, init: seq<EmailRow>, e: EmailRow, k: int, now: int,
               primary: EmailRow -> ChannelResult, fallback: EmailRow -> ChannelResult)
    requires UniqueIds(rows) && e in rows && e !in init
    requires |before| == |rows| && 0 <= k < |rows| && before[k].id == rows[k].id
    requires before[k] == if rows[k] in init then Settled(rows[k], now, primary, fallback) else rows[k]
    ensures UpdateById(UpdateById(before, e.id, SetAttempts(e.attempts + 1)), e.id, FinalPatch(e, now, primary, fallback))[k]
         == if rows[k] in init + [e] then Settled(rows[k], now, primary, fallback) else rows[k]
  {
    if rows[k] != e {
      var p :| 0 <= p < |rows| && rows[p] == e;
      assert rows[k].id != e.id by {
        if k < p { assert rows[k].id != rows[p].id; } else { assert rows[p].id != rows[k].id; }
      }
    }
  }

  /** Each row of the batch ends up settled; every other row is untouched. */
  lemma {:induction false} ProcessRowsEffect(rows: seq<EmailRow>, batch: seq<EmailRow>, now: int,
                                             primary: EmailRow -> ChannelResult, fallback: EmailRow -> ChannelResult)
    requires UniqueIds(rows) && Seqs.Distinct(batch)
    requires forall e :: e in batch ==> e in rows
    ensures var r := ProcessRows(rows, batch, now, primary, fallback);
      forall k :: 0 <= k < |rows| ==>
        r[k] == if rows[k] in batch then Settled(rows[k], now, primary, fallback) else rows[k]
    decreases |batch|
  {
    if batch != [] {
      var init, e := batch[..|batch| - 1], batch[|batch| - 1];
      assert batch == init + [e];
      assert e !in init by {
        forall i | 0 <= i < |init| ensures init[i] != e {
          assert batch[i] == init[i];
        }
      }
      assert Seqs.Distinct(init) by {
        forall i, j | 0 <= i < j < |init| ensures init[i] != init[j] {
          assert init[i] == batch[i] && init[j] == batch[j];
        }
      }
      assert forall x :: x in init ==> x in rows by {
        forall x | x in init ensures x in rows {
          assert x in batch;
        }
      }
      ProcessRowsEffect(rows, init, now, primary, fallback);
      var before := ProcessRows(rows, init, now, primary, fallback);
      var after := ProcessRows(rows, batch, now, primary, fallback);
      assert after == UpdateById(UpdateById(before, e.id, SetAttempts(e.attempts + 1)), e.id, FinalPatch(e, now, primary, fallback)) by {
        assert batch[..|batch| - 1] == init;
      }
      assert e in rows;
      forall k | 0 <= k < |rows|
        ensures after[k] == if rows[k] in batch then Settled(rows[k], now, primary, fallback) else rows[k]
      {
        StepAt(rows, before, init, e, k, now, primary, fallback);
      }
    }
  }

  /** `results`: one entry per fetched row, in fetch order. */
  function Report(batch: seq<EmailRow>, now: int, primary: EmailRow -> ChannelResult, fallback: EmailRow -> ChannelResult): (es: seq<Entry>)
    ensures |es| == |batch|
    ensures forall i :: 0 <= i < |batch| ==> es[i].id == batch[i].id && es[i].email == batch[i].toEmail
  {
    seq(|batch|, i requires 0 <= i < |batch| => EntryFor(batch[i], now, primary, fallback))
  }

  /** After one POST every row is still well formed: attempts never pass `max_attempts`, a failed
      row has used all its attempts, a sent row has `sent_at`. */
  lemma BatchKeepsRowsWellFormed(rows: seq<EmailRow>, now: int,
                                 primary: EmailRow -> ChannelResult, fallback: EmailRow -> ChannelResult)
    requires UniqueIds(rows)
    requires forall r :: r in rows ==> WellFormed(r)
    ensures forall r :: r in ProcessRows(rows, SelectBatch(rows, now), now, primary, fallback) ==> WellFormed(r)
  {
    var b := SelectBatch(rows, now);
    SelectBatchSpec(rows, now);
    SelectBatchDistinct(rows, now);
    ProcessRowsEffect(rows, b, now, primary, fallback);
    var out := ProcessRows(rows, b, now, primary, fallback);
    forall r | r in out ensures WellFormed(r) {
      var k :| 0 <= k < |out| && out[k] == r;
      if rows[k] in b {
        SettledWellFormed(rows[k], now, primary, fallback);
      }
    }
  }

  // ---------------------------------------------------------------------------------------------
  // Order of effects

  /** What the loop does, in order: store writes and channel calls. */
  datatype Event =
    | AttemptsWritten(id: nat, attempts: int)
    | PrimaryCalled(id: nat)
    | FallbackCalled(id: nat)
    | StatusWritten(id: nat, status: string)

  function RowTrace(e: EmailRow, primary: EmailRow -> ChannelResult, status: string): seq<Event>
  {
    [AttemptsWritten(e.id, e.attempts + 1), PrimaryCalled(e.id)]
    + (if primary(e).Rejected? then [FallbackCalled(e.id)] else [])
    + [StatusWritten(e.id, status)]
  }

  function BatchTrace(batch: seq<EmailRow>, now: int, primary: EmailRow -> ChannelResult, fallback: EmailRow -> ChannelResult): seq<Event>
    decreases |batch|
  {
    if batch == [] then []
    else
      var e := batch[|batch| - 1];
      BatchTrace(batch[..|batch| - 1], now, primary, fallback) + RowTrace(e, primary, Settled(e, now, primary, fallback).status)
  }

  /** Within one row's events, a primary call directly follows the attempt write and a fallback call
      directly follows the primary call. */
  lemma RowTraceShape(e: EmailRow, primary: EmailRow -> ChannelResult, status: string)
    ensures var row := RowTrace(e, primary, status);
      && row[0] == AttemptsWritten(e.id, e.attempts + 1)
      && forall j :: 0 <= j < |row| ==>
        && (row[j].PrimaryCalled? ==> j == 1 && row[j] == PrimaryCalled(e.id))
        && (row[j].FallbackCalled? ==> j == 2 && row[1] == PrimaryCalled(e.id) && row[j] == FallbackCalled(e.id))
  {
  }

  /** Every delivery call comes right after the attempt count of the same row was written (the
      primary call) or right after the primary call for the same row failed (the fallback call). */
  ghost predicate AttemptBeforeDelivery(t: seq<Event>)
  {
    forall k {:trigger t[k]} :: 0 <= k < |t| ==>
      && (t[k].PrimaryCalled? ==> 0 < k && t[k - 1].AttemptsWritten? && t[k - 1].id == t[k].id)
      && (t[k].FallbackCalled? ==> 0 < k && t[k - 1] == PrimaryCalled(t[k].id))
  }

  /** Every channel call of a batch is preceded by the write that counts its attempt. */
  lemma {:induction false} AttemptCountedBeforeDelivery(batch: seq<EmailRow>, now: int,
                                                         primary: EmailRow -> ChannelResult, fallback: EmailRow -> ChannelResult)
    ensures AttemptBeforeDelivery(BatchTrace(batch, now, primary, fallback))
    decreases |batch|
  {
    if batch != [] {
      var e := batch[|batch| - 1];
      var pre := BatchTrace(batch[..|batch| - 1], now, primary, fallback);
      var row := RowTrace(e, primary, Settled(e, now, primary, fallback).status);
      AttemptCountedBeforeDelivery(batch[..|batch| - 1], now, primary, fallback);
      RowTraceShape(e, primary, Settled(e, now, primary, fallback).status);
      var t := pre + row;
      assert t == BatchTrace(batch, now, primary, fallback);
      forall k | 0 <= k < |t|
        ensures && (t[k].PrimaryCalled? ==> 0 < k && t[k - 1].AttemptsWritten? && t[k - 1].id == t[k].id)
                && (t[k].FallbackCalled? ==> 0 < k && t[k - 1] == PrimaryCalled(t[k].id))
      {
        if k < |pre| {
          assert t[k] == pre[k];
          if k > 0 { assert t[k - 1] == pre[k - 1]; }
        } else {
          var j := k - |pre|;
          assert t[k] == row[j];
          if j > 0 {
            assert t[k - 1] == row[j - 1];
          } else {
            assert row[j].AttemptsWritten?;
          }
        }
      }
    }
  }

  /** The fallback channel is called for a row exactly when the primary channel failed for it. */
  lemma FallbackOnlyAfterPrimaryFailure(e: EmailRow, primary: EmailRow -> ChannelResult, status: string)
    ensures FallbackCalled(e.id) in RowTrace(e, primary, status) <==> primary(e).Rejected?
  {
    var t := RowTrace(e, primary, status);
    if primary(e).Rejected? {
      assert t[2] == FallbackCalled(e.id);
    }
  }

  /** One more row of the batch: the table, the trace and the report each grow by that row's part. */
  lemma BatchStep(rows: seq<EmailRow>, batch: seq<EmailRow>, i: nat, now: int,
                  primary: EmailRow -> ChannelResult, fallback: EmailRow -> ChannelResult)
    requires i < |batch|
    ensures ProcessRows(rows, batch[..i + 1], now, primary, fallback)
         == UpdateById(UpdateById(ProcessRows(rows, batch[..i], now, primary, fallback), batch[i].id, SetAttempts(batch[i].attempts + 1)),
                       batch[i].id, FinalPatch(batch[i], now, primary, fallback))
    ensures BatchTrace(batch[..i + 1], now, primary, fallback)
         == BatchTrace(batch[..i], now, primary, fallback) + RowTrace(batch[i], primary, Settled(batch[i], now, primary, fallback).status)
    ensures Report(batch[..i + 1], now, primary, fallback) == Report(batch[..i], now, primary, fallback) + [EntryFor(batch[i], now, primary, fallback)]
  {
    assert batch[..i + 1][..i] == batch[..i];
  }

  /** One turn of the batch loop: what `Attempt` does to the rows and the trace extends the fold
      over the rows handled so far by the next row. */
  lemma LoopStep(rows0: seq<EmailRow>, trace0: seq<Event>, batch: seq<EmailRow>, i: nat, now: int,
                 primary: EmailRow -> ChannelResult, fallback: EmailRow -> ChannelResult,
                 rows: seq<EmailRow>, trace: seq<Event>, rows': seq<EmailRow>, trace': seq<Event>)
    requires i < |batch|
    requires rows == ProcessRows(rows0, batch[..i], now, primary, fallback)
    requires trace == trace0 + BatchTrace(batch[..i], now, primary, fallback)
    requires rows' == UpdateById(UpdateById(rows, batch[i].id, SetAttempts(batch[i].attempts + 1)), batch[i].id,
                                 FinalPatch(batch[i], now, primary, fallback))
    requires trace' == trace + RowTrace(batch[i], primary, Settled(batch[i], now, primary, fallback).status)
    ensures rows' == ProcessRows(rows0, batch[..i + 1], now, primary, fallback)
    ensures trace' == trace0 + BatchTrace(batch[..i + 1], now, primary, fallback)
  {
    BatchStep(rows0, batch, i, now, primary, fallback);
    var row := RowTrace(batch[i], primary, Settled(batch[i], now, primary, fallback).status);
    assert trace0 + BatchTrace(batch[..i], now, primary, fallback) + row
        == trace0 + (BatchTrace(batch[..i], now, primary, fallback) + row);
  }

  /** Row-wise id-preserving updates keep ids distinct. */
  lemma IdsKept(rows: seq<EmailRow>, out: seq<EmailRow>)
    requires UniqueIds(rows)
    requires |out| == |rows| && forall i :: 0 <= i < |out| ==> out[i].id == rows[i].id
    ensures UniqueIds(out)
  {
  }

  // ---------------------------------------------------------------------------------------------
  // The outbox

  /** The `email_queue` table as the processor sees and changes it. */
  class EmailOutbox {
    var rows: seq<EmailRow>
    /** The store writes and channel calls made so far, in order. */
    ghost var trace: seq<Event>

    ghost predicate Valid()
      reads this
    {
      UniqueIds(rows)
    }

    constructor (initial: seq<EmailRow>)
      requires UniqueIds(initial)
      ensures Valid() && rows == initial && trace == []
    {
      rows := initial;
      trace := [];
    }

    /** `POST`: one batch. `selectionFails` stands for the store reporting an error on the select;
        `primary` and `fallback` are the two channels' outcomes for each row. */
    method Post(now: int, selectionFails: bool,
                primary: EmailRow -> ChannelResult, fallback: EmailRow -> ChannelResult)
      returns (response: PostResponse)
      requires Valid()
      modifies this
      ensures Valid()
      ensures selectionFails ==> response == DatabaseError && rows == old(rows) && trace == old(trace)
      ensures !selectionFails && SelectBatch(old(rows), now) == [] ==>
        response == NoPendingEmails && rows == old(rows) && trace == old(trace)
      ensures !selectionFails && SelectBatch(old(rows), now) != [] ==>
        && response == Completed(|SelectBatch(old(rows), now)|, Report(SelectBatch(old(rows), now), now, primary, fallback))
        && rows == ProcessRows(old(rows), SelectBatch(old(rows), now), now, primary, fallback)
        && trace == old(trace) + BatchTrace(SelectBatch(old(rows), now), now, primary, fallback)
    {
      if selectionFails {
        return DatabaseError;
      }
      var batch := SelectBatch(rows, now);
      if |batch| == 0 {
        return NoPendingEmails;
      }
      response := RunBatch(batch, now, primary, fallback);
      IdsKept(old(rows), rows);
    }

    /** The `for` loop over the fetched rows, collecting `results`. */
    method RunBatch(batch: seq<EmailRow>, now: int, primary: EmailRow -> ChannelResult, fallback: EmailRow -> ChannelResult)
      returns (response: PostResponse)
      modifies this
      ensures response == Completed(|batch|, Report(batch, now, primary, fallback))
      ensures rows == ProcessRows(old(rows), batch, now, primary, fallback)
      ensures trace == old(trace) + BatchTrace(batch, now, primary, fallback)
    {
      var results: seq<Entry> := [];
      var i := 0;
      while i < |batch|
        invariant 0 <= i <= |batch|
        invariant rows == ProcessRows(old(rows), batch[..i], now, primary, fallback)
        invariant trace == old(trace) + BatchTrace(batch[..i], now, primary, fallback)
        invariant results == Report(batch[..i], now, primary, fallback)
      {
        ghost var rowsBefore, traceBefore := rows, trace;
        var entry := Attempt(batch[i], now, primary, fallback);
        LoopStep(old(rows), old(trace), batch, i, now, primary, fallback, rowsBefore, traceBefore, rows, trace);
        BatchStep(old(rows), batch, i, now, primary, fallback);
        results := results + [entry];
        i := i + 1;
      }
      assert batch[..|batch|] == batch;
      return Completed(|results|, results);
    }

    /** The loop body for one fetched row: count the attempt, try the primary channel, fall back
        on failure, then write the outcome. */
    method Attempt(e: EmailRow, now: int, primary: EmailRow -> ChannelResult, fallback: EmailRow -> ChannelResult)
      returns (entry: Entry)
      modifies this
      ensures rows == UpdateById(UpdateById(old(rows), e.id, SetAttempts(e.attempts + 1)), e.id, FinalPatch(e, now, primary, fallback))
      ensures trace == old(trace) + RowTrace(e, primary, Settled(e, now, primary, fallback).status)
      ensures entry == EntryFor(e, now, primary, fallback)
    {
      rows := UpdateById(rows, e.id, SetAttempts(e.attempts + 1));
      trace := trace + [AttemptsWritten(e.id, e.attempts + 1)];
      var result := primary(e);
      trace := trace + [PrimaryCalled(e.id)];
      if result.Rejected? {
        result := fallback(e);
        trace := trace + [FallbackCalled(e.id)];
      }
      var status: string;
      if result.Delivered? {
        rows := UpdateById(rows, e.id, MarkSent(now));
        status := SENT;
      } else {
        status := StatusAfterFailure(e.attempts, e.maxAttempts);
        rows := UpdateById(rows, e.id, MarkUnsent(status, result.message));
      }
      trace := trace + [StatusWritten(e.id, status)];
      entry := Entry(e.id, e.toEmail, status, result);
    }
  }

  // ---------------------------------------------------------------------------------------------
  // GET

  function StatusColumn(rows: seq<EmailRow>): (s: seq<string>)
    ensures |s| == |rows|
    ensures forall i :: 0 <= i < |rows| ==> s[i] == rows[i].status
  {
    seq(|rows|, i requires 0 <= i < |rows| => rows[i].status)
  }

  /** `GET`: the number of rows and, per status, how many rows have it; a read error is a 500. */
  function GetStats(rows: seq<EmailRow>, readFails: bool): (r: Tally.StatsResponse)
    ensures readFails <==> r.StatsError?
    ensures r.Stats? ==>
      && r.total == |rows|
      && Tally.CountTotal(r.statusCounts) == r.total
      && Tally.UniqueStatuses(r.statusCounts)
      && forall q :: Tally.CountOf(r.statusCounts, q) == multiset(StatusColumn(rows))[q]
  {
    if readFails then Tally.StatsError else Tally.Stats(|rows|, Tally.Summarize(StatusColumn(rows)))
  }
}
