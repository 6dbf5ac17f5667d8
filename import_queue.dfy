/** The bank import page: the unprocessed imported transactions, each approved (copied into the
    transactions table, then marked processed) or rejected (only marked processed), one at a time
    or all in turn. The hosted store's replies are parameters. */
module ImportQueue {
  import opened Wrappers
  import Seqs
  import opened Ledger

  /** One row of `imported_transactions` as listed on the page. */
  datatype Imported = Imported(
    id: string,
    amount: real,
    kind: TxType,
    description: string,
    date: Date,
    categorySuggested: string)

  /** The row inserted into `transactions` when an import is approved. */
  datatype NewTransaction = NewTransaction(
    userId: string,
    amount: real,
    kind: TxType,
    category: string,
    description: string,
    date: Date)

  /** What the store answers while one import is processed: the signed-in user (asked only when
      approving), the insert (made only when approving) and the mark-processed update. */
  datatype Replies = Replies(user: Option<string>, insert: StoreResult, update: StoreResult)

  /** The page state the two handlers change, together with what they write to the store. */
  datatype PageState = PageState(
    items: seq<Imported>,
    inserted: seq<NewTransaction>,
    marked: seq<string>,
    error: string,
    success: string,
    processing: bool)

  const ADDED: string := "Транзакция добавлена!"
  const REJECTED: string := "Транзакция отклонена!"
  const ALL_ADDED: string := "Все транзакции добавлены!"
  const ALL_REJECTED: string := "Все транзакции отклонены!"

  /** The insert payload: the import's amount, type, description and date, under the suggested
      category, owned by the signed-in user. */
  function ToTransaction(t: Imported, userId: string): (n: NewTransaction)
    ensures n.userId == userId && n.amount == t.amount && n.kind == t.kind
    ensures n.category == t.categorySuggested && n.description == t.description && n.date == t.date
  {
    NewTransaction(userId, t.amount, t.kind, t.categorySuggested, t.description, t.date)
  }

  /** `i => i.id !== id` */
  function OtherThan(id: string): Imported -> bool
  {
    (i: Imported) => i.id != id
  }

  /** What `processTransaction(t, approve)` does to the page and the store. It raises the busy
      flag and clears the error; when approving it needs a signed-in user (without one it stops
      there, still busy) and a successful insert (a failed insert shows its message and stops).
      Then it marks the import processed: a failure shows the message, a success shows the
      confirmation and drops every listed import with that id. The busy flag then falls. */
  function Step(s: PageState, t: Imported, approve: bool, r: Replies): PageState
  {
    var busy := s.(processing := true, error := "");
    if approve && r.user.None? then busy
    else if approve && r.insert.StoreError? then busy.(error := r.insert.message, processing := false)
    else
      var stored := if approve then busy.(inserted := busy.inserted + [ToTransaction(t, r.user.value)]) else busy;
      if r.update.StoreError? then stored.(error := r.update.message, processing := false)
      else stored.(marked := stored.marked + [t.id], success := if approve then ADDED else REJECTED,
                   items := Seqs.Filter(stored.items, OtherThan(t.id)), processing := false)
  }

  /** `processTransaction` over the imports `ts` in order, with the store's replies for each. */
  function Run(s: PageState, ts: seq<Imported>, approve: bool, rs: seq<Replies>): PageState
    requires |rs| == |ts|
    decreases |ts|
  {
    if ts == [] then s
    else Step(Run(s, ts[..|ts| - 1], approve, rs[..|ts| - 1]), ts[|ts| - 1], approve, rs[|ts| - 1])
  }

  /** The page, with the state of its handlers held in fields. */
  class ImportPage {
    var items: seq<Imported>
    var inserted: seq<NewTransaction>
    var marked: seq<string>
    var error: string
    var success: string
    var processing: bool

    function State(): PageState
      reads this
    {
      PageState(items, inserted, marked, error, success, processing)
    }

    /** The page after `loadImportedTransactions` listed `loaded`. */
    constructor (loaded: seq<Imported>)
      ensures State() == PageState(loaded, [], [], "", "", false)
    {
      items, inserted, marked := loaded, [], [];
      error, success, processing := "", "", false;
    }

    /** `processTransaction(t, approve)`. */
    method ProcessTransaction(t: Imported, approve: bool, r: Replies)
      modifies this
      ensures State() == Step(old(State()), t, approve, r)
    {
      processing := true;
      error := "";
      if approve {
        if r.user.None? {
          return;
        }
        if r.insert.StoreError? {
          error := r.insert.message;
          processing := false;
          return;
        }
        inserted := inserted + [ToTransaction(t, r.user.value)];
      }
      if r.update.StoreError? {
        error := r.update.message;
      } else {
        marked := marked + [t.id];
        success := if approve then ADDED else REJECTED;
        items := Seqs.Filter(items, OtherThan(t.id));
      }
      processing := false;
    }

    /** `processAllTransactions(approve)`: processes every import listed when it starts, in list
      order, each with its own store replies, then reports that all were handled. */
    method ProcessAll(approve: bool, rs: seq<Replies>)
      requires |rs| == |items|
      modifies this
      ensures var start := old(State()).(processing := true, error := "");
        State() == Run(start, old(items), approve, rs).(success := if approve then ALL_ADDED else ALL_REJECTED,
                                                        processing := false)
    {
      processing := true;
      error := "";
      var snapshot := items;
      var start := State();
      for i := 0 to |snapshot|
        invariant State() == Run(start, snapshot[..i], approve, rs[..i])
      {
        assert snapshot[..i + 1][..i] == snapshot[..i] && rs[..i + 1][..i] == rs[..i];
        ProcessTransaction(snapshot[i], approve, rs[i]);
      }
      assert snapshot[..|snapshot|] == snapshot && rs[..|rs|] == rs;
      success := if approve then ALL_ADDED else ALL_REJECTED;
      processing := false;
    }
  }

  /** A rejection never writes to the transactions table. */
  lemma RejectNeverInserts(s: PageState, t: Imported, r: Replies)
    ensures Step(s, t, false, r).inserted == s.inserted
  {
  }

  /** An approval with a user and a successful insert adds exactly the mapped transaction. */
  lemma ApproveInserts(s: PageState, t: Imported, r: Replies)
    requires r.user.Some? && r.insert.StoreOk?
    ensures Step(s, t, true, r).inserted == s.inserted + [ToTransaction(t, r.user.value)]
  {
  }

  /** A failed insert returns early: the import is neither marked nor removed, and the error is shown. */
  lemma InsertFailureKeepsItem(s: PageState, t: Imported, r: Replies)
    requires r.user.Some? && r.insert.StoreError?
    ensures var n := Step(s, t, true, r);
      n.items == s.items && n.marked == s.marked && n.inserted == s.inserted
      && n.error == r.insert.message && !n.processing
  {
  }

  /** A failed mark-processed update leaves the list as it was and shows the error. */
  lemma MarkFailureKeepsItem(s: PageState, t: Imported, approve: bool, r: Replies)
    requires !approve || (r.user.Some? && r.insert.StoreOk?)
    requires r.update.StoreError?
    ensures var n := Step(s, t, approve, r);
      n.items == s.items && n.marked == s.marked && n.error == r.update.message
  {
  }

  /** Without a signed-in user an approval changes nothing but the error, which it clears, and
      leaves the page busy. */
  lemma NoUserLeavesPageBusy(s: PageState, t: Imported, r: Replies)
    requires r.user.None?
    ensures Step(s, t, true, r) == s.(processing := true, error := "")
  {
  }

  /** After a successful mark-processed update the import's id is gone from the list, and every
      other import keeps its place and its number of occurrences. */
  lemma {:induction false} MarkedIsRemoved(s: PageState, t: Imported, approve: bool, r: Replies, other: Imported)
    requires !approve || (r.user.Some? && r.insert.StoreOk?)
    requires r.update.StoreOk?
    ensures var n := Step(s, t, approve, r);
      && (forall i :: i in n.items ==> i.id != t.id)
      && n.marked == s.marked + [t.id]
      && (other.id != t.id ==> multiset(n.items)[other] == multiset(s.items)[other])
  {
    Seqs.FilterCount(s.items, OtherThan(t.id), other);
  }

  /** Removing ids keeps the remaining imports in their order: a list split in two loses from
      each part what it loses alone. */
  lemma RemovalKeepsOrder(a: seq<Imported>, b: seq<Imported>, id: string)
    ensures Seqs.Filter(a + b, OtherThan(id)) == Seqs.Filter(a, OtherThan(id)) + Seqs.Filter(b, OtherThan(id))
  {
    Seqs.FilterAppend(a, b, OtherThan(id));
  }

  /** Every reply of a run succeeds. */
  predicate AllSucceed(rs: seq<Replies>)
  {
    forall i :: 0 <= i < |rs| ==> rs[i].user.Some? && rs[i].insert.StoreOk? && rs[i].update.StoreOk?
  }

  /** The transactions a fully successful approval run inserts: one per import, in list order. */
  function Inserts(ts: seq<Imported>, rs: seq<Replies>): (ns: seq<NewTransaction>)
    requires |rs| == |ts| && AllSucceed(rs)
    ensures |ns| == |ts|
    ensures forall i :: 0 <= i < |ts| ==> ns[i] == ToTransaction(ts[i], rs[i].user.value)
  {
    seq(|ts|, i requires 0 <= i < |ts| => ToTransaction(ts[i], rs[i].user.value))
  }

  /** The ids of a list of imports, in list order. */
  function Ids(ts: seq<Imported>): (ids: seq<string>)
    ensures |ids| == |ts| && forall i :: 0 <= i < |ts| ==> ids[i] == ts[i].id
  {
    seq(|ts|, i requires 0 <= i < |ts| => ts[i].id)
  }

  /** `Inserts` and `Ids` of a list are those of all but its last import, then the last one's. */
  lemma Snoc(ts: seq<Imported>, rs: seq<Replies>)
    requires |rs| == |ts| && ts != [] && AllSucceed(rs)
    ensures var n := |ts| - 1;
      && AllSucceed(rs[..n])
      && Inserts(ts, rs) == Inserts(ts[..n], rs[..n]) + [ToTransaction(ts[n], rs[n].user.value)]
      && Ids(ts) == Ids(ts[..n]) + [ts[n].id]
  {
    var n := |ts| - 1;
    assert AllSucceed(rs[..n]) by {
      forall i | 0 <= i < n ensures rs[..n][i] == rs[i] {
      }
    }
    assert Inserts(ts, rs) == Inserts(ts[..n], rs[..n]) + [ToTransaction(ts[n], rs[n].user.value)];
    assert Ids(ts) == Ids(ts[..n]) + [ts[n].id];
  }

  /** Handled one at a time in list order: when every reply succeeds, approving all inserts one
      mapped transaction per import in list order and marks their ids in the same order. */
  lemma {:induction false} ApproveAllInOrder(s: PageState, ts: seq<Imported>, rs: seq<Replies>)
    requires |rs| == |ts| && AllSucceed(rs)
    ensures Run(s, ts, true, rs).inserted == s.inserted + Inserts(ts, rs)
    ensures Run(s, ts, true, rs).marked == s.marked + Ids(ts)
    decreases |ts|
  {
    if ts != [] {
      var n := |ts| - 1;
      var before := Run(s, ts[..n], true, rs[..n]);
      Snoc(ts, rs);
      ApproveAllInOrder(s, ts[..n], rs[..n]);
      assert Run(s, ts, true, rs) == Step(before, ts[n], true, rs[n]);
      var x := ToTransaction(ts[n], rs[n].user.value);
      assert Step(before, ts[n], true, rs[n]).inserted == s.inserted + Inserts(ts, rs) by {
        ApproveInserts(before, ts[n], rs[n]);
        assert s.inserted + Inserts(ts[..n], rs[..n]) + [x] == s.inserted + (Inserts(ts[..n], rs[..n]) + [x]);
      }
      assert Step(before, ts[n], true, rs[n]).marked == s.marked + Ids(ts) by {
        MarkedIsRemoved(before, ts[n], true, rs[n], ts[n]);
        assert s.marked + Ids(ts[..n]) + [ts[n].id] == s.marked + (Ids(ts[..n]) + [ts[n].id]);
      }
    }
  }

  /** Rejecting all never inserts, whatever the store replies. */
  lemma {:induction false} RejectAllNeverInserts(s: PageState, ts: seq<Imported>, rs: seq<Replies>)
    requires |rs| == |ts|
    ensures Run(s, ts, false, rs).inserted == s.inserted
    decreases |ts|
  {
    if ts != [] {
      RejectAllNeverInserts(s, ts[..|ts| - 1], rs[..|ts| - 1]);
    }
  }

  /** When every reply succeeds, no import of the run is left in the list. */
  lemma {:induction false} SuccessfulRunEmptiesList(s: PageState, ts: seq<Imported>, approve: bool, rs: seq<Replies>)
    requires |rs| == |ts| && AllSucceed(rs)
    ensures forall i, k :: i in Run(s, ts, approve, rs).items && 0 <= k < |ts| ==> i.id != ts[k].id
    decreases |ts|
  {
    if ts != [] {
      var n := |ts| - 1;
      SuccessfulRunEmptiesList(s, ts[..n], approve, rs[..n]);
      var before := Run(s, ts[..n], approve, rs[..n]);
      forall i, k | i in Run(s, ts, approve, rs).items && 0 <= k < |ts| ensures i.id != ts[k].id {
        assert i in before.items;
        if k < n {
          assert ts[k] == ts[..n][k];
        }
      }
    }
  }

  /** Each import clears the error first, so after a run only the last import's failure is still
      shown; a run whose last import went through shows no error. */
  lemma LastErrorWins(s: PageState, ts: seq<Imported>, approve: bool, rs: seq<Replies>)
    requires |rs| == |ts| && ts != []
    requires var r := rs[|ts| - 1]; (!approve || (r.user.Some? && r.insert.StoreOk?)) && r.update.StoreOk?
    ensures Run(s, ts, approve, rs).error == ""
  {
  }
}
