/** Payments between teams: made, accepted, rejected or cancelled, and what an accepted one books
    (payment/payment_create.go, payment/payment_accept.go, payment/payment_reject.go, payment/payment_cancel.go). */
module Payments {
  import opened Accounts
  import opened Journal
  import opened Books
  import opened Balanced
  import opened Moves
  import opened Engine
  import References

  datatype Status = Pending | Accepted | Rejected | Canceled

  datatype Payment = Payment(from: TeamId, to: TeamId, amount: real, status: Status)

  /** The payments table; nextId is the next id it gives. */
  datatype Table = Table(rows: map<nat, Payment>, nextId: nat)

  function CreateSpec(t: Table, from: TeamId, to: TeamId, amount: real): Table {
    Table(t.rows[t.nextId := Payment(from, to, amount, Pending)], t.nextId + 1)
  }

  /** Why a team may not decide on a payment, if it may not. */
  function DecideError(t: Table, id: nat, team: TeamId, owner: Payment -> TeamId): Option<Error> {
    if id !in t.rows then Some(PaymentNotFound)
    else if owner(t.rows[id]) != team then Some(NotOwner)
    else if t.rows[id].status != Pending then Some(NotPending)
    else None
  }

  function WithStatus(t: Table, id: nat, status: Status): Table
    requires id in t.rows
  {
    t.(rows := t.rows[id := t.rows[id].(status := status)])
  }

  function From(): Payment -> TeamId { (p: Payment) => p.from }
  function To(): Payment -> TeamId { (p: Payment) => p.to }

  /** Rejecting, by the receiver, and cancelling, by the sender. */
  function DecideSpec(t: Table, id: nat, team: TeamId, owner: Payment -> TeamId,
                      status: Status): (Table, Option<Error>) {
    match DecideError(t, id, team, owner)
    case Some(e) => (t, Some(e))
    case None => (WithStatus(t, id, status), None)
  }

  function PaymentRef(id: nat): RefId { References.NewRefID(References.Payment, id) }

  function SenderPosts(p: Payment): seq<Post> {
    [Post(AccountRef(Cash, p.to), -p.amount), Post(AccountRef(Payable, p.to), -p.amount)]
  }

  function ReceiverPosts(p: Payment): seq<Post> {
    [Post(AccountRef(Receivable, p.from), -p.amount), Post(AccountRef(Cash, p.to), p.amount)]
  }

  function PaymentBooks(chart: Chart, p: Payment): seq<Book> {
    [PostBook(chart, p.from, SenderPosts(p)), PostBook(chart, p.to, ReceiverPosts(p))]
  }

  ghost function AcceptSpec(l: Ledger, t: Table, id: nat, team: TeamId, day: Day): (Ledger, Table, Option<Error>) {
    match DecideError(t, id, team, To())
    case Some(e) => (l, t, Some(e))
    case None =>
      var (l', e) := PostSpec(l, Plain(PaymentRef(id)), PaymentBooks(l.chart, t.rows[id]), None, day);
      (l', if e.None? then WithStatus(t, id, Accepted) else t, e)
  }

  class PaymentService {
    const db: Database
    var table: Table

    constructor (db: Database, table: Table)
      ensures this.db == db && this.table == table
    {
      this.db, this.table := db, table;
    }

    method PaymentCreate(from: TeamId, to: TeamId, amount: real) returns (id: nat)
      modifies this
      ensures table == CreateSpec(old(table), from, to, amount) && id == old(table).nextId
    {
      id := table.nextId;
      table := Table(table.rows[id := Payment(from, to, amount, Pending)], id + 1);
    }

    method PaymentReject(id: nat, team: TeamId) returns (err: Option<Error>)
      modifies this
      ensures (table, err) == DecideSpec(old(table), id, team, To(), Rejected)
    {
      if id !in table.rows {
        return Some(PaymentNotFound);
      }
      if table.rows[id].to != team {
        return Some(NotOwner);
      }
      if table.rows[id].status != Pending {
        return Some(NotPending);
      }
      table := WithStatus(table, id, Rejected);
      err := None;
    }

    method PaymentCancel(id: nat, team: TeamId) returns (err: Option<Error>)
      modifies this
      ensures (table, err) == DecideSpec(old(table), id, team, From(), Canceled)
    {
      if id !in table.rows {
        return Some(PaymentNotFound);
      }
      if table.rows[id].from != team {
        return Some(NotOwner);
      }
      if table.rows[id].status != Pending {
        return Some(NotPending);
      }
      table := WithStatus(table, id, Canceled);
      err := None;
    }

    /** The two books of a payment, sender then receiver. */
    method BookPayment(books: BookManager, p: Payment, tx: TxId, day: Day) returns (err: Option<Error>)
      modifies books, books.db
      ensures (books.State(), err) == RunBooks(old(books.State()), PaymentBooks(old(books.db.ledger.chart), p), tx, day)
    {
      hide RunBooks, RunBook, PostAll;
      ghost var bs := PaymentBooks(books.db.ledger.chart, p);
      assert bs == [bs[0]] + [bs[1]];
      RunBooksAppend(books.State(), [bs[0]], [bs[1]], tx, day);
      err := BookPair(books, p.from, Post(AccountRef(Cash, p.to), -p.amount),
                      Post(AccountRef(Payable, p.to), -p.amount), tx, day);
      if err.Some? {
        return;
      }
      err := BookPair(books, p.to, Post(AccountRef(Receivable, p.from), -p.amount),
                      Post(AccountRef(Cash, p.to), p.amount), tx, day);
    }

    /** The books and the new status are one transaction: when its end fails, neither stays. */
    method PaymentAccept(id: nat, team: TeamId, day: Day) returns (err: Option<Error>)
      modifies this, db
      ensures (db.ledger, table, err) == AcceptSpec(old(db.ledger), old(table), id, team, day)
    {
      hide RunBooks, RunBook, PostAll;
      if id !in table.rows {
        return Some(PaymentNotFound);
      }
      var payment := table.rows[id];
      if payment.to != team {
        return Some(NotOwner);
      }
      if payment.status != Pending {
        return Some(NotPending);
      }
      var books := new BookManager.Begin(db);
      var failure, tx := books.CreateTransaction(Plain(PaymentRef(id)));
      if failure.Some? {
        err := books.End(failure);
        return;
      }
      PostedNeverSkips(books.State(), PaymentBooks(db.ledger.chart, payment), tx, day);
      failure := BookPayment(books, payment, tx, day);
      err := books.End(failure);
      if err.None? {
        table := WithStatus(table, id, Accepted);
      }
    }
  }

  /** The four accounts a payment touches exist. */
  ghost predicate AccountsFound(chart: Chart, p: Payment) {
    Found(chart, SenderPosts(p)) && Found(chart, ReceiverPosts(p))
  }

  /** A payment is accepted exactly when it is the team's, pending, not zero, not booked before, and its accounts
      exist. */
  lemma PaymentAcceptedExactlyWhen(l: Ledger, t: Table, id: nat, team: TeamId, day: Day)
    requires Seeded(l.chart)
    ensures AcceptSpec(l, t, id, team, day).2.None? <==>
      && id in t.rows && t.rows[id].to == team && t.rows[id].status == Pending && t.rows[id].amount != 0.0
      && PaymentRef(id) !in l.txs && AccountsFound(l.chart, t.rows[id])
  {
    hide PaymentRef, PostSpec, Accepts, PaymentBooks;
    if id in t.rows {
      PaymentBooksPass(l.chart, t.rows[id], l.nextTx, day);
      PostAccepted(l, Plain(PaymentRef(id)), PaymentBooks(l.chart, t.rows[id]), None, day);
      PlainCreation(l, PaymentRef(id));
    }
  }

  lemma PaymentBooksPass(chart: Chart, p: Payment, tx: TxId, day: Day)
    requires Seeded(chart)
    ensures Accepts(PaymentBooks(chart, p), tx, None, day) <==> p.amount != 0.0 && AccountsFound(chart, p)
  {
    hide Seeded, GoodPosts;
    var s, r := SenderPosts(p), ReceiverPosts(p);
    PairAccepts(chart, p.from, s, p.to, r, tx, day);
    GoodPair(chart, s[0], s[1]);
    GoodPair(chart, r[0], r[1]);
    assert s == [s[0], s[1]] && r == [r[0], r[1]];
    assert s[0] in s && s[1] in s && r[0] in r && r[1] in r;
  }

  /** A payment is decided at most once: after any decision that was taken, every further one is refused and
      changes nothing. */
  lemma DecidedOnce(l: Ledger, t: Table, id: nat, team: TeamId, day: Day)
    requires id in t.rows && t.rows[id].status != Pending
    ensures AcceptSpec(l, t, id, team, day).0 == l && AcceptSpec(l, t, id, team, day).1 == t
    ensures AcceptSpec(l, t, id, team, day).2.Some?
    ensures DecideSpec(t, id, team, To(), Rejected).0 == t && DecideSpec(t, id, team, From(), Canceled).0 == t
  {
  }
}
