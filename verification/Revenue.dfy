/** The revenue stream of a shop: funds, withdrawals and adjustments, each booked once (revenue/revenue.go). */
module Revenue {
  import opened Accounts
  import opened Journal
  import opened Books
  import opened Engine
  import References

  datatype Event =
    | Init(team: TeamId, shop: nat, valid: bool)
    | Fund(orderId: string, est: real, amount: real)
    | Withdrawal(at: int, amount: real)
    | Adjustment(orderId: string, at: int, amount: real, tags: seq<string>)
    | NoKind

  /** An event and the day it is processed on. */
  datatype Received = Received(event: Event, day: Day)

  /** The state of one stream: whether it has authenticated, and the last Init. */
  datatype Stream = Stream(ledger: Ledger, auth: bool, team: TeamId, shop: nat)

  function Fresh(l: Ledger): Stream { Stream(l, false, 0, 0) }

  predicate Recordable(e: Event) { e.Fund? || e.Withdrawal? || e.Adjustment? }

  // ---- references -----------------------------------------------------------------------

  function WithoutDashes(s: string): string {
    if s == "" then "" else WithoutDashes(s[..|s| - 1]) + if s[|s| - 1] == '-' then "" else [s[|s| - 1]]
  }

  function TrimLeft(s: string): string {
    if s != "" && s[0] == ' ' then TrimLeft(s[1..]) else s
  }

  function TrimRight(s: string): string {
    if s != "" && s[|s| - 1] == ' ' then TrimRight(s[..|s| - 1]) else s
  }

  function TrimSpaces(s: string): string { TrimRight(TrimLeft(s)) }

  function EventRef(shop: nat, e: Event): RefId
    requires Recordable(e)
  {
    match e
    case Fund(orderId, _, _) => References.NewStringRefID(References.OrderFund, orderId)
    case Withdrawal(at, _) => References.NewShopDateRefID(References.Withdrawal, shop, at)
    case Adjustment(orderId, at, _, _) =>
      if TrimSpaces(WithoutDashes(orderId)) != "" then References.NewStringRefID(References.Adjustment, orderId)
      else References.NewShopDateRefID(References.Adjustment, shop, at)
  }

  /** An event is labelled with the shop of the stream, an adjustment also with its tags. */
  function EventCreation(shop: nat, e: Event): Creation
    requires Recordable(e)
  {
    Creation(EventRef(shop, e), Some(shop), if e.Adjustment? then e.tags else [])
  }

  // ---- what each event books ------------------------------------------------------------

  function Own(key: AccountKey, team: TeamId): AccountRef { AccountRef(key, team) }

  /** The receivable is moved by x against the adjustment receivable. */
  function DiffPosts(team: TeamId, diff: real): seq<Post> {
    if diff > 0.0 then [Post(Own(SellingReceivable, team), -diff), Post(Own(SellingAdjReceivable, team), diff)]
    else if diff < 0.0 then [Post(Own(SellingReceivable, team), Abs(diff)),
                             Post(Own(SellingAdjReceivable, team), -Abs(diff))]
    else []
  }

  function FundPosts(team: TeamId, est: real, amount: real): seq<Post> {
    if amount < 0.0 then
      var returned := Post(Own(SellingReturnExpense, team), Abs(amount));
      if est == 0.0 then [returned, Post(Own(SellingAdjReceivable, team), -Abs(amount))]
      else [returned, Post(Own(SellingReceivable, team), -Abs(amount))] + DiffPosts(team, est - Abs(amount))
    else if amount > 0.0 then DiffPosts(team, est - amount)
    else []
  }

  function WithdrawalPosts(team: TeamId, amount: real): seq<Post> {
    [Post(Own(SellingReceivable, team), -Abs(amount)), Post(Own(Cash, team), Abs(amount))]
  }

  /** A negative adjustment is booked by From calls with the negative amount: it too raises both accounts. */
  function AdjustmentPosts(team: TeamId, amount: real): seq<Post> {
    if amount > 0.0 then [Post(Own(OtherRevenue, team), amount), Post(Own(SellingReceivable, team), amount)]
    else if amount < 0.0 then [Post(Own(OtherRevenue, team), -amount), Post(Own(SellingReceivable, team), -amount)]
    else []
  }

  function EventPosts(team: TeamId, e: Event): seq<Post>
    requires Recordable(e)
  {
    match e
    case Fund(_, est, amount) => FundPosts(team, est, amount)
    case Withdrawal(_, amount) => WithdrawalPosts(team, amount)
    case Adjustment(_, _, amount, _) => AdjustmentPosts(team, amount)
  }

  /** The event records nothing: a fund as estimated, or a reference that already exists. */
  predicate Skips(l: Ledger, shop: nat, e: Event)
    requires Recordable(e)
  {
    (e.Fund? && Close(e.est, e.amount)) || EventRef(shop, e) in l.txs
  }

  ghost function EventSpec(l: Ledger, team: TeamId, shop: nat, e: Event, day: Day): (Ledger, Option<Error>)
    requires Recordable(e)
  {
    if Skips(l, shop, e) then (l, None)
    else PostSpec(l, EventCreation(shop, e), [PostBook(l.chart, team, EventPosts(team, e))], None, day)
  }

  ghost function StepSpec(s: Stream, r: Received): (Stream, Option<Error>) {
    match r.event
    case Init(team, shop, valid) =>
      if valid then (Stream(s.ledger, true, team, shop), None) else (s, Some(NotAuthenticated))
    case NoKind => (s, None)
    case _ =>
      if !s.auth then (s, Some(NotAuthenticated))
      else
        var (l, e) := EventSpec(s.ledger, s.team, s.shop, r.event, r.day);
        (s.(ledger := l), e)
  }

  /** The events in turn, up to the first that fails. */
  ghost function StreamSpec(s: Stream, rs: seq<Received>): (Stream, Option<Error>)
    decreases |rs|
  {
    if rs == [] then (s, None)
    else
      var (s', e) := StepSpec(s, rs[0]);
      if e.Some? then (s', e) else StreamSpec(s', rs[1..])
  }

  lemma {:induction false} StreamAppend(s: Stream, xs: seq<Received>, ys: seq<Received>)
    ensures var (s', e) := StreamSpec(s, xs);
            StreamSpec(s, xs + ys) == if e.Some? then (s', e) else StreamSpec(s', ys)
    decreases |xs|
  {
    if xs == [] {
      assert xs + ys == ys;
    } else {
      assert (xs + ys)[0] == xs[0] && (xs + ys)[1..] == xs[1..] + ys;
      StreamAppend(StepSpec(s, xs[0]).0, xs[1..], ys);
    }
  }

  lemma StreamOne(s: Stream, r: Received)
    ensures StreamSpec(s, [r]) == StepSpec(s, r)
  {
    var (s', e) := StepSpec(s, r);
    assert StreamSpec(s', [r][1..]) == (s', None);
  }

  // ---- the processor --------------------------------------------------------------------

  method DraftDiff(entry: EntryBuilder, team: TeamId, diff: real)
    requires entry.Posting(entry.books.db.ledger.chart)
    modifies entry
    ensures entry.Posting(entry.books.db.ledger.chart) && entry.posted == old(entry.posted) + DiffPosts(team, diff)
  {
    hide PostAll, ToSpec;
    if diff > 0.0 {
      entry.From(Own(SellingReceivable, team), diff);
      entry.To(Own(SellingAdjReceivable, team), diff);
    }
    if diff < 0.0 {
      entry.To(Own(SellingReceivable, team), Abs(diff));
      entry.From(Own(SellingAdjReceivable, team), Abs(diff));
    }
  }

  method DraftFund(entry: EntryBuilder, team: TeamId, est: real, amount: real)
    requires entry.posted == [] && entry.Posting(entry.books.db.ledger.chart)
    modifies entry
    ensures entry.Posting(entry.books.db.ledger.chart) && entry.posted == FundPosts(team, est, amount)
  {
    hide PostAll, ToSpec, DiffPosts;
    if amount < 0.0 {
      entry.To(Own(SellingReturnExpense, team), Abs(amount));
      if est == 0.0 {
        entry.From(Own(SellingAdjReceivable, team), Abs(amount));
      } else {
        entry.From(Own(SellingReceivable, team), Abs(amount));
        DraftDiff(entry, team, est - Abs(amount));
      }
    }
    if amount > 0.0 {
      DraftDiff(entry, team, est - amount);
    }
  }

  method DraftEvent(entry: EntryBuilder, team: TeamId, e: Event)
    requires Recordable(e) && entry.posted == [] && entry.Posting(entry.books.db.ledger.chart)
    modifies entry
    ensures entry.Posting(entry.books.db.ledger.chart) && entry.posted == EventPosts(team, e)
  {
    hide PostAll, ToSpec, FundPosts;
    match e {
      case Fund(_, est, amount) =>
        DraftFund(entry, team, est, amount);
      case Withdrawal(_, amount) =>
        entry.From(Own(SellingReceivable, team), Abs(amount));
        entry.To(Own(Cash, team), Abs(amount));
      case Adjustment(_, _, amount, _) =>
        if amount > 0.0 {
          entry.To(Own(OtherRevenue, team), amount);
          entry.To(Own(SellingReceivable, team), amount);
        }
        if amount < 0.0 {
          entry.From(Own(OtherRevenue, team), amount);
          entry.From(Own(SellingReceivable, team), amount);
        }
    }
  }

  class RevenueProcessor {
    const db: Database
    var authenticated: bool
    var team: TeamId
    var shop: nat

    constructor (db: Database)
      ensures this.db == db && State() == Fresh(db.ledger)
    {
      this.db, authenticated, team, shop := db, false, 0, 0;
    }

    ghost function State(): Stream
      reads this, db
    {
      Stream(db.ledger, authenticated, team, shop)
    }

    /** `fund`, `withdrawal` and `adjustment`: nothing for a reference that exists, else one transaction of one book. */
    method Record(e: Event, day: Day) returns (err: Option<Error>)
      requires Recordable(e)
      modifies db
      ensures (db.ledger, err) == EventSpec(old(db.ledger), team, shop, e, day)
    {
      hide RunBooks, RunBook, PostAll, EventPosts, EventRef, CreateError;
      if e.Fund? && Close(e.est, e.amount) {
        return None;
      }
      var ref := EventRef(shop, e);
      if ref in db.ledger.txs {
        return None;
      }
      var books := new BookManager.Begin(db);
      var failure, tx := books.CreateTransaction(EventCreation(shop, e));
      if failure.Some? {
        err := books.End(failure);
        return;
      }
      var entry := books.NewCreateEntry(team);
      DraftEvent(entry, team, e);
      PostedNeverSkips(books.State(), [PostBook(db.ledger.chart, team, EventPosts(team, e))], tx, day);
      failure := CommitBook(entry, tx, day);
      err := books.End(failure);
    }

    method Receive(r: Received) returns (err: Option<Error>)
      modifies this, db
      ensures (State(), err) == StepSpec(old(State()), r)
    {
      hide EventSpec;
      err := None;
      match r.event {
        case Init(team', shop', valid) =>
          if !valid {
            return Some(NotAuthenticated);
          }
          authenticated, team, shop := true, team', shop';
        case NoKind =>
        case _ =>
          if !authenticated {
            return Some(NotAuthenticated);
          }
          err := Record(r.event, r.day);
      }
    }

    /** `RevenueStream`: receive until the stream ends or an event fails. */
    method RevenueStream(rs: seq<Received>) returns (err: Option<Error>)
      modifies this, db
      ensures (State(), err) == StreamSpec(old(State()), rs)
    {
      hide StepSpec;
      err := None;
      var i := 0;
      while i < |rs|
        invariant 0 <= i <= |rs| && err.None?
        invariant (State(), None) == StreamSpec(old(State()), rs[..i])
      {
        StreamStep(old(State()), rs, i);
        err := Receive(rs[i]);
        if err.Some? {
          return;
        }
        i := i + 1;
      }
      assert rs[..i] == rs;
    }
  }

  /** The stream up to one more event, and the whole stream when that one fails. */
  lemma StreamStep(s: Stream, rs: seq<Received>, i: nat)
    requires i < |rs| && StreamSpec(s, rs[..i]).1.None?
    ensures StreamSpec(s, rs[..i + 1]) == StepSpec(StreamSpec(s, rs[..i]).0, rs[i])
    ensures StreamSpec(s, rs[..i + 1]).1.Some? ==> StreamSpec(s, rs) == StreamSpec(s, rs[..i + 1])
  {
    hide StepSpec;
    assert rs[..i + 1] == rs[..i] + [rs[i]] && rs == rs[..i + 1] + rs[i + 1..];
    StreamAppend(s, rs[..i], [rs[i]]);
    StreamOne(StreamSpec(s, rs[..i]).0, rs[i]);
    StreamAppend(s, rs[..i + 1], rs[i + 1..]);
  }
}
