/** The total that a chain of To and From calls posts to each account, and the books in which every account moves. */
module Moves {
  import opened Sums
  import opened Accounts
  import opened Journal
  import opened Books
  import opened Nets
  import opened Rollback
  import opened Balanced

  /** The total posted to an account. */
  function Moved(ps: seq<Post>, a: AccountRef): real {
    if ps == [] then 0.0
    else Moved(ps[..|ps| - 1], a) + if ps[|ps| - 1].account == a then ps[|ps| - 1].amount else 0.0
  }

  lemma {:induction false} MovedConcat(ps: seq<Post>, qs: seq<Post>, a: AccountRef)
    ensures Moved(ps + qs, a) == Moved(ps, a) + Moved(qs, a)
    decreases |qs|
  {
    if qs == [] {
      assert ps + qs == ps;
    } else {
      assert (ps + qs)[..|ps + qs| - 1] == ps + qs[..|qs| - 1];
      MovedConcat(ps, qs[..|qs| - 1], a);
    }
  }

  lemma {:induction false} NotMoved(ps: seq<Post>, a: AccountRef)
    requires forall p :: p in ps ==> p.account != a
    ensures Moved(ps, a) == 0.0
    decreases |ps|
  {
    if ps != [] {
      assert ps[|ps| - 1] in ps;
      NotMoved(ps[..|ps| - 1], a);
    }
  }

  lemma MovedOne(p: Post, a: AccountRef)
    ensures Moved([p], a) == if p.account == a then p.amount else 0.0
  {
    assert [p][..0] == [];
    assert Moved([p], a) == Moved([], a) + if p.account == a then p.amount else 0.0;
  }

  lemma MovedTwo(p: Post, q: Post, a: AccountRef)
    ensures Moved([p, q], a) == (if p.account == a then p.amount else 0.0) + (if q.account == a then q.amount else 0.0)
  {
    assert [p, q] == [p] + [q];
    MovedConcat([p], [q], a);
    MovedOne(p, a);
    MovedOne(q, a);
  }

  lemma {:induction false} MovedIsRaw(chart: Chart, ps: seq<Post>, a: AccountRef)
    requires a in chart && forall p :: p in ps ==> PostError(chart, p).None?
    ensures Sum(multiset(ps), PostRaw(chart, a)) == RawAmount(chart[a], Moved(ps, a))
    decreases |ps|
  {
    hide PostRaw, PostError;
    if ps != [] {
      var init, p := ps[..|ps| - 1], ps[|ps| - 1];
      assert ps == init + [p] && p in ps;
      MovedIsRaw(chart, init, a);
      RawOfOne(chart, p, a);
      SumAdd(multiset(init), p, PostRaw(chart, a));
      assert multiset(ps) == multiset(init) + multiset{p};
    }
  }

  lemma RawOfOne(chart: Chart, p: Post, a: AccountRef)
    requires PostError(chart, p).None? && a in chart
    ensures PostRaw(chart, a)(p) == RawAmount(chart[a], if p.account == a then p.amount else 0.0)
  {
  }

  /** A book that passes moves each account by what was posted to it. */
  lemma BookMoves(chart: Chart, book: TeamId, ps: seq<Post>, tx: TxId, day: Day, team: TeamId, a: AccountRef)
    requires Seeded(chart) && Passes(PostBook(chart, book, ps), tx, day)
    ensures BookNet(PostBook(chart, book, ps), team, a) == if team ==
      book then RawAmount(SeedSide(a.key), Moved(ps, a)) else 0.0
  {
    PostAllAccepts(chart, ps);
    PostBookNet(chart, book, ps, team, a);
    if a in chart {
      MovedIsRaw(chart, ps, a);
    } else {
      NotMoved(ps, a);
      SumZero(multiset(ps), PostRaw(chart, a));
    }
  }

  lemma OneBookNet(b: Book, team: TeamId, a: AccountRef)
    ensures BooksNet([b], team, a) == BookNet(b, team, a)
  {
    assert BooksNet([b][1..], team, a) == 0.0;
  }

  // ---- books in which every account moves -----------------------------------------------

  /** An account has unequal sides exactly when the total posted to it is not zero. */
  lemma MovedUnequal(chart: Chart, ps: seq<Post>, a: AccountRef)
    requires (forall p :: p in ps ==> PostError(chart, p).None?) && a in PostAll(chart, ps).items
    ensures Skipped(PostAll(chart, ps).items[a], NO_OPTIONS) <==> Moved(ps, a) == 0.0
  {
    hide PostAll;
    PostedItem(chart, ps, a);
    MovedIsRaw(chart, ps, a);
    PostBookNet(chart, 0, ps, 0, a);
  }

  ghost predicate AllMove(ps: seq<Post>) {
    forall p :: p in ps ==> Moved(ps, p.account) != 0.0
  }

  ghost predicate NoneFails(chart: Chart, ps: seq<Post>) {
    forall p :: p in ps ==> PostError(chart, p).None?
  }

  /** There are calls, none fails, the sides meet, and every account named moves. */
  ghost predicate GoodPosts(chart: Chart, ps: seq<Post>) {
    ps != [] && NoneFails(chart, ps) && Abs(Signed(chart, ps)) < EPSILON && AllMove(ps)
  }

  ghost predicate AllUnequal(items: map<AccountRef, Item>) {
    forall a :: a in items ==> !Skipped(items[a], NO_OPTIONS)
  }

  lemma UnequalIff(b: Book)
    requires b.saves && b.opts == NO_OPTIONS
    ensures NoneEqual([b]) <==> AllUnequal(b.draft.items)
  {
    assert b in [b];
    if NoneEqual([b]) {
      forall a | a in b.draft.items
        ensures !Skipped(b.draft.items[a], NO_OPTIONS)
      {
        assert !Skipped(b.draft.items[a], b.opts);
      }
    }
  }

  lemma UnequalItems(chart: Chart, ps: seq<Post>)
    requires NoneFails(chart, ps)
    ensures AllUnequal(PostAll(chart, ps).items) <==> AllMove(ps)
  {
    hide PostAll;
    var items := PostAll(chart, ps).items;
    if AllMove(ps) {
      forall a | a in items
        ensures !Skipped(items[a], NO_OPTIONS)
      {
        PostAllKeys(chart, ps, a);
        MovedUnequal(chart, ps, a);
      }
    }
    if AllUnequal(items) {
      forall p | p in ps
        ensures Moved(ps, p.account) != 0.0
      {
        PostAllKeys(chart, ps, p.account);
        MovedUnequal(chart, ps, p.account);
      }
    }
  }

  lemma MovingBookUnequal(chart: Chart, team: TeamId, ps: seq<Post>)
    requires NoneFails(chart, ps)
    ensures NoneEqual([PostBook(chart, team, ps)]) <==> AllMove(ps)
    ensures NoneEqual([PostBook(chart, team, ps)]) <==> AllUnequal(PostAll(chart, ps).items)
  {
    UnequalIff(PostBook(chart, team, ps));
    UnequalItems(chart, ps);
  }

  /** A book of posts passes, with no equal-sided entry, exactly when its posts are good; it then emits entries. */
  lemma GoodPostsPass(chart: Chart, team: TeamId, ps: seq<Post>, tx: TxId, day: Day)
    ensures var b := PostBook(chart, team, ps);
            && (Passes(b, tx, day) && NoneEqual([b]) <==> GoodPosts(chart, ps))
            && (GoodPosts(chart, ps) ==> BookEmitted(b, tx, day) != multiset{})
  {
    hide AllMove, Signed;
    var b := PostBook(chart, team, ps);
    PostAllAccepts(chart, ps);
    if b.draft.err.None? {
      MovingBookUnequal(chart, team, ps);
      DraftedSome(chart, ps);
      SignedIsTotals(chart, ps);
      if NoneEqual([b]) { UnequalBookPasses(b, tx, day); }
    }
  }

  /** A transaction of one book of posts is accepted exactly when its posts are good. */
  lemma SingleAccepts(chart: Chart, team: TeamId, ps: seq<Post>, tx: TxId, day: Day)
    ensures Accepts([PostBook(chart, team, ps)], tx, None, day) <==> GoodPosts(chart, ps)
  {
    hide GoodPosts, Passes, PostBook;
    var b := PostBook(chart, team, ps);
    GoodPostsPass(chart, team, ps, tx, day);
    assert b in [b];
    assert BooksEmitted([b], tx, day) == BookEmitted(b, tx, day) + BooksEmitted([], tx, day);
  }

  /** A transaction of two books of posts is accepted exactly when the posts of both are good. */
  lemma PairAccepts(chart: Chart, t: TeamId, ps: seq<Post>, u: TeamId, qs: seq<Post>, tx: TxId, day: Day)
    ensures Accepts([PostBook(chart, t, ps), PostBook(chart, u, qs)], tx, None, day) <==>
      GoodPosts(chart, ps) && GoodPosts(chart, qs)
  {
    hide GoodPosts, Passes, PostBook, BookEmitted;
    var b, c := PostBook(chart, t, ps), PostBook(chart, u, qs);
    GoodPostsPass(chart, t, ps, tx, day);
    GoodPostsPass(chart, u, qs, tx, day);
    assert b in [b] && c in [c] && b in [b, c] && c in [b, c] && [b, c][1..] == [c];
    assert NoneEqual([b, c]) <==> NoneEqual([b]) && NoneEqual([c]);
    assert AllPass([b, c], tx, day) <==> Passes(b, tx, day) && Passes(c, tx, day);
    assert BooksEmitted([b, c], tx, day) == BookEmitted(b, tx, day) + BooksEmitted([c], tx, day);
  }

  /** A book in which every account moves, and whose posts balance, passes exactly when it has posts, none of them zero,
      and its accounts exist. */
  lemma MovingBookPasses(chart: Chart, team: TeamId, ps: seq<Post>, tx: TxId, day: Day)
    requires Seeded(chart) && (Nonzero(ps) ==> AllMove(ps)) && (Found(chart, ps) ==> Signed(chart, ps) == 0.0)
    ensures var b := PostBook(chart, team, ps);
            && (Passes(b, tx, day) <==> ps != [] && Found(chart, ps) && Nonzero(ps))
            && Clean(b, tx, day)
  {
    hide Seeded, AllMove, Signed;
    var b := PostBook(chart, team, ps);
    SeededPostErrors(chart, ps);
    PostAllAccepts(chart, ps);
    if b.draft.err.None? {
      MovingBookUnequal(chart, team, ps);
      GoodPostsPass(chart, team, ps, tx, day);
    }
  }

  /** If the book passes, it emits entries when it is saved, and none of them has equal sides. */
  ghost predicate Clean(b: Book, tx: TxId, day: Day) {
    Passes(b, tx, day) ==> NoneEqual([b]) && (b.saves ==> BookEmitted(b, tx, day) != multiset{})
  }

  lemma {:induction false} SomeEmitted(bs: seq<Book>, tx: TxId, day: Day)
    requires forall b :: b in bs ==> b.saves ==> BookEmitted(b, tx, day) != multiset{}
    ensures BooksEmitted(bs, tx, day) != multiset{} <==> exists b :: b in bs && b.saves
    decreases |bs|
  {
    if bs != [] {
      var b, rest := bs[0], bs[1..];
      assert forall c :: c in bs <==> c == b || c in rest;
      SomeEmitted(rest, tx, day);
    }
  }

  /** A transaction of clean books is accepted exactly when all pass, one of them is saved, and nothing fails after. */
  lemma CleanBooksAccept(bs: seq<Book>, tx: TxId, tail: Option<Error>, day: Day)
    requires forall b :: b in bs ==> Clean(b, tx, day)
    ensures Accepts(bs, tx, tail, day) <==> tail.None? && AllPass(bs, tx, day) && exists b :: b in bs && b.saves
  {
    hide Passes, BookEmitted, BooksEmitted;
    if AllPass(bs, tx, day) {
      SomeEmitted(bs, tx, day);
      forall b, a | b in bs && b.saves && a in b.draft.items
        ensures !Skipped(b.draft.items[a], b.opts)
      {
        assert NoneEqual([b]) && b in [b];
      }
    }
  }

  lemma SignedIsTotals(chart: Chart, ps: seq<Post>)
    ensures var items := PostAll(chart, ps).items; TotalDebit(items) - TotalCredit(items) == Signed(chart, ps)
  {
    PostBookTotal(chart, ps);
  }

  lemma SeededPostErrors(chart: Chart, ps: seq<Post>)
    requires Seeded(chart)
    ensures NoneFails(chart, ps) <==> Found(chart, ps) && Nonzero(ps)
  {
    forall p | p in ps
      ensures PostError(chart, p).None? <==> p.account in chart && p.amount != 0.0
    {
    }
  }

  lemma PairMoves(p: Post, q: Post)
    requires p.account != q.account && p.amount != 0.0 && q.amount != 0.0
    ensures AllMove([p, q])
  {
    MovedTwo(p, q, p.account);
    MovedTwo(p, q, q.account);
  }

  /** A pair of posts that balances by the seed is good exactly when its accounts exist and its amounts are not zero. */
  lemma GoodPair(chart: Chart, p: Post, q: Post)
    requires Seeded(chart) && p.account != q.account && Weight(p) + Weight(q) == 0.0
    ensures GoodPosts(chart, [p, q]) <==> p.account in chart && q.account in chart && p.amount != 0.0
  {
    hide Seeded;
    var ps := [p, q];
    assert p in ps && q in ps;
    SeededPostErrors(chart, ps);
    if Nonzero(ps) { PairMoves(p, q); }
    if Found(chart, ps) { SignedPair(chart, p, q); }
  }

  lemma NoneMove()
    ensures AllMove([])
  {
  }

  lemma SignedNone(chart: Chart)
    ensures Signed(chart, []) == 0.0
  {
  }

  /** A book of two posts to different accounts that balance by the seed. */
  lemma PairPasses(chart: Chart, team: TeamId, p: Post, q: Post, tx: TxId, day: Day)
    requires Seeded(chart) && p.account != q.account && Weight(p) + Weight(q) == 0.0
    ensures var b := PostBook(chart, team, [p, q]);
            && (Passes(b, tx, day) <==> p.account in chart && q.account in chart && p.amount != 0.0 && q.amount != 0.0)
            && Clean(b, tx, day)
  {
    hide Seeded, Passes, Clean;
    var ps := [p, q];
    assert p in ps && q in ps;
    if Nonzero(ps) { PairMoves(p, q); }
    if Found(chart, ps) { SignedPair(chart, p, q); }
    MovingBookPasses(chart, team, ps, tx, day);
  }
}
