/** Replaying a revenue stream: an event whose reference exists is absorbed, so streams can be sent again. */
module Replay {
  import opened Accounts
  import opened Journal
  import opened Books
  import opened References
  import opened Revenue

  // ---- references -----------------------------------------------------------------------

  /** Events of different kinds never share a reference; a fund's names its order, a withdrawal's its shop and
      second. */
  lemma KindsNeverShareReferences(shop: nat, e: Event, shop': nat, e': Event)
    requires Recordable(e) && Recordable(e') && EventRef(shop, e) == EventRef(shop', e')
    ensures (e.Fund? <==> e'.Fund?) && (e.Withdrawal? <==> e'.Withdrawal?) && (e.Adjustment? <==> e'.Adjustment?)
    ensures e.Fund? ==> e.orderId == e'.orderId
    ensures e.Withdrawal? ==> shop == shop' && e.at == e'.at
  {
    var (t, id) := RefParts(shop, e);
    var (t', id') := RefParts(shop', e');
    RefsDetermineTypeAndId(t, id, t', id');
    if e.Withdrawal? {
      ShopDateRefsInjective(References.Withdrawal, shop, e.at, References.Withdrawal, shop', e'.at);
    }
  }

  function RefParts(shop: nat, e: Event): (r: (RefType, string))
    requires Recordable(e)
    ensures EventRef(shop, e) == NewStringRefID(r.0, r.1)
    ensures r.0 == if e.Fund? then OrderFund else if e.Withdrawal? then References.Withdrawal else References.Adjustment
    ensures e.Fund? ==> r.1 == e.orderId
  {
    match e
    case Fund(orderId, _, _) => (OrderFund, orderId)
    case Withdrawal(at, _) => (References.Withdrawal, Decimal(shop) + "#" + SignedDecimal(at))
    case Adjustment(orderId, at, _, _) =>
      (References.Adjustment,
       if TrimSpaces(WithoutDashes(orderId)) != "" then orderId else Decimal(shop) + "#" + SignedDecimal(at))
  }

  predicate Blank(s: string) { forall i :: 0 <= i < |s| ==> s[i] == ' ' }

  predicate DashesAndSpaces(s: string) { forall i :: 0 <= i < |s| ==> s[i] == ' ' || s[i] == '-' }

  /** An adjustment is named by its order unless the order id is made of dashes and spaces only. */
  lemma AdjustmentNaming(orderId: string)
    ensures TrimSpaces(WithoutDashes(orderId)) == "" <==> DashesAndSpaces(orderId)
  {
    TrimLeftBlank(WithoutDashes(orderId));
    TrimRightBlank(TrimLeft(WithoutDashes(orderId)));
    DashesGone(orderId);
  }

  lemma {:induction false} TrimLeftBlank(s: string)
    ensures Blank(TrimLeft(s)) <==> Blank(s)
    decreases |s|
  {
    if s != "" && s[0] == ' ' {
      TrimLeftBlank(s[1..]);
      assert forall i :: 0 < i < |s| ==> s[i] == s[1..][i - 1];
    }
  }

  lemma {:induction false} TrimRightBlank(s: string)
    ensures TrimRight(s) == "" <==> Blank(s)
    decreases |s|
  {
    if s != "" && s[|s| - 1] == ' ' {
      TrimRightBlank(s[..|s| - 1]);
    }
  }

  lemma {:induction false} DashesGone(s: string)
    ensures Blank(WithoutDashes(s)) <==> DashesAndSpaces(s)
    decreases |s|
  {
    if s != "" {
      var init, c := s[..|s| - 1], s[|s| - 1];
      DashesGone(init);
      LastChar(init, c);
      LastChar(WithoutDashes(init), c);
      assert s == init + [c];
      assert WithoutDashes(s) == if c == '-' then WithoutDashes(init) else WithoutDashes(init) + [c];
    }
  }

  lemma LastChar(s: string, c: char)
    ensures Blank(s + [c]) <==> Blank(s) && c == ' '
    ensures DashesAndSpaces(s + [c]) <==> DashesAndSpaces(s) && (c == ' ' || c == '-')
  {
    assert (s + [c])[|s|] == c;
    assert forall i :: 0 <= i < |s| ==> (s + [c])[i] == s[i];
  }

  // ---- absorption -----------------------------------------------------------------------

  /** Deleting an event that is skipped where it comes, for its reference was already recorded or it is a fund as
      estimated, changes neither the outcome nor the final state. */
  lemma {:induction false} DeleteRecorded(s: Stream, xs: seq<Received>, r: Received, ys: seq<Received>)
    requires Recordable(r.event)
    requires var (s', e) := StreamSpec(s, xs); e.None? ==> s'.auth && Skips(s'.ledger, s'.shop, r.event)
    ensures StreamSpec(s, xs + [r] + ys) == StreamSpec(s, xs + ys)
  {
    StreamAppend(s, xs + [r], ys);
    StreamAppend(s, xs, [r]);
    StreamAppend(s, xs, ys);
    var s' := StreamSpec(s, xs).0;
    StreamOne(s', r);
  }

  ghost predicate RefsWithin(l: Ledger, m: Ledger) {
    forall ref :: ref in l.txs ==> ref in m.txs
  }

  /** An event that did not fail has its reference recorded, unless it is a fund as estimated. */
  lemma StepRecords(s: Stream, r: Received)
    ensures var (s', e) := StepSpec(s, r);
            && RefsWithin(s.ledger, s'.ledger) && (s.auth ==> s'.auth)
            && (e.None? && Recordable(r.event) ==>
                  s.auth && Skips(s'.ledger, s.shop, r.event) && s' == s.(ledger := s'.ledger))
  {
    hide PostSpec, EventRef;
    if Recordable(r.event) && s.auth && !Skips(s.ledger, s.shop, r.event) {
      var book := PostBook(s.ledger.chart, s.team, EventPosts(s.team, r.event));
      PostAddsRef(s.ledger, EventCreation(s.shop, r.event), [book], None, r.day);
    }
  }

  lemma {:induction false} StreamKeepsRefs(s: Stream, rs: seq<Received>)
    ensures RefsWithin(s.ledger, StreamSpec(s, rs).0.ledger) && (s.auth ==> StreamSpec(s, rs).0.auth)
    decreases |rs|
  {
    if rs != [] {
      StepRecords(s, rs[0]);
      StreamKeepsRefs(StepSpec(s, rs[0]).0, rs[1..]);
    }
  }

  /** Replay within a stream: of two events with one reference, the later can be deleted, whatever came between, unless
      the first was a fund as estimated. */
  lemma DeleteDuplicate(s: Stream, xs: seq<Received>, r: Received, ys: seq<Received>, dup: Received, zs: seq<Received>)
    requires Recordable(r.event) && Recordable(dup.event)
    requires !(r.event.Fund? && Close(r.event.est, r.event.amount))
    requires EventRef(StreamSpec(s, xs).0.shop, r.event) == EventRef(StreamSpec(s, xs + [r] + ys).0.shop, dup.event)
    ensures StreamSpec(s, xs + [r] + ys + [dup] + zs) == StreamSpec(s, xs + [r] + ys + zs)
  {
    hide EventRef, StepSpec;
    var s1 := StreamSpec(s, xs).0;
    var s2 := StepSpec(s1, r).0;
    StreamAppend(s, xs + [r], ys);
    StreamAppend(s, xs, [r]);
    StreamOne(s1, r);
    StepRecords(s1, r);
    StreamKeepsRefs(s2, ys);
    DeleteRecorded(s, xs + [r] + ys, dup, zs);
  }

  /** The events are the same; the days they are processed on may differ. */
  ghost predicate SameEvents(xs: seq<Received>, ys: seq<Received>) {
    |xs| == |ys| && forall i :: 0 <= i < |xs| ==> xs[i].event == ys[i].event
  }

  /** Over a ledger that has the references of a finished stream, the same events pass and book nothing. */
  lemma {:induction false} Absorbed(s: Stream, xs: seq<Received>, ys: seq<Received>, l: Ledger)
    requires SameEvents(xs, ys) && StreamSpec(s, xs).1.None? && RefsWithin(StreamSpec(s, xs).0.ledger, l)
    ensures StreamSpec(s.(ledger := l), ys) == (StreamSpec(s, xs).0.(ledger := l), None)
    decreases |xs|
  {
    if xs != [] {
      var s' := StepSpec(s, xs[0]).0;
      StepRecords(s, xs[0]);
      StreamKeepsRefs(s', xs[1..]);
      AbsorbOne(s, xs[0], ys[0], l);
      assert SameEvents(xs[1..], ys[1..]);
      Absorbed(s', xs[1..], ys[1..], l);
    }
  }

  lemma AbsorbOne(s: Stream, x: Received, y: Received, l: Ledger)
    requires x.event == y.event && StepSpec(s, x).1.None? && RefsWithin(StepSpec(s, x).0.ledger, l)
    ensures StepSpec(s.(ledger := l), y) == (StepSpec(s, x).0.(ledger := l), None)
  {
    hide EventRef, PostSpec;
    StepRecords(s, x);
  }

  /** Replay safety: sending a stream again from its start, on a new connection, goes on exactly where it ended. */
  lemma {:induction false} ReplayResumes(l: Ledger, xs: seq<Received>, again: seq<Received>, more: seq<Received>)
    requires StreamSpec(Fresh(l), xs).1.None? && SameEvents(xs, again)
    ensures StreamSpec(Fresh(StreamSpec(Fresh(l), xs).0.ledger), again + more) ==
      StreamSpec(StreamSpec(Fresh(l), xs).0, more)
  {
    var s := StreamSpec(Fresh(l), xs).0;
    Absorbed(Fresh(l), xs, again, s.ledger);
    StreamAppend(Fresh(s.ledger), again, more);
  }

  /** In particular a whole stream sent twice books nothing the second time. */
  lemma ReplayBooksNothing(l: Ledger, xs: seq<Received>, again: seq<Received>)
    requires StreamSpec(Fresh(l), xs).1.None? && SameEvents(xs, again)
    ensures var done := StreamSpec(Fresh(l), xs).0; StreamSpec(Fresh(done.ledger), again) == (done, None)
  {
    ReplayResumes(l, xs, again, []);
    assert again + [] == again;
  }
}
