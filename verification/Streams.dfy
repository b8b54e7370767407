/** A revenue stream said event by event: each is booked for the team and shop of the last Init before it. */
module Streams {
  import opened Accounts
  import opened Journal
  import opened Books
  import opened Revenue

  /** The last Init that authenticated. */
  function LastInit(rs: seq<Received>): Option<Event> {
    if rs == [] then None
    else
      var e := rs[|rs| - 1].event;
      if e.Init? && e.valid then Some(e) else LastInit(rs[..|rs| - 1])
  }

  lemma {:induction false} LastInitIsInit(rs: seq<Received>)
    ensures LastInit(rs).Some? ==> LastInit(rs).value.Init? && LastInit(rs).value.valid
    ensures LastInit(rs).Some? <==> exists i :: 0 <= i < |rs| && rs[i].event.Init? && rs[i].event.valid
    decreases |rs|
  {
    if rs != [] {
      var init := rs[..|rs| - 1];
      LastInitIsInit(init);
      assert rs == init + [rs[|rs| - 1]];
      if i :| 0 <= i < |rs| && rs[i].event.Init? && rs[i].event.valid {
        assert i < |rs| - 1 ==> init[i] == rs[i];
      }
    }
  }

  /** The ledger after the events, each booked for the last Init before it. */
  ghost function Booked(l: Ledger, rs: seq<Received>): Ledger
    decreases |rs|
  {
    if rs == [] then l
    else
      var before, init, r := Booked(l, rs[..|rs| - 1]), LastInit(rs[..|rs| - 1]), rs[|rs| - 1];
      if Recordable(r.event) && init.Some? && init.value.Init?
      then EventSpec(before, init.value.team, init.value.shop, r.event, r.day).0 else before
  }

  /** The event goes through: an Init that authenticates, or one that comes after such an Init and is booked. */
  ghost predicate GoesThrough(l: Ledger, before: seq<Received>, r: Received) {
    match r.event
    case Init(_, _, valid) => valid
    case NoKind => true
    case _ =>
      && LastInit(before).Some? && LastInit(before).value.Init?
      && EventSpec(Booked(l, before), LastInit(before).value.team, LastInit(before).value.shop, r.event, r.day).1.None?
  }

  /** The state of a stream whose events so far went through. */
  ghost function StateAfter(l: Ledger, rs: seq<Received>): Stream {
    match LastInit(rs)
    case Some(Init(team, shop, _)) => Stream(Booked(l, rs), true, team, shop)
    case _ => Fresh(Booked(l, rs))
  }

  lemma OneEvent(l: Ledger, rs: seq<Received>)
    requires rs != []
    ensures var n := |rs| - 1;
            var (s, e) := StepSpec(StateAfter(l, rs[..n]), rs[n]);
            && (e.None? <==> GoesThrough(l, rs[..n], rs[n]))
            && (e.None? ==> s == StateAfter(l, rs))
  {
    hide EventSpec;
    LastInitIsInit(rs[..|rs| - 1]);
  }

  /** A stream ends well exactly when every event goes through, and its state is then the one said event by event. */
  lemma {:induction false} StreamOutcome(l: Ledger, rs: seq<Received>)
    ensures var (s, e) := StreamSpec(Fresh(l), rs);
            && (e.None? <==> forall i :: 0 <= i < |rs| ==> GoesThrough(l, rs[..i], rs[i]))
            && (e.None? ==> s == StateAfter(l, rs))
    decreases |rs|
  {
    hide StepSpec, StateAfter, GoesThrough;
    if rs == [] {
      NoEvents(l);
    } else {
      var n := |rs| - 1;
      var init := rs[..n];
      assert rs == init + [rs[n]];
      StreamOutcome(l, init);
      StreamAppend(Fresh(l), init, [rs[n]]);
      StreamOne(StreamSpec(Fresh(l), init).0, rs[n]);
      OneEvent(l, rs);
      assert forall i :: 0 <= i < n ==> init[..i] == rs[..i] && init[i] == rs[i];
    }
  }

  lemma NoEvents(l: Ledger)
    ensures StateAfter(l, []) == Fresh(l)
  {
  }

  /** A stream that fails has booked the events before the one that failed, and nothing else. */
  lemma StreamFailure(l: Ledger, rs: seq<Received>, i: nat)
    requires i < |rs| && !GoesThrough(l, rs[..i], rs[i])
    requires forall k :: 0 <= k < i ==> GoesThrough(l, rs[..k], rs[k])
    ensures StreamSpec(Fresh(l), rs).1.Some? && StreamSpec(Fresh(l), rs).0.ledger == Booked(l, rs[..i])
  {
    hide EventSpec;
    var before := rs[..i];
    assert forall k :: 0 <= k < i ==> before[..k] == rs[..k] && before[k] == rs[k];
    StreamOutcome(l, before);
    StreamStep(Fresh(l), rs, i);
    assert rs[..i + 1][..i] == before;
    OneEvent(l, rs[..i + 1]);
    FailedEvent(StateAfter(l, before), rs[i]);
  }

  lemma FailedEvent(s: Stream, r: Received)
    ensures StepSpec(s, r).1.Some? ==> StepSpec(s, r).0.ledger == s.ledger
  {
    hide PostSpec, EventRef, EventPosts;
    if Recordable(r.event) && s.auth && !Skips(s.ledger, s.shop, r.event) {
      PostAccepted(s.ledger, EventCreation(s.shop, r.event),
                   [PostBook(s.ledger.chart, s.team, EventPosts(s.team, r.event))], None, r.day);
    }
  }

  /** Without an Init that authenticates nothing is ever booked. */
  lemma {:induction false} NothingWithoutInit(l: Ledger, rs: seq<Received>)
    requires LastInit(rs).None?
    ensures StreamSpec(Fresh(l), rs).0.ledger == l
    ensures StreamSpec(Fresh(l), rs).1.None? <==> forall r :: r in rs ==> r.event.NoKind?
    decreases |rs|
  {
    LastInitIsInit(rs);
    if rs != [] {
      LastInitIsInit(rs[1..]);
      assert rs == [rs[0]] + rs[1..];
      NothingWithoutInit(l, rs[1..]);
    }
  }
}
