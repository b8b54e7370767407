/** What a chain of To and From calls posts in the debit direction, less what it posts in the credit direction. */
module Balanced {
  import opened Sums
  import opened Accounts
  import opened Journal
  import opened Books
  import opened Nets
  import opened Rollback

  /** What was posted to debit-side accounts less what was posted to credit-side ones. */
  ghost function Signed(chart: Chart, ps: seq<Post>): real {
    Sum(multiset(ps), PostSigned(chart))
  }

  lemma SignedConcat(chart: Chart, a: seq<Post>, b: seq<Post>)
    ensures Signed(chart, a + b) == Signed(chart, a) + Signed(chart, b)
  {
    SumUnion(multiset(a), multiset(b), PostSigned(chart));
  }

  lemma SignedOne(chart: Chart, p: Post)
    ensures Signed(chart, [p]) == PostSigned(chart)(p)
  {
    SumSingle(p, PostSigned(chart));
  }

  lemma SignedTwo(chart: Chart, p: Post, q: Post)
    ensures Signed(chart, [p, q]) == PostSigned(chart)(p) + PostSigned(chart)(q)
  {
    assert [p, q] == [p] + [q];
    SignedConcat(chart, [p], [q]);
    SignedOne(chart, p);
    SignedOne(chart, q);
  }

  lemma DraftedSome(chart: Chart, ps: seq<Post>)
    requires PostAll(chart, ps).err.None?
    ensures PostAll(chart, ps).items != map[] <==> ps != []
  {
    PostAllAccepts(chart, ps);
    if ps != [] {
      assert ps[0] in ps;
      PostAllKeys(chart, ps, ps[0].account);
    }
  }

  ghost predicate Found(chart: Chart, ps: seq<Post>) {
    forall p :: p in ps ==> p.account in chart
  }

  lemma FoundParts(chart: Chart, a: seq<Post>, b: seq<Post>)
    ensures Found(chart, a + b) <==> Found(chart, a) && Found(chart, b)
  {
    assert forall p :: p in a + b <==> p in a || p in b;
  }

  ghost predicate Nonzero(ps: seq<Post>) {
    forall p :: p in ps ==> p.amount != 0.0
  }

  /** The amount of a call in the debit direction, by the seed. */
  function Weight(p: Post): real { RawAmount(SeedSide(p.account.key), p.amount) }

  lemma SignedPair(chart: Chart, p: Post, q: Post)
    requires Seeded(chart) && Found(chart, [p, q])
    ensures Signed(chart, [p, q]) == Weight(p) + Weight(q)
  {
    SignedTwo(chart, p, q);
    assert p in [p, q] && q in [p, q];
  }
}
