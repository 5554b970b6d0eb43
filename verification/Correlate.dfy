/** The deterministic precedent fallback (api/precedents_composer.py): same intent, same
    account first, newest first. */
module Correlate {
  import opened Wrappers
  import opened Sequences
  import opened Ordering

  /** `resolvedAt` is the parsed timestamp; None when it does not parse. */
  datatype Candidate = Candidate(id: string, intent: Option<string>, account: Option<string>, resolvedAt: Option<int>)

  /** (_inverted(resolved_at), id): newest first, unparseable last, then by id. */
  predicate NoOlder(x: Candidate, y: Candidate) {
    if x.resolvedAt == y.resolvedAt then LexLe(x.id, y.id)
    else if x.resolvedAt == None then false
    else if y.resolvedAt == None then true
    else x.resolvedAt.value > y.resolvedAt.value
  }

  function ByRecency(): (Candidate, Candidate) -> bool {
    (x: Candidate, y: Candidate) => NoOlder(x, y)
  }

  function SameIntent(intent: string): Candidate -> bool {
    (c: Candidate) => c.intent == Some(intent)
  }

  predicate FirstTier(account: Option<string>, c: Candidate) {
    Truthy(account) && c.account == account
  }

  function InFirstTier(account: Option<string>): Candidate -> bool {
    (c: Candidate) => FirstTier(account, c)
  }

  function InSecondTier(account: Option<string>): Candidate -> bool {
    (c: Candidate) => !FirstTier(account, c)
  }

  function Take<T>(s: seq<T>, n: nat): seq<T> {
    if n <= |s| then s[..n] else s
  }

  /** _correlate_match. */
  function CorrelateMatch(record: Candidate, pool: seq<Candidate>, limit: nat): seq<Candidate> {
    if !Truthy(record.intent) then []
    else
      var same := Filter(pool, SameIntent(record.intent.value));
      Take(SortBy(Filter(same, InFirstTier(record.account)), ByRecency())
           + SortBy(Filter(same, InSecondTier(record.account)), ByRecency()), limit)
  }

  // ----- one ranking --------------------------------------------------------

  /** Tier, then recency, then id. */
  predicate NoWorse(account: Option<string>, x: Candidate, y: Candidate) {
    if FirstTier(account, x) == FirstTier(account, y) then NoOlder(x, y) else FirstTier(account, x)
  }

  function Ranking(account: Option<string>): (Candidate, Candidate) -> bool {
    (x: Candidate, y: Candidate) => NoWorse(account, x, y)
  }

  lemma NoOlderTotal(x: Candidate, y: Candidate)
    ensures NoOlder(x, y) || NoOlder(y, x)
  {
    LexTotal(x.id, y.id);
  }

  lemma NoOlderTransitive(x: Candidate, y: Candidate, z: Candidate)
    requires NoOlder(x, y) && NoOlder(y, z)
    ensures NoOlder(x, z)
  {
    if x.resolvedAt == y.resolvedAt == z.resolvedAt {
      LexTransitive(x.id, y.id, z.id);
    }
  }

  lemma RecencyIsOrder()
    ensures IsOrder(ByRecency())
  {
    forall x: Candidate, y: Candidate ensures ByRecency()(x, y) || ByRecency()(y, x) {
      NoOlderTotal(x, y);
    }
    forall x: Candidate, y: Candidate, z: Candidate | ByRecency()(x, y) && ByRecency()(y, z) ensures ByRecency()(x, z) {
      NoOlderTransitive(x, y, z);
    }
  }

  lemma RankingIsOrder(account: Option<string>)
    ensures IsOrder(Ranking(account))
  {
    var leq := Ranking(account);
    forall x: Candidate, y: Candidate ensures leq(x, y) || leq(y, x) {
      NoOlderTotal(x, y);
    }
    forall x: Candidate, y: Candidate, z: Candidate | leq(x, y) && leq(y, z) ensures leq(x, z) {
      if NoOlder(x, y) && NoOlder(y, z) {
        NoOlderTransitive(x, y, z);
      }
    }
  }

  ghost predicate UniqueCandidates(pool: seq<Candidate>) {
    forall x, y :: x in pool && y in pool && x.id == y.id ==> x == y
  }

  lemma RankingTellsApart(account: Option<string>, x: Candidate, y: Candidate)
    requires NoWorse(account, x, y) && NoWorse(account, y, x)
    ensures x.id == y.id
  {
    assert x.resolvedAt == y.resolvedAt;
    LexAntisymmetric(x.id, y.id);
  }

  lemma {:induction false} TiersPartition(same: seq<Candidate>, account: Option<string>)
    ensures multiset(Filter(same, InFirstTier(account)) + Filter(same, InSecondTier(account))) == multiset(same)
  {
    if same != [] {
      TiersPartition(same[..|same| - 1], account);
      DropLast(same);
    }
  }

  /** Two sorted tiers, one after the other, are sorted by the full ranking. */
  lemma TiersAreRanked(same: seq<Candidate>, account: Option<string>)
    ensures var one := SortBy(Filter(same, InFirstTier(account)), ByRecency());
            var two := SortBy(Filter(same, InSecondTier(account)), ByRecency());
            SortedBy(one + two, Ranking(account)) && multiset(one + two) == multiset(same)
  {
    var f, g := Filter(same, InFirstTier(account)), Filter(same, InSecondTier(account));
    var one, two := SortBy(f, ByRecency()), SortBy(g, ByRecency());
    RecencyIsOrder();
    SortBySorted(f, ByRecency());
    SortBySorted(g, ByRecency());
    SortByMultiset(f, ByRecency());
    SortByMultiset(g, ByRecency());
    TiersPartition(same, account);
    forall c | c in one ensures FirstTier(account, c) {
      assert c in multiset(f);
      FilterMember(same, InFirstTier(account), c);
    }
    forall c | c in two ensures !FirstTier(account, c) {
      assert c in multiset(g);
      FilterMember(same, InSecondTier(account), c);
    }
    assert multiset(one + two) == multiset(f) + multiset(g) == multiset(f + g);
    forall i, j | 0 <= i < j < |one + two| ensures Ranking(account)((one + two)[i], (one + two)[j]) {
      if j < |one| {
        assert ByRecency()(one[i], one[j]) && one[i] in one && one[j] in one;
      } else if i >= |one| {
        assert ByRecency()(two[i - |one|], two[j - |one|]) && two[i - |one|] in two && two[j - |one|] in two;
      } else {
        assert one[i] in one && two[j - |one|] in two;
      }
    }
  }

  /** The match is the head of a single ranking of all same-intent candidates. */
  lemma MatchIsOneRanking(record: Candidate, pool: seq<Candidate>, limit: nat)
    requires UniqueCandidates(pool) && Truthy(record.intent)
    ensures CorrelateMatch(record, pool, limit) ==
            Take(SortBy(Filter(pool, SameIntent(record.intent.value)), Ranking(record.account)), limit)
  {
    var same := Filter(pool, SameIntent(record.intent.value));
    var leq := Ranking(record.account);
    TiersAreRanked(same, record.account);
    RankingIsOrder(record.account);
    SortBySorted(same, leq);
    SortByMultiset(same, leq);
    var ordered := SortBy(Filter(same, InFirstTier(record.account)), ByRecency())
                   + SortBy(Filter(same, InSecondTier(record.account)), ByRecency());
    forall x, y | x in ordered && y in ordered && leq(x, y) && leq(y, x) ensures x == y {
      assert x in multiset(same) && y in multiset(same);
      FilterMember(pool, SameIntent(record.intent.value), x);
      FilterMember(pool, SameIntent(record.intent.value), y);
      RankingTellsApart(record.account, x, y);
    }
    SortedUnique(ordered, SortBy(same, leq), leq);
  }

  /** The same candidates give the same precedents, in whatever order they are supplied. */
  lemma MatchIgnoresPoolOrder(record: Candidate, pool: seq<Candidate>, pool': seq<Candidate>, limit: nat)
    requires UniqueCandidates(pool) && multiset(pool) == multiset(pool')
    ensures CorrelateMatch(record, pool, limit) == CorrelateMatch(record, pool', limit)
  {
    forall x ensures x in pool <==> x in pool' {
      assert x in multiset(pool) <==> x in multiset(pool');
    }
    if Truthy(record.intent) {
      var p := SameIntent(record.intent.value);
      MatchIsOneRanking(record, pool, limit);
      MatchIsOneRanking(record, pool', limit);
      FilterIgnoresOrder(pool, pool', p);
      RankingIsOrder(record.account);
      forall x, y | x in Filter(pool, p) && y in Filter(pool, p) && NoWorse(record.account, x, y)
                    && NoWorse(record.account, y, x)
        ensures x == y
      {
        FilterMember(pool, p, x);
        FilterMember(pool, p, y);
        RankingTellsApart(record.account, x, y);
      }
      SortByIgnoresOrder(Filter(pool, p), Filter(pool', p), Ranking(record.account));
    }
  }

  /** What a sorted list is cut to is no worse than what is cut off. */
  lemma TopIsBest(ranked: seq<Candidate>, leq: (Candidate, Candidate) -> bool, n: nat, got: Candidate, left: Candidate)
    requires SortedBy(ranked, leq) && got in Take(ranked, n) && left in ranked && left !in Take(ranked, n)
    ensures leq(got, left)
  {
    var top := Take(ranked, n);
    var i :| 0 <= i < |top| && top[i] == got;
    var j :| 0 <= j < |ranked| && ranked[j] == left;
    assert forall k :: 0 <= k < |top| ==> ranked[k] == top[k] && top[k] in top;
    assert i < j;
  }

  lemma SortMember(s: seq<Candidate>, leq: (Candidate, Candidate) -> bool, x: Candidate)
    ensures x in SortBy(s, leq) <==> x in s
  {
    SortByMultiset(s, leq);
    assert x in multiset(SortBy(s, leq)) <==> x in multiset(s);
  }

  /** What the ranking means: the record's own account before all others; in either tier the
      newest first and what has no readable time last; equal times by id. */
  predicate Precedes(account: Option<string>, x: Candidate, y: Candidate) {
    var tiered := account != None && account != Some("");
    && (tiered && y.account == account ==> x.account == account)
    && (!tiered || (x.account == account <==> y.account == account) ==>
          && (y.resolvedAt.Some? ==> x.resolvedAt.Some? && x.resolvedAt.value >= y.resolvedAt.value)
          && (x.resolvedAt == y.resolvedAt ==> LexLe(x.id, y.id)))
  }

  lemma RankingMeans(account: Option<string>, x: Candidate, y: Candidate)
    ensures NoWorse(account, x, y) <==> Precedes(account, x, y)
  {
  }

  /** The returned rows come in that order, and there are as many as the limit allows. */
  lemma MatchOrder(record: Candidate, pool: seq<Candidate>, limit: nat)
    requires UniqueCandidates(pool) && record.intent != None && record.intent != Some("")
    ensures var found := CorrelateMatch(record, pool, limit); var n := |Filter(pool, SameIntent(record.intent.value))|;
            && |found| == (if limit <= n then limit else n)
            && forall i, j :: 0 <= i < j < |found| ==> Precedes(record.account, found[i], found[j])
  {
    var same, leq := Filter(pool, SameIntent(record.intent.value)), Ranking(record.account);
    var found := CorrelateMatch(record, pool, limit);
    MatchIsOneRanking(record, pool, limit);
    RankingIsOrder(record.account);
    SortBySorted(same, leq);
    forall i, j | 0 <= i < j < |found| ensures Precedes(record.account, found[i], found[j]) {
      assert leq(SortBy(same, leq)[i], SortBy(same, leq)[j]);
      RankingMeans(record.account, found[i], found[j]);
    }
  }

  /** No same-intent candidate left out ranks better than one that was returned. */
  lemma NothingBetterLeftOut(record: Candidate, pool: seq<Candidate>, limit: nat, got: Candidate, left: Candidate)
    requires UniqueCandidates(pool) && got in CorrelateMatch(record, pool, limit)
    requires left in pool && left.intent == record.intent && left !in CorrelateMatch(record, pool, limit)
    ensures record.intent != None && record.intent != Some("") && got in pool && got.intent == record.intent
    ensures Precedes(record.account, got, left)
  {
    var p := SameIntent(record.intent.value);
    var leq := Ranking(record.account);
    MatchIsOneRanking(record, pool, limit);
    RankingIsOrder(record.account);
    SortBySorted(Filter(pool, p), leq);
    SortMember(Filter(pool, p), leq, got);
    SortMember(Filter(pool, p), leq, left);
    FilterMember(pool, p, got);
    FilterMember(pool, p, left);
    TopIsBest(SortBy(Filter(pool, p), leq), leq, limit, got, left);
    RankingMeans(record.account, got, left);
  }
}
