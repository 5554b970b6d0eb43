/** The dashboard roll-ups (api/control_tower_composer.py): one-currency sums, the
    dollar mix by intent, and hourly throughput. */
module ControlTower {
  import opened Wrappers
  import opened Sequences
  import opened Ordering

  datatype Amount = Amount(cents: int, currency: string)

  // ----- _sum_one_currency --------------------------------------------------

  function Present(amounts: seq<Option<Amount>>): seq<Amount> {
    if amounts == [] then []
    else
      var front := Present(amounts[..|amounts| - 1]);
      var last := amounts[|amounts| - 1];
      if last.Some? then front + [last.value] else front
  }

  function Cents(amounts: seq<Amount>): seq<int> {
    seq(|amounts|, i requires 0 <= i < |amounts| => amounts[i].cents)
  }

  predicate OneCurrency(amounts: seq<Amount>) {
    forall i, j :: 0 <= i < |amounts| && 0 <= j < |amounts| ==> amounts[i].currency == amounts[j].currency
  }

  /** The sum, or None when nothing contributes or currencies mix. */
  function SumOneCurrency(amounts: seq<Amount>): Option<Amount> {
    if amounts == [] || !OneCurrency(amounts) then None
    else Some(Amount(Sum(Cents(amounts)), amounts[0].currency))
  }

  method ComputeSum(amounts: seq<Option<Amount>>) returns (r: Option<Amount>)
    ensures r == SumOneCurrency(Present(amounts))
  {
    var total := 0;
    var currency: Option<string> := None;
    var i := 0;
    while i < |amounts|
      invariant 0 <= i <= |amounts|
      invariant currency == None <==> Present(amounts[..i]) == []
      invariant forall a :: a in Present(amounts[..i]) ==> currency == Some(a.currency)
      invariant total == Sum(Cents(Present(amounts[..i])))
    {
      assert amounts[..i + 1][..i] == amounts[..i];
      ghost var before := Present(amounts[..i]);
      if amounts[i].Some? {
        var a := amounts[i].value;
        if currency == None {
          currency := Some(a.currency);
        } else if a.currency != currency.value {
          PresentPrefix(amounts, i + 1);
          ghost var all := Present(amounts);
          assert all[..|before| + 1] == before + [a];
          assert all[0] == before[0] && all[|before|] == a && before[0] in before;
          return None;
        }
        CentsGrow(before, a);
        total := total + a.cents;
      }
      i := i + 1;
    }
    assert amounts[..|amounts|] == amounts;
    if currency == None {
      return None;
    }
    return Some(Amount(total, currency.value));
  }

  lemma {:induction false} PresentPrefix(amounts: seq<Option<Amount>>, k: nat)
    requires k <= |amounts|
    ensures Present(amounts[..k]) <= Present(amounts)
    decreases |amounts|
  {
    if k == |amounts| {
      assert amounts[..k] == amounts;
    } else {
      assert amounts[..|amounts| - 1][..k] == amounts[..k];
      PresentPrefix(amounts[..|amounts| - 1], k);
    }
  }

  lemma CentsGrow(amounts: seq<Amount>, a: Amount)
    ensures Sum(Cents(amounts + [a])) == Sum(Cents(amounts)) + a.cents
  {
    assert Cents(amounts + [a])[..|amounts|] == Cents(amounts);
  }

  lemma CentsConcat(a: seq<Amount>, b: seq<Amount>)
    ensures Sum(Cents(a + b)) == Sum(Cents(a)) + Sum(Cents(b))
  {
    assert Cents(a + b) == Cents(a) + Cents(b);
    SumConcat(Cents(a), Cents(b));
  }

  lemma TakeOut(b: seq<Amount>, x: Amount) returns (rest: seq<Amount>)
    requires x in multiset(b)
    ensures multiset(rest) == multiset(b) - multiset{x}
    ensures Sum(Cents(b)) == Sum(Cents(rest)) + x.cents
  {
    var i :| 0 <= i < |b| && b[i] == x;
    rest := b[..i] + b[i + 1..];
    assert b == b[..i] + [x] + b[i + 1..];
    CentsConcat(b[..i] + [x], b[i + 1..]);
    CentsGrow(b[..i], x);
    CentsConcat(b[..i], b[i + 1..]);
  }

  lemma {:induction false} CentsIgnoreOrder(a: seq<Amount>, b: seq<Amount>)
    requires multiset(a) == multiset(b)
    ensures Sum(Cents(a)) == Sum(Cents(b))
    decreases |a|
  {
    assert |a| == |multiset(a)| == |multiset(b)| == |b|;
    if a != [] {
      var x := a[|a| - 1];
      assert x in multiset(a);
      var a' := TakeOut(a, x);
      var b' := TakeOut(b, x);
      assert |a'| == |multiset(a')|;
      CentsIgnoreOrder(a', b');
    }
  }

  /** The sum does not depend on the order of the amounts. */
  lemma SumIgnoresOrderOfAmounts(a: seq<Amount>, b: seq<Amount>)
    requires multiset(a) == multiset(b)
    ensures SumOneCurrency(a) == SumOneCurrency(b)
  {
    assert |a| == |multiset(a)| == |multiset(b)| == |b|;
    forall x ensures x in a <==> x in b {
      assert x in multiset(a) <==> x in multiset(b);
    }
    CentsIgnoreOrder(a, b);
    SameCurrencies(a, b);
    SameCurrencies(b, a);
  }

  lemma SameCurrencies(a: seq<Amount>, b: seq<Amount>)
    requires forall x :: x in b ==> x in a
    ensures OneCurrency(a) ==> OneCurrency(b) && (a != [] && b != [] ==> a[0].currency == b[0].currency)
  {
    if OneCurrency(a) {
      forall i | 0 <= i < |b| ensures a != [] && b[i].currency == a[0].currency {
        assert b[i] in a;
      }
    }
  }

  /** The sum, one amount at a time: a missing one does not count, a first one starts the sum, one in
      the same currency adds its cents, and one in another leaves nothing, whatever follows. */
  lemma SumOneMore(amounts: seq<Option<Amount>>, a: Option<Amount>)
    ensures SumOneCurrency(Present([])) == None
    ensures var before, after := SumOneCurrency(Present(amounts)), SumOneCurrency(Present(amounts + [a]));
            match a
            case None => after == before
            case Some(x) =>
              if forall b :: b in amounts ==> b == None then after == Some(x)
              else if before == None || before.value.currency != x.currency then after == None
              else after == Some(Amount(before.value.cents + x.cents, x.currency))
  {
    assert (amounts + [a])[..|amounts|] == amounts;
    PresentMember(amounts);
    if a.Some? {
      OneMorePresent(Present(amounts), a.value);
    }
  }

  lemma {:induction false} PresentMember(amounts: seq<Option<Amount>>)
    ensures Present(amounts) == [] <==> forall b :: b in amounts ==> b == None
  {
    if amounts != [] {
      var front, last := amounts[..|amounts| - 1], amounts[|amounts| - 1];
      PresentMember(front);
      assert amounts == front + [last];
      assert last in amounts && forall b :: b in front ==> b in amounts;
    }
  }

  lemma OneMorePresent(amounts: seq<Amount>, x: Amount)
    ensures var before, after := SumOneCurrency(amounts), SumOneCurrency(amounts + [x]);
            if amounts == [] then after == Some(x)
            else if before == None || before.value.currency != x.currency then after == None
            else after == Some(Amount(before.value.cents + x.cents, x.currency))
  {
    var all := amounts + [x];
    CentsGrow(amounts, x);
    assert all[|amounts|] == x;
    assert forall i :: 0 <= i < |amounts| ==> all[i] == amounts[i];
    if amounts == [] {
      assert Sum(Cents(amounts)) == 0;
    }
  }

  // ----- _mix_by_intent -----------------------------------------------------

  /** One NEEDS_HUMAN case, as far as the dollar roll-ups see it. */
  datatype Exposure = Exposure(intent: Option<string>, impact: Option<Amount>)

  predicate Contributes(e: Exposure) {
    Truthy(e.intent) && e.impact.Some?
  }

  /** The impacts of the contributing cases with one intent, in order. */
  function ImpactsOf(es: seq<Exposure>, intent: string): seq<Amount> {
    if es == [] then []
    else
      var front := ImpactsOf(es[..|es| - 1], intent);
      var last := es[|es| - 1];
      if Contributes(last) && last.intent.value == intent then front + [last.impact.value] else front
  }

  datatype Row = Row(intent: string, total: Amount)

  /** sort key (-cents, intent). */
  function RowOrder(): (Row, Row) -> bool {
    (x: Row, y: Row) => x.total.cents > y.total.cents || (x.total.cents == y.total.cents && LexLe(x.intent, y.intent))
  }

  lemma RowOrderIsOrder()
    ensures IsOrder(RowOrder())
  {
    forall x: Row, y: Row ensures RowOrder()(x, y) || RowOrder()(y, x) {
      LexTotal(x.intent, y.intent);
    }
    forall x: Row, y: Row, z: Row | RowOrder()(x, y) && RowOrder()(y, z) ensures RowOrder()(x, z) {
      if LexLe(x.intent, y.intent) && LexLe(y.intent, z.intent) {
        LexTransitive(x.intent, y.intent, z.intent);
      }
    }
  }

  ghost predicate DistinctIntents(rows: seq<Row>) {
    forall i, j :: 0 <= i < j < |rows| ==> rows[i].intent != rows[j].intent
  }

  /** One row per intent whose impacts can be summed, carrying that sum, largest first. */
  ghost predicate IsMix(es: seq<Exposure>, rows: seq<Row>) {
    && SortedBy(rows, RowOrder()) && DistinctIntents(rows)
    && (forall r :: r in rows ==> r.intent != "" && SumOneCurrency(ImpactsOf(es, r.intent)) == Some(r.total))
    && (forall intent :: intent != "" && SumOneCurrency(ImpactsOf(es, intent)).Some? ==>
          exists r :: r in rows && r.intent == intent)
  }

  /** The grouping dict and its key order. */
  ghost predicate GroupsOf(es: seq<Exposure>, byIntent: map<string, seq<Amount>>, intents: seq<string>) {
    && Distinct(intents)
    && (forall i :: i in intents <==> i in byIntent)
    && (forall i :: i in byIntent ==> i != "" && byIntent[i] == ImpactsOf(es, i))
    && (forall i :: i != "" && ImpactsOf(es, i) != [] ==> i in byIntent)
  }

  method GroupByIntent(es: seq<Exposure>) returns (byIntent: map<string, seq<Amount>>, intents: seq<string>)
    ensures GroupsOf(es, byIntent, intents)
  {
    byIntent, intents := map[], [];
    for k := 0 to |es|
      invariant GroupsOf(es[..k], byIntent, intents)
    {
      assert es[..k + 1][..k] == es[..k];
      var e := es[k];
      if Contributes(e) {
        var intent := e.intent.value;
        if intent !in byIntent {
          byIntent := byIntent[intent := []];
          intents := intents + [intent];
        }
        byIntent := byIntent[intent := byIntent[intent] + [e.impact.value]];
      }
    }
    assert es[..|es|] == es;
  }

  /** The rows made so far, for the intents looked at. */
  ghost predicate RowsFor(es: seq<Exposure>, intents: seq<string>, rows: seq<Row>) {
    && DistinctIntents(rows)
    && (forall r :: r in rows ==> r.intent in intents && SumOneCurrency(ImpactsOf(es, r.intent)) == Some(r.total))
    && (forall i :: i in intents && SumOneCurrency(ImpactsOf(es, i)).Some? ==> exists r :: r in rows && r.intent == i)
  }

  lemma MoreRows(es: seq<Exposure>, intents: seq<string>, rows: seq<Row>, row: Row)
    requires RowsFor(es, intents, rows) && row.intent !in intents
    requires SumOneCurrency(ImpactsOf(es, row.intent)) == Some(row.total)
    ensures RowsFor(es, intents + [row.intent], rows + [row])
  {
    var rows' := rows + [row];
    assert rows'[|rows|] in rows' && forall r :: r in rows ==> r in rows';
    forall i | i in intents + [row.intent] && SumOneCurrency(ImpactsOf(es, i)).Some?
      ensures exists r :: r in rows' && r.intent == i
    {
      if i != row.intent {
        var r :| r in rows && r.intent == i;
      }
    }
  }

  lemma NextIntent(es: seq<Exposure>, intents: seq<string>, rows: seq<Row>, intent: string)
    requires RowsFor(es, intents, rows) && intent !in intents
    ensures var total := SumOneCurrency(ImpactsOf(es, intent));
            RowsFor(es, intents + [intent], if total.Some? then rows + [Row(intent, total.value)] else rows)
  {
    var total := SumOneCurrency(ImpactsOf(es, intent));
    if total.Some? {
      MoreRows(es, intents, rows, Row(intent, total.value));
    }
  }

  lemma SortedRowsAreMix(es: seq<Exposure>, byIntent: map<string, seq<Amount>>, intents: seq<string>, rows: seq<Row>)
    requires GroupsOf(es, byIntent, intents) && RowsFor(es, intents, rows)
    ensures IsMix(es, SortBy(rows, RowOrder()))
  {
    var sorted := SortBy(rows, RowOrder());
    RowOrderIsOrder();
    SortBySorted(rows, RowOrder());
    SortByMultiset(rows, RowOrder());
    forall r ensures r in sorted <==> r in rows {
      assert r in multiset(sorted) <==> r in multiset(rows);
    }
    SortKeepsDistinctIntents(rows);
    forall intent | intent != "" && SumOneCurrency(ImpactsOf(es, intent)).Some?
      ensures exists r :: r in sorted && r.intent == intent {
      assert intent in byIntent;
      var r :| r in rows && r.intent == intent;
      assert r in sorted;
    }
  }

  method MixByIntent(es: seq<Exposure>) returns (rows: seq<Row>)
    ensures IsMix(es, rows)
  {
    var byIntent, intents := GroupByIntent(es);
    var unsorted: seq<Row> := [];
    for k := 0 to |intents|
      invariant RowsFor(es, intents[..k], unsorted)
    {
      var intent := intents[k];
      assert intents[..k + 1] == intents[..k] + [intent];
      assert intent in byIntent && intent !in intents[..k];
      NextIntent(es, intents[..k], unsorted, intent);
      var total := SumOneCurrency(byIntent[intent]);
      if total.Some? {
        unsorted := unsorted + [Row(intent, total.value)];
      }
    }
    assert intents[..|intents|] == intents;
    SortedRowsAreMix(es, byIntent, intents, unsorted);
    rows := SortBy(unsorted, RowOrder());
  }

  lemma {:induction false} SortKeepsDistinctIntents(rows: seq<Row>)
    requires DistinctIntents(rows)
    ensures DistinctIntents(SortBy(rows, RowOrder()))
  {
    if rows != [] {
      var front, last := rows[..|rows| - 1], rows[|rows| - 1];
      SortKeepsDistinctIntents(front);
      SortByMultiset(front, RowOrder());
      var sorted := SortBy(front, RowOrder());
      forall r | r in sorted ensures r.intent != last.intent {
        assert r in multiset(front);
        var i :| 0 <= i < |front| && front[i] == r;
        assert rows[i].intent != rows[|rows| - 1].intent;
      }
      InsertKeepsDistinctIntents(sorted, last);
    }
  }

  lemma {:induction false} InsertKeepsDistinctIntents(rows: seq<Row>, x: Row)
    requires DistinctIntents(rows) && forall r :: r in rows ==> r.intent != x.intent
    ensures DistinctIntents(InsertBy(rows, x, RowOrder()))
  {
    if rows != [] && !RowOrder()(rows[|rows| - 1], x) {
      var front, last := rows[..|rows| - 1], rows[|rows| - 1];
      InsertKeepsDistinctIntents(front, x);
      InsertByMultiset(front, x, RowOrder());
      var t := InsertBy(front, x, RowOrder());
      forall r | r in t ensures r.intent != last.intent {
        assert r in multiset(front) + multiset{x};
        if r in front {
          var i :| 0 <= i < |front| && front[i] == r;
          assert rows[i].intent != rows[|rows| - 1].intent;
        } else {
          assert last in rows;
        }
      }
    }
  }

  /** The rows by their numbers: most cents first, equal ones by intent. */
  lemma LargestFirst(es: seq<Exposure>, rows: seq<Row>, i: nat, j: nat)
    requires IsMix(es, rows) && i < j < |rows|
    ensures rows[i].total.cents >= rows[j].total.cents
    ensures rows[i].total.cents == rows[j].total.cents ==> LexLe(rows[i].intent, rows[j].intent)
  {
    assert RowOrder()(rows[i], rows[j]);
  }

  /** A case counts toward its own intent only, and only with an intent and an impact. */
  lemma CaseCountsOnce(es: seq<Exposure>, e: Exposure, intent: string)
    requires intent != ""
    ensures ImpactsOf([], intent) == []
    ensures ImpactsOf(es + [e], intent) ==
              ImpactsOf(es, intent)
              + if e.intent == Some(intent) && e.impact.Some? then [e.impact.value] else []
  {
    assert (es + [e])[..|es|] == es;
  }

  // ----- conservation -------------------------------------------------------

  /** The impacts of all contributing cases. */
  function AllImpacts(es: seq<Exposure>): seq<Amount> {
    if es == [] then []
    else
      var front := AllImpacts(es[..|es| - 1]);
      if Contributes(es[|es| - 1]) then front + [es[|es| - 1].impact.value] else front
  }

  function GroupSums(es: seq<Exposure>, intents: seq<string>): seq<int> {
    seq(|intents|, i requires 0 <= i < |intents| => Sum(Cents(ImpactsOf(es, intents[i]))))
  }

  /** Adding a number at one place of a list adds it to the sum. */
  lemma {:induction false} SumBump(s: seq<int>, t: seq<int>, k: nat, d: int)
    requires |s| == |t| && k < |s| && t[k] == s[k] + d
    requires forall i :: 0 <= i < |s| && i != k ==> t[i] == s[i]
    ensures Sum(t) == Sum(s) + d
  {
    if k == |s| - 1 {
      assert t[..k] == s[..k];
    } else {
      SumBump(s[..|s| - 1], t[..|s| - 1], k, d);
    }
  }

  lemma {:induction false} SumOfZeros(s: seq<int>)
    requires forall i :: 0 <= i < |s| ==> s[i] == 0
    ensures Sum(s) == 0
  {
    if s != [] {
      SumOfZeros(s[..|s| - 1]);
    }
  }

  /** Per-intent sums over any list naming each contributing intent once add up to the whole. */
  lemma {:induction false} GroupsAddUp(es: seq<Exposure>, intents: seq<string>)
    requires Distinct(intents)
    requires forall e :: e in es && Contributes(e) ==> e.intent.value in intents
    ensures Sum(GroupSums(es, intents)) == Sum(Cents(AllImpacts(es)))
  {
    if es == [] {
      SumOfZeros(GroupSums(es, intents));
    } else {
      var front, e := es[..|es| - 1], es[|es| - 1];
      assert e in es;
      GroupsAddUp(front, intents);
      var s, t := GroupSums(front, intents), GroupSums(es, intents);
      if Contributes(e) {
        var k :| 0 <= k < |intents| && intents[k] == e.intent.value;
        CentsGrow(AllImpacts(front), e.impact.value);
        CentsGrow(ImpactsOf(front, intents[k]), e.impact.value);
        SumBump(s, t, k, e.impact.value.cents);
      } else {
        assert s == t;
      }
    }
  }

  function RowCents(rows: seq<Row>): seq<int> {
    seq(|rows|, i requires 0 <= i < |rows| => rows[i].total.cents)
  }

  lemma {:induction false} ImpactsWithin(es: seq<Exposure>, intent: string, a: Amount)
    ensures a in ImpactsOf(es, intent) <==>
              exists e :: e in es && Contributes(e) && e.intent.value == intent && e.impact.value == a
  {
    if es != [] {
      ImpactsWithin(es[..|es| - 1], intent, a);
      assert es == es[..|es| - 1] + [es[|es| - 1]];
      assert es[|es| - 1] in es;
    }
  }

  lemma {:induction false} AllImpactsMember(es: seq<Exposure>, a: Amount)
    ensures a in AllImpacts(es) <==> exists e :: e in es && Contributes(e) && e.impact.value == a
  {
    if es != [] {
      AllImpactsMember(es[..|es| - 1], a);
      assert es == es[..|es| - 1] + [es[|es| - 1]];
      assert es[|es| - 1] in es;
    }
  }

  /** When the contributing impacts share one currency every contributing intent has a
      row, and the rows add up to all of them. */
  lemma MixConserves(es: seq<Exposure>, rows: seq<Row>)
    requires IsMix(es, rows) && OneCurrency(AllImpacts(es))
    ensures Sum(RowCents(rows)) == Sum(Cents(AllImpacts(es)))
    ensures forall e :: e in es && Contributes(e) ==> exists r :: r in rows && r.intent == e.intent.value
  {
    var intents := seq(|rows|, i requires 0 <= i < |rows| => rows[i].intent);
    forall e | e in es && Contributes(e)
      ensures e.intent.value in intents && exists r :: r in rows && r.intent == e.intent.value {
      var intent := e.intent.value;
      ImpactsWithin(es, intent, e.impact.value);
      GroupOneCurrency(es, intent);
      var r :| r in rows && r.intent == intent;
      var i :| 0 <= i < |rows| && rows[i] == r;
      assert intents[i] == intent;
    }
    GroupsAddUp(es, intents);
    forall i | 0 <= i < |rows| ensures GroupSums(es, intents)[i] == rows[i].total.cents {
      assert rows[i] in rows;
    }
    assert GroupSums(es, intents) == RowCents(rows);
  }

  lemma GroupOneCurrency(es: seq<Exposure>, intent: string)
    requires OneCurrency(AllImpacts(es))
    ensures OneCurrency(ImpactsOf(es, intent))
  {
    forall a | a in ImpactsOf(es, intent) ensures a in AllImpacts(es) {
      ImpactsWithin(es, intent, a);
      AllImpactsMember(es, a);
    }
    SameCurrencies(AllImpacts(es), ImpactsOf(es, intent));
  }

  function Impacts(es: seq<Exposure>): seq<Option<Amount>> {
    seq(|es|, i requires 0 <= i < |es| => es[i].impact)
  }

  lemma {:induction false} AllCarryIntent(es: seq<Exposure>)
    requires forall e :: e in es && e.impact.Some? ==> Truthy(e.intent)
    ensures Present(Impacts(es)) == AllImpacts(es)
  {
    if es != [] {
      AllCarryIntent(es[..|es| - 1]);
      assert es[|es| - 1] in es;
      assert Impacts(es)[..|es| - 1] == Impacts(es[..|es| - 1]);
    }
  }

  /** If every impact carries an intent and all share one currency, the rows add up
      exactly to the headline `dollar_at_risk`. */
  lemma MixSumsToDollarAtRisk(es: seq<Exposure>, rows: seq<Row>)
    requires IsMix(es, rows)
    requires forall e :: e in es && e.impact.Some? ==> Truthy(e.intent)
    requires OneCurrency(Present(Impacts(es)))
    ensures var atRisk := SumOneCurrency(Present(Impacts(es)));
            Sum(RowCents(rows)) == if atRisk.Some? then atRisk.value.cents else 0
    ensures SumOneCurrency(Present(Impacts(es))) == None <==> rows == []
  {
    AllCarryIntent(es);
    MixConserves(es, rows);
    if AllImpacts(es) == [] && rows != [] {
      var r := rows[0];
      assert r in rows;
      var a := ImpactsOf(es, r.intent)[0];
      ImpactsWithin(es, r.intent, a);
      AllImpactsMember(es, a);
    } else if AllImpacts(es) != [] {
      AllImpactsMember(es, AllImpacts(es)[0]);
    }
  }

  // ----- _throughput --------------------------------------------------------

  const HOUR := 3_600
  const WINDOW_HOURS := 8

  /** A timestamp: seconds since the epoch, shown at `offset` seconds from UTC. */
  datatype Instant = Instant(utc: int, offset: int)

  datatype Finish = Finish(terminal: bool, finishedAt: Option<Instant>, byHuman: bool)

  function FloorHour(seconds: int): int {
    seconds - seconds % HOUR
  }

  /** finished.replace(minute=0, second=0, microsecond=0): truncated on its own wall clock. */
  function HourOf(t: Instant): int {
    FloorHour(t.utc + t.offset) - t.offset
  }

  /** `now` is in UTC. */
  function WindowStart(now: int): int {
    FloorHour(now - (WINDOW_HOURS - 1) * HOUR)
  }

  datatype Bucket = Bucket(start: int, byAgents: nat, byHumans: nat)

  /** The record is counted in the bucket that starts at `start`, as a human's or an agent's. */
  function LandsIn(start: int, human: bool): Finish -> bool {
    (f: Finish) => f.terminal && f.finishedAt.Some? && HourOf(f.finishedAt.value) == start && f.byHuman == human
  }

  function BucketAt(fs: seq<Finish>, start: int): Bucket {
    Bucket(start, |Filter(fs, LandsIn(start, false))|, |Filter(fs, LandsIn(start, true))|)
  }

  function Buckets(fs: seq<Finish>, now: int): seq<Bucket> {
    seq(WINDOW_HOURS, i => BucketAt(fs, WindowStart(now) + i * HOUR))
  }

  function Starts(now: int): set<int> {
    set i | 0 <= i < WINDOW_HOURS :: WindowStart(now) + i * HOUR
  }

  lemma CountNext(fs: seq<Finish>, f: Finish, start: int)
    ensures var b := BucketAt(fs, start);
            BucketAt(fs + [f], start) ==
            if !(f.terminal && f.finishedAt.Some? && HourOf(f.finishedAt.value) == start) then b
            else if f.byHuman then b.(byHumans := b.byHumans + 1) else b.(byAgents := b.byAgents + 1)
  {
    assert (fs + [f])[..|fs|] == fs;
  }

  /** The bucket dict after the records in `fs`. */
  ghost predicate Counted(buckets: map<int, Bucket>, fs: seq<Finish>, now: int) {
    buckets.Keys == Starts(now) && forall start :: start in buckets ==> buckets[start] == BucketAt(fs, start)
  }

  method CountRecord(buckets: map<int, Bucket>, f: Finish, ghost fs: seq<Finish>, now: int)
    returns (next: map<int, Bucket>)
    requires Counted(buckets, fs, now)
    ensures Counted(next, fs + [f], now)
  {
    forall start | start in buckets
      ensures BucketAt(fs + [f], start) ==
              if !(f.terminal && f.finishedAt.Some? && HourOf(f.finishedAt.value) == start) then buckets[start]
              else if f.byHuman then buckets[start].(byHumans := buckets[start].byHumans + 1)
              else buckets[start].(byAgents := buckets[start].byAgents + 1)
    {
      CountNext(fs, f, start);
    }
    next := buckets;
    if f.terminal && f.finishedAt.Some? {
      var hour := HourOf(f.finishedAt.value);
      if hour in buckets {
        var b := buckets[hour];
        next := buckets[hour := if f.byHuman then b.(byHumans := b.byHumans + 1) else b.(byAgents := b.byAgents + 1)];
      }
    }
  }

  method Throughput(fs: seq<Finish>, now: int) returns (out: seq<Bucket>)
    ensures out == Buckets(fs, now)
  {
    var buckets: map<int, Bucket> := map start | start in Starts(now) :: Bucket(start, 0, 0);
    for k := 0 to |fs|
      invariant Counted(buckets, fs[..k], now)
    {
      buckets := CountRecord(buckets, fs[k], fs[..k], now);
      assert fs[..k + 1] == fs[..k] + [fs[k]];
    }
    assert fs[..|fs|] == fs;
    out := InHourOrder(buckets, fs, now);
  }

  method InHourOrder(buckets: map<int, Bucket>, ghost fs: seq<Finish>, now: int) returns (out: seq<Bucket>)
    requires Counted(buckets, fs, now)
    ensures out == Buckets(fs, now)
  {
    out := [];
    for i := 0 to WINDOW_HOURS
      invariant |out| == i && forall j :: 0 <= j < i ==> out[j] == Buckets(fs, now)[j]
    {
      assert WindowStart(now) + i * HOUR in Starts(now);
      out := out + [buckets[WindowStart(now) + i * HOUR]];
    }
  }

  /** A terminal record that finished inside the eight hours, stamped at a whole-hour offset. */
  function InWindow(now: int): Finish -> bool {
    (f: Finish) =>
      && f.terminal && f.finishedAt.Some? && f.finishedAt.value.offset % HOUR == 0
      && WindowStart(now) <= f.finishedAt.value.utc < WindowStart(now) + WINDOW_HOURS * HOUR
  }

  function BucketTotal(fs: seq<Finish>, now: int, n: nat): nat {
    if n == 0 then 0
    else
      var b := BucketAt(fs, WindowStart(now) + (n - 1) * HOUR);
      BucketTotal(fs, now, n - 1) + b.byAgents + b.byHumans
  }

  /** A whole-hour offset does not move the hour; any other misses every UTC hour. */
  lemma HourOfOffset(t: Instant, start: int)
    requires start % HOUR == 0
    ensures HourOf(t) == start <==> t.offset % HOUR == 0 && start <= t.utc < start + HOUR
  {
  }

  lemma WindowStartIsHour(now: int)
    ensures WindowStart(now) % HOUR == 0
  {
  }

  /** One record more: it is counted once, in the first n buckets, exactly when it lies there. */
  lemma {:induction false} CountOnce(fs: seq<Finish>, f: Finish, now: int, n: nat)
    ensures BucketTotal(fs + [f], now, n) == BucketTotal(fs, now, n) +
            if f.terminal && f.finishedAt.Some? && f.finishedAt.value.offset % HOUR == 0
               && WindowStart(now) <= f.finishedAt.value.utc < WindowStart(now) + n * HOUR then 1 else 0
  {
    if n > 0 {
      CountOnce(fs, f, now, n - 1);
      var start := WindowStart(now) + (n - 1) * HOUR;
      assert (fs + [f])[..|fs|] == fs;
      WindowStartIsHour(now);
      assert start % HOUR == 0;
      if f.finishedAt.Some? {
        HourOfOffset(f.finishedAt.value, start);
      }
    }
  }

  /** The eight buckets count each record finishing inside the window exactly once, and
      nothing else; a record stamped at a part-hour offset is in none of them. */
  lemma {:induction false} ThroughputConserves(fs: seq<Finish>, now: int)
    ensures BucketTotal(fs, now, WINDOW_HOURS) == |Filter(fs, InWindow(now))|
  {
    if fs == [] {
      NothingToCount(now, WINDOW_HOURS);
    } else {
      var front, f := fs[..|fs| - 1], fs[|fs| - 1];
      ThroughputConserves(front, now);
      assert fs == front + [f];
      CountOnce(front, f, now, WINDOW_HOURS);
    }
  }

  lemma {:induction false} NothingToCount(now: int, n: nat)
    ensures BucketTotal([], now, n) == 0
  {
    if n > 0 {
      NothingToCount(now, n - 1);
    }
  }

  /** The eight buckets start on whole hours, one after the other, and `now` lies in the last. */
  lemma NowIsInLastBucket(fs: seq<Finish>, now: int, i: nat)
    requires i < 8
    ensures |Buckets(fs, now)| == 8
    ensures var start := Buckets(fs, now)[i].start;
            && start % 3_600 == 0 && start == Buckets(fs, now)[0].start + i * 3_600
            && (i == 7 ==> start <= now < start + 3_600)
  {
  }

  /** One record more is counted in the bucket of its hour, as a human's if one resolved it
      and as an agent's if not; every other bucket stays, and so do all if the record is not
      terminal or has no time. */
  lemma EachRecordCountsOnce(fs: seq<Finish>, f: Finish, now: int, i: nat)
    requires i < 8
    ensures Buckets([], now)[i].byAgents == 0 && Buckets([], now)[i].byHumans == 0
    ensures var before, after := Buckets(fs, now)[i], Buckets(fs + [f], now)[i];
            && after.start == before.start
            && var counted := f.terminal && f.finishedAt.Some? && f.finishedAt.value.offset % 3_600 == 0
                              && before.start <= f.finishedAt.value.utc < before.start + 3_600;
               && after.byHumans == before.byHumans + (if counted && f.byHuman then 1 else 0)
               && after.byAgents == before.byAgents + (if counted && !f.byHuman then 1 else 0)
  {
    var start := Buckets(fs, now)[i].start;
    NowIsInLastBucket(fs, now, i);
    CountNext(fs, f, start);
    if f.finishedAt.Some? {
      HourOfOffset(f.finishedAt.value, start);
    }
  }
}
