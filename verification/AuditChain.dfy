/**
 The hash-chained audit log (api/store.py): one shared list holds the
 interleaved chains of all tenants.

 SHA-256 and canonical JSON are parameters. Nothing is assumed about them
 beyond the shape of a hex digest; results that need collision freedom ask for
 it only on the finite set of event bodies that occur in the logs compared.
 */
module AuditChain {
  import opened Wrappers
  import opened Sequences

  const GENESIS := "GENESIS"

  /** The hashed part of an event: every field except `event_hash`. */
  datatype Body = Body(
    id: string, tenantId: string, policyKey: string,
    previousValue: string, newValue: string,
    changedBy: string, changeReason: Option<string>,
    createdAt: string, prevHash: string)

  datatype AuditEvent = AuditEvent(body: Body, eventHash: string)

  /** What a caller of `log_audit_event` supplies, with the id and the clock reading. */
  datatype Entry = Entry(
    id: string, tenantId: string, policyKey: string,
    previousValue: string, newValue: string,
    changedBy: string, changeReason: Option<string>,
    createdAt: string)

  datatype Hashing = Hashing(sha: string -> string, canon: Body -> string) {

    function Preimage(b: Body): string {
      b.prevHash + "|" + canon(b)
    }

    function Digest(b: Body): string {
      sha(Preimage(b))
    }

    /** `hexdigest()` returns 64 lower-case hex characters. */
    ghost predicate HexOutput() {
      forall x :: HexDigest(sha(x))
    }

    /** No two of these bodies encode alike, and no two of their preimages collide. */
    ghost predicate CollisionFree(bodies: set<Body>) {
      && (forall b, c :: b in bodies && c in bodies && canon(b) == canon(c) ==> b == c)
      && (forall b, c :: b in bodies && c in bodies && Digest(b) == Digest(c) ==> Preimage(b) == Preimage(c))
    }
  }

  predicate HexDigest(s: string) {
    |s| == 64 && forall i :: 0 <= i < |s| ==> '0' <= s[i] <= '9' || 'a' <= s[i] <= 'f'
  }

  // ----- the log ------------------------------------------------------------

  function OfTenant(t: string): AuditEvent -> bool {
    (e: AuditEvent) => e.body.tenantId == t
  }

  /** get_audit_log. */
  function TenantLog(log: seq<AuditEvent>, t: string): seq<AuditEvent> {
    Filter(log, OfTenant(t))
  }

  /** The hash the next event of tenant `t` links to: its latest event's, or GENESIS. */
  function LastHash(log: seq<AuditEvent>, t: string): string {
    if log == [] then GENESIS
    else if log[|log| - 1].body.tenantId == t then log[|log| - 1].eventHash
    else LastHash(log[..|log| - 1], t)
  }

  function Seal(h: Hashing, e: Entry, prevHash: string): AuditEvent {
    var body := Body(e.id, e.tenantId, e.policyKey, e.previousValue, e.newValue,
                     e.changedBy, e.changeReason, e.createdAt, prevHash);
    AuditEvent(body, h.Digest(body))
  }

  /** log_audit_event. */
  function Append(h: Hashing, log: seq<AuditEvent>, e: Entry): seq<AuditEvent> {
    log + [Seal(h, e, LastHash(log, e.tenantId))]
  }

  // ----- verification -------------------------------------------------------

  function ExpectedPrev(log: seq<AuditEvent>, i: nat): string
    requires i <= |log|
  {
    if i == 0 then GENESIS else log[i - 1].eventHash
  }

  predicate LinkOk(h: Hashing, log: seq<AuditEvent>, i: nat)
    requires i < |log|
  {
    && log[i].body.prevHash == ExpectedPrev(log, i)
    && log[i].eventHash == h.Digest(log[i].body)
  }

  ghost predicate Chain(h: Hashing, log: seq<AuditEvent>) {
    forall i :: 0 <= i < |log| ==> LinkOk(h, log, i)
  }

  /** What `verify_audit_chain` reports: None is (True, None), Some(i) is (False, i). */
  ghost predicate FirstBreak(h: Hashing, log: seq<AuditEvent>, r: Option<nat>) {
    match r
    case None => Chain(h, log)
    case Some(i) => i < |log| && !LinkOk(h, log, i) && forall j :: 0 <= j < i ==> LinkOk(h, log, j)
  }

  // ----- every run of writes verifies ---------------------------------------

  lemma {:induction false} LastHashEndsLog(log: seq<AuditEvent>, t: string)
    ensures LastHash(log, t) == ExpectedPrev(TenantLog(log, t), |TenantLog(log, t)|)
  {
    if log != [] && log[|log| - 1].body.tenantId != t {
      LastHashEndsLog(log[..|log| - 1], t);
    }
  }

  /** One write adds one event to its own tenant's log and touches no other log;
      a log that verified still verifies, with its old events as a prefix. */
  lemma AppendKeepsChains(h: Hashing, log: seq<AuditEvent>, e: Entry, t: string)
    requires Chain(h, TenantLog(log, t))
    ensures Chain(h, TenantLog(Append(h, log, e), t))
    ensures t != e.tenantId ==> TenantLog(Append(h, log, e), t) == TenantLog(log, t)
    ensures t == e.tenantId ==>
              TenantLog(Append(h, log, e), t) == TenantLog(log, t) + [Seal(h, e, LastHash(log, t))]
  {
    var x := Seal(h, e, LastHash(log, e.tenantId));
    assert (log + [x])[..|log + [x]| - 1] == log;
    if t == e.tenantId {
      LastHashEndsLog(log, t);
      var before := TenantLog(log, t);
      var after := before + [x];
      forall i | 0 <= i < |after| ensures LinkOk(h, after, i) {
        if i < |before| {
          assert LinkOk(h, before, i);
        }
      }
    }
  }

  /** Any number of writes by any tenants, starting from the empty list. */
  function RunLog(h: Hashing, writes: seq<Entry>): seq<AuditEvent> {
    if writes == [] then []
    else Append(h, RunLog(h, writes[..|writes| - 1]), writes[|writes| - 1])
  }

  function WrittenBy(t: string): Entry -> bool {
    (e: Entry) => e.tenantId == t
  }

  /** The caller-supplied part of an event. */
  function Contents(e: AuditEvent): Entry {
    var b := e.body;
    Entry(b.id, b.tenantId, b.policyKey, b.previousValue, b.newValue, b.changedBy, b.changeReason, b.createdAt)
  }

  /** Over any interleaving, every tenant's log verifies and records exactly
      that tenant's writes, in order. */
  lemma {:induction false} RunVerifies(h: Hashing, writes: seq<Entry>, t: string)
    ensures Chain(h, TenantLog(RunLog(h, writes), t))
    ensures var log := TenantLog(RunLog(h, writes), t); var own := Filter(writes, WrittenBy(t));
            |log| == |own| && forall i :: 0 <= i < |log| ==> Contents(log[i]) == own[i]
  {
    if writes != [] {
      var front := writes[..|writes| - 1];
      RunVerifies(h, front, t);
      AppendKeepsChains(h, RunLog(h, front), writes[|writes| - 1], t);
    }
  }

  /** Every earlier log of a tenant is a prefix of every later one. */
  lemma {:induction false} RunLogGrows(h: Hashing, writes: seq<Entry>, k: nat, t: string)
    requires k <= |writes|
    ensures TenantLog(RunLog(h, writes[..k]), t) <= TenantLog(RunLog(h, writes), t)
  {
    if k == |writes| {
      assert writes[..k] == writes;
    } else {
      var front := writes[..|writes| - 1];
      RunLogGrows(h, front, k, t);
      assert front[..k] == writes[..k];
      RunVerifies(h, front, t);
      AppendKeepsChains(h, RunLog(h, front), writes[|writes| - 1], t);
    }
  }

  // ----- tamper evidence ----------------------------------------------------

  function Bodies(log: seq<AuditEvent>): set<Body> {
    set e | e in log :: e.body
  }

  lemma BodyIn(log: seq<AuditEvent>, i: nat)
    requires i < |log|
    ensures log[i].body in Bodies(log)
  {
    assert log[i] in log;
  }

  /** The `|` separator is sound: it occurs in neither GENESIS nor a hex digest. */
  lemma SeparatorSplits(p: string, q: string, x: string, y: string)
    requires '|' !in p && '|' !in q
    requires p + "|" + x == q + "|" + y
    ensures p == q && x == y
  {
    var s := p + "|" + x;
    assert s == q + "|" + y;
    assert s[|p|] == '|' && s[|q|] == '|';
    assert forall k :: 0 <= k < |p| ==> s[k] == p[k] && p[k] in p;
    assert forall k :: 0 <= k < |q| ==> s[k] == q[k] && q[k] in q;
    assert |p| == |q|;
    assert p == s[..|p|] && q == s[..|q|];
    assert x == s[|p| + 1..] && y == s[|q| + 1..];
  }

  predicate PrevWellFormed(b: Body) {
    b.prevHash == GENESIS || HexDigest(b.prevHash)
  }

  lemma DigestBindsBody(h: Hashing, bodies: set<Body>, b: Body, c: Body)
    requires h.CollisionFree(bodies) && b in bodies && c in bodies
    requires PrevWellFormed(b) && PrevWellFormed(c)
    requires h.Digest(b) == h.Digest(c)
    ensures b == c
  {
    SeparatorSplits(b.prevHash, c.prevHash, h.canon(b), h.canon(c));
  }

  lemma ChainPrevWellFormed(h: Hashing, log: seq<AuditEvent>, i: nat)
    requires h.HexOutput() && i < |log|
    requires forall j :: 0 <= j <= i ==> LinkOk(h, log, j)
    ensures PrevWellFormed(log[i].body) && HexDigest(log[i].eventHash)
    ensures log[i].body.prevHash == GENESIS <==> i == 0
  {
    assert LinkOk(h, log, i);
    if 0 < i {
      assert LinkOk(h, log, i - 1);
    }
  }

  /** A hash pins down its whole history: two verifying logs that carry the same
      hash anywhere carry it at the same place and agree up to there. */
  lemma {:induction false} HashPinsHistory(h: Hashing, log: seq<AuditEvent>, log': seq<AuditEvent>, i: nat, j: nat)
    requires h.HexOutput() && h.CollisionFree(Bodies(log) + Bodies(log'))
    requires Chain(h, log) && Chain(h, log')
    requires i < |log| && j < |log'| && log[i].eventHash == log'[j].eventHash
    ensures i == j && log[..i + 1] == log'[..j + 1]
    decreases i
  {
    BodyIn(log, i);
    BodyIn(log', j);
    ChainPrevWellFormed(h, log, i);
    ChainPrevWellFormed(h, log', j);
    assert LinkOk(h, log, i) && LinkOk(h, log', j);
    DigestBindsBody(h, Bodies(log) + Bodies(log'), log[i].body, log'[j].body);
    if 0 < i && 0 < j {
      HashPinsHistory(h, log, log', i - 1, j - 1);
      assert log[..i + 1] == log[..i] + [log[i]] && log'[..j + 1] == log'[..j] + [log'[j]];
    }
  }

  /** In a verifying log no two events share a hash. */
  lemma HashesDistinct(h: Hashing, log: seq<AuditEvent>)
    requires h.HexOutput() && h.CollisionFree(Bodies(log)) && Chain(h, log)
    ensures forall i, j :: 0 <= i < j < |log| ==> log[i].eventHash != log[j].eventHash
  {
    forall i, j | 0 <= i < j < |log| ensures log[i].eventHash != log[j].eventHash {
      if log[i].eventHash == log[j].eventHash {
        assert Bodies(log) + Bodies(log) == Bodies(log);
        HashPinsHistory(h, log, log, i, j);
      }
    }
  }

  /** The last hash binds the whole log. */
  lemma LastHashBindsLog(h: Hashing, log: seq<AuditEvent>, log': seq<AuditEvent>)
    requires h.HexOutput() && h.CollisionFree(Bodies(log) + Bodies(log'))
    requires Chain(h, log) && Chain(h, log') && log != [] && log' != []
    requires log[|log| - 1].eventHash == log'[|log'| - 1].eventHash
    ensures log == log'
  {
    HashPinsHistory(h, log, log', |log| - 1, |log'| - 1);
    assert log[..|log|] == log && log'[..|log'|] == log';
  }

  predicate RowsOf(log: seq<AuditEvent>, rows: seq<nat>) {
    forall j :: 0 <= j < |rows| ==> rows[j] < |log|
  }

  /** Rows of `log` picked by position: covers deletion, reordering and duplication. */
  function Select(log: seq<AuditEvent>, rows: seq<nat>): seq<AuditEvent>
    requires RowsOf(log, rows)
  {
    seq(|rows|, j requires 0 <= j < |rows| => log[rows[j]])
  }

  /** However the rows of a verifying log are dropped, repeated or rearranged,
      the walk breaks at exactly the first row that is out of place. */
  lemma SelectionBreaksAt(h: Hashing, log: seq<AuditEvent>, rows: seq<nat>, m: nat)
    requires h.HexOutput() && h.CollisionFree(Bodies(log)) && Chain(h, log)
    requires RowsOf(log, rows)
    requires m <= |rows| && (forall j :: 0 <= j < m ==> rows[j] == j) && (m < |rows| ==> rows[m] != m)
    ensures FirstBreak(h, Select(log, rows), if m == |rows| then None else Some(m))
  {
    var picked := Select(log, rows);
    forall j | 0 <= j < m ensures LinkOk(h, picked, j) {
      assert rows[j] < |log| && picked[j] == log[j];
      assert LinkOk(h, log, j);
      if 0 < j {
        assert picked[j - 1] == log[rows[j - 1]];
      }
    }
    if m < |rows| {
      var k := rows[m];
      assert LinkOk(h, log, k);
      ChainPrevWellFormed(h, log, k);
      if 0 < m {
        assert picked[m - 1] == log[rows[m - 1]];
        ChainPrevWellFormed(h, log, m - 1);
      }
      HashesDistinct(h, log);
      assert !LinkOk(h, picked, m);
    }
  }

  /** The only row selections that still verify are the prefixes. */
  lemma OnlyPrefixesVerify(h: Hashing, log: seq<AuditEvent>, rows: seq<nat>)
    requires h.HexOutput() && h.CollisionFree(Bodies(log)) && Chain(h, log)
    requires RowsOf(log, rows)
    ensures Chain(h, Select(log, rows)) <==> forall j :: 0 <= j < |rows| ==> rows[j] == j
  {
    var m := 0;
    while m < |rows| && rows[m] == m
      invariant m <= |rows| && forall j :: 0 <= j < m ==> rows[j] == j
    {
      m := m + 1;
    }
    SelectionBreaksAt(h, log, rows, m);
  }

  /** Deleting event i breaks the walk at exactly i, unless i is the last event:
      a deleted tail leaves a log that verifies. */
  lemma DeletionBreaksAt(h: Hashing, log: seq<AuditEvent>, i: nat)
    requires h.HexOutput() && h.CollisionFree(Bodies(log)) && Chain(h, log)
    requires i < |log|
    ensures FirstBreak(h, log[..i] + log[i + 1..], if i == |log| - 1 then None else Some(i))
  {
    var rows := seq<nat>(|log| - 1, (j: nat) requires j < |log| - 1 => if j < i then j else j + 1);
    assert Select(log, rows) == log[..i] + log[i + 1..];
    SelectionBreaksAt(h, log, rows, i);
  }

  /** A replacement that links back to the same event and carries its own recomputed hash. */
  predicate Rehashed(h: Hashing, original: AuditEvent, edited: AuditEvent) {
    edited.body.prevHash == original.body.prevHash && edited.eventHash == h.Digest(edited.body)
  }

  /** Editing event i breaks the walk at i; an edit that also recomputes the hash
      moves the break to i + 1, and escapes only on the last event. */
  lemma EditBreaksAt(h: Hashing, log: seq<AuditEvent>, i: nat, edited: AuditEvent)
    requires h.HexOutput() && h.CollisionFree(Bodies(log) + {edited.body}) && Chain(h, log)
    requires i < |log| && edited != log[i]
    ensures FirstBreak(h, log[i := edited],
                       if !Rehashed(h, log[i], edited) then Some(i)
                       else if i + 1 < |log| then Some(i + 1) else None)
  {
    var tampered := log[i := edited];
    forall j | 0 <= j < i ensures LinkOk(h, tampered, j) {
      assert LinkOk(h, log, j);
    }
    assert LinkOk(h, log, i);
    if Rehashed(h, log[i], edited) {
      assert LinkOk(h, tampered, i);
      if i + 1 < |log| {
        assert LinkOk(h, log, i + 1);
        if edited.eventHash == log[i].eventHash {
          BodyIn(log, i);
          ChainPrevWellFormed(h, log, i);
          DigestBindsBody(h, Bodies(log) + {edited.body}, edited.body, log[i].body);
          assert false;
        }
        assert !LinkOk(h, tampered, i + 1);
      }
    } else {
      assert !LinkOk(h, tampered, i);
    }
  }

  // ----- the same on the shared list ----------------------------------------

  lemma CollisionFreeSubset(h: Hashing, few: set<Body>, many: set<Body>)
    requires h.CollisionFree(many) && few <= many
    ensures h.CollisionFree(few)
  {
  }

  lemma BodiesOfTenant(shared: seq<AuditEvent>, t: string)
    ensures Bodies(TenantLog(shared, t)) <= Bodies(shared)
  {
    forall e | e in TenantLog(shared, t) ensures e.body in Bodies(shared) {
      FilterMember(shared, OfTenant(t), e);
    }
  }

  /** How one row of the shared list shows in a tenant's log. */
  lemma RowInTenantLog(before: seq<AuditEvent>, x: AuditEvent, after: seq<AuditEvent>, t: string)
    ensures TenantLog(before + [x] + after, t) ==
            TenantLog(before, t) + (if x.body.tenantId == t then [x] else []) + TenantLog(after, t)
  {
    FilterMiddle(before, x, after, OfTenant(t));
    assert [x][..0] == [];
  }

  /** The event would be the next one after the first `i`. */
  predicate Fits(h: Hashing, log: seq<AuditEvent>, i: nat, x: AuditEvent)
    requires i <= |log|
  {
    x.body.prevHash == ExpectedPrev(log, i) && x.eventHash == h.Digest(x.body)
  }

  /** The event behind a fitting insertion no longer links back. */
  lemma InsertionBreaksLink(h: Hashing, log: seq<AuditEvent>, i: nat, x: AuditEvent)
    requires h.HexOutput() && h.CollisionFree(Bodies(log) + {x.body}) && Chain(h, log)
    requires i < |log| && Fits(h, log, i, x)
    ensures log[i].body.prevHash != x.eventHash
  {
    assert LinkOk(h, log, i);
    if log[i].body.prevHash == x.eventHash && i > 0 {
      assert LinkOk(h, log, i - 1);
      BodyIn(log, i - 1);
      ChainPrevWellFormed(h, log, i - 1);
      DigestBindsBody(h, Bodies(log) + {x.body}, log[i - 1].body, x.body);
      if i > 1 {
        CollisionFreeSubset(h, Bodies(log), Bodies(log) + {x.body});
        HashesDistinct(h, log);
      }
    }
  }

  /** An event put in at i breaks the walk at i unless it fits there, then at i + 1; it
      escapes only if it fits at the end. */
  lemma InsertionBreaksAt(h: Hashing, log: seq<AuditEvent>, i: nat, x: AuditEvent)
    requires h.HexOutput() && h.CollisionFree(Bodies(log) + {x.body}) && Chain(h, log) && i <= |log|
    ensures FirstBreak(h, log[..i] + [x] + log[i..],
                       if !Fits(h, log, i, x) then Some(i) else if i < |log| then Some(i + 1) else None)
  {
    var after := log[..i] + [x] + log[i..];
    forall j | 0 <= j < i ensures LinkOk(h, after, j) {
      assert LinkOk(h, log, j);
    }
    if Fits(h, log, i, x) && i < |log| {
      InsertionBreaksLink(h, log, i, x);
      assert after[i + 1] == log[i];
    }
  }

  /** What an edit of one row of the shared list does to a tenant's walk, for every tenant
      and every edit. `i` is the row's place in the tenant's log. An edit that keeps the
      tenant shows as in EditBreaksAt. One that changes it takes the event out of its
      tenant's log, where it shows as a deletion, and puts it into the other's. */
  function EditReport(h: Hashing, shared: seq<AuditEvent>, p: nat, edited: AuditEvent, t: string): Option<nat>
    requires p < |shared|
  {
    var log, i := TenantLog(shared, t), |TenantLog(shared[..p], t)|;
    var taken, put := shared[p].body.tenantId == t, edited.body.tenantId == t;
    if taken && put then
      if !Rehashed(h, shared[p], edited) then Some(i) else if i + 1 < |log| then Some(i + 1) else None
    else if taken then
      if i + 1 < |log| then Some(i) else None
    else if put then
      if i <= |log| && Fits(h, log, i, edited) then (if i < |log| then Some(i + 1) else None) else Some(i)
    else None
  }

  /** A tenant's log around one row of the shared list. */
  lemma LogAround(shared: seq<AuditEvent>, p: nat, t: string)
    requires p < |shared|
    ensures var log, i := TenantLog(shared, t), |TenantLog(shared[..p], t)|;
            && i <= |log| && log[..i] == TenantLog(shared[..p], t)
            && (shared[p].body.tenantId == t ==>
                  i < |log| && log[i] == shared[p] && log[i + 1..] == TenantLog(shared[p + 1..], t))
            && (shared[p].body.tenantId != t ==> log[i..] == TenantLog(shared[p + 1..], t))
  {
    assert shared == shared[..p] + [shared[p]] + shared[p + 1..];
    RowInTenantLog(shared[..p], shared[p], shared[p + 1..], t);
  }

  /** What an edit of the row makes of the log. */
  lemma EditedLog(shared: seq<AuditEvent>, p: nat, edited: AuditEvent, t: string)
    requires p < |shared|
    ensures var log, i := TenantLog(shared, t), |TenantLog(shared[..p], t)|;
            && i <= |log| && (shared[p].body.tenantId == t ==> i < |log| && log[i] == shared[p])
            && TenantLog(shared[p := edited], t) ==
               log[..i] + (if edited.body.tenantId == t then [edited] else [])
               + (if shared[p].body.tenantId == t then log[i + 1..] else log[i..])
  {
    LogAround(shared, p, t);
    assert shared[p := edited] == shared[..p] + [edited] + shared[p + 1..];
    RowInTenantLog(shared[..p], edited, shared[p + 1..], t);
  }

  lemma SharedEditBreaksAt(h: Hashing, shared: seq<AuditEvent>, p: nat, edited: AuditEvent, t: string)
    requires h.HexOutput() && h.CollisionFree(Bodies(shared) + {edited.body}) && Chain(h, TenantLog(shared, t))
    requires p < |shared| && edited != shared[p]
    ensures FirstBreak(h, TenantLog(shared[p := edited], t), EditReport(h, shared, p, edited, t))
  {
    var log, i := TenantLog(shared, t), |TenantLog(shared[..p], t)|;
    EditedLog(shared, p, edited, t);
    BodiesOfTenant(shared, t);
    CollisionFreeSubset(h, Bodies(log) + {edited.body}, Bodies(shared) + {edited.body});
    CollisionFreeSubset(h, Bodies(log), Bodies(shared) + {edited.body});
    if shared[p].body.tenantId == t && edited.body.tenantId == t {
      assert log[..i] + [edited] + log[i + 1..] == log[i := edited];
      EditBreaksAt(h, log, i, edited);
    } else if shared[p].body.tenantId == t {
      assert log[..i] + [] + log[i + 1..] == log[..i] + log[i + 1..];
      DeletionBreaksAt(h, log, i);
    } else if edited.body.tenantId == t {
      InsertionBreaksAt(h, log, i, edited);
    } else {
      assert log[..i] + [] + log[i..] == log;
    }
  }

  /** Deleting a row of the shared list shows to its tenant only, at the row's place in the
      tenant's log, and not at all if it was the tenant's last. */
  lemma SharedDeletionBreaksAt(h: Hashing, shared: seq<AuditEvent>, p: nat, t: string)
    requires h.HexOutput() && h.CollisionFree(Bodies(shared)) && Chain(h, TenantLog(shared, t)) && p < |shared|
    ensures var log, i := TenantLog(shared, t), |TenantLog(shared[..p], t)|;
            FirstBreak(h, TenantLog(shared[..p] + shared[p + 1..], t),
                       if shared[p].body.tenantId == t && i + 1 < |log| then Some(i) else None)
  {
    var log, i := TenantLog(shared, t), |TenantLog(shared[..p], t)|;
    LogAround(shared, p, t);
    FilterConcat(shared[..p], shared[p + 1..], OfTenant(t));
    if shared[p].body.tenantId == t {
      BodiesOfTenant(shared, t);
      CollisionFreeSubset(h, Bodies(log), Bodies(shared));
      DeletionBreaksAt(h, log, i);
    } else {
      assert log[..i] + log[i..] == log;
    }
  }

  function MovedTo(h: Hashing, e: AuditEvent, t: string, rehash: bool): AuditEvent {
    var body := e.body.(tenantId := t);
    AuditEvent(body, if rehash then h.Digest(body) else e.eventHash)
  }

  /** One write by tenant a, then handed to tenant b: a's log verifies, b's breaks at 0; and
      with the hash recomputed both verify. */
  lemma MovedEventPasses(h: Hashing, e: Entry, b: string)
    requires h.HexOutput() && b != e.tenantId
    requires var x := Seal(h, e, GENESIS); h.CollisionFree({x.body, MovedTo(h, x, b, true).body})
    ensures var shared := Append(h, [], e); var a := e.tenantId;
            && shared[0].body.tenantId == a && Chain(h, TenantLog(shared, a)) && Chain(h, TenantLog(shared, b))
            && (forall rehash ::
                  FirstBreak(h, TenantLog(shared[0 := MovedTo(h, shared[0], b, rehash)], a), None))
            && FirstBreak(h, TenantLog(shared[0 := MovedTo(h, shared[0], b, false)], b), Some(0))
            && FirstBreak(h, TenantLog(shared[0 := MovedTo(h, shared[0], b, true)], b), None)
  {
    var shared := Append(h, [], e);
    var x, y := Seal(h, e, GENESIS), MovedTo(h, Seal(h, e, GENESIS), b, true);
    assert shared == [x];
    OnlyRow(x, e.tenantId);
    OnlyRow(x, b);
    forall rehash ensures FirstBreak(h, TenantLog(shared[0 := MovedTo(h, x, b, rehash)], e.tenantId), None) {
      OnlyRow(MovedTo(h, x, b, rehash), e.tenantId);
    }
    OnlyRow(MovedTo(h, x, b, false), b);
    OnlyRow(y, b);
    if x.eventHash == y.eventHash {
      DigestBindsBody(h, {x.body, y.body}, x.body, y.body);
    }
  }

  lemma OnlyRow(x: AuditEvent, t: string)
    ensures TenantLog([x], t) == if x.body.tenantId == t then [x] else []
  {
    assert [] + [x] + [] == [x];
    RowInTenantLog([], x, [], t);
  }
}
