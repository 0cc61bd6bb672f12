/** Draining the outbox of one location into its ledger, with a crash possible at every durable step
    (electron/sessionLedgerOutbox.ts). */
module Drain {
  import opened Json
  import opened EventSchema
  import opened Readiness
  import opened Outbox
  import opened LedgerStore
  import opened Projector

  // ---------------------------------------------------------------- the pending list

  /** Drain order: canonical sequence, projection order, then the text order of the target id, here a rank. */
  predicate Before(outbox: map<TargetId, OutboxRow>, rank: TargetId -> int, a: TargetId, b: TargetId)
    requires a in outbox && b in outbox
  {
    || outbox[a].sequence < outbox[b].sequence
    || (outbox[a].sequence == outbox[b].sequence
        && (outbox[a].order < outbox[b].order || (outbox[a].order == outbox[b].order && rank(a) < rank(b))))
  }

  predicate PendingAt(outbox: map<TargetId, OutboxRow>, key: LocationKey, id: TargetId) {
    id in outbox && id.location == key && outbox[id].status == Pending
  }

  /** The rows the pending query returns, in its order. */
  ghost predicate IsListing(outbox: map<TargetId, OutboxRow>, rank: TargetId -> int, key: LocationKey,
                            ids: seq<TargetId>) {
    && (forall id :: id in ids <==> PendingAt(outbox, key, id))
    && Sorted(outbox, rank, ids)
  }

  ghost predicate Sorted(outbox: map<TargetId, OutboxRow>, rank: TargetId -> int, ids: seq<TargetId>) {
    && (forall i | 0 <= i < |ids| :: ids[i] in outbox)
    && (forall i, j | 0 <= i < j < |ids| :: Before(outbox, rank, ids[i], ids[j]))
  }

  ghost predicate Injective(rank: TargetId -> int) {
    forall a, b :: rank(a) == rank(b) ==> a == b
  }

  /** Insertion into a sorted list. */
  method Insert(outbox: map<TargetId, OutboxRow>, rank: TargetId -> int, ids: seq<TargetId>, id: TargetId)
      returns (r: seq<TargetId>)
    requires id in outbox && id !in ids && Sorted(outbox, rank, ids) && Injective(rank)
    ensures Sorted(outbox, rank, r)
    ensures forall x :: x in r <==> x == id || x in ids
  {
    var i := 0;
    while i < |ids| && Before(outbox, rank, ids[i], id)
      invariant 0 <= i <= |ids|
      invariant forall j | 0 <= j < i :: Before(outbox, rank, ids[j], id)
    {
      i := i + 1;
    }
    r := ids[..i] + [id] + ids[i..];
    assert forall j | i <= j < |ids| :: Before(outbox, rank, id, ids[j]) by {
      if i < |ids| {
        assert rank(ids[i]) != rank(id) by { assert ids[i] != id; }
        assert Before(outbox, rank, id, ids[i]);
      }
    }
    assert forall x | x in ids :: x in ids[..i] || x in ids[i..];
  }

  /** `listPendingCanonicalLedgerProjectionTargets`. */
  method ListPending(outbox: map<TargetId, OutboxRow>, rank: TargetId -> int, key: LocationKey)
      returns (ids: seq<TargetId>)
    requires Injective(rank)
    ensures IsListing(outbox, rank, key, ids)
  {
    ids := [];
    var rest := outbox.Keys;
    while rest != {}
      invariant rest <= outbox.Keys
      invariant Sorted(outbox, rank, ids)
      invariant forall id :: id in ids <==> PendingAt(outbox, key, id) && id !in rest
      decreases |rest|
    {
      var id :| id in rest;
      rest := rest - {id};
      if PendingAt(outbox, key, id) {
        ids := Insert(outbox, rank, ids, id);
      }
    }
  }

  lemma TailMembers(outbox: map<TargetId, OutboxRow>, rank: TargetId -> int, a: seq<TargetId>)
    requires Sorted(outbox, rank, a) && a != []
    ensures forall id :: id in a[1..] <==> id in a && id != a[0]
  {
  }

  /** The query determines its answer. */
  lemma {:induction false} ListingUnique(outbox: map<TargetId, OutboxRow>, rank: TargetId -> int, a: seq<TargetId>,
                                         b: seq<TargetId>)
    requires Sorted(outbox, rank, a) && Sorted(outbox, rank, b)
    requires forall id :: id in a <==> id in b
    ensures a == b
    decreases |a|
  {
    assert (|a| > 0 ==> a[0] in b) && (|b| > 0 ==> b[0] in a);
    if |a| > 0 {
      var i :| 0 <= i < |b| && b[i] == a[0];
      var j :| 0 <= j < |a| && a[j] == b[0];
      assert i == 0 && j == 0;
      TailMembers(outbox, rank, a);
      TailMembers(outbox, rank, b);
      ListingUnique(outbox, rank, a[1..], b[1..]);
    }
  }

  /** The query sees what the readiness row sees: it comes back empty exactly when its location has nothing pending. */
  lemma ListingSeesPending(outbox: map<TargetId, OutboxRow>, rank: TargetId -> int, key: LocationKey,
                           ids: seq<TargetId>)
    requires IsListing(outbox, rank, key, ids)
    ensures ids == [] <==> !HasPending(outbox, key)
    ensures forall id | id in ids :: id.location == key
  {
    if HasPending(outbox, key) {
      var id :| id in outbox && id.location == key && outbox[id].status == Pending;
      assert PendingAt(outbox, key, id);
    }
    if ids != [] {
      assert PendingAt(outbox, key, ids[0]);
    }
  }

  // ---------------------------------------------------------------- one drain

  /** What looking a target up in canonical History gives. */
  datatype Resolution = NoResolver | Throws | SourceMissing | Found(target: Target)

  datatype World = World(db: Db, ledger: seq<EventRecord>)

  datatype Verdict = Acknowledged | Skipped | Refused | Stopped

  datatype Handled = Handled(world: World, steps: nat, verdict: Verdict)

  /** The row after its payload was checked against the resolved target, and the material to project. */
  datatype Prepared = Bad | Missing | Apply(db: Db, expected: Expectation, canonical: Option<Expectation>, wrote: bool)

  predicate SameTarget(id: TargetId, row: OutboxRow, t: Target) {
    t.id == id && t.sessionId == row.sessionId && t.sessionGeneration == row.sessionGeneration && t.order == row.order
  }

  /** `row` is the row as it was listed. */
  function PrepareRow(db: Db, id: TargetId, row: OutboxRow, resolution: Resolution): Prepared {
    match Decode(row.payload)
    case Err(_) => Bad
    case Ok(decoded) =>
      match resolution
      case Throws => Bad
      case SourceMissing => Missing
      case NoResolver =>
        if decoded.CanonicalV1? || TypedEvents(decoded.events).None? then Bad
        else Apply(db, Expectation(TypedEvents(decoded.events).value, decoded.ids), None, false)
      case Found(t) =>
        var expected := Expectation(t.events, t.ids);
        if !SameTarget(id, row, t) || !ValidExpectation(|t.events|, t.ids) then Bad
        else if DigestOf(t.events, t.ids) == row.payload.digest then Apply(db, expected, Some(expected), false)
        else if decoded.CanonicalV1? then Bad
        else
          match Enqueue(db, t)
          case Err(_) => Bad
          case Ok(db') => Apply(db', expected, Some(expected), true)
  }

  function Prepare(db: Db, id: TargetId, resolution: Resolution): Prepared
    requires id in db.outbox
  {
    PrepareRow(db, id, db.outbox[id], resolution)
  }

  /** One iteration of the drain loop; `steps` durable effects (upgrade, append, acknowledge) are left before the
      process stops. */
  function Handle(w: World, id: TargetId, resolution: Resolution, steps: nat): Handled
    requires id in w.db.outbox
  {
    match Prepare(w.db, id, resolution)
    case Bad => Handled(w, steps, Refused)
    case Missing => Handled(w, steps, Skipped)
    case Apply(db, expected, canonical, wrote) =>
      if wrote && steps == 0 then Handled(w, 0, Stopped)
      else
        var (applied, observed) := Project(id.kind, w.ledger, expected, if wrote then steps - 1 else steps);
        var w' := World(db, applied.ledger);
        if applied.outcome == OutOfSteps then Handled(w', 0, Stopped)
        else if observed.None? then Handled(w', applied.steps, Refused)
        else if applied.steps == 0 then Handled(w', 0, Stopped)
        else
          var (acked, ok) := Acknowledge(db, id, observed.value, canonical);
          if ok then Handled(World(acked, applied.ledger), applied.steps - 1, Acknowledged)
          else Handled(w', applied.steps, Refused)
  }

  datatype Drained = Drained(world: World, steps: nat, projected: nat, missing: seq<TargetId>, failed: Option<TargetId>,
                             stopped: bool)

  /** The drain loop over a pending list. */
  function DrainList(w: World, ids: seq<TargetId>, resolve: TargetId -> Resolution, steps: nat): Drained
    requires forall i | 0 <= i < |ids| :: ids[i] in w.db.outbox
    decreases |ids|
  {
    if ids == [] then Drained(w, steps, 0, [], None, false)
    else
      var h := Handle(w, ids[0], resolve(ids[0]), steps);
      match h.verdict
      case Stopped => Drained(h.world, 0, 0, [], None, true)
      case Refused => Drained(h.world, h.steps, 0, [], Some(ids[0]), false)
      case Skipped =>
        HandleEffect(w, ids[0], resolve(ids[0]), steps);
        var r := DrainList(h.world, ids[1..], resolve, h.steps);
        r.(missing := [ids[0]] + r.missing)
      case Acknowledged =>
        HandleEffect(w, ids[0], resolve(ids[0]), steps);
        var r := DrainList(h.world, ids[1..], resolve, h.steps);
        r.(projected := r.projected + 1)
  }

  /** Only the payload of the one target may have been rewritten. */
  predicate OnlyChanges(db: Db, db': Db, id: TargetId) {
    && db'.outbox.Keys == db.outbox.Keys
    && id in db.outbox
    && (forall other | other in db.outbox && other != id :: db'.outbox[other] == db.outbox[other])
    && SameButPayload(db.outbox[id], db'.outbox[id])
  }

  lemma PrepareEffect(db: Db, id: TargetId, resolution: Resolution)
    requires id in db.outbox && Prepare(db, id, resolution).Apply?
    ensures OnlyChanges(db, Prepare(db, id, resolution).db, id)
    ensures Prepare(db, id, resolution).db.outbox[id].status == db.outbox[id].status
    ensures Prepare(db, id, resolution).db != db ==> Prepare(db, id, resolution).wrote
  {
  }

  lemma AcknowledgeEffect(db: Db, id: TargetId, observed: Expectation, canonical: Option<Expectation>)
    requires id in db.outbox
    ensures var (db', ok) := Acknowledge(db, id, observed, canonical);
            && OnlyChanges(db, db', id)
            && db'.outbox[id].payload == db.outbox[id].payload
            && (!ok ==> db' == db)
            && db'.outbox[id].status == if ok then Acked else db.outbox[id].status
  {
    hide Covers;
  }

  lemma OnlyChangesTransitive(a: Db, b: Db, c: Db, id: TargetId)
    requires OnlyChanges(a, b, id) && OnlyChanges(b, c, id)
    ensures OnlyChanges(a, c, id)
  {
  }

  /** One iteration touches no other target, and acknowledges its own exactly when it says so. */
  lemma HandleEffect(w: World, id: TargetId, resolution: Resolution, steps: nat)
    requires id in w.db.outbox
    ensures var h := Handle(w, id, resolution, steps);
            && OnlyChanges(w.db, h.world.db, id)
            && h.world.db.outbox[id].status == (if h.verdict == Acknowledged then Acked else w.db.outbox[id].status)
  {
    hide Prepare, Acknowledge, Project;
    if Prepare(w.db, id, resolution).Apply? {
      PrepareEffect(w.db, id, resolution);
      var prepared := Prepare(w.db, id, resolution);
      var left := if prepared.wrote && steps > 0 then steps - 1 else steps;
      var (applied, observed) := Project(id.kind, w.ledger, prepared.expected, left);
      if observed.Some? {
        AcknowledgeEffect(prepared.db, id, observed.value, prepared.canonical);
        OnlyChangesTransitive(w.db, prepared.db, Acknowledge(prepared.db, id, observed.value, prepared.canonical).0,
                              id);
      }
    }
  }

  /** An iteration only appends to the ledger, and never gains durable steps. */
  lemma HandleProgress(w: World, id: TargetId, resolution: Resolution, steps: nat)
    requires id in w.db.outbox
    ensures var h := Handle(w, id, resolution, steps);
            w.ledger <= h.world.ledger && h.steps <= steps && (h.verdict == Acknowledged ==> h.steps < steps)
  {
    hide Prepare, Acknowledge, EnsureAll, Observe;
    if Prepare(w.db, id, resolution).Apply? {
      var prepared := Prepare(w.db, id, resolution);
      var left := if prepared.wrote && steps > 0 then steps - 1 else steps;
      EnsureAllSteps(id.kind, w.ledger, prepared.expected.events, left);
    }
  }

  /** It stops without naming a failure only when it has no durable step left. */
  lemma StopsWithoutSteps(w: World, id: TargetId, resolution: Resolution, steps: nat)
    requires id in w.db.outbox
    ensures var h := Handle(w, id, resolution, steps);
            h.verdict == Stopped ==> h.steps == 0
  {
    hide Prepare, Acknowledge, Project;
  }

  /** It spends a step when it changes the tables. */
  lemma HandleSpends(w: World, id: TargetId, resolution: Resolution, steps: nat)
    requires id in w.db.outbox
    ensures var h := Handle(w, id, resolution, steps);
            h.world.db != w.db ==> h.steps < steps
  {
    HandleProgress(w, id, resolution, steps);
    if Prepare(w.db, id, resolution).Apply? {
      PrepareEffect(w.db, id, resolution);
      if Handle(w, id, resolution, steps).verdict != Acknowledged {
        NotAcknowledged(w, id, resolution, steps);
      }
      hide Handle, Prepare, OnlyChanges;
    }
  }

  lemma NotAcknowledged(w: World, id: TargetId, resolution: Resolution, steps: nat)
    requires id in w.db.outbox && Prepare(w.db, id, resolution).Apply?
        && Handle(w, id, resolution, steps).verdict != Acknowledged
    ensures var h, prepared := Handle(w, id, resolution, steps), Prepare(w.db, id, resolution);
            h.world.db != w.db ==> h.world.db == prepared.db && (prepared.wrote ==> h.steps < steps)
  {
    hide Prepare, Acknowledge, Project;
    var prepared := Prepare(w.db, id, resolution);
    if prepared.wrote && steps > 0 {
      ProjectSpends(id.kind, w.ledger, prepared.expected, steps - 1);
    }
  }

  lemma ProjectSpends(kind: string, ledger: seq<EventRecord>, expected: Expectation, steps: nat)
    ensures Project(kind, ledger, expected, steps).0.steps <= steps
  {
    hide EnsureAll, Observe, ValidShape;
    EnsureAllSteps(kind, ledger, expected.events, steps);
  }

  predicate SameButPayload(a: OutboxRow, b: OutboxRow) {
    a.sessionId == b.sessionId && a.sessionGeneration == b.sessionGeneration && a.sequence == b.sequence
        && a.order == b.order
  }

  function MissingIn(ids: seq<TargetId>, resolve: TargetId -> Resolution): seq<TargetId> {
    if ids == [] then [] else (if resolve(ids[0]) == SourceMissing then [ids[0]] else []) + MissingIn(ids[1..], resolve)
  }

  /** The targets one drain acknowledges are the first `n` of the list except those without a source; everything behind
      them, and every row outside the list, is as before; a failure names the target it stopped at. */
  ghost predicate DrainsPrefix(w: World, ids: seq<TargetId>, resolve: TargetId -> Resolution, r: Drained) {
    var n := r.projected + |r.missing|;
    && n <= |ids|
    && r.missing == MissingIn(ids[..n], resolve)
    && (forall j | 0 <= j < |ids| :: ids[j] in r.world.db.outbox
          && r.world.db.outbox[ids[j]].status == if j < n && resolve(ids[j]) != SourceMissing then Acked else Pending)
    && r.failed == (if n < |ids| && !r.stopped then Some(ids[n]) else None)
    && (r.stopped ==> n < |ids|)
  }

  ghost predicate Distinct(ids: seq<TargetId>) {
    forall i, j | 0 <= i < j < |ids| :: ids[i] != ids[j]
  }

  lemma {:induction false} DrainOrder(w: World, ids: seq<TargetId>, resolve: TargetId -> Resolution, steps: nat)
    requires Distinct(ids) && forall i | 0 <= i < |ids| ::
        ids[i] in w.db.outbox && w.db.outbox[ids[i]].status == Pending
    ensures DrainsPrefix(w, ids, resolve, DrainList(w, ids, resolve, steps))
    decreases |ids|
  {
    hide Handle, Decode, OnlyChanges;
    if ids != [] {
      var h := Handle(w, ids[0], resolve(ids[0]), steps);
      HandleEffect(w, ids[0], resolve(ids[0]), steps);
      SkipMeansMissing(w, ids[0], resolve(ids[0]), steps);
      StillPending(w.db, h.world.db, ids);
      if h.verdict == Skipped || h.verdict == Acknowledged {
        var rest := ids[1..];
        assert forall i | 0 <= i < |rest| :: rest[i] == ids[i + 1];
        DrainOrder(h.world, rest, resolve, h.steps);
        DrainFrame(h.world, rest, resolve, h.steps, ids[0]);
        hide Distinct;
        PrefixGrows(w, ids, resolve, h, DrainList(h.world, rest, resolve, h.steps));
      } else {
        assert ids[..0] == [];
      }
    }
  }

  /** One more handled row in front of a drained list. */
  lemma PrefixGrows(w: World, ids: seq<TargetId>, resolve: TargetId -> Resolution, h: Handled, r: Drained)
    requires ids != [] && DrainsPrefix(h.world, ids[1..], resolve, r)
    requires h.verdict == Skipped || h.verdict == Acknowledged
    requires h.verdict == Skipped <==> resolve(ids[0]) == SourceMissing
    requires ids[0] in r.world.db.outbox && r.world.db.outbox[ids[0]].status == if h.verdict == Acknowledged then Acked
        else Pending
    ensures DrainsPrefix(w, ids, resolve,
                         if h.verdict == Skipped then r.(missing := [ids[0]] + r.missing)
                             else r.(projected := r.projected + 1))
  {
    var n := r.projected + |r.missing|;
    assert ids[..n + 1][0] == ids[0] && ids[..n + 1][1..] == ids[1..][..n];
    forall j | 0 <= j < |ids|
      ensures ids[j] in r.world.db.outbox
      ensures r.world.db.outbox[ids[j]].status == if j < n + 1 && resolve(ids[j]) != SourceMissing then Acked
          else Pending
    {
      if j > 0 {
        assert ids[j] == ids[1..][j - 1];
      }
    }
  }

  lemma StillPending(db: Db, db': Db, ids: seq<TargetId>)
    requires ids != [] && Distinct(ids) && OnlyChanges(db, db', ids[0])
    requires forall i | 0 <= i < |ids| :: ids[i] in db.outbox && db.outbox[ids[i]].status == Pending
    ensures ids[0] in db'.outbox && Distinct(ids[1..])
    ensures forall i | 1 <= i < |ids| :: ids[i] in db'.outbox && db'.outbox[ids[i]].status == Pending
  {
  }

  /** A target is skipped, and then left alone, exactly when its resolver finds nothing. */
  lemma SkipMeansMissing(w: World, id: TargetId, resolution: Resolution, steps: nat)
    requires id in w.db.outbox
    ensures Handle(w, id, resolution, steps).verdict == Skipped ==>
        resolution == SourceMissing && Handle(w, id, resolution, steps).world == w
    ensures resolution == SourceMissing ==> Handle(w, id, resolution, steps).verdict
                                            == if Decode(w.db.outbox[id].payload).Ok? then Skipped else Refused
  {
    hide Acknowledge, EnsureAll, Observe, Enqueue;
  }

  /** A drain loses no row and only appends to the ledger. */
  lemma {:induction false} DrainGrows(w: World, ids: seq<TargetId>, resolve: TargetId -> Resolution, steps: nat)
    requires forall i | 0 <= i < |ids| :: ids[i] in w.db.outbox
    ensures DrainList(w, ids, resolve, steps).world.db.outbox.Keys == w.db.outbox.Keys
    ensures w.ledger <= DrainList(w, ids, resolve, steps).world.ledger
    decreases |ids|
  {
    hide Handle;
    if ids != [] {
      var h := Handle(w, ids[0], resolve(ids[0]), steps);
      HandleEffect(w, ids[0], resolve(ids[0]), steps);
      HandleProgress(w, ids[0], resolve(ids[0]), steps);
      if h.verdict == Skipped || h.verdict == Acknowledged {
        DrainGrows(h.world, ids[1..], resolve, h.steps);
      }
    }
  }

  /** A target outside the drained list is not touched. */
  lemma {:induction false} DrainFrame(w: World, ids: seq<TargetId>, resolve: TargetId -> Resolution, steps: nat,
                                      other: TargetId)
    requires forall i | 0 <= i < |ids| :: ids[i] in w.db.outbox
    requires other in w.db.outbox && other !in ids
    ensures other in DrainList(w, ids, resolve, steps).world.db.outbox
    ensures DrainList(w, ids, resolve, steps).world.db.outbox[other] == w.db.outbox[other]
    decreases |ids|
  {
    hide Handle;
    if ids != [] {
      var h := Handle(w, ids[0], resolve(ids[0]), steps);
      HandleEffect(w, ids[0], resolve(ids[0]), steps);
      if h.verdict == Skipped || h.verdict == Acknowledged {
        assert other !in ids[1..] && other != ids[0];
        DrainFrame(h.world, ids[1..], resolve, h.steps, other);
      }
    }
  }

  /** With every source present, a drain of the pending list acknowledges exactly a prefix of it, in
      (sequence, order, id) order, and reports the number of newly acknowledged rows. */
  lemma DrainAcksPrefix(w: World, rank: TargetId -> int, key: LocationKey, ids: seq<TargetId>,
                        resolve: TargetId -> Resolution, steps: nat)
    requires Injective(rank) && IsListing(w.db.outbox, rank, key, ids)
    requires forall i | 0 <= i < |ids| :: resolve(ids[i]) != SourceMissing
    ensures var r := DrainList(w, ids, resolve, steps);
            && r.missing == [] && r.projected <= |ids|
            && r.world.db.outbox.Keys == w.db.outbox.Keys
            && (forall id | id in w.db.outbox ::
                  r.world.db.outbox[id].status == if id in ids[..r.projected] then Acked else w.db.outbox[id].status)
            && r.failed == (if r.projected < |ids| && !r.stopped then Some(ids[r.projected]) else None)
  {
    ListingDistinct(w.db.outbox, rank, ids);
    assert forall i | 0 <= i < |ids| :: ids[i] in ids && PendingAt(w.db.outbox, key, ids[i]);
    DrainOrder(w, ids, resolve, steps);
    var r := DrainList(w, ids, resolve, steps);
    var n := r.projected + |r.missing|;
    NothingMissing(ids[..n], resolve);
    DrainGrows(w, ids, resolve, steps);
    hide DrainList, Distinct, Sorted, MissingIn;
    forall id | id in w.db.outbox
      ensures r.world.db.outbox[id].status == if id in ids[..n] then Acked else w.db.outbox[id].status
    {
      StatusAfter(w, ids, resolve, steps, id);
    }
  }

  lemma StatusAfter(w: World, ids: seq<TargetId>, resolve: TargetId -> Resolution, steps: nat, id: TargetId)
    requires Distinct(ids) && forall i | 0 <= i < |ids| ::
        ids[i] in w.db.outbox && w.db.outbox[ids[i]].status == Pending
    requires forall i | 0 <= i < |ids| :: resolve(ids[i]) != SourceMissing
    requires DrainsPrefix(w, ids, resolve, DrainList(w, ids, resolve, steps))
    requires id in w.db.outbox
    ensures var r := DrainList(w, ids, resolve, steps);
            id in r.world.db.outbox
            && r.world.db.outbox[id].status == if id in ids[..r.projected + |r.missing|] then Acked
                else w.db.outbox[id].status
  {
    hide DrainList;
    if id in ids {
      var j :| 0 <= j < |ids| && ids[j] == id;
      var n := DrainList(w, ids, resolve, steps).projected + |DrainList(w, ids, resolve, steps).missing|;
      assert j < n ==> ids[..n][j] == id;
    } else {
      DrainFrame(w, ids, resolve, steps, id);
    }
  }

  lemma ListingDistinct(outbox: map<TargetId, OutboxRow>, rank: TargetId -> int, ids: seq<TargetId>)
    requires Sorted(outbox, rank, ids)
    ensures Distinct(ids)
  {
  }

  lemma {:induction false} NothingMissing(ids: seq<TargetId>, resolve: TargetId -> Resolution)
    requires forall i | 0 <= i < |ids| :: resolve(ids[i]) != SourceMissing
    ensures MissingIn(ids, resolve) == []
  {
    if ids != [] {
      NothingMissing(ids[1..], resolve);
    }
  }

  // ---------------------------------------------------------------- the loop itself

  /** What a drain still has to report once `projected` and `missing` were collected from the front of the list. */
  function Resume(r: Drained, projected: nat, missing: seq<TargetId>): Drained {
    r.(projected := projected + r.projected, missing := missing + r.missing)
  }

  /** `drainCanonicalLedgerProjectionOutbox` over the listed rows; `budget` durable effects are left before the process
      stops. */
  method DrainOutbox(store: Store, ledger: seq<EventRecord>, ids: seq<TargetId>, resolve: TargetId -> Resolution,
                     budget: nat)
    returns (file: seq<EventRecord>, projected: nat, missing: seq<TargetId>, failed: Option<TargetId>, stopped: bool)
    requires forall i | 0 <= i < |ids| :: ids[i] in store.outbox
    modifies store
    ensures var r := DrainList(World(old(store.Contents()), ledger), ids, resolve, budget);
            && World(store.Contents(), file) == r.world
            && projected == r.projected && missing == r.missing && failed == r.failed && stopped == r.stopped
  {
    hide Handle, DrainList;
    file, projected, missing, failed, stopped := ledger, 0, [], None, false;
    var steps := budget;
    var i := 0;
    while i < |ids|
      invariant 0 <= i <= |ids|
      invariant forall j | 0 <= j < |ids| :: ids[j] in store.outbox
      invariant failed == None && !stopped
      invariant DrainList(World(old(store.Contents()), ledger), ids, resolve, budget) ==
                Resume(DrainList(World(store.Contents(), file), ids[i..], resolve, steps), projected, missing)
    {
      ghost var w := World(store.Contents(), file);
      var id := ids[i];
      assert ids[i..][0] == id && ids[i..][1..] == ids[i + 1..];
      HandleEffect(w, id, resolve(id), steps);
      DrainStep(w, ids[i..], resolve, steps, projected, missing);
      var handled, verdict, left := HandleRow(store, file, id, resolve(id), steps);
      file, steps := handled, left;
      match verdict {
        case Stopped =>
          stopped := true;
          return;
        case Refused =>
          failed := Some(id);
          return;
        case Skipped =>
          missing := missing + [id];
        case Acknowledged =>
          projected := projected + 1;
      }
      i := i + 1;
    }
    assert ids[i..] == [];
    DrainNothing(World(store.Contents(), file), resolve, steps, projected, missing);
  }

  lemma DrainNothing(w: World, resolve: TargetId -> Resolution, steps: nat, projected: nat, missing: seq<TargetId>)
    ensures Resume(DrainList(w, [], resolve, steps), projected, missing)
        == Drained(w, steps, projected, missing, None, false)
  {
  }

  /** One turn of the loop, with what was collected before it. */
  lemma DrainStep(w: World, ids: seq<TargetId>, resolve: TargetId -> Resolution, steps: nat, projected: nat,
                  missing: seq<TargetId>)
    requires ids != [] && forall i | 0 <= i < |ids| :: ids[i] in w.db.outbox
    ensures var h := Handle(w, ids[0], resolve(ids[0]), steps);
            && h.world.db.outbox.Keys == w.db.outbox.Keys
            && Resume(DrainList(w, ids, resolve, steps), projected, missing)
               == match h.verdict
                  case Stopped => Drained(h.world, 0, projected, missing, None, true)
                  case Refused => Drained(h.world, h.steps, projected, missing, Some(ids[0]), false)
                  case Skipped => Resume(DrainList(h.world, ids[1..], resolve, h.steps), projected, missing + [ids[0]])
                  case Acknowledged => Resume(DrainList(h.world, ids[1..], resolve, h.steps), projected + 1, missing)
  {
    hide Handle;
    HandleEffect(w, ids[0], resolve(ids[0]), steps);
    var h := Handle(w, ids[0], resolve(ids[0]), steps);
    if h.verdict == Skipped {
      var r := DrainList(h.world, ids[1..], resolve, h.steps);
      assert missing + ([ids[0]] + r.missing) == (missing + [ids[0]]) + r.missing;
    }
  }

  /** The body of the loop: resolve, compare, upgrade a legacy row, apply, acknowledge. */
  method HandleRow(store: Store, ledger: seq<EventRecord>, id: TargetId, resolution: Resolution, budget: nat)
    returns (file: seq<EventRecord>, verdict: Verdict, steps: nat)
    requires id in store.outbox
    modifies store
    ensures Handled(World(store.Contents(), file), steps, verdict)
        == Handle(World(old(store.Contents()), ledger), id, resolution, budget)
  {
    hide Project, Acknowledge, Enqueue;
    file, steps := ledger, budget;
    var row := store.outbox[id];
    var decoded := Decode(row.payload);
    if decoded.Err? || resolution.Throws? {
      return ledger, Refused, budget;
    }
    if resolution.SourceMissing? {
      return ledger, Skipped, budget;
    }
    var expected: Expectation;
    var canonical: Option<Expectation> := None;
    if resolution.Found? {
      var t := resolution.target;
      if !SameTarget(id, row, t) || !ValidExpectation(|t.events|, t.ids) {
        return ledger, Refused, budget;
      }
      expected := Expectation(t.events, t.ids);
      canonical := Some(expected);
      if DigestOf(t.events, t.ids) != row.payload.digest {
        if decoded.value.CanonicalV1? || Enqueue(store.Contents(), t).Err? {
          return ledger, Refused, budget;
        }
        if budget == 0 {
          return ledger, Stopped, 0;
        }
        var upgraded := store.EnqueueInTransaction(t);
        steps := budget - 1;
      }
    } else {
      if decoded.value.CanonicalV1? || TypedEvents(decoded.value.events).None? {
        return ledger, Refused, budget;
      }
      expected := Expectation(TypedEvents(decoded.value.events).value, decoded.value.ids);
    }
    var (applied, observed) := Project(id.kind, ledger, expected, steps);
    file := applied.ledger;
    if applied.outcome == OutOfSteps {
      return file, Stopped, 0;
    }
    steps := applied.steps;
    if observed.None? {
      return file, Refused, steps;
    }
    if steps == 0 {
      return file, Stopped, 0;
    }
    AcknowledgeEffect(store.Contents(), id, observed.value, canonical);
    var ok := store.AcknowledgeTarget(id, observed.value, canonical);
    if !ok {
      return file, Refused, steps;
    }
    return file, Acknowledged, steps - 1;
  }
}
