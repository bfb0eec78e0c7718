/**
 HQ's signed reminders: the rows that stop a captured request from being played
 again and a delivered event from being pushed twice.
 */
module HqNotifications {
  import opened Documents
  import opened Wrappers
  import opened CappedTable

  type Nonce = string
  type EventId = string

  const MAX_SKEW := 60.0
  const RETENTION := 300
  const MAX_NONCES := 1000
  const MAX_EVENTS := 1000
  const MAX_AUDIT := 500

  /** What HQ signed: the same three values in every replay. */
  datatype Signed = Signed(nonce: Nonce, timestamp: int, event: EventId)

  datatype Audit = Rejected(code: string, at: int) | Attempt(event: EventId, accepted: bool, at: int) | Duplicate(event: EventId, at: int)

  /** verify's clock check; the signature is taken as ideal. */
  predicate InSkew(timestamp: int, now: real) { -MAX_SKEW <= now - timestamp as real <= MAX_SKEW }

  function Unexpired(m: Rows, now: int): Rows { map n | n in m && m[n] >= now - RETENTION :: m[n] }

  function PrunedNonces(m: Rows, now: int): Rows { Capped(Unexpired(m, now), None, MAX_NONCES) }

  predicate Replayed(m: Rows, nonce: Nonce, now: int) { nonce in PrunedNonces(m, now) }

  function Reserved(m: Rows, nonce: Nonce, now: int): Rows {
    if Replayed(m, nonce, now) then PrunedNonces(m, now)
    else PrunedNonces(PrunedNonces(m, now)[nonce := now], now)
  }

  function Delivered(m: Rows, event: EventId, now: int): Rows { Capped(m[event := now], Some(event), MAX_EVENTS) }

  class Verifier {
    var nonces: Rows
    var events: Rows
    var audit: seq<Audit>

    constructor ()
      ensures nonces == map[] && events == map[] && audit == []
    {
      nonces, events, audit := map[], map[], [];
    }

    method PruneNonces(now: int)
      modifies `nonces
      ensures nonces == PrunedNonces(old(nonces), now)
    {
      var todo := nonces.Keys;
      var kept := nonces;
      while todo != {}
        invariant todo <= nonces.Keys && kept.Keys <= nonces.Keys
        invariant forall n :: n in nonces && n in todo ==> n in kept
        invariant forall n :: n in nonces && n !in todo ==> (n in kept <==> nonces[n] >= now - RETENTION)
        invariant forall n :: n in kept ==> kept[n] == nonces[n]
        decreases todo
      {
        var n :| n in todo;
        if nonces[n] < now - RETENTION {
          kept := kept - {n};
        }
        todo := todo - {n};
      }
      assert kept == Unexpired(nonces, now);
      nonces := CutToCap(kept, None, MAX_NONCES);
    }

    /** False for a replayed request. */
    method ReserveNonce(nonce: Nonce, now: int) returns (ok: bool)
      modifies `nonces
      ensures ok <==> !Replayed(old(nonces), nonce, now)
      ensures nonces == Reserved(old(nonces), nonce, now)
    {
      PruneNonces(now);
      if nonce in nonces {
        return false;
      }
      nonces := nonces[nonce := now];
      PruneNonces(now);
      return true;
    }

    method Previous(event: EventId) returns (known: bool)
      ensures known <==> event in events
    {
      return event in events;
    }

    method AppendAudit(row: Audit)
      modifies `audit
      ensures |audit| <= MAX_AUDIT || |audit| <= |old(audit)|
      ensures audit == if |old(audit)| < MAX_AUDIT then old(audit) + [row] else (old(audit) + [row])[|old(audit)| + 1 - MAX_AUDIT..]
    {
      var rows := audit + [row];
      audit := if |rows| <= MAX_AUDIT then rows else rows[|rows| - MAX_AUDIT..];
    }

    /** Only what the relay accepted is recorded against the event. */
    method RecordDelivery(event: EventId, accepted: bool, now: int)
      modifies this
      ensures nonces == old(nonces)
      ensures events == if accepted then Delivered(old(events), event, now) else old(events)
      ensures audit != [] && audit[|audit| - 1] == Attempt(event, accepted, now)
    {
      if accepted {
        events := CutToCap(events[event := now], Some(event), MAX_EVENTS);
      }
      AppendAudit(Attempt(event, accepted, now));
    }
  }

  // -- one row through one step -------------------------------------------------------------

  /** Pruning keeps an unexpired nonce with room in the table. */
  lemma NonceSurvives(m: Rows, n: Nonce, now: int)
    requires n in m && m[n] >= now - RETENTION && |Rivals(m, n)| < MAX_NONCES
    ensures var m' := PrunedNonces(m, now); n in m' && m'[n] == m[n] && Rivals(m', n) <= Rivals(m, n)
    ensures |Rivals(PrunedNonces(m, now), n)| <= |Rivals(m, n)|
  {
    var live := Unexpired(m, now);
    SubsetSize(Rivals(live, n), Rivals(m, n));
    FewRivalsKeep(live, None, MAX_NONCES, n);
    SubsetSize(Rivals(PrunedNonces(m, now), n), Rivals(m, n));
  }

  /** It is refused and stays; another nonce reserved meanwhile is at most one rival more. */
  lemma NonceHolds(m: Rows, n: Nonce, other: Nonce, now: int)
    requires n in m && m[n] >= now - RETENTION
    requires |Rivals(m, n)| + (if Replayed(m, other, now) then 0 else 1) < MAX_NONCES
    ensures Replayed(m, n, now)
    ensures var m' := Reserved(m, other, now);
      n in m' && m'[n] == m[n] && |Rivals(m', n)| <= |Rivals(m, n)| + (if Replayed(m, other, now) then 0 else 1)
  {
    NonceSurvives(m, n, now);
    if !Replayed(m, other, now) {
      var p := PrunedNonces(m, now);
      OneMoreRival(p, p[other := now], n, other, now);
      NonceSurvives(p[other := now], n, now);
    }
  }

  lemma EventHolds(m: Rows, e: EventId, other: EventId, now: int)
    requires e in m && |Rivals(m, e)| + 1 < MAX_EVENTS && other != e
    ensures var m' := Delivered(m, other, now);
      e in m' && m'[e] == m[e] && |Rivals(m', e)| <= |Rivals(m, e)| + 1
  {
    var more := m[other := now];
    OneMoreRival(m, more, e, other, now);
    FewRivalsKeep(more, Some(other), MAX_EVENTS, e);
    OneMoreRival(m, Delivered(m, other, now), e, other, now);
  }

  /** The event just recorded is never the one dropped, and at most 1000 are kept. */
  lemma JustRecordedStays(m: Rows, e: EventId, now: int)
    requires forall x :: x in m ==> m[x] <= now
    ensures var m' := Delivered(m, e, now); e in m' && m'[e] == now && |m'| <= MAX_EVENTS
  {
    KeptRowStays(m[e := now], e, MAX_EVENTS);
  }
}
