/**
 The per-peer limit on HQ requests: recent request times in a queue per peer,
 pruned as it goes, against the plain definition over everything that happened.
 */
module RateLimiter {

  const LIMIT := 30
  const WINDOW := 60.0
  const MAX_PEERS := 512

  type Peer = string

  datatype Request = Request(peer: Peer, at: real)

  /** Decided: a request and whether it was let in. */
  datatype Decided = Decided(req: Request, admitted: bool)

  /** Times at which this peer was let in, oldest first. */
  function AdmittedTimes(history: seq<Decided>, peer: Peer): seq<real> {
    if history == [] then []
    else
      var last := history[|history| - 1];
      AdmittedTimes(history[..|history| - 1], peer) + (if last.req.peer == peer && last.admitted then [last.req.at] else [])
  }

  /** How many of these times are within the window ending at now. */
  function InWindow(times: seq<real>, now: real): nat {
    if times == [] then 0
    else InWindow(times[..|times| - 1], now) + (if times[|times| - 1] > now - WINDOW then 1 else 0)
  }

  /** The rule: refuse exactly when 30 of the peer's own requests were let in during the last 60 seconds. */
  predicate Refuses(history: seq<Decided>, req: Request) { InWindow(AdmittedTimes(history, req.peer), req.at) >= LIMIT }

  predicate InOrder(times: seq<real>) { forall i, k :: 0 <= i < k < |times| ==> times[i] <= times[k] }

  predicate AllBy(times: seq<real>, now: real) { forall i :: 0 <= i < |times| ==> times[i] <= now }

  /** The clock never goes back. */
  predicate Ordered(history: seq<Decided>, now: real) {
    && (forall i, k :: 0 <= i < k < |history| ==> history[i].req.at <= history[k].req.at)
    && (forall i :: 0 <= i < |history| ==> history[i].req.at <= now)
  }

  lemma {:induction false} AdmittedInOrder(history: seq<Decided>, peer: Peer, now: real)
    requires Ordered(history, now)
    ensures InOrder(AdmittedTimes(history, peer)) && AllBy(AdmittedTimes(history, peer), now)
  {
    if history != [] { AdmittedInOrder(history[..|history| - 1], peer, history[|history| - 1].req.at); }
  }

  /** Dropping a stale front leaves the count alone, now and at any later time. */
  lemma {:induction false} DropStale(times: seq<real>, k: nat, now: real)
    requires k <= |times| && forall i :: 0 <= i < k ==> times[i] <= now - WINDOW
    ensures InWindow(times[k..], now) == InWindow(times, now)
    decreases |times|
  {
    if k < |times| {
      var init := times[..|times| - 1];
      assert times[k..][..|times[k..]| - 1] == init[k..];
      assert times[k..][|times[k..]| - 1] == times[|times| - 1];
      DropStale(init, k, now);
    } else {
      assert times[k..] == [];
      AllStale(times, now);
    }
  }

  lemma {:induction false} AllStale(times: seq<real>, now: real)
    requires forall i :: 0 <= i < |times| ==> times[i] <= now - WINDOW
    ensures InWindow(times, now) == 0
  {
    if times != [] { AllStale(times[..|times| - 1], now); }
  }

  lemma {:induction false} AllFreshCount(times: seq<real>, now: real)
    requires forall i :: 0 <= i < |times| ==> times[i] > now - WINDOW
    ensures InWindow(times, now) == |times|
  {
    if times != [] { AllFreshCount(times[..|times| - 1], now); }
  }

  /** The queue holds the end of what was let in; what it lacks is out of every window from now on. */
  ghost predicate Mirrors(queue: seq<real>, times: seq<real>, now: real) {
    |queue| <= |times| && queue == times[|times| - |queue|..]
    && forall i :: 0 <= i < |times| - |queue| ==> times[i] <= now - WINDOW
  }

  lemma MirrorPops(queue: seq<real>, times: seq<real>, now: real)
    requires Mirrors(queue, times, now) && queue != [] && queue[0] <= now - WINDOW
    ensures Mirrors(queue[1..], times, now)
  {
    assert queue[0] == times[|times| - |queue|];
  }

  lemma MirrorLater(queue: seq<real>, times: seq<real>, now: real, later: real)
    requires Mirrors(queue, times, now) && now <= later
    ensures Mirrors(queue, times, later)
  {}

  lemma MirrorCounts(queue: seq<real>, times: seq<real>, now: real)
    requires Mirrors(queue, times, now) && forall i :: 0 <= i < |queue| ==> queue[i] > now - WINDOW
    ensures InWindow(times, now) == |queue|
  {
    DropStale(times, |times| - |queue|, now);
    AllFreshCount(queue, now);
  }

  /** Forgetting a peer whose last request is out of the window. */
  lemma MirrorForgets(queue: seq<real>, times: seq<real>, now: real)
    requires Mirrors(queue, times, now) && InOrder(times) && (queue == [] || queue[|queue| - 1] <= now - WINDOW)
    ensures Mirrors([], times, now)
  {
    forall i | 0 <= i < |times| ensures times[i] <= now - WINDOW {
      if queue != [] { assert times[|times| - 1] == queue[|queue| - 1]; }
    }
  }

  lemma MirrorPushes(queue: seq<real>, times: seq<real>, now: real)
    requires Mirrors(queue, times, now)
    ensures Mirrors(queue + [now], times + [now], now)
  {
    var more := times + [now];
    assert queue + [now] == more[|more| - |queue| - 1..];
  }

  /** Pops the front while it is out of the window. */
  method PopStale(attempts: seq<real>, now: real, ghost times: seq<real>) returns (queue: seq<real>)
    requires Mirrors(attempts, times, now) && InOrder(times)
    ensures Mirrors(queue, times, now) && forall i :: 0 <= i < |queue| ==> queue[i] > now - WINDOW
  {
    queue := attempts;
    while queue != [] && queue[0] <= now - WINDOW
      invariant Mirrors(queue, times, now)
      decreases |queue|
    {
      MirrorPops(queue, times, now);
      queue := queue[1..];
    }
    FrontIsFresh(queue, times, now);
  }

  class Limiter {
    var attempts: map<Peer, seq<real>>
    ghost var history: seq<Decided>
    ghost var clock: real

    ghost function Queue(peer: Peer): seq<real>
      reads this
    {
      if peer in attempts then attempts[peer] else []
    }

    ghost predicate Valid()
      reads this
    {
      Ordered(history, clock) && forall p :: Mirrors(Queue(p), AdmittedTimes(history, p), clock)
    }

    constructor ()
      ensures Valid() && history == []
    {
      attempts := map[];
      history := [];
      clock := 0.0;
    }

    /** Refuses by the rule over the whole history, and keeps to it. */
    method RateLimited(peer: Peer, now: real) returns (limited: bool)
      requires Valid() && now >= clock
      modifies this
      ensures Valid() && clock == now
      ensures limited <==> Refuses(old(history), Request(peer, now))
      ensures history == old(history) + [Decided(Request(peer, now), !limited)]
    {
      hide Mirrors, InWindow, AdmittedTimes, Ordered, InOrder, AllBy;
      ghost var times := AdmittedTimes(history, peer);
      AdmittedInOrder(history, peer, clock);
      MirrorLater(Queue(peer), times, clock, now);
      var queue := PopStale(if peer in attempts then attempts[peer] else [], now, times);
      MirrorCounts(queue, times, now);
      Extends(history, Request(peer, now), |queue| < LIMIT, clock);
      history := history + [Decided(Request(peer, now), |queue| < LIMIT)];
      if |queue| >= LIMIT {
        attempts := attempts[peer := queue];
        Restore(peer, queue, now);
        return true;
      }
      MirrorPushes(queue, times, now);
      attempts := attempts[peer := queue + [now]];
      Restore(peer, queue + [now], now);
      if |attempts| > MAX_PEERS {
        ForgetIdle(now);
      }
      return false;
    }

    /** Drops peers without a request in the window. */
    method ForgetIdle(now: real)
      requires Valid() && clock == now
      modifies `attempts
      ensures Valid()
    {
      hide InOrder, AllBy, Ordered, AdmittedTimes, Mirrors;
      var todo := attempts.Keys;
      while todo != {}
        invariant Valid() && todo <= attempts.Keys
        decreases todo
      {
        var p :| p in todo;
        if attempts[p] == [] || attempts[p][|attempts[p]| - 1] <= now - WINDOW {
          AdmittedInOrder(history, p, clock);
          MirrorForgets(attempts[p], AdmittedTimes(history, p), now);
          attempts := attempts - {p};
        }
        todo := todo - {p};
      }
    }

    /** One decision made: the clock moves and the peer's queue is the new one. */
    ghost method Restore(peer: Peer, queue: seq<real>, now: real)
      requires history != [] && Ordered(history, now) && now >= clock
      requires peer in attempts && attempts[peer] == queue
      requires Mirrors(queue, AdmittedTimes(history, peer), now)
      requires forall p :: p != peer ==> Mirrors(Queue(p), AdmittedTimes(history, p), clock)
      modifies `clock
      ensures Valid() && clock == now
    {
      forall p | p != peer ensures Mirrors(Queue(p), AdmittedTimes(history, p), now) {
        MirrorLater(Queue(p), AdmittedTimes(history, p), clock, now);
      }
      clock := now;
    }
  }

  lemma FrontIsFresh(queue: seq<real>, times: seq<real>, now: real)
    requires Mirrors(queue, times, now) && InOrder(times) && (queue == [] || queue[0] > now - WINDOW)
    ensures forall i :: 0 <= i < |queue| ==> queue[i] > now - WINDOW
  {
    forall i | 0 <= i < |queue| ensures queue[i] > now - WINDOW {
      assert queue[i] == times[|times| - |queue| + i] && queue[0] == times[|times| - |queue|];
    }
  }

  lemma Extends(history: seq<Decided>, req: Request, admitted: bool, clock: real)
    requires Ordered(history, clock) && clock <= req.at
    ensures var more := history + [Decided(req, admitted)];
      && Ordered(more, req.at)
      && (forall p :: p != req.peer || !admitted ==> AdmittedTimes(more, p) == AdmittedTimes(history, p))
      && (admitted ==> AdmittedTimes(more, req.peer) == AdmittedTimes(history, req.peer) + [req.at])
  {
    var more := history + [Decided(req, admitted)];
    assert more[..|more| - 1] == history;
  }

  /** The peer's requests let in during the 60 seconds before now. */
  function LetIn(history: seq<Decided>, peer: Peer, now: real): set<int> {
    set i | 0 <= i < |history| && history[i].req.peer == peer && history[i].admitted && history[i].req.at > now - 60.0
  }

  lemma {:induction false} WindowCounts(history: seq<Decided>, peer: Peer, now: real)
    ensures InWindow(AdmittedTimes(history, peer), now) == |LetIn(history, peer, now)|
  {
    hide AdmittedTimes, InWindow;
    if history == [] {
      NothingAdmitted(peer, now);
      assert LetIn(history, peer, now) == {};
    } else {
      var init, last := history[..|history| - 1], history[|history| - 1];
      WindowCounts(init, peer, now);
      AdmittedStep(history, peer);
      WindowAdds(AdmittedTimes(init, peer), last.req.at, now);
      LetInAdds(history, peer, now);
      hide LetIn;
    }
  }

  lemma LetInAdds(history: seq<Decided>, peer: Peer, now: real)
    requires history != []
    ensures var n := |history| - 1;
      |LetIn(history, peer, now)| == |LetIn(history[..n], peer, now)|
        + (if history[n].req.peer == peer && history[n].admitted && history[n].req.at > now - 60.0 then 1 else 0)
  {
    var n := |history| - 1;
    var before := LetIn(history[..n], peer, now);
    assert n !in before;
    if history[n].req.peer == peer && history[n].admitted && history[n].req.at > now - 60.0 {
      assert LetIn(history, peer, now) == before + {n};
    } else {
      assert LetIn(history, peer, now) == before;
    }
  }

  lemma WindowAdds(times: seq<real>, x: real, now: real)
    ensures InWindow(times + [x], now) == InWindow(times, now) + (if x > now - 60.0 then 1 else 0)
  {
    assert (times + [x])[..|times + [x]| - 1] == times;
  }

  /** The rule counts requests: 30 let in during the last 60 seconds and no more. */
  lemma RefusesExactly(history: seq<Decided>, req: Request)
    ensures Refuses(history, req) <==> |LetIn(history, req.peer, req.at)| >= 30
  {
    WindowCounts(history, req.peer, req.at);
  }

  // -- what the rule guarantees -----------------------------------------------------

  /** Every decision was the rule's. */
  predicate ByTheRule(history: seq<Decided>) {
    history == []
    || (var init, last := history[..|history| - 1], history[|history| - 1];
        ByTheRule(init) && (last.admitted <==> !Refuses(init, last.req)))
  }

  lemma {:induction false} WindowMovesOn(times: seq<real>, now: real, later: real)
    requires now <= later
    ensures InWindow(times, later) <= InWindow(times, now)
  {
    if times != [] { WindowMovesOn(times[..|times| - 1], now, later); }
  }

  lemma AdmittedStep(history: seq<Decided>, peer: Peer)
    requires history != []
    ensures var init, last := history[..|history| - 1], history[|history| - 1];
      AdmittedTimes(history, peer)
        == (if last.req.peer == peer && last.admitted then AdmittedTimes(init, peer) + [last.req.at] else AdmittedTimes(init, peer))
  {
    hide AdmittedTimes;
    Unfold(history, peer);
  }

  lemma Unfold(history: seq<Decided>, peer: Peer)
    requires history != []
    ensures AdmittedTimes(history, peer) == AdmittedTimes(history[..|history| - 1], peer)
      + (if history[|history| - 1].req.peer == peer && history[|history| - 1].admitted then [history[|history| - 1].req.at] else [])
  {}

  lemma WindowStep(times: seq<real>, x: real, now: real)
    ensures InWindow(times + [x], now) <= InWindow(times, now) + 1
  {
    assert (times + [x])[..|times + [x]| - 1] == times;
  }

  /** No peer ever has more than 30 requests let in within 60 seconds. */
  lemma {:induction false} RateIsBounded(history: seq<Decided>, peer: Peer, now: real)
    requires Ordered(history, now) && ByTheRule(history)
    ensures InWindow(AdmittedTimes(history, peer), now) <= LIMIT
  {
    hide AdmittedTimes, InWindow;
    if history == [] {
      NothingAdmitted(peer, now);
    } else {
      var init, last := history[..|history| - 1], history[|history| - 1];
      RateIsBounded(init, peer, last.req.at);
      AdmittedStep(history, peer);
      WindowStep(AdmittedTimes(init, peer), last.req.at, last.req.at);
      WindowMovesOn(AdmittedTimes(history, peer), last.req.at, now);
    }
  }

  lemma NothingAdmitted(peer: Peer, now: real)
    ensures InWindow(AdmittedTimes([], peer), now) == 0
  {}
}
