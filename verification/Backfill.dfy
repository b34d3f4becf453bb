/** The resumable kline pager (internal/marketdata/backfill.go:114-284). Fetches, store writes and job saves
    may fail at any point, a failed write may still have taken effect, and the process may die between steps. */
module Backfill {
  import opened Common
  import opened MarketData

  // The exchange ---------------------------------------------------------------------------------------------

  /** Open times the exchange has candles for: in order, and at least one step apart. */
  predicate Spaced(exchange: seq<Time>, step: int) {
    forall i, j :: 0 <= i < j < |exchange| ==> exchange[i] + step <= exchange[j]
  }

  function Between(exchange: seq<Time>, start: Time, end: Time): seq<Time> {
    if exchange == [] then []
    else (if start <= exchange[0] <= end then [exchange[0]] else []) + Between(exchange[1..], start, end)
  }

  /** A page: the first `limit` candles that open in [start, end], fewer only when there are no more. */
  function Page(exchange: seq<Time>, start: Time, end: Time, limit: nat): (page: seq<Time>)
    ensures |page| <= limit && page <= Between(exchange, start, end)
    ensures |page| < limit ==> page == Between(exchange, start, end)
  {
    var all := Between(exchange, start, end);
    if |all| <= limit then all else all[..limit]
  }

  lemma {:induction false} BetweenHolds(exchange: seq<Time>, start: Time, end: Time, t: Time)
    ensures t in Between(exchange, start, end) <==> t in exchange && start <= t <= end
    decreases |exchange|
  {
    if exchange != [] {
      BetweenHolds(exchange[1..], start, end, t);
      assert t in exchange <==> t == exchange[0] || t in exchange[1..];
    }
  }

  lemma {:induction false} BetweenSpaced(exchange: seq<Time>, step: int, start: Time, end: Time)
    requires step > 0 && Spaced(exchange, step)
    ensures Spaced(Between(exchange, start, end), step)
    decreases |exchange|
  {
    if exchange != [] {
      var tail := Between(exchange[1..], start, end);
      BetweenSpaced(exchange[1..], step, start, end);
      forall j | 0 <= j < |tail|
        ensures exchange[0] + step <= tail[j]
      {
        BetweenHolds(exchange[1..], start, end, tail[j]);
        var k :| 0 <= k < |exchange[1..]| && exchange[1..][k] == tail[j];
        SpacedPair(exchange, step, 0, k + 1);
      }
      SpacedAfter(exchange[0], tail, step);
    }
  }

  lemma SpacedAfter(first: Time, rest: seq<Time>, step: int)
    requires Spaced(rest, step) && forall j :: 0 <= j < |rest| ==> first + step <= rest[j]
    ensures Spaced([first] + rest, step) && Spaced([] + rest, step)
  {
  }

  /** A request asks for exactly what opens in its range, and gets it in order. */
  lemma BetweenExact(exchange: seq<Time>, step: int, start: Time, end: Time)
    requires step > 0 && Spaced(exchange, step)
    ensures var all := Between(exchange, start, end);
      (forall t :: t in all <==> t in exchange && start <= t <= end) && Spaced(all, step)
  {
    hide Between, Spaced;
    BetweenSpaced(exchange, step, start, end);
    forall t {
      BetweenHolds(exchange, start, end, t);
    }
  }

  /** After a page is stored the cursor can move past its last candle: nothing in between is skipped. */
  lemma PageLeavesNoHoles(exchange: seq<Time>, step: int, start: Time, end: Time, limit: nat)
    requires step > 0 && Spaced(exchange, step) && Page(exchange, start, end, limit) != []
    ensures var page := Page(exchange, start, end, limit);
      var next := page[|page| - 1] + step;
      && next > start
      && (forall t :: t in exchange && start <= t < next ==> t in page)
  {
    BetweenExact(exchange, step, start, end);
    var (all, page) := (Between(exchange, start, end), Page(exchange, start, end, limit));
    var last := page[|page| - 1];
    assert last in all;
    forall t | t in exchange && start <= t < last + step
      ensures t in page
    {
      var m := |page| - 1;
      if t <= end {
        var i :| 0 <= i < |all| && all[i] == t;
        if i > m {
          SpacedPair(all, step, m, i);
        }
        assert page[i] == t;
      } else {
        InOrder(exchange, step, last, t);
      }
    }
  }

  lemma SpacedPair(all: seq<Time>, step: int, i: int, j: int)
    requires Spaced(all, step) && 0 <= i < j < |all|
    ensures all[i] + step <= all[j]
  {
  }

  lemma InOrder(exchange: seq<Time>, step: int, a: Time, b: Time)
    requires Spaced(exchange, step) && a in exchange && b in exchange && a < b && step > 0
    ensures a + step <= b
  {
    var i :| 0 <= i < |exchange| && exchange[i] == a;
    var j :| 0 <= j < |exchange| && exchange[j] == b;
    if j < i {
      SpacedPair(exchange, step, j, i);
      assert false;
    }
    SpacedPair(exchange, step, i, j);
  }

  /** A page shorter than the limit means the range is exhausted. */
  lemma ShortPageExhausts(exchange: seq<Time>, step: int, start: Time, end: Time, limit: nat)
    requires step > 0 && Spaced(exchange, step) && |Page(exchange, start, end, limit)| < limit
    ensures forall t :: t in exchange && start <= t <= end ==> t in Page(exchange, start, end, limit)
  {
    BetweenExact(exchange, step, start, end);
  }

  // The job -------------------------------------------------------------------------------------------------------

  datatype JobStatus = Pending | Running | Failed | Completed

  datatype Job = Job(from: Time, to: Time, step: int, nextOpen: Time, status: JobStatus, inserted: int)

  datatype Outcome = Finished(job: Job) | FetchFailed | StoreFailed | SaveFailed | Died

  /** Every candle between the job's start and its cursor is stored; a completed job has its whole range. */
  predicate NoHoles(exchange: seq<Time>, store: set<Time>, job: Job) {
    && (forall t :: t in exchange && job.from <= t < job.nextOpen ==> t in store)
    && (job.status == Completed ==> forall t :: t in exchange && job.from <= t < job.to ==> t in store)
  }

  /** The next job differs from the last only in how far it has got. */
  predicate SameRange(a: Job, b: Job) {
    a.from == b.from && a.to == b.to && a.step == b.step
  }

  const MAX_ATTEMPTS := 3
  const MAX_PAGE := 1000

  class BackfillService {
    const exchange: seq<Time>
    /** Open times of the stored candles, and the job as last persisted. */
    var store: set<Time>
    var saved: Job
    /** How often a call to the outside has failed; no branch reads it. */
    ghost var faults: nat

    predicate Valid()
      reads this
    {
      saved.step > 0 && saved.from >= 0 && Spaced(exchange, saved.step) && NoHoles(exchange, store, saved)
    }

    /** Start: a job whose cursor is at its first instant. */
    constructor (exchange: seq<Time>, store: set<Time>, from: Time, to: Time, step: int)
      requires step > 0 && from >= 0 && Spaced(exchange, step)
      ensures Valid() && this.exchange == exchange && this.store == store
      ensures saved == Job(from, to, step, from, Pending, 0)
    {
      this.exchange := exchange;
      this.store := store;
      this.saved := Job(from, to, step, from, Pending, 0);
      this.faults := 0;
    }

    /** A save may fail before or after it takes effect. */
    method SaveJob(job: Job) returns (ok: bool)
      modifies this`saved, this`faults
      ensures saved == job || (!ok && saved == old(saved))
      ensures if ok then faults == old(faults) else faults > old(faults)
    {
      var lands: bool, replies: bool := *, *;
      if lands {
        saved := job;
      }
      ok := lands && replies;
      faults := if ok then faults else faults + 1;
    }

    /** Gives up only when every one of its attempts has failed. */
    method FetchWithRetry(start: Time, end: Time, limit: nat) returns (page: Option<seq<Time>>)
      modifies this`faults
      ensures page.Some? ==> page.value == Page(exchange, start, end, limit) && faults < old(faults) + MAX_ATTEMPTS
      ensures page.None? ==> faults == old(faults) + MAX_ATTEMPTS
      ensures faults >= old(faults)
    {
      var attempt := 1;
      while attempt <= MAX_ATTEMPTS
        invariant 1 <= attempt <= MAX_ATTEMPTS + 1 && faults == old(faults) + attempt - 1
      {
        var replies: bool := *;
        if replies {
          return Some(Page(exchange, start, end, limit));
        }
        faults := faults + 1;
        attempt := attempt + 1;
      }
      return None;
    }

    /** Upserts one candle after another; any of them may fail, with or without effect. */
    method StoreCandles(page: seq<Time>) returns (ok: bool)
      modifies this`store, this`faults
      ensures old(store) <= store <= old(store) + set i | 0 <= i < |page| :: page[i]
      ensures ok ==> forall i :: 0 <= i < |page| ==> page[i] in store
      ensures if ok then faults == old(faults) else faults > old(faults)
    {
      for i := 0 to |page|
        invariant old(store) <= store <= old(store) + set i | 0 <= i < |page| :: page[i]
        invariant forall k :: 0 <= k < i ==> page[k] in store
        invariant faults == old(faults)
      {
        var lands: bool, replies: bool := *, *;
        if lands {
          store := store + {page[i]};
        }
        if !(lands && replies) {
          faults := faults + 1;
          return false;
        }
      }
      return true;
    }

    /** Store a page and move the persisted cursor past it; a full page may not be the last. */
    method TakePage(job: Job, current: Time, limit: nat, page: seq<Time>) returns (advanced: Result<Job, Outcome>)
      requires Valid() && saved == job && job.status == Running && current >= job.nextOpen
      requires page == Page(exchange, current, job.to, limit) && page != []
      requires forall t :: t in exchange && job.from <= t < current ==> t in store
      modifies this
      ensures Valid() && SameRange(saved, job) && old(store) <= store && saved.nextOpen >= job.nextOpen
      ensures faults >= old(faults)
      ensures match advanced
        case Ok(next) =>
          && saved == next && next == job.(nextOpen := next.nextOpen, inserted := next.inserted)
          && next.nextOpen > current
          && (forall t :: t in exchange && job.from <= t < next.nextOpen ==> t in store)
          && (|page| < limit ==> forall t :: t in exchange && job.from <= t < job.to ==> t in store)
        case Err(outcome) => !outcome.Finished? && faults > old(faults)
    {
      hide Page, Spaced;
      var stored := StoreCandles(page);
      if !stored {
        FailJob(job);
        return Err(StoreFailed);
      }
      PageLeavesNoHoles(exchange, job.step, current, job.to, limit);
      if |page| < limit {
        ShortPageExhausts(exchange, job.step, current, job.to, limit);
      }
      var next := job.(inserted := job.inserted + |page|, nextOpen := page[|page| - 1] + job.step);
      var ok := SaveJob(next);
      return if ok then Ok(next) else Err(SaveFailed);
    }

    /** One run of the job, which is what both Start and Resume come to. However it ends, the stored candles
        have no hole below the persisted cursor; a run that finishes has stored the whole range; and a run that
        meets no fault finishes. */
    method RunJob(requested: int) returns (outcome: Outcome)
      requires Valid()
      modifies this
      ensures Valid() && SameRange(saved, old(saved)) && old(store) <= store
      ensures saved.nextOpen >= old(saved.nextOpen)
      ensures outcome.Finished? ==> saved == outcome.job && saved.status == Completed
      ensures outcome.Finished? ==> forall t :: t in exchange && saved.from <= t < saved.to ==> t in store
      ensures outcome.Finished? || faults > old(faults)
    {
      hide Page, Spaced;
      var job := saved;
      var limit: nat := if requested <= 0 || requested > MAX_PAGE then MAX_PAGE else requested;
      job := job.(status := Running);
      var ok := SaveJob(job);
      if !ok {
        return SaveFailed;
      }
      var current := job.nextOpen;
      if current == 0 || current < job.from {
        current := job.from;
      }
      var exhausted := false;
      while current < job.to && !exhausted
        invariant Valid() && SameRange(saved, old(saved)) && old(store) <= store
        invariant SameRange(job, saved) && saved == job && job.status == Running
        invariant current >= job.nextOpen >= old(saved.nextOpen)
        invariant forall t :: t in exchange && job.from <= t < current ==> t in store
        invariant exhausted ==> forall t :: t in exchange && current <= t < job.to ==> t in store
        invariant faults >= old(faults)
        decreases !exhausted, job.to - current
      {
        var dies: bool := *;
        if dies {
          faults := faults + 1;
          return Died;
        }
        var page := FetchWithRetry(current, job.to, limit);
        if page.None? {
          FailJob(job);
          return FetchFailed;
        }
        if |page.value| == 0 {
          ShortPageExhausts(exchange, job.step, current, job.to, limit);
          exhausted := true;
        } else {
          var advanced := TakePage(job, current, limit, page.value);
          if advanced.Err? {
            return advanced.error;
          }
          job := advanced.value;
          current := job.nextOpen;
          exhausted := |page.value| < limit;
        }
      }
      job := job.(status := Completed, nextOpen := if job.nextOpen == 0 then current else job.nextOpen);
      ok := SaveJob(job);
      if !ok {
        return SaveFailed;
      }
      return Finished(job);
    }

    /** failJob: persist the failure, ignoring whether that worked. */
    method FailJob(job: Job)
      requires Valid() && SameRange(job, saved) && NoHoles(exchange, store, job.(status := Failed))
      requires job.nextOpen >= saved.nextOpen
      modifies this`saved, this`faults
      ensures Valid() && SameRange(saved, old(saved)) && saved.nextOpen >= old(saved.nextOpen)
      ensures saved == old(saved) || saved == job.(status := Failed)
      ensures faults >= old(faults)
    {
      var ignored := SaveJob(job.(status := Failed));
    }
  }
}
