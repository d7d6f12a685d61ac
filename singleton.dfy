/** The cache-if-absent pattern shared by the MySQL and InfluxDB factories
    (`GetMysqlClient`, `GetInfluxDBClient`): a process-wide slot that is empty
    (`nil`) or holds a handle. An acquisition returns the cached handle without
    consulting its configuration; otherwise it runs an initialisation whose
    result is `Success(h)` or `Failure(e)`, and only a success fills the slot. */
module Singleton {
  import opened Wrappers

  /** The slot after one acquisition that produced `r`. */
  function Next<H, E>(cache: Option<H>, r: Result<H, E>): (after: Option<H>)
    ensures cache.Some? ==> after == cache
    ensures cache.None? && r.Failure? ==> after == None
    ensures cache.None? && r.Success? ==> after == Some(r.value)
  {
    match cache
    case Some(_) => cache
    case None => if r.Success? then Some(r.value) else None
  }

  /** An acquisition against a filled slot succeeds with the cached handle. */
  ghost predicate Serves<H, E>(cache: Option<H>, r: Result<H, E>) {
    cache.Some? ==> r == Success(cache.value)
  }

  /** `caches[i]` is the slot before the i-th acquisition, `rs[i]` what it returned. */
  ghost predicate IsRun<H, E>(caches: seq<Option<H>>, rs: seq<Result<H, E>>) {
    && |caches| == |rs| + 1
    && forall i :: 0 <= i < |rs| ==> Serves(caches[i], rs[i]) && caches[i + 1] == Next(caches[i], rs[i])
  }

  /** The handle of the first successful acquisition, if any. */
  function FirstSuccess<H, E>(rs: seq<Result<H, E>>): Option<H> {
    if rs == [] then None
    else if rs[0].Success? then Some(rs[0].value)
    else FirstSuccess(rs[1..])
  }

  /** Once an acquisition succeeds, that handle is cached and every later
      acquisition returns it, whatever configuration it was given. */
  lemma {:induction false} SuccessSticks<H, E>(caches: seq<Option<H>>, rs: seq<Result<H, E>>, i: nat, j: nat)
    requires IsRun(caches, rs)
    requires i <= j < |rs| && rs[i].Success?
    ensures rs[j] == rs[i]
    ensures caches[j + 1] == Some(rs[i].value)
    decreases j - i
  {
    if j > i {
      SuccessSticks(caches, rs, i, j - 1);
      assert caches[j] == Some(rs[i].value);
    } else {
      assert Serves(caches[i], rs[i]);
    }
  }

  /** Starting from an empty slot, failed acquisitions leave it empty and the
      slot ends up holding exactly the first successful handle. */
  lemma {:induction false} CacheIsFirstSuccess<H, E>(caches: seq<Option<H>>, rs: seq<Result<H, E>>)
    requires IsRun(caches, rs) && caches[0] == None
    ensures caches[|rs|] == FirstSuccess(rs)
    decreases |rs|
  {
    if rs == [] {
    } else if rs[0].Success? {
      SuccessSticks(caches, rs, 0, |rs| - 1);
    } else {
      assert caches[1] == None;
      assert IsRun(caches[1..], rs[1..]) by {
        forall i | 0 <= i < |rs| - 1
          ensures Serves(caches[1..][i], rs[1..][i]) && caches[1..][i + 1] == Next(caches[1..][i], rs[1..][i])
        {
          assert caches[1..][i] == caches[i + 1] && caches[1..][i + 1] == caches[i + 2] && rs[1..][i] == rs[i + 1];
        }
      }
      CacheIsFirstSuccess(caches[1..], rs[1..]);
    }
  }
}
