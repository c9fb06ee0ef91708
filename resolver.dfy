/** `find_ledger_at` (check_today.py): estimate-and-correct towards the
    ledger closing at a target instant, starting from the current ledger
    and assuming one ledger per 3.5 seconds. The RPC call
    `xrpl_rpc("ledger", {"ledger_index": est_seq, ...})` is the oracle
    `fetch`; times are whole Unix seconds. */
module Resolver {
  import opened Py
  import opened LedgerParse

  /** `for attempt in range(4)` */
  const Attempts: nat := 4

  /** A correction smaller than this in absolute value stops the search. */
  const Tolerance: int := 5

  /** `int(seconds / 3.5)`: the number of ledgers expected to close in a
      whole number of seconds, rounded toward zero. */
  function LedgersIn(seconds: int): int
  {
    TruncDiv(2 * seconds, 7)
  }

  lemma LedgersInIsTrunc(seconds: int)
    ensures LedgersIn(seconds) == Trunc(seconds as real / 3.5)
  {
    TruncDivIsTrunc(2 * seconds, 7);
    assert (2 * seconds) as real / 7 as real == seconds as real / 3.5;
  }

  /** Example of `LedgersInIsTrunc` on three offsets: rounding is toward
      zero, not toward negative infinity, so a target six seconds before a
      ledger moves the estimate back by one ledger, not two. */
  lemma LedgersInRoundsTowardZero()
    ensures LedgersIn(-6) == -1 && LedgersIn(6) == 1
    ensures LedgersIn(-3) == 0
  {
  }

  /** What one attempt at estimate `est` yields: an exception (from
      `parse_ledger`, or from `target_utc - None` when the ledger has no
      close time), no ledger, or a ledger and the correction it implies. */
  datatype Probe = Crashed | Missing | Landed(snapshot: Snapshot, correction: int)

  function ProbeAt(target: int, fetch: int -> Option<map<string, Value>>, est: int): Probe
  {
    match ParseLedger(fetch(est))
    case Raised => Crashed
    case Returned(None) => Missing
    case Returned(Some(s)) =>
      if s.time.None? then Crashed else Landed(s, LedgersIn(target - s.time.value))
  }

  predicate Converged(p: Probe)
  {
    p.Landed? && Abs(p.correction) < Tolerance
  }

  /** One attempt per estimate, for a given target and oracle. */
  function Prober(target: int, fetch: int -> Option<map<string, Value>>): int -> Probe
  {
    est => ProbeAt(target, fetch, est)
  }

  /** The search from estimate `est` with `left` attempts remaining. */
  function SearchFrom(probe: int -> Probe, est: int, left: nat): Outcome<Option<Snapshot>>
    requires left >= 1
    decreases left
  {
    match probe(est)
    case Crashed => Raised
    case Missing => Returned(None)
    case Landed(s, c) =>
      if Abs(c) < Tolerance || left == 1 then Returned(Some(s))
      else SearchFrom(probe, est + c, left - 1)
  }

  /** `current_seq + int(diff_s / 3.5)` */
  function InitialEstimate(target: int, currentSeq: int, currentTime: int): int
  {
    currentSeq + LedgersIn(target - currentTime)
  }

  function Search(target: int, currentSeq: int, currentTime: int,
                  fetch: int -> Option<map<string, Value>>): Outcome<Option<Snapshot>>
  {
    SearchFrom(Prober(target, fetch), InitialEstimate(target, currentSeq, currentTime), Attempts)
  }

  /** The estimates fetched, in order, from `est` with `left` attempts remaining. */
  function ProbesFrom(probe: int -> Probe, est: int, left: nat): (ps: seq<int>)
    ensures |ps| <= left && (left >= 1 ==> |ps| >= 1 && ps[0] == est)
    decreases left
  {
    if left == 0 then []
    else
      var p := probe(est);
      [est] + (if p.Landed? && Abs(p.correction) >= Tolerance
               then ProbesFrom(probe, est + p.correction, left - 1)
               else [])
  }

  function Probes(target: int, currentSeq: int, currentTime: int,
                  fetch: int -> Option<map<string, Value>>): seq<int>
  {
    ProbesFrom(Prober(target, fetch), InitialEstimate(target, currentSeq, currentTime), Attempts)
  }

  /** `find_ledger_at(target_utc, current_seq, current_time_utc)` */
  method FindLedgerAt(target: int, currentSeq: int, currentTime: int,
                      fetch: int -> Option<map<string, Value>>)
    returns (r: Outcome<Option<Snapshot>>)
    ensures r == Search(target, currentSeq, currentTime, fetch)
  {
    ghost var probe := Prober(target, fetch);
    var est := currentSeq + LedgersIn(target - currentTime);
    var info: Option<Snapshot> := None;
    var attempt := 0;
    while attempt < Attempts
      invariant 0 <= attempt <= Attempts
      invariant attempt < Attempts ==>
        SearchFrom(probe, est, Attempts - attempt) == Search(target, currentSeq, currentTime, fetch)
      invariant attempt == Attempts ==> Returned(info) == Search(target, currentSeq, currentTime, fetch)
    {
      var parsed := ParseLedger(fetch(est));
      assert probe(est) == ProbeAt(target, fetch, est);
      if parsed.Raised? {
        return Raised;
      }
      info := parsed.value;
      if info.None? {
        break;
      }
      if info.value.time.None? {
        // `target_utc - info["time"]` with a missing close time
        return Raised;
      }
      var correction := LedgersIn(target - info.value.time.value);
      if Abs(correction) < Tolerance {
        return Returned(info);
      }
      est := est + correction;
      attempt := attempt + 1;
    }
    return Returned(info);
  }

  // ---------------------------------------------------------------------
  // What the search promises
  // ---------------------------------------------------------------------

  /** At most `left` ledgers are fetched, the first at `est`, and each later
      estimate is the previous one moved by the previous correction, which
      was at least the tolerance. */
  lemma {:induction false} ProbesChainFrom(probe: int -> Probe, est: int, left: nat)
    requires left >= 1
    ensures var ps := ProbesFrom(probe, est, left);
      1 <= |ps| <= left && ps[0] == est &&
      forall i | 0 <= i < |ps| - 1 ::
        probe(ps[i]).Landed? &&
        Abs(probe(ps[i]).correction) >= Tolerance &&
        ps[i + 1] == ps[i] + probe(ps[i]).correction
    decreases left
  {
    var p := probe(est);
    if p.Landed? && Abs(p.correction) >= Tolerance && left > 1 {
      ProbesChainFrom(probe, est + p.correction, left - 1);
    }
  }

  /** How the outcome `r` of a search follows from the last attempt `last`:
      an exception there propagates, a failed parse gives `None`, and a
      snapshot is returned only if it converged or `allUsed` (it was the last
      attempt allowed). */
  predicate DecidedBy(r: Outcome<Option<Snapshot>>, last: Probe, allUsed: bool)
  {
    match last
    case Crashed => r == Raised
    case Missing => r == Returned(None)
    case Landed(s, c) => r == Returned(Some(s)) && (Abs(c) < Tolerance || allUsed)
  }

  /** The result is decided by the last ledger fetched: an exception there
      propagates, a failed parse gives `None` (discarding every earlier
      snapshot), and otherwise that last snapshot is returned, whether it
      converged or is merely the last of the attempts (it is not the
      closest one seen). */
  lemma {:induction false} ResultIsLastProbeFrom(probe: int -> Probe, est: int, left: nat)
    requires left >= 1
    ensures DecidedByLast(probe, est, left)
    decreases left
  {
    var p := probe(est);
    if p.Landed? && Abs(p.correction) >= Tolerance && left > 1 {
      ResultIsLastProbeFrom(probe, est + p.correction, left - 1);
      MovedOn(probe, est, left);
    } else {
      StoppedAt(probe, est, left);
    }
  }

  /** The outcome of the search from `est` follows from its last attempt. */
  predicate DecidedByLast(probe: int -> Probe, est: int, left: nat)
    requires left >= 1
  {
    var ps := ProbesFrom(probe, est, left);
    DecidedBy(SearchFrom(probe, est, left), probe(ps[|ps| - 1]), |ps| == left)
  }

  /** One step of the search that does not stop: the fetch at `est` landed
      off by at least the tolerance with attempts left, so the search goes
      on from the corrected estimate, fetches the same last ledger and
      returns what the rest of the search returns. */
  lemma MovedOn(probe: int -> Probe, est: int, left: nat)
    requires left > 1 && probe(est).Landed? && Abs(probe(est).correction) >= Tolerance
    requires DecidedByLast(probe, est + probe(est).correction, left - 1)
    ensures DecidedByLast(probe, est, left)
  {
    var next := est + probe(est).correction;
    var ps, tail := ProbesFrom(probe, est, left), ProbesFrom(probe, next, left - 1);
    assert ps == [est] + tail;
    assert |ps| == |tail| + 1 && ps[|ps| - 1] == tail[|tail| - 1];
    assert SearchFrom(probe, est, left) == SearchFrom(probe, next, left - 1);
  }

  /** One step of the search that stops: `est` is the last ledger fetched,
      and its attempt decides the outcome. */
  lemma StoppedAt(probe: int -> Probe, est: int, left: nat)
    requires left >= 1
    requires !(probe(est).Landed? && Abs(probe(est).correction) >= Tolerance && left > 1)
    ensures DecidedByLast(probe, est, left)
  {
    assert ProbesFrom(probe, est, left) == [est];
  }

  /** The search reads the oracle only at the estimates it fetches: any
      oracle that answers the same there gives the same estimates and the
      same result. */
  lemma {:induction false} ReadsOnlyProbesFrom(probe: int -> Probe, other: int -> Probe,
                                               est: int, left: nat)
    requires left >= 1
    requires forall e | e in ProbesFrom(probe, est, left) :: other(e) == probe(e)
    ensures ProbesFrom(other, est, left) == ProbesFrom(probe, est, left)
    ensures SearchFrom(other, est, left) == SearchFrom(probe, est, left)
    decreases left
  {
    var p := probe(est);
    assert other(est) == p by {
      assert est in ProbesFrom(probe, est, left);
    }
    if p.Landed? && Abs(p.correction) >= Tolerance && left > 1 {
      var next := est + p.correction;
      var tail := ProbesFrom(probe, next, left - 1);
      assert ProbesFrom(probe, est, left) == [est] + tail;
      assert forall e | e in tail :: other(e) == probe(e) by {
        assert forall e | e in tail :: e in [est] + tail;
      }
      ReadsOnlyProbesFrom(probe, other, next, left - 1);
    }
  }

  /** `find_ledger_at` fetches at most four ledgers, the first at
      `current_seq + int(diff_s / 3.5)` and each later one moved by the
      previous correction; it returns the first snapshot whose correction
      is below the tolerance, or else the fourth snapshot; a failed parse
      at any attempt gives `None`. */
  lemma SearchContract(target: int, currentSeq: int, currentTime: int,
                       fetch: int -> Option<map<string, Value>>)
    ensures var ps := Probes(target, currentSeq, currentTime, fetch);
      var last := ProbeAt(target, fetch, ps[|ps| - 1]);
      var r := Search(target, currentSeq, currentTime, fetch);
      && 1 <= |ps| <= 4
      && ps[0] == currentSeq + Trunc((target - currentTime) as real / 3.5)
      && (forall i | 0 <= i < |ps| - 1 ::
            ProbeAt(target, fetch, ps[i]).Landed? && !Converged(ProbeAt(target, fetch, ps[i])) &&
            ps[i + 1] == ps[i] + ProbeAt(target, fetch, ps[i]).correction)
      && (r == Raised <==> last.Crashed?)
      && (r == Returned(None) <==> last.Missing?)
      && (last.Landed? ==> r == Returned(Some(last.snapshot)) && (Converged(last) || |ps| == 4))
  {
    var est := InitialEstimate(target, currentSeq, currentTime);
    var probe := Prober(target, fetch);
    LedgersInIsTrunc(target - currentTime);
    ProbesChainFrom(probe, est, Attempts);
    ResultIsLastProbeFrom(probe, est, Attempts);
  }

  /** Nothing but the ledgers `find_ledger_at` fetched affects its result. */
  lemma SearchReadsOnlyProbes(target: int, currentSeq: int, currentTime: int,
                              fetch: int -> Option<map<string, Value>>,
                              other: int -> Option<map<string, Value>>)
    requires forall e | e in Probes(target, currentSeq, currentTime, fetch) :: other(e) == fetch(e)
    ensures Search(target, currentSeq, currentTime, other) == Search(target, currentSeq, currentTime, fetch)
  {
    var est := InitialEstimate(target, currentSeq, currentTime);
    var probe, otherProbe := Prober(target, fetch), Prober(target, other);
    forall e | e in ProbesFrom(probe, est, Attempts) ensures otherProbe(e) == probe(e) {
      assert other(e) == fetch(e);
    }
    ReadsOnlyProbesFrom(probe, otherProbe, est, Attempts);
  }

  /** Example of one search. Reference ledger 1000 closed at `t`, target
      `t + 350`: the first estimate is ledger 1100; if that ledger closed
      at `t + 360`, the correction is `int(-10 / 3.5) == -2`, inside the
      tolerance, so the search stops there. */
  lemma WorkedExample(t: int, fetch: int -> Option<map<string, Value>>, s: Snapshot)
    requires ParseLedger(fetch(1100)) == Returned(Some(s))
    requires s.time == Some(t + 360)
    ensures InitialEstimate(t + 350, 1000, t) == 1100
    ensures Search(t + 350, 1000, t, fetch) == Returned(Some(s))
  {
    assert LedgersIn(350) == 100;
    assert LedgersIn(-10) == -2;
  }
}
