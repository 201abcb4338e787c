/** The rest between two submissions to one SMTP host. */
module Pacer {
  import opened Tables

  /** When the next submission to a host may start; None means now. */
  function ReadyAt(last: map<string, int>, interval: int, host: string, now: int): Option<int> {
    if interval <= 0 || host !in last || last[host] + interval <= now then None else Some(last[host] + interval)
  }

  /** The register; `normal` is the trimming and lower-casing of host names. */
  class SendPacer {
    const interval: int
    const normal: string -> string
    var last: map<string, int>

    constructor (interval: int, normal: string -> string)
      ensures this.interval == interval && this.normal == normal && last == map[]
    {
      this.interval := interval;
      this.normal := normal;
      last := map[];
    }

    method Ready(host: string, now: int) returns (until: Option<int>)
      ensures until == ReadyAt(last, interval, normal(host), now)
    {
      var key := normal(host);
      if interval <= 0 {
        return None;
      }
      if key !in last {
        return None;
      }
      var ready := last[key] + interval;
      if now < ready {
        return Some(ready);
      }
      return None;
    }

    /** Stamps a finished submission, failed ones included. */
    method Record(host: string, now: int)
      modifies `last
      ensures last == old(last)[normal(host) := now]
    {
      last := last[normal(host) := now];
    }
  }

  // ---------- runs of one worker ----------

  /** One submission to a host in its normal form: admitted by ReadyAt at its start, recorded at its finish. */
  datatype Attempt = Attempt(host: string, start: int, finish: int)

  /** The register after a sequence of submissions. */
  function Register(attempts: seq<Attempt>): map<string, int> {
    if attempts == [] then map[]
    else Register(attempts[..|attempts| - 1])[attempts[|attempts| - 1].host := attempts[|attempts| - 1].finish]
  }

  predicate InTime(attempts: seq<Attempt>) {
    forall i :: 0 <= i < |attempts| ==> attempts[i].start <= attempts[i].finish
  }

  predicate OneByOne(attempts: seq<Attempt>) {
    forall i, j :: 0 <= i < j < |attempts| ==> attempts[i].finish <= attempts[j].start
  }

  /** Submission i was admitted by the register its predecessors left. */
  predicate Admitted(attempts: seq<Attempt>, interval: int, i: nat)
    requires i < |attempts|
  {
    ReadyAt(Register(attempts[..i]), interval, attempts[i].host, attempts[i].start).None?
  }

  /** A run of one worker with a clock that never goes back: each submission starts after the previous one finished and
      only when its host is ready. */
  predicate Paced(attempts: seq<Attempt>, interval: int) {
    InTime(attempts) && OneByOne(attempts) && forall i :: 0 <= i < |attempts| ==> Admitted(attempts, interval, i)
  }

  /** The submissions to one host. */
  function ToHost(attempts: seq<Attempt>, host: string): (own: seq<Attempt>)
    ensures |own| <= |attempts|
  {
    if attempts == [] then []
    else
      var front, a := ToHost(attempts[..|attempts| - 1], host), attempts[|attempts| - 1];
      if a.host == host then front + [a] else front
  }

  /** The register of a host shows the latest of its own submissions. */
  lemma {:induction false} RegisterShows(attempts: seq<Attempt>, host: string)
    ensures var own := ToHost(attempts, host);
      && (host in Register(attempts) <==> own != [])
      && (own != [] ==> Register(attempts)[host] == own[|own| - 1].finish)
  {
    if attempts != [] {
      RegisterShows(attempts[..|attempts| - 1], host);
    }
  }

  /** A host is ready exactly when pacing is off, nothing was submitted to it, or its last submission finished at least
      the interval ago; otherwise it is ready after the rest of the interval. */
  lemma ReadyExactly(attempts: seq<Attempt>, interval: int, host: string, now: int)
    ensures var own, until := ToHost(attempts, host), ReadyAt(Register(attempts), interval, host, now);
      && (until.None? <==> interval <= 0 || own == [] || now - own[|own| - 1].finish >= interval)
      && (until.Some? ==> own != [] && until.value == own[|own| - 1].finish + interval && now < until.value)
  {
    RegisterShows(attempts, host);
  }

  /** Submissions to other hosts do not delay a host: it is ready when it would be ready without them. */
  lemma HostsAreIndependent(attempts: seq<Attempt>, host: string, interval: int, now: int)
    ensures ReadyAt(Register(attempts), interval, host, now)
      == ReadyAt(Register(ToHost(attempts, host)), interval, host, now)
  {
    var own := ToHost(attempts, host);
    RegisterShows(attempts, host);
    OwnOnly(attempts, host);
    if own != [] {
      assert own[|own| - 1].host == host;
    }
  }

  lemma {:induction false} OwnOnly(attempts: seq<Attempt>, host: string)
    ensures forall i :: 0 <= i < |ToHost(attempts, host)| ==> ToHost(attempts, host)[i].host == host
  {
    if attempts != [] {
      OwnOnly(attempts[..|attempts| - 1], host);
    }
  }

  predicate Spaced(own: seq<Attempt>, interval: int) {
    forall i :: 0 < i < |own| ==> own[i - 1].start + interval <= own[i].start
  }

  lemma PacedFront(attempts: seq<Attempt>, interval: int)
    requires attempts != [] && Paced(attempts, interval)
    ensures Paced(attempts[..|attempts| - 1], interval)
  {
    var front := attempts[..|attempts| - 1];
    forall i | 0 <= i < |front| ensures Admitted(front, interval, i) {
      assert Admitted(attempts, interval, i) && front[..i] == attempts[..i];
    }
  }

  lemma {:induction false} OwnAttempts(attempts: seq<Attempt>, host: string)
    ensures forall i :: 0 <= i < |ToHost(attempts, host)| ==> ToHost(attempts, host)[i] in attempts
  {
    if attempts != [] {
      OwnAttempts(attempts[..|attempts| - 1], host);
    }
  }

  /** A submission waits for the rest of the previous one to its host. */
  lemma LastRests(front: seq<Attempt>, interval: int, a: Attempt)
    requires InTime(front) && interval > 0 && ToHost(front, a.host) != []
    requires ReadyAt(Register(front), interval, a.host, a.start).None?
    ensures var own := ToHost(front, a.host); own[|own| - 1].start + interval <= a.start
  {
    var own := ToHost(front, a.host);
    RegisterShows(front, a.host);
    OwnAttempts(front, a.host);
    var i :| 0 <= i < |front| && front[i] == own[|own| - 1];
  }

  /** Two consecutive submissions to one host start at least the interval apart. */
  lemma {:induction false} HostRests(attempts: seq<Attempt>, interval: int, host: string)
    requires Paced(attempts, interval) && interval > 0
    ensures Spaced(ToHost(attempts, host), interval)
  {
    if attempts != [] {
      var front, a := attempts[..|attempts| - 1], attempts[|attempts| - 1];
      PacedFront(attempts, interval);
      HostRests(front, interval, host);
      assert Admitted(attempts, interval, |attempts| - 1);
      if a.host == host && ToHost(front, host) != [] {
        LastRests(front, interval, a);
      }
    }
  }

  lemma {:induction false} SpanOf(own: seq<Attempt>, interval: int, i: nat, j: nat)
    requires Spaced(own, interval) && i <= j < |own|
    ensures own[i].start + (j - i) * interval <= own[j].start
    decreases j - i
  {
    if i < j {
      SpanOf(own, interval, i, j - 1);
      assert (j - i) * interval == (j - 1 - i) * interval + interval;
    }
  }

  function CeilDiv(n: nat, d: nat): (q: nat)
    requires d > 0
    ensures (q - 1) * d < n <= q * d
  {
    (n + d - 1) / d
  }

  lemma FewSteps(steps: nat, length: nat, interval: nat)
    requires interval > 0 && steps * interval < length
    ensures steps + 1 <= CeilDiv(length, interval)
  {
    var q := CeilDiv(length, interval);
    assert q <= steps ==> q * interval <= steps * interval;
  }

  /** Whatever the run, at most ceil(length / interval) submissions to one host start within any window of that length:
      with rests of 12 seconds at most 5 in a minute. */
  lemma WindowBound(attempts: seq<Attempt>, interval: nat, host: string, from: int, length: nat, i: nat, j: nat)
    requires Paced(attempts, interval) && interval > 0
    requires i <= j < |ToHost(attempts, host)|
    requires from <= ToHost(attempts, host)[i].start && ToHost(attempts, host)[j].start < from + length
    ensures j - i + 1 <= CeilDiv(length, interval)
    ensures interval == 12 && length == 60 ==> j - i + 1 <= 5
  {
    HostRests(attempts, interval, host);
    SpanOf(ToHost(attempts, host), interval, i, j);
    FewSteps(j - i, length, interval);
  }
}
