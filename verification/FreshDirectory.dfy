/** The search for an unused directory name (orchestrator/main.py, orchestrator/codex_execution.py). */
module FreshDirectory {
  import opened Text

  /** The time stamp itself, then stamp_1, stamp_2, ... */
  function Candidate(stamp: string, k: nat): string {
    if k == 0 then stamp else stamp + "_" + Decimal(k)
  }

  lemma CandidatesDiffer(stamp: string, j: nat, k: nat)
    requires j != k
    ensures Candidate(stamp, j) != Candidate(stamp, k)
  {
    if j != 0 && k != 0 && Candidate(stamp, j) == Candidate(stamp, k) {
      var n := |stamp + "_"|;
      assert Candidate(stamp, j)[n..] == Decimal(j) && Candidate(stamp, k)[n..] == Decimal(k);
      DecimalInjective(j, k);
    }
  }

  /** The first k candidates, all of them different. */
  function Tried(stamp: string, k: nat): (names: set<string>)
    ensures forall n :: n in names <==> exists j :: 0 <= j < k && n == Candidate(stamp, j)
    ensures |names| == k
  {
    if k == 0 then {}
    else
      assert Candidate(stamp, k - 1) !in Tried(stamp, k - 1) by {
        forall j | 0 <= j < k - 1 ensures Candidate(stamp, j) != Candidate(stamp, k - 1) { CandidatesDiffer(stamp, j, k - 1); }
      }
      Tried(stamp, k - 1) + {Candidate(stamp, k - 1)}
  }

  /** Ends for every finite set of existing names, within one probe more than there are names, at the
      first candidate that is free. */
  method FindFresh(existing: set<string>, stamp: string) returns (name: string, probes: nat)
    ensures name !in existing
    ensures 1 <= probes <= |existing| + 1
    ensures name == Candidate(stamp, probes - 1)
    ensures forall j :: 0 <= j < probes - 1 ==> Candidate(stamp, j) in existing
  {
    name, probes := stamp, 1;
    var suffix := 1;
    while name in existing
      invariant suffix == probes && name == Candidate(stamp, probes - 1)
      invariant forall j :: 0 <= j < probes - 1 ==> Candidate(stamp, j) in existing
      invariant probes <= |existing| + 1
      decreases |existing| + 1 - probes
    {
      assert Tried(stamp, probes) <= existing;
      Subsets(Tried(stamp, probes), existing);
      name := stamp + "_" + Decimal(suffix);
      suffix, probes := suffix + 1, probes + 1;
    }
  }

  lemma {:induction false} Subsets(a: set<string>, b: set<string>)
    requires a <= b
    ensures |a| <= |b|
  {
    if a != {} {
      var x :| x in a;
      Subsets(a - {x}, b - {x});
    }
  }
}
