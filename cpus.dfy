/**
 * The CPU planner of the benchmark driver: the two CPU caps that were left
 * unset are filled in from the machine's core count, and the core numbers
 * `0 .. web + wrk` are cut into a block for the web framework and a block for
 * wrk, both empty when CPU affinity is off.
 */
module CpuPlan {

  /** The two caps: cores for the web framework and cores for wrk. */
  datatype Caps = Caps(web: int, wrk: int)

  /**
   * A cap of 0 means "unset": both unset share the machine evenly (rounding
   * down), one unset takes what the other leaves, and two set caps stay as given.
   */
  function CompleteCaps(total: nat, web: int, wrk: int): (c: Caps)
    ensures web == 0 && wrk == 0 ==> c.web == total / 2 && c.wrk == total / 2
    ensures web == 0 && wrk != 0 ==> c.wrk == wrk && c.web + c.wrk == total
    ensures web != 0 && wrk == 0 ==> c.web == web && c.web + c.wrk == total
    ensures web != 0 && wrk != 0 ==> c == Caps(web, wrk)
    ensures web == 0 || wrk == 0 ==> total - 1 <= c.web + c.wrk <= total
  {
    if web == 0 && wrk == 0 then Caps(total / 2, total / 2)
    else if web == 0 then Caps(total - wrk, wrk)
    else if wrk == 0 then Caps(web, total - web)
    else Caps(web, wrk)
  }

  /** Python's `list(range(0, n))`. */
  function Range(n: int): (r: seq<int>)
    ensures |r| == if n < 0 then 0 else n
    ensures forall i :: 0 <= i < |r| ==> r[i] == i
  {
    seq(if n < 0 then 0 else n, i => i)
  }

  /** A slice bound as Python reads it for a list of length `len`: negative counts from the end, then clamped to `0 .. len`. */
  function SliceIndex(i: int, len: nat): (k: nat)
    ensures k <= len
    ensures 0 <= i <= len ==> k == i
  {
    if i < 0 then (if i + len < 0 then 0 else i + len)
    else if i > len then len
    else i
  }

  /** Python's `s[a:b]`. */
  function Slice<T>(s: seq<T>, a: int, b: int): (r: seq<T>)
    ensures SliceIndex(a, |s|) <= SliceIndex(b, |s|) ==> r == s[SliceIndex(a, |s|)..SliceIndex(b, |s|)]
    ensures SliceIndex(a, |s|) > SliceIndex(b, |s|) ==> r == []
  {
    var i, j := SliceIndex(a, |s|), SliceIndex(b, |s|);
    if i <= j then s[i..j] else []
  }

  /** What the planner settles on. */
  datatype Plan = Plan(caps: Caps, cpus: seq<int>, webCpus: seq<int>, wrkCpus: seq<int>)

  /**
   * The planner: complete the caps, list the cores `0 .. web + wrk`, and give
   * the web framework the first `web` of them and wrk the rest, when affinity is on.
   */
  function PlanCpus(total: nat, webCap: int, wrkCap: int, affinity: bool): (r: Plan)
    ensures r.caps == CompleteCaps(total, webCap, wrkCap)
    ensures |r.cpus| == if r.caps.web + r.caps.wrk < 0 then 0 else r.caps.web + r.caps.wrk
    ensures forall i :: 0 <= i < |r.cpus| ==> r.cpus[i] == i
    ensures !affinity ==> r.webCpus == [] && r.wrkCpus == []
  {
    var caps := CompleteCaps(total, webCap, wrkCap);
    var cpus := Range(caps.wrk + caps.web);
    var webCpus := if affinity then Slice(cpus, 0, caps.web) else [];
    var wrkCpus := if affinity then Slice(cpus, caps.web, caps.wrk + caps.web) else [];
    Plan(caps, cpus, webCpus, wrkCpus)
  }

  /** With affinity off neither process is pinned, whatever the caps. */
  lemma NoAffinityNoLists(total: nat, webCap: int, wrkCap: int)
    ensures PlanCpus(total, webCap, wrkCap, false).webCpus == []
    ensures PlanCpus(total, webCap, wrkCap, false).wrkCpus == []
  {
  }

  /** With affinity on the two blocks, one after the other, are exactly the listed cores; this holds for any caps, negative ones included. */
  lemma {:induction false} BlocksCoverCpus(total: nat, webCap: int, wrkCap: int)
    ensures var p := PlanCpus(total, webCap, wrkCap, true); p.webCpus + p.wrkCpus == p.cpus
  {
    var p := PlanCpus(total, webCap, wrkCap, true);
    var len := |p.cpus|;
    var w := SliceIndex(p.caps.web, len);
    assert SliceIndex(p.caps.wrk + p.caps.web, len) == len;
    assert p.webCpus == p.cpus[..w];
    assert p.wrkCpus == p.cpus[w..];
  }

  /** With affinity on no core is given to both processes. */
  lemma BlocksDisjoint(total: nat, webCap: int, wrkCap: int)
    ensures var p := PlanCpus(total, webCap, wrkCap, true);
      forall i, j :: 0 <= i < |p.webCpus| && 0 <= j < |p.wrkCpus| ==> p.webCpus[i] != p.wrkCpus[j]
  {
    var p := PlanCpus(total, webCap, wrkCap, true);
    BlocksCoverCpus(total, webCap, wrkCap);
    forall i, j | 0 <= i < |p.webCpus| && 0 <= j < |p.wrkCpus| ensures p.webCpus[i] != p.wrkCpus[j] {
      assert p.webCpus[i] == p.cpus[i];
      assert p.wrkCpus[j] == p.cpus[|p.webCpus| + j];
    }
  }

  /** With affinity on and non-negative completed caps, the web framework gets cores `0 .. web` and wrk gets `web .. web + wrk`. */
  lemma BlocksAreIntervals(total: nat, webCap: int, wrkCap: int)
    requires var c := CompleteCaps(total, webCap, wrkCap); c.web >= 0 && c.wrk >= 0
    ensures var p := PlanCpus(total, webCap, wrkCap, true);
      && |p.webCpus| == p.caps.web && (forall i :: 0 <= i < |p.webCpus| ==> p.webCpus[i] == i)
      && |p.wrkCpus| == p.caps.wrk && (forall i :: 0 <= i < |p.wrkCpus| ==> p.wrkCpus[i] == p.caps.web + i)
  {
  }

  /**
   * When at least one cap is left unset and the other lies within the machine,
   * every planned core exists on the machine; two set caps are not checked
   * against the core count.
   */
  lemma UnsetCapStaysOnMachine(total: nat, webCap: int, wrkCap: int)
    requires webCap == 0 || wrkCap == 0
    requires 0 <= webCap <= total && 0 <= wrkCap <= total
    ensures var p := PlanCpus(total, webCap, wrkCap, true);
      forall i :: 0 <= i < |p.cpus| ==> 0 <= p.cpus[i] < total
  {
  }

  /** Two set caps may ask for more cores than the machine has. */
  lemma SetCapsMayExceedMachine()
    ensures PlanCpus(4, 3, 3, true).cpus == [0, 1, 2, 3, 4, 5]
    ensures PlanCpus(4, 3, 3, true).wrkCpus == [3, 4, 5]
  {
  }
}
