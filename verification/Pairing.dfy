/**
 Pairing a run's rows with the instants of a reference timeline: one pass with
 two pointers, against the rightmost nearest row found by searching them all.
 Times are reals, in seconds.
 */
module Pairing {
  import opened Common

  const PAIR_TOLERANCE_S := 0.35

  predicate Sorted(s: seq<real>) { forall i, j :: 0 <= i <= j < |s| ==> s[i] <= s[j] }

  function Distance(rows: seq<real>, j: nat, t: real): real
    requires j < |rows|
  {
    Abs(rows[j] - t)
  }

  // No row is nearer, and none to the right is as near.
  ghost predicate IsNearest(rows: seq<real>, t: real, j: nat) {
    && j < |rows|
    && (forall k :: 0 <= k <= j ==> Distance(rows, j, t) <= Distance(rows, k, t))
    && (forall k :: j < k < |rows| ==> Distance(rows, j, t) < Distance(rows, k, t))
  }

  // The rightmost nearest row, by searching every row.
  function NearestUpTo(rows: seq<real>, t: real, n: nat): (j: nat)
    requires 0 < n <= |rows|
    ensures j < n
    ensures forall k :: 0 <= k <= j ==> Distance(rows, j, t) <= Distance(rows, k, t)
    ensures forall k :: j < k < n ==> Distance(rows, j, t) < Distance(rows, k, t)
  {
    if n == 1 then 0
    else
      var j := NearestUpTo(rows, t, n - 1);
      if Distance(rows, n - 1, t) <= Distance(rows, j, t) then n - 1 else j
  }

  function Nearest(rows: seq<real>, t: real): (j: nat)
    requires rows != []
    ensures IsNearest(rows, t, j)
  {
    NearestUpTo(rows, t, |rows|)
  }

  // A later instant's nearest row is not further left.
  lemma NearestMonotone(rows: seq<real>, t: real, u: real)
    requires rows != [] && Sorted(rows) && t <= u
    ensures Nearest(rows, t) <= Nearest(rows, u)
  {
    var i, j := Nearest(rows, t), Nearest(rows, u);
    assert j <= i ==> rows[j] <= rows[i] && Distance(rows, i, t) <= Distance(rows, j, t);
    if j < i { StillNearer(rows, j, i, t, u); }
  }

  // What is as near from the right stays so as time moves right.
  lemma StillNearer(rows: seq<real>, j: nat, i: nat, t: real, u: real)
    requires j < |rows| && i < |rows| && rows[j] <= rows[i] && t <= u
    requires Distance(rows, i, t) <= Distance(rows, j, t)
    ensures Distance(rows, i, u) <= Distance(rows, j, u)
  {
  }

  // Short of the nearest row, the next one is never further away; past it, it
  // always is.
  lemma StepTowardNearest(rows: seq<real>, t: real, j: nat)
    requires Sorted(rows) && j + 1 < |rows|
    requires j <= Nearest(rows, t)
    ensures Distance(rows, j + 1, t) <= Distance(rows, j, t) <==> j < Nearest(rows, t)
  {
    var best := Nearest(rows, t);
    if j < best {
      assert rows[j] <= rows[j + 1] <= rows[best];
      assert Distance(rows, best, t) <= Distance(rows, j, t);
      assert Distance(rows, best, t) <= Distance(rows, j + 1, t);
    }
  }

  // -------------------------------------------------------------------------
  // Which instant gets which row
  // -------------------------------------------------------------------------

  predicate Close(rows: seq<real>, t: real)
    requires rows != []
  {
    Distance(rows, Nearest(rows, t), t) <= PAIR_TOLERANCE_S
  }

  // Instant `i` is the first whose nearest row is this one and close enough.
  ghost predicate FirstToClaim(refs: seq<real>, rows: seq<real>, i: nat)
    requires i < |refs| && rows != []
  {
    && Close(rows, refs[i])
    && forall h :: 0 <= h < i && Close(rows, refs[h]) ==> Nearest(rows, refs[h]) != Nearest(rows, refs[i])
  }

  // The pairing, declared: an instant has a row exactly when its nearest row
  // is within tolerance and no earlier instant took it, and then has that row.
  ghost predicate IsPairing(refs: seq<real>, rows: seq<real>, n: nat, out: map<real, nat>)
    requires n <= |refs| && rows != []
  {
    && (forall t :: t in out ==> exists i :: 0 <= i < n && refs[i] == t && FirstToClaim(refs, rows, i))
    && (forall i :: 0 <= i < n && FirstToClaim(refs, rows, i) ==> refs[i] in out)
    && (forall t :: t in out ==> out[t] == Nearest(rows, t))
  }

  method PairedOneToOne(refs: seq<real>, rows: seq<real>) returns (out: map<real, nat>)
    requires Sorted(refs) && Sorted(rows)
    ensures rows == [] ==> out == map[]
    ensures rows != [] ==> IsPairing(refs, rows, |refs|, out)
  {
    out := map[];
    var j, used := 0, -1;
    for i := 0 to |refs|
      invariant rows == [] ==> out == map[]
      invariant rows != [] ==> j < |rows| && used <= j && IsPairing(refs, rows, i, out)
      invariant rows != [] && i == 0 ==> j == 0
      invariant rows != [] && i > 0 ==> j == Nearest(rows, refs[i - 1])
      invariant rows != [] ==> LastTaken(refs, rows, i, used)
    {
      var t := refs[i];
      if rows == [] { break; }
      if i > 0 { NearestMonotone(rows, refs[i - 1], t); }
      j := MoveTo(rows, t, j);
      TakenBefore(refs, rows, i, used);
      if j > used && Abs(rows[j] - t) <= PAIR_TOLERANCE_S {
        ClaimExtends(refs, rows, i, out);
        out := out[t := j];
        used := j;
      } else {
        RefusalExtends(refs, rows, i, out);
      }
    }
  }

  // Advance the index while the next row is at least as near.
  method MoveTo(rows: seq<real>, t: real, start: nat) returns (j: nat)
    requires Sorted(rows) && start < |rows| && start <= Nearest(rows, t)
    ensures j == Nearest(rows, t)
  {
    j := start;
    while j + 1 < |rows| && Abs(rows[j + 1] - t) <= Abs(rows[j] - t)
      invariant j <= Nearest(rows, t)
      decreases |rows| - j
    {
      StepTowardNearest(rows, t, j);
      j := j + 1;
    }
    if j + 1 < |rows| { StepTowardNearest(rows, t, j); }
  }

  // `used` is the last row taken by the first `n` instants, -1 for none.
  ghost predicate LastTaken(refs: seq<real>, rows: seq<real>, n: nat, used: int)
    requires n <= |refs| && rows != []
  {
    && (forall h :: 0 <= h < n && Close(rows, refs[h]) ==> Nearest(rows, refs[h]) <= used)
    && (used >= 0 ==> exists h :: 0 <= h < n && Close(rows, refs[h]) && Nearest(rows, refs[h]) == used)
  }

  // Beyond the last row taken is the same as not taken.
  lemma TakenBefore(refs: seq<real>, rows: seq<real>, i: nat, used: int)
    requires Sorted(refs) && Sorted(rows) && rows != [] && i < |refs| && LastTaken(refs, rows, i, used)
    ensures FirstToClaim(refs, rows, i) <==> Close(rows, refs[i]) && Nearest(rows, refs[i]) > used
  {
    forall h | 0 <= h < i ensures Nearest(rows, refs[h]) <= Nearest(rows, refs[i]) {
      NearestMonotone(rows, refs[h], refs[i]);
    }
  }

  lemma ClaimExtends(refs: seq<real>, rows: seq<real>, i: nat, out: map<real, nat>)
    requires i < |refs| && rows != [] && IsPairing(refs, rows, i, out) && FirstToClaim(refs, rows, i)
    ensures IsPairing(refs, rows, i + 1, out[refs[i] := Nearest(rows, refs[i])])
  {
    var more := out[refs[i] := Nearest(rows, refs[i])];
    forall t | t in more ensures exists k :: 0 <= k < i + 1 && refs[k] == t && FirstToClaim(refs, rows, k) {
      if t == refs[i] {
        assert FirstToClaim(refs, rows, i);
      } else {
        assert t in out;
        var k :| 0 <= k < i && refs[k] == t && FirstToClaim(refs, rows, k);
      }
    }
  }

  lemma RefusalExtends(refs: seq<real>, rows: seq<real>, i: nat, out: map<real, nat>)
    requires i < |refs| && rows != [] && IsPairing(refs, rows, i, out) && !FirstToClaim(refs, rows, i)
    ensures IsPairing(refs, rows, i + 1, out)
  {
  }

  // -------------------------------------------------------------------------
  // What the pairing certifies
  // -------------------------------------------------------------------------

  // Matches are within tolerance, no row serves two instants, and later
  // instants have later rows.
  lemma PairsAreOrdered(refs: seq<real>, rows: seq<real>, out: map<real, nat>, t: real, u: real)
    requires Sorted(refs) && Sorted(rows) && rows != [] && IsPairing(refs, rows, |refs|, out)
    requires t in out && u in out && t < u
    ensures out[t] < |rows| && -0.35 <= rows[out[t]] - t <= 0.35
    ensures out[t] < out[u]
  {
    var i :| 0 <= i < |refs| && refs[i] == t && FirstToClaim(refs, rows, i);
    var k :| 0 <= k < |refs| && refs[k] == u && FirstToClaim(refs, rows, k);
    NearestMonotone(rows, t, u);
    assert k <= i ==> refs[k] <= refs[i];
  }

  // An instant without a row has none within tolerance, or its nearest row
  // went to an earlier instant.
  lemma UnmatchedBecause(refs: seq<real>, rows: seq<real>, out: map<real, nat>, i: nat)
    requires Sorted(refs) && Sorted(rows) && rows != [] && IsPairing(refs, rows, |refs|, out)
    requires i < |refs| && refs[i] !in out
    ensures || (forall k :: 0 <= k < |rows| ==> rows[k] - refs[i] > 0.35 || refs[i] - rows[k] > 0.35)
            || (exists u :: u in out && u < refs[i] && out[u] == Nearest(rows, refs[i]))
  {
    if Close(rows, refs[i]) {
      var u := EarliestClaim(refs, rows, out, i);
      assert u != refs[i];
    } else {
      forall k | 0 <= k < |rows| ensures rows[k] - refs[i] > 0.35 || refs[i] - rows[k] > 0.35 {
        assert Distance(rows, Nearest(rows, refs[i]), refs[i]) <= Distance(rows, k, refs[i]);
      }
    }
  }

  lemma {:induction false} EarliestClaim(refs: seq<real>, rows: seq<real>, out: map<real, nat>, i: nat) returns (u: real)
    requires Sorted(refs) && rows != [] && IsPairing(refs, rows, |refs|, out)
    requires i < |refs| && Close(rows, refs[i])
    ensures u in out && u <= refs[i] && out[u] == Nearest(rows, refs[i])
    decreases i
  {
    u := refs[i];
    if !FirstToClaim(refs, rows, i) {
      var h :| 0 <= h < i && Close(rows, refs[h]) && Nearest(rows, refs[h]) == Nearest(rows, refs[i]);
      u := EarliestClaim(refs, rows, out, h);
    }
  }

  // The rows used are exactly the rows that are some instant's nearest within
  // tolerance: a miss is never filled from a row that certifies another.
  lemma RowsUsed(refs: seq<real>, rows: seq<real>, out: map<real, nat>, j: nat)
    requires Sorted(refs) && Sorted(rows) && rows != [] && IsPairing(refs, rows, |refs|, out)
    ensures (exists t :: t in out && out[t] == j)
       <==> (exists i :: 0 <= i < |refs| && Close(rows, refs[i]) && Nearest(rows, refs[i]) == j)
  {
    if t :| t in out && out[t] == j {
      var i :| 0 <= i < |refs| && refs[i] == t && FirstToClaim(refs, rows, i);
    }
    if i :| 0 <= i < |refs| && Close(rows, refs[i]) && Nearest(rows, refs[i]) == j {
      var u := EarliestClaim(refs, rows, out, i);
    }
  }
}
