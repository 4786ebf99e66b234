/** Where a stall stands on the directory's map: open addressing with a
    fingerprint-derived stride (souk-directory/src/layout.ts). */
module Layout {
  import opened Fnv
  import opened NumberTheory
  import Text

  datatype Stall = Stall(fingerprint: string, name: string)

  datatype Placed = Placed(item: Stall, col: nat, row: nat)

  function FingerprintOf(s: Stall): string
  {
    s.fingerprint
  }

  function InFingerprintOrder(stalls: seq<Stall>): seq<Stall>
  {
    Text.Sort(stalls, FingerprintOf)
  }

  function Home(fingerprint: string, cells: nat): (c: nat)
    requires cells > 0
    ensures c < cells
  {
    Fnv1a(fingerprint) % cells
  }

  /** `1 + ((h >>> 8) % (cells - 1 || 1))` */
  function Stride(fingerprint: string, cells: nat): (s: nat)
    requires cells > 0
    ensures 1 <= s && (cells > 1 ==> s < cells)
  {
    1 + (Fnv1a(fingerprint) / 256) % (if cells == 1 then 1 else cells - 1)
  }

  /** Probing from `cell` with at most `left` moves. */
  function Probe(cell: nat, stride: nat, cells: nat, taken: set<nat>, left: nat): (c: nat)
    requires cell < cells
    ensures c < cells
    decreases left
  {
    if left == 0 || cell !in taken then cell
    else Probe((cell + stride) % cells, stride, cells, taken, left - 1)
  }

  function CellFor(fingerprint: string, cells: nat, taken: set<nat>): (c: nat)
    requires cells > 0
    ensures c < cells
  {
    Probe(Home(fingerprint, cells), Stride(fingerprint, cells), cells, taken, cells)
  }

  /** The cells of `stalls`, placed in this order on a map where `taken` is occupied. */
  function CellsFrom(stalls: seq<Stall>, cells: nat, taken: set<nat>): (r: seq<nat>)
    requires cells > 0
    ensures |r| == |stalls|
    ensures forall i :: 0 <= i < |r| ==> r[i] < cells
  {
    if stalls == [] then []
    else
      var c := CellFor(stalls[0].fingerprint, cells, taken);
      [c] + CellsFrom(stalls[1..], cells, taken + {c})
  }

  function OnGrid(item: Stall, cell: nat, cols: nat): Placed
    requires cols > 0
  {
    Placed(item, cell % cols, cell / cols)
  }

  function OnGridAll(items: seq<Stall>, at: seq<nat>, cols: nat): (r: seq<Placed>)
    requires cols > 0 && |items| == |at|
    ensures |r| == |items|
    ensures forall i :: 0 <= i < |r| ==> r[i] == OnGrid(items[i], at[i], cols)
  {
    seq(|items|, i requires 0 <= i < |items| => OnGrid(items[i], at[i], cols))
  }

  /** The whole map: sorted by fingerprint, then placed one by one. */
  function Placement(stalls: seq<Stall>, cols: nat, rows: nat): (r: seq<Placed>)
    requires cols > 0 && rows > 0
    ensures |r| == |stalls|
  {
    var sorted := InFingerprintOrder(stalls);
    OnGridAll(sorted, CellsFrom(sorted, cols * rows, {}), cols)
  }

  // ---- The program

  /** The probing loop for one stall. */
  method FindCell(fingerprint: string, cells: nat, taken: set<nat>) returns (cell: nat)
    requires cells > 0
    ensures cell == CellFor(fingerprint, cells, taken)
  {
    var h := HashFingerprint(fingerprint);
    cell := h % cells;
    var stride := 1 + (h / 256) % (if cells - 1 == 0 then 1 else cells - 1);
    var i := 0;
    while i < cells && cell in taken
      invariant i <= cells && cell < cells
      invariant Probe(cell, stride, cells, taken, cells - i) == CellFor(fingerprint, cells, taken)
    {
      cell := (cell + stride) % cells;
      i := i + 1;
    }
  }

  /** The placing loop over the sorted roster. */
  method PlaceInOrder(sorted: seq<Stall>, cells: nat, cols: nat) returns (placed: seq<Placed>)
    requires cells > 0 && cols > 0
    ensures |placed| == |sorted|
    ensures forall k :: 0 <= k < |placed| ==>
              placed[k] == OnGrid(sorted[k], CellsFrom(sorted, cells, {})[k], cols)
  {
    var taken: set<nat> := {};
    ghost var all := CellsFrom(sorted, cells, {});
    placed := [];
    for n := 0 to |sorted|
      invariant |placed| == n
      invariant all[n..] == CellsFrom(sorted[n..], cells, taken)
      invariant forall k :: 0 <= k < n ==> placed[k] == OnGrid(sorted[k], all[k], cols)
    {
      var cell := FindCell(sorted[n].fingerprint, cells, taken);
      CellsFromHead(sorted[n..], cells, taken);
      assert sorted[n..][1..] == sorted[n + 1..] && all[n..][1..] == all[n + 1..];
      assert cell == all[n..][0] == all[n];
      taken := taken + {cell};
      placed := placed + [OnGrid(sorted[n], cell, cols)];
    }
  }

  lemma CellsFromHead(stalls: seq<Stall>, cells: nat, taken: set<nat>)
    requires cells > 0 && stalls != []
    ensures var c := CellFor(stalls[0].fingerprint, cells, taken);
            CellsFrom(stalls, cells, taken) == [c] + CellsFrom(stalls[1..], cells, taken + {c})
  {}

  method PlaceStalls(stalls: seq<Stall>, cols: nat, rows: nat) returns (placed: seq<Placed>)
    requires cols > 0 && rows > 0
    ensures placed == Placement(stalls, cols, rows)
  {
    placed := PlaceInOrder(InFingerprintOrder(stalls), cols * rows, cols);
  }

  // ---- Where one stall lands

  ghost predicate LapTaken(home: nat, stride: nat, cells: nat, taken: set<nat>, lo: nat, hi: nat)
    requires cells > 0
  {
    forall i :: lo <= i < hi ==> Orbit(home, stride, cells, i) in taken
  }

  /** Probing from the i-th cell of the walk either stops on a free cell of the walk or
      has gone once round and is home again. */
  lemma {:induction false} ProbeFollowsOrbit(home: nat, stride: nat, cells: nat, taken: set<nat>, i: nat)
    requires home < cells && i <= cells
    ensures var r := Probe(Orbit(home, stride, cells, i), stride, cells, taken, cells - i);
            if LapTaken(home, stride, cells, taken, i, cells) then r == home
            else r !in taken && exists j :: i <= j < cells && r == Orbit(home, stride, cells, j)
    decreases cells - i
  {
    if i == cells {
      OrbitReturns(home, stride, cells);
    } else if Orbit(home, stride, cells, i) in taken {
      OrbitStep(home, stride, cells, i);
      ProbeFollowsOrbit(home, stride, cells, taken, i + 1);
    }
  }

  ghost predicate ClassTaken(home: nat, stride: nat, cells: nat, taken: set<nat>)
    requires cells > 0
  {
    forall d :: 0 <= d < cells && d % Gcd(stride, cells) == home % Gcd(stride, cells) ==> d in taken
  }

  lemma LapIsClass(home: nat, stride: nat, cells: nat, taken: set<nat>)
    requires home < cells
    ensures LapTaken(home, stride, cells, taken, 0, cells) <==> ClassTaken(home, stride, cells, taken)
  {
    if LapTaken(home, stride, cells, taken, 0, cells) {
      forall d | 0 <= d < cells && d % Gcd(stride, cells) == home % Gcd(stride, cells)
        ensures d in taken
      {
        var i := OrbitReaches(home, stride, cells, d);
      }
    }
    if ClassTaken(home, stride, cells, taken) {
      forall i | 0 <= i < cells ensures Orbit(home, stride, cells, i) in taken {
        OrbitStaysCongruent(home, stride, cells, i);
      }
    }
  }

  /** Exactly when a stall lands on somebody: every cell congruent to its home modulo
      gcd(stride, cells) is occupied, and then it lands on its home cell. */
  lemma LandingIsExact(fingerprint: string, cells: nat, taken: set<nat>)
    requires cells > 0
    ensures var home := Home(fingerprint, cells);
            var stride := Stride(fingerprint, cells);
            var c := CellFor(fingerprint, cells, taken);
            && c % Gcd(stride, cells) == home % Gcd(stride, cells)
            && (c in taken <==> ClassTaken(home, stride, cells, taken))
            && (c in taken ==> c == home)
  {
    var home, stride := Home(fingerprint, cells), Stride(fingerprint, cells);
    var c := CellFor(fingerprint, cells, taken);
    OrbitStart(home, stride, cells);
    ProbeFollowsOrbit(home, stride, cells, taken, 0);
    LapIsClass(home, stride, cells, taken);
    if !LapTaken(home, stride, cells, taken, 0, cells) {
      var j :| 0 <= j < cells && c == Orbit(home, stride, cells, j);
      OrbitStaysCongruent(home, stride, cells, j);
    }
  }

  lemma OrbitStart(home: nat, stride: nat, cells: nat)
    requires home < cells
    ensures Orbit(home, stride, cells, 0) == home
  {}

  // ---- The whole map

  function Occupied(at: seq<nat>): set<nat>
  {
    set c | c in at
  }

  lemma {:induction false} CellsFromAt(stalls: seq<Stall>, cells: nat, taken: set<nat>, i: nat)
    requires cells > 0 && i < |stalls|
    ensures var at := CellsFrom(stalls, cells, taken);
            at[i] == CellFor(stalls[i].fingerprint, cells, taken + Occupied(at[..i]))
  {
    var at := CellsFrom(stalls, cells, taken);
    var c := at[0];
    if i == 0 {
      assert taken + Occupied(at[..0]) == taken;
    } else {
      CellsFromAt(stalls[1..], cells, taken + {c}, i - 1);
      var rest := CellsFrom(stalls[1..], cells, taken + {c});
      assert at[1..] == rest && at[..i] == [c] + rest[..i - 1];
      assert taken + {c} + Occupied(rest[..i - 1]) == taken + Occupied(at[..i]);
    }
  }

  function Cell(p: Placed, cols: nat): nat
  {
    p.row * cols + p.col
  }

  lemma CellOfOnGrid(item: Stall, cell: nat, cols: nat, rows: nat)
    requires cols > 0 && cell < cols * rows
    ensures var p := OnGrid(item, cell, cols);
            p.col < cols && p.row < rows && Cell(p, cols) == cell
  {
    var q := cell / cols;
    assert cell == cols * q + cell % cols;
    Distribute(cols, rows, -q);
    MultipleIsFar(cols, rows - q);
  }

  /** Every stall is in bounds, and it shares a square with an earlier-sorted stall
      exactly when its whole residue class was occupied. */
  lemma PlacementIsExact(stalls: seq<Stall>, cols: nat, rows: nat, i: nat)
    requires cols > 0 && rows > 0 && i < |stalls|
    ensures var placed := Placement(stalls, cols, rows);
            var cells := cols * rows;
            var earlier := set k | 0 <= k < i :: Cell(placed[k], cols);
            var fp := placed[i].item.fingerprint;
            && placed[i].item == InFingerprintOrder(stalls)[i]
            && placed[i].col < cols && placed[i].row < rows
            && (Cell(placed[i], cols) in earlier <==>
                  ClassTaken(Home(fp, cells), Stride(fp, cells), cells, earlier))
            && (Cell(placed[i], cols) in earlier ==> Cell(placed[i], cols) == Home(fp, cells))
  {
    var placed := Placement(stalls, cols, rows);
    var cells := cols * rows;
    var sorted := InFingerprintOrder(stalls);
    var at := CellsFrom(sorted, cells, {});
    var earlier := set k | 0 <= k < i :: Cell(placed[k], cols);
    forall k | 0 <= k <= i ensures Cell(placed[k], cols) == at[k] {
      CellOfOnGrid(sorted[k], at[k], cols, rows);
    }
    CellOfOnGrid(sorted[i], at[i], cols, rows);
    assert {} + Occupied(at[..i]) == earlier by {
      forall k | 0 <= k < i ensures at[k] in Occupied(at[..i]) {
        assert at[..i][k] == at[k];
      }
    }
    CellsFromAt(sorted, cells, {}, i);
    LandingIsExact(sorted[i].fingerprint, cells, earlier);
  }

  /** A stall alone stands at its hash modulo the number of cells. */
  lemma LoneStallIsAtItsHash(s: Stall, cols: nat, rows: nat)
    requires cols > 0 && rows > 0
    ensures var cell := Fnv1a(s.fingerprint) % (cols * rows);
            Placement([s], cols, rows) == [Placed(s, cell % cols, cell / cols)]
  {
    var cells := cols * rows;
    assert [s][1..] == [] && InFingerprintOrder([s]) == [s];
    CellsFromHead([s], cells, {});
    assert CellsFrom([s], cells, {}) == [Home(s.fingerprint, cells)];
  }

  /** Of two stalls with the same home the later-sorted one stands one stride on, by the
      hash without its last eight bits. */
  lemma SecondStallIsOneStrideOn(s: Stall, t: Stall, cols: nat, rows: nat, cells: nat)
    requires cols > 0 && rows > 0 && cells == cols * rows && cells > 1
    requires Text.LexLeq(s.fingerprint, t.fingerprint) && s.fingerprint != t.fingerprint
    requires Fnv1a(s.fingerprint) % cells == Fnv1a(t.fingerprint) % cells
    ensures var home := Fnv1a(t.fingerprint) % cells;
            var cell := (home + 1 + (Fnv1a(t.fingerprint) / 256) % (cells - 1)) % cells;
            Placement([t, s], cols, rows) == [OnGrid(s, home, cols), OnGrid(t, cell, cols)]
  {
    TwoInOrder(s, t);
    TwoCells(s, t, cells);
  }

  lemma TwoCells(s: Stall, t: Stall, cells: nat)
    requires cells > 1 && Home(s.fingerprint, cells) == Home(t.fingerprint, cells)
    ensures var home := Home(t.fingerprint, cells);
            CellsFrom([s, t], cells, {}) == [home, (home + Stride(t.fingerprint, cells)) % cells]
  {
    var home, stride := Home(t.fingerprint, cells), Stride(t.fingerprint, cells);
    CellsFromHead([s, t], cells, {});
    assert [s, t][1..] == [t] && {} + {home} == {home};
    CellsFromHead([t], cells, {home});
    assert [t][1..] == [];
    OneStrideOn(home, stride, cells);
  }

  lemma TwoInOrder(s: Stall, t: Stall)
    requires Text.LexLeq(s.fingerprint, t.fingerprint) && s.fingerprint != t.fingerprint
    ensures InFingerprintOrder([t, s]) == [s, t]
  {
    if Text.LexLeq(t.fingerprint, s.fingerprint) { Text.LexAntisymmetric(s.fingerprint, t.fingerprint); }
    assert [t, s][1..] == [s] && [s][1..] == [];
    assert InFingerprintOrder([s]) == [s];
    assert Text.Insert(t, [], FingerprintOf) == [t];
    assert InFingerprintOrder([t, s]) == Text.Insert(t, [s], FingerprintOf) == [s, t];
  }

  /** From a taken home, one stride on is another cell, and free when only home is taken. */
  lemma OneStrideOn(home: nat, stride: nat, cells: nat)
    requires home < cells && 1 <= stride < cells
    ensures Probe(home, stride, cells, {home}, cells) == (home + stride) % cells
  {
    var next := (home + stride) % cells;
    assert next != home by {
      if home + stride < cells {
        assert next == home + stride;
      } else {
        UniqueRemainder(home + stride, cells, 1, home + stride - cells);
      }
    }
    assert Probe(next, stride, cells, {home}, cells - 1) == next;
  }

  // ---- When nobody shares a square

  lemma FullSetIsLarge(taken: set<nat>, cells: nat)
    requires forall d :: 0 <= d < cells ==> d in taken
    ensures |taken| >= cells
  {
    var all := Below(cells);
    assert all <= taken;
    assert |taken - all| + |all| == |taken|;
  }

  function Below(n: nat): (r: set<nat>)
    ensures forall d: nat :: d in r <==> d < n
    ensures |r| == n
  {
    if n == 0 then {} else Below(n - 1) + {n - 1}
  }

  lemma {:induction false} OccupiedIsSmall(at: seq<nat>)
    ensures |Occupied(at)| <= |at|
  {
    if at != [] {
      var n := |at| - 1;
      OccupiedIsSmall(at[..n]);
      assert at == at[..n] + [at[n]];
      assert Occupied(at) == Occupied(at[..n]) + {at[n]};
    }
  }

  ghost predicate AllDifferent(placed: seq<Placed>)
  {
    forall i, j :: 0 <= i < j < |placed| ==>
      (placed[i].col, placed[i].row) != (placed[j].col, placed[j].row)
  }

  lemma CoprimeStrideLandsFree(fingerprint: string, cells: nat, before: seq<nat>)
    requires |before| < cells && Gcd(Stride(fingerprint, cells), cells) == 1
    ensures CellFor(fingerprint, cells, Occupied(before)) !in before
  {
    var taken := Occupied(before);
    LandingIsExact(fingerprint, cells, taken);
    OccupiedIsSmall(before);
    if CellFor(fingerprint, cells, taken) in taken {
      FullSetIsLarge(taken, cells);
    }
  }

  /** Strides coprime to the cell count, and no more stalls than cells: all different. */
  lemma CoprimeStridesNeverShare(stalls: seq<Stall>, cols: nat, rows: nat)
    requires cols > 0 && rows > 0 && |stalls| <= cols * rows
    requires forall s :: s in stalls ==> Gcd(Stride(s.fingerprint, cols * rows), cols * rows) == 1
    ensures AllDifferent(Placement(stalls, cols, rows))
  {
    var cells := cols * rows;
    var sorted := InFingerprintOrder(stalls);
    var placed := Placement(stalls, cols, rows);
    forall i, j | 0 <= i < j < |placed|
      ensures (placed[i].col, placed[i].row) != (placed[j].col, placed[j].row)
    {
      assert sorted[j] in multiset(sorted);
      assert sorted[j] in stalls;
      LandsApart(sorted, cells, i, j);
      var at := CellsFrom(sorted, cells, {});
      CellOfOnGrid(sorted[i], at[i], cols, rows);
      CellOfOnGrid(sorted[j], at[j], cols, rows);
    }
  }

  lemma LandsApart(sorted: seq<Stall>, cells: nat, i: nat, j: nat)
    requires i < j < |sorted| <= cells
    requires Gcd(Stride(sorted[j].fingerprint, cells), cells) == 1
    ensures CellsFrom(sorted, cells, {})[i] != CellsFrom(sorted, cells, {})[j]
  {
    var at := CellsFrom(sorted, cells, {});
    CoprimeStrideLandsFree(sorted[j].fingerprint, cells, at[..j]);
    CellsFromAt(sorted, cells, {}, j);
    assert {} + Occupied(at[..j]) == Occupied(at[..j]);
    assert at[..j][i] == at[i];
  }

  ghost predicate IsPrime(n: nat)
  {
    n >= 2 && forall d, k :: 1 <= d && 1 <= k && d * k == n ==> d == 1 || d == n
  }

  /** A prime number of cells makes every stride coprime to it. */
  lemma PrimeGridHasCoprimeStrides(fingerprint: string, cells: nat)
    requires IsPrime(cells)
    ensures Gcd(Stride(fingerprint, cells), cells) == 1
  {
    var stride := Stride(fingerprint, cells);
    var g := Gcd(stride, cells);
    var p, q := GcdDivides(stride, cells);
    assert q >= 1 && p >= 1;
    assert g * q == cells;
    Distribute(g, p - 1, 1);
    assert stride == g * (p - 1) + g;
    assert g <= stride < cells;
  }

  lemma PrimeGridNeverShares(stalls: seq<Stall>, cols: nat, rows: nat)
    requires cols > 0 && rows > 0 && |stalls| <= cols * rows && IsPrime(cols * rows)
    ensures AllDifferent(Placement(stalls, cols, rows))
  {
    forall s | s in stalls ensures Gcd(Stride(s.fingerprint, cols * rows), cols * rows) == 1 {
      PrimeGridHasCoprimeStrides(s.fingerprint, cols * rows);
    }
    CoprimeStridesNeverShare(stalls, cols, rows);
  }

  // ---- Stability

  ghost predicate DistinctFingerprints(stalls: seq<Stall>)
  {
    forall i, j :: 0 <= i < j < |stalls| ==> stalls[i].fingerprint != stalls[j].fingerprint
  }

  /** The same stalls give the same map, however the roster was ordered. */
  lemma OrderOfRosterIsIrrelevant(a: seq<Stall>, b: seq<Stall>, cols: nat, rows: nat)
    requires cols > 0 && rows > 0
    requires multiset(a) == multiset(b) && DistinctFingerprints(a)
    ensures Placement(a, cols, rows) == Placement(b, cols, rows)
  {
    forall x, y | x in a && y in a && FingerprintOf(x) == FingerprintOf(y) ensures x == y {
      var i :| 0 <= i < |a| && a[i] == x;
      var j :| 0 <= j < |a| && a[j] == y;
    }
    Text.SortIgnoresOrder(a, b, FingerprintOf);
  }

  /** The cells looked at while probing, the landing cell included. */
  function ProbePath(cell: nat, stride: nat, cells: nat, taken: set<nat>, left: nat): set<nat>
    requires cell < cells
    decreases left
  {
    if left == 0 || cell !in taken then {cell}
    else {cell} + ProbePath((cell + stride) % cells, stride, cells, taken, left - 1)
  }

  function PathFor(fingerprint: string, cells: nat, taken: set<nat>): set<nat>
    requires cells > 0
  {
    ProbePath(Home(fingerprint, cells), Stride(fingerprint, cells), cells, taken, cells)
  }

  lemma {:induction false} OffPathCellIsIrrelevant(
    cell: nat, stride: nat, cells: nat, taken: set<nat>, left: nat, x: nat)
    requires cell < cells
    requires x !in ProbePath(cell, stride, cells, taken, left)
          || x !in ProbePath(cell, stride, cells, taken + {x}, left)
    ensures Probe(cell, stride, cells, taken, left) == Probe(cell, stride, cells, taken + {x}, left)
    ensures ProbePath(cell, stride, cells, taken, left) == ProbePath(cell, stride, cells, taken + {x}, left)
    decreases left
  {
    if left > 0 && cell in taken {
      OffPathCellIsIrrelevant((cell + stride) % cells, stride, cells, taken, left - 1, x);
    }
  }

  /** No stall of `stalls`, placed in this order after `taken`, looks at `x`. */
  ghost predicate NobodyLooksAt(stalls: seq<Stall>, cells: nat, taken: set<nat>, x: nat)
    requires cells > 0
  {
    stalls != [] ==>
      var c := CellFor(stalls[0].fingerprint, cells, taken);
      && x !in PathFor(stalls[0].fingerprint, cells, taken)
      && NobodyLooksAt(stalls[1..], cells, taken + {c}, x)
  }

  lemma {:induction false} UnseenCellMovesNobody(stalls: seq<Stall>, cells: nat, taken: set<nat>, x: nat)
    requires cells > 0
    requires NobodyLooksAt(stalls, cells, taken, x) || NobodyLooksAt(stalls, cells, taken + {x}, x)
    ensures CellsFrom(stalls, cells, taken) == CellsFrom(stalls, cells, taken + {x})
  {
    if stalls != [] {
      var fp := stalls[0].fingerprint;
      OffPathCellIsIrrelevant(Home(fp, cells), Stride(fp, cells), cells, taken, cells, x);
      var c := CellFor(fp, cells, taken);
      assert taken + {x} + {c} == taken + {c} + {x};
      UnseenCellMovesNobody(stalls[1..], cells, taken + {c}, x);
    }
  }

  lemma {:induction false} CellsFromSplit(pre: seq<Stall>, post: seq<Stall>, cells: nat, taken: set<nat>)
    requires cells > 0
    ensures var first := CellsFrom(pre, cells, taken);
            CellsFrom(pre + post, cells, taken)
              == first + CellsFrom(post, cells, taken + Occupied(first))
  {
    if pre == [] {
      assert pre + post == post && taken + Occupied([]) == taken;
      assert [] + CellsFrom(post, cells, taken) == CellsFrom(post, cells, taken);
    } else {
      assert (pre + post)[0] == pre[0] && (pre + post)[1..] == pre[1..] + post;
      CellsFromHead(pre + post, cells, taken);
      CellsFromHead(pre, cells, taken);
      var c := CellFor(pre[0].fingerprint, cells, taken);
      CellsFromSplit(pre[1..], post, cells, taken + {c});
      var rest := CellsFrom(pre[1..], cells, taken + {c});
      OccupiedCons(taken, c, rest);
      var tail := CellsFrom(post, cells, taken + {c} + Occupied(rest));
      Regroup([c], rest, tail);
    }
  }

  lemma Regroup(a: seq<nat>, b: seq<nat>, c: seq<nat>)
    ensures a + (b + c) == a + b + c
  {}

  lemma OccupiedCons(taken: set<nat>, c: nat, rest: seq<nat>)
    ensures taken + {c} + Occupied(rest) == taken + Occupied([c] + rest)
  {
    assert Occupied([c] + rest) == {c} + Occupied(rest);
  }

  lemma UnseenStallMovesNobody(pre: seq<Stall>, s: Stall, post: seq<Stall>, cells: nat)
    requires cells > 0
    requires var before := Occupied(CellsFrom(pre, cells, {}));
             var x := CellFor(s.fingerprint, cells, before);
             NobodyLooksAt(post, cells, before, x) || NobodyLooksAt(post, cells, before + {x}, x)
    ensures var without := CellsFrom(pre + post, cells, {});
            var with := CellsFrom(pre + [s] + post, cells, {});
            with[..|pre|] == without[..|pre|] && with[|pre| + 1..] == without[|pre|..]
  {
    var first := CellsFrom(pre, cells, {});
    var before := Occupied(first);
    var x := CellFor(s.fingerprint, cells, before);
    assert {} + before == before;
    CellsFromSplit(pre, post, cells, {});
    CellsFromSplit(pre, [s] + post, cells, {});
    assert pre + [s] + post == pre + ([s] + post);
    assert ([s] + post)[1..] == post;
    UnseenCellMovesNobody(post, cells, before, x);
  }

  /** The cell of `s` is looked at by no stall sorted after `s`, either on the map without
      `s` or on the map with it. */
  ghost predicate UnseenByLater(stalls: seq<Stall>, s: Stall, cells: nat)
    requires cells > 0
  {
    var sorted := InFingerprintOrder(stalls);
    var k := Text.Position(s, sorted, FingerprintOf);
    var before := Occupied(CellsFrom(sorted[..k], cells, {}));
    var x := CellFor(s.fingerprint, cells, before);
    NobodyLooksAt(sorted[k..], cells, before, x) || NobodyLooksAt(sorted[k..], cells, before + {x}, x)
  }

  /** One stall arriving at or leaving a roster, in whatever order the two rosters come:
      if nobody sorted after it looks at its cell, everybody else stands where they stood. */
  lemma ArrivalOrDepartureMovesNobody(stalls: seq<Stall>, s: Stall, larger: seq<Stall>, cols: nat, rows: nat)
    requires cols > 0 && rows > 0
    requires multiset(larger) == multiset([s] + stalls) && DistinctFingerprints(larger)
    requires UnseenByLater(stalls, s, cols * rows)
    ensures var k := Text.Position(s, InFingerprintOrder(stalls), FingerprintOf);
            var with, without := Placement(larger, cols, rows), Placement(stalls, cols, rows);
            && |with| == |without| + 1 && with[k].item == s
            && with[..k] == without[..k] && with[k + 1..] == without[k..]
  {
    OrderOfRosterIsIrrelevant(larger, [s] + stalls, cols, rows);
    NewcomerMovesNobody(stalls, s, cols * rows, cols);
  }

  lemma NewcomerMovesNobody(stalls: seq<Stall>, s: Stall, cells: nat, cols: nat)
    requires cells > 0 && cols > 0 && UnseenByLater(stalls, s, cells)
    ensures var sorted, more := InFingerprintOrder(stalls), InFingerprintOrder([s] + stalls);
            var k := Text.Position(s, sorted, FingerprintOf);
            var with := OnGridAll(more, CellsFrom(more, cells, {}), cols);
            var without := OnGridAll(sorted, CellsFrom(sorted, cells, {}), cols);
            && |with| == |without| + 1 && with[k].item == s
            && with[..k] == without[..k] && with[k + 1..] == without[k..]
  {
    var sorted := InFingerprintOrder(stalls);
    var k := Text.Position(s, sorted, FingerprintOf);
    SortWithNewcomer(stalls, s);
    NewcomerAt(sorted, k, s, cells, cols);
  }

  lemma NewcomerAt(sorted: seq<Stall>, k: nat, s: Stall, cells: nat, cols: nat)
    requires cells > 0 && cols > 0 && k <= |sorted|
    requires var before := Occupied(CellsFrom(sorted[..k], cells, {}));
             var x := CellFor(s.fingerprint, cells, before);
             NobodyLooksAt(sorted[k..], cells, before, x) || NobodyLooksAt(sorted[k..], cells, before + {x}, x)
    ensures var more := sorted[..k] + [s] + sorted[k..];
            var with := OnGridAll(more, CellsFrom(more, cells, {}), cols);
            var without := OnGridAll(sorted, CellsFrom(sorted, cells, {}), cols);
            && |with| == |without| + 1 && with[k].item == s
            && with[..k] == without[..k] && with[k + 1..] == without[k..]
  {
    var pre, post := sorted[..k], sorted[k..];
    assert pre + post == sorted;
    UnseenStallMovesNobody(pre, s, post, cells);
    SamePlaces(sorted, CellsFrom(sorted, cells, {}), s, k, CellsFrom(pre + [s] + post, cells, {}), cols);
  }

  lemma SortWithNewcomer(stalls: seq<Stall>, s: Stall)
    ensures var sorted := InFingerprintOrder(stalls);
            var k := Text.Position(s, sorted, FingerprintOf);
            InFingerprintOrder([s] + stalls) == sorted[..k] + [s] + sorted[k..]
  {
    assert ([s] + stalls)[1..] == stalls;
    Text.InsertAtPosition(s, InFingerprintOrder(stalls), FingerprintOf);
  }

  lemma SamePlaces(items: seq<Stall>, at: seq<nat>, s: Stall, k: nat, at': seq<nat>, cols: nat)
    requires cols > 0 && k <= |items| == |at| && |at'| == |at| + 1
    requires at'[..k] == at[..k] && at'[k + 1..] == at[k..]
    ensures var with := OnGridAll(items[..k] + [s] + items[k..], at', cols);
            var without := OnGridAll(items, at, cols);
            with[k].item == s && with[..k] == without[..k] && with[k + 1..] == without[k..]
  {
    var items' := items[..k] + [s] + items[k..];
    var with, without := OnGridAll(items', at', cols), OnGridAll(items, at, cols);
    forall i | 0 <= i < k ensures with[i] == without[i] {
      assert at'[..k][i] == at[..k][i];
    }
    forall i | k <= i < |items| ensures with[i + 1] == without[i] {
      assert at'[k + 1..][i - k] == at[k..][i - k];
    }
  }
}
