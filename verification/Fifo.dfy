/** A queue with one writer onto a reliable wire that may be cut: what is read comes in the
    order it was put. */
module Fifo {

  /** While the wire holds, what was put is what was read, then what is in transit, in hand
      and queued; once it is cut, what was read and is still in transit came first. */
  ghost predicate InTurn<F>(put: seq<F>, got: seq<F>, down: seq<F>, hand: seq<F>, out: seq<F>, cut: bool)
  {
    if cut then got + down <= put else got + down + hand + out == put
  }

  lemma CutInTurn<F>(
    put: seq<F>, got: seq<F>, down: seq<F>, lost: seq<F>, hand: seq<F>, out: seq<F>, cut: bool,
    hand': seq<F>, out': seq<F>)
    requires InTurn(put, got, down + lost, hand, out, cut)
    ensures InTurn(put, got, down, hand', out', true)
  {
    assert got + (down + lost) == (got + down) + lost;
    if !cut {
      assert got + (down + lost) + hand + out == (got + down) + (lost + hand + out);
    }
  }

  lemma PutInTurn<F>(put: seq<F>, got: seq<F>, down: seq<F>, hand: seq<F>, out: seq<F>, cut: bool, more: seq<F>)
    requires InTurn(put, got, down, hand, out, cut)
    ensures InTurn(put + more, got, down, hand, out + more, cut)
  {
    assert got + down + hand + (out + more) == got + down + hand + out + more;
  }

  lemma SendInTurn<F>(put: seq<F>, got: seq<F>, down: seq<F>, hand: seq<F>, out: seq<F>, cut: bool)
    requires InTurn(put, got, down, hand, out, cut)
    ensures InTurn(put, got, if cut then down else down + hand, [], out, cut)
  {
    assert got + (down + hand) + [] + out == got + down + hand + out;
  }

  lemma TakeInTurn<F>(put: seq<F>, got: seq<F>, down: seq<F>, out: seq<F>, cut: bool)
    requires InTurn(put, got, down, [], out, cut) && out != []
    ensures InTurn(put, got, down, [out[0]], out[1..], cut)
  {
    assert got + down + [out[0]] + out[1..] == got + down + [] + ([out[0]] + out[1..]);
    assert out == [out[0]] + out[1..];
  }

  lemma ReadInTurn<F>(put: seq<F>, got: seq<F>, down: seq<F>, hand: seq<F>, out: seq<F>, cut: bool)
    requires InTurn(put, got, down, hand, out, cut) && down != []
    ensures InTurn(put, got + [down[0]], down[1..], hand, out, cut)
  {
    assert got + [down[0]] + down[1..] == got + down;
  }

  /** What was put is read, or somewhere on its way, while the wire holds. */
  lemma PutIsSomewhere<F>(put: seq<F>, got: seq<F>, down: seq<F>, hand: seq<F>, out: seq<F>, f: F)
    requires InTurn(put, got, down, hand, out, false) && f in put
    ensures f in got || f in down + hand + out
  {
    assert got + down + hand + out == got + (down + hand + out);
  }

  lemma ReadCameFirst<F>(put: seq<F>, got: seq<F>, down: seq<F>, hand: seq<F>, out: seq<F>, cut: bool)
    requires InTurn(put, got, down, hand, out, cut)
    ensures got <= put
  {
    var rest := if cut then down else down + hand + out;
    if !cut {
      assert got + down + hand + out == got + rest;
    }
    assert forall i :: 0 <= i < |got| ==> got[i] == (got + rest)[i];
  }
}
