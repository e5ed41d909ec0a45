/** The history of audio bytes handed to a transport, with the fate of each byte.

    A cell is one byte ever put on the outbound queue; it is live until a barge-in or
    a reset discards it. Discarding always hits everything queued behind some point,
    so it keeps the first k live cells. */
module History {
  import opened Base

  datatype Cell = Cell(value: byte, live: bool)

  /** The bytes that were not discarded, in the order they were queued. */
  ghost function Live(cells: seq<Cell>): seq<byte> {
    if cells == [] then []
    else (if cells[0].live then [cells[0].value] else []) + Live(cells[1..])
  }

  ghost function Arrived(data: seq<byte>): (r: seq<Cell>)
    ensures |r| == |data| && forall i :: 0 <= i < |r| ==> r[i] == Cell(data[i], true)
  {
    seq(|data|, i requires 0 <= i < |data| => Cell(data[i], true))
  }

  /** All live cells but the first `keep` are discarded; none is removed or reordered. */
  ghost function Discard(cells: seq<Cell>, keep: nat): seq<Cell> {
    if cells == [] then []
    else if !cells[0].live then [cells[0]] + Discard(cells[1..], keep)
    else if keep > 0 then [cells[0]] + Discard(cells[1..], keep - 1)
    else [cells[0].(live := false)] + Discard(cells[1..], 0)
  }

  lemma {:induction false} LiveConcat(a: seq<Cell>, b: seq<Cell>)
    ensures Live(a + b) == Live(a) + Live(b)
  {
    if a == [] {
      assert a + b == b;
    } else {
      assert (a + b)[1..] == a[1..] + b;
      LiveConcat(a[1..], b);
    }
  }

  lemma {:induction false} LiveArrived(data: seq<byte>)
    ensures Live(Arrived(data)) == data
  {
    if data != [] {
      assert Arrived(data)[1..] == Arrived(data[1..]);
      LiveArrived(data[1..]);
    }
  }

  lemma ArrivalAppends(cells: seq<Cell>, data: seq<byte>)
    ensures Live(cells + Arrived(data)) == Live(cells) + data
  {
    LiveConcat(cells, Arrived(data));
    LiveArrived(data);
  }

  /** Live bytes among the first p cells are the first live bytes. */
  lemma LiveOfPrefix(cells: seq<Cell>, p: nat)
    requires p <= |cells|
    ensures Live(cells[..p]) <= Live(cells)
  {
    assert cells == cells[..p] + cells[p..];
    LiveConcat(cells[..p], cells[p..]);
  }

  lemma {:induction false} DiscardKeepsFirst(cells: seq<Cell>, keep: nat)
    ensures |Discard(cells, keep)| == |cells|
    ensures Live(Discard(cells, keep)) == Live(cells)[..Min(keep, |Live(cells)|)]
  {
    if cells != [] {
      if !cells[0].live {
        DiscardKeepsFirst(cells[1..], keep);
      } else if keep > 0 {
        DiscardKeepsFirst(cells[1..], keep - 1);
        assert Discard(cells, keep)[1..] == Discard(cells[1..], keep - 1);
      } else {
        DiscardKeepsFirst(cells[1..], 0);
        assert Discard(cells, keep)[1..] == Discard(cells[1..], 0);
      }
    }
  }

  lemma {:induction false} DiscardOfPrefix(cells: seq<Cell>, keep: nat, p: nat)
    requires p <= |cells|
    ensures |Discard(cells, keep)| == |cells|
    ensures Discard(cells, keep)[..p] == Discard(cells[..p], keep)
  {
    DiscardKeepsFirst(cells, keep);
    if p > 0 {
      assert cells[..p][1..] == cells[1..][..p - 1];
      var k := if cells[0].live && keep > 0 then keep - 1 else if cells[0].live then 0 else keep;
      DiscardOfPrefix(cells[1..], k, p - 1);
      assert Discard(cells, keep)[1..] == Discard(cells[1..], k);
      assert Discard(cells, keep)[..p] == [Discard(cells, keep)[0]] + Discard(cells, keep)[1..][..p - 1];
    }
  }

  /** Discarding lowers the number of live bytes ahead of a position to at most `keep`. */
  lemma DiscardAhead(cells: seq<Cell>, keep: nat, p: nat)
    requires p <= |cells|
    ensures |Discard(cells, keep)| == |cells|
    ensures |Live(Discard(cells, keep)[..p])| == Min(keep, |Live(cells[..p])|)
  {
    DiscardOfPrefix(cells, keep, p);
    DiscardKeepsFirst(cells[..p], keep);
  }
}
