/** Rigid, clamped movement of a row of paddles (the `move_players` lambda). */
module Rows {
  import opened Geometry

  /** Every paddle centre of the row is inside the band. */
  predicate InBand(s: seq<Vec>) {
    forall k :: 0 <= k < |s| ==> PaddleBottom <= s[k].y <= PaddleTop
  }

  /** Every paddle of the row stands on the vertical line at x. */
  predicate OnLine(s: seq<Vec>, x: real) {
    forall k :: 0 <= k < |s| ==> s[k].x == x
  }

  /** The row keeps its layout: all paddles on one vertical line at x, each
   *  paddle one gap below the one before it, and all inside the band. */
  predicate Formation(s: seq<Vec>, x: real, gap: real) {
    |s| > 0 && InBand(s) && OnLine(s, x) &&
    (forall k :: 0 < k < |s| ==> Spaced(s, k, gap))
  }

  /** Paddle k sits one gap below paddle k - 1. */
  predicate Spaced(s: seq<Vec>, k: int, gap: real)
    requires 0 < k < |s|
  {
    s[k - 1].y - s[k].y == gap
  }

  /** With a positive gap, index 0 is the topmost paddle and y falls
   *  strictly along the row: any two paddles are at least one gap apart. */
  lemma {:induction false} FormationDescends(s: seq<Vec>, x: real, gap: real, i: int, j: int)
    requires Formation(s, x, gap) && gap > 0.0
    requires 0 <= i < j < |s|
    ensures s[i].y - s[j].y >= gap
    decreases j - i
  {
    assert Spaced(s, j, gap);
    if i < j - 1 {
      FormationDescends(s, x, gap, i, j - 1);
    }
  }

  /** One pass of the first loop of move_players: if the pending move would
   *  push this paddle out of the band, the move becomes the distance from
   *  the paddle to the edge it would cross. */
  function ClampStep(y: real, move: real): real {
    var pos := y + move;
    if pos > PaddleTop then PaddleTop - y
    else if pos < PaddleBottom then PaddleBottom - y
    else move
  }

  /** The move left after the first loop has visited every paddle in order. */
  function FinalMove(s: seq<Vec>, move: real): real
    decreases |s|
  {
    if s == [] then move else FinalMove(s[1..], ClampStep(s[0].y, move))
  }

  /** Every paddle of the row moved vertically by d. */
  function Shifted(s: seq<Vec>, d: real): seq<Vec> {
    seq(|s|, k requires 0 <= k < |s| => s[k].(y := s[k].y + d))
  }

  /** What move_players does to a row: one common, clamped shift. */
  function Moved(s: seq<Vec>, move: real): seq<Vec> {
    Shifted(s, FinalMove(s, move))
  }

  /** move_players applied when `on` holds (a held key). */
  function Pushed(s: seq<Vec>, on: bool, move: real): seq<Vec> {
    if on then Moved(s, move) else s
  }

  /** Clamping never reverses the move: the final move has the sign of the
   *  requested one and no larger magnitude, and it keeps every paddle of an
   *  in-band row inside the band. */
  lemma {:induction false} FinalMoveBounds(s: seq<Vec>, move: real)
    requires InBand(s)
    ensures move >= 0.0 ==> 0.0 <= FinalMove(s, move) <= move
    ensures move <= 0.0 ==> move <= FinalMove(s, move) <= 0.0
    ensures InBand(Shifted(s, FinalMove(s, move)))
  {
    if s != [] {
      var m1 := ClampStep(s[0].y, move);
      assert InBand(s[1..]) by {
        forall k | 0 <= k < |s[1..]| ensures PaddleBottom <= s[1..][k].y <= PaddleTop {
          assert s[1..][k] == s[k + 1];
        }
      }
      FinalMoveBounds(s[1..], m1);
      var r := FinalMove(s, move);
      assert r == FinalMove(s[1..], m1);
      assert PaddleBottom <= s[0].y + r <= PaddleTop;
      forall k | 0 <= k < |s| ensures PaddleBottom <= Shifted(s, r)[k].y <= PaddleTop {
        if k > 0 {
          assert Shifted(s, r)[k] == Shifted(s[1..], r)[k - 1];
        }
      }
    }
  }

  /** Rows never separate: every paddle moves by the same amount, so the
   *  vertical distances between paddles and all x values are unchanged. */
  lemma MovedIsRigid(s: seq<Vec>, move: real)
    ensures |Moved(s, move)| == |s|
    ensures forall i, j :: 0 <= i < |s| && 0 <= j < |s| ==>
      Moved(s, move)[i].x == s[i].x && Moved(s, move)[i].y - Moved(s, move)[j].y == s[i].y - s[j].y
  {
  }

  /** A row in formation is still in formation, on the same line and with
   *  the same spacing, after any move. */
  lemma MovedKeepsFormation(s: seq<Vec>, x: real, gap: real, move: real)
    requires Formation(s, x, gap)
    ensures Formation(Moved(s, move), x, gap)
  {
    FinalMoveBounds(s, move);
    var m := Moved(s, move);
    forall k | 0 < k < |m| ensures Spaced(m, k, gap) {
      assert Spaced(s, k, gap);
    }
  }

  lemma PushedKeepsFormation(s: seq<Vec>, x: real, gap: real, on: bool, move: real)
    requires Formation(s, x, gap)
    ensures Formation(Pushed(s, on, move), x, gap)
  {
    if on { MovedKeepsFormation(s, x, gap, move); }
  }

  /** The move_players lambda: a first loop that reassigns the move for
   *  every paddle that would leave the band, then a second loop that adds
   *  the final move to every paddle in place. */
  method MovePlayers(row: array<Vec>, move: real)
    modifies row
    ensures row[..] == Moved(old(row[..]), move)
  {
    var m := move;
    for i := 0 to row.Length
      invariant FinalMove(row[i..], m) == FinalMove(row[..], move)
    {
      assert row[i..][1..] == row[i + 1..];
      var pos := row[i].y + m;
      if pos > PaddleTop {
        m := PaddleTop - row[i].y;
      } else if pos < PaddleBottom {
        m := PaddleBottom - row[i].y;
      }
    }
    assert row[row.Length..] == [];
    for i := 0 to row.Length
      invariant forall k :: 0 <= k < i ==> row[k] == old(row[k]).(y := old(row[k]).y + m)
      invariant forall k :: i <= k < row.Length ==> row[k] == old(row[k])
    {
      row[i] := row[i].(y := row[i].y + m);
    }
  }

  /** move_players behind a held key's test. */
  method PushRow(row: array<Vec>, on: bool, move: real)
    modifies row
    ensures row[..] == Pushed(old(row[..]), on, move)
  {
    if on {
      MovePlayers(row, move);
    }
  }
}
