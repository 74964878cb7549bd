/**
 * `toDests` of components/chessground/to-dests.ts: the legal moves, given as
 * (from, to) square pairs in the order the move generator lists them, grouped
 * into a map from each origin square to its destinations.  The move list is
 * an input here; the move generator itself is not part of this model.
 */
module ToDests {

  type Square = string
  type Move = (Square, Square)

  /** The origin squares of `moves`. */
  function FromSet(moves: seq<Move>): set<Square> {
    if moves == [] then {} else FromSet(moves[..|moves| - 1]) + {moves[|moves| - 1].0}
  }

  /** The destinations of the moves from `from`, in input order, duplicates kept. */
  function TosFrom(moves: seq<Move>, from: Square): seq<Square> {
    if moves == [] then []
    else
      var last := moves[|moves| - 1];
      TosFrom(moves[..|moves| - 1], from) + if last.0 == from then [last.1] else []
  }

  predicate NoDuplicates(keys: seq<Square>) {
    forall i, j :: 0 <= i < j < |keys| ==> keys[i] != keys[j]
  }

  /** The position of the first move from `from`, or `|moves|` when there is none. */
  function FirstIndex(moves: seq<Move>, from: Square): (r: nat)
    ensures r <= |moves|
    ensures r < |moves| <==> from in FromSet(moves)
    ensures r < |moves| ==> moves[r].0 == from
    ensures forall j :: 0 <= j < r ==> moves[j].0 != from
  {
    if moves == [] then 0
    else
      var k := FirstIndex(moves[..|moves| - 1], from);
      if k < |moves| - 1 then k
      else if moves[|moves| - 1].0 == from then |moves| - 1
      else |moves|
  }

  /**
   * The origin squares in order of first appearance, which is the order the
   * map's keys are inserted in: each origin once, ordered by its first move.
   */
  function Froms(moves: seq<Move>): (r: seq<Square>)
    ensures NoDuplicates(r)
    ensures forall f :: f in r <==> f in FromSet(moves)
    ensures forall i, j :: 0 <= i < j < |r| ==> FirstIndex(moves, r[i]) < FirstIndex(moves, r[j])
  {
    if moves == [] then []
    else
      var front := moves[..|moves| - 1];
      var earlier := Froms(front);
      var from := moves[|moves| - 1].0;
      FirstIndexOfEarlier(moves, earlier);
      if from in earlier then earlier else earlier + [from]
  }

  /** Squares that already start a move keep their first index when a move is added. */
  lemma FirstIndexOfEarlier(moves: seq<Move>, earlier: seq<Square>)
    requires moves != []
    requires forall f :: f in earlier <==> f in FromSet(moves[..|moves| - 1])
    ensures forall f <- earlier :: FirstIndex(moves, f) == FirstIndex(moves[..|moves| - 1], f) < |moves| - 1
    ensures moves[|moves| - 1].0 !in earlier ==> FirstIndex(moves, moves[|moves| - 1].0) == |moves| - 1
  {
  }

  /** `dests` maps every origin square, and only those, to its destinations. */
  predicate Grouped(dests: map<Square, seq<Square>>, moves: seq<Move>) {
    dests.Keys == FromSet(moves) && forall f <- dests.Keys :: dests[f] == TosFrom(moves, f)
  }

  /** One turn of the loop: append to an existing list, or start a new one. */
  lemma GroupStep(dests: map<Square, seq<Square>>, moves: seq<Move>, i: nat)
    requires i < |moves| && Grouped(dests, moves[..i])
    ensures var (from, to) := moves[i];
            Grouped(if from in dests then dests[from := dests[from] + [to]] else dests[from := [to]],
                    moves[..i + 1])
  {
    assert moves[..i + 1][..i] == moves[..i];
    var (from, to) := moves[i];
    if from !in dests {
      NoListWithoutMove(moves[..i], from);
    }
  }

  /** A square no move starts from has no destinations. */
  lemma {:induction false} NoListWithoutMove(moves: seq<Move>, from: Square)
    requires from !in FromSet(moves)
    ensures TosFrom(moves, from) == []
  {
    if moves != [] {
      NoListWithoutMove(moves[..|moves| - 1], from);
    }
  }

  /** `toDests` */
  method ToDests(moves: seq<Move>) returns (dests: map<Square, seq<Square>>)
    ensures Grouped(dests, moves)
  {
    dests := map[];
    assert moves[..0] == [];
    var i := 0;
    while i < |moves|
      invariant 0 <= i <= |moves|
      invariant Grouped(dests, moves[..i])
    {
      GroupStep(dests, moves, i);
      var (from, to) := moves[i];
      if from in dests {
        dests := dests[from := dests[from] + [to]];
      } else {
        dests := dests[from := [to]];
      }
      i := i + 1;
    }
    assert moves[..i] == moves;
  }

  /** No moves, no entries. */
  lemma EmptyMovesEmptyMap(dests: map<Square, seq<Square>>)
    requires Grouped(dests, [])
    ensures dests == map[]
  {
  }

  /** Every list in the map is non-empty. */
  lemma {:induction false} ListsAreNonEmpty(moves: seq<Move>, from: Square)
    requires from in FromSet(moves)
    ensures TosFrom(moves, from) != []
  {
    if moves != [] && moves[|moves| - 1].0 != from {
      ListsAreNonEmpty(moves[..|moves| - 1], from);
    }
  }

  /** A destination is listed under `from` exactly when the pair is one of the moves. */
  lemma {:induction false} ListedExactlyTheMoves(moves: seq<Move>, from: Square, to: Square)
    ensures to in TosFrom(moves, from) <==> (from, to) in moves
  {
    if moves != [] {
      var front := moves[..|moves| - 1];
      ListedExactlyTheMoves(front, from, to);
      assert moves == front + [moves[|moves| - 1]];
    }
  }

  /** The total length of the lists of `keys`. */
  function TotalLength(moves: seq<Move>, keys: seq<Square>): nat {
    if keys == [] then 0 else |TosFrom(moves, keys[0])| + TotalLength(moves, keys[1..])
  }

  lemma {:induction false} TotalLengthAppend(moves: seq<Move>, keys: seq<Square>, key: Square)
    ensures TotalLength(moves, keys + [key]) == TotalLength(moves, keys) + |TosFrom(moves, key)|
  {
    if keys != [] {
      assert (keys + [key])[1..] == keys[1..] + [key];
      TotalLengthAppend(moves, keys[1..], key);
    }
  }

  /** Adding one move lengthens the list of its origin by one and no other. */
  lemma {:induction false} TotalLengthStep(moves: seq<Move>, keys: seq<Square>)
    requires moves != [] && NoDuplicates(keys)
    ensures var front := moves[..|moves| - 1];
            TotalLength(moves, keys)
            == TotalLength(front, keys) + if moves[|moves| - 1].0 in keys then 1 else 0
  {
    if keys != [] {
      assert NoDuplicates(keys[1..]) by {
        forall i, j | 0 <= i < j < |keys[1..]| ensures keys[1..][i] != keys[1..][j] {
          assert keys[1..][i] == keys[i + 1] && keys[1..][j] == keys[j + 1];
        }
      }
      TotalLengthStep(moves, keys[1..]);
      assert moves[|moves| - 1].0 in keys <==> moves[|moves| - 1].0 == keys[0] || moves[|moves| - 1].0 in keys[1..];
      if moves[|moves| - 1].0 == keys[0] {
        assert keys[0] !in keys[1..];
      }
    }
  }

  /** Nothing is lost or merged: the lists hold as many squares as there are moves. */
  lemma {:induction false} TotalIsMoveCount(moves: seq<Move>)
    ensures TotalLength(moves, Froms(moves)) == |moves|
  {
    if moves != [] {
      var front := moves[..|moves| - 1];
      var from := moves[|moves| - 1].0;
      TotalIsMoveCount(front);
      TotalLengthStep(moves, Froms(front));
      if from !in Froms(front) {
        TotalLengthAppend(moves, Froms(front), from);
        NoListWithoutMove(front, from);
      }
    }
  }
}
