/** The prototype's layout generator (`place_ships` in test.py): every ship of a
    given list of lengths is placed in one of four directions, with up to 200
    random attempts per ship, and the whole layout fails when one ship cannot be
    placed. Board cells hold 0 for empty and k + 1 for the ship at index k. */
module ProtoLayout {
  import opened Grid

  /** `attempts_limit`. */
  const AttemptsLimit := 200

  type Board = seq<seq<int>>

  /** The random draws of one attempt: the orientation `random.choices` picks and
      the two `randint` results. A raw value stands for the in-range value it is
      congruent to, so every value `randint` can return is some raw value. */
  datatype Draw = Draw(orientation: Orientation, rx: nat, ry: nat)

  /** What `place_ships` ends with: the board, the ship coordinates and their
      orientations; `(None, None, None)` when a ship runs out of attempts; or the
      ValueError `randint(0, n - 1)` raises for n < 1. */
  datatype Placement =
    | Placed(board: Board, coords: seq<seq<Coord>>, orientations: seq<Orientation>)
    | Failed
    | RandRangeError

  function Min(a: int, b: int): int
  {
    if a <= b then a else b
  }

  function Max(a: int, b: int): int
  {
    if a >= b then a else b
  }

  /** The anchor (y, x) after the clamping step of a ship of length `len`: it is
      pulled back toward the board when the ship would run off an edge. The pulled
      anchor may itself lie off the board when the ship is too long for it. */
  function Anchor(o: Orientation, y: int, x: int, len: int, width: int, height: int): Coord
  {
    match o
    case H => (y, if x + len > width then width - len else x)
    case V => (if y + len > height then height - len else y, x)
    case DPlus =>
      if x + len > width || y + len > height then (Min(y, height - len), Min(x, width - len)) else (y, x)
    case DMinus =>
      if x - len < -1 || y + len > height then (Min(y, height - len), Max(x, len - 1)) else (y, x)
  }

  /** Whether `randint(0, width - 1)` or `randint(0, height - 1)` raises. */
  predicate Raises(width: int, height: int)
  {
    width - 1 < 0 || height - 1 < 0
  }

  /** The cells an attempt proposes: the drawn start cell, clamped, then the run. */
  function Proposal(draw: Draw, len: int, width: int, height: int): seq<Coord>
    requires !Raises(width, height)
  {
    var a := Anchor(draw.orientation, Reduce(draw.ry, height), Reduce(draw.rx, width), len, width, height);
    Run(draw.orientation, a.0, a.1, len)
  }

  /** A proposal has one cell per unit of length, in a straight line in the
      drawn direction. */
  lemma ProposalShape(draw: Draw, len: int, width: int, height: int)
    requires !Raises(width, height)
    ensures |Proposal(draw, len, width, height)| == Clip(len)
    ensures IsRunOf(Proposal(draw, len, width, height), draw.orientation)
  {
    var a := Anchor(draw.orientation, Reduce(draw.ry, height), Reduce(draw.rx, width), len, width, height);
    RunShape(draw.orientation, a.0, a.1, len);
  }

  /** A ship of length `len` has room on the board in direction o. */
  predicate Fits(o: Orientation, len: int, width: int, height: int)
  {
    match o
    case H => len <= width
    case V => len <= height
    case _ => len <= width && len <= height
  }

  /** The clamped proposal lies on the board exactly when the ship fits in its
      direction: clamping rescues every start cell of a ship that fits, and none
      of a ship that does not. */
  lemma ProposalInBounds(draw: Draw, len: int, width: int, height: int)
    requires !Raises(width, height) && len >= 1
    ensures AllInBounds(Proposal(draw, len, width, height), width, height) <==> Fits(draw.orientation, len, width, height)
  {
    var a := Anchor(draw.orientation, Reduce(draw.ry, height), Reduce(draw.rx, width), len, width, height);
    RunInBoundsByEnds(draw.orientation, a.0, a.1, len, width, height);
  }

  /** A straight run of `len` cells inside the board fits in its direction. */
  lemma RunFits(cells: seq<Coord>, o: Orientation, len: int, width: int, height: int)
    requires |cells| == len >= 1 && IsRunOf(cells, o) && AllInBounds(cells, width, height)
    ensures Fits(o, len, width, height)
  {
    assert InBounds(cells[0], width, height);
    assert InBounds(cells[len - 1], width, height);
    assert cells[len - 1] == CellAt(o, cells[0].0, cells[0].1, len - 1);
  }

  /** The availability test `all(0 <= cx < width and 0 <= cy < height and board[cy][cx] == 0 ...)`:
      every cell is inside the board and empty. */
  predicate Available(board: Board, cells: seq<Coord>, width: int, height: int)
    requires IsGrid(board, width, height)
  {
    forall i :: 0 <= i < |cells| ==> InBounds(cells[i], width, height) && board[cells[i].0][cells[i].1] == 0
  }

  /** A ship with no room in its direction is refused whatever the draw: the
      clamped anchor puts part of it off the board, and the availability test
      catches that (a horizontal ship longer than the width, say). */
  lemma OverlongRefused(board: Board, draw: Draw, len: int, width: int, height: int)
    requires IsGrid(board, width, height) && !Raises(width, height) && len >= 1
    requires !Fits(draw.orientation, len, width, height)
    ensures !Available(board, Proposal(draw, len, width, height), width, height)
  {
    ProposalInBounds(draw, len, width, height);
  }

  /** The board, read back, is the coordinate list: every cell holds a number
      from 0 to the ship count, a cell holding k + 1 is a cell of ship k, and
      every cell of ship k is inside the board and holds k + 1. So a cell holds
      k + 1 exactly on the cells of ship k, and 0 where no ship is (CellMeaning). */
  predicate Consistent(board: Board, coords: seq<seq<Coord>>, width: int, height: int)
  {
    && IsGrid(board, width, height)
    && (forall r, c {:trigger board[r][c]} :: 0 <= r < height && 0 <= c < width ==>
          0 <= board[r][c] && (board[r][c] != 0 ==> board[r][c] <= |coords| && (r, c) in coords[board[r][c] - 1]))
    && (forall k, i :: 0 <= k < |coords| && 0 <= i < |coords[k]| ==>
          InBounds(coords[k][i], width, height) && board[coords[k][i].0][coords[k][i].1] == k + 1)
  }

  /** A cell holds k + 1 exactly when ship k covers it, and 0 when no ship does. */
  lemma {:induction false} CellMeaning(board: Board, coords: seq<seq<Coord>>, width: int, height: int, p: Coord)
    requires Consistent(board, coords, width, height) && InBounds(p, width, height)
    ensures forall k :: 0 <= k < |coords| ==> (board[p.0][p.1] == k + 1 <==> p in coords[k])
    ensures board[p.0][p.1] == 0 <==> forall k :: 0 <= k < |coords| ==> p !in coords[k]
  {
    forall k | 0 <= k < |coords| && p in coords[k]
      ensures board[p.0][p.1] == k + 1
    {
      var i :| 0 <= i < |coords[k]| && coords[k][i] == p;
    }
    if board[p.0][p.1] != 0 {
      assert p in coords[board[p.0][p.1] - 1];
    }
  }

  /** The board agreeing with the coordinate list rules out two ships on one cell. */
  lemma {:induction false} ConsistentDisjoint(board: Board, coords: seq<seq<Coord>>, width: int, height: int)
    requires Consistent(board, coords, width, height)
    ensures Disjoint(coords)
  {
    forall j, k, i | 0 <= j < |coords| && 0 <= k < |coords| && j != k && 0 <= i < |coords[j]|
      ensures coords[j][i] !in coords[k]
    {
      var p := coords[j][i];
      assert board[p.0][p.1] == j + 1;
      CellMeaning(board, coords, width, height, p);
    }
  }

  /** Stamping available cells with the next ship id keeps the board in agreement
      with the coordinate list extended by those cells. */
  lemma StampAgrees(board: Board, coords: seq<seq<Coord>>, cells: seq<Coord>, width: int, height: int)
    requires Consistent(board, coords, width, height) && Available(board, cells, width, height)
    ensures Consistent(Painted(board, cells, |coords| + 1, width, height), coords + [cells], width, height)
  {
    var stamped := Painted(board, cells, |coords| + 1, width, height);
    var coords' := coords + [cells];
    PaintedCells(board, cells, |coords| + 1, width, height);
    forall r, c | 0 <= r < height && 0 <= c < width
      ensures 0 <= stamped[r][c] && (stamped[r][c] != 0 ==> stamped[r][c] <= |coords'| && (r, c) in coords'[stamped[r][c] - 1])
    {
      if (r, c) in cells {
        assert stamped[r][c] == |coords| + 1 && coords'[|coords|] == cells;
      } else {
        assert stamped[r][c] == board[r][c];
        if board[r][c] != 0 {
          assert coords'[board[r][c] - 1] == coords[board[r][c] - 1];
        }
      }
    }
    forall k, i | 0 <= k < |coords'| && 0 <= i < |coords'[k]|
      ensures InBounds(coords'[k][i], width, height) && stamped[coords'[k][i].0][coords'[k][i].1] == k + 1
    {
      if k < |coords| {
        var p := coords[k][i];
        assert coords'[k] == coords[k] && board[p.0][p.1] == k + 1;
        assert p !in cells;
      } else {
        assert coords'[k] == cells && cells[i] in cells;
      }
    }
  }

  /** What one pass of the retry loop does. */
  datatype Attempt = Raised | Rejected | Taken(cells: seq<Coord>, orientation: Orientation)

  /** The outcome of one attempt as the source computes it: the ValueError, a
      proposal that is not available, or the available proposal and its
      orientation (the board it is stamped on is `Painted` with the ship id). */
  function AttemptOn(board: Board, len: int, draw: Draw, width: int, height: int): Attempt
    requires IsGrid(board, width, height)
  {
    if Raises(width, height) then Raised
    else
      var cells := Proposal(draw, len, width, height);
      if Available(board, cells, width, height) then
        Taken(cells, draw.orientation)
      else Rejected
  }

  /** One pass of `while not placed and attempts < attempts_limit`: draw,
      clamp, test availability, and on success stamp `ship_id` and record the
      coordinates and the orientation. */
  method TryPlace(board: Board, shipId: int, len: int, draw: Draw, width: int, height: int)
    returns (a: Attempt, stamped: Board)
    requires IsGrid(board, width, height)
    ensures a.Raised? <==> Raises(width, height)
    ensures a.Taken? <==> !Raises(width, height) && Available(board, Proposal(draw, len, width, height), width, height)
    ensures a.Taken? ==> a.cells == Proposal(draw, len, width, height) && a.orientation == draw.orientation
    ensures stamped == if a.Taken? then Painted(board, a.cells, shipId, width, height) else board
    ensures a == AttemptOn(board, len, draw, width, height)
  {
    stamped := board;
    if width - 1 < 0 || height - 1 < 0 {
      return Raised, stamped;
    }
    var cells := Proposal(draw, len, width, height);
    if Available(board, cells, width, height) {
      stamped := Stamp(board, cells, shipId, width, height);
      return Taken(cells, draw.orientation), stamped;
    }
    return Rejected, stamped;
  }

  /** What one attempt means: it raises exactly when the board has no row or
      no column, and a taken attempt is the drawn proposal, available, with its
      orientation. */
  lemma AttemptMeaning(board: Board, len: int, draw: Draw, width: int, height: int)
    requires IsGrid(board, width, height)
    ensures var a := AttemptOn(board, len, draw, width, height);
      && (a.Raised? <==> Raises(width, height))
      && (a.Rejected? <==> !Raises(width, height) && !Available(board, Proposal(draw, len, width, height), width, height))
      && (a.Taken? ==>
            && a.cells == Proposal(draw, len, width, height) && a.orientation == draw.orientation
            && Available(board, a.cells, width, height))
  {
  }

  /** None of the n proposals from `draws[d]` on was available. */
  predicate AllRefused(board: Board, draws: seq<Draw>, d: int, n: int, len: int, width: int, height: int)
    requires IsGrid(board, width, height) && !Raises(width, height) && 0 <= d && d + n <= |draws|
  {
    forall j :: d <= j < d + n ==> !Available(board, Proposal(draws[j], len, width, height), width, height)
  }

  lemma RefusedStep(board: Board, draws: seq<Draw>, d: int, n: int, len: int, width: int, height: int)
    requires IsGrid(board, width, height) && !Raises(width, height) && 0 <= d && 0 <= n && d + n < |draws|
    requires AllRefused(board, draws, d, n, len, width, height)
    requires !Available(board, Proposal(draws[d + n], len, width, height), width, height)
    ensures AllRefused(board, draws, d, n + 1, len, width, height)
  {
  }

  /** The retry loop for one ship whose first attempt uses `draws[d]`, from
      attempt i on, as a value: the first attempt that raises or is available
      ends it, and after 200 refused attempts the ship is not placed. The number
      is the attempts used. */
  function ShipOutcome(board: Board, len: int, draws: seq<Draw>, d: nat, i: nat, width: int, height: int)
    : (r: (Attempt, nat))
    requires IsGrid(board, width, height) && i < AttemptsLimit && d + AttemptsLimit <= |draws|
    ensures i < r.1 <= AttemptsLimit
    ensures r.0.Rejected? ==> r.1 == AttemptsLimit
    decreases AttemptsLimit - i
  {
    var a := AttemptOn(board, len, draws[d + i], width, height);
    if !a.Rejected? || i + 1 == AttemptsLimit then (a, i + 1)
    else ShipOutcome(board, len, draws, d, i + 1, width, height)
  }

  /** The value of the retry loop, from attempt i on, is that of its last
      attempt unless all 200 were refused; an attempt raises exactly when the
      board has no row or no column, and then the first one does. */
  lemma {:induction false} OutcomeLast(board: Board, len: int, draws: seq<Draw>, d: nat, i: nat,
                                       width: int, height: int)
    requires IsGrid(board, width, height) && i < AttemptsLimit && d + AttemptsLimit <= |draws|
    requires i > 0 ==> !Raises(width, height)
    ensures var (a, used) := ShipOutcome(board, len, draws, d, i, width, height);
      && (a.Raised? <==> Raises(width, height))
      && (a.Raised? ==> used == i + 1)
      && (!a.Rejected? ==> a == AttemptOn(board, len, draws[d + used - 1], width, height))
    decreases AttemptsLimit - i
  {
    var a := AttemptOn(board, len, draws[d + i], width, height);
    if a.Rejected? && i + 1 < AttemptsLimit {
      OutcomeLast(board, len, draws, d, i + 1, width, height);
      assert ShipOutcome(board, len, draws, d, i, width, height) == ShipOutcome(board, len, draws, d, i + 1, width, height);
    } else {
      assert ShipOutcome(board, len, draws, d, i, width, height) == (a, i + 1);
    }
  }

  /** Every proposal of the retry loop before its last was refused, from
      attempt i on when the attempts before i were refused; `Rejected` means all
      200 were. */
  lemma {:induction false} OutcomeRefused(board: Board, len: int, draws: seq<Draw>, d: nat, i: nat,
                                          width: int, height: int)
    requires IsGrid(board, width, height) && i < AttemptsLimit && d + AttemptsLimit <= |draws|
    requires !Raises(width, height) && AllRefused(board, draws, d, i, len, width, height)
    ensures var (a, used) := ShipOutcome(board, len, draws, d, i, width, height);
      && AllRefused(board, draws, d, used - 1, len, width, height)
      && (a.Rejected? ==> AllRefused(board, draws, d, AttemptsLimit, len, width, height))
    decreases AttemptsLimit - i
  {
    var a := AttemptOn(board, len, draws[d + i], width, height);
    AttemptMeaning(board, len, draws[d + i], width, height);
    if a.Rejected? {
      RefusedStep(board, draws, d, i, len, width, height);
      if i + 1 < AttemptsLimit {
        OutcomeRefused(board, len, draws, d, i + 1, width, height);
        assert ShipOutcome(board, len, draws, d, i, width, height) == ShipOutcome(board, len, draws, d, i + 1, width, height);
      } else {
        assert ShipOutcome(board, len, draws, d, i, width, height) == (a, i + 1);
      }
    } else {
      assert ShipOutcome(board, len, draws, d, i, width, height) == (a, i + 1);
    }
  }

  /** What the retry loop for one ship ends with: the ValueError exactly when
      the board has no row or no column, on the first attempt; `Rejected` after
      200 refused proposals; or, after refused proposals only, the proposal of
      the last draw, available, in that draw's orientation. */
  lemma OutcomeMeaning(board: Board, len: int, draws: seq<Draw>, d: nat, width: int, height: int)
    requires IsGrid(board, width, height) && d + AttemptsLimit <= |draws|
    ensures var (a, used) := ShipOutcome(board, len, draws, d, 0, width, height);
      && (a.Raised? <==> Raises(width, height))
      && (a.Raised? ==> used == 1)
      && (a.Rejected? ==> used == AttemptsLimit && AllRefused(board, draws, d, AttemptsLimit, len, width, height))
      && (a.Taken? ==>
            && AllRefused(board, draws, d, used - 1, len, width, height)
            && a.cells == Proposal(draws[d + used - 1], len, width, height)
            && a.orientation == draws[d + used - 1].orientation
            && Available(board, a.cells, width, height))
  {
    OutcomeLast(board, len, draws, d, 0, width, height);
    var (a, used) := ShipOutcome(board, len, draws, d, 0, width, height);
    if !Raises(width, height) {
      OutcomeRefused(board, len, draws, d, 0, width, height);
    }
    if a.Taken? {
      AttemptMeaning(board, len, draws[d + used - 1], width, height);
    }
  }

  /** The shape of what the retry loop ends with: `Raised` exactly on a board
      with no row or no column, and a taken proposal of one cell per unit of
      length, straight in its orientation, and available. */
  lemma OutcomeShape(board: Board, len: int, draws: seq<Draw>, d: nat, width: int, height: int)
    requires IsGrid(board, width, height) && d + AttemptsLimit <= |draws|
    ensures var (a, _) := ShipOutcome(board, len, draws, d, 0, width, height);
      && (a.Raised? <==> Raises(width, height))
      && (a.Taken? ==>
            && |a.cells| == Clip(len) && IsRunOf(a.cells, a.orientation)
            && Available(board, a.cells, width, height))
  {
    var o := ShipOutcome(board, len, draws, d, 0, width, height);
    OutcomeMeaning(board, len, draws, d, width, height);
    if o.0.Taken? {
      var draw := draws[d + o.1 - 1];
      assert o.0.cells == Proposal(draw, len, width, height);
      ProposalShape(draw, len, width, height);
    }
  }

  /** The retry loop for one ship, `while not placed and attempts < attempts_limit`,
      with the loop ending on a placed ship or on the ValueError: attempt i uses
      `draws[d + i]`; `used` is the number of attempts made, and `stamped` the
      board with the placed ship written in as `shipId`. */
  method PlaceShip(board: Board, shipId: int, len: int, draws: seq<Draw>, d: nat, width: int, height: int)
    returns (a: Attempt, used: nat, stamped: Board)
    requires IsGrid(board, width, height) && d + AttemptsLimit <= |draws|
    ensures 1 <= used <= AttemptsLimit
    ensures (a, used) == ShipOutcome(board, len, draws, d, 0, width, height)
    ensures stamped == if a.Taken? then Painted(board, a.cells, shipId, width, height) else board
  {
    a, used, stamped := Rejected, 0, board;
    for attempt := 0 to AttemptsLimit
      invariant used == attempt && a == Rejected && stamped == board
      invariant attempt < AttemptsLimit ==>
        ShipOutcome(board, len, draws, d, 0, width, height) == ShipOutcome(board, len, draws, d, attempt, width, height)
      invariant attempt == AttemptsLimit ==>
        ShipOutcome(board, len, draws, d, 0, width, height) == (Rejected, AttemptsLimit)
    {
      used := used + 1;
      a, stamped := TryPlace(board, shipId, len, draws[d + attempt], width, height);
      if !a.Rejected? {
        return;  // `placed` is set, or randint raised
      }
    }
  }

  /** The `for` loop of `place_ships` as a value, from the state after the
      first s ships were placed with d draws used: the layout it returns. */
  function LayoutFrom(board: Board, coords: seq<seq<Coord>>, orientations: seq<Orientation>, ships: seq<int>, s: nat,
                      draws: seq<Draw>, d: nat, width: int, height: int): Placement
    requires IsGrid(board, width, height) && s <= |ships|
    requires d + AttemptsLimit * (|ships| - s) <= |draws|  // attempts_limit draws for each ship still to place
    decreases |ships| - s, 1
  {
    if s == |ships| then Placed(board, coords, orientations)
    else AfterShip(board, coords, orientations, ships, s, draws, d, width, height,
                   ShipOutcome(board, ships[s], draws, d, 0, width, height))
  }

  /** How the `for` loop goes on once the retry loop of ship s ended in `o`: the
      ValueError propagates, a ship that was not placed ends the layout with
      `(None, None, None)`, and a placed ship is written into the board as ship
      `|coords| + 1` and joins the lists. */
  function AfterShip(board: Board, coords: seq<seq<Coord>>, orientations: seq<Orientation>, ships: seq<int>, s: nat,
                     draws: seq<Draw>, d: nat, width: int, height: int, o: (Attempt, nat)): Placement
    requires IsGrid(board, width, height) && s < |ships| && d + AttemptsLimit * (|ships| - s) <= |draws|
    requires 1 <= o.1 <= AttemptsLimit
    decreases |ships| - s, 0
  {
    match o.0
    case Raised => RandRangeError
    case Rejected => Failed
    case Taken(cells, orientation) =>
      LayoutFrom(Painted(board, cells, |coords| + 1, width, height), coords + [cells], orientations + [orientation], ships, s + 1, draws, d + o.1, width, height)
  }

  /** What `place_ships(width, height, ships)` returns when the n-th attempt
      overall draws `draws[n]`. */
  function Layout(width: int, height: int, ships: seq<int>, draws: seq<Draw>): Placement
    requires AttemptsLimit * |ships| <= |draws|
  {
    LayoutFrom(Fill(width, height, 0), [], [], ships, 0, draws, 0, width, height)
  }

  /** One pass of the `for` loop, unfolded: how LayoutFrom continues after the
      retry loop of ship s ended in `a` after `used` attempts. */
  lemma LayoutStep(board: Board, coords: seq<seq<Coord>>, orientations: seq<Orientation>, ships: seq<int>, s: nat,
                   draws: seq<Draw>, d: nat, width: int, height: int, a: Attempt, used: nat)
    requires IsGrid(board, width, height) && s < |ships| && d + AttemptsLimit * (|ships| - s) <= |draws|
    requires (a, used) == ShipOutcome(board, ships[s], draws, d, 0, width, height)
    ensures a.Raised? ==> LayoutFrom(board, coords, orientations, ships, s, draws, d, width, height) == RandRangeError
    ensures a.Rejected? ==> LayoutFrom(board, coords, orientations, ships, s, draws, d, width, height) == Failed
    ensures a.Taken? ==>
      LayoutFrom(board, coords, orientations, ships, s, draws, d, width, height)
        == LayoutFrom(Painted(board, a.cells, |coords| + 1, width, height), coords + [a.cells], orientations + [a.orientation],
                      ships, s + 1, draws, d + used, width, height)
  {
    assert LayoutFrom(board, coords, orientations, ships, s, draws, d, width, height)
        == AfterShip(board, coords, orientations, ships, s, draws, d, width, height, (a, used));
  }

  /** The ValueError comes exactly from a board with no row or no column and a
      ship still to place; a ship that is not placed comes only from a board
      with rows and columns. */
  lemma {:induction false} RaisesFrom(board: Board, coords: seq<seq<Coord>>, orientations: seq<Orientation>, ships: seq<int>,
                                      s: nat, draws: seq<Draw>, d: nat, width: int, height: int)
    requires IsGrid(board, width, height) && s <= |ships| && d + AttemptsLimit * (|ships| - s) <= |draws|
    ensures var r := LayoutFrom(board, coords, orientations, ships, s, draws, d, width, height);
      && (r.RandRangeError? <==> s < |ships| && Raises(width, height))
      && (r.Failed? ==> s < |ships| && !Raises(width, height))
    decreases |ships| - s, 1
  {
    if s < |ships| {
      OutcomeShape(board, ships[s], draws, d, width, height);
      RaisesAfter(board, coords, orientations, ships, s, draws, d, width, height,
                  ShipOutcome(board, ships[s], draws, d, 0, width, height));
    }
  }

  lemma {:induction false} RaisesAfter(board: Board, coords: seq<seq<Coord>>, orientations: seq<Orientation>, ships: seq<int>,
                                       s: nat, draws: seq<Draw>, d: nat, width: int, height: int, o: (Attempt, nat))
    requires IsGrid(board, width, height) && s < |ships| && d + AttemptsLimit * (|ships| - s) <= |draws|
    requires 1 <= o.1 <= AttemptsLimit
    requires o.0.Raised? <==> Raises(width, height)
    ensures var r := AfterShip(board, coords, orientations, ships, s, draws, d, width, height, o);
      && (r.RandRangeError? <==> Raises(width, height))
      && (r.Failed? ==> !Raises(width, height))
    decreases |ships| - s, 0
  {
    match o.0
    case Raised =>
    case Rejected =>
    case Taken(cells, orientation) =>
      var b := Painted(board, cells, |coords| + 1, width, height);
      assert AfterShip(board, coords, orientations, ships, s, draws, d, width, height, o)
          == LayoutFrom(b, coords + [cells], orientations + [orientation], ships, s + 1, draws, d + o.1, width, height);
      RaisesFrom(b, coords + [cells], orientations + [orientation], ships, s + 1, draws, d + o.1, width, height);
  }

  /** After the first s ships were placed, a coordinate list and an orientation
      per ship, and ship k has one cell per unit of its length, in a straight
      line in its recorded orientation. */
  predicate Shaped(coords: seq<seq<Coord>>, orientations: seq<Orientation>, ships: seq<int>, s: int)
  {
    && 0 <= s <= |ships| && |coords| == s && |orientations| == s
    && forall k :: 0 <= k < s ==> |coords[k]| == Clip(ships[k]) && IsRunOf(coords[k], orientations[k])
  }

  lemma ShapedTaken(coords: seq<seq<Coord>>, orientations: seq<Orientation>, ships: seq<int>, s: nat,
                    cells: seq<Coord>, o: Orientation)
    requires Shaped(coords, orientations, ships, s) && s < |ships| && |cells| == Clip(ships[s]) && IsRunOf(cells, o)
    ensures Shaped(coords + [cells], orientations + [o], ships, s + 1)
  {
    assert forall k :: 0 <= k < s ==> (coords + [cells])[k] == coords[k] && (orientations + [o])[k] == orientations[k];
  }

  /** From a state that agrees with the board, the `for` loop returns a board
      that agrees with the coordinate lists it returns. */
  lemma {:induction false} ConsistentFrom(board: Board, coords: seq<seq<Coord>>, orientations: seq<Orientation>, ships: seq<int>,
                                          s: nat, draws: seq<Draw>, d: nat, width: int, height: int)
    requires IsGrid(board, width, height) && s <= |ships| && d + AttemptsLimit * (|ships| - s) <= |draws|
    requires Consistent(board, coords, width, height)
    ensures var r := LayoutFrom(board, coords, orientations, ships, s, draws, d, width, height);
      r.Placed? ==> Consistent(r.board, r.coords, width, height)
    decreases |ships| - s, 1
  {
    if s < |ships| {
      var o := ShipOutcome(board, ships[s], draws, d, 0, width, height);
      OutcomeShape(board, ships[s], draws, d, width, height);
      if o.0.Taken? {
        StampAgrees(board, coords, o.0.cells, width, height);
      }
      ConsistentAfter(board, coords, orientations, ships, s, draws, d, width, height, o);
    }
  }

  lemma {:induction false} ConsistentAfter(board: Board, coords: seq<seq<Coord>>, orientations: seq<Orientation>, ships: seq<int>,
                                           s: nat, draws: seq<Draw>, d: nat, width: int, height: int, o: (Attempt, nat))
    requires IsGrid(board, width, height) && s < |ships| && d + AttemptsLimit * (|ships| - s) <= |draws|
    requires 1 <= o.1 <= AttemptsLimit
    requires o.0.Taken? ==> Consistent(Painted(board, o.0.cells, |coords| + 1, width, height), coords + [o.0.cells], width, height)
    ensures var r := AfterShip(board, coords, orientations, ships, s, draws, d, width, height, o);
      r.Placed? ==> Consistent(r.board, r.coords, width, height)
    decreases |ships| - s, 0
  {
    match o.0
    case Raised =>
    case Rejected =>
    case Taken(cells, orientation) =>
      var b := Painted(board, cells, |coords| + 1, width, height);
      assert AfterShip(board, coords, orientations, ships, s, draws, d, width, height, o)
          == LayoutFrom(b, coords + [cells], orientations + [orientation], ships, s + 1, draws, d + o.1, width, height);
      ConsistentFrom(b, coords + [cells], orientations + [orientation], ships, s + 1, draws, d + o.1, width, height);
  }

  /** From a shaped state, the `for` loop returns a coordinate list and an
      orientation per ship, each ship a straight line of its length. */
  lemma {:induction false} ShapeFrom(board: Board, coords: seq<seq<Coord>>, orientations: seq<Orientation>, ships: seq<int>,
                                     s: nat, draws: seq<Draw>, d: nat, width: int, height: int)
    requires IsGrid(board, width, height) && s <= |ships| && d + AttemptsLimit * (|ships| - s) <= |draws|
    requires Shaped(coords, orientations, ships, s)
    ensures var r := LayoutFrom(board, coords, orientations, ships, s, draws, d, width, height);
      r.Placed? ==> Shaped(r.coords, r.orientations, ships, |ships|)
    decreases |ships| - s, 1
  {
    if s < |ships| {
      var o := ShipOutcome(board, ships[s], draws, d, 0, width, height);
      OutcomeShape(board, ships[s], draws, d, width, height);
      if o.0.Taken? {
        ShapedTaken(coords, orientations, ships, s, o.0.cells, o.0.orientation);
      }
      ShapeAfter(board, coords, orientations, ships, s, draws, d, width, height, o);
    }
  }

  lemma {:induction false} ShapeAfter(board: Board, coords: seq<seq<Coord>>, orientations: seq<Orientation>, ships: seq<int>,
                                      s: nat, draws: seq<Draw>, d: nat, width: int, height: int, o: (Attempt, nat))
    requires IsGrid(board, width, height) && s < |ships| && d + AttemptsLimit * (|ships| - s) <= |draws|
    requires 1 <= o.1 <= AttemptsLimit
    requires o.0.Taken? ==> Shaped(coords + [o.0.cells], orientations + [o.0.orientation], ships, s + 1)
    ensures var r := AfterShip(board, coords, orientations, ships, s, draws, d, width, height, o);
      r.Placed? ==> Shaped(r.coords, r.orientations, ships, |ships|)
    decreases |ships| - s, 0
  {
    match o.0
    case Raised =>
    case Rejected =>
    case Taken(cells, orientation) =>
      var b := Painted(board, cells, |coords| + 1, width, height);
      assert AfterShip(board, coords, orientations, ships, s, draws, d, width, height, o)
          == LayoutFrom(b, coords + [cells], orientations + [orientation], ships, s + 1, draws, d + o.1, width, height);
      ShapeFrom(b, coords + [cells], orientations + [orientation], ships, s + 1, draws, d + o.1, width, height);
  }

  /** A finished board that agrees with its straight, full-length ships has
      no two ships on one cell, and every ship fits the board in its direction. */
  lemma PlacedValid(board: Board, coords: seq<seq<Coord>>, orientations: seq<Orientation>, ships: seq<int>,
                    width: int, height: int)
    requires Consistent(board, coords, width, height) && Shaped(coords, orientations, ships, |ships|)
    ensures Disjoint(coords)
    ensures forall k :: 0 <= k < |ships| && ships[k] >= 1 ==> Fits(orientations[k], ships[k], width, height)
  {
    ConsistentDisjoint(board, coords, width, height);
    forall k | 0 <= k < |ships| && ships[k] >= 1 ensures Fits(orientations[k], ships[k], width, height) {
      RunFits(coords[k], orientations[k], ships[k], width, height);
    }
  }

  /** Every layout `place_ships` returns has every ship of the list, each on
      cells of its own in a straight line of its length that fits the board in
      its direction; no layout is possible when a ship is longer than both sides.
      The ValueError comes exactly from a board with no row or no column and a
      nonempty list, and `(None, None, None)` only from a board with both. */
  lemma LayoutValid(width: int, height: int, ships: seq<int>, draws: seq<Draw>)
    requires AttemptsLimit * |ships| <= |draws|
    ensures var r := Layout(width, height, ships, draws);
      && (r.RandRangeError? <==> ships != [] && Raises(width, height))
      && (r.Failed? ==> ships != [] && !Raises(width, height))
      && (ships == [] ==> r == Placed(Fill(width, height, 0), [], []))
      && (r.Placed? ==>
            && Consistent(r.board, r.coords, width, height) && Disjoint(r.coords)
            && |r.coords| == |ships| && |r.orientations| == |ships|
            && (forall k :: 0 <= k < |ships| ==> |r.coords[k]| == Clip(ships[k]) && IsRunOf(r.coords[k], r.orientations[k]))
            && (forall k :: 0 <= k < |ships| && ships[k] >= 1 ==> Fits(r.orientations[k], ships[k], width, height)))
      && ((exists k :: 0 <= k < |ships| && ships[k] > width && ships[k] > height) ==> !r.Placed?)
  {
    var empty := Fill(width, height, 0);
    RaisesFrom(empty, [], [], ships, 0, draws, 0, width, height);
    ConsistentFrom(empty, [], [], ships, 0, draws, 0, width, height);
    ShapeFrom(empty, [], [], ships, 0, draws, 0, width, height);
    var r := Layout(width, height, ships, draws);
    if r.Placed? {
      PlacedValid(r.board, r.coords, r.orientations, ships, width, height);
    }
  }

  /** On the empty 10 x 10 board a destroyer drawn horizontal at the corner is
      placed there on the first attempt. */
  lemma CornerDestroyer(draws: seq<Draw>, d: nat)
    requires d + AttemptsLimit <= |draws| && draws[d] == Draw(H, 0, 0)
    ensures ShipOutcome(Fill(10, 10, 0), 2, draws, d, 0, 10, 10) == (Taken([(0, 0), (0, 1)], H), 1)
  {
    var c0 := [(0, 0), (0, 1)];
    assert Proposal(draws[d], 2, 10, 10) == Run(H, 0, 0, 2) == c0;
    assert Available(Fill(10, 10, 0), c0, 10, 10);
  }

  /** With that destroyer down, a destroyer drawn horizontal at (5, 5) is placed
      there on the first attempt. */
  lemma MiddleDestroyer(draws: seq<Draw>, d: nat)
    requires d + AttemptsLimit <= |draws| && draws[d] == Draw(H, 5, 5)
    ensures ShipOutcome(Painted(Fill(10, 10, 0), [(0, 0), (0, 1)], 1, 10, 10), 2, draws, d, 0, 10, 10)
         == (Taken([(5, 5), (5, 6)], H), 1)
  {
    var b1 := Painted(Fill(10, 10, 0), [(0, 0), (0, 1)], 1, 10, 10);
    var c1 := [(5, 5), (5, 6)];
    PaintedCells(Fill(10, 10, 0), [(0, 0), (0, 1)], 1, 10, 10);
    assert Proposal(draws[d], 2, 10, 10) == Run(H, 5, 5, 2) == c1;
    assert Available(b1, c1, 10, 10) by {
      assert b1[5][5] == 0 && b1[5][6] == 0;
    }
  }

  /** Each ship's attempts start at the draw after the one that placed the ship
      before it: for two destroyers on a 10 x 10 board where draw 0 is a corner
      and draw 1 the middle, the first goes in the corner and the second in the
      middle, each on its first attempt. */
  lemma TwoDestroyers(draws: seq<Draw>)
    requires |draws| >= 2 * AttemptsLimit
    requires draws[0] == Draw(H, 0, 0) && draws[1] == Draw(H, 5, 5)
    ensures var r := Layout(10, 10, [2, 2], draws);
      r.Placed? && r.coords == [[(0, 0), (0, 1)], [(5, 5), (5, 6)]] && r.orientations == [H, H]
  {
    var ships := [2, 2];
    var c0, c1 := [(0, 0), (0, 1)], [(5, 5), (5, 6)];
    CornerDestroyer(draws, 0);
    LayoutStep(Fill(10, 10, 0), [], [], ships, 0, draws, 0, 10, 10, Taken(c0, H), 1);
    assert [] + [c0] == [c0] && [] + [H] == [H];
    MiddleDestroyer(draws, 1);
    LayoutStep(Painted(Fill(10, 10, 0), c0, 1, 10, 10), [c0], [H], ships, 1, draws, 1, 10, 10, Taken(c1, H), 1);
  }

  /** `place_ships(width, height, ships)`, the draws of the n-th attempt overall
      being `draws[n]`. */
  method PlaceShips(width: int, height: int, ships: seq<int>, draws: seq<Draw>) returns (r: Placement)
    requires |draws| >= AttemptsLimit * |ships|
    ensures r == Layout(width, height, ships, draws)
    ensures r.RandRangeError? <==> ships != [] && Raises(width, height)
    ensures r.Failed? ==> ships != [] && !Raises(width, height)
    ensures ships == [] ==> r == Placed(Fill(width, height, 0), [], [])
    ensures r.Placed? ==> Consistent(r.board, r.coords, width, height) && Disjoint(r.coords)
    ensures r.Placed? ==> |r.coords| == |ships| && |r.orientations| == |ships|
    ensures r.Placed? ==> forall k :: 0 <= k < |ships| ==>
      |r.coords[k]| == Clip(ships[k]) && IsRunOf(r.coords[k], r.orientations[k])
    ensures r.Placed? ==> forall k :: 0 <= k < |ships| && ships[k] >= 1 ==>
      Fits(r.orientations[k], ships[k], width, height)
    ensures (exists k :: 0 <= k < |ships| && ships[k] > width && ships[k] > height) ==> !r.Placed?
  {
    var board := Fill(width, height, 0);
    var coords: seq<seq<Coord>> := [];
    var orientations: seq<Orientation> := [];
    var shipId := 1;
    var d := 0;  // draws used so far
    for s := 0 to |ships|
      invariant IsGrid(board, width, height) && |coords| == s && shipId == s + 1
      invariant d + AttemptsLimit * (|ships| - s) <= |draws|
      invariant LayoutFrom(board, coords, orientations, ships, s, draws, d, width, height) == Layout(width, height, ships, draws)
    {
      var a, used, stamped := PlaceShip(board, shipId, ships[s], draws, d, width, height);
      LayoutStep(board, coords, orientations, ships, s, draws, d, width, height, a, used);
      if a.Raised? {
        LayoutValid(width, height, ships, draws);
        return RandRangeError;
      }
      if a.Rejected? {
        LayoutValid(width, height, ships, draws);
        return Failed;
      }
      board, coords, orientations := stamped, coords + [a.cells], orientations + [a.orientation];
      shipId, d := shipId + 1, d + used;
    }
    LayoutValid(width, height, ships, draws);
    return Placed(board, coords, orientations);
  }
}
