/** The live bot's layout generator (`place_ships` in battleshipbot.py): ships of
    the standard sizes laid horizontally or vertically onto a grid of water
    cells, until enough tiles are placed or the sizes run out. */
module BotLayout {
  import opened Grid

  /** `SHIP_SIZES`: carrier, battleship, cruiser, submarine, destroyer. */
  const ShipSizes: seq<int> := [5, 4, 3, 3, 2]

  /** The largest entry of ShipSizes. */
  const MaxShipSize := 5

  /** Tries per size before the size is skipped (`for _ in range(100)`). */
  const AttemptsPerSize := 100

  /** The most draws `place_ships` can consult: AttemptsPerSize for each size. */
  const MaxDraws := AttemptsPerSize * |ShipSizes|

  /** A board cell: the string "water", or "ship-k" for the ship at index k of the ship list. */
  datatype Cell = Water | ShipTile(index: nat)

  type Board = seq<seq<Cell>>

  /** The random draws of one attempt: `random.choice([True, False])` and the two
      `randint` results. A raw value stands for the in-range value it is congruent
      to, so every value `randint` can return is some raw value. */
  datatype Draw = Draw(horizontal: bool, rx: nat, ry: nat)

  /** What `place_ships` ends with: the board and the ship list, or the
      ValueError `randint(a, b)` raises when b < a. */
  datatype Placement = Placed(board: Board, ships: seq<seq<Coord>>) | RandRangeError

  lemma SizeBounds(i: int)
    requires 0 <= i < |ShipSizes|
    ensures 2 <= ShipSizes[i] <= MaxShipSize
  {
  }

  /** A ship's cells form a horizontal or a vertical run of at least one cell. */
  predicate IsStraight(cells: seq<Coord>)
  {
    |cells| > 0 && (IsRunOf(cells, H) || IsRunOf(cells, V))
  }

  /** The board, read back, is the ship list: a "ship-k" cell names a ship
      that exists and covers the cell, and every cell of ship k is inside the
      board and reads "ship-k". So a cell is "ship-k" exactly on the cells of
      ship k, and "water" where no ship is (CellMeaning). */
  predicate Consistent(board: Board, ships: seq<seq<Coord>>, width: int, height: int)
  {
    && IsGrid(board, width, height)
    && (forall r, c {:trigger board[r][c]} :: 0 <= r < height && 0 <= c < width && board[r][c].ShipTile? ==>
          board[r][c].index < |ships| && (r, c) in ships[board[r][c].index])
    && (forall k, i :: 0 <= k < |ships| && 0 <= i < |ships[k]| ==>
          InBounds(ships[k][i], width, height) && board[ships[k][i].0][ships[k][i].1] == ShipTile(k))
  }

  /** The generator expression `all(board[cy][cx] == "water" for ...)`. */
  predicate AllWater(board: Board, cells: seq<Coord>, width: int, height: int)
    requires IsGrid(board, width, height) && AllInBounds(cells, width, height)
    decreases |cells|
  {
    cells == [] || (board[cells[0].0][cells[0].1] == Water && AllWater(board, cells[1..], width, height))
  }

  /** AllWater, cell by cell. */
  lemma {:induction false} AllWaterCells(board: Board, cells: seq<Coord>, width: int, height: int)
    requires IsGrid(board, width, height) && AllInBounds(cells, width, height)
    ensures AllWater(board, cells, width, height) <==> forall i :: 0 <= i < |cells| ==> board[cells[i].0][cells[i].1] == Water
    decreases |cells|
  {
    if cells != [] {
      AllWaterCells(board, cells[1..], width, height);
      assert forall i :: 1 <= i < |cells| ==> cells[i] == cells[1..][i - 1];
    }
  }

  function Lengths(ships: seq<seq<Coord>>): (ls: seq<int>)
    ensures |ls| == |ships|
  {
    if ships == [] then [] else Lengths(ships[..|ships| - 1]) + [|ships[|ships| - 1]|]
  }

  /** The number of tiles the ships cover (`placed_tiles`). */
  function TotalLength(ships: seq<seq<Coord>>): (n: int)
    ensures n >= 0
  {
    if ships == [] then 0 else TotalLength(ships[..|ships| - 1]) + |ships[|ships| - 1]|
  }

  /** `a` is `b` with some entries left out, order kept. */
  predicate IsSubsequence(a: seq<int>, b: seq<int>)
    decreases |a| + |b|
  {
    if a == [] then true
    else if b == [] then false
    else
      (a[|a| - 1] == b[|b| - 1] && IsSubsequence(a[..|a| - 1], b[..|b| - 1]))
      || IsSubsequence(a, b[..|b| - 1])
  }

  lemma {:induction false} SubsequenceSkip(a: seq<int>, b: seq<int>, z: int)
    requires IsSubsequence(a, b)
    ensures IsSubsequence(a, b + [z])
  {
    assert (b + [z])[..|b|] == b;
  }

  lemma {:induction false} SubsequenceTake(a: seq<int>, b: seq<int>, z: int)
    requires IsSubsequence(a, b)
    ensures IsSubsequence(a + [z], b + [z])
  {
    assert (a + [z])[..|a|] == a;
    assert (b + [z])[..|b|] == b;
  }

  /** Every entry of a subsequence of `b` is an entry of `b`, and it has no more entries. */
  lemma {:induction false} SubsequenceEntries(a: seq<int>, b: seq<int>)
    requires IsSubsequence(a, b)
    ensures |a| <= |b|
    ensures forall i :: 0 <= i < |a| ==> a[i] in b
    decreases |b|
  {
    if a != [] {
      var b' := b[..|b| - 1];
      assert b == b' + [b[|b| - 1]];
      if a[|a| - 1] == b[|b| - 1] && IsSubsequence(a[..|a| - 1], b') {
        SubsequenceEntries(a[..|a| - 1], b');
        forall i | 0 <= i < |a| ensures a[i] in b {
          if i < |a| - 1 {
            assert a[i] == a[..|a| - 1][i];
          }
        }
      } else {
        SubsequenceEntries(a, b');
      }
    }
  }

  /** Appending a ship adds its length to the tile count and to the length list. */
  lemma {:induction false} AppendShip(ships: seq<seq<Coord>>, run: seq<Coord>)
    ensures TotalLength(ships + [run]) == TotalLength(ships) + |run|
    ensures Lengths(ships + [run]) == Lengths(ships) + [|run|]
    ensures (ships + [run])[..|ships|] == ships
  {
    assert (ships + [run])[..|ships|] == ships;
  }

  /** A cell is "ship-k" exactly when ship k covers it, and "water" when no ship does. */
  lemma {:induction false} CellMeaning(board: Board, ships: seq<seq<Coord>>, width: int, height: int, p: Coord)
    requires Consistent(board, ships, width, height) && InBounds(p, width, height)
    ensures forall k :: 0 <= k < |ships| ==> (board[p.0][p.1] == ShipTile(k) <==> p in ships[k])
    ensures (forall k :: 0 <= k < |ships| ==> p !in ships[k]) <==> board[p.0][p.1] == Water
  {
    forall k | 0 <= k < |ships| && p in ships[k]
      ensures board[p.0][p.1] == ShipTile(k)
    {
      var i :| 0 <= i < |ships[k]| && ships[k][i] == p;
    }
    if board[p.0][p.1] != Water {
      assert p in ships[board[p.0][p.1].index];
    }
  }

  /** The board agreeing with the ship list rules out two ships on one cell. */
  lemma {:induction false} ConsistentDisjoint(board: Board, ships: seq<seq<Coord>>, width: int, height: int)
    requires Consistent(board, ships, width, height)
    ensures Disjoint(ships)
  {
    forall j, k, i | 0 <= j < |ships| && 0 <= k < |ships| && j != k && 0 <= i < |ships[j]|
      ensures ships[j][i] !in ships[k]
    {
      var p := ships[j][i];
      assert board[p.0][p.1] == ShipTile(j);
      CellMeaning(board, ships, width, height, p);
    }
  }

  /** Stamping a run of water cells "ship-{len(ships)}" keeps the board in
      agreement with the ship list extended by that run. */
  lemma StampAgrees(board: Board, ships: seq<seq<Coord>>, run: seq<Coord>, width: int, height: int)
    requires Consistent(board, ships, width, height)
    requires AllInBounds(run, width, height) && AllWater(board, run, width, height)
    ensures Consistent(Painted(board, run, ShipTile(|ships|), width, height), ships + [run], width, height)
  {
    var stamped: Board := Painted(board, run, ShipTile(|ships|), width, height);
    var ships' := ships + [run];
    PaintedCells(board, run, ShipTile(|ships|), width, height);
    AllWaterCells(board, run, width, height);
    forall r, c | 0 <= r < height && 0 <= c < width && stamped[r][c].ShipTile?
      ensures stamped[r][c].index < |ships'| && (r, c) in ships'[stamped[r][c].index]
    {
      if (r, c) !in run {
        assert stamped[r][c] == board[r][c];
      }
    }
    forall k, i | 0 <= k < |ships'| && 0 <= i < |ships'[k]|
      ensures InBounds(ships'[k][i], width, height) && stamped[ships'[k][i].0][ships'[k][i].1] == ShipTile(k)
    {
      if k < |ships| {
        var p := ships[k][i];
        assert board[p.0][p.1] == ShipTile(k);
      }
    }
  }

  /** Whether the `randint` calls of an attempt raise: `randint(0, width - size)`
      or `randint(0, height - 1)` for a horizontal ship, `randint(0, width - 1)` or
      `randint(0, height - size)` for a vertical one. */
  predicate RaisesOn(draw: Draw, size: int, width: int, height: int)
  {
    if draw.horizontal then width - size < 0 || height - 1 < 0
    else width - 1 < 0 || height - size < 0
  }

  /** The run an attempt proposes: direction, then the anchor (y, x) the two draws pick. */
  function Candidate(draw: Draw, size: int, width: int, height: int): (run: seq<Coord>)
    requires !RaisesOn(draw, size, width, height) && size >= 1
    ensures |run| == size && IsStraight(run) && AllInBounds(run, width, height)
  {
    var o, x, y :=
      if draw.horizontal then H else V,
      if draw.horizontal then Reduce(draw.rx, width - size + 1) else Reduce(draw.rx, width),
      if draw.horizontal then Reduce(draw.ry, height) else Reduce(draw.ry, height - size + 1);
    RunShape(o, y, x, size);
    RunInBoundsByEnds(o, y, x, size, width, height);
    Run(o, y, x, size)
  }

  /** What one pass of the retry loop does. */
  datatype Attempt = Raised | Occupied | Taken(run: seq<Coord>)

  /** The outcome of one attempt as the source computes it: the ValueError, a
      proposal that meets a ship, or the all-water proposal (the board it is
      stamped on is `Painted` with "ship-{len(ships)}"). */
  function AttemptOn(board: Board, size: int, draw: Draw, width: int, height: int): Attempt
    requires IsGrid(board, width, height) && size >= 1
  {
    if RaisesOn(draw, size, width, height) then Raised
    else
      var run := Candidate(draw, size, width, height);
      if AllWater(board, run, width, height) then Taken(run)
      else Occupied
  }

  /** One pass of `for _ in range(100)`: draw, check the run is all water, and on
      success stamp it "ship-{len(ships)}". */
  method TryPlace(board: Board, ships: seq<seq<Coord>>, size: int, draw: Draw, width: int, height: int)
    returns (a: Attempt, stamped: Board)
    requires IsGrid(board, width, height) && size >= 1
    ensures a.Raised? <==> RaisesOn(draw, size, width, height)
    ensures a.Taken? <==>
      !RaisesOn(draw, size, width, height) && AllWater(board, Candidate(draw, size, width, height), width, height)
    ensures a.Taken? ==> a.run == Candidate(draw, size, width, height)
    ensures stamped == if a.Taken? then Painted(board, a.run, ShipTile(|ships|), width, height) else board
    ensures a == AttemptOn(board, size, draw, width, height)
  {
    stamped := board;
    if RaisesOn(draw, size, width, height) {
      return Raised, stamped;
    }
    var run := Candidate(draw, size, width, height);
    if AllWater(board, run, width, height) {
      stamped := Stamp(board, run, ShipTile(|ships|), width, height);
      return Taken(run), stamped;
    }
    return Occupied, stamped;
  }

  /** None of the n draws from `draws[d]` on raised, and each proposed a run that met a ship. */
  predicate AllOccupied(board: Board, draws: seq<Draw>, d: int, n: int, size: int, width: int, height: int)
    requires IsGrid(board, width, height) && 0 <= d && d + n <= |draws| && size >= 1
  {
    forall j :: d <= j < d + n ==>
      !RaisesOn(draws[j], size, width, height) && !AllWater(board, Candidate(draws[j], size, width, height), width, height)
  }

  lemma OccupiedStep(board: Board, draws: seq<Draw>, d: int, n: int, size: int, width: int, height: int)
    requires IsGrid(board, width, height) && 0 <= d && 0 <= n && d + n < |draws| && size >= 1
    requires AllOccupied(board, draws, d, n, size, width, height)
    requires !RaisesOn(draws[d + n], size, width, height)
    requires !AllWater(board, Candidate(draws[d + n], size, width, height), width, height)
    ensures AllOccupied(board, draws, d, n + 1, size, width, height)
  {
  }

  /** The retry loop for one size whose first attempt uses `draws[d]`, from
      attempt i on, as a value: the first attempt that raises or finds all water
      ends it, and after 100 attempts that met ships the size is dropped. The
      number is the attempts used. */
  function SizeOutcome(board: Board, size: int, draws: seq<Draw>, d: nat, i: nat, width: int, height: int)
    : (r: (Attempt, nat))
    requires IsGrid(board, width, height) && size >= 1 && i < AttemptsPerSize && d + AttemptsPerSize <= |draws|
    ensures i < r.1 <= AttemptsPerSize
    ensures r.0.Occupied? ==> r.1 == AttemptsPerSize
    decreases |draws| - (d + i)
  {
    var a := AttemptOn(board, size, draws[d + i], width, height);
    if !a.Occupied? || i + 1 == AttemptsPerSize then (a, i + 1)
    else SizeOutcome(board, size, draws, d, i + 1, width, height)
  }

  /** What the value of the retry loop means, from attempt i on when the
      attempts before i all met ships: every attempt before the last met a
      ship; `Raised` means the last draw raised (so the board is narrower or
      shorter than the size); `Occupied` means all 100 met a ship; `Taken`
      means the last draw proposed an all-water run. */
  lemma {:induction false} OutcomeMeaning(board: Board, size: int, draws: seq<Draw>, d: nat, i: nat,
                                          width: int, height: int)
    requires IsGrid(board, width, height) && size >= 1 && i < AttemptsPerSize && d + AttemptsPerSize <= |draws|
    requires AllOccupied(board, draws, d, i, size, width, height)
    ensures var (a, used) := SizeOutcome(board, size, draws, d, i, width, height);
      && AllOccupied(board, draws, d, used - 1, size, width, height)
      && (a.Raised? ==> RaisesOn(draws[d + used - 1], size, width, height) && (width < size || height < size))
      && (a.Occupied? ==> AllOccupied(board, draws, d, AttemptsPerSize, size, width, height))
      && (a.Taken? ==>
            && !RaisesOn(draws[d + used - 1], size, width, height)
            && a.run == Candidate(draws[d + used - 1], size, width, height)
            && AllWater(board, a.run, width, height))
    decreases AttemptsPerSize - i
  {
    var a := AttemptOn(board, size, draws[d + i], width, height);
    if a.Occupied? {
      OccupiedStep(board, draws, d, i, size, width, height);
      if i + 1 < AttemptsPerSize {
        OutcomeMeaning(board, size, draws, d, i + 1, width, height);
      }
    }
  }

  /** The shape of what the retry loop ends with: `Raised` only on a board
      narrower or shorter than the size, and a taken run of that size, straight,
      inside the board, and all water. */
  lemma OutcomeShape(board: Board, size: int, draws: seq<Draw>, d: nat, width: int, height: int)
    requires IsGrid(board, width, height) && size >= 1 && d + AttemptsPerSize <= |draws|
    ensures var (a, _) := SizeOutcome(board, size, draws, d, 0, width, height);
      && (a.Raised? ==> width < size || height < size)
      && (a.Taken? ==>
            && |a.run| == size && IsStraight(a.run) && AllInBounds(a.run, width, height)
            && AllWater(board, a.run, width, height))
  {
    OutcomeMeaning(board, size, draws, d, 0, width, height);
  }

  /** The retry loop for one size, `for _ in range(100)` with its `break`: attempt
      i uses `draws[d + i]`; `used` is the number of attempts made, and `stamped`
      the board with a placed run written in as "ship-{len(ships)}". What the
      outcome means (every attempt before the last met a ship, `Occupied` after
      100 of them) is OutcomeMeaning. */
  method PlaceSize(board: Board, ships: seq<seq<Coord>>, size: int, draws: seq<Draw>, d: nat, width: int, height: int)
    returns (a: Attempt, used: nat, stamped: Board)
    requires IsGrid(board, width, height) && size >= 1 && d + AttemptsPerSize <= |draws|
    ensures 1 <= used <= AttemptsPerSize
    ensures (a, used) == SizeOutcome(board, size, draws, d, 0, width, height)
    ensures stamped == if a.Taken? then Painted(board, a.run, ShipTile(|ships|), width, height) else board
  {
    used, a, stamped := 0, Occupied, board;
    for attempt := 0 to AttemptsPerSize
      invariant used == attempt && a == Occupied && stamped == board
      invariant attempt < AttemptsPerSize ==>
        SizeOutcome(board, size, draws, d, 0, width, height) == SizeOutcome(board, size, draws, d, attempt, width, height)
      invariant attempt == AttemptsPerSize ==>
        SizeOutcome(board, size, draws, d, 0, width, height) == (Occupied, AttemptsPerSize)
    {
      used := used + 1;
      a, stamped := TryPlace(board, ships, size, draws[d + attempt], width, height);
      if a.Raised? || a.Taken? {
        return;
      }
    }
  }

  /** The bookkeeping of the size loop once the sizes before `next` have been
      tried: the lengths placed are a subsequence of those sizes, `placedTiles`
      is their sum, and every ship but the last was placed while fewer than
      `totalTiles` tiles were down. */
  predicate Tally(ships: seq<seq<Coord>>, next: int, placedTiles: int, totalTiles: int)
  {
    && 0 <= next <= |ShipSizes|
    && IsSubsequence(Lengths(ships), ShipSizes[..next])
    && placedTiles == TotalLength(ships)
    && (ships != [] ==> TotalLength(ships[..|ships| - 1]) < totalTiles)
  }

  /** Placing a run of the next size keeps the bookkeeping. */
  lemma {:induction false} TakeStep(ships: seq<seq<Coord>>, run: seq<Coord>, next: int, placedTiles: int, totalTiles: int)
    requires Tally(ships, next, placedTiles, totalTiles) && placedTiles < totalTiles
    requires next < |ShipSizes| && |run| == ShipSizes[next]
    ensures Tally(ships + [run], next + 1, placedTiles + |run|, totalTiles)
  {
    AppendShip(ships, run);
    assert ShipSizes[..next + 1] == ShipSizes[..next] + [ShipSizes[next]];
    SubsequenceTake(Lengths(ships), ShipSizes[..next], |run|);
  }

  /** Skipping the next size keeps the bookkeeping. */
  lemma {:induction false} SkipStep(ships: seq<seq<Coord>>, next: int, placedTiles: int, totalTiles: int)
    requires Tally(ships, next, placedTiles, totalTiles) && next < |ShipSizes|
    ensures Tally(ships, next + 1, placedTiles, totalTiles)
  {
    assert ShipSizes[..next + 1] == ShipSizes[..next] + [ShipSizes[next]];
    SubsequenceSkip(Lengths(ships), ShipSizes[..next], ShipSizes[next]);
  }

  /** When the loop stops, the lengths are a subsequence of all the sizes. */
  lemma {:induction false} TallyDone(ships: seq<seq<Coord>>, next: int, placedTiles: int, totalTiles: int)
    requires Tally(ships, next, placedTiles, totalTiles)
    ensures IsSubsequence(Lengths(ships), ShipSizes)
    ensures ships != [] ==> TotalLength(ships[..|ships| - 1]) < totalTiles
  {
    SubsequenceTail(Lengths(ships), ShipSizes, next);
  }

  /** A result whose ship list starts with `ships + [run]` starts with `ships`. */
  lemma KeepsPrefix(r: Placement, ships: seq<seq<Coord>>, run: seq<Coord>)
    requires r.Placed? ==> |ships| + 1 <= |r.ships| && r.ships[..|ships| + 1] == ships + [run]
    ensures r.Placed? ==> |ships| <= |r.ships| && r.ships[..|ships|] == ships
  {
    if r.Placed? {
      assert r.ships[..|ships|] == r.ships[..|ships| + 1][..|ships|];
    }
  }

  /** The `while` loop of `place_ships` as a value, from the state after `next`
      sizes were popped with `d` draws used: the result it returns. Later passes
      only append, so the ships already down are the first ships of the result. */
  function LayoutFrom(board: Board, ships: seq<seq<Coord>>, next: nat, placedTiles: int, totalTiles: int,
                      draws: seq<Draw>, d: nat, width: int, height: int): (r: Placement)
    requires IsGrid(board, width, height) && next <= |ShipSizes|
    requires d + AttemptsPerSize * (|ShipSizes| - next) <= |draws|  // AttemptsPerSize draws for each size still to pop
    decreases |draws| - d, 1
  {
    if next == |ShipSizes| || placedTiles >= totalTiles then Placed(board, ships)
    else
      SizeBounds(next);
      AfterPass(board, ships, next, placedTiles, totalTiles, draws, d, width, height,
                SizeOutcome(board, ShipSizes[next], draws, d, 0, width, height))
  }

  /** How the `while` loop goes on once the retry loop of size `next` ended in
      `o`: the ValueError propagates, a dropped size leaves the state as it was,
      and a placed run is written into the board as "ship-{len(ships)}" and
      joins the ships. */
  function AfterPass(board: Board, ships: seq<seq<Coord>>, next: nat, placedTiles: int, totalTiles: int,
                     draws: seq<Draw>, d: nat, width: int, height: int, o: (Attempt, nat)): (r: Placement)
    requires IsGrid(board, width, height) && next < |ShipSizes|
    requires d + AttemptsPerSize * (|ShipSizes| - next) <= |draws|
    requires 1 <= o.1 <= AttemptsPerSize
    decreases |draws| - d, 0
  {
    match o.0
    case Raised => RandRangeError
    case Occupied => LayoutFrom(board, ships, next + 1, placedTiles, totalTiles, draws, d + o.1, width, height)
    case Taken(run) => LayoutFrom(Painted(board, run, ShipTile(|ships|), width, height), ships + [run], next + 1, placedTiles + ShipSizes[next], totalTiles, draws, d + o.1, width, height)
  }

  /** Later passes only append: the ships already down are the first ships of
      the result. */
  lemma {:induction false} PrefixFrom(board: Board, ships: seq<seq<Coord>>, next: nat, placedTiles: int, totalTiles: int,
                                      draws: seq<Draw>, d: nat, width: int, height: int)
    requires IsGrid(board, width, height) && next <= |ShipSizes| && d + AttemptsPerSize * (|ShipSizes| - next) <= |draws|
    ensures var r := LayoutFrom(board, ships, next, placedTiles, totalTiles, draws, d, width, height);
      r.Placed? ==> |ships| <= |r.ships| && r.ships[..|ships|] == ships
    decreases |draws| - d, 1
  {
    if next < |ShipSizes| && placedTiles < totalTiles {
      SizeBounds(next);
      OutcomeShape(board, ShipSizes[next], draws, d, width, height);
      PrefixAfter(board, ships, next, placedTiles, totalTiles, draws, d, width, height,
                  SizeOutcome(board, ShipSizes[next], draws, d, 0, width, height));
    }
  }

  lemma {:induction false} PrefixAfter(board: Board, ships: seq<seq<Coord>>, next: nat, placedTiles: int, totalTiles: int,
                                       draws: seq<Draw>, d: nat, width: int, height: int, o: (Attempt, nat))
    requires IsGrid(board, width, height) && next < |ShipSizes| && d + AttemptsPerSize * (|ShipSizes| - next) <= |draws|
    requires 1 <= o.1 <= AttemptsPerSize
    ensures var r := AfterPass(board, ships, next, placedTiles, totalTiles, draws, d, width, height, o);
      r.Placed? ==> |ships| <= |r.ships| && r.ships[..|ships|] == ships
    decreases |draws| - d, 0
  {
    match o.0
    case Raised =>
    case Occupied =>
      PrefixFrom(board, ships, next + 1, placedTiles, totalTiles, draws, d + o.1, width, height);
    case Taken(run) =>
      var b := Painted(board, run, ShipTile(|ships|), width, height);
      assert AfterPass(board, ships, next, placedTiles, totalTiles, draws, d, width, height, o)
          == LayoutFrom(b, ships + [run], next + 1, placedTiles + ShipSizes[next], totalTiles, draws, d + o.1, width, height);
      PrefixFrom(b, ships + [run], next + 1, placedTiles + ShipSizes[next], totalTiles, draws, d + o.1, width, height);
      KeepsPrefix(LayoutFrom(b, ships + [run], next + 1, placedTiles + ShipSizes[next], totalTiles, draws, d + o.1, width, height), ships, run);
  }

  /** What `place_ships(width, height, total_tiles)` returns on `draws`. */
  function Layout(width: int, height: int, totalTiles: int, draws: seq<Draw>): Placement
    requires |draws| >= MaxDraws
  {
    LayoutFrom(Fill(width, height, Water), [], 0, 0, totalTiles, draws, 0, width, height)
  }

  /** One pass of the size loop, unfolded: how LayoutFrom continues after the
      retry loop of size `next` ended in `a` after `used` attempts. */
  lemma LayoutStep(board: Board, ships: seq<seq<Coord>>, next: nat, placedTiles: int, totalTiles: int,
                   draws: seq<Draw>, d: nat, width: int, height: int, a: Attempt, used: nat)
    requires IsGrid(board, width, height) && next < |ShipSizes| && placedTiles < totalTiles
    requires d + AttemptsPerSize * (|ShipSizes| - next) <= |draws| && ShipSizes[next] >= 1
    requires (a, used) == SizeOutcome(board, ShipSizes[next], draws, d, 0, width, height)
    ensures a.Raised? ==> LayoutFrom(board, ships, next, placedTiles, totalTiles, draws, d, width, height) == RandRangeError
    ensures a.Occupied? ==> (used == AttemptsPerSize &&
      LayoutFrom(board, ships, next, placedTiles, totalTiles, draws, d, width, height)
        == LayoutFrom(board, ships, next + 1, placedTiles, totalTiles, draws, d + used, width, height))
    ensures a.Taken? ==>
      LayoutFrom(board, ships, next, placedTiles, totalTiles, draws, d, width, height)
        == LayoutFrom(Painted(board, a.run, ShipTile(|ships|), width, height), ships + [a.run], next + 1,
                      placedTiles + ShipSizes[next], totalTiles, draws, d + used, width, height)
  {
    assert LayoutFrom(board, ships, next, placedTiles, totalTiles, draws, d, width, height)
        == AfterPass(board, ships, next, placedTiles, totalTiles, draws, d, width, height, (a, used));
  }

  /** What holds between passes of the size loop on the board: it agrees with
      the ship list, and every ship is straight. */
  predicate Agrees(board: Board, ships: seq<seq<Coord>>, width: int, height: int)
  {
    && Consistent(board, ships, width, height)
    && (forall k :: 0 <= k < |ships| ==> IsStraight(ships[k]))
  }

  /** Stamping a straight run of water as the next ship keeps the board and the
      ships in agreement. */
  lemma AgreesTaken(board: Board, ships: seq<seq<Coord>>, run: seq<Coord>, width: int, height: int)
    requires Agrees(board, ships, width, height) && IsStraight(run)
    requires AllInBounds(run, width, height) && AllWater(board, run, width, height)
    ensures Agrees(Painted(board, run, ShipTile(|ships|), width, height), ships + [run], width, height)
  {
    StampAgrees(board, ships, run, width, height);
    assert forall k :: 0 <= k < |ships| ==> (ships + [run])[k] == ships[k];
  }

  /** The size loop raises only on a board narrower or shorter than the carrier. */
  lemma {:induction false} RaisesFrom(board: Board, ships: seq<seq<Coord>>, next: nat, placedTiles: int, totalTiles: int,
                                      draws: seq<Draw>, d: nat, width: int, height: int)
    requires IsGrid(board, width, height) && next <= |ShipSizes| && d + AttemptsPerSize * (|ShipSizes| - next) <= |draws|
    ensures LayoutFrom(board, ships, next, placedTiles, totalTiles, draws, d, width, height).RandRangeError? ==>
      width < MaxShipSize || height < MaxShipSize
    decreases |draws| - d, 1
  {
    if next < |ShipSizes| && placedTiles < totalTiles {
      SizeBounds(next);
      OutcomeShape(board, ShipSizes[next], draws, d, width, height);
      RaisesAfter(board, ships, next, placedTiles, totalTiles, draws, d, width, height,
                  SizeOutcome(board, ShipSizes[next], draws, d, 0, width, height));
    }
  }

  lemma {:induction false} RaisesAfter(board: Board, ships: seq<seq<Coord>>, next: nat, placedTiles: int, totalTiles: int,
                                       draws: seq<Draw>, d: nat, width: int, height: int, o: (Attempt, nat))
    requires IsGrid(board, width, height) && next < |ShipSizes| && d + AttemptsPerSize * (|ShipSizes| - next) <= |draws|
    requires 1 <= o.1 <= AttemptsPerSize
    requires o.0.Raised? ==> width < ShipSizes[next] || height < ShipSizes[next]
    ensures AfterPass(board, ships, next, placedTiles, totalTiles, draws, d, width, height, o).RandRangeError? ==>
      width < MaxShipSize || height < MaxShipSize
    decreases |draws| - d, 0
  {
    SizeBounds(next);
    match o.0
    case Raised =>
    case Occupied =>
      RaisesFrom(board, ships, next + 1, placedTiles, totalTiles, draws, d + o.1, width, height);
    case Taken(run) =>
      var b := Painted(board, run, ShipTile(|ships|), width, height);
      assert AfterPass(board, ships, next, placedTiles, totalTiles, draws, d, width, height, o)
          == LayoutFrom(b, ships + [run], next + 1, placedTiles + ShipSizes[next], totalTiles, draws, d + o.1, width, height);
      RaisesFrom(b, ships + [run], next + 1, placedTiles + ShipSizes[next], totalTiles, draws, d + o.1, width, height);
  }

  /** From a board that agrees with its ships, the size loop returns a board
      that agrees with its ships, all straight. */
  lemma {:induction false} AgreesFrom(board: Board, ships: seq<seq<Coord>>, next: nat, placedTiles: int, totalTiles: int,
                                      draws: seq<Draw>, d: nat, width: int, height: int)
    requires IsGrid(board, width, height) && next <= |ShipSizes| && d + AttemptsPerSize * (|ShipSizes| - next) <= |draws|
    requires Agrees(board, ships, width, height)
    ensures var r := LayoutFrom(board, ships, next, placedTiles, totalTiles, draws, d, width, height);
      r.Placed? ==> Agrees(r.board, r.ships, width, height)
    decreases |draws| - d, 1
  {
    if next < |ShipSizes| && placedTiles < totalTiles {
      SizeBounds(next);
      OutcomeShape(board, ShipSizes[next], draws, d, width, height);
      var o := SizeOutcome(board, ShipSizes[next], draws, d, 0, width, height);
      if o.0.Taken? {
        AgreesTaken(board, ships, o.0.run, width, height);
      }
      AgreesAfter(board, ships, next, placedTiles, totalTiles, draws, d, width, height, o);
    }
  }

  lemma {:induction false} AgreesAfter(board: Board, ships: seq<seq<Coord>>, next: nat, placedTiles: int, totalTiles: int,
                                       draws: seq<Draw>, d: nat, width: int, height: int, o: (Attempt, nat))
    requires IsGrid(board, width, height) && next < |ShipSizes| && d + AttemptsPerSize * (|ShipSizes| - next) <= |draws|
    requires 1 <= o.1 <= AttemptsPerSize
    requires Agrees(board, ships, width, height)
    requires o.0.Taken? ==> Agrees(Painted(board, o.0.run, ShipTile(|ships|), width, height), ships + [o.0.run], width, height)
    ensures var r := AfterPass(board, ships, next, placedTiles, totalTiles, draws, d, width, height, o);
      r.Placed? ==> Agrees(r.board, r.ships, width, height)
    decreases |draws| - d, 0
  {
    match o.0
    case Raised =>
    case Occupied =>
      AgreesFrom(board, ships, next + 1, placedTiles, totalTiles, draws, d + o.1, width, height);
    case Taken(run) =>
      var b := Painted(board, run, ShipTile(|ships|), width, height);
      assert AfterPass(board, ships, next, placedTiles, totalTiles, draws, d, width, height, o)
          == LayoutFrom(b, ships + [run], next + 1, placedTiles + ShipSizes[next], totalTiles, draws, d + o.1, width, height);
      AgreesFrom(b, ships + [run], next + 1, placedTiles + ShipSizes[next], totalTiles, draws, d + o.1, width, height);
  }

  /** The lengths of the ships returned are some of the standard sizes in
      order, the last placed while fewer than `totalTiles` tiles were down. */
  predicate Tallied(ships: seq<seq<Coord>>, totalTiles: int)
  {
    && IsSubsequence(Lengths(ships), ShipSizes)
    && (ships != [] ==> TotalLength(ships[..|ships| - 1]) < totalTiles)
  }

  /** From a state that keeps the bookkeeping, the size loop returns ships
      tallied against the standard sizes and the target. */
  lemma {:induction false} TallyFrom(board: Board, ships: seq<seq<Coord>>, next: nat, placedTiles: int, totalTiles: int,
                                     draws: seq<Draw>, d: nat, width: int, height: int)
    requires IsGrid(board, width, height) && next <= |ShipSizes| && d + AttemptsPerSize * (|ShipSizes| - next) <= |draws|
    requires Tally(ships, next, placedTiles, totalTiles)
    ensures var r := LayoutFrom(board, ships, next, placedTiles, totalTiles, draws, d, width, height);
      r.Placed? ==> Tallied(r.ships, totalTiles)
    decreases |draws| - d, 1
  {
    if next == |ShipSizes| || placedTiles >= totalTiles {
      TallyDone(ships, next, placedTiles, totalTiles);
    } else {
      SizeBounds(next);
      OutcomeShape(board, ShipSizes[next], draws, d, width, height);
      var o := SizeOutcome(board, ShipSizes[next], draws, d, 0, width, height);
      SkipStep(ships, next, placedTiles, totalTiles);
      if o.0.Taken? {
        TakeStep(ships, o.0.run, next, placedTiles, totalTiles);
      }
      TallyAfter(board, ships, next, placedTiles, totalTiles, draws, d, width, height, o);
    }
  }

  lemma {:induction false} TallyAfter(board: Board, ships: seq<seq<Coord>>, next: nat, placedTiles: int, totalTiles: int,
                                      draws: seq<Draw>, d: nat, width: int, height: int, o: (Attempt, nat))
    requires IsGrid(board, width, height) && next < |ShipSizes| && d + AttemptsPerSize * (|ShipSizes| - next) <= |draws|
    requires 1 <= o.1 <= AttemptsPerSize
    requires Tally(ships, next + 1, placedTiles, totalTiles)
    requires o.0.Taken? ==> Tally(ships + [o.0.run], next + 1, placedTiles + ShipSizes[next], totalTiles)
    ensures var r := AfterPass(board, ships, next, placedTiles, totalTiles, draws, d, width, height, o);
      r.Placed? ==> Tallied(r.ships, totalTiles)
    decreases |draws| - d, 0
  {
    match o.0
    case Raised =>
    case Occupied =>
      TallyFrom(board, ships, next + 1, placedTiles, totalTiles, draws, d + o.1, width, height);
    case Taken(run) =>
      var b := Painted(board, run, ShipTile(|ships|), width, height);
      assert AfterPass(board, ships, next, placedTiles, totalTiles, draws, d, width, height, o)
          == LayoutFrom(b, ships + [run], next + 1, placedTiles + ShipSizes[next], totalTiles, draws, d + o.1, width, height);
      TallyFrom(b, ships + [run], next + 1, placedTiles + ShipSizes[next], totalTiles, draws, d + o.1, width, height);
  }

  /** What every layout `place_ships` returns satisfies: the board agrees with
      the ships, each ship is straight, their lengths are some of the standard
      sizes in order, and the last was placed while fewer than `totalTiles`
      tiles were down. The ValueError comes only from a board narrower or
      shorter than the carrier. */
  predicate ValidLayout(r: Placement, width: int, height: int, totalTiles: int)
  {
    && (r.Placed? ==>
          && Agrees(r.board, r.ships, width, height)
          && Tallied(r.ships, totalTiles))
    && (r.RandRangeError? ==> width < MaxShipSize || height < MaxShipSize)
  }

  /** The empty board with no ships keeps the bookkeeping, so every layout
      `place_ships` returns is valid and its ships are pairwise disjoint. */
  lemma LayoutValid(width: int, height: int, totalTiles: int, draws: seq<Draw>)
    requires |draws| >= MaxDraws
    ensures ValidLayout(Layout(width, height, totalTiles, draws), width, height, totalTiles)
    ensures Layout(width, height, totalTiles, draws).Placed? ==> Disjoint(Layout(width, height, totalTiles, draws).ships)
    ensures totalTiles <= 0 ==> Layout(width, height, totalTiles, draws) == Placed(Fill(width, height, Water), [])
  {
    assert ShipSizes[..0] == [];
    assert Lengths([]) == [];
    var empty := Fill(width, height, Water);
    RaisesFrom(empty, [], 0, 0, totalTiles, draws, 0, width, height);
    AgreesFrom(empty, [], 0, 0, totalTiles, draws, 0, width, height);
    TallyFrom(empty, [], 0, 0, totalTiles, draws, 0, width, height);
    var r := Layout(width, height, totalTiles, draws);
    if r.Placed? {
      ConsistentDisjoint(r.board, r.ships, width, height);
    }
  }

  /** None of the draws from `lo` up to `hi` raises for the carrier, the longest size. */
  predicate NoDrawRaises(draws: seq<Draw>, lo: int, hi: int, width: int, height: int)
    requires 0 <= lo && hi <= |draws|
  {
    forall j :: lo <= j < hi ==> !RaisesOn(draws[j], MaxShipSize, width, height)
  }

  /** The ValueError needs a draw that raises: from a state whose remaining
      draws all fit the carrier, the size loop does not raise. */
  lemma {:induction false} SafeDrawsFrom(board: Board, ships: seq<seq<Coord>>, next: nat, placedTiles: int, totalTiles: int,
                                         draws: seq<Draw>, d: nat, hi: int, width: int, height: int)
    requires IsGrid(board, width, height) && next <= |ShipSizes| && d + AttemptsPerSize * (|ShipSizes| - next) <= hi <= |draws|
    requires NoDrawRaises(draws, d, hi, width, height)
    ensures !LayoutFrom(board, ships, next, placedTiles, totalTiles, draws, d, width, height).RandRangeError?
    decreases |draws| - d, 1
  {
    if next < |ShipSizes| && placedTiles < totalTiles {
      SizeBounds(next);
      OutcomeMeaning(board, ShipSizes[next], draws, d, 0, width, height);
      var o := SizeOutcome(board, ShipSizes[next], draws, d, 0, width, height);
      assert !RaisesOn(draws[d + o.1 - 1], MaxShipSize, width, height);
      assert !o.0.Raised?;
      SafeDrawsAfter(board, ships, next, placedTiles, totalTiles, draws, d, hi, width, height, o);
    }
  }

  lemma {:induction false} SafeDrawsAfter(board: Board, ships: seq<seq<Coord>>, next: nat, placedTiles: int, totalTiles: int,
                                          draws: seq<Draw>, d: nat, hi: int, width: int, height: int, o: (Attempt, nat))
    requires IsGrid(board, width, height) && next < |ShipSizes| && d + AttemptsPerSize * (|ShipSizes| - next) <= hi <= |draws|
    requires 1 <= o.1 <= AttemptsPerSize && !o.0.Raised?
    requires NoDrawRaises(draws, d, hi, width, height)
    ensures !AfterPass(board, ships, next, placedTiles, totalTiles, draws, d, width, height, o).RandRangeError?
    decreases |draws| - d, 0
  {
    match o.0
    case Occupied =>
      SafeDrawsFrom(board, ships, next + 1, placedTiles, totalTiles, draws, d + o.1, hi, width, height);
    case Taken(run) =>
      var b := Painted(board, run, ShipTile(|ships|), width, height);
      assert AfterPass(board, ships, next, placedTiles, totalTiles, draws, d, width, height, o)
          == LayoutFrom(b, ships + [run], next + 1, placedTiles + ShipSizes[next], totalTiles, draws, d + o.1, width, height);
      SafeDrawsFrom(b, ships + [run], next + 1, placedTiles + ShipSizes[next], totalTiles, draws, d + o.1, hi, width, height);
  }

  /** `place_ships` raises only when one of the MaxDraws draws it may consult raises
      for the carrier. */
  lemma RaisesOnlyOnDraw(width: int, height: int, totalTiles: int, draws: seq<Draw>)
    requires |draws| >= MaxDraws
    ensures Layout(width, height, totalTiles, draws).RandRangeError? ==>
      exists j :: 0 <= j < MaxDraws && RaisesOn(draws[j], MaxShipSize, width, height)
  {
    if !exists j :: 0 <= j < MaxDraws && RaisesOn(draws[j], MaxShipSize, width, height) {
      SafeDrawsFrom(Fill(width, height, Water), [], 0, 0, totalTiles, draws, 0, MaxDraws, width, height);
    }
  }

  /** A board at least as tall as the carrier never raises when every ship is
      drawn vertical, however narrow it is: `randint(0, width - 1)` and
      `randint(0, height - size)` both have values. */
  lemma VerticalNeverRaises(width: int, height: int, totalTiles: int, draws: seq<Draw>)
    requires |draws| >= MaxDraws && width >= 1 && height >= MaxShipSize
    requires forall j :: 0 <= j < MaxDraws ==> !draws[j].horizontal
    ensures Layout(width, height, totalTiles, draws).Placed?
  {
    RaisesOnlyOnDraw(width, height, totalTiles, draws);
  }

  /** When every draw is horizontal at the top-left corner, the first ship is
      the carrier along the top row, whatever the other sizes do. */
  lemma CornerDrawsGiveCarrier(totalTiles: int, draws: seq<Draw>)
    requires 0 < totalTiles && |draws| >= MaxDraws
    requires forall j :: 0 <= j < MaxDraws ==> draws[j] == Draw(true, 0, 0)
    ensures var r := Layout(10, 10, totalTiles, draws);
      r.Placed? && |r.ships| >= 1 && r.ships[0] == [(0, 0), (0, 1), (0, 2), (0, 3), (0, 4)]
  {
    RaisesOnlyOnDraw(10, 10, totalTiles, draws);
    FirstShipIsCarrier(10, 10, totalTiles, draws);
    var run := Candidate(draws[0], MaxShipSize, 10, 10);
    assert run == Run(H, 0, 0, MaxShipSize);
    assert run == [(0, 0), (0, 1), (0, 2), (0, 3), (0, 4)];
  }

  /** One pass of `while sizes and placed_tiles < total_tiles`: pop the next
      size and run its retry loop on the draws from `draws[d]` on. A placed run
      is appended and its length added to `placedTiles`; a size whose 100
      attempts all met a ship is dropped and nothing changes. */
  method PlaceNextSize(board: Board, ships: seq<seq<Coord>>, next: nat, placedTiles: int, totalTiles: int,
                       draws: seq<Draw>, d: nat, width: int, height: int)
    returns (a: Attempt, board': Board, ships': seq<seq<Coord>>, placedTiles': int, used: nat)
    requires IsGrid(board, width, height) && next < |ShipSizes| && placedTiles < totalTiles
    requires d + AttemptsPerSize * (|ShipSizes| - next) <= |draws|  // AttemptsPerSize draws for each size still to pop
    ensures a.Raised? ==> LayoutFrom(board, ships, next, placedTiles, totalTiles, draws, d, width, height) == RandRangeError
    ensures a.Occupied? ==> board' == board && ships' == ships && placedTiles' == placedTiles
    ensures a.Taken? ==> board' == Painted(board, a.run, ShipTile(|ships|), width, height) && ships' == ships + [a.run] && placedTiles' == placedTiles + ShipSizes[next]
    ensures !a.Raised? ==>
      && IsGrid(board', width, height)
      && d + used + AttemptsPerSize * (|ShipSizes| - (next + 1)) <= |draws|
      && LayoutFrom(board', ships', next + 1, placedTiles', totalTiles, draws, d + used, width, height)
         == LayoutFrom(board, ships, next, placedTiles, totalTiles, draws, d, width, height)
  {
    SizeBounds(next);
    a, used, board' := PlaceSize(board, ships, ShipSizes[next], draws, d, width, height);
    ships', placedTiles' := ships, placedTiles;
    if a.Taken? {
      ships', placedTiles' := ships + [a.run], placedTiles + ShipSizes[next];
    }
    LayoutStep(board, ships, next, placedTiles, totalTiles, draws, d, width, height, a, used);
  }

  /** `place_ships(width, height, total_tiles)`, the draws of attempt n being `draws[n]`. */
  method PlaceShips(width: int, height: int, totalTiles: int, draws: seq<Draw>) returns (r: Placement)
    requires |draws| >= MaxDraws
    ensures r == Layout(width, height, totalTiles, draws)
    ensures r.Placed? ==> Consistent(r.board, r.ships, width, height) && Disjoint(r.ships)
    ensures r.Placed? ==> forall k :: 0 <= k < |r.ships| ==> IsStraight(r.ships[k])
    ensures r.Placed? ==> IsSubsequence(Lengths(r.ships), ShipSizes)
    ensures r.Placed? && r.ships != [] ==> TotalLength(r.ships[..|r.ships| - 1]) < totalTiles
    ensures totalTiles <= 0 ==> r == Placed(Fill(width, height, Water), [])
    ensures r.RandRangeError? ==> 0 < totalTiles && (width < MaxShipSize || height < MaxShipSize)
    ensures r.RandRangeError? ==> exists j :: 0 <= j < MaxDraws && RaisesOn(draws[j], MaxShipSize, width, height)
  {
    var board := Fill(width, height, Water);
    var ships: seq<seq<Coord>> := [];
    var placedTiles := 0;
    var next := 0;  // the sizes still to try are ShipSizes[next..]
    var d := 0;     // draws used so far
    while next < |ShipSizes| && placedTiles < totalTiles
      invariant 0 <= next <= |ShipSizes| && 0 <= d && d + AttemptsPerSize * (|ShipSizes| - next) <= |draws|
      invariant IsGrid(board, width, height)
      invariant LayoutFrom(board, ships, next, placedTiles, totalTiles, draws, d, width, height) == Layout(width, height, totalTiles, draws)
    {
      var a, board', ships', placedTiles', used := PlaceNextSize(board, ships, next, placedTiles, totalTiles, draws, d, width, height);
      if a.Raised? {
        LayoutValid(width, height, totalTiles, draws);
        RaisesOnlyOnDraw(width, height, totalTiles, draws);
        return RandRangeError;
      }
      board, ships, placedTiles := board', ships', placedTiles';
      next, d := next + 1, d + used;
    }
    LayoutValid(width, height, totalTiles, draws);
    return Placed(board, ships);
  }

  /** For a positive target the first pass is the carrier's, on the all-water
      board: its first draw either raises, and `place_ships` raises, or proposes
      a run that is all water, and that run is the first ship. */
  lemma FirstShipIsCarrier(width: int, height: int, totalTiles: int, draws: seq<Draw>)
    requires 0 < totalTiles && |draws| >= MaxDraws
    ensures RaisesOn(draws[0], MaxShipSize, width, height) ==> Layout(width, height, totalTiles, draws) == RandRangeError
    ensures Layout(width, height, totalTiles, draws).Placed? ==>
      && !RaisesOn(draws[0], MaxShipSize, width, height)
      && |Layout(width, height, totalTiles, draws).ships| >= 1
      && Layout(width, height, totalTiles, draws).ships[0] == Candidate(draws[0], MaxShipSize, width, height)
  {
    var board := Fill(width, height, Water);
    assert ShipSizes[0] == MaxShipSize;
    var o := SizeOutcome(board, MaxShipSize, draws, 0, 0, width, height);
    assert Layout(width, height, totalTiles, draws) == AfterPass(board, [], 0, 0, totalTiles, draws, 0, width, height, o);
    if !RaisesOn(draws[0], MaxShipSize, width, height) {
      var run := Candidate(draws[0], MaxShipSize, width, height);
      AllWaterCells(board, run, width, height);
      assert o.0.Taken? && o.0.run == run && o.1 == 1;
      assert [] + [run] == [run];
      var b := Painted(board, run, ShipTile(0), width, height);
      PrefixFrom(b, [run], 1, MaxShipSize, totalTiles, draws, 1, width, height);
      var r := LayoutFrom(b, [run], 1, MaxShipSize, totalTiles, draws, 1, width, height);
      assert Layout(width, height, totalTiles, draws) == r;
      if r.Placed? {
        assert r.ships[..1] == [run];
        assert r.ships[0] == r.ships[..1][0];
      }
    }
  }

  /** What every layout `place_ships` returns satisfies: the board agrees with
      the ships, each ship is straight, their lengths are some of the standard
      sizes in order, the last was placed while fewer than `totalTiles` tiles
      were down, and a positive target gets at least one ship. */
  predicate IsLayout(board: Board, ships: seq<seq<Coord>>, width: int, height: int, totalTiles: int)
  {
    && Consistent(board, ships, width, height)
    && (forall k :: 0 <= k < |ships| ==> IsStraight(ships[k]))
    && IsSubsequence(Lengths(ships), ShipSizes)
    && (ships != [] ==> TotalLength(ships[..|ships| - 1]) < totalTiles)
    && (0 < totalTiles ==> ships != [])
  }

  /** A subsequence of a prefix is a subsequence of the whole. */
  lemma {:induction false} SubsequenceTail(a: seq<int>, b: seq<int>, n: nat)
    requires n <= |b| && IsSubsequence(a, b[..n])
    ensures IsSubsequence(a, b)
    decreases |b| - n
  {
    if n < |b| {
      assert b[..n + 1] == b[..n] + [b[n]];
      SubsequenceSkip(a, b[..n], b[n]);
      SubsequenceTail(a, b, n + 1);
    } else {
      assert b[..n] == b;
    }
  }
}
