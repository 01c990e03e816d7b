/** The live bot's game logic (battleshipbot.py): the sink predicates, the game
    record kept per game, and the steps the `start`, `join` and `shoot` commands
    take on it once the record has been looked up. */
module BotGame {
  import opened Grid
  import opened BotLayout

  datatype Option<T> = None | Some(value: T)

  /** `is_ship_sunk(ship_cells, hits)`: every cell of the ship has been fired on. */
  function IsShipSunk(ship: seq<Coord>, hits: set<Coord>): (sunk: bool)
    ensures sunk <==> forall i :: 0 <= i < |ship| ==> ship[i] in hits
    ensures sunk <==> (set i | 0 <= i < |ship| :: ship[i]) <= hits
  {
    ship == [] || (ship[0] in hits && IsShipSunk(ship[1..], hits))
  }

  /** `all_ships_sunk(ships, hits)`: every ship is sunk, so the hit set covers
      every ship cell; true when there are no ships. */
  function AllShipsSunk(ships: seq<seq<Coord>>, hits: set<Coord>): (all: bool)
    ensures all <==> forall k :: 0 <= k < |ships| ==> IsShipSunk(ships[k], hits)
    ensures all <==> forall k, i :: 0 <= k < |ships| && 0 <= i < |ships[k]| ==> ships[k][i] in hits
    ensures ships == [] ==> all
  {
    if ships == [] then true
    else
      assert forall k :: 1 <= k < |ships| ==> ships[k] == ships[1..][k - 1];
      IsShipSunk(ships[0], hits) && AllShipsSunk(ships[1..], hits)
  }

  /** A side of a game: 1 or 2, as in the record's keys "board1", "hits2", ... */
  type Team = t: int | t == 1 || t == 2 witness 1

  /** The game document: both boards and ship lists, the hit set of each team
      (the shots that team has fired at the other team's board) and the channel
      each team joined from (`None` until then). */
  datatype Game = Game(
    width: int, height: int,
    board1: Board, board2: Board,
    ships1: seq<seq<Coord>>, ships2: seq<seq<Coord>>,
    hits1: set<Coord>, hits2: set<Coord>,
    channel1: Option<int>, channel2: Option<int>)
  {
    function BoardOf(t: Team): Board { if t == 1 then board1 else board2 }
    function ShipsOf(t: Team): seq<seq<Coord>> { if t == 1 then ships1 else ships2 }
    function HitsOf(t: Team): set<Coord> { if t == 1 then hits1 else hits2 }
    function ChannelOf(t: Team): Option<int> { if t == 1 then channel1 else channel2 }
    function WithHits(t: Team, h: set<Coord>): Game { if t == 1 then this.(hits1 := h) else this.(hits2 := h) }
  }

  /** The other team, `3 - team`. */
  function Opponent(t: Team): Team { 3 - t }

  /** Each board, on the record's dimensions, agrees with its ship list: the
      cells of ship k hold "ship-k" and every other cell is water. */
  predicate WellFormed(g: Game)
  {
    Consistent(g.board1, g.ships1, g.width, g.height) && Consistent(g.board2, g.ships2, g.width, g.height)
  }

  /** Python truthiness of a stored channel: `None` and the id 0 count as unbound. */
  predicate Bound(c: Option<int>)
  {
    c.Some? && c.value != 0
  }

  datatype StartResult = Created(game: Game) | StartRaised

  /** The record `start` inserts: two independent layouts, no shots, no channels.
      Team 1's layout is `place_ships` on `draws1`, team 2's on `draws2`; a
      ValueError from either call aborts the command. */
  method Start(width: int, height: int, tiles: int, draws1: seq<Draw>, draws2: seq<Draw>) returns (r: StartResult)
    requires |draws1| >= MaxDraws && |draws2| >= MaxDraws
    ensures r.StartRaised? <==>
      Layout(width, height, tiles, draws1).RandRangeError? || Layout(width, height, tiles, draws2).RandRangeError?
    ensures r.Created? ==>
      r.game == Game(width, height,
                     Layout(width, height, tiles, draws1).board, Layout(width, height, tiles, draws2).board,
                     Layout(width, height, tiles, draws1).ships, Layout(width, height, tiles, draws2).ships,
                     {}, {}, None, None)
    ensures r.Created? ==>
      && WellFormed(r.game)
      && IsLayout(r.game.board1, r.game.ships1, width, height, tiles)
      && IsLayout(r.game.board2, r.game.ships2, width, height, tiles)
    ensures r.Created? && 0 < tiles ==>
      && !RaisesOn(draws1[0], MaxShipSize, width, height) && !RaisesOn(draws2[0], MaxShipSize, width, height)
      && r.game.ships1[0] == Candidate(draws1[0], MaxShipSize, width, height)
      && r.game.ships2[0] == Candidate(draws2[0], MaxShipSize, width, height)
    ensures width >= MaxShipSize && height >= MaxShipSize ==> r.Created?
  {
    var p1 := PlaceShips(width, height, tiles, draws1);
    if p1.RandRangeError? {
      return StartRaised;
    }
    var p2 := PlaceShips(width, height, tiles, draws2);
    if p2.RandRangeError? {
      return StartRaised;
    }
    if 0 < tiles {
      FirstShipIsCarrier(width, height, tiles, draws1);
      FirstShipIsCarrier(width, height, tiles, draws2);
    }
    return Created(Game(width, height, p1.board, p2.board, p1.ships, p2.ships, {}, {}, None, None));
  }

  datatype JoinResult = Joined(team: Team, game: Game) | BothTeamsJoined

  /** The slot assignment of `join`: the first unbound channel takes the caller's channel id. */
  function Join(g: Game, channel: int): (r: JoinResult)
    ensures r.BothTeamsJoined? <==> Bound(g.channel1) && Bound(g.channel2)
    ensures r.Joined? ==> (r.team == 1 <==> !Bound(g.channel1))
    ensures r.Joined? ==> !Bound(g.ChannelOf(r.team)) && r.game.ChannelOf(r.team) == Some(channel)
    ensures r.Joined? ==> r.game.ChannelOf(Opponent(r.team)) == g.ChannelOf(Opponent(r.team))
    ensures r.Joined? ==> r.game.(channel1 := g.channel1, channel2 := g.channel2) == g
  {
    if !Bound(g.channel1) then Joined(1, g.(channel1 := Some(channel)))
    else if !Bound(g.channel2) then Joined(2, g.(channel2 := Some(channel)))
    else BothTeamsJoined
  }

  /** Who is shooting: team 1 exactly when the command's channel is `channel1`. */
  function ShooterTeam(g: Game, channel: int): Team
  {
    if g.channel1 == Some(channel) then 1 else 2
  }

  /** `str.upper()` on ASCII letters; other characters are left as they are. */
  function Upper(c: char): char
  {
    if 'a' <= c <= 'z' then (c as int - 32) as char else c
  }

  /** The coordinate a shot names: `y = ord(row.upper()) - 65`, `x = column - 1`.
      `ord` raises TypeError unless the row is exactly one character. */
  function ParseShot(row: string, column: int): (p: Option<Coord>)
    ensures p.Some? <==> |row| == 1
  {
    var upper := seq(|row|, i requires 0 <= i < |row| => Upper(row[i]));
    if |upper| != 1 then None else Some((upper[0] as int - 65, column - 1))
  }

  /** A row letter (upper or lower case, as `render_board` labels rows with
      `chr(65 + i)`) and a 1-based column name the cell (row, column - 1). */
  lemma ParseShotRoundTrip(y: int, x: int)
    requires 0 <= y < 26
    ensures ParseShot([(65 + y) as char], x + 1) == Some((y, x))
    ensures ParseShot([(97 + y) as char], x + 1) == Some((y, x))
  {
  }

  datatype HitResult = Miss | Hit | Sunk

  datatype ShotResult =
    | BadRow               // `ord` raised on a row that is not one character
    | InvalidCoordinates   // "Invalid coordinates."
    | AlreadyShot          // "You already shot there."
    | Fired(result: HitResult, allSunk: bool, game: Game)

  /** The outcome against the updated hit set: water is a miss; a ship cell is a
      hit, or a sinking when that ship is now covered. */
  function Classify(cell: Cell, ships: seq<seq<Coord>>, hits: set<Coord>): HitResult
    requires cell.ShipTile? ==> cell.index < |ships|
  {
    if cell.Water? then Miss
    else if IsShipSunk(ships[cell.index], hits) then Sunk
    else Hit
  }

  /** The shot step of `shoot` on the record found for `channel`. A rejected shot
      leaves the record as it was. */
  function Shoot(g: Game, channel: int, row: string, column: int): (r: ShotResult)
    requires WellFormed(g)
    ensures r.BadRow? <==> |row| != 1
    ensures r.InvalidCoordinates? <==> |row| == 1 && !InBounds(ParseShot(row, column).value, g.width, g.height)
    ensures r.AlreadyShot? <==>
      |row| == 1 && InBounds(ParseShot(row, column).value, g.width, g.height)
      && ParseShot(row, column).value in g.HitsOf(ShooterTeam(g, channel))
    ensures r.Fired? ==>
      var t := ShooterTeam(g, channel);
      && r.game == g.WithHits(t, g.HitsOf(t) + {ParseShot(row, column).value})
      && |r.game.HitsOf(t)| == |g.HitsOf(t)| + 1
      && WellFormed(r.game)
  {
    var t := ShooterTeam(g, channel);
    match ParseShot(row, column)
    case None => BadRow
    case Some(p) =>
      if !InBounds(p, g.width, g.height) then InvalidCoordinates
      else if p in g.HitsOf(t) then AlreadyShot
      else
        var hits := g.HitsOf(t) + {p};
        var enemy := Opponent(t);
        var ships := g.ShipsOf(enemy);
        var cell := g.BoardOf(enemy)[p.0][p.1];
        Fired(Classify(cell, ships, hits), AllShipsSunk(ships, hits), g.WithHits(t, hits))
  }

  /** A cell's classification, read against the ship list instead of the
      board: a miss exactly when no ship covers the cell; otherwise sunk or hit
      as the ship covering it is or is not wholly in the hit set. */
  lemma {:induction false} ClassifyMeaning(board: Board, ships: seq<seq<Coord>>, width: int, height: int, p: Coord, hits: set<Coord>)
    requires Consistent(board, ships, width, height) && InBounds(p, width, height)
    ensures board[p.0][p.1].ShipTile? ==> board[p.0][p.1].index < |ships|
    ensures
      var c := Classify(board[p.0][p.1], ships, hits);
      && (c == Miss <==> forall k :: 0 <= k < |ships| ==> p !in ships[k])
      && (forall k :: 0 <= k < |ships| && p in ships[k] ==>
            (c == Sunk <==> IsShipSunk(ships[k], hits)) && (c == Hit <==> !IsShipSunk(ships[k], hits)))
  {
    CellMeaning(board, ships, width, height, p);
  }

  /** The outcome of a shot that fires: a miss exactly when no enemy ship
      covers the cell; otherwise sunk exactly when the ship covering it is now
      wholly hit; the flag exactly when every enemy ship is. */
  lemma {:induction false} ShotOutcome(g: Game, channel: int, row: string, column: int)
    requires WellFormed(g) && Shoot(g, channel, row, column).Fired?
    ensures
      var r, t, p := Shoot(g, channel, row, column), ShooterTeam(g, channel), ParseShot(row, column).value;
      var ships, hits := g.ShipsOf(Opponent(t)), g.HitsOf(t) + {p};
      && (r.result == Miss <==> forall k :: 0 <= k < |ships| ==> p !in ships[k])
      && (forall k :: 0 <= k < |ships| && p in ships[k] ==>
            (r.result == Sunk <==> IsShipSunk(ships[k], hits)) && (r.result == Hit <==> !IsShipSunk(ships[k], hits)))
      && (r.allSunk <==> forall k :: 0 <= k < |ships| ==> IsShipSunk(ships[k], hits))
  {
    var t, p := ShooterTeam(g, channel), ParseShot(row, column).value;
    var e := Opponent(t);
    var hits := g.HitsOf(t) + {p};
    ClassifyMeaning(g.BoardOf(e), g.ShipsOf(e), g.width, g.height, p, hits);
    assert Shoot(g, channel, row, column)
      == Fired(Classify(g.BoardOf(e)[p.0][p.1], g.ShipsOf(e), hits), AllShipsSunk(g.ShipsOf(e), hits), g.WithHits(t, hits));
  }

  /** Sunk is reported only by the shot that covers a ship's last unhit cell: the
      ship hit was afloat before the shot and is sunk after it. */
  lemma {:induction false} SunkOnlyOnLastCell(g: Game, channel: int, row: string, column: int, k: int)
    requires WellFormed(g) && Shoot(g, channel, row, column).Fired?
    requires
      var t := ShooterTeam(g, channel);
      0 <= k < |g.ShipsOf(Opponent(t))| && ParseShot(row, column).value in g.ShipsOf(Opponent(t))[k]
    ensures
      var t, r := ShooterTeam(g, channel), Shoot(g, channel, row, column);
      var ship := g.ShipsOf(Opponent(t))[k];
      r.result == Sunk <==> !IsShipSunk(ship, g.HitsOf(t)) && IsShipSunk(ship, r.game.HitsOf(t))
  {
    var t, p := ShooterTeam(g, channel), ParseShot(row, column).value;
    ShotOutcome(g, channel, row, column);
    assert p !in g.HitsOf(t);
  }

  /** Once a ship is sunk no shot of that team lands on it again, so it cannot be
      reported sunk a second time. */
  lemma {:induction false} NoSecondSinking(g: Game, channel: int, row: string, column: int, k: int)
    requires WellFormed(g)
    requires
      var t := ShooterTeam(g, channel);
      0 <= k < |g.ShipsOf(Opponent(t))| && IsShipSunk(g.ShipsOf(Opponent(t))[k], g.HitsOf(t))
    ensures Shoot(g, channel, row, column).Fired? ==>
      ParseShot(row, column).value !in g.ShipsOf(Opponent(ShooterTeam(g, channel)))[k]
  {
  }

  /** Firing at the same coordinate again is rejected and changes nothing. */
  lemma {:induction false} RepeatShotRejected(g: Game, channel: int, row: string, column: int)
    requires WellFormed(g) && Shoot(g, channel, row, column).Fired?
    ensures Shoot(Shoot(g, channel, row, column).game, channel, row, column) == AlreadyShot
  {
    var g' := Shoot(g, channel, row, column).game;
    assert ShooterTeam(g', channel) == ShooterTeam(g, channel);
  }

  /** The record after a shot: the new one if it fired, else the old one. */
  function After(g: Game, r: ShotResult): Game
  {
    if r.Fired? then r.game else g
  }

  datatype Shot = Shot(channel: int, row: string, column: int)

  /** A sequence of `shoot` commands against one record. */
  function Play(g: Game, shots: seq<Shot>): (g': Game)
    requires WellFormed(g)
    ensures WellFormed(g')
    ensures g'.hits1 >= g.hits1 && g'.hits2 >= g.hits2
    ensures g'.(hits1 := g.hits1, hits2 := g.hits2) == g
    decreases |shots|
  {
    if shots == [] then g
    else
      var s := shots[0];
      Play(After(g, Shoot(g, s.channel, s.row, s.column)), shots[1..])
  }

  /** Which team a channel shoots as after joining: the team it joined as,
      unless it joined as team 2 from the channel already bound as team 1, in
      which case its shots keep counting for team 1. */
  lemma JoinedChannelShootsAs(g: Game, channel: int)
    requires Join(g, channel).Joined?
    ensures
      var r := Join(g, channel);
      ShooterTeam(r.game, channel) == r.team <==> r.team == 1 || g.channel1 != Some(channel)
  {
  }

  /** Two joins from non-zero channels on a new record bind team 1 and then
      team 2, and any further join is refused. */
  lemma {:induction false} JoinSequence(g: Game, a: int, b: int, c: int)
    requires g.channel1 == None && g.channel2 == None && a != 0 && b != 0
    ensures Join(g, a).Joined? && Join(g, a).team == 1
    ensures
      var g1 := Join(g, a).game;
      Join(g1, b).Joined? && Join(g1, b).team == 2
      && Join(Join(g1, b).game, c) == BothTeamsJoined
      && Join(g1, b).game.channel1 == Some(a) && Join(g1, b).game.channel2 == Some(b)
  {
  }

  /** What `join` shows as written (lines 123-124): the opponent's board with
      the opponent's hit set, that is, with the shots the opponent fired at the
      joining team's own board. */
  function JoinViewAsWritten(g: Game, team: Team): (Board, set<Coord>)
  {
    (g.BoardOf(Opponent(team)), g.HitsOf(Opponent(team)))
  }

  /** The corrected view: the opponent's board with the joining team's own
      hits, the pairing `shoot` renders under the same "Target Grid" title. */
  function JoinView(g: Game, team: Team): (Board, set<Coord>)
  {
    (g.BoardOf(Opponent(team)), g.HitsOf(team))
  }

  /** Each team's view of its target board gains exactly the shots that team
      fires, and the other team's view is untouched by them. */
  lemma {:induction false} JoinViewTracksOwnShots(g: Game, channel: int, row: string, column: int)
    requires WellFormed(g) && Shoot(g, channel, row, column).Fired?
    ensures
      var t, g' := ShooterTeam(g, channel), Shoot(g, channel, row, column).game;
      && JoinView(g', t) == (JoinView(g, t).0, JoinView(g, t).1 + {ParseShot(row, column).value})
      && JoinView(g', Opponent(t)) == JoinView(g, Opponent(t))
  {
  }

  /** The view as written puts a team's shot onto the board it was not fired at:
      the other team's view of that team's own board shows it. */
  lemma {:induction false} JoinViewAsWrittenMisplacesShots(g: Game, channel: int, row: string, column: int)
    requires WellFormed(g) && Shoot(g, channel, row, column).Fired?
    ensures
      var t, g' := ShooterTeam(g, channel), Shoot(g, channel, row, column).game;
      && JoinViewAsWritten(g', Opponent(t)).0 == g.BoardOf(t)
      && JoinViewAsWritten(g', Opponent(t)).1 == JoinViewAsWritten(g, Opponent(t)).1 + {ParseShot(row, column).value}
  {
  }

  /** A new 1 x 1 game with no ships whose team 1 joined from channel 7. */
  function LoneChannelGame(): Game
  {
    Game(1, 1, [[Water]], [[Water]], [], [], {}, {}, Some(7), None)
  }

  /** Team 1 fires at A1 before team 2 joins; team 2's join view as written shows
      a shot at A1 on team 1's board, at which nobody has fired. */
  lemma JoinViewAsWrittenWitness()
    ensures WellFormed(LoneChannelGame())
    ensures
      var r := Shoot(LoneChannelGame(), 7, "A", 1);
      && r.Fired?
      && Join(r.game, 8) == Joined(2, r.game.(channel2 := Some(8)))
      && (0, 0) in JoinViewAsWritten(Join(r.game, 8).game, 2).1
      && Join(r.game, 8).game.hits2 == {}
      && JoinView(Join(r.game, 8).game, 2).1 == {}
  {
    var g := LoneChannelGame();
    assert WellFormed(g);
    assert ParseShot("A", 1) == Some((0, 0));
  }

  /** Team 1 (channel 7) against a 2 x 1 board whose one ship covers A1 and A2. */
  function TwoCellGame(): Game
  {
    Game(2, 1, [[Water, Water]], [[ShipTile(0), ShipTile(0)]], [], [[(0, 0), (0, 1)]], {}, {}, Some(7), Some(8))
  }

  lemma TwoCellWellFormed()
    ensures WellFormed(TwoCellGame())
  {
    var g := TwoCellGame();
    assert (0, 0) in g.ships2[0] && (0, 1) in g.ships2[0];
  }

  /** Firing A1 hits the ship without sinking it. */
  lemma TwoCellFirstShot()
    ensures WellFormed(TwoCellGame())
    ensures Shoot(TwoCellGame(), 7, "A", 1) == Fired(Hit, false, TwoCellGame().(hits1 := {(0, 0)}))
  {
    var g := TwoCellGame();
    TwoCellWellFormed();
    assert ParseShot("A", 1) == Some((0, 0));
    assert g.ships2[0][1] !in {(0, 0)};
  }

  /** Then firing a2 (lower case) sinks it, and with it the whole fleet. */
  lemma TwoCellSecondShot()
    ensures WellFormed(TwoCellGame().(hits1 := {(0, 0)}))
    ensures Shoot(TwoCellGame().(hits1 := {(0, 0)}), 7, "a", 2)
      == Fired(Sunk, true, TwoCellGame().(hits1 := {(0, 0), (0, 1)}))
  {
    var g := TwoCellGame();
    TwoCellWellFormed();
    assert ParseShot("a", 2) == Some((0, 1));
    assert {(0, 0)} + {(0, 1)} == {(0, 0), (0, 1)};
    assert IsShipSunk(g.ships2[0], {(0, 0), (0, 1)});
  }

  /** Then firing A1 again is rejected, and a row or a column off the board, or
      an empty row, is rejected outright. */
  lemma TwoCellRejections()
    ensures WellFormed(TwoCellGame().(hits1 := {(0, 0), (0, 1)}))
    ensures Shoot(TwoCellGame().(hits1 := {(0, 0), (0, 1)}), 7, "A", 1) == AlreadyShot
    ensures Shoot(TwoCellGame(), 7, "Z", 1) == InvalidCoordinates
    ensures Shoot(TwoCellGame(), 7, "A", 3) == InvalidCoordinates
    ensures Shoot(TwoCellGame(), 7, "", 1) == BadRow
  {
    TwoCellWellFormed();
    assert ParseShot("A", 1) == Some((0, 0));
    assert ParseShot("Z", 1) == Some((25, 0));
    assert ParseShot("A", 3) == Some((0, 2));
  }
}
