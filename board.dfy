/** Game.set_board: the random object counts and the random permutation
    of board cells become parameters; each object of the object list is
    dealt to the cell the permutation names, and every cell but the
    robot's then yields an object at its pixel position. */
module Board {
  const GridSizeX: int := 15
  const GridSizeY: int := 8
  const GridSize: int := GridSizeX * GridSizeY
  const RobotBorderBuffer: int := 2

  /** What a grid cell holds: "", "coin", "door" or "monster". */
  datatype Kind = Blank | Coin | Door | Monster

  /** The three randrange draws of set_board. */
  datatype ObjectCounts = ObjectCounts(coin: int, door: int, monster: int)

  /** randrange(10, 20), randrange(10, 30) and randrange(5, 15). */
  predicate ValidCounts(c: ObjectCounts) {
    10 <= c.coin < 20 && 10 <= c.door < 30 && 5 <= c.monster < 15
  }

  /** [k] * n, which is empty for a negative n. */
  function Repeat(k: Kind, n: int): (r: seq<Kind>)
    ensures |r| == if n > 0 then n else 0
    ensures forall i :: 0 <= i < |r| ==> r[i] == k
    decreases n
  {
    if n <= 0 then [] else [k] + Repeat(k, n - 1)
  }

  /** tmplist: the coins, then the doors, then the monsters, padded with
      blanks up to the grid size. */
  function ObjectList(c: ObjectCounts): (t: seq<Kind>)
    requires ValidCounts(c)
    ensures |t| == GridSize
    ensures forall i :: 0 <= i < |t| ==> (t[i] == Coin <==> i < c.coin)
    ensures forall i :: 0 <= i < |t| ==> (t[i] == Door <==> c.coin <= i < c.coin + c.door)
    ensures forall i :: 0 <= i < |t| ==> (t[i] == Monster <==> c.coin + c.door <= i < c.coin + c.door + c.monster)
    ensures forall i :: 0 <= i < |t| ==> (t[i] == Blank <==> c.coin + c.door + c.monster <= i)
  {
    var total := c.coin + c.door + c.monster;
    Repeat(Coin, c.coin) + Repeat(Door, c.door) + Repeat(Monster, c.monster) + Repeat(Blank, GridSize - total)
  }

  /** sample(range(0, n), n): every cell index exactly once. */
  predicate IsPermutation(li: seq<int>, n: int) {
    && |li| == n
    && (forall j :: 0 <= j < |li| ==> 0 <= li[j] < n)
    && (forall j, k :: 0 <= j < k < |li| ==> li[j] != li[k])
    && (forall i :: 0 <= i < n ==> i in li)
  }

  /** dict(zip(keys, vals)): pairs up to the shorter list, a later pair
      overriding an earlier one with the same key. */
  function ZipDict<K, V>(keys: seq<K>, vals: seq<V>): (d: map<K, V>)
    decreases |keys|
  {
    var n := if |keys| < |vals| then |keys| else |vals|;
    if n == 0 then map[] else ZipDict(keys[..n - 1], vals[..n - 1])[keys[n - 1] := vals[n - 1]]
  }

  /** With distinct keys, each key maps to the value beside it, and no
      other key is present. */
  lemma {:induction false} ZipDictLookup<K, V>(keys: seq<K>, vals: seq<V>)
    requires |keys| <= |vals|
    requires forall j, k :: 0 <= j < k < |keys| ==> keys[j] != keys[k]
    ensures forall j :: 0 <= j < |keys| ==> keys[j] in ZipDict(keys, vals) && ZipDict(keys, vals)[keys[j]] == vals[j]
    ensures forall key :: key in ZipDict(keys, vals) ==> key in keys
    decreases |keys|
  {
    var n := |keys|;
    if n > 0 {
      var ks, vs := keys[..n - 1], vals[..n - 1];
      ZipDictLookup(ks, vs);
      assert ZipDict(keys, vals) == ZipDict(ks, vs)[keys[n - 1] := vals[n - 1]];
      forall j | 0 <= j < n - 1
        ensures keys[j] in ZipDict(keys, vals) && ZipDict(keys, vals)[keys[j]] == vals[j]
      {
        assert ks[j] == keys[j] && vs[j] == vals[j];
      }
      forall key | key in ZipDict(keys, vals)
        ensures key in keys
      {
        if key != keys[n - 1] {
          assert key in ks;
        }
      }
    }
  }

  /** objdict: the object dealt to each cell index. */
  function ObjectDict(li: seq<int>, c: ObjectCounts): map<int, Kind>
    requires ValidCounts(c)
  {
    ZipDict(li, ObjectList(c))
  }

  /** Under a permutation, every cell index gets exactly the object at the
      position the permutation shows it at. */
  lemma ObjectDictOfPermutation(li: seq<int>, c: ObjectCounts)
    requires ValidCounts(c) && IsPermutation(li, GridSize)
    ensures forall j :: 0 <= j < GridSize ==> li[j] in ObjectDict(li, c) && ObjectDict(li, c)[li[j]] == ObjectList(c)[j]
    ensures forall i :: 0 <= i < GridSize <==> i in ObjectDict(li, c)
  {
    var t := ObjectList(c);
    ZipDictLookup(li, t);
    var d := ZipDict(li, t);
    assert d == ObjectDict(li, c);
    forall i | 0 <= i < GridSize
      ensures i in d
    {
      assert i in li;
      var j :| 0 <= j < |li| && li[j] == i;
    }
  }

  /** A grid of GridSizeY rows of GridSizeX cells. */
  predicate IsGrid(grid: seq<seq<Kind>>) {
    |grid| == GridSizeY && forall b :: 0 <= b < |grid| ==> |grid[b]| == GridSizeX
  }

  /** The loop that fills start_grid: cell (b, a) gets objdict[b * 15 + a]. */
  method FillGrid(objdict: map<int, Kind>) returns (grid: seq<seq<Kind>>)
    requires forall i :: 0 <= i < GridSize ==> i in objdict
    ensures IsGrid(grid)
    ensures forall b, a :: 0 <= b < GridSizeY && 0 <= a < GridSizeX ==> grid[b][a] == objdict[b * GridSizeX + a]
  {
    grid := seq(GridSizeY, _ => seq(GridSizeX, _ => Blank));
    for b := 0 to GridSizeY
      invariant IsGrid(grid)
      invariant forall b', a :: 0 <= b' < b && 0 <= a < GridSizeX ==> grid[b'][a] == objdict[b' * GridSizeX + a]
    {
      for a := 0 to GridSizeX
        invariant IsGrid(grid)
        invariant forall b', a' :: 0 <= b' < b && 0 <= a' < GridSizeX ==> grid[b'][a'] == objdict[b' * GridSizeX + a']
        invariant forall a' :: 0 <= a' < a ==> grid[b][a'] == objdict[b * GridSizeX + a']
      {
        grid := grid[b := grid[b][a := objdict[b * GridSizeX + a]]];
      }
    }
  }

  /** Where objects go: the square sizes, the board's top-left corner and
      the robot's grid cell. */
  datatype Layout = Layout(squareX: int, squareY: int, left: int, top: int, robotX: int, robotY: int)

  /** The pixel position of grid cell (x, y). */
  function Pixel(x: int, y: int, l: Layout): (int, int) {
    (x * l.squareX + l.left, y * l.squareY + l.top)
  }

  predicate IsRobotCell(x: int, y: int, l: Layout) {
    x == l.robotX && y == l.robotY
  }

  /** The positions of the objects of one kind in row y, cells before x,
      skipping the robot's cell. */
  function RowPlaced(row: seq<Kind>, kind: Kind, y: int, l: Layout, x: nat): seq<(int, int)>
    requires x <= |row|
  {
    if x == 0 then []
    else
      var here := if row[x - 1] == kind && !IsRobotCell(x - 1, y, l) then [Pixel(x - 1, y, l)] else [];
      RowPlaced(row, kind, y, l, x - 1) + here
  }

  /** The positions of the objects of one kind in rows before y, in the
      order the placement loop appends them. */
  function Placed(grid: seq<seq<Kind>>, kind: Kind, l: Layout, y: nat): seq<(int, int)>
    requires y <= |grid|
  {
    if y == 0 then [] else Placed(grid, kind, l, y - 1) + RowPlaced(grid[y - 1], kind, y - 1, l, |grid[y - 1]|)
  }

  /** A position is in a row's list exactly when it is the pixel of a cell
      of that kind, other than the robot's. */
  lemma {:induction false} RowPlacedIff(row: seq<Kind>, kind: Kind, y: int, l: Layout, x: nat, p: (int, int))
    requires x <= |row|
    ensures p in RowPlaced(row, kind, y, l, x) <==>
      exists c :: 0 <= c < x && row[c] == kind && !IsRobotCell(c, y, l) && p == Pixel(c, y, l)
    decreases x
  {
    if x > 0 {
      RowPlacedIff(row, kind, y, l, x - 1, p);
      if p in RowPlaced(row, kind, y, l, x) && p !in RowPlaced(row, kind, y, l, x - 1) {
        assert row[x - 1] == kind && !IsRobotCell(x - 1, y, l) && p == Pixel(x - 1, y, l);
      }
    }
  }

  /** A position is placed exactly when it is the pixel of a cell of that
      kind, other than the robot's. */
  lemma {:induction false} PlacedIff(grid: seq<seq<Kind>>, kind: Kind, l: Layout, y: nat, p: (int, int))
    requires y <= |grid|
    ensures p in Placed(grid, kind, l, y) <==>
      exists r, c :: 0 <= r < y && 0 <= c < |grid[r]| && grid[r][c] == kind && !IsRobotCell(c, r, l) && p == Pixel(c, r, l)
    decreases y
  {
    if y > 0 {
      PlacedIff(grid, kind, l, y - 1, p);
      RowPlacedIff(grid[y - 1], kind, y - 1, l, |grid[y - 1]|, p);
      var before, row := Placed(grid, kind, l, y - 1), RowPlaced(grid[y - 1], kind, y - 1, l, |grid[y - 1]|);
      assert p in Placed(grid, kind, l, y) <==> p in before || p in row;
      if p in Placed(grid, kind, l, y) && p !in Placed(grid, kind, l, y - 1) {
        var c :| 0 <= c < |grid[y - 1]| && grid[y - 1][c] == kind && !IsRobotCell(c, y - 1, l) && p == Pixel(c, y - 1, l);
        assert 0 <= y - 1 < y;
      }
      if exists r, c :: 0 <= r < y && 0 <= c < |grid[r]| && grid[r][c] == kind && !IsRobotCell(c, r, l) && p == Pixel(c, r, l) {
        var r, c :| 0 <= r < y && 0 <= c < |grid[r]| && grid[r][c] == kind && !IsRobotCell(c, r, l) && p == Pixel(c, r, l);
        if r == y - 1 {
          assert p in RowPlaced(grid[y - 1], kind, y - 1, l, |grid[y - 1]|);
        }
      }
    }
  }

  /** With positive square sizes, distinct cells have distinct pixels. */
  lemma PixelInjective(x: int, y: int, x': int, y': int, l: Layout)
    requires l.squareX > 0 && l.squareY > 0
    ensures Pixel(x, y, l) == Pixel(x', y', l) <==> x == x' && y == y'
  {
  }

  /** No object of any kind is placed on the robot's cell. */
  lemma RobotCellKeptFree(grid: seq<seq<Kind>>, kind: Kind, l: Layout)
    requires l.squareX > 0 && l.squareY > 0
    ensures Pixel(l.robotX, l.robotY, l) !in Placed(grid, kind, l, |grid|)
  {
    var p := Pixel(l.robotX, l.robotY, l);
    PlacedIff(grid, kind, l, |grid|, p);
    if p in Placed(grid, kind, l, |grid|) {
      var r, c :| 0 <= r < |grid| && 0 <= c < |grid[r]| && grid[r][c] == kind && !IsRobotCell(c, r, l) && p == Pixel(c, r, l);
      PixelInjective(c, r, l.robotX, l.robotY, l);
    }
  }

  /** The placement loop of set_board: one list per kind, row by row. */
  method PlaceObjects(grid: seq<seq<Kind>>, l: Layout)
    returns (monsters: seq<(int, int)>, doors: seq<(int, int)>, coins: seq<(int, int)>)
    ensures monsters == Placed(grid, Monster, l, |grid|)
    ensures doors == Placed(grid, Door, l, |grid|)
    ensures coins == Placed(grid, Coin, l, |grid|)
  {
    monsters, doors, coins := [], [], [];
    for y := 0 to |grid|
      invariant monsters == Placed(grid, Monster, l, y)
      invariant doors == Placed(grid, Door, l, y)
      invariant coins == Placed(grid, Coin, l, y)
    {
      for x := 0 to |grid[y]|
        invariant monsters == Placed(grid, Monster, l, y) + RowPlaced(grid[y], Monster, y, l, x)
        invariant doors == Placed(grid, Door, l, y) + RowPlaced(grid[y], Door, y, l, x)
        invariant coins == Placed(grid, Coin, l, y) + RowPlaced(grid[y], Coin, y, l, x)
      {
        if !(x == l.robotX && y == l.robotY) {
          if grid[y][x] == Monster {
            monsters := monsters + [Pixel(x, y, l)];
          } else if grid[y][x] == Door {
            doors := doors + [Pixel(x, y, l)];
          } else if grid[y][x] == Coin {
            coins := coins + [Pixel(x, y, l)];
          }
        }
      }
    }
  }

  /** The result of set_board: the grid, the robot's position and the
      positions of the monsters, doors and coins it creates. */
  datatype BoardResult = BoardResult(
    grid: seq<seq<Kind>>,
    robot: (int, int),
    monsters: seq<(int, int)>,
    doors: seq<(int, int)>,
    coins: seq<(int, int)>)

  /** The layout set_board computes from the door image's size: squares
      15 and 20 pixels wider and taller than a door, and the board starting
      one square below the top of the window. */
  function BoardLayout(doorWidth: nat, doorHeight: nat, robotX: int, robotY: int): (l: Layout)
    ensures l.squareX == doorWidth + 15 && l.squareY == doorHeight + 20
    ensures l.left == 0 && l.top == l.squareY
    ensures l.robotX == robotX && l.robotY == robotY
  {
    var sx := doorWidth + 15;
    var sy := doorHeight + 20;
    Layout(sx, sy, 0, sy, robotX, robotY)
  }

  /** The draws randint(2, 12) and randint(2, 5) of the robot's cell. */
  predicate ValidRobotCell(x: int, y: int) {
    RobotBorderBuffer <= x <= GridSizeX - (RobotBorderBuffer + 1) &&
    RobotBorderBuffer <= y <= GridSizeY - (RobotBorderBuffer + 1)
  }

  /** Game.set_board, on its random draws. */
  method SetBoard(c: ObjectCounts, li: seq<int>, robotX: int, robotY: int, doorWidth: nat, doorHeight: nat)
    returns (res: BoardResult)
    requires ValidCounts(c) && IsPermutation(li, GridSize) && ValidRobotCell(robotX, robotY)
    ensures IsGrid(res.grid)
    ensures forall j :: 0 <= j < GridSize ==> res.grid[li[j] / GridSizeX][li[j] % GridSizeX] == ObjectList(c)[j]
    ensures var l := BoardLayout(doorWidth, doorHeight, robotX, robotY);
      && res.robot == Pixel(robotX, robotY, l)
      && res.monsters == Placed(res.grid, Monster, l, GridSizeY)
      && res.doors == Placed(res.grid, Door, l, GridSizeY)
      && res.coins == Placed(res.grid, Coin, l, GridSizeY)
  {
    var objdict := ZipDict(li, ObjectList(c));
    ObjectDictOfPermutation(li, c);
    var grid := FillGrid(objdict);
    forall j | 0 <= j < GridSize
      ensures grid[li[j] / GridSizeX][li[j] % GridSizeX] == ObjectList(c)[j]
    {
      var b, a := li[j] / GridSizeX, li[j] % GridSizeX;
      assert b * GridSizeX + a == li[j];
    }
    var l := BoardLayout(doorWidth, doorHeight, robotX, robotY);
    var monsters, doors, coins := PlaceObjects(grid, l);
    res := BoardResult(grid, Pixel(robotX, robotY, l), monsters, doors, coins);
  }

  /** Every coin of the object list lands where the permutation deals it,
      and a coin is created there unless that is the robot's cell; a coin
      position is created nowhere else. The same holds for doors and
      monsters. */
  lemma DealtObjectsArePlaced(res: BoardResult, c: ObjectCounts, li: seq<int>, l: Layout, kind: Kind, p: (int, int))
    requires ValidCounts(c) && IsPermutation(li, GridSize) && IsGrid(res.grid)
    requires forall j :: 0 <= j < GridSize ==> res.grid[li[j] / GridSizeX][li[j] % GridSizeX] == ObjectList(c)[j]
    ensures p in Placed(res.grid, kind, l, GridSizeY) <==>
      exists j :: 0 <= j < GridSize && ObjectList(c)[j] == kind &&
        !IsRobotCell(li[j] % GridSizeX, li[j] / GridSizeX, l) && p == Pixel(li[j] % GridSizeX, li[j] / GridSizeX, l)
  {
    PlacedIff(res.grid, kind, l, GridSizeY, p);
    if p in Placed(res.grid, kind, l, GridSizeY) {
      var r, x :| 0 <= r < GridSizeY && 0 <= x < |res.grid[r]| && res.grid[r][x] == kind && !IsRobotCell(x, r, l) && p == Pixel(x, r, l);
      var i := r * GridSizeX + x;
      assert 0 <= i < GridSize;
      assert i in li;
      var j :| 0 <= j < |li| && li[j] == i;
      assert li[j] / GridSizeX == r && li[j] % GridSizeX == x;
    }
    if exists j :: 0 <= j < GridSize && ObjectList(c)[j] == kind &&
        !IsRobotCell(li[j] % GridSizeX, li[j] / GridSizeX, l) && p == Pixel(li[j] % GridSizeX, li[j] / GridSizeX, l) {
      var j :| 0 <= j < GridSize && ObjectList(c)[j] == kind &&
        !IsRobotCell(li[j] % GridSizeX, li[j] / GridSizeX, l) && p == Pixel(li[j] % GridSizeX, li[j] / GridSizeX, l);
      var r, x := li[j] / GridSizeX, li[j] % GridSizeX;
      assert 0 <= r < GridSizeY && 0 <= x < |res.grid[r]| && res.grid[r][x] == kind;
    }
  }
}
