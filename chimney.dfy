/** The chimney: an ordered stack of bricks plus the collapse sequencing
    state (`falling` and the cursor `collapseIndex`).

    `ChimneyState` is the value of a chimney and `ChimneyUpdate`, `Started`
    and `Exploded` specify one frame, the start of the collapse and an
    explosion; the class `Chimney` updates its bricks in place and is proved
    against them. `Run` strings frames together, and the lemmas about it
    describe the staged collapse as a whole.
 */
module Chimneys {
  import opened Settings
  import opened Bricks

  datatype ChimneyState = ChimneyState(bricks: seq<BrickState>, falling: bool, collapseIndex: nat)

  /** `n` bricks stacked upwards from `(x, y)`, as the build loop pushes them. */
  function Stacked(x: real, y: real, n: nat): (r: seq<BrickState>)
    ensures |r| == n
    ensures forall i :: 0 <= i < n ==> r[i] == Fresh(x, y - i as real * BrickHeight, i)
  {
    if n == 0 then [] else Stacked(x, y, n - 1) + [Fresh(x, y - (n - 1) as real * BrickHeight, n - 1)]
  }

  // ---------------------------------------------------------------------
  // One frame
  // ---------------------------------------------------------------------

  /** The source reads `bricks[0]` on the first falling frame; a chimney
      always has bricks when that happens. */
  predicate CanUpdate(c: ChimneyState)
  {
    c.falling && c.collapseIndex == 0 ==> |c.bricks| > 0
  }

  /** The cursor once the tilt step has run: the first falling frame
      moves it from 0 to 1, past brick 0. */
  function Tilted(k: nat): nat
  {
    if k == 0 then 1 else k
  }

  /** The brick the cascade would peel next, once the tilt step has run. */
  function Cursor(c: ChimneyState): nat
  {
    Tilted(c.collapseIndex)
  }

  /** First falling frame: tilt brick 0 and move the cursor past it. */
  function Tilt(c: ChimneyState, cfg: Config): ChimneyState
    requires CanUpdate(c)
  {
    if c.falling && c.collapseIndex == 0 then
      c.(bricks := c.bricks[0 := c.bricks[0].(angle := cfg.initialTilt)], collapseIndex := 1)
    else c
  }

  /** The coin flip: `roll` is the frame's `Math.random()` draw. */
  function Peel(c: ChimneyState, roll: real): ChimneyState
  {
    var k := c.collapseIndex;
    if k < |c.bricks| && roll < CascadeChance then
      c.(bricks := c.bricks[k := c.bricks[k].(active := false)], collapseIndex := k + 1)
    else c
  }

  function StepAll(bs: seq<BrickState>, cfg: Config, canvas: Canvas): seq<BrickState>
  {
    seq(|bs|, i requires 0 <= i < |bs| => Step(bs[i], cfg, canvas))
  }

  /** One frame of `Chimney.update`. A standing chimney does not change.
      A falling one moves its cursor forwards, never past the last brick,
      detaches at most the one brick at the cursor (and only when the coin
      succeeds), never detaches brick 0, never re-attaches any brick, and
      leaves every free brick inside the canvas. */
  function ChimneyUpdate(c: ChimneyState, roll: real, cfg: Config, canvas: Canvas): (r: ChimneyState)
    requires CanUpdate(c)
    ensures |r.bricks| == |c.bricks| && r.falling == c.falling && CanUpdate(r)
    ensures !c.falling ==> r == c
    ensures c.falling ==> c.collapseIndex <= r.collapseIndex && 1 <= r.collapseIndex
    ensures c.falling && c.collapseIndex <= |c.bricks| ==> r.collapseIndex <= |c.bricks|
    ensures forall i :: 0 <= i < |c.bricks| && r.bricks[i].active ==> c.bricks[i].active
    ensures forall i :: 0 <= i < |c.bricks| && r.bricks[i].active ==> Frozen(c.bricks[i], r.bricks[i])
    ensures |c.bricks| > 0 ==> r.bricks[0].active == c.bricks[0].active
    ensures c.falling ==> r.collapseIndex == NextCursor(|c.bricks|, c.collapseIndex, roll)
    ensures c.falling && Cursor(c) < |c.bricks| && roll < CascadeChance ==> !r.bricks[Cursor(c)].active
    ensures forall i :: 0 <= i < |c.bricks| && c.bricks[i].active && !r.bricks[i].active ==>
      c.falling && i == Cursor(c) && r.collapseIndex == i + 1
    ensures c.falling ==> forall i :: 0 <= i < |c.bricks| && !r.bricks[i].active ==>
      r.bricks[i].y + r.bricks[i].height <= canvas.height
    ensures c.falling && Fits(canvas) && StandardWidths(c.bricks) ==> forall i :: 0 <= i < |c.bricks| && !r.bricks[i].active ==>
      0.0 <= r.bricks[i].x <= canvas.width - r.bricks[i].width
  {
    if !c.falling then c
    else
      var p := Peel(Tilt(c, cfg), roll);
      p.(bricks := StepAll(p.bricks, cfg, canvas))
  }

  /** Every brick has the standard size, as the build makes them. */
  predicate StandardWidths(bs: seq<BrickState>)
  {
    forall i :: 0 <= i < |bs| ==> bs[i].width == BrickWidth && bs[i].height == BrickHeight
  }

  /** The explode button's blast point, `(W/2, H - ChimneyHeight/2)`, is
      exactly the centre of brick 8 of the chimney the page builds at
      `(W/2 - ChimneyWidth/2, H - 50)`: its distance is 0, and with the
      slider defaults the explosion reaches it, so `Blasted` leaves its
      velocity unconstrained (the source divides by zero there). */
  lemma ExplodeButtonHitsBrickCentre(w: real, h: real)
    ensures var s := Stacked(w / 2.0 - ChimneyWidth / 2.0, h - 50.0, BrickCount)[8];
      && OffsetX(s, w / 2.0) == 0.0 && OffsetY(s, h - ChimneyHeight / 2.0) == 0.0
      && IsDistance(s, w / 2.0, h - ChimneyHeight / 2.0, 0.0)
      && Hit(s, 0.0, Defaults)
  {
  }

  /** The push `startFalling` gives brick 0 is not lost: once an explosion
      reaches brick 0 of the chimney the page builds (its centre is 160 from
      the explode button's blast point, so a radius above 160 does), the
      stored push is part of its blast velocity, and, with centred draws, the
      next frame moves it sideways by exactly that push. */
  lemma ExplosionReleasesStartPush(w: real, h: real, r: BrickState, cfg: Config)
    requires w > 63.0 && cfg.explosionRadius > 160.0
    requires var s := Started(ChimneyState(Stacked(w / 2.0 - ChimneyWidth / 2.0, h - 50.0, BrickCount), false, 0)).bricks[0];
      Blasted(s, r, w / 2.0, h - ChimneyHeight / 2.0, 160.0, Jitter(0.5, 0.5, 0.5), cfg)
    ensures var s := Started(ChimneyState(Stacked(w / 2.0 - ChimneyWidth / 2.0, h - 50.0, BrickCount), false, 0)).bricks[0];
      && IsDistance(s, w / 2.0, h - ChimneyHeight / 2.0, 160.0)
      && !r.active && r.vx == PushVelocity
      && Step(r, cfg, Canvas(w, h)).x == r.x + PushVelocity
  {
  }

  /** A brick in the structure is not integrated: it keeps its position and velocity. */
  predicate Frozen(before: BrickState, after: BrickState)
  {
    after.x == before.x && after.y == before.y && after.vx == before.vx && after.vy == before.vy
  }

  /** `startFalling`: the cursor goes back to 0 and brick 0 gets a push and
      a spin; no brick is detached and no other brick changes. */
  function Started(c: ChimneyState): (r: ChimneyState)
    ensures r.falling && r.collapseIndex == 0 && CanUpdate(r) == (|c.bricks| > 0)
    ensures |r.bricks| == |c.bricks|
    ensures forall i :: 0 <= i < |c.bricks| ==>
      r.bricks[i].active == c.bricks[i].active && r.bricks[i].x == c.bricks[i].x && r.bricks[i].y == c.bricks[i].y
    ensures forall i :: 1 <= i < |c.bricks| ==> r.bricks[i] == c.bricks[i]
    ensures |c.bricks| > 0 ==> r.bricks[0] == c.bricks[0].(vx := 1.5, angularVelocity := 0.05)
  {
    var bs := if |c.bricks| > 0
      then c.bricks[0 := c.bricks[0].(vx := PushVelocity, angularVelocity := PushSpin)]
      else c.bricks;
    ChimneyState(bs, true, 0)
  }

  /** `r` is a possible chimney after `applyExplosion(ex, ey)`: every brick
      is blasted with its own distance and random draws, and the chimney
      falls from then on, with the cursor where it was. */
  predicate Exploded(c: ChimneyState, r: ChimneyState, ex: real, ey: real,
                     ds: seq<real>, js: seq<Jitter>, cfg: Config)
    requires |ds| == |c.bricks| && |js| == |c.bricks|
  {
    && |r.bricks| == |c.bricks|
    && r.falling
    && r.collapseIndex == c.collapseIndex
    && forall i :: 0 <= i < |c.bricks| ==> IsDistance(c.bricks[i], ex, ey, ds[i]) && Blasted(c.bricks[i], r.bricks[i], ex, ey, ds[i], js[i], cfg)
  }

  /** An explosion detaches exactly the standing bricks strictly inside the
      radius, re-attaches none, and keeps the cursor within the stack. */
  lemma ExplosionDetachesWithinRadius(c: ChimneyState, r: ChimneyState, ex: real, ey: real,
                                      ds: seq<real>, js: seq<Jitter>, cfg: Config)
    requires |ds| == |c.bricks| && |js| == |c.bricks|
    requires Exploded(c, r, ex, ey, ds, js, cfg)
    ensures forall i :: 0 <= i < |c.bricks| ==>
      (r.bricks[i].active <==> c.bricks[i].active && ds[i] >= cfg.explosionRadius)
    ensures c.collapseIndex <= |c.bricks| ==> r.collapseIndex <= |r.bricks|
  {
  }

  // ---------------------------------------------------------------------
  // Many frames
  // ---------------------------------------------------------------------

  /** The chimney after one frame per element of `rolls`. */
  function Run(c: ChimneyState, rolls: seq<real>, cfg: Config, canvas: Canvas): (r: ChimneyState)
    requires CanUpdate(c)
    ensures |r.bricks| == |c.bricks| && r.falling == c.falling && CanUpdate(r)
    decreases |rolls|
  {
    if rolls == [] then c
    else Run(ChimneyUpdate(c, rolls[0], cfg, canvas), rolls[1..], cfg, canvas)
  }

  /** Frames whose coin succeeds. */
  function Hits(rolls: seq<real>): nat
  {
    if rolls == [] then 0
    else (if rolls[0] < CascadeChance then 1 else 0) + Hits(rolls[1..])
  }

  function Min(a: int, b: int): int
  {
    if a <= b then a else b
  }

  /** Over any number of frames the cursor never moves back and never
      passes the end of the stack. */
  lemma {:induction false} RunCursorBounded(c: ChimneyState, rolls: seq<real>, cfg: Config, canvas: Canvas)
    requires CanUpdate(c) && c.falling && c.collapseIndex <= |c.bricks|
    ensures c.collapseIndex <= Run(c, rolls, cfg, canvas).collapseIndex <= |c.bricks|
    decreases |rolls|
  {
    if rolls != [] {
      RunCursorBounded(ChimneyUpdate(c, rolls[0], cfg, canvas), rolls[1..], cfg, canvas);
    }
  }

  /** Over any number of frames no brick is re-attached, a brick still in
      the structure has not moved, and brick 0 keeps its flag: the cascade
      never detaches it. */
  lemma {:induction false} RunNeverReattaches(c: ChimneyState, rolls: seq<real>, cfg: Config, canvas: Canvas)
    requires CanUpdate(c)
    ensures var r := Run(c, rolls, cfg, canvas);
      && (forall i :: 0 <= i < |c.bricks| && r.bricks[i].active ==> c.bricks[i].active)
      && (forall i :: 0 <= i < |c.bricks| && r.bricks[i].active ==> Frozen(c.bricks[i], r.bricks[i]))
      && (|c.bricks| > 0 ==> r.bricks[0].active == c.bricks[0].active)
    decreases |rolls|
  {
    if rolls != [] {
      RunNeverReattaches(ChimneyUpdate(c, rolls[0], cfg, canvas), rolls[1..], cfg, canvas);
    }
  }

  /** The cursor after one falling frame over a stack of `n` bricks. */
  function NextCursor(n: nat, k: nat, roll: real): nat
  {
    var k1 := Tilted(k);
    if k1 < n && roll < CascadeChance then k1 + 1 else k1
  }

  /** The cursor after one falling frame per element of `rolls`. */
  function CursorAfter(n: nat, k: nat, rolls: seq<real>): nat
    decreases |rolls|
  {
    if rolls == [] then k else CursorAfter(n, NextCursor(n, k, rolls[0]), rolls[1..])
  }

  /** The cursor of a falling chimney moves by the cursor rule alone. */
  lemma {:induction false} RunCursorFollowsRule(c: ChimneyState, rolls: seq<real>, cfg: Config, canvas: Canvas)
    requires CanUpdate(c) && c.falling
    ensures Run(c, rolls, cfg, canvas).collapseIndex == CursorAfter(|c.bricks|, c.collapseIndex, rolls)
    decreases |rolls|
  {
    if rolls != [] {
      RunCursorFollowsRule(ChimneyUpdate(c, rolls[0], cfg, canvas), rolls[1..], cfg, canvas);
    }
  }

  /** From cursor `k`, the cursor counts the successful coin flips,
      starting from brick 1 and stopping at the end of the stack. */
  lemma {:induction false} CursorCountsHits(n: nat, k: nat, rolls: seq<real>)
    requires 1 <= n && k <= n && rolls != []
    ensures CursorAfter(n, k, rolls) == Min(n, Tilted(k) + Hits(rolls))
    decreases |rolls|
  {
    var k' := NextCursor(n, k, rolls[0]);
    var rest := rolls[1..];
    assert Hits(rolls) == (if rolls[0] < CascadeChance then 1 else 0) + Hits(rest);
    if rest != [] {
      CursorCountsHits(n, k', rest);
    } else {
      assert Hits(rest) == 0;
    }
  }

  /** The shape of a chimney collapsing by the cascade alone: brick 0 still
      stands, bricks from 1 up to the cursor are detached, the rest stand. */
  predicate Staged(c: ChimneyState)
  {
    && |c.bricks| > 0
    && c.bricks[0].active
    && forall i :: 1 <= i < |c.bricks| ==> (c.bricks[i].active <==> i >= Cursor(c))
  }

  lemma {:induction false} RunKeepsStaged(c: ChimneyState, rolls: seq<real>, cfg: Config, canvas: Canvas)
    requires c.falling && Staged(c) && c.collapseIndex <= |c.bricks|
    ensures Staged(Run(c, rolls, cfg, canvas))
    decreases |rolls|
  {
    if rolls != [] {
      var c' := ChimneyUpdate(c, rolls[0], cfg, canvas);
      assert Staged(c') by {
        forall i | 1 <= i < |c.bricks|
          ensures c'.bricks[i].active <==> i >= Cursor(c')
        {
          if Cursor(c) < |c.bricks| && rolls[0] < CascadeChance {
            assert c'.bricks[i].active == (c.bricks[i].active && i != Cursor(c));
          } else {
            assert c'.bricks[i].active == c.bricks[i].active;
          }
        }
      }
      RunKeepsStaged(c', rolls[1..], cfg, canvas);
    }
  }

  /** Reset, start, and then frames with at least one successful coin per
      brick above the base: every brick but brick 0 has come down, and
      brick 0 still stands in the structure. */
  lemma CollapseLeavesBase(x: real, y: real, cursor: nat, rolls: seq<real>, cfg: Config, canvas: Canvas)
    requires rolls != [] && Hits(rolls) >= BrickCount - 1
    ensures var r := Run(Started(ChimneyState(Stacked(x, y, BrickCount), false, cursor)), rolls, cfg, canvas);
      && |r.bricks| == BrickCount
      && r.bricks[0].active
      && forall i :: 1 <= i < BrickCount ==> !r.bricks[i].active
  {
    var c := Started(ChimneyState(Stacked(x, y, BrickCount), false, cursor));
    assert Staged(c);
    RunKeepsStaged(c, rolls, cfg, canvas);
    RunCursorFollowsRule(c, rolls, cfg, canvas);
    CursorCountsHits(BrickCount, 0, rolls);
  }

  // ---------------------------------------------------------------------
  // The object
  // ---------------------------------------------------------------------

  /** No brick object occurs twice in the stack. */
  predicate Distinct(bs: seq<Brick>)
  {
    forall i, j :: 0 <= i < j < |bs| ==> bs[i] != bs[j]
  }

  function States(bs: seq<Brick>): seq<BrickState>
    reads bs
  {
    seq(|bs|, i reads bs requires 0 <= i < |bs| => bs[i].State())
  }

  class Chimney {
    const x: real
    const y: real
    var bricks: seq<Brick>
    var falling: bool
    var collapseIndex: nat

    ghost predicate Valid()
      reads this, bricks
    {
      && |bricks| == BrickCount
      && Distinct(bricks)
      && collapseIndex <= |bricks|
      && forall i :: 0 <= i < |bricks| ==> bricks[i].width == BrickWidth && bricks[i].height == BrickHeight
    }

    function Snapshot(): ChimneyState
      reads this, bricks
    {
      ChimneyState(States(bricks), falling, collapseIndex)
    }

    constructor (x0: real, y0: real)
      ensures Valid() && x == x0 && y == y0
      ensures Snapshot() == ChimneyState(Stacked(x0, y0, BrickCount), false, 0)
      ensures forall i :: 0 <= i < |bricks| ==> fresh(bricks[i])
    {
      x, y := x0, y0;
      bricks := [];
      falling := false;
      collapseIndex := 0;
      new;
      Build();
      assert States(bricks) == Stacked(x0, y0, BrickCount);
      assert forall i :: 0 <= i < |bricks| ==> bricks[i].State() == States(bricks)[i];
    }

    /** Pushes `BrickCount` new bricks onto the stack, brick `i` at
        `(x, y - i * BrickHeight)`. */
    method Build()
      modifies this
      ensures falling == old(falling) && collapseIndex == old(collapseIndex)
      ensures |bricks| == |old(bricks)| + BrickCount && bricks[..|old(bricks)|] == old(bricks)
      ensures forall i :: |old(bricks)| <= i < |bricks| ==> fresh(bricks[i])
      ensures States(bricks[|old(bricks)|..]) == Stacked(x, y, BrickCount)
      ensures Distinct(old(bricks)) ==> Distinct(bricks)
    {
      ghost var start := |bricks|;
      var i := 0;
      while i < BrickCount
        invariant 0 <= i <= BrickCount
        invariant falling == old(falling) && collapseIndex == old(collapseIndex)
        invariant |bricks| == start + i && bricks[..start] == old(bricks)
        invariant forall k :: start <= k < |bricks| ==> fresh(bricks[k])
        invariant forall k :: start <= k < |bricks| ==>
          bricks[k].State() == Fresh(x, y - (k - start) as real * BrickHeight, k - start)
        invariant Distinct(old(bricks)) ==> Distinct(bricks)
      {
        var brick := new Brick(x, y - i as real * BrickHeight, i);
        assert brick !in bricks;
        bricks := bricks + [brick];
        i := i + 1;
      }
      assert States(bricks[start..]) == Stacked(x, y, BrickCount);
    }

    /** The reset command: a new stack of bricks, standing. The cursor is
        left where it was; `StartFalling` is what zeroes it. */
    method Reset()
      requires Valid()
      modifies this
      ensures Valid()
      ensures Snapshot() == ChimneyState(Stacked(x, y, BrickCount), false, old(collapseIndex))
      ensures forall i :: 0 <= i < |bricks| ==> fresh(bricks[i])
    {
      bricks := [];
      Build();
      falling := false;
      assert States(bricks) == Stacked(x, y, BrickCount);
      assert forall i :: 0 <= i < |bricks| ==> bricks[i].State() == States(bricks)[i];
    }

    method StartFalling()
      requires Valid()
      modifies this, bricks
      ensures Valid() && bricks == old(bricks)
      ensures Snapshot() == Started(old(Snapshot()))
    {
      falling := true;
      collapseIndex := 0;
      if |bricks| > 0 {
        bricks[0].vx := PushVelocity;
        bricks[0].angularVelocity := PushSpin;
      }
      assert States(bricks) == Started(old(Snapshot())).bricks;
    }

    method Update(roll: real, cfg: Config, canvas: Canvas)
      requires Valid()
      modifies this, bricks
      ensures Valid() && bricks == old(bricks)
      ensures Snapshot() == ChimneyUpdate(old(Snapshot()), roll, cfg, canvas)
    {
      if falling {
        TiltTop(cfg);
        PeelNext(roll);
        StepBricks(cfg, canvas);
      }
    }

    /** First falling frame: brick 0 gets the initial tilt and the cursor moves to 1. */
    method TiltTop(cfg: Config)
      requires Valid() && falling
      modifies this, bricks
      ensures Valid() && bricks == old(bricks) && falling
      ensures Snapshot() == Tilt(old(Snapshot()), cfg)
    {
      if collapseIndex == 0 {
        ghost var before := States(bricks);
        bricks[0].angle := cfg.initialTilt;
        collapseIndex := collapseIndex + 1;
        assert forall k :: 0 < k < |bricks| ==> bricks[k].State() == before[k];
        assert States(bricks) == before[0 := before[0].(angle := cfg.initialTilt)];
      }
    }

    /** The coin flip: when `roll` succeeds the brick at the cursor leaves the structure. */
    method PeelNext(roll: real)
      requires Valid() && falling
      modifies this, bricks
      ensures Valid() && bricks == old(bricks) && falling
      ensures Snapshot() == Peel(old(Snapshot()), roll)
    {
      if collapseIndex < |bricks| && roll < CascadeChance {
        ghost var before := States(bricks);
        ghost var k := collapseIndex;
        bricks[collapseIndex].active := false;
        collapseIndex := collapseIndex + 1;
        assert forall j :: 0 <= j < |bricks| && j != k ==> bricks[j].State() == before[j];
        assert States(bricks) == before[k := before[k].(active := false)];
      }
    }

    /** The `forEach` over the stack that steps every brick once. */
    method StepBricks(cfg: Config, canvas: Canvas)
      requires Valid()
      modifies bricks
      ensures Valid()
      ensures States(bricks) == StepAll(old(States(bricks)), cfg, canvas)
    {
      ghost var before := States(bricks);
      var i := 0;
      while i < |bricks|
        invariant 0 <= i <= |bricks|
        invariant forall k :: 0 <= k < i ==> bricks[k].State() == Step(before[k], cfg, canvas)
        invariant forall k :: i <= k < |bricks| ==> bricks[k].State() == before[k]
      {
        bricks[i].Update(cfg, canvas);
        i := i + 1;
      }
      assert States(bricks) == StepAll(before, cfg, canvas);
    }

    /** `distances[i]` is the square root the source takes for brick `i`,
        `jitters[i]` its three random draws. */
    method ApplyExplosion(ex: real, ey: real, distances: seq<real>, jitters: seq<Jitter>, cfg: Config)
      requires Valid()
      requires |distances| == |bricks| && |jitters| == |bricks|
      requires forall i :: 0 <= i < |bricks| ==> IsDistance(bricks[i].State(), ex, ey, distances[i])
      modifies this, bricks
      ensures Valid() && bricks == old(bricks)
      ensures Exploded(old(Snapshot()), Snapshot(), ex, ey, distances, jitters, cfg)
    {
      ghost var before := States(bricks);
      var i := 0;
      while i < |bricks|
        invariant 0 <= i <= |bricks|
        invariant bricks == old(bricks) && falling == old(falling) && collapseIndex == old(collapseIndex)
        invariant forall k :: 0 <= k < i ==>
          Blasted(before[k], bricks[k].State(), ex, ey, distances[k], jitters[k], cfg)
        invariant forall k :: i <= k < |bricks| ==> bricks[k].State() == before[k]
      {
        bricks[i].ApplyExplosionForce(ex, ey, distances[i], jitters[i], cfg);
        i := i + 1;
      }
      falling := true;
    }
  }
}
