/**
 * Fire markers on the globe: the module-level collections of fire and smoke particle systems,
 * the scene they are added to and removed from, the visibility rule applied after each frame,
 * and the throttled camera-bounds reader.
 */
module CesiumFire {
  import opened Common
  import opened Sequences

  /** The identity of one particle system object. */
  type Handle = int

  /** Where a particle system is placed: degrees of longitude and latitude, metres of altitude. */
  datatype Position = Position(lon: real, lat: real, alt: real)

  /** One entry of the seed list: longitude, latitude and ground altitude of a fire. */
  datatype Seed = Seed(lon: real, lat: real, alt: real)

  /** Particle systems are raised this many metres above the given altitude. */
  const FlameOffset: real := 50.0
  /** Above this camera height (metres) the particle systems are hidden. */
  const MaxCameraHeight: real := 10000.0
  /** Beyond this camera distance (metres) a particle system is hidden. */
  const MaxDistance: real := 10000.0
  /** The camera tracker samples at most once per this many milliseconds. */
  const ThrottleMs: int := 5000

  /** The three fires placed when the viewer starts. */
  const FireData: seq<Seed> := [
    Seed(-71.967, -13.517, 3390.0),
    Seed(-71.965, -13.516, 3441.0),
    Seed(-71.969, -13.518, 3389.0)
  ]

  /** The placement shared by the fire and the smoke of one seed. */
  function SeedPosition(s: Seed): Position {
    Position(s.lon, s.lat, s.alt + FlameOffset)
  }

  /** The camera's height above the terrain, taking an unknown terrain height as 0. */
  function HeightAboveGround(cartoHeight: real, terrainHeight: Option<real>): (r: real)
    ensures terrainHeight.None? ==> r == cartoHeight
    ensures terrainHeight.Some? ==> r == cartoHeight - terrainHeight.value
  {
    cartoHeight - terrainHeight.GetOr(0.0)
  }

  /** A particle system is shown when it is near enough and the camera low enough. */
  predicate Visible(distance: real, height: real)
    ensures Visible(distance, height) <==> distance <= MaxDistance && height <= MaxCameraHeight
  {
    !(distance > MaxDistance || height > MaxCameraHeight)
  }

  /**
   * The `show` flags after one visibility pass over `hs`, in order: each handle of `hs` gets the
   * rule's verdict for its own distance; every other flag is kept.
   */
  function ShowFlags(show: map<Handle, bool>, hs: seq<Handle>, position: map<Handle, Position>,
                     distance: Position -> real, height: real): (r: map<Handle, bool>)
    requires forall i :: 0 <= i < |hs| ==> hs[i] in position
    ensures forall h :: h in r <==> h in show || h in hs
    ensures forall h :: h in hs ==> r[h] == Visible(distance(position[h]), height)
    ensures forall h :: h in show && h !in hs ==> r[h] == show[h]
  {
    if hs == [] then show
    else
      var h := hs[|hs| - 1];
      assert hs == hs[..|hs| - 1] + [h];
      ShowFlags(show, hs[..|hs| - 1], position, distance, height)[h := Visible(distance(position[h]), height)]
  }

  /** The pass over one more handle of `hs` sets that handle's flag on top of the shorter pass. */
  lemma ShowFlagsSnoc(show: map<Handle, bool>, hs: seq<Handle>, i: nat, position: map<Handle, Position>,
                      distance: Position -> real, height: real)
    requires i < |hs|
    requires forall i :: 0 <= i < |hs| ==> hs[i] in position
    ensures ShowFlags(show, hs[..i + 1], position, distance, height)
            == ShowFlags(show, hs[..i], position, distance, height)[hs[i] := Visible(distance(position[hs[i]]), height)]
  {
    assert hs[..i + 1][..i] == hs[..i];
  }

  /**
   * One `for` loop of the visibility pass: walks `hs` in order and sets each handle's flag by
   * its own distance and the given camera height.
   */
  method SetShowFlags(show: map<Handle, bool>, hs: seq<Handle>, position: map<Handle, Position>,
                      distance: Position -> real, height: real) returns (flags: map<Handle, bool>)
    requires forall i :: 0 <= i < |hs| ==> hs[i] in position
    ensures flags == ShowFlags(show, hs, position, distance, height)
  {
    flags := show;
    for i := 0 to |hs|
      invariant flags == ShowFlags(show, hs[..i], position, distance, height)
    {
      var h := hs[i];
      ShowFlagsSnoc(show, hs, i, position, distance, height);
      flags := flags[h := Visible(distance(position[h]), height)];
    }
    assert hs[..|hs|] == hs;
  }

  /** The whole pass: fire handles by the above-ground height, then smoke handles by the ellipsoid height. */
  function AdjustedFlags(show: map<Handle, bool>, fires: seq<Handle>, smokes: seq<Handle>,
                         position: map<Handle, Position>, distance: Position -> real,
                         heightAboveGround: real, ellipsoidHeight: real): map<Handle, bool>
    requires forall i :: 0 <= i < |fires| ==> fires[i] in position
    requires forall i :: 0 <= i < |smokes| ==> smokes[i] in position
  {
    ShowFlags(ShowFlags(show, fires, position, distance, heightAboveGround), smokes, position, distance, ellipsoidHeight)
  }

  /** Running the visibility pass a second time with the same camera changes no flag. */
  lemma AdjustIdempotent(show: map<Handle, bool>, fires: seq<Handle>, smokes: seq<Handle>,
                         position: map<Handle, Position>, distance: Position -> real,
                         heightAboveGround: real, ellipsoidHeight: real)
    requires forall i :: 0 <= i < |fires| ==> fires[i] in position
    requires forall i :: 0 <= i < |smokes| ==> smokes[i] in position
    ensures var once := AdjustedFlags(show, fires, smokes, position, distance, heightAboveGround, ellipsoidHeight);
      AdjustedFlags(once, fires, smokes, position, distance, heightAboveGround, ellipsoidHeight) == once
  {
    var once := AdjustedFlags(show, fires, smokes, position, distance, heightAboveGround, ellipsoidHeight);
    var twice := AdjustedFlags(once, fires, smokes, position, distance, heightAboveGround, ellipsoidHeight);
    assert forall h :: h in twice <==> h in once;
    assert forall h :: h in twice ==> twice[h] == once[h];
  }

  /**
   * The bookkeeping invariant: the two collections grow in lockstep, the fire and the smoke at
   * one index share a placement, no handle is held twice, every handle was created (is below
   * `next`) and has a placement and a flag, and a handle is in the scene at most once.
   */
  ghost predicate Consistent(fires: seq<Handle>, smokes: seq<Handle>, scene: multiset<Handle>,
                             position: map<Handle, Position>, show: map<Handle, bool>, next: int)
  {
    && |fires| == |smokes|
    && NoDup(fires) && NoDup(smokes)
    && (forall h :: h in fires ==> h !in smokes)
    && (forall i :: 0 <= i < |fires| ==>
          && fires[i] in position && smokes[i] in position
          && position[fires[i]] == position[smokes[i]])
    && (forall h :: h in position ==> h < next && h in show)
    && (forall h :: h in show ==> h in position)
    && (forall h :: h in scene ==> h < next && scene[h] == 1)
  }

  /** Placing one fire with the two next handles keeps the invariant. */
  lemma PlacingKeepsConsistent(fires: seq<Handle>, smokes: seq<Handle>, scene: multiset<Handle>,
                               position: map<Handle, Position>, show: map<Handle, bool>, next: int,
                               p: Position)
    requires Consistent(fires, smokes, scene, position, show, next)
    ensures next !in position && next + 1 !in position && next !in scene && next + 1 !in scene
    ensures Consistent(fires + [next], smokes + [next + 1], scene + multiset{next, next + 1},
                       position[next := p][next + 1 := p], show[next := true][next + 1 := true], next + 2)
  {
    var fires', smokes' := fires + [next], smokes + [next + 1];
    assert forall i :: 0 <= i < |fires| ==> fires[i] in position && fires[i] < next;
    assert forall i :: 0 <= i < |smokes| ==> smokes[i] in position && smokes[i] < next;
    assert forall h :: h in fires' ==> h in fires || h == next;
    assert forall h :: h in smokes' ==> h in smokes || h == next + 1;
  }

  /** Removing every held handle from the scene keeps the invariant and leaves none of them there. */
  lemma TeardownKeepsConsistent(fires: seq<Handle>, smokes: seq<Handle>, scene: multiset<Handle>,
                                position: map<Handle, Position>, show: map<Handle, bool>, next: int)
    requires Consistent(fires, smokes, scene, position, show, next)
    ensures Consistent([], [], scene - multiset(fires) - multiset(smokes), position, show, next)
    ensures forall h :: h in fires || h in smokes ==> h !in scene - multiset(fires) - multiset(smokes)
  {
    forall h | h in fires || h in smokes ensures h !in scene - multiset(fires) - multiset(smokes) {
      assert h in multiset(fires) || h in multiset(smokes);
    }
  }

  /**
   * On held handles the full pass gives each fire the fire rule and each smoke the smoke rule;
   * the set of flagged handles does not change.
   */
  lemma AdjustedFlagsAt(show: map<Handle, bool>, fires: seq<Handle>, smokes: seq<Handle>,
                        position: map<Handle, Position>, next: int, scene: multiset<Handle>,
                        distance: Position -> real, heightAboveGround: real, ellipsoidHeight: real)
    requires Consistent(fires, smokes, scene, position, show, next)
    ensures forall i :: 0 <= i < |fires| ==> fires[i] in position
    ensures forall i :: 0 <= i < |smokes| ==> smokes[i] in position
    ensures var r := AdjustedFlags(show, fires, smokes, position, distance, heightAboveGround, ellipsoidHeight);
      && (forall h :: h in r <==> h in show)
      && (forall i :: 0 <= i < |fires| ==> r[fires[i]] == Visible(distance(position[fires[i]]), heightAboveGround))
      && (forall i :: 0 <= i < |smokes| ==> r[smokes[i]] == Visible(distance(position[smokes[i]]), ellipsoidHeight))
  {
    var r1 := ShowFlags(show, fires, position, distance, heightAboveGround);
    var r := ShowFlags(r1, smokes, position, distance, ellipsoidHeight);
    forall i | 0 <= i < |fires|
      ensures r[fires[i]] == Visible(distance(position[fires[i]]), heightAboveGround)
    {
      var h := fires[i];
      assert h in fires && h !in smokes;
      assert r1[h] == Visible(distance(position[h]), heightAboveGround);
    }
    forall i | 0 <= i < |smokes|
      ensures r[smokes[i]] == Visible(distance(position[smokes[i]]), ellipsoidHeight)
    {
      assert smokes[i] in smokes;
    }
    forall h ensures h in r <==> h in show {
      if h in fires || h in smokes {
        var i := if h in fires then IndexOf(fires, h) else IndexOf(smokes, h);
        assert h in position;
      }
    }
  }

  /**
   * `scene` after passing each handle of `hs` to `PrimitiveCollection.remove`, from the last
   * index down to 0; each call takes one copy of that handle out.
   */
  ghost function RemovedFromLast(scene: multiset<Handle>, hs: seq<Handle>): multiset<Handle>
    decreases |hs|
  {
    if hs == [] then scene else RemovedFromLast(scene - multiset{hs[|hs| - 1]}, hs[..|hs| - 1])
  }

  /** Removing from the last index down takes one copy of every handle of `hs` out of the scene. */
  lemma {:induction false} RemovedFromLastIsDifference(scene: multiset<Handle>, hs: seq<Handle>)
    ensures RemovedFromLast(scene, hs) == scene - multiset(hs)
    decreases |hs|
  {
    if hs != [] {
      var k := |hs| - 1;
      RemovedFromLastIsDifference(scene - multiset{hs[k]}, hs[..k]);
      assert hs == hs[..k] + [hs[k]];
    }
  }

  /**
   * One `while` loop of the teardown: removes the handles of `hs` from the scene one at a time,
   * from the last index down to 0. `order` lists the handles in the order they were removed.
   */
  method RemoveFromLast(scene: multiset<Handle>, hs: seq<Handle>)
    returns (rest: multiset<Handle>, ghost order: seq<Handle>)
    ensures rest == RemovedFromLast(scene, hs)
    ensures order == Reversed(hs)
  {
    rest, order := scene, [];
    var k := |hs| - 1;
    assert hs[..k + 1] == hs;
    while k >= 0
      invariant -1 <= k < |hs|
      invariant RemovedFromLast(rest, hs[..k + 1]) == RemovedFromLast(scene, hs)
      invariant order == Reversed(hs[k + 1..])
    {
      assert hs[..k + 1][..k] == hs[..k];
      assert hs[k..] == [hs[k]] + hs[k + 1..];
      rest := rest - multiset{hs[k]};
      order := order + [hs[k]];
      k := k - 1;
    }
    assert hs[0..] == hs;
  }

  /**
   * `scene` and `removed` are `scene0` and `removed0` after removing every fire and then every
   * smoke, each collection from its last element: each held handle is removed exactly once and
   * none of them stays in the scene.
   */
  ghost predicate TornDown(fires: seq<Handle>, smokes: seq<Handle>, scene0: multiset<Handle>, removed0: seq<Handle>,
                           scene: multiset<Handle>, removed: seq<Handle>)
  {
    && scene == RemovedFromLast(RemovedFromLast(scene0, fires), smokes)
    && removed == removed0 + Reversed(fires) + Reversed(smokes)
    && (forall h :: h in fires || h in smokes ==> h !in scene)
  }

  /** Removes every fire and then every smoke from the scene, each collection from its last element. */
  method Teardown(fires: seq<Handle>, smokes: seq<Handle>, scene: multiset<Handle>, ghost removed0: seq<Handle>,
                  position: map<Handle, Position>, show: map<Handle, bool>, next: int)
    returns (rest: multiset<Handle>, ghost removed: seq<Handle>)
    requires Consistent(fires, smokes, scene, position, show, next)
    ensures TornDown(fires, smokes, scene, removed0, rest, removed)
    ensures Consistent([], [], rest, position, show, next)
  {
    TeardownKeepsConsistent(fires, smokes, scene, position, show, next);
    RemovedFromLastIsDifference(scene, fires);
    RemovedFromLastIsDifference(scene - multiset(fires), smokes);
    ghost var log1, log2;
    rest, log1 := RemoveFromLast(scene, fires);
    rest, log2 := RemoveFromLast(rest, smokes);
    removed := removed0 + log1 + log2;
  }

  /**
   * `particleFire` on the values of `globalParams`: the fire takes handle `next` and the smoke
   * `next + 1`, both placed at `p`, shown and added to the scene.
   */
  method Place(fires: seq<Handle>, smokes: seq<Handle>, scene: multiset<Handle>,
               position: map<Handle, Position>, show: map<Handle, bool>, next: int, p: Position)
    returns (fires': seq<Handle>, smokes': seq<Handle>, scene': multiset<Handle>,
             position': map<Handle, Position>, show': map<Handle, bool>, next': int)
    requires Consistent(fires, smokes, scene, position, show, next)
    ensures Consistent(fires', smokes', scene', position', show', next')
    ensures next !in position && next + 1 !in position && next !in scene && next + 1 !in scene
    ensures fires' == fires + [next] && smokes' == smokes + [next + 1]
    ensures scene' == scene + multiset{next, next + 1}
    ensures position' == position[next := p][next + 1 := p] && show' == show[next := true][next + 1 := true]
    ensures next' == next + 2
  {
    PlacingKeepsConsistent(fires, smokes, scene, position, show, next, p);
    var fire := next;
    fires' := fires + [fire];
    scene' := scene + multiset{fire};
    var smoke := next + 1;
    smokes' := smokes + [smoke];
    scene' := scene' + multiset{smoke};
    position' := position[fire := p][smoke := p];
    show' := show[fire := true][smoke := true];
    next' := next + 2;
  }

  /** The `k`-th handle of `added` is placed at the `k`-th seed. */
  ghost predicate AtSeeds(added: seq<Handle>, position: map<Handle, Position>)
  {
    && |added| <= |FireData|
    && forall k :: 0 <= k < |added| ==> added[k] in position && position[added[k]] == SeedPosition(FireData[k])
  }

  /** The placements of the `2 * n` handles from `next0` on: the fire and the smoke of seed `k` at that seed. */
  function SeedPlacements(next0: int, n: nat): map<Handle, Position>
    requires n <= |FireData|
  {
    if n == 0 then map[]
    else
      var p := SeedPosition(FireData[n - 1]);
      SeedPlacements(next0, n - 1)[next0 + 2 * (n - 1) := p][next0 + 2 * (n - 1) + 1 := p]
  }

  /** The `show` flags of the `count` handles from `next0` on, all raised. */
  function ShownFrom(next0: int, count: nat): map<Handle, bool> {
    if count == 0 then map[] else ShownFrom(next0, count - 1)[next0 + count - 1 := true]
  }

  /** The handles `SeedPlacements` places are those from `next0` below `next0 + 2 * n`. */
  lemma {:induction false} SeedPlacementsKeys(next0: int, n: nat, h: Handle)
    requires n <= |FireData|
    ensures h in SeedPlacements(next0, n) <==> next0 <= h < next0 + 2 * n
  {
    if n > 0 {
      SeedPlacementsKeys(next0, n - 1, h);
    }
  }

  /** The fire and the smoke of seed `k` both sit at that seed. */
  lemma {:induction false} SeedPlacementsAt(next0: int, n: nat, k: nat)
    requires k < n <= |FireData|
    ensures next0 + 2 * k in SeedPlacements(next0, n) && next0 + 2 * k + 1 in SeedPlacements(next0, n)
    ensures SeedPlacements(next0, n)[next0 + 2 * k] == SeedPosition(FireData[k])
    ensures SeedPlacements(next0, n)[next0 + 2 * k + 1] == SeedPosition(FireData[k])
  {
    if k < n - 1 {
      SeedPlacementsAt(next0, n - 1, k);
    }
  }

  /** `ShownFrom` flags exactly the handles from `next0` below `next0 + count`, each as shown. */
  lemma {:induction false} ShownFromAt(next0: int, count: nat, h: Handle)
    ensures h in ShownFrom(next0, count) <==> next0 <= h < next0 + count
    ensures h in ShownFrom(next0, count) ==> ShownFrom(next0, count)[h]
  {
    if count > 0 {
      ShownFromAt(next0, count - 1, h);
    }
  }

  /** The union with the empty map is the map itself. */
  lemma UnionEmpty<V>(m: map<Handle, V>)
    ensures m + map[] == m
  {
    assert forall h :: h in m + map[] <==> h in m;
  }

  /** Updating a union at a key is updating its right operand there. */
  lemma UnionUpdate<V>(m1: map<Handle, V>, m2: map<Handle, V>, k: Handle, v: V)
    ensures (m1 + m2)[k := v] == m1 + m2[k := v]
  {
    var lhs, rhs := (m1 + m2)[k := v], m1 + m2[k := v];
    assert forall h :: h in lhs <==> h in rhs;
    assert forall h :: h in lhs ==> lhs[h] == rhs[h];
  }

  /** The `k`-th new fire has handle `next0 + 2 * k` and its smoke the handle after it. */
  ghost predicate Numbered(newFires: seq<Handle>, newSmokes: seq<Handle>, next0: int)
  {
    && |newFires| == |newSmokes|
    && forall k :: 0 <= k < |newFires| ==> newFires[k] == next0 + 2 * k && newSmokes[k] == next0 + 2 * k + 1
  }

  /** Numbering the next fire and smoke after `n` numbered ones keeps the numbering. */
  lemma NumberedStep(newFires: seq<Handle>, newSmokes: seq<Handle>, next0: int)
    requires Numbered(newFires, newSmokes, next0)
    ensures var next := next0 + 2 * |newFires|;
      Numbered(newFires + [next], newSmokes + [next + 1], next0)
  {
  }

  /** Placing seed `n` at the two next handles extends the placements and the flags by those two handles. */
  lemma PlacementsStep(position0: map<Handle, Position>, show0: map<Handle, bool>, next0: int, n: nat)
    requires n < |FireData|
    ensures var next, p := next0 + 2 * n, SeedPosition(FireData[n]);
      && (position0 + SeedPlacements(next0, n))[next := p][next + 1 := p] == position0 + SeedPlacements(next0, n + 1)
      && (show0 + ShownFrom(next0, 2 * n))[next := true][next + 1 := true] == show0 + ShownFrom(next0, 2 * n + 2)
  {
    var next, p := next0 + 2 * n, SeedPosition(FireData[n]);
    UnionUpdate(position0, SeedPlacements(next0, n), next, p);
    UnionUpdate(position0, SeedPlacements(next0, n)[next := p], next + 1, p);
    UnionUpdate(show0, ShownFrom(next0, 2 * n), next, true);
    UnionUpdate(show0, ShownFrom(next0, 2 * n)[next := true], next + 1, true);
  }

  /**
   * The state after the first `i` seeds are placed: the collections are extended by the `i`
   * numbered handles, which are added to the scene, placed at their seeds and shown.
   */
  ghost predicate SeedsPlacedUpTo(fires0: seq<Handle>, smokes0: seq<Handle>, scene0: multiset<Handle>,
                                  position0: map<Handle, Position>, show0: map<Handle, bool>, next0: int,
                                  newFires: seq<Handle>, newSmokes: seq<Handle>,
                                  fires: seq<Handle>, smokes: seq<Handle>, scene: multiset<Handle>,
                                  position: map<Handle, Position>, show: map<Handle, bool>, next: int, i: nat)
  {
    && i <= |FireData| && |newFires| == i
    && fires == fires0 + newFires && smokes == smokes0 + newSmokes
    && Numbered(newFires, newSmokes, next0)
    && scene == scene0 + multiset(newFires) + multiset(newSmokes)
    && position == position0 + SeedPlacements(next0, i)
    && show == show0 + ShownFrom(next0, 2 * i)
    && next == next0 + 2 * i
  }

  /** Placing seed `i` at the two next handles takes the placement of the first `i` seeds to the first `i + 1`. */
  lemma SeedsPlacedStep(fires0: seq<Handle>, smokes0: seq<Handle>, scene0: multiset<Handle>,
                        position0: map<Handle, Position>, show0: map<Handle, bool>, next0: int,
                        newFires: seq<Handle>, newSmokes: seq<Handle>,
                        fires: seq<Handle>, smokes: seq<Handle>, scene: multiset<Handle>,
                        position: map<Handle, Position>, show: map<Handle, bool>, next: int, i: nat)
    requires i < |FireData|
    requires SeedsPlacedUpTo(fires0, smokes0, scene0, position0, show0, next0, newFires, newSmokes,
                             fires, smokes, scene, position, show, next, i)
    ensures var p := SeedPosition(FireData[i]);
      SeedsPlacedUpTo(fires0, smokes0, scene0, position0, show0, next0, newFires + [next], newSmokes + [next + 1],
                      fires + [next], smokes + [next + 1], scene + multiset{next, next + 1},
                      position[next := p][next + 1 := p], show[next := true][next + 1 := true], next + 2, i + 1)
  {
    PlacementsStep(position0, show0, next0, i);
    NumberedStep(newFires, newSmokes, next0);
    assert fires + [next] == fires0 + (newFires + [next]);
    assert smokes + [next + 1] == smokes0 + (newSmokes + [next + 1]);
    assert multiset(newFires + [next]) == multiset(newFires) + multiset{next};
    assert multiset(newSmokes + [next + 1]) == multiset(newSmokes) + multiset{next + 1};
  }

  /**
   * The full effect of placing the seeds: `fires` and `smokes` are `fires0` and `smokes0`
   * extended by `newFires` and `newSmokes`, one handle per seed in seed order, numbered from
   * `next0`; the new handles are added to the scene, placed at their seeds and shown; every
   * earlier placement and flag is kept.
   */
  ghost predicate SeedsPlaced(fires0: seq<Handle>, smokes0: seq<Handle>, scene0: multiset<Handle>,
                              position0: map<Handle, Position>, show0: map<Handle, bool>, next0: int,
                              newFires: seq<Handle>, newSmokes: seq<Handle>,
                              fires: seq<Handle>, smokes: seq<Handle>, scene: multiset<Handle>,
                              position: map<Handle, Position>, show: map<Handle, bool>, next: int)
  {
    SeedsPlacedUpTo(fires0, smokes0, scene0, position0, show0, next0, newFires, newSmokes,
                    fires, smokes, scene, position, show, next, |FireData|)
  }

  /**
   * After the seeds are placed, the `k`-th new fire and the `k`-th new smoke sit at the `k`-th
   * seed, and none of the placements or flags held before changed.
   */
  lemma SeedsPlacedAtSeeds(fires0: seq<Handle>, smokes0: seq<Handle>, scene0: multiset<Handle>,
                           position0: map<Handle, Position>, show0: map<Handle, bool>, next0: int,
                           newFires: seq<Handle>, newSmokes: seq<Handle>,
                           fires: seq<Handle>, smokes: seq<Handle>, scene: multiset<Handle>,
                           position: map<Handle, Position>, show: map<Handle, bool>, next: int)
    requires Consistent(fires0, smokes0, scene0, position0, show0, next0)
    requires SeedsPlaced(fires0, smokes0, scene0, position0, show0, next0, newFires, newSmokes,
                         fires, smokes, scene, position, show, next)
    ensures AtSeeds(newFires, position) && AtSeeds(newSmokes, position)
    ensures forall h :: h in position0 ==> h in position && position[h] == position0[h]
    ensures forall h :: h in show0 ==> h in show && show[h] == show0[h]
    ensures forall k :: 0 <= k < |newFires| ==>
      newFires[k] in show && show[newFires[k]] && newSmokes[k] in show && show[newSmokes[k]]
  {
    forall k | 0 <= k < |newFires|
      ensures newFires[k] in position && position[newFires[k]] == SeedPosition(FireData[k])
      ensures newSmokes[k] in position && position[newSmokes[k]] == SeedPosition(FireData[k])
      ensures newFires[k] in show && show[newFires[k]] && newSmokes[k] in show && show[newSmokes[k]]
    {
      SeedPlacementsAt(next0, |FireData|, k);
      ShownFromAt(next0, 2 * |FireData|, newFires[k]);
      ShownFromAt(next0, 2 * |FireData|, newSmokes[k]);
    }
    forall h | h in position0 ensures h !in SeedPlacements(next0, |FireData|) {
      SeedPlacementsKeys(next0, |FireData|, h);
    }
    forall h | h in show0 ensures h !in ShownFrom(next0, 2 * |FireData|) {
      assert h in position0;
      ShownFromAt(next0, 2 * |FireData|, h);
    }
  }

  /** The loop of `addParticleFire` on the values of `globalParams`: one `particleFire` per seed. */
  method PlaceSeeds(fires0: seq<Handle>, smokes0: seq<Handle>, scene0: multiset<Handle>,
                    position0: map<Handle, Position>, show0: map<Handle, bool>, next0: int)
    returns (fires: seq<Handle>, smokes: seq<Handle>, scene: multiset<Handle>,
             position: map<Handle, Position>, show: map<Handle, bool>, next: int,
             ghost newFires: seq<Handle>, ghost newSmokes: seq<Handle>)
    requires Consistent(fires0, smokes0, scene0, position0, show0, next0)
    ensures Consistent(fires, smokes, scene, position, show, next)
    ensures SeedsPlaced(fires0, smokes0, scene0, position0, show0, next0, newFires, newSmokes,
                        fires, smokes, scene, position, show, next)
  {
    fires, smokes, scene, position, show, next := fires0, smokes0, scene0, position0, show0, next0;
    newFires, newSmokes := [], [];
    UnionEmpty(position0);
    UnionEmpty(show0);
    for i := 0 to |FireData|
      invariant Consistent(fires, smokes, scene, position, show, next)
      invariant SeedsPlacedUpTo(fires0, smokes0, scene0, position0, show0, next0, newFires, newSmokes,
                                fires, smokes, scene, position, show, next, i)
    {
      SeedsPlacedStep(fires0, smokes0, scene0, position0, show0, next0, newFires, newSmokes,
                      fires, smokes, scene, position, show, next, i);
      newFires, newSmokes := newFires + [next], newSmokes + [next + 1];
      fires, smokes, scene, position, show, next :=
        Place(fires, smokes, scene, position, show, next, SeedPosition(FireData[i]));
    }
  }

  /**
   * `globalParams` together with the scene of its viewer. `primitives` holds the particle
   * systems currently added to the scene; `position` and `show` are the placement and the
   * `show` flag of every particle system created so far; `removed` records, in order, the
   * handles passed to the scene's `remove`.
   */
  class FireScene {
    var hasViewer: bool
    var wildFireCollection: seq<Handle>
    var smokeCollection: seq<Handle>
    var primitives: multiset<Handle>
    var position: map<Handle, Position>
    var show: map<Handle, bool>
    var nextHandle: int
    var clockAnimating: bool
    var clockMultiplier: real
    var clockTime: real
    ghost var removed: seq<Handle>

    /**
     * The two collections grow in lockstep, the fire and the smoke at one index share a
     * placement, every handle is held once, and each is in the scene at most once.
     */
    ghost predicate Valid()
      reads this
    {
      Consistent(wildFireCollection, smokeCollection, primitives, position, show, nextHandle)
    }

    /** The initial `globalParams`: no viewer and empty collections. */
    constructor ()
      ensures Valid()
      ensures !hasViewer && wildFireCollection == [] && smokeCollection == []
      ensures primitives == multiset{} && position == map[] && show == map[] && removed == []
    {
      hasViewer := false;
      wildFireCollection, smokeCollection := [], [];
      primitives, position, show := multiset{}, map[], map[];
      nextHandle := 0;
      clockAnimating, clockMultiplier, clockTime := false, 1.0, 0.0;
      removed := [];
    }

    /**
     * Places one fire: a fire and a smoke particle system, both at `alt + 50`, each pushed
     * onto its collection and added to the scene. Without a viewer nothing changes.
     */
    method ParticleFire(lon: real, lat: real, alt: real)
      requires Valid()
      modifies this`wildFireCollection, this`smokeCollection, this`primitives, this`position,
               this`show, this`nextHandle
      ensures Valid()
      ensures !old(hasViewer) ==> unchanged(this)
      ensures old(hasViewer) ==>
        var fire, smoke, p := old(nextHandle), old(nextHandle) + 1, Position(lon, lat, alt + FlameOffset);
        && fire !in old(position) && smoke !in old(position)
        && fire !in old(primitives) && smoke !in old(primitives)
        && wildFireCollection == old(wildFireCollection) + [fire]
        && smokeCollection == old(smokeCollection) + [smoke]
        && primitives == old(primitives) + multiset{fire, smoke}
        && position == old(position)[fire := p][smoke := p]
        && show == old(show)[fire := true][smoke := true]
        && nextHandle == old(nextHandle) + 2
    {
      if !hasViewer {
        return;
      }
      var p := Position(lon, lat, alt + FlameOffset);
      var fires, smokes, scene, pos, flags, next :=
        Place(wildFireCollection, smokeCollection, primitives, position, show, nextHandle, p);
      wildFireCollection, smokeCollection, primitives := fires, smokes, scene;
      position, show, nextHandle := pos, flags, next;
    }

    /**
     * Starts the clock and places the three seed fires; `newFires` and `newSmokes` are the
     * handles created. Without a viewer nothing changes.
     */
    method AddParticleFire() returns (ghost newFires: seq<Handle>, ghost newSmokes: seq<Handle>)
      requires Valid()
      modifies this`wildFireCollection, this`smokeCollection, this`primitives, this`position,
               this`show, this`nextHandle, this`clockAnimating, this`clockMultiplier
      ensures Valid()
      ensures !old(hasViewer) ==> unchanged(this)
      ensures old(hasViewer) ==>
        && clockAnimating && clockMultiplier == 1.0
        && SeedsPlaced(old(wildFireCollection), old(smokeCollection), old(primitives),
                       old(position), old(show), old(nextHandle), newFires, newSmokes,
                       wildFireCollection, smokeCollection, primitives, position, show, nextHandle)
    {
      newFires, newSmokes := [], [];
      if hasViewer {
        var fires, smokes, scene, pos, flags, next;
        fires, smokes, scene, pos, flags, next, newFires, newSmokes :=
          PlaceSeeds(wildFireCollection, smokeCollection, primitives, position, show, nextHandle);
        wildFireCollection, smokeCollection, primitives := fires, smokes, scene;
        position, show, nextHandle := pos, flags, next;
        clockAnimating, clockMultiplier := true, 1.0;
      }
    }

    /**
     * `initViewer`'s effect on this state: a viewer with a new, empty scene becomes current and
     * the seed fires are placed in it. Handles held from an earlier viewer stay in the collections;
     * the clock time and the removal record are kept.
     */
    method AttachViewer() returns (ghost newFires: seq<Handle>, ghost newSmokes: seq<Handle>)
      requires Valid()
      modifies this`hasViewer, this`wildFireCollection, this`smokeCollection, this`primitives, this`position,
               this`show, this`nextHandle, this`clockAnimating, this`clockMultiplier
      ensures Valid() && hasViewer
      ensures clockAnimating && clockMultiplier == 1.0
      ensures SeedsPlaced(old(wildFireCollection), old(smokeCollection), multiset{},
                          old(position), old(show), old(nextHandle), newFires, newSmokes,
                          wildFireCollection, smokeCollection, primitives, position, show, nextHandle)
    {
      hasViewer := true;
      primitives := multiset{};
      newFires, newSmokes := AddParticleFire();
    }

    /**
     * Tears the fires down: removes every held fire handle from the scene, from the last index
     * down to the first, then every smoke handle likewise, and empties both collections.
     * Without a viewer nothing changes.
     */
    method InitFire(now: real)
      requires Valid()
      modifies this`clockTime, this`primitives, this`wildFireCollection, this`smokeCollection, this`removed
      ensures Valid()
      ensures !old(hasViewer) ==> unchanged(this)
      ensures old(hasViewer) ==>
        && clockTime == now
        && wildFireCollection == [] && smokeCollection == []
        && TornDown(old(wildFireCollection), old(smokeCollection), old(primitives), old(removed), primitives, removed)
    {
      if !hasViewer {
        return;
      }
      ghost var log: seq<Handle>;
      var scene;
      scene, log := Teardown(wildFireCollection, smokeCollection, primitives, removed, position, show, nextHandle);
      clockTime := now;
      removed := log;
      wildFireCollection := [];
      smokeCollection := [];
      primitives := scene;
    }

    /**
     * Sets the `show` flag of every held particle system: a fire by its distance and the
     * camera's height above the terrain (the terrain height counts as 0 when unknown), a smoke
     * by its distance and the camera's ellipsoid height. Nothing else changes.
     * `distance` gives the camera's distance to a placement.
     */
    method AdjustFireVisibility(distance: Position -> real, ellipsoidHeight: real, cartoHeight: real,
                                terrainHeight: Option<real>)
      requires Valid()
      modifies this`show
      ensures Valid()
      ensures !hasViewer ==> show == old(show)
      ensures hasViewer ==>
        show == AdjustedFlags(old(show), wildFireCollection, smokeCollection, position, distance,
                              HeightAboveGround(cartoHeight, terrainHeight), ellipsoidHeight)
      ensures hasViewer ==> forall i :: 0 <= i < |wildFireCollection| ==>
        show[wildFireCollection[i]] ==
          Visible(distance(position[wildFireCollection[i]]), HeightAboveGround(cartoHeight, terrainHeight))
      ensures hasViewer ==> forall i :: 0 <= i < |smokeCollection| ==>
        show[smokeCollection[i]] == Visible(distance(position[smokeCollection[i]]), ellipsoidHeight)
    {
      if !hasViewer {
        return;
      }
      var heightAboveGround := HeightAboveGround(cartoHeight, terrainHeight);
      var fires, smokes, placement := wildFireCollection, smokeCollection, position;
      AdjustedFlagsAt(show, fires, smokes, placement, nextHandle, primitives, distance, heightAboveGround, ellipsoidHeight);
      var flags := SetShowFlags(show, fires, placement, distance, heightAboveGround);
      flags := SetShowFlags(flags, smokes, placement, distance, ellipsoidHeight);
      show := flags;
    }
  }

  /** The throttle gate: open when at least ThrottleMs have passed since the last sample. */
  predicate GatePasses(lastUpdate: int, now: int) {
    !(now - lastUpdate < ThrottleMs)
  }

  /**
   * The viewport bounds from the two corner picks: none when either pick misses the globe,
   * otherwise north and west from the top-left hit and south and east from the bottom-right hit.
   */
  function CornerBounds(topLeft: Option<GeoPoint>, bottomRight: Option<GeoPoint>): (r: Option<BoundingBox>)
    ensures r.None? <==> topLeft.None? || bottomRight.None?
    ensures r.Some? ==>
      && r.value.north == topLeft.value.latitude && r.value.west == topLeft.value.longitude
      && r.value.south == bottomRight.value.latitude && r.value.east == bottomRight.value.longitude
  {
    if topLeft.None? || bottomRight.None? then None
    else Some(BoundingBox(north := topLeft.value.latitude, south := bottomRight.value.latitude,
                          east := bottomRight.value.longitude, west := topLeft.value.longitude))
  }

  /** The frame times, out of `frames`, at which the gate opens, starting from `lastUpdate`. */
  function PassTimes(lastUpdate: int, frames: seq<int>): seq<int>
    decreases |frames|
  {
    if frames == [] then []
    else if GatePasses(lastUpdate, frames[0]) then [frames[0]] + PassTimes(frames[0], frames[1..])
    else PassTimes(lastUpdate, frames[1..])
  }

  /**
   * The gate opens at most once per ThrottleMs: every opening is at least ThrottleMs after the
   * previous one (the first, after the starting `lastUpdate`), whatever the order of the frame times.
   */
  lemma {:induction false} PassTimesSpaced(lastUpdate: int, frames: seq<int>)
    ensures var p := PassTimes(lastUpdate, frames);
      && (|p| > 0 ==> p[0] >= lastUpdate + ThrottleMs)
      && (forall i :: 0 <= i < |p| - 1 ==> p[i + 1] >= p[i] + ThrottleMs)
      && (forall t :: t in p ==> t in frames)
    decreases |frames|
  {
    if frames != [] {
      if GatePasses(lastUpdate, frames[0]) {
        PassTimesSpaced(frames[0], frames[1..]);
      } else {
        PassTimesSpaced(lastUpdate, frames[1..]);
      }
    }
  }

  /** The `trackCamera` listener with the `lastUpdate` variable its closure keeps. */
  class CameraTracker {
    var lastUpdate: int

    constructor ()
      ensures lastUpdate == 0
    {
      lastUpdate := 0;
    }

    /**
     * One post-render callback at time `now` (milliseconds) with the two corner picks. When the
     * gate is closed nothing changes and no bounds are computed; when it opens, `lastUpdate`
     * becomes `now` and the bounds come from the picks.
     */
    method OnPostRender(now: int, topLeft: Option<GeoPoint>, bottomRight: Option<GeoPoint>)
      returns (passed: bool, bounds: Option<BoundingBox>)
      modifies this
      ensures passed == GatePasses(old(lastUpdate), now)
      ensures lastUpdate == if passed then now else old(lastUpdate)
      ensures bounds == if passed then CornerBounds(topLeft, bottomRight) else None
    {
      if now - lastUpdate < ThrottleMs {
        return false, None;
      }
      lastUpdate := now;
      if topLeft.None? || bottomRight.None? {
        return true, None;
      }
      bounds := Some(BoundingBox(north := topLeft.value.latitude, south := bottomRight.value.latitude,
                                 east := bottomRight.value.longitude, west := topLeft.value.longitude));
      passed := true;
    }
  }
}
