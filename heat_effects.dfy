/**
 * renderer/components/HeatEffects.js: the registry of heat sources and the
 * numbers derived from it. Each source keeps what the rest of the class reads
 * back: its intensity and radius, its `active` flag, the intensity of each of
 * its lights, the size of its particle system and the visibility the class
 * sets on its effects. Meshes, shaders, colours and the per-frame particle
 * animation are not modelled. Random ids and `distanceTo` results are inputs:
 * a distance sequence gives, position by position, the distance from the
 * query point (or the camera) to each source.
 */
module Heat {
  import opened Optional
  import opened Vectors

  const DefaultIntensity: real := 1.0
  const DefaultRadius: real := 5.0
  /** Temperature with no source in range, in degrees Celsius. */
  const AmbientTemperature: real := 20.0
  /** The cap `getTemperatureAtPosition` applies. */
  const MaxTemperature: real := 150.0
  /** Degrees contributed at distance 0 per unit of intensity. */
  const HeatScale: real := 50.0
  /** Beyond this camera distance particles are hidden. */
  const FarDistance: real := 30.0
  /** Beyond this camera distance (up to the far one) particles are small. */
  const MidDistance: real := 15.0
  const FullParticleSize: real := 0.1
  const ReducedParticleSize: real := 0.05
  /** Main light intensity per unit of source intensity; also the factor `updateHeatSourceIntensity` uses. */
  const MainLightFactor: real := 0.8
  const SubLightFactor: real := 0.4

  /**
   * One registry entry. `lights` holds the intensity of each point light,
   * the main light first; `glowVisible` is the visibility of the lights and
   * the ground glow, which `setHeatSourceActive` switches together.
   */
  datatype HeatSource = HeatSource(
    id: string,
    position: Vec3,
    intensity: real,
    radius: real,
    active: bool,
    particleCount: nat,
    particlesVisible: bool,
    particleSize: real,
    lights: seq<real>,
    glowVisible: bool)

  /** `Math.floor(100 * intensity)`: the particles of a new source. */
  function ParticleCount(intensity: real): (n: nat)
    requires 0.0 <= intensity
    ensures n as real <= 100.0 * intensity < n as real + 1.0
  {
    (100.0 * intensity).Floor
  }

  /** `Math.floor(3 * intensity)`: the sub lights around the main light. */
  function SubLightCount(intensity: real): (n: nat)
    requires 0.0 <= intensity
    ensures n as real <= 3.0 * intensity < n as real + 1.0
  {
    (3.0 * intensity).Floor
  }

  /** The particle buffers of a source of negative intensity would have a negative length. */
  lemma NegativeIntensityHasNoParticleBuffer(intensity: real)
    ensures (100.0 * intensity).Floor < 0 <==> intensity < 0.0
  {
  }

  /** The light intensities `createHeatLights` sets up. */
  function InitialLights(intensity: real): seq<real>
    requires 0.0 <= intensity
  {
    [MainLightFactor * intensity] + seq(SubLightCount(intensity), _ => SubLightFactor * intensity)
  }

  /** The entry `addHeatSource` pushes: active, with all effects visible at full particle size. */
  function Created(id: string, position: Vec3, intensity: real, radius: real): HeatSource
    requires 0.0 <= intensity
  {
    HeatSource(id, position, intensity, radius, true, ParticleCount(intensity), true,
               FullParticleSize, InitialLights(intensity), true)
  }

  /** A new source has one main light and `floor(3·intensity)` weaker ones, and `floor(100·intensity)` particles. */
  lemma CreatedShape(id: string, position: Vec3, intensity: real, radius: real)
    requires 0.0 <= intensity
    ensures var h := Created(id, position, intensity, radius);
      && h.id == id && h.intensity == intensity && h.radius == radius && h.active
      && |h.lights| == 1 + SubLightCount(intensity)
      && h.lights[0] == 0.8 * intensity
      && (forall k :: 1 <= k < |h.lights| ==> h.lights[k] == 0.4 * intensity)
      && h.particleCount == ParticleCount(intensity)
  {
  }

  /** With the default intensity a source has four lights and 100 particles. */
  lemma DefaultSourceShape(id: string, position: Vec3)
    ensures |Created(id, position, DefaultIntensity, DefaultRadius).lights| == 4
    ensures Created(id, position, DefaultIntensity, DefaultRadius).particleCount == 100
    ensures Created(id, position, DefaultIntensity, DefaultRadius).radius == 5.0
  {
    assert SubLightCount(1.0) == 3;
  }

  /** Every entry has its main light. */
  ghost predicate WellFormed(h: HeatSource)
  {
    |h.lights| >= 1
  }

  /** `heatSources.findIndex(source => source.id === id)`; `find` picks the same entry. */
  function IndexOf(s: seq<HeatSource>, id: string): (r: Option<nat>)
    ensures r.Some? ==> r.value < |s| && s[r.value].id == id
    ensures r.Some? ==> forall j :: 0 <= j < r.value ==> s[j].id != id
    ensures r.None? ==> forall j :: 0 <= j < |s| ==> s[j].id != id
  {
    if |s| == 0 then None
    else if s[0].id == id then Some(0)
    else match IndexOf(s[1..], id)
      case None => None
      case Some(i) => Some(i + 1)
  }

  /** The list after `removeHeatSource(id)`: the first entry with that id is gone. */
  function Removed(s: seq<HeatSource>, id: string): (r: seq<HeatSource>)
    ensures |r| == if IndexOf(s, id).Some? then |s| - 1 else |s|
  {
    if |s| == 0 then []
    else if s[0].id == id then s[1..]
    else [s[0]] + Removed(s[1..], id)
  }

  /** The entry `removeHeatSource(id)` releases, if any. */
  function RemovedBy(s: seq<HeatSource>, id: string): (r: seq<HeatSource>)
    ensures |r| <= 1
    ensures |r| == 1 <==> IndexOf(s, id).Some?
    ensures forall h :: h in r ==> h in s && h.id == id
  {
    match IndexOf(s, id)
    case None => []
    case Some(i) => [s[i]]
  }

  /** Removal is the splice at the found index, and nothing at all for an unknown id. */
  lemma {:induction false} RemovedSplice(s: seq<HeatSource>, id: string)
    ensures IndexOf(s, id).None? ==> Removed(s, id) == s
    ensures IndexOf(s, id).Some? ==>
      var i := IndexOf(s, id).value; Removed(s, id) == s[..i] + s[i + 1..]
  {
    if |s| > 0 && s[0].id != id {
      RemovedSplice(s[1..], id);
      if IndexOf(s[1..], id).Some? {
        var i := IndexOf(s[1..], id).value;
        assert s[1..][..i] == s[1..i + 1];
        assert s[1..][i + 1..] == s[i + 2..];
        assert [s[0]] + s[1..i + 1] == s[..i + 1];
      } else {
        assert [s[0]] + s[1..] == s;
      }
    }
  }

  /** The entries whose id differs from `id`, in order. */
  function Without(s: seq<HeatSource>, id: string): seq<HeatSource>
  {
    if |s| == 0 then []
    else if s[0].id == id then Without(s[1..], id)
    else [s[0]] + Without(s[1..], id)
  }

  /** How many entries carry `id`. */
  function CountId(s: seq<HeatSource>, id: string): nat
  {
    if |s| == 0 then 0 else (if s[0].id == id then 1 else 0) + CountId(s[1..], id)
  }

  /**
   * Removing `id` deletes exactly one entry with that id when there is one,
   * and keeps every other entry in its order.
   */
  lemma {:induction false} RemoveKeepsOthers(s: seq<HeatSource>, id: string)
    ensures Without(Removed(s, id), id) == Without(s, id)
    ensures CountId(Removed(s, id), id) == if CountId(s, id) > 0 then CountId(s, id) - 1 else 0
    ensures IndexOf(s, id).Some? <==> CountId(s, id) > 0
  {
    if |s| > 0 {
      RemoveKeepsOthers(s[1..], id);
      if s[0].id != id {
        var r := Removed(s, id);
        assert r[0] == s[0] && r[1..] == Removed(s[1..], id);
      }
    }
  }

  /** The list with `f` applied to the first entry carrying `id`; unchanged for an unknown id. */
  function UpdateFirst(s: seq<HeatSource>, id: string, f: HeatSource -> HeatSource): (r: seq<HeatSource>)
    ensures |r| == |s|
  {
    if |s| == 0 then []
    else if s[0].id == id then [f(s[0])] + s[1..]
    else [s[0]] + UpdateFirst(s[1..], id, f)
  }

  /** Updating the first match is a point update at the found index, and a no-op for an unknown id. */
  lemma {:induction false} UpdateFirstAt(s: seq<HeatSource>, id: string, f: HeatSource -> HeatSource)
    ensures IndexOf(s, id).None? ==> UpdateFirst(s, id, f) == s
    ensures IndexOf(s, id).Some? ==>
      var i := IndexOf(s, id).value; UpdateFirst(s, id, f) == s[i := f(s[i])]
  {
    if |s| > 0 {
      if s[0].id == id {
        assert [f(s[0])] + s[1..] == s[0 := f(s[0])];
      } else {
        UpdateFirstAt(s[1..], id, f);
        var t := s[1..];
        match IndexOf(t, id)
        case None =>
          assert [s[0]] + t == s;
        case Some(j) =>
          assert [s[0]] + t[j := f(t[j])] == s[j + 1 := f(s[j + 1])];
      }
    }
  }

  /** The search depends on the ids alone. */
  lemma {:induction false} SameIdsSameIndex(s: seq<HeatSource>, t: seq<HeatSource>, id: string)
    requires |s| == |t| && forall k :: 0 <= k < |s| ==> s[k].id == t[k].id
    ensures IndexOf(t, id) == IndexOf(s, id)
  {
    match IndexOf(s, id)
    case None =>
    case Some(i) =>
      assert t[i].id == id;
  }

  /** `setHeatSourceActive`: the flag and the visibility of every effect follow `active`. */
  function Activated(h: HeatSource, active: bool): HeatSource
  {
    h.(active := active, particlesVisible := active, glowVisible := active)
  }

  /** `updateHeatSourceIntensity`: every light is reset to 0.8 of the new intensity; counts stay. */
  function Intensified(h: HeatSource, intensity: real): HeatSource
  {
    h.(intensity := intensity, lights := seq(|h.lights|, _ => MainLightFactor * intensity))
  }

  function WithActive(s: seq<HeatSource>, id: string, active: bool): seq<HeatSource>
  {
    UpdateFirst(s, id, h => Activated(h, active))
  }

  function WithIntensity(s: seq<HeatSource>, id: string, intensity: real): seq<HeatSource>
  {
    UpdateFirst(s, id, h => Intensified(h, intensity))
  }

  /**
   * After `setHeatSourceActive(id, a)` the source found by `id` is the same
   * entry, now with flag `a`; every other entry and the length are unchanged.
   */
  lemma {:induction false} SetActiveThenFind(s: seq<HeatSource>, id: string, a: bool)
    ensures |WithActive(s, id, a)| == |s|
    ensures IndexOf(WithActive(s, id, a), id) == IndexOf(s, id)
    ensures IndexOf(s, id).Some? ==>
      var i := IndexOf(s, id).value;
      && WithActive(s, id, a)[i].active == a
      && WithActive(s, id, a)[i] == Activated(s[i], a)
      && forall j :: 0 <= j < |s| && j != i ==> WithActive(s, id, a)[j] == s[j]
    ensures IndexOf(s, id).None? ==> WithActive(s, id, a) == s
  {
    UpdateFirstAt(s, id, h => Activated(h, a));
    SameIdsSameIndex(s, WithActive(s, id, a), id);
  }

  /**
   * After `updateHeatSourceIntensity(id, v)` the found source has intensity
   * `v` and lights at `0.8·v`, with as many lights and particles as before;
   * every other entry is unchanged.
   */
  lemma {:induction false} SetIntensityThenFind(s: seq<HeatSource>, id: string, v: real)
    ensures |WithIntensity(s, id, v)| == |s|
    ensures IndexOf(WithIntensity(s, id, v), id) == IndexOf(s, id)
    ensures IndexOf(s, id).Some? ==>
      var i := IndexOf(s, id).value; var h := WithIntensity(s, id, v)[i];
      && h.intensity == v && h.active == s[i].active
      && |h.lights| == |s[i].lights| && h.particleCount == s[i].particleCount
      && (forall k :: 0 <= k < |h.lights| ==> h.lights[k] == 0.8 * v)
      && forall j :: 0 <= j < |s| && j != i ==> WithIntensity(s, id, v)[j] == s[j]
    ensures IndexOf(s, id).None? ==> WithIntensity(s, id, v) == s
  {
    UpdateFirstAt(s, id, h => Intensified(h, v));
    SameIdsSameIndex(s, WithIntensity(s, id, v), id);
  }

  // ---------------------------------------------------------------- aggregates

  /** What a source adds to the global heat total. */
  function ActiveIntensity(h: HeatSource): real
  {
    if h.active then h.intensity else 0.0
  }

  /** The sum of the intensities of the active sources. */
  function ActiveSum(s: seq<HeatSource>): real
  {
    if |s| == 0 then 0.0 else ActiveSum(s[..|s| - 1]) + ActiveIntensity(s[|s| - 1])
  }

  /** The number of active sources. */
  function ActiveCount(s: seq<HeatSource>): (n: nat)
    ensures n <= |s|
  {
    if |s| == 0 then 0 else ActiveCount(s[..|s| - 1]) + (if s[|s| - 1].active then 1 else 0)
  }

  /** `calculateGlobalHeatLevel()`: the mean intensity of the active sources, 0 when none is active. */
  function GlobalHeat(s: seq<HeatSource>): real
  {
    if ActiveCount(s) > 0 then ActiveSum(s) / ActiveCount(s) as real else 0.0
  }

  /** `x` added up `n` times. */
  function Scaled(x: real, n: nat): real
  {
    if n == 0 then 0.0 else Scaled(x, n - 1) + x
  }

  lemma {:induction false} ScaledIsProduct(x: real, n: nat)
    ensures Scaled(x, n) == x * (n as real)
  {
    if n > 0 {
      ScaledIsProduct(x, n - 1);
      assert x * (n as real) == x * ((n - 1) as real) + x;
    }
  }

  lemma {:induction false} ActiveSumBounds(s: seq<HeatSource>, lo: real, hi: real)
    requires forall k :: 0 <= k < |s| && s[k].active ==> lo <= s[k].intensity <= hi
    ensures Scaled(lo, ActiveCount(s)) <= ActiveSum(s) <= Scaled(hi, ActiveCount(s))
  {
    if |s| > 0 {
      ActiveSumBounds(s[..|s| - 1], lo, hi);
    }
  }

  /** The global heat level lies between the smallest and the largest active intensity. */
  lemma {:induction false} GlobalHeatWithinBounds(s: seq<HeatSource>, lo: real, hi: real)
    requires forall k :: 0 <= k < |s| && s[k].active ==> lo <= s[k].intensity <= hi
    ensures ActiveCount(s) == 0 ==> GlobalHeat(s) == 0.0
    ensures ActiveCount(s) > 0 ==> lo <= GlobalHeat(s) <= hi
  {
    ActiveSumBounds(s, lo, hi);
    if ActiveCount(s) > 0 {
      ScaledIsProduct(lo, ActiveCount(s));
      ScaledIsProduct(hi, ActiveCount(s));
      DivBounds(ActiveSum(s), ActiveCount(s) as real, lo, hi);
    }
  }

  lemma DivBounds(a: real, c: real, lo: real, hi: real)
    requires 0.0 < c && lo * c <= a <= hi * c
    ensures lo <= a / c <= hi
  {
    assert a / c - lo == (a - lo * c) / c;
    assert hi - a / c == (hi * c - a) / c;
  }

  lemma ScaledSquareMonotone(c: real, x: real, y: real)
    requires 0.0 <= c && 0.0 <= x <= y
    ensures 0.0 <= c * (x * x) <= c * (y * y)
  {
    assert x * x <= y * y;
  }

  lemma FalloffFactor(d: real, r: real)
    requires 0.0 <= d < r
    ensures 0.0 < 1.0 - d / r <= 1.0
  {
    assert r / r == 1.0;
    assert (r - d) / r == r / r - d / r;
    assert 0.0 <= d / r;
  }

  lemma DivMonotone(d1: real, d2: real, r: real)
    requires 0.0 < r && d1 <= d2
    ensures d1 / r <= d2 / r
  {
    assert d2 / r - d1 / r == (d2 - d1) / r;
  }

  /** Changing one entry changes the totals by exactly that entry's difference. */
  lemma {:induction false} ActivePointUpdate(s: seq<HeatSource>, i: nat, h: HeatSource)
    requires i < |s|
    ensures ActiveSum(s[i := h]) == ActiveSum(s) - ActiveIntensity(s[i]) + ActiveIntensity(h)
    ensures ActiveCount(s[i := h]) as int
         == ActiveCount(s) as int - (if s[i].active then 1 else 0) + (if h.active then 1 else 0)
  {
    var n := |s|;
    var t := s[i := h];
    if i == n - 1 {
      assert t[..n - 1] == s[..n - 1];
    } else {
      assert t[..n - 1] == s[..n - 1][i := h];
      ActivePointUpdate(s[..n - 1], i, h);
    }
  }

  /** Appending a source adds its intensity and its activity to the totals. */
  lemma {:induction false} AppendToTotals(s: seq<HeatSource>, h: HeatSource)
    ensures ActiveSum(s + [h]) == ActiveSum(s) + ActiveIntensity(h)
    ensures ActiveCount(s + [h]) == ActiveCount(s) + (if h.active then 1 else 0)
  {
    assert (s + [h])[..|s|] == s;
  }

  /** Switching off an active source takes exactly it out of the mean. */
  lemma {:induction false} DeactivateLeavesMean(s: seq<HeatSource>, id: string)
    requires IndexOf(s, id).Some? && s[IndexOf(s, id).value].active
    ensures ActiveCount(WithActive(s, id, false)) == ActiveCount(s) - 1
    ensures ActiveSum(WithActive(s, id, false)) == ActiveSum(s) - s[IndexOf(s, id).value].intensity
  {
    var i := IndexOf(s, id).value;
    SetActiveThenFind(s, id, false);
    assert WithActive(s, id, false) == s[i := Activated(s[i], false)];
    ActivePointUpdate(s, i, Activated(s[i], false));
  }

  /** The distances handed in stand for `distanceTo` results: one per source, none negative. */
  ghost predicate DistancesFor(s: seq<HeatSource>, ds: seq<real>)
  {
    |ds| == |s| && forall k :: 0 <= k < |ds| ==> 0.0 <= ds[k]
  }

  /** What one source adds at distance `d`: inactive or out-of-range sources add nothing. */
  function Contribution(h: HeatSource, d: real): real
    requires 0.0 <= d
  {
    if h.active && d < h.radius then
      var f := 1.0 - d / h.radius;
      h.intensity * HeatScale * (f * f)
    else 0.0
  }

  /** The sum of all contributions before the cap. */
  function HeatSum(s: seq<HeatSource>, ds: seq<real>): real
    requires DistancesFor(s, ds)
  {
    if |s| == 0 then 0.0
    else HeatSum(s[..|s| - 1], ds[..|ds| - 1]) + Contribution(s[|s| - 1], ds[|ds| - 1])
  }

  /** `getTemperatureAtPosition`: ambient plus every contribution, capped at 150. */
  function Temperature(s: seq<HeatSource>, ds: seq<real>): real
    requires DistancesFor(s, ds)
  {
    var t := AmbientTemperature + HeatSum(s, ds);
    if t < MaxTemperature then t else MaxTemperature
  }

  /** A source never adds more than its intensity times 50, and adds less the farther away it is. */
  lemma {:induction false} ContributionFalloff(h: HeatSource, d1: real, d2: real)
    requires 0.0 <= d1 <= d2 && 0.0 <= h.intensity
    ensures 0.0 <= Contribution(h, d2) <= Contribution(h, d1) <= h.intensity * HeatScale
    ensures !h.active || h.radius <= d1 ==> Contribution(h, d1) == 0.0
  {
    var c, r := h.intensity * HeatScale, h.radius;
    if h.active && d1 < r {
      var f1 := 1.0 - d1 / r;
      FalloffFactor(d1, r);
      ScaledSquareMonotone(c, f1, 1.0);
      assert Contribution(h, d1) == c * (f1 * f1);
      if d2 < r {
        var f2 := 1.0 - d2 / r;
        FalloffFactor(d2, r);
        DivMonotone(d1, d2, r);
        ScaledSquareMonotone(c, f2, f1);
        assert Contribution(h, d2) == c * (f2 * f2);
      } else {
        assert Contribution(h, d2) == 0.0;
      }
    } else {
      assert Contribution(h, d1) == 0.0 && Contribution(h, d2) == 0.0;
    }
  }

  lemma {:induction false} HeatSumNonnegative(s: seq<HeatSource>, ds: seq<real>)
    requires DistancesFor(s, ds)
    requires forall k :: 0 <= k < |s| ==> 0.0 <= s[k].intensity
    ensures 0.0 <= HeatSum(s, ds)
  {
    if |s| > 0 {
      HeatSumNonnegative(s[..|s| - 1], ds[..|ds| - 1]);
      ContributionFalloff(s[|s| - 1], ds[|ds| - 1], ds[|ds| - 1]);
    }
  }

  /**
   * The temperature never exceeds 150, and with no negative intensity it is
   * never below the ambient 20.
   */
  lemma {:induction false} TemperatureBounds(s: seq<HeatSource>, ds: seq<real>)
    requires DistancesFor(s, ds)
    ensures Temperature(s, ds) <= MaxTemperature
    ensures (forall k :: 0 <= k < |s| ==> 0.0 <= s[k].intensity) ==> AmbientTemperature <= Temperature(s, ds)
  {
    if forall k :: 0 <= k < |s| ==> 0.0 <= s[k].intensity {
      HeatSumNonnegative(s, ds);
    }
  }

  /** Changing one entry changes the uncapped sum by exactly that entry's difference. */
  lemma {:induction false} HeatPointUpdate(s: seq<HeatSource>, ds: seq<real>, i: nat, h: HeatSource)
    requires DistancesFor(s, ds) && i < |s|
    ensures HeatSum(s[i := h], ds) == HeatSum(s, ds) - Contribution(s[i], ds[i]) + Contribution(h, ds[i])
  {
    var n := |s|;
    var t := s[i := h];
    if i == n - 1 {
      assert t[..n - 1] == s[..n - 1];
    } else {
      assert t[..n - 1] == s[..n - 1][i := h];
      HeatPointUpdate(s[..n - 1], ds[..n - 1], i, h);
    }
  }

  /** A switched-off source stops heating: the uncapped sum loses exactly its contribution. */
  lemma {:induction false} DeactivatedSourceIsCold(s: seq<HeatSource>, ds: seq<real>, id: string)
    requires DistancesFor(s, ds) && IndexOf(s, id).Some?
    ensures var i := IndexOf(s, id).value;
      HeatSum(WithActive(s, id, false), ds) == HeatSum(s, ds) - Contribution(s[i], ds[i])
  {
    var i := IndexOf(s, id).value;
    SetActiveThenFind(s, id, false);
    assert WithActive(s, id, false) == s[i := Activated(s[i], false)];
    HeatPointUpdate(s, ds, i, Activated(s[i], false));
  }

  /** The three quality levels of `updateLOD`. */
  datatype Detail = Hidden | Reduced | Full

  /** The level for a camera distance: far hides, middle reduces, near shows everything. */
  function DetailFor(d: real): Detail
  {
    if d > FarDistance then Hidden
    else if d > MidDistance then Reduced
    else Full
  }

  function DetailRank(l: Detail): nat
  {
    match l
    case Hidden => 0
    case Reduced => 1
    case Full => 2
  }

  /**
   * The bands split the distances without gap or overlap, and moving the
   * camera away never raises the level.
   */
  lemma DetailBands(d1: real, d2: real)
    ensures DetailFor(d1) == Hidden <==> d1 > 30.0
    ensures DetailFor(d1) == Reduced <==> 15.0 < d1 <= 30.0
    ensures DetailFor(d1) == Full <==> d1 <= 15.0
    ensures d1 <= d2 ==> DetailRank(DetailFor(d2)) <= DetailRank(DetailFor(d1))
  {
  }

  /** A source after `updateLOD` at camera distance `d`: only its particle visibility and size change. */
  function WithDetail(h: HeatSource, d: real): HeatSource
  {
    match DetailFor(d)
    case Hidden => h.(particlesVisible := false)
    case Reduced => h.(particlesVisible := true, particleSize := ReducedParticleSize)
    case Full => h.(particlesVisible := true, particleSize := FullParticleSize)
  }

  /**
   * LOD leaves everything but the particles alone, and it does not look at
   * `active`: a switched-off source near the camera gets its particles shown
   * again.
   */
  lemma DetailIgnoresActive(h: HeatSource, d: real)
    ensures WithDetail(h, d).(particlesVisible := h.particlesVisible, particleSize := h.particleSize) == h
    ensures WithDetail(h, d).particlesVisible <==> d <= 30.0
    ensures d <= 15.0 ==> WithDetail(h, d).particleSize == 0.1
    ensures 15.0 < d <= 30.0 ==> WithDetail(h, d).particleSize == 0.05
    ensures !h.active && d <= 30.0 ==> WithDetail(h, d).particlesVisible && !WithDetail(h, d).active
  {
  }

  /** `reduce` over the particle systems' sizes. */
  function TotalParticles(s: seq<HeatSource>): nat
  {
    if |s| == 0 then 0 else TotalParticles(s[..|s| - 1]) + s[|s| - 1].particleCount
  }

  /** `reduce` over the light lists' lengths. */
  function TotalLights(s: seq<HeatSource>): nat
  {
    if |s| == 0 then 0 else TotalLights(s[..|s| - 1]) + |s[|s| - 1].lights|
  }

  /** Every source has at least its main light, so there are at least as many lights as sources. */
  lemma {:induction false} LightsCoverSources(s: seq<HeatSource>)
    requires forall k :: 0 <= k < |s| ==> WellFormed(s[k])
    ensures ActiveCount(s) <= |s| <= TotalLights(s)
  {
    if |s| > 0 {
      LightsCoverSources(s[..|s| - 1]);
    }
  }

  /** The object `getDebugInfo()` returns. */
  datatype HeatDebugInfo = HeatDebugInfo(
    heatSourceCount: nat,
    activeHeatSources: nat,
    globalHeatLevel: real,
    totalParticles: nat,
    totalLights: nat,
    averageTemperature: real)

  /**
   * The entries `dispose()` as written releases: `forEach` walks the indices
   * of the live list while each visited source is spliced out of it, so after
   * a removal the next source slides into the visited slot and is skipped.
   */
  function ForEachRemoved(s: seq<HeatSource>, k: nat): seq<HeatSource>
    decreases |s| - k
  {
    if k < |s| then RemovedBy(s, s[k].id) + ForEachRemoved(Removed(s, s[k].id), k + 1)
    else []
  }

  /** One visit of the walk: the visited source's removal, then the walk over the shorter list. */
  lemma {:induction false} ForEachStep(s: seq<HeatSource>, k: nat, log: seq<HeatSource>)
    requires k < |s|
    ensures log + ForEachRemoved(s, k)
         == (log + RemovedBy(s, s[k].id)) + ForEachRemoved(Removed(s, s[k].id), k + 1)
  {
  }

  /** Walking from index `k`, only about half of the remaining entries are released. */
  lemma {:induction false} ForEachRemovedCount(s: seq<HeatSource>, k: nat)
    requires k <= |s|
    ensures |ForEachRemoved(s, k)| == (|s| - k + 1) / 2
    decreases |s| - k
  {
    if k < |s| {
      var id := s[k].id;
      assert IndexOf(s, id).Some?;
      if k + 1 <= |Removed(s, id)| {
        ForEachRemovedCount(Removed(s, id), k + 1);
      }
    }
  }

  /** Two sources: `dispose()` releases the first and never releases the second. */
  lemma {:induction false} DisposeSkipsSecondSource(x: HeatSource, y: HeatSource)
    requires x.id != y.id
    ensures ForEachRemoved([x, y], 0) == [x]
    ensures y !in ForEachRemoved([x, y], 0)
  {
    assert IndexOf([x, y], x.id) == Some(0);
    assert Removed([x, y], x.id) == [y];
    assert ForEachRemoved([y], 1) == [];
  }

  class HeatEffects {
    var heatSources: seq<HeatSource>
    var globalHeatLevel: real
    /** The sources whose particles, lights and glow have been disposed, in order. */
    var released: seq<HeatSource>

    ghost predicate Valid()
      reads this
    {
      forall k :: 0 <= k < |heatSources| ==> WellFormed(heatSources[k])
    }

    constructor ()
      ensures Valid()
      ensures heatSources == [] && globalHeatLevel == 0.0 && released == []
    {
      heatSources := [];
      globalHeatLevel := 0.0;
      released := [];
    }

    /**
     * `addHeatSource(position, intensity, radius)` with the random id as an
     * input. A negative intensity gives the particle buffers a negative
     * length, so the call fails before anything is pushed.
     */
    method AddHeatSource(id: string, position: Vec3, intensity: real := DefaultIntensity,
                         radius: real := DefaultRadius) returns (r: Option<string>)
      requires Valid()
      modifies this`heatSources
      ensures Valid()
      ensures intensity < 0.0 ==> r == None && heatSources == old(heatSources)
      ensures 0.0 <= intensity ==>
        r == Some(id) && heatSources == old(heatSources) + [Created(id, position, intensity, radius)]
    {
      if intensity < 0.0 {
        r := None;
      } else {
        heatSources := heatSources + [Created(id, position, intensity, radius)];
        r := Some(id);
      }
    }

    /** The `findIndex` scan. */
    method Find(id: string) returns (r: Option<nat>)
      ensures r.Some? ==> r.value < |heatSources| && heatSources[r.value].id == id
      ensures r.Some? ==> forall j :: 0 <= j < r.value ==> heatSources[j].id != id
      ensures r.None? ==> forall j :: 0 <= j < |heatSources| ==> heatSources[j].id != id
      ensures r == IndexOf(heatSources, id)
    {
      var i := 0;
      while i < |heatSources|
        invariant i <= |heatSources|
        invariant forall j :: 0 <= j < i ==> heatSources[j].id != id
      {
        if heatSources[i].id == id {
          return Some(i);
        }
        i := i + 1;
      }
      r := None;
    }

    /** `removeHeatSource(id)`: dispose the first match's effects and splice it out. */
    method RemoveHeatSource(id: string)
      requires Valid()
      modifies this`heatSources, this`released
      ensures Valid()
      ensures heatSources == Removed(old(heatSources), id)
      ensures released == old(released) + RemovedBy(old(heatSources), id)
    {
      var i := Find(id);
      RemovedSplice(heatSources, id);
      if i.Some? {
        var k := i.value;
        released := released + [heatSources[k]];
        heatSources := heatSources[..k] + heatSources[k + 1..];
      }
    }

    /** `setHeatSourceActive(id, active)`. */
    method SetHeatSourceActive(id: string, active: bool)
      requires Valid()
      modifies this`heatSources
      ensures Valid()
      ensures heatSources == WithActive(old(heatSources), id, active)
    {
      var i := Find(id);
      UpdateFirstAt(heatSources, id, h => Activated(h, active));
      if i.Some? {
        var k := i.value;
        heatSources := heatSources[k := Activated(heatSources[k], active)];
      }
    }

    /** `updateHeatSourceIntensity(id, newIntensity)`: no range check on the new value. */
    method UpdateHeatSourceIntensity(id: string, newIntensity: real)
      requires Valid()
      modifies this`heatSources
      ensures Valid()
      ensures heatSources == WithIntensity(old(heatSources), id, newIntensity)
    {
      var i := Find(id);
      UpdateFirstAt(heatSources, id, h => Intensified(h, newIntensity));
      if i.Some? {
        var k := i.value;
        heatSources := heatSources[k := Intensified(heatSources[k], newIntensity)];
      }
    }

    /** `calculateGlobalHeatLevel()`: computes the mean and stores it. */
    method CalculateGlobalHeatLevel() returns (level: real)
      modifies this`globalHeatLevel
      ensures level == globalHeatLevel == GlobalHeat(heatSources)
    {
      var total := 0.0;
      var count := 0;
      for i := 0 to |heatSources|
        invariant total == ActiveSum(heatSources[..i])
        invariant count == ActiveCount(heatSources[..i])
      {
        assert heatSources[..i + 1][..i] == heatSources[..i];
        if heatSources[i].active {
          total := total + heatSources[i].intensity;
          count := count + 1;
        }
      }
      assert heatSources[..|heatSources|] == heatSources;
      globalHeatLevel := if count > 0 then total / count as real else 0.0;
      level := globalHeatLevel;
    }

    /** `getTemperatureAtPosition(position)`, given the distance from the position to each source. */
    method GetTemperatureAtPosition(distances: seq<real>) returns (t: real)
      requires DistancesFor(heatSources, distances)
      ensures t == Temperature(heatSources, distances)
    {
      var temperature := AmbientTemperature;
      for i := 0 to |heatSources|
        invariant temperature == AmbientTemperature + HeatSum(heatSources[..i], distances[..i])
      {
        assert heatSources[..i + 1][..i] == heatSources[..i];
        assert distances[..i + 1][..i] == distances[..i];
        var h := heatSources[i];
        var d := distances[i];
        if h.active && d < h.radius {
          var f := 1.0 - d / h.radius;
          temperature := temperature + h.intensity * HeatScale * (f * f);
        }
      }
      assert heatSources[..|heatSources|] == heatSources;
      assert distances[..|distances|] == distances;
      t := if temperature < MaxTemperature then temperature else MaxTemperature;
    }

    /** `updateLOD(cameraPosition)`, given the camera distance to each source. */
    method UpdateLOD(distances: seq<real>)
      requires Valid() && |distances| == |heatSources|
      modifies this`heatSources
      ensures Valid()
      ensures |heatSources| == |old(heatSources)|
      ensures forall k :: 0 <= k < |heatSources| ==> heatSources[k] == WithDetail(old(heatSources)[k], distances[k])
    {
      for i := 0 to |heatSources|
        invariant |heatSources| == |old(heatSources)|
        invariant forall k :: 0 <= k < i ==> heatSources[k] == WithDetail(old(heatSources)[k], distances[k])
        invariant forall k :: i <= k < |heatSources| ==> heatSources[k] == old(heatSources)[k]
      {
        heatSources := heatSources[i := WithDetail(heatSources[i], distances[i])];
      }
    }

    /**
     * `getDebugInfo()`, given the distance from the origin to each source
     * for the temperature field. It recomputes and stores the global level.
     */
    method GetDebugInfo(originDistances: seq<real>) returns (info: HeatDebugInfo)
      requires Valid() && DistancesFor(heatSources, originDistances)
      modifies this`globalHeatLevel
      ensures globalHeatLevel == GlobalHeat(heatSources)
      ensures info.heatSourceCount == |heatSources|
      ensures info.activeHeatSources == ActiveCount(heatSources) <= info.heatSourceCount
      ensures info.globalHeatLevel == GlobalHeat(heatSources)
      ensures info.totalParticles == TotalParticles(heatSources)
      ensures info.totalLights == TotalLights(heatSources) >= info.heatSourceCount
      ensures info.averageTemperature == Temperature(heatSources, originDistances) <= MaxTemperature
    {
      var level := CalculateGlobalHeatLevel();
      var temperature := GetTemperatureAtPosition(originDistances);
      LightsCoverSources(heatSources);
      TemperatureBounds(heatSources, originDistances);
      info := HeatDebugInfo(|heatSources|, ActiveCount(heatSources), level,
                            TotalParticles(heatSources), TotalLights(heatSources), temperature);
    }

    /**
     * `dispose()` as written: `removeHeatSource` runs inside a `forEach` over
     * the list it splices, then the list is cleared anyway.
     */
    method DisposeAsWritten()
      requires Valid()
      modifies this
      ensures Valid()
      ensures heatSources == [] && globalHeatLevel == 0.0
      ensures released == old(released) + ForEachRemoved(old(heatSources), 0)
    {
      ghost var goal := released + ForEachRemoved(heatSources, 0);
      var k := 0;
      while k < |heatSources|
        invariant Valid()
        invariant goal == released + ForEachRemoved(heatSources, k)
        decreases |heatSources| - k
      {
        ghost var before, log := heatSources, released;
        var id := heatSources[k].id;
        RemoveHeatSource(id);
        ForEachStep(before, k, log);
        k := k + 1;
      }
      heatSources := [];
      globalHeatLevel := 0.0;
    }

    /** `dispose()` walking a snapshot of the list, so that every source is released. */
    method Dispose()
      requires Valid()
      modifies this
      ensures Valid()
      ensures heatSources == [] && globalHeatLevel == 0.0
      ensures released == old(released) + old(heatSources)
    {
      var all := heatSources;
      for i := 0 to |all|
        invariant Valid()
        invariant heatSources == all[i..]
        invariant released == old(released) + all[..i]
      {
        assert all[i..][0] == all[i];
        RemoveHeatSource(all[i].id);
        assert all[i..][1..] == all[i + 1..];
        assert all[..i + 1] == all[..i] + [all[i]];
      }
      heatSources := [];
      globalHeatLevel := 0.0;
    }
  }
}
