/**
 * utils.ts: the process-wide jitter state used by TAA, the window-info cache keyed by render
 * window id, and the fixed subsurface-scattering profile table.
 */
module Utils {
  import opened Wrappers
  import opened Host
  import opened Windows

  // ---------------------------------------------------------------- jitter

  /** The 15 Halton sample offsets of `jitter._haltonTable`, in table order. */
  const HaltonTable: seq<(real, real)> := [
    (0.263385, -0.0252475),
    (-0.38545, 0.054485),
    (-0.139795, -0.5379925),
    (-0.2793775, 0.6875475),
    (0.7139025, 0.4710925),
    (0.90044, -0.16422),
    (0.4481775, -0.82799),
    (-0.9253375, -0.2910625),
    (0.3468025, 1.02292),
    (-1.13742, 0.33522),
    (-0.7676225, -0.9123175),
    (-0.2005775, -1.1774125),
    (-0.926525, 0.96876),
    (1.12909, -0.7500325),
    (0.9603, 1.14625)
  ]

  /** The jitter vector: the sample offset (x, y), the ping-pong flag z and the sample index w. */
  datatype JitterValue = JitterValue(x: real, y: real, z: int, w: int)

  /** The value of a new or reset jitter: (0, 0, -1, 0). */
  const InitialJitter := JitterValue(0.0, 0.0, -1, 0)

  /** The index is a valid table position and the flag is a sign. */
  predicate JitterInvariant(v: JitterValue) {
    0 <= v.w < 15 && (v.z == 1 || v.z == -1)
  }

  /** The entry at `i` of table `t`, reached by walking down the table. */
  function Lookup(t: seq<(real, real)>, i: nat): (real, real)
    requires i < |t|
    decreases i
  {
    if i == 0 then t[0] else Lookup(t[1..], i - 1)
  }

  lemma {:induction false} LookupIsIndex(t: seq<(real, real)>, i: nat)
    requires i < |t|
    ensures Lookup(t, i) == t[i]
    decreases i
  {
    if i > 0 {
      LookupIsIndex(t[1..], i - 1);
    }
  }

  /** One `jitter.update`: advance the index cyclically, load that sample, flip the flag. */
  function JitterStep(v: JitterValue): (r: JitterValue)
    requires JitterInvariant(v)
    ensures JitterInvariant(r)
    ensures r.w == (v.w + 1) % 15 && r.z == -v.z
  {
    // `w | 0` is the identity on an index in [0, 15), and JavaScript's `%` agrees with
    // Euclidean remainder on the non-negative `w + 1`.
    var next := (v.w + 1) % 15;
    var sample := Lookup(HaltonTable, next);
    JitterValue(sample.0, sample.1, -v.z, next)
  }

  /** After an update (x, y) is the table's sample at the new index. */
  lemma JitterStepSample(v: JitterValue)
    requires JitterInvariant(v)
    ensures (JitterStep(v).x, JitterStep(v).y) == HaltonTable[JitterStep(v).w]
  {
    LookupIsIndex(HaltonTable, JitterStep(v).w);
  }

  /** `n` consecutive updates. */
  function JitterSteps(v: JitterValue, n: nat): (r: JitterValue)
    requires JitterInvariant(v)
    ensures JitterInvariant(r)
    decreases n
  {
    if n == 0 then v else JitterStep(JitterSteps(v, n - 1))
  }

  /** Taking the remainder before adding one does not change the next index. */
  lemma NextIndexOfRemainder(x: int, a: int, b: int)
    requires a >= 0 && x == a % 15 && b == a + 1
    ensures (x + 1) % 15 == b % 15
  {
    var q := a / 15;
    assert a == 15 * q + x;
    if x < 14 {
      assert b == 15 * q + (x + 1);
    } else {
      assert b == 15 * (q + 1);
    }
  }

  /** After `n` updates the index has moved on by `n` modulo 15. */
  lemma {:induction false} JitterStepsIndex(v: JitterValue, n: nat)
    requires JitterInvariant(v)
    ensures JitterSteps(v, n).w == (v.w + n) % 15
    decreases n
  {
    if n > 0 {
      JitterStepsIndex(v, n - 1);
      IndexStep(v, n, JitterSteps(v, n - 1), v.w + (n - 1));
    }
  }

  /** One more update moves an index that is `a` modulo 15 to `a + 1` modulo 15. */
  lemma IndexStep(v: JitterValue, n: nat, prev: JitterValue, a: int)
    requires JitterInvariant(v) && n > 0 && prev == JitterSteps(v, n - 1)
    requires a >= 0 && prev.w == a % 15
    ensures JitterSteps(v, n).w == (a + 1) % 15
  {
    assert JitterSteps(v, n).w == JitterStep(prev).w;
    NextIndexOfRemainder(prev.w, a, a + 1);
  }

  /** After `n` updates the flag has flipped `n` times. */
  lemma {:induction false} JitterStepsFlag(v: JitterValue, n: nat)
    requires JitterInvariant(v)
    ensures JitterSteps(v, n).z == if n % 2 == 0 then v.z else -v.z
    decreases n
  {
    if n > 0 {
      var prev := JitterSteps(v, n - 1);
      JitterStepsFlag(v, n - 1);
      assert JitterSteps(v, n).z == JitterStep(prev).z;
      NextParity(n - 1, n);
    }
  }

  /** One more than an even number is odd, and one more than an odd number is even. */
  lemma NextParity(m: nat, n: nat)
    requires n == m + 1
    ensures n % 2 == 0 <==> m % 2 != 0
  {
    var q := m / 2;
    assert m == 2 * q + m % 2;
    if m % 2 == 0 {
      assert n == 2 * q + 1;
    } else {
      assert n == 2 * (q + 1);
    }
  }

  /**
   * Every run of 15 updates brings the index back to where it started and flips the flag once;
   * after at least one update (x, y) holds the sample of the current index.
   */
  lemma JitterPeriod(v: JitterValue, rounds: nat)
    requires JitterInvariant(v)
    ensures JitterSteps(v, 15 * rounds).w == v.w
    ensures JitterSteps(v, 15 * rounds).z == if rounds % 2 == 0 then v.z else -v.z
    ensures rounds >= 1 ==> var r := JitterSteps(v, 15 * rounds); (r.x, r.y) == HaltonTable[v.w]
  {
    JitterStepsIndex(v, 15 * rounds);
    JitterStepsFlag(v, 15 * rounds);
    WholeRounds(v.w, rounds);
    if rounds >= 1 {
      JitterStepSample(JitterSteps(v, 15 * rounds - 1));
    }
  }

  /** Adding whole rounds of 15 keeps an index and has the parity of the number of rounds. */
  lemma WholeRounds(index: int, rounds: nat)
    requires 0 <= index < 15
    ensures (index + 15 * rounds) % 15 == index
    ensures (15 * rounds) % 2 == rounds % 2
  {
    RemainderOf15(index + 15 * rounds, rounds, index);
    RemainderOf2(15 * rounds, 7 * rounds + rounds / 2, rounds % 2);
  }

  /** `m` is `q` fifteens plus `r` with `0 <= r < 15`, so `r` is its remainder. */
  lemma RemainderOf15(m: int, q: int, r: int)
    requires 0 <= r < 15 && m == 15 * q + r
    ensures m % 15 == r
  {
    var q', r' := m / 15, m % 15;
    assert m == 15 * q' + r';
    assert 15 * (q - q') == r' - r;
  }

  /** `m` is `q` twos plus `r` with `0 <= r < 2`, so `r` is its remainder. */
  lemma RemainderOf2(m: int, q: int, r: int)
    requires 0 <= r < 2 && m == 2 * q + r
    ensures m % 2 == r
  {
    var q', r' := m / 2, m % 2;
    assert m == 2 * q' + r';
    assert 2 * (q - q') == r' - r;
  }

  /** `pipelineUtils.jitter`: its `_v4` vector, updated in place. */
  class Jitter {
    var x: real
    var y: real
    var z: int
    var w: int

    /** The `value` getter. */
    function Value(): JitterValue
      reads this
    {
      JitterValue(x, y, z, w)
    }

    predicate Valid()
      reads this
    {
      JitterInvariant(Value())
    }

    constructor ()
      ensures Value() == InitialJitter && Valid()
    {
      x, y, z, w := 0.0, 0.0, -1, 0;
    }

    /** `update` */
    method Update()
      requires Valid()
      modifies this
      ensures Valid()
      ensures Value() == JitterStep(old(Value()))
    {
      var nextIndex := (w + 1) % 15;
      var sample := HaltonTable[nextIndex];
      LookupIsIndex(HaltonTable, nextIndex);
      x := sample.0;
      y := sample.1;
      z := -z;
      w := nextIndex;
    }

    /** `reset` */
    method Reset()
      modifies this
      ensures Value() == InitialJitter && Valid()
    {
      x, y, z, w := 0.0, 0.0, -1, 0;
    }
  }

  // ---------------------------------------------------------------- window-info cache

  /** `Math.max(Math.floor(size), 1)`: a window dimension as a whole number of at least one. */
  function NativeSize(size: real): (n: int)
    ensures n >= 1
    ensures size >= 1.0 ==> (n as real) <= size < (n as real) + 1.0
    ensures size < 2.0 ==> n == 1
  {
    Max(Floor(size), 1)
  }

  /** The shading scale the settings ask for: `enableShadingScale ? shadingScale : 1`. */
  function EffectiveScale(settings: Settings): (s: real)
    ensures !settings.enableShadingScale ==> s == 1.0
    ensures settings.enableShadingScale ==> s == settings.shadingScale
  {
    if settings.enableShadingScale then settings.shadingScale else 1.0
  }

  /**
   * The cached records after `updateWindowInfo(window)`, as sizes by window id: a new window gets
   * a record sized from the window and the settings; a cached one is set again only when its
   * floored native size changed; every other record is left as it was.
   */
  function RefreshedSizes(sizes: map<nat, WindowSize>, window: Window, settings: Settings): map<nat, WindowSize> {
    var id := window.renderWindowId;
    var resized := SetSize(id, NativeSize(window.width), NativeSize(window.height), EffectiveScale(settings));
    if id !in sizes then sizes[id := resized]
    else if sizes[id].nativeWidth == NativeSize(window.width) && sizes[id].nativeHeight == NativeSize(window.height)
    then sizes
    else sizes[id := resized]
  }

  /** `cameraUtils._windowInfo`: one record per render window. */
  class WindowInfoCache {
    var entries: map<nat, WindowInfo>

    /** Every record is stored under its own id, so no two keys share a record. */
    predicate Valid()
      reads this, entries.Values
    {
      forall k :: k in entries ==> entries[k].id == k
    }

    /** The records' contents by window id. */
    ghost function Sizes(): map<nat, WindowSize>
      reads this, entries.Values
    {
      map k | k in entries :: entries[k].Size()
    }

    constructor ()
      ensures entries == map[] && Valid()
    {
      entries := map[];
    }

    /**
     * `getWindowInfo`: the cached record of the camera's window, or a new record sized from the
     * window and the settings, inserted under the window id.
     */
    method GetWindowInfo(window: Window, settings: Settings) returns (info: WindowInfo)
      requires Valid()
      modifies this
      ensures Valid()
      ensures window.renderWindowId in old(entries) ==>
                info == old(entries)[window.renderWindowId] && entries == old(entries)
      ensures window.renderWindowId !in old(entries) ==>
                fresh(info) && entries == old(entries)[window.renderWindowId := info]
                && info.Size() == SetSize(window.renderWindowId, NativeSize(window.width),
                                          NativeSize(window.height), EffectiveScale(settings))
      ensures window.renderWindowId in entries && info == entries[window.renderWindowId]
    {
      if window.renderWindowId in entries {
        info := entries[window.renderWindowId];
        return;
      }
      var shadingScale := EffectiveScale(settings);
      var nativeWidth := NativeSize(window.width);
      var nativeHeight := NativeSize(window.height);
      info := new WindowInfo();
      info.Set(window.renderWindowId, nativeWidth, nativeHeight, shadingScale);
      entries := entries[info.id := info];
    }

    /**
     * `updateWindowInfo`: like `getWindowInfo` for a new window; a cached record is set again,
     * under its own id, only when the floored window size differs from the one it holds.
     */
    method UpdateWindowInfo(window: Window, settings: Settings) returns (info: WindowInfo)
      requires Valid()
      modifies this, entries.Values
      ensures Valid()
      ensures window.renderWindowId in entries && info == entries[window.renderWindowId]
      ensures window.renderWindowId !in old(entries) ==>
                fresh(info) && entries == old(entries)[window.renderWindowId := info]
                && info.Size() == SetSize(window.renderWindowId, NativeSize(window.width),
                                          NativeSize(window.height), EffectiveScale(settings))
      ensures window.renderWindowId in old(entries) ==>
                info == old(entries)[window.renderWindowId] && entries == old(entries)
                && info.Size() == if old(info.nativeWidth) == NativeSize(window.width)
                                     && old(info.nativeHeight) == NativeSize(window.height)
                                  then old(info.Size())
                                  else SetSize(window.renderWindowId, NativeSize(window.width),
                                               NativeSize(window.height), EffectiveScale(settings))
      ensures forall k :: k in old(entries) && k != window.renderWindowId ==>
                entries[k].Size() == old(entries[k].Size())
      ensures Sizes() == RefreshedSizes(old(Sizes()), window, settings)
    {
      if window.renderWindowId !in entries {
        info := GetWindowInfo(window, settings);
        return;
      }
      info := entries[window.renderWindowId];
      var nativeWidth := NativeSize(window.width);
      var nativeHeight := NativeSize(window.height);
      if info.nativeWidth != nativeWidth || info.nativeHeight != nativeHeight {
        var scale := EffectiveScale(settings);
        info.Set(info.id, nativeWidth, nativeHeight, scale);
      }
    }
  }

  // ---------------------------------------------------------------- SSS profiles

  /** `SSSSType`: Skin = 1, Jade = 2, Foliage = 3. */
  datatype SsssType = SkinType | JadeType | FoliageType

  function SsssTypeValue(t: SsssType): int {
    match t
    case SkinType => 1
    case JadeType => 2
    case FoliageType => 3
  }

  datatype SsssProfile = SsssProfile(kind: SsssType, scatteringFactor: seq<real>, falloff: seq<real>)

  const ProfileTable: seq<SsssProfile> := [
    SsssProfile(SkinType, [0.722, 0.67, 0.56], [1.0, 0.64, 0.58]),
    SsssProfile(JadeType, [0.96, 0.8, 0.56], [0.85, 0.89, 0.58]),
    SsssProfile(FoliageType, [0.75, 1.0, 0.55], [0.85, 1.0, 0.25])
  ]

  /** `getProfile(index)`: the table entry, or nothing (JavaScript's undefined) outside the table. */
  function GetProfile(index: int): (r: Option<SsssProfile>)
    ensures r.Some? <==> 0 <= index < 3
    ensures r.Some? ==> SsssTypeValue(r.value.kind) == index + 1
    ensures r.Some? ==> |r.value.scatteringFactor| == 3 && |r.value.falloff| == 3
  {
    if 0 <= index < |ProfileTable| then Some(ProfileTable[index]) else None
  }
}
