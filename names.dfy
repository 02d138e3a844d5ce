/**
 * Resource names. The camera-info getters build each name as a fixed prefix followed by the
 * camera's window id written in decimal (a template literal `prefix${id}`); the shadow pass and
 * the main pass name per-light resources the same way with the light index.
 */
module Names {

  predicate IsDigit(c: char) { '0' <= c <= '9' }

  predicate IsLetter(c: char) { ('a' <= c <= 'z') || ('A' <= c <= 'Z') }

  predicate AllLetters(s: string) { forall k :: 0 <= k < |s| ==> IsLetter(s[k]) }

  predicate AllDigits(s: string) { forall k :: 0 <= k < |s| ==> IsDigit(s[k]) }

  function DigitChar(d: nat): (c: char)
    requires d < 10
    ensures IsDigit(c) && (c as int) - ('0' as int) == d
  {
    ('0' as int + d) as char
  }

  /** The decimal rendering of a non-negative integer, as JavaScript's number-to-string gives it. */
  function Decimal(n: nat): (s: string)
    ensures |s| >= 1 && AllDigits(s)
    ensures (|s| > 1) == (n >= 10)
    ensures s[0] != '0' || n == 0
  {
    if n < 10 then [DigitChar(n)] else Decimal(n / 10) + [DigitChar(n % 10)]
  }

  /** Reads a string of digits back as a number. */
  function ParseDecimal(s: string): nat
    requires AllDigits(s)
  {
    if |s| == 0 then 0
    else 10 * ParseDecimal(s[..|s| - 1]) + ((s[|s| - 1] as int) - ('0' as int))
  }

  lemma {:induction false} DecimalRoundTrip(n: nat)
    ensures ParseDecimal(Decimal(n)) == n
  {
    var s := Decimal(n);
    if n >= 10 {
      DecimalRoundTrip(n / 10);
      assert s[..|s| - 1] == Decimal(n / 10);
    }
  }

  lemma DecimalInjective(a: nat, b: nat)
    ensures Decimal(a) == Decimal(b) ==> a == b
  {
    DecimalRoundTrip(a);
    DecimalRoundTrip(b);
  }

  /** `prefix${id}`. */
  function Prefixed(prefix: string, id: nat): (name: string)
    ensures |name| > |prefix| && name[..|prefix|] == prefix
  {
    prefix + Decimal(id)
  }

  /**
   * Two prefixed names with all-letter prefixes coincide only when both the prefix and the
   * number coincide: the first digit ends the prefix.
   */
  lemma {:induction false} PrefixedInjective(p: string, q: string, i: nat, j: nat)
    requires AllLetters(p) && AllLetters(q)
    ensures Prefixed(p, i) == Prefixed(q, j) ==> p == q && i == j
  {
    if Prefixed(p, i) == Prefixed(q, j) {
      var s := Prefixed(p, i);
      if |p| != |q| {
        assert false;
      } else {
        assert p == s[..|p|] == q;
        assert Decimal(i) == s[|p|..] == Decimal(j);
        DecimalInjective(i, j);
      }
    }
  }

  // The prefixes of the camera-info name getters (camera-info.ts).
  const WindowColorPrefix := "windowColor"
  const WindowDepthStencilPrefix := "windowDepthStencil"
  const RadianceColorPrefix := "radianceColor"
  const DepthStencilPrefix := "depthStencil"
  const ScaledRadiancePrefix := "scaledRadiance"
  const ScaledDepthStencilPrefix := "scaledDepthStencil"
  const SssColorPrefix := "sssColor"
  const SssDepthStencilPrefix := "sssDepthStencil"
  const ShadowMapPrefix := "shadowMap"
  const ShadowDepthPrefix := "shadowDepth"
  const MsaaRadiancePrefix := "msaaRadiance"
  const MsaaDepthStencilPrefix := "msaaDepthStencil"

  // Per-light and per-probe prefixes (xq-shadowpass.ts, xq-mainpass.ts).
  const SpotShadowMapPrefix := "spotShadowMap"
  const SpotShadowDepthPrefix := "spotShadowDepth"
  const SpotShadowPassPrefix := "spotLightShadowPass"
  const PlanarProbeColorPrefix := "planarProbeRT"
  const PlanarProbeDepthPrefix := "planarProbeDS"
  const PlanarProbePassPrefix := "planarReflectionProbe"
  const CubeProbeColorPrefix := "cubeProbeRT"
  const CubeProbeDepthPrefix := "cubeProbeDS"
  const CubeProbePassPrefix := "cubeProbe"

  /** Every prefix the camera-info getters use, in declaration order. */
  const CameraPrefixes: seq<string> := [
    WindowColorPrefix, WindowDepthStencilPrefix, RadianceColorPrefix, DepthStencilPrefix,
    ScaledRadiancePrefix, ScaledDepthStencilPrefix, SssColorPrefix, SssDepthStencilPrefix,
    ShadowMapPrefix, ShadowDepthPrefix, MsaaRadiancePrefix, MsaaDepthStencilPrefix]

  function WindowColor(id: nat): string { Prefixed(WindowColorPrefix, id) }
  function WindowDepthStencil(id: nat): string { Prefixed(WindowDepthStencilPrefix, id) }
  function RadianceColor(id: nat): string { Prefixed(RadianceColorPrefix, id) }
  function DepthStencil(id: nat): string { Prefixed(DepthStencilPrefix, id) }
  function ScaledRadianceColor(id: nat): string { Prefixed(ScaledRadiancePrefix, id) }
  function ScaledDepthStencil(id: nat): string { Prefixed(ScaledDepthStencilPrefix, id) }
  function SssColor(id: nat): string { Prefixed(SssColorPrefix, id) }
  function SssDepthStencil(id: nat): string { Prefixed(SssDepthStencilPrefix, id) }
  function ShadowMap(id: nat): string { Prefixed(ShadowMapPrefix, id) }
  function ShadowDepth(id: nat): string { Prefixed(ShadowDepthPrefix, id) }
  function MsaaRadiance(id: nat): string { Prefixed(MsaaRadiancePrefix, id) }
  function MsaaDepthStencil(id: nat): string { Prefixed(MsaaDepthStencilPrefix, id) }

  function SpotShadowMap(i: nat): string { Prefixed(SpotShadowMapPrefix, i) }
  function SpotShadowDepth(i: nat): string { Prefixed(SpotShadowDepthPrefix, i) }

  lemma CameraPrefixesAreLetters()
    ensures forall k :: 0 <= k < |CameraPrefixes| ==> AllLetters(CameraPrefixes[k])
  {
    WindowPrefixesAreLetters();
    RadiancePrefixesAreLetters();
    ScaledPrefixesAreLetters();
    SssPrefixesAreLetters();
    ShadowPrefixesAreLetters();
    MsaaPrefixesAreLetters();
  }

  lemma WindowPrefixesAreLetters()
    ensures AllLetters(WindowColorPrefix) && AllLetters(WindowDepthStencilPrefix)
  {
  }

  lemma RadiancePrefixesAreLetters()
    ensures AllLetters(RadianceColorPrefix) && AllLetters(DepthStencilPrefix)
  {
  }

  lemma ScaledPrefixesAreLetters()
    ensures AllLetters(ScaledRadiancePrefix) && AllLetters(ScaledDepthStencilPrefix)
  {
  }

  lemma SssPrefixesAreLetters()
    ensures AllLetters(SssColorPrefix) && AllLetters(SssDepthStencilPrefix)
  {
  }

  lemma ShadowPrefixesAreLetters()
    ensures AllLetters(ShadowMapPrefix) && AllLetters(ShadowDepthPrefix)
  {
  }

  lemma MsaaPrefixesAreLetters()
    ensures AllLetters(MsaaRadiancePrefix) && AllLetters(MsaaDepthStencilPrefix)
  {
  }

  lemma CameraPrefixesDistinct()
    ensures forall a, b :: 0 <= a < b < |CameraPrefixes| ==> CameraPrefixes[a] != CameraPrefixes[b]
  {
  }

  /**
   * The camera resource names are pairwise distinct: two getters give the same name only when
   * they are the same getter applied to the same id. In particular the names are distinct for one
   * id and injective in the id for each prefix.
   */
  lemma CameraNamesDistinct(a: nat, b: nat, i: nat, j: nat)
    requires a < |CameraPrefixes| && b < |CameraPrefixes|
    ensures Prefixed(CameraPrefixes[a], i) == Prefixed(CameraPrefixes[b], j) <==> a == b && i == j
  {
    CameraPrefixesAreLetters();
    CameraPrefixesDistinct();
    PrefixedInjective(CameraPrefixes[a], CameraPrefixes[b], i, j);
  }

  /** Per-index spot shadow names: distinct indices give distinct names, maps never equal depths. */
  lemma SpotShadowNamesDistinct(i: nat, j: nat)
    ensures SpotShadowMap(i) == SpotShadowMap(j) <==> i == j
    ensures SpotShadowDepth(i) == SpotShadowDepth(j) <==> i == j
    ensures SpotShadowMap(i) != SpotShadowDepth(j)
  {
    assert AllLetters(SpotShadowMapPrefix) && AllLetters(SpotShadowDepthPrefix);
    PrefixedInjective(SpotShadowMapPrefix, SpotShadowMapPrefix, i, j);
    PrefixedInjective(SpotShadowDepthPrefix, SpotShadowDepthPrefix, i, j);
    PrefixedInjective(SpotShadowMapPrefix, SpotShadowDepthPrefix, i, j);
  }
}
