/**
  Weight normalisation and state blending of the dynamic weather system
  (Assets/WeatherAssets/Scripts/DynamicWeatherSystem.cs).

  Every `float` of the source is a `real` here: the statements below are
  about ideal arithmetic, not about IEEE-754 rounding.
 */
module Weather {

  datatype Option<T> = None | Some(value: T)

  /** A colour with Unity's four channels. The three-argument constructor of
      Unity's Color sets alpha to 1; `+` and `*` act on all four channels. */
  datatype Color = Color(r: real, g: real, b: real, a: real)

  function Rgb(r: real, g: real, b: real): (c: Color)
    ensures c.a == 1.0
  {
    Color(r, g, b, 1.0)
  }

  function Add(c: Color, d: Color): (s: Color)
  {
    Color(c.r + d.r, c.g + d.g, c.b + d.b, c.a + d.a)
  }

  function Scale(c: Color, w: real): (s: Color)
  {
    Color(c.r * w, c.g * w, c.b * w, c.a * w)
  }

  /** The colour arithmetic the blend relies on: transparent black is the
      identity of `+`, opaque black adds one to alpha, and weight 1 leaves a
      colour alone. */
  lemma ColorArithmetic(c: Color, d: Color)
    ensures Add(Color(0.0, 0.0, 0.0, 0.0), c) == c
    ensures Add(Rgb(0.0, 0.0, 0.0), c) == c.(a := c.a + 1.0)
    ensures Add(c, d) == Add(d, c)
    ensures Scale(c, 1.0) == c
  {
  }

  /** The `WeatherStateSettings` struct. */
  datatype WeatherStateSettings = WeatherStateSettings(
    sunIntensity: real,
    skylightIntensity: real,
    fogDensity: real,
    fogColor: Color)

  /** The seven scalar quantities a blend treats separately. */
  datatype Channel = SunIntensity | SkylightIntensity | FogDensity
                   | FogRed | FogGreen | FogBlue | FogAlpha

  function Get(s: WeatherStateSettings, c: Channel): (v: real)
  {
    match c
    case SunIntensity => s.sunIntensity
    case SkylightIntensity => s.skylightIntensity
    case FogDensity => s.fogDensity
    case FogRed => s.fogColor.r
    case FogGreen => s.fogColor.g
    case FogBlue => s.fogColor.b
    case FogAlpha => s.fogColor.a
  }

  /** The serialized fields of the component that the modelled code reads.
      The code under model never assigns them. */
  datatype WeatherSystem = WeatherSystem(
    dayNightWeight: real,
    rainWeight: real,
    snowWeight: real,
    sunny: WeatherStateSettings,
    raining: WeatherStateSettings,
    snowing: WeatherStateSettings,
    moonWeightIntensity: real,
    rainMaxParticles: real,
    snowMaxParticles: real)

  /** The field initialisers of the component. */
  const Defaults := WeatherSystem(
    0.35, 0.0, 0.0,
    WeatherStateSettings(1.2, 1.0, 0.003, Rgb(0.7, 0.7, 0.7)),
    WeatherStateSettings(0.03, 0.05, 0.03, Rgb(0.45, 0.45, 0.5)),
    WeatherStateSettings(0.02, 0.1, 0.03, Rgb(0.5, 0.5, 0.5)),
    0.4, 20000.0, 5000.0)

  /** The inspector's `[Range]` limits for one weather state. */
  predicate SettingsInRange(s: WeatherStateSettings)
  {
    0.0 <= s.sunIntensity <= 20.0 && 0.0 <= s.skylightIntensity <= 20.0 && 0.0 <= s.fogDensity <= 0.1
  }

  /** The inspector's `[Range]` limits for the whole component. */
  predicate InInspectorRanges(sys: WeatherSystem)
  {
    && 0.0 <= sys.dayNightWeight <= 1.0 && 0.0 <= sys.rainWeight <= 1.0 && 0.0 <= sys.snowWeight <= 1.0
    && SettingsInRange(sys.sunny) && SettingsInRange(sys.raining) && SettingsInRange(sys.snowing)
    && 0.0 <= sys.moonWeightIntensity <= 3.0
    && 0.0 <= sys.rainMaxParticles <= 30000.0 && 0.0 <= sys.snowMaxParticles <= 10000.0
  }

  /** The field initialisers respect the inspector's limits and describe a
      clear day: no rain, no snow, and opaque fog colours. */
  lemma DefaultsInInspectorRanges()
    ensures InInspectorRanges(Defaults)
    ensures Defaults.rainWeight == 0.0 && Defaults.snowWeight == 0.0
    ensures Defaults.sunny.fogColor.a == Defaults.raining.fogColor.a == Defaults.snowing.fogColor.a == 1.0
  {
  }

  function Max(x: real, y: real): (m: real)
    ensures m >= x && m >= y && (m == x || m == y)
  {
    if x >= y then x else y
  }

  function Min3(x: real, y: real, z: real): (m: real)
    ensures m <= x && m <= y && m <= z && (m == x || m == y || m == z)
  {
    if x <= y && x <= z then x else if y <= z then y else z
  }

  function Max3(x: real, y: real, z: real): (m: real)
    ensures m >= x && m >= y && m >= z && (m == x || m == y || m == z)
  {
    if x >= y && x >= z then x else if y >= z then y else z
  }

  // ---------------------------------------------------------------------------
  // Specification functions
  // ---------------------------------------------------------------------------

  /** Sum of a sequence, accumulated from the left as the source's loops do. */
  function Sum(s: seq<real>): (total: real)
  {
    if s == [] then 0.0 else Sum(s[..|s| - 1]) + s[|s| - 1]
  }

  /** The normalised weight vector [clear, rain, snow]: the clear weight is
      max(1 - (rain + snow), 0) and all three are divided by max(1, rain + snow). */
  function NormalisedWeights(rain: real, snow: real): (w: seq<real>)
    ensures |w| == 3
  {
    var t := Max(1.0, rain + snow);
    [Max(1.0 - (rain + snow), 0.0) / t, rain / t, snow / t]
  }

  /** Σ_{i < n} xs[i] * ws[i], from the left. */
  function Dot(xs: seq<real>, ws: seq<real>, n: nat): (total: real)
    requires n <= |xs| && n <= |ws|
  {
    if n == 0 then 0.0 else Dot(xs, ws, n - 1) + xs[n - 1] * ws[n - 1]
  }

  /** One channel of every setting, in order. */
  function Column(settings: seq<WeatherStateSettings>, c: Channel): (col: seq<real>)
    ensures |col| == |settings|
    ensures forall i :: 0 <= i < |settings| ==> col[i] == Get(settings[i], c)
  {
    seq(|settings|, i requires 0 <= i < |settings| => Get(settings[i], c))
  }

  /** Σ_{i < n} Get(settings[i], c) * weights[i]. */
  function Accumulate(settings: seq<WeatherStateSettings>, weights: seq<real>, c: Channel, n: nat): (total: real)
    requires n <= |settings| <= |weights|
  {
    Dot(Column(settings, c), weights, n)
  }

  /** The weighted sum of the settings, field by field and colour channel by
      colour channel, with the colour accumulator starting at `start`. */
  function BlendFrom(start: Color, settings: seq<WeatherStateSettings>, weights: seq<real>): (r: WeatherStateSettings)
    requires |settings| <= |weights|
  {
    var n := |settings|;
    WeatherStateSettings(
      Accumulate(settings, weights, SunIntensity, n),
      Accumulate(settings, weights, SkylightIntensity, n),
      Accumulate(settings, weights, FogDensity, n),
      Color(start.r + Accumulate(settings, weights, FogRed, n),
            start.g + Accumulate(settings, weights, FogGreen, n),
            start.b + Accumulate(settings, weights, FogBlue, n),
            start.a + Accumulate(settings, weights, FogAlpha, n)))
  }

  /** The blend the weighted sum is evidently meant to be: every channel,
      alpha included, starts from zero. */
  function Blend(settings: seq<WeatherStateSettings>, weights: seq<real>): (r: WeatherStateSettings)
    requires |settings| <= |weights|
  {
    BlendFrom(Color(0.0, 0.0, 0.0, 0.0), settings, weights)
  }

  /** The blend as the source writes it: the colour accumulator is
      `new Color(0, 0, 0)`, which is opaque black (alpha 1). It agrees with
      the zero-start blend in every field and channel except fog alpha,
      which is exactly one more. */
  function BlendAsWritten(settings: seq<WeatherStateSettings>, weights: seq<real>): (r: WeatherStateSettings)
    requires |settings| <= |weights|
    ensures var b := Blend(settings, weights);
            r == WeatherStateSettings(b.sunIntensity, b.skylightIntensity, b.fogDensity,
                                      Color(b.fogColor.r, b.fogColor.g, b.fogColor.b, b.fogColor.a + 1.0))
  {
    BlendFrom(Rgb(0.0, 0.0, 0.0), settings, weights)
  }

  function Presets(sys: WeatherSystem): (p: seq<WeatherStateSettings>)
  {
    [sys.sunny, sys.raining, sys.snowing]
  }

  /** The state `GetBlendedState` returns for a configuration. */
  function BlendedState(sys: WeatherSystem): (r: WeatherStateSettings)
  {
    BlendAsWritten(Presets(sys), NormalisedWeights(sys.rainWeight, sys.snowWeight))
  }

  /** The state the blend is evidently meant to give: the same weighted sum
      with the fog colour accumulated from transparent black. */
  function IntendedBlendedState(sys: WeatherSystem): (r: WeatherStateSettings)
  {
    Blend(Presets(sys), NormalisedWeights(sys.rainWeight, sys.snowWeight))
  }

  // ---------------------------------------------------------------------------
  // The helpers, as the source computes them
  // ---------------------------------------------------------------------------

  /** `GetBaseWeight`: 1 minus every weight, floored at 0. */
  method GetBaseWeight(weights: seq<real>) returns (r: real)
    ensures r >= 0.0 && r >= 1.0 - Sum(weights)
    ensures r == 0.0 || r == 1.0 - Sum(weights)
  {
    var rtrn := 1.0;
    var i := 0;
    while i < |weights|
      invariant 0 <= i <= |weights|
      invariant rtrn == 1.0 - Sum(weights[..i])
    {
      assert weights[..i + 1][..i] == weights[..i];
      rtrn := rtrn - weights[i];
      i := i + 1;
    }
    assert weights[..i] == weights;
    r := Max(rtrn, 0.0);
  }

  lemma SumOfTwo(x: real, y: real)
    ensures Sum([x, y]) == x + y
  {
    assert [x, y][..1] == [x];
    assert [x][..0] == [];
    assert Sum([x]) == x;
  }

  lemma SumOfThree(x: real, y: real, z: real)
    ensures Sum([x, y, z]) == x + y + z
  {
    assert [x, y, z][..2] == [x, y];
    SumOfTwo(x, y);
  }

  /** The sum `GetWeights` divides by is max(1, rain + snow), whatever the
      signs of the two weights, so it is never zero. */
  lemma {:induction false} NormalisingSum(rain: real, snow: real)
    ensures Sum([Max(1.0 - (rain + snow), 0.0), rain, snow]) == Max(1.0, rain + snow)
    ensures Max(1.0, rain + snow) >= 1.0
  {
    SumOfThree(Max(1.0 - (rain + snow), 0.0), rain, snow);
  }

  /** `GetWeights`: [base, rain, snow], each divided in place by their sum. */
  method GetWeights(sys: WeatherSystem) returns (w: seq<real>)
    ensures w == NormalisedWeights(sys.rainWeight, sys.snowWeight)
  {
    var rain, snow := sys.rainWeight, sys.snowWeight;
    SumOfTwo(rain, snow);
    var base := GetBaseWeight([rain, snow]);
    var dynamicWeights := new real[3];
    dynamicWeights[0], dynamicWeights[1], dynamicWeights[2] := base, rain, snow;
    ghost var raw := dynamicWeights[..];
    assert raw == [base, rain, snow];
    var sum := SumOf(dynamicWeights);
    NormalisingSum(rain, snow);
    DivideAll(dynamicWeights, sum);
    w := dynamicWeights[..];
    assert w == [raw[0] / sum, raw[1] / sum, raw[2] / sum];
  }

  /** The `foreach` loop of `GetWeights` that totals the weights. */
  method SumOf(a: array<real>) returns (sum: real)
    ensures sum == Sum(a[..])
  {
    sum := 0.0;
    var i := 0;
    while i < a.Length
      invariant 0 <= i <= a.Length
      invariant sum == Sum(a[..i])
    {
      SumStep(a[..], i + 1);
      assert a[..][..i] == a[..i] && a[..][..i + 1] == a[..i + 1];
      sum := sum + a[i];
      i := i + 1;
    }
    assert a[..i] == a[..];
  }

  /** The loop of `GetWeights` that divides every weight by the total, in place. */
  method DivideAll(a: array<real>, d: real)
    requires d != 0.0
    modifies a
    ensures forall j :: 0 <= j < a.Length ==> a[j] == old(a[j]) / d
  {
    var i := 0;
    while i < a.Length
      invariant 0 <= i <= a.Length
      invariant forall j :: 0 <= j < i ==> a[j] == old(a[j]) / d
      invariant forall j :: i <= j < a.Length ==> a[j] == old(a[j])
    {
      a[i] := a[i] / d;
      i := i + 1;
    }
  }

  /** `GetBlendedState_selective`: the weighted sum of the settings, with the
      colour accumulator starting, as in the source, at opaque black. */
  method GetBlendedStateSelective(settings: seq<WeatherStateSettings>, weights: seq<real>)
    returns (r: WeatherStateSettings)
    requires |settings| <= |weights|
    ensures r == BlendAsWritten(settings, weights)
  {
    var sun, sky, fog := 0.0, 0.0, 0.0;
    var fogColor := Rgb(0.0, 0.0, 0.0);
    var i := 0;
    while i < |settings|
      invariant 0 <= i <= |settings|
      invariant sun == Accumulate(settings, weights, SunIntensity, i)
      invariant sky == Accumulate(settings, weights, SkylightIntensity, i)
      invariant fog == Accumulate(settings, weights, FogDensity, i)
      invariant fogColor == Color(Accumulate(settings, weights, FogRed, i),
                                  Accumulate(settings, weights, FogGreen, i),
                                  Accumulate(settings, weights, FogBlue, i),
                                  1.0 + Accumulate(settings, weights, FogAlpha, i))
    {
      sun := sun + settings[i].sunIntensity * weights[i];
      sky := sky + settings[i].skylightIntensity * weights[i];
      fog := fog + settings[i].fogDensity * weights[i];
      fogColor := Add(fogColor, Scale(settings[i].fogColor, weights[i]));
      i := i + 1;
    }
    r := WeatherStateSettings(sun, sky, fog, fogColor);
  }

  /** `GetBlendedState`: blend the Sunny, Raining and Snowing presets with the
      normalised weights. */
  method GetBlendedState(sys: WeatherSystem) returns (r: WeatherStateSettings)
    ensures r == BlendedState(sys)
  {
    var w := GetWeights(sys);
    r := GetBlendedStateSelective([sys.sunny, sys.raining, sys.snowing], w);
  }

  // ---------------------------------------------------------------------------
  // Properties of the weights
  // ---------------------------------------------------------------------------

  /** The normalised weights always sum to 1, whatever the signs of rain
      and snow. */
  lemma WeightsSumToOne(rain: real, snow: real)
    ensures |NormalisedWeights(rain, snow)| == 3
    ensures Sum(NormalisedWeights(rain, snow)) == 1.0
  {
    var t := Max(1.0, rain + snow);
    var base := Max(1.0 - (rain + snow), 0.0);
    var w := NormalisedWeights(rain, snow);
    SumOfThree(w[0], w[1], w[2]);
    NormalisingSum(rain, snow);
    SumOfThree(base, rain, snow);
    DivideSum(base, rain, snow, t);
  }

  /** For non-negative rain and snow every normalised weight lies in [0, 1]. */
  lemma WeightsInUnitRange(rain: real, snow: real)
    requires rain >= 0.0 && snow >= 0.0
    ensures forall i :: 0 <= i < |NormalisedWeights(rain, snow)| ==> 0.0 <= NormalisedWeights(rain, snow)[i] <= 1.0
  {
    var t := Max(1.0, rain + snow);
    DivideInUnit(Max(1.0 - (rain + snow), 0.0), t);
    DivideInUnit(rain, t);
    DivideInUnit(snow, t);
  }

  lemma DivideInUnit(x: real, t: real)
    requires 0.0 <= x <= t && t > 0.0
    ensures 0.0 <= x / t <= 1.0
  {
  }

  lemma DivideSum(x: real, y: real, z: real, t: real)
    requires t > 0.0 && x + y + z == t
    ensures x / t + y / t + z / t == 1.0
  {
    assert x / t + y / t + z / t == (x + y + z) / t;
  }

  /** When rain + snow is at most 1, normalisation changes nothing. */
  lemma LightWeatherIsNotRescaled(rain: real, snow: real)
    requires rain + snow <= 1.0
    ensures NormalisedWeights(rain, snow) == [1.0 - rain - snow, rain, snow]
  {
  }

  /** When rain + snow exceeds 1, the clear weight is 0 and rain and snow are
      each divided by their total. */
  lemma HeavyWeatherIsRescaled(rain: real, snow: real)
    requires rain + snow > 1.0
    ensures NormalisedWeights(rain, snow) == [0.0, rain / (rain + snow), snow / (rain + snow)]
  {
  }

  // ---------------------------------------------------------------------------
  // Properties of the blend
  // ---------------------------------------------------------------------------

  lemma MulBounds(x: real, w: real, lo: real, hi: real)
    requires w >= 0.0 && lo <= x <= hi
    ensures lo * w <= x * w <= hi * w
  {
  }

  lemma SumStep(weights: seq<real>, n: nat)
    requires 0 < n <= |weights|
    ensures Sum(weights[..n]) == Sum(weights[..n - 1]) + weights[n - 1]
  {
    assert weights[..n][..n - 1] == weights[..n - 1];
  }

  /** Σ_{i < n} k * ws[i], from the left. */
  function ScaledSum(k: real, ws: seq<real>, n: nat): (total: real)
    requires n <= |ws|
  {
    if n == 0 then 0.0 else ScaledSum(k, ws, n - 1) + k * ws[n - 1]
  }

  lemma AddBounds(a: real, b: real, c: real, d: real, e: real, f: real)
    requires a <= b <= c && d <= e <= f
    ensures a + d <= b + e <= c + f
  {
  }

  /** With non-negative weights, the first n terms of a weighted sum lie
      between Σ lo * ws[i] and Σ hi * ws[i] when each of the first n values
      is in [lo, hi]. */
  lemma {:induction false} DotBounds(xs: seq<real>, ws: seq<real>, lo: real, hi: real, n: nat)
    requires n <= |xs| && n <= |ws|
    requires forall i :: 0 <= i < n ==> ws[i] >= 0.0 && lo <= xs[i] <= hi
    ensures ScaledSum(lo, ws, n) <= Dot(xs, ws, n) <= ScaledSum(hi, ws, n)
  {
    if n > 0 {
      DotBounds(xs, ws, lo, hi, n - 1);
      var x, w := xs[n - 1], ws[n - 1];
      MulBounds(x, w, lo, hi);
      AddBounds(ScaledSum(lo, ws, n - 1), Dot(xs, ws, n - 1), ScaledSum(hi, ws, n - 1),
                lo * w, x * w, hi * w);
    }
  }

  /** Every channel of `GetBlendedState_selective`'s result, for any number
      of settings and non-negative weights, lies between Σ lo * weights[i] and
      Σ hi * weights[i] when every setting has that channel in [lo, hi]. */
  lemma BlendBounds(settings: seq<WeatherStateSettings>, weights: seq<real>, c: Channel, lo: real, hi: real)
    requires |settings| <= |weights|
    requires forall i :: 0 <= i < |settings| ==> weights[i] >= 0.0
    requires forall i :: 0 <= i < |settings| ==> lo <= Get(settings[i], c) <= hi
    ensures ScaledSum(lo, weights, |settings|) <= Get(Blend(settings, weights), c)
    ensures Get(Blend(settings, weights), c) <= ScaledSum(hi, weights, |settings|)
  {
    DotBounds(Column(settings, c), weights, lo, hi, |settings|);
    BlendChannel(settings, weights, c);
  }

  /** A blend of three settings is w0 * first + w1 * second + w2 * third. */
  lemma AccumulateOfThree(x: WeatherStateSettings, y: WeatherStateSettings, z: WeatherStateSettings,
                          w: seq<real>, c: Channel)
    requires |w| >= 3
    ensures Accumulate([x, y, z], w, c, 3) == Get(x, c) * w[0] + Get(y, c) * w[1] + Get(z, c) * w[2]
  {
    var col := Column([x, y, z], c);
    assert Dot(col, w, 1) == Get(x, c) * w[0];
    assert Dot(col, w, 2) == Get(x, c) * w[0] + Get(y, c) * w[1];
  }

  lemma Distribute(k: real, a: real, b: real)
    ensures k * a + k * b == k * (a + b)
  {
  }

  /** Σ_{i < n} k * ws[i] == k * Σ_{i < n} ws[i]. */
  lemma {:induction false} ScaledSumIsProduct(k: real, ws: seq<real>, n: nat)
    requires n <= |ws|
    ensures ScaledSum(k, ws, n) == k * Sum(ws[..n])
  {
    if n == 0 {
      assert ws[..0] == [];
    } else {
      ScaledSumIsProduct(k, ws, n - 1);
      SumStep(ws, n);
      Distribute(k, Sum(ws[..n - 1]), ws[n - 1]);
    }
  }

  /** When the weights are non-negative and sum to one, every channel of the
      blend lies in any interval that holds that channel of every setting. */
  lemma BlendIsConvex(settings: seq<WeatherStateSettings>, weights: seq<real>, c: Channel, lo: real, hi: real)
    requires |settings| <= |weights|
    requires forall i :: 0 <= i < |settings| ==> weights[i] >= 0.0
    requires Sum(weights[..|settings|]) == 1.0
    requires forall i :: 0 <= i < |settings| ==> lo <= Get(settings[i], c) <= hi
    ensures lo <= Get(Blend(settings, weights), c) <= hi
  {
    BlendBounds(settings, weights, c, lo, hi);
    ScaledSumIsProduct(lo, weights, |settings|);
    ScaledSumIsProduct(hi, weights, |settings|);
  }

  lemma BlendChannel(settings: seq<WeatherStateSettings>, weights: seq<real>, c: Channel)
    requires |settings| <= |weights|
    ensures Get(Blend(settings, weights), c) == Accumulate(settings, weights, c, |settings|)
  {
  }

  /** The intended blend is a convex combination of the three presets: with
      non-negative rain and snow, each channel lies between the smallest and
      the largest value of that channel over Sunny, Raining and Snowing. */
  lemma IntendedStateIsConvex(sys: WeatherSystem, c: Channel)
    requires sys.rainWeight >= 0.0 && sys.snowWeight >= 0.0
    ensures Min3(Get(sys.sunny, c), Get(sys.raining, c), Get(sys.snowing, c))
              <= Get(IntendedBlendedState(sys), c)
              <= Max3(Get(sys.sunny, c), Get(sys.raining, c), Get(sys.snowing, c))
  {
    var w := NormalisedWeights(sys.rainWeight, sys.snowWeight);
    WeightsSumToOne(sys.rainWeight, sys.snowWeight);
    WeightsInUnitRange(sys.rainWeight, sys.snowWeight);
    assert w[..3] == w;
    var p := Presets(sys);
    var lo := Min3(Get(sys.sunny, c), Get(sys.raining, c), Get(sys.snowing, c));
    var hi := Max3(Get(sys.sunny, c), Get(sys.raining, c), Get(sys.snowing, c));
    assert forall i :: 0 <= i < |p| ==> lo <= Get(p[i], c) <= hi;
    BlendIsConvex(p, w, c, lo, hi);
  }

  /** With neither rain nor snow the intended blend is exactly the Sunny
      preset. */
  lemma ClearSkyIsSunny(sys: WeatherSystem)
    requires sys.rainWeight == 0.0 && sys.snowWeight == 0.0
    ensures IntendedBlendedState(sys) == sys.sunny
  {
    var w := NormalisedWeights(0.0, 0.0);
    assert w == [1.0, 0.0, 0.0];
    forall c: Channel
      ensures Get(IntendedBlendedState(sys), c) == Get(sys.sunny, c)
    {
      AccumulateOfThree(sys.sunny, sys.raining, sys.snowing, w, c);
      BlendChannel(Presets(sys), w, c);
    }
    var r := IntendedBlendedState(sys);
    assert Get(r, SunIntensity) == Get(sys.sunny, SunIntensity);
    assert Get(r, SkylightIntensity) == Get(sys.sunny, SkylightIntensity);
    assert Get(r, FogDensity) == Get(sys.sunny, FogDensity);
    assert Get(r, FogRed) == Get(sys.sunny, FogRed);
    assert Get(r, FogGreen) == Get(sys.sunny, FogGreen);
    assert Get(r, FogBlue) == Get(sys.sunny, FogBlue);
    assert Get(r, FogAlpha) == Get(sys.sunny, FogAlpha);
    assert r.fogColor == sys.sunny.fogColor;
  }

  /** The state the source computes: with non-negative rain and snow, every
      field and the red, green and blue fog channels lie between the smallest
      and the largest preset value; the fog alpha lies one above that range. */
  lemma BlendedStateBounds(sys: WeatherSystem, c: Channel)
    requires sys.rainWeight >= 0.0 && sys.snowWeight >= 0.0
    ensures var off := if c == FogAlpha then 1.0 else 0.0;
            Min3(Get(sys.sunny, c), Get(sys.raining, c), Get(sys.snowing, c)) + off
              <= Get(BlendedState(sys), c)
              <= Max3(Get(sys.sunny, c), Get(sys.raining, c), Get(sys.snowing, c)) + off
  {
    IntendedStateIsConvex(sys, c);
  }

  /** Blending presets that respect the inspector's limits gives a state
      that respects them too. */
  lemma BlendedStateInRange(sys: WeatherSystem)
    requires InInspectorRanges(sys)
    ensures SettingsInRange(BlendedState(sys))
  {
    BlendedStateBounds(sys, SunIntensity);
    BlendedStateBounds(sys, SkylightIntensity);
    BlendedStateBounds(sys, FogDensity);
  }

  /** With neither rain nor snow the source's blend is the Sunny preset with
      its fog alpha raised by one. */
  lemma ClearSkyIsSunnyButFogAlpha(sys: WeatherSystem)
    requires sys.rainWeight == 0.0 && sys.snowWeight == 0.0
    ensures BlendedState(sys)
            == sys.sunny.(fogColor := sys.sunny.fogColor.(a := sys.sunny.fogColor.a + 1.0))
  {
    ClearSkyIsSunny(sys);
  }

  /** The counterexample: with the default presets and no rain or snow, the
      source's blend has fog alpha 2 and so is not the Sunny preset. */
  lemma AsWrittenClearSkyIsNotSunny()
    ensures BlendedState(Defaults).fogColor.a == 2.0
    ensures BlendedState(Defaults) != Defaults.sunny
  {
    ClearSkyIsSunnyButFogAlpha(Defaults);
  }

  // ---------------------------------------------------------------------------
  // The scalar formulas of UpdateWeather
  // ---------------------------------------------------------------------------

  /** Moon light: the sun's intensity weighted by MoonWeightIntensity. */
  function MoonIntensity(sunIntensity: real, moonWeight: real): (r: real)
  {
    sunIntensity * moonWeight
  }

  /** Particle emission rate of the rain or snow effect. */
  function EmissionRate(maxParticles: real, weight: real): (r: real)
  {
    maxParticles * weight * weight
  }

  /** Pitch, in degrees, of the sun's rotation. */
  function SunPitch(dayNightWeight: real): (degrees: real)
    ensures (degrees + 90.0) / 360.0 == dayNightWeight
  {
    dayNightWeight * 360.0 - 90.0
  }

  /** The emission rate is 0 without weather, the maximum at full weight,
      never negative, and grows with the weight. */
  lemma EmissionRateMonotone(maxParticles: real, w1: real, w2: real)
    requires maxParticles >= 0.0 && 0.0 <= w1 <= w2
    ensures 0.0 <= EmissionRate(maxParticles, w1) <= EmissionRate(maxParticles, w2)
    ensures EmissionRate(maxParticles, 0.0) == 0.0 && EmissionRate(maxParticles, 1.0) == maxParticles
    ensures w2 <= 1.0 ==> EmissionRate(maxParticles, w2) <= maxParticles
  {
    assert w1 * w1 <= w1 * w2 <= w2 * w2;
    assert 0.0 <= maxParticles * (w1 * w1) <= maxParticles * (w2 * w2);
    if w2 <= 1.0 {
      assert w2 * w2 <= w2 * 1.0 <= 1.0;
      assert maxParticles * (w2 * w2) <= maxParticles;
    }
  }

  /** Over the day [0, 1] the sun pitch sweeps from -90 (midnight, straight
      down) through 0 (horizon at 0.25) and 90 (noon, overhead) to 270, and
      one extra day is a full turn. */
  lemma SunPitchSweep(d1: real, d2: real)
    ensures SunPitch(0.0) == -90.0 && SunPitch(0.25) == 0.0 && SunPitch(0.5) == 90.0
    ensures SunPitch(0.75) == 180.0 && SunPitch(1.0) == 270.0
    ensures d1 < d2 ==> SunPitch(d1) < SunPitch(d2)
    ensures SunPitch(d1 + 1.0) == SunPitch(d1) + 360.0
    ensures 0.0 <= d1 <= 1.0 ==> -90.0 <= SunPitch(d1) <= 270.0
  {
  }

  /** The moon's intensity follows the blended sun intensity: with
      non-negative weights and moon weight it lies between the moon weight
      times the smallest and the largest preset sun intensity. */
  lemma MoonIntensityBounds(sys: WeatherSystem)
    requires sys.rainWeight >= 0.0 && sys.snowWeight >= 0.0 && sys.moonWeightIntensity >= 0.0
    ensures MoonIntensity(Min3(sys.sunny.sunIntensity, sys.raining.sunIntensity, sys.snowing.sunIntensity),
                          sys.moonWeightIntensity)
              <= MoonIntensity(BlendedState(sys).sunIntensity, sys.moonWeightIntensity)
              <= MoonIntensity(Max3(sys.sunny.sunIntensity, sys.raining.sunIntensity, sys.snowing.sunIntensity),
                               sys.moonWeightIntensity)
  {
    BlendedStateBounds(sys, SunIntensity);
    MulBounds(BlendedState(sys).sunIntensity, sys.moonWeightIntensity,
              Min3(sys.sunny.sunIntensity, sys.raining.sunIntensity, sys.snowing.sunIntensity),
              Max3(sys.sunny.sunIntensity, sys.raining.sunIntensity, sys.snowing.sunIntensity));
  }

  /** Which engine objects are present: the Sun and Moon lights, a sky
      material with an `_Exposure` property, and the two particle effects. */
  datatype Bindings = Bindings(hasSun: bool, hasMoon: bool, hasExposure: bool,
                               hasRainEffect: bool, hasSnowEffect: bool)

  /** The numbers `UpdateWeather` hands to the engine; None where the target
      object is absent and nothing is written. */
  datatype RenderOutputs = RenderOutputs(
    sunIntensity: Option<real>,
    sunPitch: Option<real>,
    moonIntensity: Option<real>,
    skyExposure: Option<real>,
    rainEmissionRate: Option<real>,
    snowEmissionRate: Option<real>,
    ambientIntensity: real,
    fogColor: Color,
    fogDensity: real)

  /** `UpdateWeather`, reduced to the numbers it writes. */
  method UpdateWeather(sys: WeatherSystem, b: Bindings) returns (out: RenderOutputs)
    ensures b.hasSun <==> out.sunIntensity.Some?
    ensures b.hasSun <==> out.sunPitch.Some?
    ensures b.hasMoon <==> out.moonIntensity.Some?
    ensures b.hasExposure <==> out.skyExposure.Some?
    ensures b.hasRainEffect <==> out.rainEmissionRate.Some?
    ensures b.hasSnowEffect <==> out.snowEmissionRate.Some?
    ensures b.hasSun ==> out.sunIntensity.value == BlendedState(sys).sunIntensity
    ensures b.hasSun ==> out.sunPitch.value == SunPitch(sys.dayNightWeight)
    ensures b.hasMoon ==> out.moonIntensity.value
                          == MoonIntensity(BlendedState(sys).sunIntensity, sys.moonWeightIntensity)
    ensures b.hasExposure ==> out.skyExposure.value == BlendedState(sys).skylightIntensity
    ensures b.hasRainEffect ==> out.rainEmissionRate.value
                                == EmissionRate(sys.rainMaxParticles, sys.rainWeight)
    ensures b.hasSnowEffect ==> out.snowEmissionRate.value
                                == EmissionRate(sys.snowMaxParticles, sys.snowWeight)
    ensures out.ambientIntensity == BlendedState(sys).skylightIntensity
    ensures out.fogColor == BlendedState(sys).fogColor
    ensures out.fogDensity == BlendedState(sys).fogDensity
  {
    var current := GetBlendedState(sys);
    var sunIntensity, sunPitch, moon, exposure, rainRate, snowRate := None, None, None, None, None, None;
    if b.hasSun {
      sunIntensity := Some(current.sunIntensity);
      sunPitch := Some(SunPitch(sys.dayNightWeight));
    }
    if b.hasMoon {
      moon := Some(MoonIntensity(current.sunIntensity, sys.moonWeightIntensity));
    }
    if b.hasExposure {
      exposure := Some(current.skylightIntensity);
    }
    if b.hasRainEffect {
      rainRate := Some(EmissionRate(sys.rainMaxParticles, sys.rainWeight));
    }
    if b.hasSnowEffect {
      snowRate := Some(EmissionRate(sys.snowMaxParticles, sys.snowWeight));
    }
    out := RenderOutputs(sunIntensity, sunPitch, moon, exposure, rainRate, snowRate,
                         current.skylightIntensity, current.fogColor, current.fogDensity);
  }
}
