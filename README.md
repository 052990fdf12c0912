# Weather blending and player stats of KarmaAnimalRealm, in Dafny

This project models two pieces of arithmetic from the Unity game
KarmaAnimalRealm and proves properties of them.

- **`Weather`** (`Weather.dfy`) covers the dynamic weather system's weights and blending.
  - `GetBaseWeight` computes the "clear" weight as 1 minus the rain and snow weights, floored at 0.
  - `GetWeights` builds `[clear, rain, snow]` and divides every entry in place by the entries' total.
  - `GetBlendedState_selective` forms a weighted sum of `WeatherStateSettings`. It blends the sun intensity, skylight intensity, fog density and each of the fog colour's four channels separately. As in the source, the colour total starts at opaque black, so the fog alpha comes out one higher than a weighted average (see Findings).
  - `GetBlendedState` applies that blend to the Sunny, Raining and Snowing presets.
  - `UpdateWeather` maps the blended state to the engine (sun intensity and pitch, moon intensity, sky exposure, particle emission rates, ambient light and fog).

  The helper loops are methods with loop invariants. Each is proved equal to a recursive specification function (`Sum`, `Dot`, `Accumulate`, `Blend`, `NormalisedWeights`). Lemmas about those functions prove the following:
  - the normalising total is `max(1, rain + snow)`, so it is never zero;
  - the weights sum to 1;
  - light weather is not rescaled, and heavy weather is rescaled by `rain + snow`;
  - the source's blend, with non-negative rain and snow, keeps every field and the red, green and blue fog channels between the presets' minimum and maximum, while its fog alpha lies one above that range;
  - with no rain and no snow, the source's blend is the Sunny preset with its fog alpha raised by one;
  - the intended blend (`Blend`, with the colour total starting at transparent black) is convex in every channel, and with no rain and no snow it is exactly the Sunny preset.
- **`Stats`** (`Stats.dfy`) covers the stats manager. `StatsManager` is a class holding the `stats` array of `NUM_STATS = 4` entries.
  - `Start` fills the array with 100.
  - `ChangeStat(stat, num)` changes only the named stat, by the overshoot-then-snap rule.
  - `FixedUpdate` applies the stamina loss rate (−0.5) while the player moves and the gain rate (0.25) otherwise.

  The lemmas cover:
  - the one-step bounds and the snap back into range;
  - that updates of different stats do not interfere;
  - the relation between the two rates;
  - that over any sequence of ticks, stamina starting at 100 stays on the quarter grid within [−0.25, 100].

Every C# `float` is a Dafny `real`. The results hold under exact arithmetic and say nothing about IEEE-754 rounding. For example, the weights summing to exactly 1 is a statement about reals.

## Model

| member | source | states |
|---|---|---|
| `Weather.GetBaseWeight` | Assets/WeatherAssets/Scripts/DynamicWeatherSystem.cs:35-41 | The result is `max(1 − Σweights, 0)`: it is never negative, never below `1 − Σweights`, and equal to one of the two. |
| `Weather.NormalisingSum` | Assets/WeatherAssets/Scripts/DynamicWeatherSystem.cs:56-58 | The total of `[max(1 − (rain + snow), 0), rain, snow]` is `max(1, rain + snow)` for any signs, so it is at least 1 and the divisions never divide by zero. |
| `Weather.GetWeights` | Assets/WeatherAssets/Scripts/DynamicWeatherSystem.cs:43-65 | Returns exactly three weights, `[base, rain, snow]` in that order, each divided by their total. |
| `Weather.SumOf` | Assets/WeatherAssets/Scripts/DynamicWeatherSystem.cs:56-58 | The `foreach` total of the weight array equals `Sum` of its contents. |
| `Weather.DivideAll` | Assets/WeatherAssets/Scripts/DynamicWeatherSystem.cs:59-60 | The in-place division loop leaves each entry equal to its old value divided by the total. |
| `Weather.WeightsSumToOne` | Assets/WeatherAssets/Scripts/DynamicWeatherSystem.cs:43-65 | The normalised weights always have three entries summing to 1, whatever the signs of rain and snow. |
| `Weather.WeightsInUnitRange` | Assets/WeatherAssets/Scripts/DynamicWeatherSystem.cs:43-65 | With non-negative rain and snow, every normalised weight lies in [0, 1]. |
| `Weather.LightWeatherIsNotRescaled` | Assets/WeatherAssets/Scripts/DynamicWeatherSystem.cs:37-60 | If `rain + snow ≤ 1`, the weights are `[1 − rain − snow, rain, snow]` unchanged. |
| `Weather.HeavyWeatherIsRescaled` | Assets/WeatherAssets/Scripts/DynamicWeatherSystem.cs:37-60 | If `rain + snow > 1`, the clear weight is 0 and rain and snow are each divided by `rain + snow`. |
| `Weather.Rgb` | Assets/WeatherAssets/Scripts/DynamicWeatherSystem.cs:72 | Unity's three-argument `Color` constructor makes an opaque colour: alpha is 1. This behaviour comes from Unity's `Color` type, not from the shown code. |
| `Weather.Add` | Assets/WeatherAssets/Scripts/DynamicWeatherSystem.cs:79 | Unity's `Color` `+` adds all four channels, alpha included. This behaviour comes from Unity's `Color` type, not from the shown code. |
| `Weather.Scale` | Assets/WeatherAssets/Scripts/DynamicWeatherSystem.cs:79 | Unity's `Color * float` scales all four channels, alpha included. This behaviour comes from Unity's `Color` type, not from the shown code. |
| `Weather.ColorArithmetic` | Assets/WeatherAssets/Scripts/DynamicWeatherSystem.cs:72-79 | Under that channel arithmetic, transparent black is the identity of `+`, opaque black adds exactly 1 to alpha, `+` is commutative, and weight 1 leaves a colour unchanged. |
| `Weather.DefaultsInInspectorRanges` | Assets/WeatherAssets/Scripts/DynamicWeatherSystem.cs:102-159 | The field initialisers (`Defaults`) respect every `[Range]` limit of the inspector: sun and skylight in [0, 20], fog density in [0, 0.1], the three weights in [0, 1], moon weight in [0, 3], particle maxima in [0, 30000] and [0, 10000]. They start with no rain and no snow, and all three presets have opaque fog colours. |
| `Weather.BlendAsWritten` | Assets/WeatherAssets/Scripts/DynamicWeatherSystem.cs:69-87 | The source's blend agrees with the zero-start blend in every field and colour channel except fog alpha, which is exactly 1 more. |
| `Weather.GetBlendedStateSelective` | Assets/WeatherAssets/Scripts/DynamicWeatherSystem.cs:67-88 | Returns the source's blend, `BlendAsWritten`: each field is `Σ settings[i].field * weights[i]`, and the fog colour is blended per channel from an opaque-black start, so alpha is `1 + Σ alphaᵢ·wᵢ`. |
| `Weather.GetBlendedState` | Assets/WeatherAssets/Scripts/DynamicWeatherSystem.cs:92-100 | Returns `BlendedState`, the source's blend of Sunny, Raining and Snowing under the normalised `[clear, rain, snow]` weights. |
| `Weather.BlendBounds` | Assets/WeatherAssets/Scripts/DynamicWeatherSystem.cs:74-80 | For any number of settings with non-negative weights: if every setting has a channel in [lo, hi], the zero-start blended channel lies between `Σ lo·wᵢ` and `Σ hi·wᵢ`. |
| `Weather.BlendIsConvex` | Assets/WeatherAssets/Scripts/DynamicWeatherSystem.cs:74-80 | With non-negative weights summing to 1, each zero-start blended channel lies in any interval that holds that channel of every setting. |
| `Weather.BlendedStateBounds` | Assets/WeatherAssets/Scripts/DynamicWeatherSystem.cs:92-100 | The state the source computes, with non-negative rain and snow: every field and the red, green and blue fog channels lie between the minimum and maximum over Sunny, Raining and Snowing. Fog alpha lies in that range shifted up by 1. |
| `Weather.BlendedStateInRange` | Assets/WeatherAssets/Scripts/DynamicWeatherSystem.cs:20-28 | When the component respects the inspector's limits, the blended sun intensity, skylight intensity and fog density do too. |
| `Weather.ClearSkyIsSunnyButFogAlpha` | Assets/WeatherAssets/Scripts/DynamicWeatherSystem.cs:92-100 | With no rain and no snow, the source's blended state is the Sunny preset with its fog alpha raised by 1. |
| `Weather.AsWrittenClearSkyIsNotSunny` | Assets/WeatherAssets/Scripts/DynamicWeatherSystem.cs:72-80 | With the default presets and no rain or snow, the source's blend has fog alpha 2, so `GetBlendedState()` differs from Sunny. |
| `Weather.IntendedStateIsConvex` | Assets/WeatherAssets/Scripts/DynamicWeatherSystem.cs:92-100 | For the intended zero-start blend with non-negative rain and snow, every channel, fog alpha included, lies between the minimum and maximum over the three presets. |
| `Weather.ClearSkyIsSunny` | Assets/WeatherAssets/Scripts/DynamicWeatherSystem.cs:92-100 | For the intended zero-start blend with no rain and no snow, the result equals the Sunny preset in every field and channel. |
| `Weather.MoonIntensity` | Assets/WeatherAssets/Scripts/DynamicWeatherSystem.cs:220 | The moon's intensity is the blended sun intensity times `MoonWeightIntensity`. Its properties are stated by `MoonIntensityBounds`. |
| `Weather.EmissionRate` | Assets/WeatherAssets/Scripts/DynamicWeatherSystem.cs:231 | The rain or snow emission rate is `maxparticles · w · w`. Its properties are stated by `EmissionRateMonotone`. |
| `Weather.SunPitch` | Assets/WeatherAssets/Scripts/DynamicWeatherSystem.cs:215 | The pitch `DayNightWeight·360 − 90` determines the day fraction: `(pitch + 90) / 360` gives `DayNightWeight` back. |
| `Weather.EmissionRateMonotone` | Assets/WeatherAssets/Scripts/DynamicWeatherSystem.cs:228-238 | The emission rate `maxparticles·w·w` is 0 at w = 0 and maxparticles at w = 1. It is never negative, never decreases as w ≥ 0 grows, and stays within maxparticles for w ≤ 1. |
| `Weather.SunPitchSweep` | Assets/WeatherAssets/Scripts/DynamicWeatherSystem.cs:215 | The sun pitch is −90 at midnight, 0 at 0.25, 90 at noon and 270 at 1. It is strictly increasing, and one extra day adds a full turn. |
| `Weather.MoonIntensityBounds` | Assets/WeatherAssets/Scripts/DynamicWeatherSystem.cs:218-221 | The moon intensity lies between the moon weight times the smallest and the largest preset sun intensity. |
| `Weather.UpdateWeather` | Assets/WeatherAssets/Scripts/DynamicWeatherSystem.cs:208-243 | Each engine value is written exactly when its target is bound, and it equals the field of the source's blended state or the formula (sun, pitch, moon, exposure, rain and snow emission). Ambient intensity, fog colour (with the source's alpha) and fog density always come from that state. |
| `Stats.Index` | Assets/Scripts/StatsManager.cs:7-9 | The `(int)` cast of a `StatName` is an index below `NUM_STATS`. |
| `Stats.Step` | Assets/Scripts/StatsManager.cs:63-70 | One `ChangeStat` either adds `num` in full or snaps the stat to the bound on `num`'s side: 100 for a gain, 0 for a loss or zero change. |
| `Stats.Apply` | Assets/Scripts/StatsManager.cs:60-70 | The stats vector after one `ChangeStat` still has `NUM_STATS` entries. |
| `Stats.StaminaRate` | Assets/Scripts/StatsManager.cs:53-58 | The rate `FixedUpdate` applies is never 0, and it is negative exactly when the player moves. |
| `Stats.IndexIsInjective` | Assets/Scripts/StatsManager.cs:7-9 | Two stat names share an index only if they are the same name. |
| `Stats.StatsManager.constructor` | Assets/Scripts/StatsManager.cs:14-29 | The `stats` array has `NUM_STATS = 4` entries, all 0 as C# initialises them. |
| `Stats.StatsManager.Start` | Assets/Scripts/StatsManager.cs:32-36 | After `Start`, every one of the four stats equals 100. |
| `Stats.StatsManager.ChangeStat` | Assets/Scripts/StatsManager.cs:60-70 | The named stat becomes `Step(old value, num)`, and every other entry is unchanged. |
| `Stats.StatsManager.FixedUpdate` | Assets/Scripts/StatsManager.cs:53-58 | Stamina is changed by the loss rate when the player moves and by the gain rate otherwise; the other stats do not change. |
| `Stats.ApplyChangesOnlyThatStat` | Assets/Scripts/StatsManager.cs:60-70 | The update keeps four entries, changes the named one by `Step` and leaves the others equal. |
| `Stats.ApplyCommutes` | Assets/Scripts/StatsManager.cs:60-70 | Changes to two different stats give the same array in either order. |
| `Stats.GainStep` | Assets/Scripts/StatsManager.cs:63-66 | A gain on a stat below 100 is added in full, so the stat may end above 100 but by less than the gain. At or above 100 the stat becomes exactly 100. |
| `Stats.LossStep` | Assets/Scripts/StatsManager.cs:67-70 | A loss or zero change on a stat above 0 is added in full, so the stat may drop below 0 but by less than the loss. At or below 0 the stat becomes exactly 0. |
| `Stats.StepBounds` | Assets/Scripts/StatsManager.cs:63-70 | From [0, 100], a gain leaves the stat in [0, 100 + num] and a loss leaves it in [num, 100]. |
| `Stats.SnapBack` | Assets/Scripts/StatsManager.cs:63-70 | A stat above 100 snaps to 100 on the next gain; one below 0 snaps to 0 on the next loss. |
| `Stats.StaminaRates` | Assets/Scripts/StatsManager.cs:17-18 | The gain rate is 0.25 and the loss rate is −0.5, exactly −2 times the gain. |
| `Stats.GainTick` | Assets/Scripts/StatsManager.cs:57 | A gain tick from a quarter-grid value in [−0.25, 100] stays on the grid and in range. |
| `Stats.LossTick` | Assets/Scripts/StatsManager.cs:55 | A loss tick from a quarter-grid value in [−0.25, 100] stays on the grid and in range. |
| `Stats.StaminaTick` | Assets/Scripts/StatsManager.cs:53-58 | One `FixedUpdate` keeps stamina on the quarter grid within [−0.25, 100]. |
| `Stats.StaminaStaysInRange` | Assets/Scripts/StatsManager.cs:53-70 | For any sequence of moving and resting ticks, from a quarter-grid start in [−0.25, 100], stamina never exceeds 100 and drops at most one quarter below 0. |
| `Stats.FullStaminaOnGrid` | Assets/Scripts/StatsManager.cs:35-36 | The value 100 set by `Start` is on the quarter grid, so `StaminaStaysInRange` applies from the start of play. |

## Left out

- **Unity engine effects of `UpdateWeather`.**
  - Not modelled: `RenderSettings`, `Light`, `Material.SetFloat`, the particle `EmissionModule`, `Quaternion.Euler`, `Simulate` and `Clear`.
  - The model returns the numbers the code hands to those calls (`RenderOutputs`).
  - The Sun and Moon lights, the sky material with `_Exposure` and the two particle effects become the booleans of `Bindings`, because object presence is engine state.
  - The sun's rotation is reduced to its pitch angle.
- `Initialize`, `Awake`, the static `instance` singleton warning, the editor callbacks (`Update`, `UpdateEditor`, `Reset`, `OnValidate`) and the `Debug.Log` calls are not modelled. They are engine glue or logging.
- Weather.GetBlendedStateSelective: requires at least as many weights as settings. The source would throw `IndexOutOfRangeException` otherwise, and exceptions are not modelled.
- Weather.GetWeights: reads `RainWeight` and `SnowWeight` from a `WeatherSystem` value, not from the component's fields. The modelled code never assigns any field of the component, so no class is needed.
- Weather.WeightsInUnitRange, Weather.BlendedStateBounds and Weather.IntendedStateIsConvex require rain and snow to be non-negative. The inspector's `[Range(0, 1)]` enforces this, but code could assign a negative weight.
- Weather.MoonIntensity and Weather.EmissionRate: have no `ensures` of their own. Their properties are stated by `MoonIntensityBounds` and `EmissionRateMonotone`, which keeps the products out of every other proof.
- **IEEE-754 rounding** is not modelled. All floats are reals.
- **`StatsManager` UI** is not modelled:
  - the bar colours and prefab;
  - bar instantiation and `RectTransform` sizing and positioning in `Start` and `ChangeStat`;
  - `BAR_WIDTH`;
  - the overlay toggle in `Update`, driven by `Input.GetKey("tab")`.
- Stats.StatsManager.FixedUpdate: takes `moving` as a parameter. It abstracts the joystick test `Input.GetAxisRaw("Vertical") != 0 || Input.GetAxisRaw("Horizontal") != 0`, because input comes from the engine.
- `MushroomSpawner.cs`, `IconGenerator.cs`, `InventoryUIManager.cs`, `ItemSlot.cs`, `ItemObject.cs` and `GameManager.cs` are not part of this model. They consist of engine calls (physics, rendering, file I/O, audio, UI) over types that are not part of this model.

## Findings

| source | as written | input that shows it | evidently intended | confidence | as-written member | corrected member |
|---|---|---|---|---|---|---|
| Assets/WeatherAssets/Scripts/DynamicWeatherSystem.cs:72 | The fog colour accumulator is `new Color(0, 0, 0)`, which is opaque black (alpha 1). `Color`'s `+` and `*` act on alpha too, so the blended fog alpha is `1 + Σ wᵢ·alphaᵢ`. | RainWeight = SnowWeight = 0 with the default presets: every preset has alpha 1, so the blend has fog alpha 2 where Sunny has 1, and `GetBlendedState()` is not `Sunny`. | Accumulate from transparent black (alpha 0), so the blend is a convex combination in every channel and no rain and no snow gives exactly Sunny. | not executed; the alpha of the fog colour may not be visible in rendering | `Weather.AsWrittenClearSkyIsNotSunny` | `Weather.ClearSkyIsSunny` |
