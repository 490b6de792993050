# Spazz proximity-to-signal logic, modelled in Dafny

Spazz is a prototype dating app. Two phones that come close to each other
"spazz": they flash and vibrate, and the closer the users are, the harder
they flash. This project models the decision logic behind that, taking the
distance between the two users (in kilometres, a `real`) as an input:

- `Rounding`: Python's `round` on a number, pinned to round half to even.
- `Intensity` (main.py): the quadratic mapper from distance to intensity.
  Beyond 0.5 km it gives 0. At 5 m or less it gives the "solid mode"
  sentinel 101. Anywhere between, it gives `round((1 - d/0.5)^2 * 100)`.
- `LinearIntensity` (Main.py): the older linear mapper `round((1 - d/0.5) * 100)`,
  which has no sentinel.
- `Coach` (main.py): `ego_shield_coach`, which replaces each feedback tag
  with a tip from a fixed table, or with a default tip.
- `Users`: the user record, a class whose fields the gates read and whose
  nudge cooldown `check_user_vibe` updates in place. Also the outbox, a log
  that stands in for the two notification calls.
- `Gates` (main.py): the gates `check_spazz_conditions`,
  `process_vicinity_check`, `should_we_spazz` and `check_user_vibe`.

The nudge cooldown is abstract. `User<C>` carries a cooldown state of an
arbitrary type `C`. The `can_be_nudged` test and the `update_nudge_cooldown`
step are passed in by the caller as `C -> bool` and `C -> C`. No cooldown
duration is assumed.

Where the code departs from the product's intended design, the model
follows the code:
- a full pulse in `check_user_vibe` needs only a one-way like (see
  Findings);
- `process_vicinity_check` nudges `user_b` whatever `user_a`'s duty state is;
- there is no block, age or preference check.

## Model

| member | source | states |
|---|---|---|
| `Rounding.Round` | main.py:30 | the result is the integer nearest the input, and the even one when the input lies exactly halfway |
| `Rounding.RoundMonotone` | main.py:30 | rounding keeps the order of its inputs |
| `Intensity.SpazzIntensity` | main.py:13-30 | 0 for every distance above 0.5 km; the sentinel 101 exactly when the distance is at most 0.005 km; otherwise a value in 0..98, never 99 to 101, so the sentinel always stands apart; in (0.005, 0.5] the nearest integer (half to even) to `(1 - d/0.5)^2 * 100` |
| `Intensity.FalloffMonotone` | main.py:29 | the unrounded quadratic falloff does not increase with distance, up to 0.5 km |
| `Intensity.SpazzIntensityMonotone` | main.py:17-30 | closer never means weaker: for d1 <= d2 the intensity at d2 is at most that at d1, for all reals, including (0.005, 0.5] |
| `Intensity.SilentFromMaxRange` | main.py:19-30 | from 0.5 km on, the intensity is 0; at exactly 0.5 km the rounded falloff is 0 |
| `Intensity.SpazzIntensityExamples` | main.py:24-30 | 0.01 km gives 96, 0.5 km gives 0, 0.004 km and 0 km give the sentinel 101 |
| `LinearIntensity.SpazzIntensity` | Main.py:13-17 | 0 above 0.5 km; for 0 <= d <= 0.5 a percentage in 0..100 that is the nearest integer (half to even) to `(1 - d/0.5) * 100`; exactly 100 at d = 0 |
| `LinearIntensity.NoSentinel` | Main.py:14-17 | no non-negative distance gives 101 |
| `LinearIntensity.SpazzIntensityMonotone` | Main.py:17 | non-increasing in the distance for all reals, including [0, 0.5] |
| `Coach.EgoShieldCoach` | main.py:45-58 | one tip per tag, same length and order; a known tag (weight, hair, breath, hygiene) gets its table entry; a tip is the default "Keep leveling up! You got this." exactly when its tag is unknown |
| `Coach.EgoShieldCoachAppend` | main.py:58 | coaching is tag by tag: coaching `xs + ys` gives the tips for `xs` followed by those for `ys` |
| `Users.User.UpdateNudgeCooldown` | main.py:118 | the cooldown state becomes the recorded-nudge update of the old one; nothing else in the user changes |
| `Users.Outbox.Send` | main.py:110-111 | one notification (channel, target id, message, optional intensity) is appended to the log |
| `Gates.CheckSpazzConditions` | main.py:65-73 | nonzero only when d < 0.5, both users are on the clock and each has liked the other; then it equals the mapper's intensity; always within 0..101 |
| `Gates.CheckSpazzConditionsSymmetric` | main.py:70-71 | swapping the two users never changes the result |
| `Gates.CheckSpazzConditionsIsIntensity` | main.py:70-73 | the range test is implied by the mapper: for matched users the result is the mapper's intensity at every distance, and 0 for all others |
| `Gates.ShouldWeSpazz` | main.py:88-96 | an intensity exactly when both users are on the clock, and then the mapper's value; otherwise the silent-mode message |
| `Gates.MatchedGateAgreesWithShouldWeSpazz` | main.py:65-96 | whenever the mutual-like gate fires, `should_we_spazz` lets the same intensity through |
| `Gates.ProcessVicinityCheck` | main.py:76-85 | returns what `should_we_spazz` would give, with 0 for silence: the mapper's intensity when both users are on the clock, else 0; sends exactly one nudge, to `user_b`, exactly when `user_b` is off the clock and d < 0.1, so never when both are on the clock |
| `Gates.CheckUserVibe` | main.py:103-118 | both on the clock and a likes b: two notifications, to a and then to b, with the same intensity, sent only if it is > 0, and no cooldown change; b off the clock, d < 0.1 and b nudgeable: exactly one notification, to b, then only b's cooldown is updated; in every other case nothing is sent and nothing changes |
| `Gates.OneWayLikeStillPulses` | main.py:106-111 | with a liking b but not b liking a, both on the clock and 10 m apart, the as-written check sends both pulse notifications with intensity 96 |
| `Gates.CheckUserVibeMutual` | main.py:106-118 | the corrected check pulses exactly when `check_spazz_conditions` is positive, and carries its intensity; the nudge branch and the silent case are as in the original |
| `Gates.OneWayLikeStaysSilent` | main.py:106-111 | in the same one-way scenario the corrected check sends nothing |

## Left out

- `calculate_distance` (main.py:3-11, Main.py:3-11) is not modelled. It is haversine on floating-point trigonometry; the distance is a parameter instead.
- Floating point: distances and the falloff are exact reals. Python computes them as binary floats, so 0.005 and 0.1 are not exact, and a float result near a rounding tie may round differently.
- The demo code that runs at import and prints (main.py:32-40, main.py:60-62, Main.py:19-21) is not modelled, because it is output only.
- Dead code is not modelled: main.py:99-101 sits after a `return`, and main.py:126-128 uses undefined names.
- The `username`, `is_premium` and `rizz_tokens` fields of `User` (main.py:120-124) and the upsell message are not modelled; they carry no logic. The model's `User` has the fields the gates read: `id`, the on-clock flag, the liked ids and the cooldown.
- `on_clock` and `is_on_clock` are modelled as one flag, and `likes` and `has_liked` as one predicate over the liked ids. In Python they would be distinct attributes; the shown `User` class defines none of them.
- `can_be_nudged` and `update_nudge_cooldown` are not defined in the shown code, so they are caller-supplied functions over an abstract cooldown state; no cooldown duration is modelled.
- `send_push_notification` and `send_nudge_notification` are not defined in the shown code; they only append to `Outbox.log`. Delivery, failure and retries are not modelled.
- `async` on `check_user_vibe` (main.py:103) is dropped: the body has no `await`, so it runs as plain sequential code. In the source its distance comes from the users' coordinates (main.py:104); here it is a parameter.
- `should_we_spazz` returns a string or an int in Python; the model returns the `Verdict` datatype.

## Findings

| source | as written | input that shows it | evidently intended | confidence | as-written member | corrected member |
|---|---|---|---|---|---|---|
| main.py:107 | the pulse branch tests only `user_a.likes(user_b)` | both on the clock, 0.01 km apart, a likes b, b does not like a: both get "IS NEAR" pulses with intensity 96 | a mutual like, as the comment at main.py:106 says and `check_spazz_conditions` (main.py:71) checks | medium, not executed | `Gates.OneWayLikeStillPulses` (scenario over `Gates.CheckUserVibe`) | `Gates.CheckUserVibeMutual` |
