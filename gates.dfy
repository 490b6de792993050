/** The eligibility gates of main.py: given two users and the distance
    between them (km), decide whether to return an intensity, stay silent,
    or nudge the second user. */
module Gates {
  import opened Users
  import Intensity

  /** The nudge ("vicinity") radius: 100 metres. */
  const NudgeRangeKm: real := 0.1

  const SilentModeMessage: string := "Silent Mode: One or both users are off the clock."
  const VicinityNudgeMessage: string := "Psst... someone is in your vicinity! Clock in?"
  const VibeNudgeMessage: string := "Psst... someone's in your vicinity! Clock in to find them?"
  const PulseMessageA: string := "HE IS NEAR! Look for the lights!"
  const PulseMessageB: string := "SHE IS NEAR! Look for the lights!"

  /** `should_we_spazz` answers either a silent-mode message or an intensity. */
  datatype Verdict = Silent(message: string) | Spazz(intensity: int)

  /** Both users are on the clock and each has liked the other. */
  ghost predicate Matched<C>(a: User<C>, b: User<C>)
    reads a, b
  {
    a.onClock && b.onClock && a.Likes(b) && b.Likes(a)
  }

  /** `check_spazz_conditions`: an intensity only for two matched users
      strictly inside the maximum range; 0 otherwise. */
  function CheckSpazzConditions<C>(a: User<C>, b: User<C>, dist: real): (r: int)
    reads a, b
    ensures r != 0 ==> dist < Intensity.MaxRangeKm && Matched(a, b)
    ensures dist < Intensity.MaxRangeKm && Matched(a, b) ==> r == Intensity.SpazzIntensity(dist)
    ensures 0 <= r <= Intensity.SolidMode
  {
    if dist < Intensity.MaxRangeKm && a.onClock && b.onClock then
      if a.Likes(b) && b.Likes(a) then Intensity.SpazzIntensity(dist) else 0
    else 0
  }

  /** The mutual-like gate does not care which user comes first. */
  lemma CheckSpazzConditionsSymmetric<C>(a: User<C>, b: User<C>, dist: real)
    ensures CheckSpazzConditions(a, b, dist) == CheckSpazzConditions(b, a, dist)
  {
  }

  /** The explicit range check is implied by the intensity mapper: for
      matched users the gate is exactly the mapper, at every distance. */
  lemma CheckSpazzConditionsIsIntensity<C>(a: User<C>, b: User<C>, dist: real)
    ensures CheckSpazzConditions(a, b, dist) == if Matched(a, b) then Intensity.SpazzIntensity(dist) else 0
  {
    if dist >= Intensity.MaxRangeKm {
      Intensity.SilentFromMaxRange(dist);
    }
  }

  /** `should_we_spazz`: silent unless both users are on the clock, and then
      the mapper's intensity. */
  function ShouldWeSpazz<C>(a: User<C>, b: User<C>, distanceKm: real): (r: Verdict)
    reads a, b
    ensures r.Spazz? <==> a.onClock && b.onClock
    ensures r.Spazz? ==> r.intensity == Intensity.SpazzIntensity(distanceKm)
    ensures r.Silent? ==> r.message == SilentModeMessage
  {
    if !a.onClock || !b.onClock then Silent(SilentModeMessage)
    else Spazz(Intensity.SpazzIntensity(distanceKm))
  }

  /** Whenever the mutual-like gate fires, the on-the-clock gate lets the
      same intensity through. */
  lemma MatchedGateAgreesWithShouldWeSpazz<C>(a: User<C>, b: User<C>, dist: real)
    requires CheckSpazzConditions(a, b, dist) != 0
    ensures ShouldWeSpazz(a, b, dist) == Spazz(CheckSpazzConditions(a, b, dist))
  {
  }

  /** An intensity, or 0 when silent. */
  function IntensityOf(v: Verdict): int
  {
    match v
    case Spazz(i) => i
    case Silent(_) => 0
  }

  /** `process_vicinity_check`: the mapper's intensity when both users are on
      the clock (and no nudge); otherwise 0, with one nudge to `b` exactly
      when `b` is off the clock within the nudge radius. */
  method ProcessVicinityCheck<C>(a: User<C>, b: User<C>, dist: real, outbox: Outbox) returns (r: int)
    modifies outbox
    ensures r == IntensityOf(ShouldWeSpazz(a, b, dist))
    ensures a.onClock && b.onClock ==> r == Intensity.SpazzIntensity(dist) && outbox.log == old(outbox.log)
    ensures !(a.onClock && b.onClock) ==> r == 0
    ensures !b.onClock && dist < NudgeRangeKm ==>
      outbox.log == old(outbox.log) + [Notification(Nudge, b.id, VicinityNudgeMessage, None)]
    ensures b.onClock || dist >= NudgeRangeKm ==> outbox.log == old(outbox.log)
  {
    if a.onClock && b.onClock {
      return Intensity.SpazzIntensity(dist);
    }
    if !b.onClock && dist < NudgeRangeKm {
      outbox.Send(Nudge, b.id, VicinityNudgeMessage, None);
    }
    return 0;
  }

  /** `check_user_vibe`, as written: the pulse branch asks only whether `a`
      likes `b`. `canBeNudged` and `recordNudge` stand for the cooldown
      operations on `b`. */
  method CheckUserVibe<C>(a: User<C>, b: User<C>, dist: real,
                          canBeNudged: C -> bool, recordNudge: C -> C, outbox: Outbox)
    modifies outbox, b`cooldown
    // Pulse: two notifications with one intensity, to a and then to b, if it is positive.
    ensures a.onClock && b.onClock && a.Likes(b) ==>
      b.cooldown == old(b.cooldown) &&
      outbox.log == old(outbox.log) +
        (if Intensity.SpazzIntensity(dist) > 0 then
           [Notification(Push, a.id, PulseMessageA, Some(Intensity.SpazzIntensity(dist))),
            Notification(Push, b.id, PulseMessageB, Some(Intensity.SpazzIntensity(dist)))]
         else [])
    // Nudge: b is off the clock, close by and allowed one; then b's cooldown is updated.
    ensures !b.onClock && dist < NudgeRangeKm && canBeNudged(old(b.cooldown)) ==>
      outbox.log == old(outbox.log) + [Notification(Push, b.id, VibeNudgeMessage, None)] &&
      b.cooldown == recordNudge(old(b.cooldown))
    // Anything else: nothing is sent and nothing changes.
    ensures !(a.onClock && b.onClock && a.Likes(b)) &&
            !(!b.onClock && dist < NudgeRangeKm && canBeNudged(old(b.cooldown))) ==>
      outbox.log == old(outbox.log) && b.cooldown == old(b.cooldown)
  {
    if a.onClock && b.onClock && a.Likes(b) {
      var intensity := Intensity.SpazzIntensity(dist);
      if intensity > 0 {
        outbox.Send(Push, a.id, PulseMessageA, Some(intensity));
        outbox.Send(Push, b.id, PulseMessageB, Some(intensity));
      }
    } else if !b.onClock && dist < NudgeRangeKm {
      if b.CanBeNudged(canBeNudged) {
        outbox.Send(Push, b.id, VibeNudgeMessage, None);
        b.UpdateNudgeCooldown(recordNudge);
      }
    }
  }

  /** Two users on the clock, 10 metres apart, where only the first likes the
      second: the as-written vibe check still pulses both of them. */
  method OneWayLikeStillPulses() returns (log: seq<Notification>, secondLikesFirst: bool)
    ensures !secondLikesFirst
    ensures log == [Notification(Push, 1, PulseMessageA, Some(96)), Notification(Push, 2, PulseMessageB, Some(96))]
  {
    var a := new User<int>(1, true, {2}, 0);
    var b := new User<int>(2, true, {}, 0);
    var outbox := new Outbox();
    Intensity.SpazzIntensityExamples();
    CheckUserVibe(a, b, 0.01, c => true, c => c, outbox);
    log := outbox.log;
    secondLikesFirst := b.Likes(a);
  }

  /** `check_user_vibe` with the mutual like its comment announces: it pulses
      exactly when `check_spazz_conditions` gives a positive intensity, and
      carries that intensity. The nudge branch is unchanged. */
  method CheckUserVibeMutual<C>(a: User<C>, b: User<C>, dist: real,
                                canBeNudged: C -> bool, recordNudge: C -> C, outbox: Outbox)
    modifies outbox, b`cooldown
    ensures old(CheckSpazzConditions(a, b, dist)) > 0 ==>
      b.cooldown == old(b.cooldown) &&
      outbox.log == old(outbox.log) +
        [Notification(Push, a.id, PulseMessageA, Some(old(CheckSpazzConditions(a, b, dist)))),
         Notification(Push, b.id, PulseMessageB, Some(old(CheckSpazzConditions(a, b, dist))))]
    ensures !b.onClock && dist < NudgeRangeKm && canBeNudged(old(b.cooldown)) ==>
      outbox.log == old(outbox.log) + [Notification(Push, b.id, VibeNudgeMessage, None)] &&
      b.cooldown == recordNudge(old(b.cooldown))
    ensures old(CheckSpazzConditions(a, b, dist)) == 0 &&
            !(!b.onClock && dist < NudgeRangeKm && canBeNudged(old(b.cooldown))) ==>
      outbox.log == old(outbox.log) && b.cooldown == old(b.cooldown)
  {
    CheckSpazzConditionsIsIntensity(a, b, dist);
    if a.onClock && b.onClock && a.Likes(b) && b.Likes(a) {
      var intensity := Intensity.SpazzIntensity(dist);
      if intensity > 0 {
        outbox.Send(Push, a.id, PulseMessageA, Some(intensity));
        outbox.Send(Push, b.id, PulseMessageB, Some(intensity));
      }
    } else if !b.onClock && dist < NudgeRangeKm {
      if b.CanBeNudged(canBeNudged) {
        outbox.Send(Push, b.id, VibeNudgeMessage, None);
        b.UpdateNudgeCooldown(recordNudge);
      }
    }
  }

  /** The scenario of `OneWayLikeStillPulses` under the mutual vibe check:
      nothing is sent. */
  method OneWayLikeStaysSilent() returns (log: seq<Notification>)
    ensures log == []
  {
    var a := new User<int>(1, true, {2}, 0);
    var b := new User<int>(2, true, {}, 0);
    var outbox := new Outbox();
    CheckUserVibeMutual(a, b, 0.01, c => true, c => c, outbox);
    log := outbox.log;
  }
}
