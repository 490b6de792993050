/** The entities the gates work on: users, whose state is changed in place,
    and the log that stands in for the push-notification transport. */
module Users {

  type UserId = int

  datatype Option<T> = None | Some(value: T)

  /** Which transport call sent a notification. */
  datatype Channel = Push | Nudge

  /** One call of `send_push_notification` or `send_nudge_notification`:
      the target user, the message, and the intensity when one was passed. */
  datatype Notification = Notification(channel: Channel, target: UserId, message: string, intensity: Option<int>)

  /** A user. `C` is the abstract nudge-cooldown state: what it holds, when
      a nudge is allowed and how recording a nudge changes it are supplied
      from outside. */
  class User<C> {
    const id: UserId
    /** The on-the-clock flag (`on_clock`, also spelled `is_on_clock`). */
    var onClock: bool
    /** Ids of the users this user has liked. */
    var liked: set<UserId>
    var cooldown: C

    constructor (id: UserId, onClock: bool, liked: set<UserId>, cooldown: C)
      ensures this.id == id && this.onClock == onClock
      ensures this.liked == liked && this.cooldown == cooldown
    {
      this.id := id;
      this.onClock := onClock;
      this.liked := liked;
      this.cooldown := cooldown;
    }

    /** Whether this user has liked `other` (`likes` / `has_liked`). */
    predicate Likes(other: User<C>)
      reads this
    {
      other.id in liked
    }

    /** `can_be_nudged`: the given cooldown policy applied to this user's
        cooldown state. */
    predicate CanBeNudged(policy: C -> bool)
      reads this
    {
      policy(cooldown)
    }

    /** `update_nudge_cooldown`: record a nudge in the cooldown state and
        change nothing else. */
    method UpdateNudgeCooldown(record: C -> C)
      modifies this`cooldown
      ensures cooldown == record(old(cooldown))
    {
      cooldown := record(cooldown);
    }
  }

  /** Every notification sent so far, oldest first. Delivery is not modelled. */
  class Outbox {
    var log: seq<Notification>

    constructor ()
      ensures log == []
    {
      log := [];
    }

    /** Hand one notification to the transport: it is appended to the log. */
    method Send(channel: Channel, target: UserId, message: string, intensity: Option<int>)
      modifies this
      ensures log == old(log) + [Notification(channel, target, message, intensity)]
    {
      log := log + [Notification(channel, target, message, intensity)];
    }
  }
}
