/**
 * The two key-value stores the routes share: pending registrations by
 * configuration endpoint, and platform records by platform key.
 */
module Storage {
  import opened Lti
  import opened Platforms

  class Stores {
    var pending: map<string, Registration>
    var platforms: map<string, PlatformRecord>

    /** The only writer of `platforms` stores each record under its own key. */
    ghost predicate Valid()
      reads this
    {
      KeyedByPair(platforms)
    }

    /** Both stores start empty. */
    constructor ()
      ensures Valid()
      ensures pending == map[] && platforms == map[]
    {
      pending := map[];
      platforms := map[];
    }
  }
}
