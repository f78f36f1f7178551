/**
 The outside world of the controller: what it reads each time it looks, and how an attempt can end.
 */
module Environment {
  import opened Common
  import opened Gates
  import opened Campaign

  /** What a launched cell leaves behind: no journal, a torn one, or its whole frozen result. */
  datatype Wrote = NoJournal | Torn(kind: KnownFailure, started: Option<int>) | Whole

  /** One look at the outside world; `delay` is how far the clock has moved since the last one. */
  datatype World = World(
    delay: nat, reading: Option<Reading>, gateReady: bool, recovery: Option<KnownFailure>,
    wrote: Wrote, fault: Option<KnownFailure>)

  datatype Reading = Reading(memory: int, swap: int, harness: string, harnessFiles: int)

  datatype Outcome = Done | Paused | Died | Raised(failure: Failure)

  predicate ReadingIsSound(r: Reading) {
    r.memory >= 0 && r.swap >= 0 && IsSha256(r.harness) && r.harnessFiles > 0
  }

  /** The host always answers with well-formed readings. */
  ghost predicate SoundReadings(world: nat -> World) {
    forall k: nat :: world(k).reading.Some? && ReadingIsSound(world(k).reading.value)
  }

  /** The world lets the controller work: recovery is clean, the gate is ready, and a launched cell writes its whole result. */
  predicate Calm(w: World) {
    w.recovery.None? && w.gateReady && w.wrote == Whole && w.fault.None?
  }

  /** The clock moves by at least a millisecond between two looks at the world. */
  ghost predicate Spaced(world: nat -> World) {
    forall k: nat :: world(k).delay >= 1000
  }
}
