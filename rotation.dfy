/** The producer-rotation singleton: which top-tier producer is currently rotated
    out, which standby producer is rotated in, the rotating indexes and the
    rotation timestamps, together with the rotation and schedule-size constants. */
module Rotation {
  import opened Ledger

  const TwelveHoursUs: int64 := 43_200_000_000
  const SixHoursUs: int64 := 21_600_000_000
  /** Named for an hour but, in this build, fifteen minutes. */
  const OneHourUs: int64 := 900_000_000
  const SixMinutesUs: int64 := 360_000_000
  const TwelveMinutesUs: int64 := 720_000_000
  /** Largest proposed schedule. */
  const MaxProducers: nat := 42
  /** Size of the top tier that produces blocks. */
  const TopProducers: nat := 21
  /** Longest list of producers one voter may vote for. */
  const MaxVoteProducers: nat := 30

  /** A block timestamp: the index of a half-second block slot. */
  datatype BlockTimestamp = BlockTimestamp(slot: uint32)

  /** The stored rotation record. */
  datatype RotationState = RotationState(
    bpCurrentlyOut: Name,
    sbpCurrentlyIn: Name,
    bpOutIndex: uint32,
    sbpInIndex: uint32,
    nextRotationTime: BlockTimestamp,
    lastRotationTime: BlockTimestamp)

  /** The contract's loaded copy of the rotation singleton. */
  class RotationSingleton {
    var state: RotationState

    constructor (initial: RotationState)
      ensures state == initial
    {
      state := initial;
    }

    /** Records the pair of producers currently swapped: `bpOut` leaves the top
        tier and `sbpIn` enters it. The indexes and timestamps are not touched. */
    method SetBpsRotation(bpOut: Name, sbpIn: Name)
      modifies this
      ensures state.bpCurrentlyOut == bpOut && state.sbpCurrentlyIn == sbpIn
      ensures state.bpOutIndex == old(state.bpOutIndex)
      ensures state.sbpInIndex == old(state.sbpInIndex)
      ensures state.nextRotationTime == old(state.nextRotationTime)
      ensures state.lastRotationTime == old(state.lastRotationTime)
    {
      state := state.(bpCurrentlyOut := bpOut, sbpCurrentlyIn := sbpIn);
    }
  }

  /** Setting the same pair twice leaves the singleton as setting it once. */
  method SetBpsRotationIdempotent(r: RotationSingleton, bpOut: Name, sbpIn: Name)
    modifies r
    ensures r.state == old(r.state).(bpCurrentlyOut := bpOut, sbpCurrentlyIn := sbpIn)
  {
    r.SetBpsRotation(bpOut, sbpIn);
    ghost var once := r.state;
    r.SetBpsRotation(bpOut, sbpIn);
    assert r.state == once;
  }

  /** The top tier fits in the schedule, with room for as many standby producers. */
  lemma ScheduleSizes()
    ensures TopProducers <= MaxProducers && MaxProducers == 2 * TopProducers
    ensures TopProducers < MaxVoteProducers <= MaxProducers
  {
  }

  /** The rotation periods: twelve hours is twice six hours and twelve times the
      microseconds of an hour; twelve minutes is twice six minutes. */
  lemma RotationPeriods()
    ensures TwelveHoursUs as int == 2 * SixHoursUs as int == 12 * UsecondsPerHour as int
    ensures TwelveMinutesUs as int == 2 * SixMinutesUs as int
    ensures 4 * OneHourUs as int == UsecondsPerHour as int
  {
  }
}
