/** Producer registration: the producers table and its secondary vote-pay table.
    Registering inserts a producer row or refreshes an existing one; the
    secondary row is created the first time it is missing. */
module Voting {
  import opened Ledger

  /** A public key: its curve type and its bytes. */
  datatype PublicKey = PublicKey(keyType: uint8, data: seq<uint8>)

  /** The default-constructed key, which marks "no legacy key". */
  const DefaultKey: PublicKey := PublicKey(0, [])

  datatype KeyWeight = KeyWeight(key: PublicKey, weight: uint16)

  /** A block-signing authority; version 0 is a weighted threshold over keys. */
  datatype BlockSigningAuthority = V0(threshold: uint32, keys: seq<KeyWeight>)

  /** A row of the producers table. */
  datatype ProducerInfo = ProducerInfo(
    owner: Name,
    totalVotes: real,
    producerKey: PublicKey,
    isActive: bool,
    url: string,
    unpaidBlocks: uint32,
    lifetimeProducedBlocks: uint32,
    missedBlocksPerRotation: uint32,
    lifetimeMissedBlocks: uint32,
    lastClaimTime: TimePoint,
    location: uint16,
    timesKicked: uint32,
    kickPenaltyHours: uint32,
    lastTimeKicked: TimePoint,
    producerAuthority: Option<BlockSigningAuthority>)

  /** A row of the secondary producers table, which carries the vote-pay share. */
  datatype ProducerInfo2 = ProducerInfo2(owner: Name, votepayShare: real, lastVotepayShareUpdate: TimePoint)

  /** A call of `update_total_votepay_share` (its arithmetic is not modelled). */
  datatype VotepayShareUpdate = VotepayShareUpdate(time: TimePoint, additionalSharesDelta: real, sharesRateDelta: real)

  /** The key stored in the legacy `producer_key` field: the authority's key when
      it holds exactly one, and the default key otherwise. */
  function LegacyKey(auth: BlockSigningAuthority): (r: PublicKey)
    ensures |auth.keys| == 1 ==> r == auth.keys[0].key
    ensures |auth.keys| != 1 ==> r == DefaultKey
  {
    if |auth.keys| == 1 then auth.keys[0].key else DefaultKey
  }

  /** Fields registration never touches: the votes, block and kick counters. */
  predicate SameStanding(a: ProducerInfo, b: ProducerInfo)
  {
    a.owner == b.owner && a.totalVotes == b.totalVotes
    && a.unpaidBlocks == b.unpaidBlocks && a.lifetimeProducedBlocks == b.lifetimeProducedBlocks
    && a.missedBlocksPerRotation == b.missedBlocksPerRotation
    && a.lifetimeMissedBlocks == b.lifetimeMissedBlocks
    && a.timesKicked == b.timesKicked && a.kickPenaltyHours == b.kickPenaltyHours
    && a.lastTimeKicked == b.lastTimeKicked
  }

  /** What registration publishes about a producer. */
  predicate Advertises(r: ProducerInfo, auth: BlockSigningAuthority, url: string, location: uint16)
  {
    r.isActive && r.producerKey == LegacyKey(auth) && r.url == url && r.location == location
    && r.producerAuthority == Some(auth)
  }

  /** An existing row after re-registration at `now`: active, with the new key,
      url, location and authority, and a claim time that is kept once set. */
  function Reregistered(info: ProducerInfo, auth: BlockSigningAuthority, url: string, location: uint16, now: TimePoint)
    : (r: ProducerInfo)
    ensures Advertises(r, auth, url, location)
    ensures SameStanding(r, info)
    ensures info.lastClaimTime != EpochTime ==> r.lastClaimTime == info.lastClaimTime
    ensures info.lastClaimTime == EpochTime ==> r.lastClaimTime == now
  {
    info.(producerKey := LegacyKey(auth), isActive := true, url := url, location := location,
          producerAuthority := Some(auth),
          lastClaimTime := if info.lastClaimTime == EpochTime then now else info.lastClaimTime)
  }

  /** The row of a producer registering for the first time at `now`. */
  function NewProducer(producer: Name, auth: BlockSigningAuthority, url: string, location: uint16, now: TimePoint)
    : (r: ProducerInfo)
    ensures r.owner == producer && r.totalVotes == 0.0
    ensures Advertises(r, auth, url, location)
    ensures r.lastClaimTime == now
    ensures r.unpaidBlocks == 0 && r.lifetimeProducedBlocks == 0 && r.missedBlocksPerRotation == 0
    ensures r.lifetimeMissedBlocks == 0 && r.timesKicked == 0 && r.kickPenaltyHours == 0
    ensures r.lastTimeKicked == EpochTime
  {
    ProducerInfo(producer, 0.0, LegacyKey(auth), true, url, 0, 0, 0, 0, now, location, 0, 0, EpochTime, Some(auth))
  }

  /** Re-registering with the same arguments changes nothing further, even at a
      later time. */
  lemma ReregisteredIdempotent(info: ProducerInfo, auth: BlockSigningAuthority, url: string, location: uint16,
                               now: TimePoint, later: TimePoint)
    ensures var once := Reregistered(info, auth, url, location, now);
      info.lastClaimTime != EpochTime || now != EpochTime ==>
        Reregistered(once, auth, url, location, later) == once
  {
  }

  /** Re-registering with the same arguments at the same time changes nothing
      further, whatever the row's claim time was. */
  lemma ReregisteredSameTimeIdempotent(info: ProducerInfo, auth: BlockSigningAuthority, url: string,
                                       location: uint16, now: TimePoint)
    ensures var once := Reregistered(info, auth, url, location, now);
      Reregistered(once, auth, url, location, now) == once
  {
  }

  /** A producer registered at a time other than the epoch keeps its whole row when
      it registers again with the same arguments. */
  lemma NewProducerStable(producer: Name, auth: BlockSigningAuthority, url: string, location: uint16,
                          now: TimePoint, later: TimePoint)
    requires now != EpochTime
    ensures var info := NewProducer(producer, auth, url, location, now);
      Reregistered(info, auth, url, location, later) == info
  {
  }

  /** At the epoch, the unset claim time is indistinguishable from a real one and
      a later re-registration moves it. */
  lemma EpochClaimTimeMoves(producer: Name, auth: BlockSigningAuthority, url: string, location: uint16)
    ensures var info := NewProducer(producer, auth, url, location, EpochTime);
      Reregistered(info, auth, url, location, 1).lastClaimTime == 1
  {
  }

  /** The producers table and its secondary table. */
  class ProducerRegistry {
    var producers: map<Name, ProducerInfo>
    var producers2: map<Name, ProducerInfo2>
    /** Calls made to `update_total_votepay_share`. */
    ghost var votepayUpdates: seq<VotepayShareUpdate>

    /** Rows are stored under their owner, and every secondary row belongs to a
        registered producer. */
    ghost predicate Valid()
      reads this
    {
      (forall p :: p in producers ==> producers[p].owner == p)
      && (forall p :: p in producers2 ==> producers2[p].owner == p && p in producers)
    }

    constructor ()
      ensures Valid() && producers == map[] && producers2 == map[] && votepayUpdates == []
    {
      producers, producers2 := map[], map[];
      votepayUpdates := [];
    }

    /** Registers `producer` with signing authority `auth` at time `now`. */
    method RegisterProducer(producer: Name, auth: BlockSigningAuthority, url: string, location: uint16, now: TimePoint)
      requires Valid()
      modifies this
      ensures Valid()
      ensures producer in producers && producer in producers2
      ensures producer in old(producers) ==>
        producers == old(producers)[producer := Reregistered(old(producers)[producer], auth, url, location, now)]
      ensures producer !in old(producers) ==>
        producers == old(producers)[producer := NewProducer(producer, auth, url, location, now)]
      ensures producer in old(producers2) ==> producers2 == old(producers2)
      ensures producer !in old(producers2) ==>
        producers2 == old(producers2)[producer := ProducerInfo2(producer, 0.0, now)]
      ensures producer in old(producers) && producer !in old(producers2) ==>
        votepayUpdates == old(votepayUpdates) + [VotepayShareUpdate(now, 0.0, old(producers)[producer].totalVotes)]
      ensures producer !in old(producers) || producer in old(producers2) ==>
        votepayUpdates == old(votepayUpdates)
    {
      var producerKey := LegacyKey(auth);
      if producer in producers {
        var info := producers[producer];
        info := info.(producerKey := producerKey, isActive := true, url := url, location := location,
                      producerAuthority := Some(auth));
        if info.lastClaimTime == EpochTime {
          info := info.(lastClaimTime := now);
        }
        producers := producers[producer := info];
        if producer !in producers2 {
          producers2 := producers2[producer := ProducerInfo2(producer, 0.0, now)];
          votepayUpdates := votepayUpdates + [VotepayShareUpdate(now, 0.0, info.totalVotes)];
        }
      } else {
        producers := producers[producer := NewProducer(producer, auth, url, location, now)];
        producers2 := producers2[producer := ProducerInfo2(producer, 0.0, now)];
      }
    }
  }

  /** A registered producer that registers again with the key, url, location and
      authority it already advertises, after its claim time is set, leaves both
      tables and the vote-pay log exactly as they were. */
  method ReregisterUnchanged(reg: ProducerRegistry, producer: Name, auth: BlockSigningAuthority,
                             url: string, location: uint16, now: TimePoint)
    requires reg.Valid() && producer in reg.producers && producer in reg.producers2
    requires Advertises(reg.producers[producer], auth, url, location)
    requires reg.producers[producer].lastClaimTime != EpochTime
    modifies reg
    ensures reg.producers == old(reg.producers) && reg.producers2 == old(reg.producers2)
    ensures reg.votepayUpdates == old(reg.votepayUpdates)
  {
    ghost var before := reg.producers;
    reg.RegisterProducer(producer, auth, url, location, now);
    assert reg.producers[producer] == before[producer];
  }
}
