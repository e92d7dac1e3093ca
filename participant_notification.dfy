/**
 * The notification that tells observers how the participant list of a voice
 * channel changed. It carries a change description of the older kind, of the
 * newer kind, or both, and its accessors read from them in a fixed order.
 */
module ParticipantNotification {
  import opened Wrappers

  type Uuid = nat

  /** A move of one element from one index to another. */
  datatype MovedIndex = MovedIndex(from: nat, to: nat)

  /** What a change description answers; both kinds answer the same questions. */
  datatype ChangeInfo = ChangeInfo(
    insertedIndexes: set<nat>,
    deletedIndexes: set<nat>,
    updatedIndexes: set<nat>,
    movedIndexPairs: seq<MovedIndex>)
  {
    /** The `(from, to)` pairs its `enumerateMovedIndexes` hands to the block, in order. */
    function EnumeratedMoves(): (r: seq<(nat, nat)>)
      ensures |r| == |movedIndexPairs|
      ensures forall i :: 0 <= i < |r| ==> r[i] == (movedIndexPairs[i].from, movedIndexPairs[i].to)
    {
      seq(|movedIndexPairs|, i requires 0 <= i < |movedIndexPairs| => (movedIndexPairs[i].from, movedIndexPairs[i].to))
    }
  }

  /** Swift's `a ?? b ?? fallback`. */
  function Coalesce<T>(a: Option<T>, b: Option<T>, fallback: T): (r: T)
    ensures a.Some? ==> r == a.value
    ensures a.None? && b.Some? ==> r == b.value
    ensures a.None? && b.None? ==> r == fallback
  {
    a.GetOr(b.GetOr(fallback))
  }

  function InsertedOf(info: Option<ChangeInfo>): Option<set<nat>> {
    match info case Some(ci) => Some(ci.insertedIndexes) case None => None
  }

  function DeletedOf(info: Option<ChangeInfo>): Option<set<nat>> {
    match info case Some(ci) => Some(ci.deletedIndexes) case None => None
  }

  function UpdatedOf(info: Option<ChangeInfo>): Option<set<nat>> {
    match info case Some(ci) => Some(ci.updatedIndexes) case None => None
  }

  function MovedOf(info: Option<ChangeInfo>): Option<seq<MovedIndex>> {
    match info case Some(ci) => Some(ci.movedIndexPairs) case None => None
  }

  datatype VoiceChannelParticipantNotification = VoiceChannelParticipantNotification(
    setChangeInfo: Option<ChangeInfo>,
    setChangeInfoV2: Option<ChangeInfo>,
    conversationId: Uuid)
  {
    /** At least one change description is present. */
    predicate Valid() {
      setChangeInfo.Some? || setChangeInfoV2.Some?
    }

    /** The newer description first, then the older one, else nothing. */
    function InsertedIndexes(): set<nat> {
      Coalesce(InsertedOf(setChangeInfoV2), InsertedOf(setChangeInfo), {})
    }

    function DeletedIndexes(): set<nat> {
      Coalesce(DeletedOf(setChangeInfoV2), DeletedOf(setChangeInfo), {})
    }

    function UpdatedIndexes(): set<nat> {
      Coalesce(UpdatedOf(setChangeInfoV2), UpdatedOf(setChangeInfo), {})
    }

    /** The older description first, then the newer one, else nothing. */
    function MovedIndexPairs(): seq<MovedIndex> {
      Coalesce(MovedOf(setChangeInfo), MovedOf(setChangeInfoV2), [])
    }

    /** `enumerateMovedIndexes`: delegates to the older description when present, else to the newer one. */
    function EnumerateMovedIndexes(): seq<(nat, nat)> {
      match setChangeInfo
      case Some(info) => info.EnumeratedMoves()
      case None =>
        match setChangeInfoV2
        case Some(info) => info.EnumeratedMoves()
        case None => []
    }
  }

  /**
   * `init(setChangeInfo:setChangeInfoV2:conversationId:)`: `None` stands for
   * the fatal error when neither description is given; otherwise the
   * arguments are stored as they are.
   */
  function MakeNotification(setChangeInfo: Option<ChangeInfo>, setChangeInfoV2: Option<ChangeInfo>, conversationId: Uuid)
    : (r: Option<VoiceChannelParticipantNotification>)
    ensures r.None? <==> setChangeInfo.None? && setChangeInfoV2.None?
    ensures r.Some? ==> r.value.Valid()
    ensures r.Some? ==> && r.value.setChangeInfo == setChangeInfo
                        && r.value.setChangeInfoV2 == setChangeInfoV2
                        && r.value.conversationId == conversationId
  {
    if setChangeInfoV2.None? && setChangeInfo.None? then None
    else Some(VoiceChannelParticipantNotification(setChangeInfo, setChangeInfoV2, conversationId))
  }

  /** With a single description, every accessor answers from it. */
  lemma SingleDescription(n: VoiceChannelParticipantNotification, info: ChangeInfo)
    requires || (n.setChangeInfo == Some(info) && n.setChangeInfoV2.None?)
             || (n.setChangeInfoV2 == Some(info) && n.setChangeInfo.None?)
    ensures n.InsertedIndexes() == info.insertedIndexes
    ensures n.DeletedIndexes() == info.deletedIndexes
    ensures n.UpdatedIndexes() == info.updatedIndexes
    ensures n.MovedIndexPairs() == info.movedIndexPairs
    ensures n.EnumerateMovedIndexes() == info.EnumeratedMoves()
  {
  }

  /** With both descriptions, the index sets come from the newer one but the moves from the older one. */
  lemma BothDescriptions(n: VoiceChannelParticipantNotification, older: ChangeInfo, newer: ChangeInfo)
    requires n.setChangeInfo == Some(older) && n.setChangeInfoV2 == Some(newer)
    ensures n.InsertedIndexes() == newer.insertedIndexes
    ensures n.DeletedIndexes() == newer.deletedIndexes
    ensures n.UpdatedIndexes() == newer.updatedIndexes
    ensures n.MovedIndexPairs() == older.movedIndexPairs
    ensures n.EnumerateMovedIndexes() == older.EnumeratedMoves()
  {
  }

  /** Enumerating the moves hands over exactly `movedIndexPairs`, in order. */
  lemma EnumerationAgreesWithPairs(n: VoiceChannelParticipantNotification)
    ensures |n.EnumerateMovedIndexes()| == |n.MovedIndexPairs()|
    ensures forall i :: 0 <= i < |n.MovedIndexPairs()| ==>
              n.EnumerateMovedIndexes()[i] == (n.MovedIndexPairs()[i].from, n.MovedIndexPairs()[i].to)
  {
  }

  /** The priorities really differ: a notification whose index sets and moves come from different descriptions. */
  lemma PrioritiesDiffer()
    ensures var older := ChangeInfo({0}, {}, {}, [MovedIndex(0, 1)]);
            var newer := ChangeInfo({1}, {}, {}, []);
            var n := MakeNotification(Some(older), Some(newer), 7).value;
            n.InsertedIndexes() == {1} && n.MovedIndexPairs() == [MovedIndex(0, 1)]
  {
  }
}
