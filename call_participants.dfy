/**
 * The participant list of a call: `VoiceChannelParticipantV3Snapshot` keeps
 * the members of a call in an array and reconciles it with every new list the
 * calling layer reports, removing the members that left and inserting the new
 * ones at their index in the new list.
 *
 * Call members are compared by their remote identifier only: a member whose
 * audio state changed is the same member, reported as updated.
 */
module CallParticipants {
  import opened Wrappers

  type Uuid = nat

  datatype CallMember = CallMember(remoteId: Uuid, audioEstablished: bool)

  // ---------------------------------------------------------------------------
  // Identifiers of a member list
  // ---------------------------------------------------------------------------

  /** The identifiers occurring in `ms`. */
  function IdSet(ms: seq<CallMember>): (r: set<Uuid>)
    ensures forall i :: 0 <= i < |ms| ==> ms[i].remoteId in r
  {
    if |ms| == 0 then {}
    else
      assert forall i :: 1 <= i < |ms| ==> ms[i] == ms[1..][i - 1];
      {ms[0].remoteId} + IdSet(ms[1..])
  }

  /** An identifier no element carries is not in the set. */
  lemma {:induction false} NotInIdSet(ms: seq<CallMember>, id: Uuid)
    requires forall i :: 0 <= i < |ms| ==> ms[i].remoteId != id
    ensures id !in IdSet(ms)
    decreases |ms|
  {
    if |ms| > 0 {
      assert forall i :: 0 <= i < |ms[1..]| ==> ms[1..][i] == ms[i + 1];
      NotInIdSet(ms[1..], id);
    }
  }

  /** With distinct identifiers, the head's identifier does not recur in the tail. */
  lemma HeadNotInTail(ms: seq<CallMember>)
    requires |ms| > 0 && DistinctIds(ms)
    ensures ms[0].remoteId !in IdSet(ms[1..])
  {
    assert forall i :: 0 <= i < |ms[1..]| ==> ms[1..][i] == ms[i + 1];
    NotInIdSet(ms[1..], ms[0].remoteId);
  }

  /** Swift's `contains` on call members: some member has this identifier. */
  predicate HasId(ms: seq<CallMember>, id: Uuid) {
    id in IdSet(ms)
  }

  /** No identifier occurs twice. */
  predicate DistinctIds(ms: seq<CallMember>) {
    forall i, j :: 0 <= i < j < |ms| ==> ms[i].remoteId != ms[j].remoteId
  }

  /** Swift's `index(of:)` on call members: the first position of the identifier. */
  function IndexOf(ms: seq<CallMember>, id: Uuid): (r: Option<nat>)
    ensures r.Some? ==> r.value < |ms| && ms[r.value].remoteId == id
    ensures r.Some? ==> forall j :: 0 <= j < r.value ==> ms[j].remoteId != id
    ensures r.None? <==> !HasId(ms, id)
  {
    if |ms| == 0 then None
    else if ms[0].remoteId == id then Some(0)
    else
      assert forall i :: 1 <= i < |ms| ==> ms[i] == ms[1..][i - 1];
      match IndexOf(ms[1..], id)
      case Some(k) => Some(k + 1)
      case None => None
  }

  /** The elements of `s` whose identifier occurs in `t`, in their order in `s`. */
  function KeepIn(s: seq<CallMember>, t: seq<CallMember>): (r: seq<CallMember>)
    ensures forall i :: 0 <= i < |r| ==> HasId(t, r[i].remoteId)
    ensures |r| <= |s|
  {
    if |s| == 0 then []
    else (if HasId(t, s[0].remoteId) then [s[0]] else []) + KeepIn(s[1..], t)
  }

  /** The elements of `s` whose identifier does not occur in `t`, in their order in `s`. */
  function DropIn(s: seq<CallMember>, t: seq<CallMember>): (r: seq<CallMember>)
    ensures forall i :: 0 <= i < |r| ==> !HasId(t, r[i].remoteId)
    ensures |r| <= |s|
  {
    if |s| == 0 then []
    else (if HasId(t, s[0].remoteId) then [] else [s[0]]) + DropIn(s[1..], t)
  }

  /** `remove(at: index(of:))`: drop the first member with this identifier, if any. */
  function RemoveFirst(ms: seq<CallMember>, id: Uuid): seq<CallMember> {
    match IndexOf(ms, id)
    case Some(i) => ms[..i] + ms[i + 1..]
    case None => ms
  }

  /** `insert(_:at:)`. */
  function Insert(ms: seq<CallMember>, i: nat, m: CallMember): seq<CallMember>
    requires i <= |ms|
  {
    ms[..i] + [m] + ms[i..]
  }

  /** The removal loop: each of `removed` is removed in turn. */
  function RemoveAll(ms: seq<CallMember>, removed: seq<CallMember>): seq<CallMember>
    decreases |removed|
  {
    if |removed| == 0 then ms else RemoveAll(RemoveFirst(ms, removed[0].remoteId), removed[1..])
  }

  /**
   * The insertion loop: each of `added` is inserted at its first index in
   * `newParticipants`; `None` when that index lies beyond the end of the list,
   * where Swift's `insert(_:at:)` traps.
   */
  function InsertAll(ms: seq<CallMember>, added: seq<CallMember>, newParticipants: seq<CallMember>): Option<seq<CallMember>>
    decreases |added|
  {
    if |added| == 0 then Some(ms)
    else match IndexOf(newParticipants, added[0].remoteId)
      case None => InsertAll(ms, added[1..], newParticipants)
      case Some(i) =>
        if i > |ms| then None else InsertAll(Insert(ms, i, added[0]), added[1..], newParticipants)
  }

  /** The new member list after `callParticipantsChanged(newParticipants:)`, or `None` when it traps. */
  function Reconcile(members: seq<CallMember>, newParticipants: seq<CallMember>): Option<seq<CallMember>> {
    InsertAll(RemoveAll(members, DropIn(members, newParticipants)), DropIn(newParticipants, members), newParticipants)
  }

  /** The counterpart of `m` in `newParticipants` has a different audio state. */
  predicate AudioChanged(m: CallMember, newParticipants: seq<CallMember>) {
    match IndexOf(newParticipants, m.remoteId)
    case Some(k) => newParticipants[k].audioEstablished != m.audioEstablished
    case None => false
  }

  /** The members of `ms` reported as updated against `newParticipants`. */
  function UpdatedIn(ms: seq<CallMember>, newParticipants: seq<CallMember>): (r: set<CallMember>)
    ensures forall m :: m in r <==> m in ms && AudioChanged(m, newParticipants)
  {
    if |ms| == 0 then {}
    else
      var rest := UpdatedIn(ms[1..], newParticipants);
      assert forall m :: m in ms <==> m == ms[0] || m in ms[1..];
      (if AudioChanged(ms[0], newParticipants) then {ms[0]} else {}) + rest
  }

  // ---------------------------------------------------------------------------
  // Removal
  // ---------------------------------------------------------------------------

  lemma {:induction false} RemoveFirstOfHead(m: CallMember, s: seq<CallMember>)
    ensures RemoveFirst([m] + s, m.remoteId) == s
  {
    assert ([m] + s)[0] == m;
  }

  lemma {:induction false} RemoveFirstBehindHead(m: CallMember, s: seq<CallMember>, id: Uuid)
    requires m.remoteId != id
    ensures RemoveFirst([m] + s, id) == [m] + RemoveFirst(s, id)
  {
    var ms := [m] + s;
    assert ms[0] == m && ms[1..] == s;
    assert IndexOf(ms, id) == match IndexOf(s, id) case Some(k) => Some(k + 1) case None => None;
    match IndexOf(s, id)
    case Some(k) =>
      assert ms[..k + 1] == [m] + s[..k];
      assert ms[k + 2..] == s[k + 1..];
    case None =>
  }

  /** Removing identifiers other than the head's leaves the head in front. */
  lemma {:induction false} RemoveAllBehindHead(m: CallMember, s: seq<CallMember>, removed: seq<CallMember>)
    requires forall i :: 0 <= i < |removed| ==> removed[i].remoteId != m.remoteId
    ensures RemoveAll([m] + s, removed) == [m] + RemoveAll(s, removed)
    decreases |removed|
  {
    if |removed| > 0 {
      RemoveFirstBehindHead(m, s, removed[0].remoteId);
      RemoveAllBehindHead(m, RemoveFirst(s, removed[0].remoteId), removed[1..]);
    }
  }

  /** The removal loop leaves exactly the old members that are still in the new list, in their old order. */
  lemma {:induction false} RemoveAllLeavesRetained(members: seq<CallMember>, newParticipants: seq<CallMember>)
    ensures RemoveAll(members, DropIn(members, newParticipants)) == KeepIn(members, newParticipants)
    decreases |members|
  {
    if |members| > 0 {
      var m := members[0];
      var rest := members[1..];
      assert members == [m] + rest;
      RemoveAllLeavesRetained(rest, newParticipants);
      if HasId(newParticipants, m.remoteId) {
        assert DropIn(members, newParticipants) == DropIn(rest, newParticipants);
        RemoveAllBehindHead(m, rest, DropIn(rest, newParticipants));
      } else {
        var removed := DropIn(members, newParticipants);
        assert removed == [m] + DropIn(rest, newParticipants);
        assert removed[1..] == DropIn(rest, newParticipants);
        RemoveFirstOfHead(m, rest);
      }
    }
  }

  // ---------------------------------------------------------------------------
  // Identifier sets
  // ---------------------------------------------------------------------------

  lemma {:induction false} IdSetAppend(s: seq<CallMember>, t: seq<CallMember>)
    ensures IdSet(s + t) == IdSet(s) + IdSet(t)
    decreases |s|
  {
    if |s| == 0 {
      assert s + t == t;
    } else {
      assert (s + t)[0] == s[0] && (s + t)[1..] == s[1..] + t;
      IdSetAppend(s[1..], t);
    }
  }

  lemma {:induction false} IdSetInsert(ms: seq<CallMember>, i: nat, m: CallMember)
    requires i <= |ms|
    ensures IdSet(Insert(ms, i, m)) == IdSet(ms) + {m.remoteId}
  {
    assert ms == ms[..i] + ms[i..];
    IdSetAppend(ms[..i] + [m], ms[i..]);
    IdSetAppend(ms[..i], [m]);
    IdSetAppend(ms[..i], ms[i..]);
    assert IdSet([m]) == {m.remoteId};
  }

  lemma {:induction false} IdSetNoLargerThanList(ms: seq<CallMember>)
    ensures |IdSet(ms)| <= |ms|
    decreases |ms|
  {
    if |ms| > 0 {
      IdSetNoLargerThanList(ms[1..]);
      assert ms == [ms[0]] + ms[1..];
      IdSetAppend([ms[0]], ms[1..]);
      assert IdSet([ms[0]]) == {ms[0].remoteId};
    }
  }

  lemma {:induction false} IdSetOfDistinct(ms: seq<CallMember>)
    requires DistinctIds(ms)
    ensures |IdSet(ms)| == |ms|
    decreases |ms|
  {
    if |ms| > 0 {
      IdSetOfDistinct(ms[1..]);
      assert ms == [ms[0]] + ms[1..];
      IdSetAppend([ms[0]], ms[1..]);
      assert IdSet([ms[0]]) == {ms[0].remoteId};
      HeadNotInTail(ms);
    }
  }

  lemma SubsetNoLarger(a: set<Uuid>, b: set<Uuid>)
    requires a <= b
    ensures |a| <= |b|
  {
    assert b == a + (b - a);
    assert a * (b - a) == {};
  }

  lemma {:induction false} IdSetKeepIn(s: seq<CallMember>, t: seq<CallMember>)
    ensures IdSet(KeepIn(s, t)) == IdSet(s) * IdSet(t)
    decreases |s|
  {
    if |s| > 0 {
      IdSetKeepIn(s[1..], t);
      assert s == [s[0]] + s[1..];
      IdSetAppend([s[0]], s[1..]);
      IdSetAppend(if HasId(t, s[0].remoteId) then [s[0]] else [], KeepIn(s[1..], t));
      assert IdSet([s[0]]) == {s[0].remoteId};
      assert IdSet([]) == {};
    }
  }

  lemma {:induction false} IdSetDropIn(s: seq<CallMember>, t: seq<CallMember>)
    ensures IdSet(DropIn(s, t)) == IdSet(s) - IdSet(t)
    decreases |s|
  {
    if |s| > 0 {
      IdSetDropIn(s[1..], t);
      assert s == [s[0]] + s[1..];
      IdSetAppend([s[0]], s[1..]);
      IdSetAppend(if HasId(t, s[0].remoteId) then [] else [s[0]], DropIn(s[1..], t));
      assert IdSet([s[0]]) == {s[0].remoteId};
      assert IdSet([]) == {};
    }
  }

  lemma {:induction false} IdSetPrefixStep(s: seq<CallMember>, p: nat)
    requires p < |s|
    ensures IdSet(s[..p + 1]) == IdSet(s[..p]) + {s[p].remoteId}
  {
    assert s[..p + 1] == s[..p] + [s[p]];
    IdSetAppend(s[..p], [s[p]]);
    assert IdSet([s[p]]) == {s[p].remoteId};
  }

  lemma IndexOfDistinct(s: seq<CallMember>, p: nat)
    requires DistinctIds(s) && p < |s|
    ensures IndexOf(s, s[p].remoteId) == Some(p)
  {
  }

  lemma DropInSuffixStep(s: seq<CallMember>, t: seq<CallMember>, p: nat)
    requires p < |s|
    ensures DropIn(s[p..], t) == (if HasId(t, s[p].remoteId) then [] else [s[p]]) + DropIn(s[p + 1..], t)
  {
    assert s[p..][0] == s[p] && s[p..][1..] == s[p + 1..];
  }

  // ---------------------------------------------------------------------------
  // Insertion
  // ---------------------------------------------------------------------------

  /**
   * The heart of the bounds argument: when the new list has distinct
   * identifiers and every earlier element of it is already a member, the
   * index of the next added element is at most the current member count.
   */
  lemma {:induction false} InsertionStaysInBounds(current: seq<CallMember>, members: seq<CallMember>, newParticipants: seq<CallMember>, p: nat)
    requires DistinctIds(newParticipants) && p <= |newParticipants|
    requires IdSet(newParticipants[..p]) <= IdSet(current)
    requires IdSet(members) * IdSet(newParticipants) <= IdSet(current)
    ensures InsertAll(current, DropIn(newParticipants[p..], members), newParticipants).Some?
    decreases |newParticipants| - p
  {
    if p < |newParticipants| {
      var n := newParticipants[p];
      DropInSuffixStep(newParticipants, members, p);
      IdSetPrefixStep(newParticipants, p);
      if HasId(members, n.remoteId) {
        assert n.remoteId in IdSet(newParticipants);
        assert DropIn(newParticipants[p..], members) == DropIn(newParticipants[p + 1..], members);
        InsertionStaysInBounds(current, members, newParticipants, p + 1);
      } else {
        var added := DropIn(newParticipants[p..], members);
        assert added[0] == n && added[1..] == DropIn(newParticipants[p + 1..], members);
        IndexOfDistinct(newParticipants, p);
        assert p <= |current| by {
          assert DistinctIds(newParticipants[..p]);
          IdSetOfDistinct(newParticipants[..p]);
          SubsetNoLarger(IdSet(newParticipants[..p]), IdSet(current));
          IdSetNoLargerThanList(current);
        }
        IdSetInsert(current, p, n);
        InsertionStaysInBounds(Insert(current, p, n), members, newParticipants, p + 1);
      }
    }
  }

  /** What the insertion loop adds: its identifiers, and its elements. */
  lemma {:induction false} InsertAllContents(current: seq<CallMember>, added: seq<CallMember>, newParticipants: seq<CallMember>)
    requires forall i :: 0 <= i < |added| ==> HasId(newParticipants, added[i].remoteId)
    requires InsertAll(current, added, newParticipants).Some?
    ensures var r := InsertAll(current, added, newParticipants).value;
            && IdSet(r) == IdSet(current) + IdSet(added)
            && multiset(r) == multiset(current) + multiset(added)
    decreases |added|
  {
    if |added| == 0 {
      assert IdSet(added) == {};
    } else {
      var a := added[0];
      assert added == [a] + added[1..];
      IdSetAppend([a], added[1..]);
      assert IdSet([a]) == {a.remoteId};
      var i := IndexOf(newParticipants, a.remoteId).value;
      var next := Insert(current, i, a);
      InsertAllContents(next, added[1..], newParticipants);
      IdSetInsert(current, i, a);
      assert current == current[..i] + current[i..];
      assert multiset(next) == multiset(current) + multiset{a};
    }
  }

  lemma {:induction false} KeepInAppend(s: seq<CallMember>, u: seq<CallMember>, t: seq<CallMember>)
    ensures KeepIn(s + u, t) == KeepIn(s, t) + KeepIn(u, t)
    decreases |s|
  {
    if |s| > 0 {
      assert (s + u)[0] == s[0] && (s + u)[1..] == s[1..] + u;
      KeepInAppend(s[1..], u, t);
    } else {
      assert s + u == u;
    }
  }

  lemma {:induction false} KeepInInsertOutsider(ms: seq<CallMember>, i: nat, m: CallMember, t: seq<CallMember>)
    requires i <= |ms| && !HasId(t, m.remoteId)
    ensures KeepIn(Insert(ms, i, m), t) == KeepIn(ms, t)
  {
    assert ms == ms[..i] + ms[i..];
    KeepInAppend(ms[..i] + [m], ms[i..], t);
    KeepInAppend(ms[..i], [m], t);
    KeepInAppend(ms[..i], ms[i..], t);
    assert [m][1..] == [];
  }

  /** Inserting elements that are not in `t` keeps the elements from `t` in their order. */
  lemma {:induction false} InsertAllKeepsOrder(current: seq<CallMember>, added: seq<CallMember>, newParticipants: seq<CallMember>, t: seq<CallMember>)
    requires forall i :: 0 <= i < |added| ==> !HasId(t, added[i].remoteId)
    requires InsertAll(current, added, newParticipants).Some?
    ensures KeepIn(InsertAll(current, added, newParticipants).value, t) == KeepIn(current, t)
    decreases |added|
  {
    if |added| > 0 {
      match IndexOf(newParticipants, added[0].remoteId)
      case None =>
        InsertAllKeepsOrder(current, added[1..], newParticipants, t);
      case Some(i) =>
        KeepInInsertOutsider(current, i, added[0], t);
        InsertAllKeepsOrder(Insert(current, i, added[0]), added[1..], newParticipants, t);
    }
  }

  lemma {:induction false} KeepInOfMembers(s: seq<CallMember>, t: seq<CallMember>)
    ensures KeepIn(KeepIn(s, t), s) == KeepIn(s, t)
    decreases |s|
  {
    if |s| > 0 {
      var k := KeepIn(s[1..], t);
      KeepInOfMembers(s[1..], t);
      KeepInWiden(k, s[1..], s);
      if HasId(t, s[0].remoteId) {
        assert KeepIn(s, t) == [s[0]] + k;
        assert ([s[0]] + k)[0] == s[0] && ([s[0]] + k)[1..] == k;
        assert HasId(s, s[0].remoteId);
      } else {
        assert KeepIn(s, t) == k;
      }
    }
  }

  /** Keeping against a longer list keeps everything that was kept against the shorter one. */
  lemma {:induction false} KeepInWiden(k: seq<CallMember>, s: seq<CallMember>, s': seq<CallMember>)
    requires IdSet(s) <= IdSet(s')
    requires KeepIn(k, s) == k
    ensures KeepIn(k, s') == k
    decreases |k|
  {
    if |k| > 0 {
      assert HasId(s, k[0].remoteId) by {
        assert KeepIn(k, s)[0] == k[0];
      }
      assert KeepIn(k[1..], s) == k[1..] by {
        assert |KeepIn(k, s)| == |k|;
        assert KeepIn(k, s) == [k[0]] + KeepIn(k[1..], s);
      }
      KeepInWiden(k[1..], s, s');
    }
  }

  // ---------------------------------------------------------------------------
  // What reconciliation promises
  // ---------------------------------------------------------------------------

  /** The reconciliation is first the removal of the leavers, then the insertion of the joiners. */
  lemma ReconcileSteps(members: seq<CallMember>, newParticipants: seq<CallMember>)
    ensures Reconcile(members, newParticipants)
            == InsertAll(KeepIn(members, newParticipants), DropIn(newParticipants, members), newParticipants)
  {
    RemoveAllLeavesRetained(members, newParticipants);
  }

  /** With distinct identifiers in the new list, no insertion index exceeds the member count. */
  lemma ReconcileNeverTraps(members: seq<CallMember>, newParticipants: seq<CallMember>)
    requires DistinctIds(newParticipants)
    ensures Reconcile(members, newParticipants).Some?
  {
    ReconcileSteps(members, newParticipants);
    IdSetKeepIn(members, newParticipants);
    assert newParticipants[..0] == [] && newParticipants[0..] == newParticipants;
    assert IdSet(newParticipants[..0]) == {};
    InsertionStaysInBounds(KeepIn(members, newParticipants), members, newParticipants, 0);
  }

  /** The joiners: the new participants whose identifier was not a member. */
  lemma JoinersAreInNewList(members: seq<CallMember>, newParticipants: seq<CallMember>)
    ensures forall i :: 0 <= i < |DropIn(newParticipants, members)| ==>
              HasId(newParticipants, DropIn(newParticipants, members)[i].remoteId)
  {
    IdSetDropIn(newParticipants, members);
  }

  /**
   * After reconciliation the members are the old members still present
   * followed by the joiners, up to order; their identifiers are exactly those
   * of the new list; and the old members still present keep their order.
   */
  lemma ReconcileResult(members: seq<CallMember>, newParticipants: seq<CallMember>)
    requires Reconcile(members, newParticipants).Some?
    ensures var r := Reconcile(members, newParticipants).value;
            && multiset(r) == multiset(KeepIn(members, newParticipants)) + multiset(DropIn(newParticipants, members))
            && IdSet(r) == IdSet(newParticipants)
            && KeepIn(r, members) == KeepIn(members, newParticipants)
  {
    var kept := KeepIn(members, newParticipants);
    var joiners := DropIn(newParticipants, members);
    ReconcileSteps(members, newParticipants);
    JoinersAreInNewList(members, newParticipants);
    InsertAllContents(kept, joiners, newParticipants);
    IdSetKeepIn(members, newParticipants);
    IdSetDropIn(newParticipants, members);
    InsertAllKeepsOrder(kept, joiners, newParticipants, members);
    KeepInOfMembers(members, newParticipants);
  }

  /** The result has one element per retained member and per joiner. */
  lemma ReconcileLength(members: seq<CallMember>, newParticipants: seq<CallMember>)
    requires Reconcile(members, newParticipants).Some?
    ensures |Reconcile(members, newParticipants).value| ==
            |KeepIn(members, newParticipants)| + |DropIn(newParticipants, members)|
  {
    ReconcileResult(members, newParticipants);
    var r := Reconcile(members, newParticipants).value;
    assert |multiset(r)| == |multiset(KeepIn(members, newParticipants)) + multiset(DropIn(newParticipants, members))|;
  }

  /** Two lists with distinct identifiers that split the identifiers of a third one between them are as long as it. */
  lemma SplitCount(a: seq<CallMember>, b: seq<CallMember>, whole: seq<CallMember>)
    requires DistinctIds(a) && DistinctIds(b) && DistinctIds(whole)
    requires IdSet(a) * IdSet(b) == {} && IdSet(a) + IdSet(b) == IdSet(whole)
    ensures |a| + |b| == |whole|
  {
    IdSetOfDistinct(a);
    IdSetOfDistinct(b);
    IdSetOfDistinct(whole);
  }

  /** With distinct identifiers, reconciliation does not trap and yields as many members as the new list. */
  lemma ReconcileDistinct(members: seq<CallMember>, newParticipants: seq<CallMember>)
    requires DistinctIds(members) && DistinctIds(newParticipants)
    ensures Reconcile(members, newParticipants).Some?
    ensures |Reconcile(members, newParticipants).value| == |newParticipants|
  {
    ReconcileNeverTraps(members, newParticipants);
    ReconcileLength(members, newParticipants);
    var kept := KeepIn(members, newParticipants);
    var joiners := DropIn(newParticipants, members);
    KeepInDistinct(members, newParticipants);
    DropInDistinct(newParticipants, members);
    IdSetKeepIn(members, newParticipants);
    IdSetDropIn(newParticipants, members);
    SplitCount(kept, joiners, newParticipants);
  }

  lemma {:induction false} KeepInDistinct(s: seq<CallMember>, t: seq<CallMember>)
    requires DistinctIds(s)
    ensures DistinctIds(KeepIn(s, t))
    decreases |s|
  {
    if |s| > 0 {
      KeepInDistinct(s[1..], t);
      KeepInSubset(s[1..], t);
      HeadNotInTail(s);
    }
  }

  lemma {:induction false} DropInDistinct(s: seq<CallMember>, t: seq<CallMember>)
    requires DistinctIds(s)
    ensures DistinctIds(DropIn(s, t))
    decreases |s|
  {
    if |s| > 0 {
      DropInDistinct(s[1..], t);
      DropInSubset(s[1..], t);
      HeadNotInTail(s);
    }
  }

  lemma KeepInSubset(s: seq<CallMember>, t: seq<CallMember>)
    ensures IdSet(KeepIn(s, t)) <= IdSet(s)
  {
    IdSetKeepIn(s, t);
  }

  lemma DropInSubset(s: seq<CallMember>, t: seq<CallMember>)
    ensures IdSet(DropIn(s, t)) <= IdSet(s)
  {
    IdSetDropIn(s, t);
  }

  /** A repeated identifier in the new list can push an insertion index past the end. */
  lemma RepeatedIdTraps()
    ensures var y := CallMember(1, false);
            var a := CallMember(2, false);
            Reconcile([y], [y, y, a]) == None
  {
    var y := CallMember(1, false);
    var a := CallMember(2, false);
    assert [y][1..] == [];
    assert IdSet([y]) == {1};
    assert HasId([y, y, a], y.remoteId);
    assert DropIn([y], [y, y, a]) == [];
    assert [y, y, a][1..] == [y, a] && [y, a][1..] == [a] && [a][1..] == [];
    assert DropIn([a], [y]) == [a];
    assert DropIn([y, a], [y]) == [a];
    assert DropIn([y, y, a], [y]) == [a];
    assert IndexOf([y, y, a], 2) == Some(2);
  }

  /** When every old member is still present, keeping against the new list keeps them all. */
  lemma {:induction false} KeepInAll(s: seq<CallMember>, t: seq<CallMember>)
    requires IdSet(s) <= IdSet(t)
    ensures KeepIn(s, t) == s
    decreases |s|
  {
    if |s| > 0 {
      KeepInAll(s[1..], t);
      assert s == [s[0]] + s[1..];
    }
  }

  /** A list with no identifiers is empty. */
  lemma NoIdsNoElements(s: seq<CallMember>)
    ensures IdSet(s) == {} ==> s == []
  {
    if |s| > 0 {
      assert s[0].remoteId in IdSet(s);
    }
  }

  /**
   * When the new list names the same participants, the members stay exactly
   * as they were, keeping their old audio state even where it changed.
   */
  lemma SameIdsKeepMembers(members: seq<CallMember>, newParticipants: seq<CallMember>)
    requires IdSet(members) == IdSet(newParticipants)
    ensures Reconcile(members, newParticipants) == Some(members)
  {
    ReconcileSteps(members, newParticipants);
    KeepInAll(members, newParticipants);
    IdSetDropIn(newParticipants, members);
    NoIdsNoElements(DropIn(newParticipants, members));
  }

  /** The first participant to join an empty call becomes the only member, with nothing updated. */
  lemma FirstJoiner(user: CallMember)
    ensures Reconcile([], [user]) == Some([user])
    ensures UpdatedIn([user], [user]) == {}
  {
    assert [user][1..] == [];
    assert DropIn([], [user]) == [];
    assert RemoveAll([], []) == [];
    assert IdSet([]) == {};
    assert DropIn([user], []) == [user];
    assert IndexOf([user], user.remoteId) == Some(0);
    assert Insert([], 0, user) == [user];
    assert InsertAll([], [user], [user]) == InsertAll([user], [], [user]);
    assert Reconcile([], [user]) == InsertAll([], [user], [user]);
  }

  /**
   * The sole participant acquiring audio: no member joins or leaves, the
   * member is reported as updated, and it keeps its old audio state, so the
   * same list reported again reports it again.
   */
  lemma SoleParticipantAudioFlip(id: Uuid)
    ensures var before := CallMember(id, false);
            var after := CallMember(id, true);
            && Reconcile([before], [after]) == Some([before])
            && UpdatedIn([before], [after]) == {before}
  {
    var before := CallMember(id, false);
    var after := CallMember(id, true);
    assert [before][1..] == [] && [after][1..] == [];
    assert IdSet([before]) == {id} && IdSet([after]) == {id};
    SameIdsKeepMembers([before], [after]);
    assert IndexOf([after], id) == Some(0);
  }

  // ---------------------------------------------------------------------------
  // Sorting participants
  // ---------------------------------------------------------------------------

  /** The identifiers of the participants other than the self user, in order. */
  function OtherIds(participants: seq<CallMember>, selfUserID: Uuid): seq<Uuid>
  {
    if |participants| == 0 then []
    else
      var rest := OtherIds(participants[1..], selfUserID);
      (if participants[0].remoteId != selfUserID then [participants[0].remoteId] else []) + rest
  }

  /** The participants whose audio is established, in order. */
  function WithAudio(participants: seq<CallMember>): seq<CallMember>
  {
    if |participants| == 0 then []
    else (if participants[0].audioEstablished then [participants[0]] else []) + WithAudio(participants[1..])
  }

  /** The identifiers of the connected participants other than the self user, in order. */
  function ConnectedIds(participants: seq<CallMember>, selfUserID: Uuid): seq<Uuid> {
    if |participants| == 0 then []
    else
      var p := participants[0];
      (if p.remoteId != selfUserID && p.audioEstablished then [p.remoteId] else []) + ConnectedIds(participants[1..], selfUserID)
  }

  /** The identifiers participant `p` contributes to `all` and to `connected`. */
  function OtherId(p: CallMember, selfUserID: Uuid): seq<Uuid> {
    if p.remoteId != selfUserID then [p.remoteId] else []
  }

  function ConnectedId(p: CallMember, selfUserID: Uuid): seq<Uuid> {
    if p.remoteId != selfUserID && p.audioEstablished then [p.remoteId] else []
  }

  /** One step of the sorting loop keeps both accumulator invariants. */
  lemma SortStep(participants: seq<CallMember>, i: nat, selfUserID: Uuid, all: seq<Uuid>, connected: seq<Uuid>)
    requires i < |participants|
    requires all + OtherIds(participants[i..], selfUserID) == OtherIds(participants, selfUserID)
    requires connected + ConnectedIds(participants[i..], selfUserID) == ConnectedIds(participants, selfUserID)
    ensures all + OtherId(participants[i], selfUserID) + OtherIds(participants[i + 1..], selfUserID)
            == OtherIds(participants, selfUserID)
    ensures connected + ConnectedId(participants[i], selfUserID) + ConnectedIds(participants[i + 1..], selfUserID)
            == ConnectedIds(participants, selfUserID)
  {
    assert participants[i..][0] == participants[i] && participants[i..][1..] == participants[i + 1..];
    assert OtherIds(participants[i..], selfUserID) == OtherId(participants[i], selfUserID) + OtherIds(participants[i + 1..], selfUserID);
    assert ConnectedIds(participants[i..], selfUserID) == ConnectedId(participants[i], selfUserID) + ConnectedIds(participants[i + 1..], selfUserID);
  }

  /** Exactly the other participants are listed. */
  lemma {:induction false} OtherIdsMembership(participants: seq<CallMember>, selfUserID: Uuid, id: Uuid)
    ensures id in OtherIds(participants, selfUserID) <==> id != selfUserID && id in IdSet(participants)
    decreases |participants|
  {
    if |participants| > 0 {
      OtherIdsMembership(participants[1..], selfUserID, id);
    }
  }

  /** The connected identifiers are those of `all` whose member has audio established. */
  lemma {:induction false} ConnectedAreOthersWithAudio(participants: seq<CallMember>, selfUserID: Uuid)
    ensures ConnectedIds(participants, selfUserID) == OtherIds(WithAudio(participants), selfUserID)
    decreases |participants|
  {
    if |participants| > 0 {
      ConnectedAreOthersWithAudio(participants[1..], selfUserID);
      var p := participants[0];
      var rest := WithAudio(participants[1..]);
      if p.audioEstablished {
        assert WithAudio(participants) == [p] + rest;
        assert ([p] + rest)[0] == p && ([p] + rest)[1..] == rest;
      } else {
        assert WithAudio(participants) == rest;
      }
    }
  }

  // ---------------------------------------------------------------------------
  // The snapshot
  // ---------------------------------------------------------------------------

  /** The connection states `connectionState(forUserWith:)` can answer. */
  datatype VoiceChannelConnectionState = NotConnected | Connecting | Connected

  class VoiceChannelParticipantV3Snapshot {
    var members: seq<CallMember>
    const conversationId: Uuid
    const selfUserID: Uuid
    const initiator: Uuid

    /**
     * The given members or, when there are none, the call's active flow
     * participants; the initiator defaults to the self user.
     */
    constructor (conversationId: Uuid, selfUserID: Uuid, members: Option<seq<CallMember>>,
                 initiator: Option<Uuid>, activeFlowParticipants: seq<CallMember>)
      ensures this.conversationId == conversationId && this.selfUserID == selfUserID
      ensures this.initiator == initiator.GetOr(selfUserID)
      ensures this.members == members.GetOr(activeFlowParticipants)
    {
      this.conversationId := conversationId;
      this.selfUserID := selfUserID;
      this.initiator := initiator.GetOr(selfUserID);
      this.members := members.GetOr(activeFlowParticipants);
    }

    /**
     * `sort(participants:selfUserID:)`: the identifiers of the other
     * participants, and those of them with audio established.
     */
    static method Sort(participants: seq<CallMember>, selfUserID: Uuid) returns (all: seq<Uuid>, connected: seq<Uuid>)
      ensures all == OtherIds(participants, selfUserID)
      ensures connected == OtherIds(WithAudio(participants), selfUserID)
    {
      all := [];
      connected := [];
      for i := 0 to |participants|
        invariant all + OtherIds(participants[i..], selfUserID) == OtherIds(participants, selfUserID)
        invariant connected + ConnectedIds(participants[i..], selfUserID) == ConnectedIds(participants, selfUserID)
      {
        var p := participants[i];
        ghost var allBefore, connectedBefore := all, connected;
        SortStep(participants, i, selfUserID, all, connected);
        if p.remoteId != selfUserID {
          if p.audioEstablished {
            connected := connected + [p.remoteId];
          }
          all := all + [p.remoteId];
        }
        assert all == allBefore + OtherId(p, selfUserID) && connected == connectedBefore + ConnectedId(p, selfUserID);
      }
      assert participants[|participants|..] == [];
      ConnectedAreOthersWithAudio(participants, selfUserID);
    }

    /**
     * `callParticipantsChanged(newParticipants:)`: remove the members that
     * left, insert the joiners at their index in the new list, and collect the
     * members whose audio state changed. `trapped` is the runtime trap of an
     * insertion index past the end.
     */
    method CallParticipantsChanged(newParticipants: seq<CallMember>) returns (updated: set<CallMember>, trapped: bool)
      modifies this
      ensures trapped <==> Reconcile(old(members), newParticipants).None?
      ensures !trapped ==> members == Reconcile(old(members), newParticipants).value
      ensures !trapped ==> updated == UpdatedIn(members, newParticipants)
      ensures trapped ==> updated == {}
      ensures DistinctIds(newParticipants) ==> !trapped && IdSet(members) == IdSet(newParticipants)
    {
      var before := members;
      var added := DropIn(newParticipants, members);
      var removed := DropIn(members, newParticipants);

      for i := 0 to |removed|
        invariant RemoveAll(members, removed[i..]) == RemoveAll(before, removed)
      {
        assert removed[i..][0] == removed[i] && removed[i..][1..] == removed[i + 1..];
        var idx := IndexOf(members, removed[i].remoteId);
        if idx.Some? {
          members := members[..idx.value] + members[idx.value + 1..];
        }
      }
      assert removed[|removed|..] == [];

      ghost var remaining := members;
      for i := 0 to |added|
        invariant InsertAll(members, added[i..], newParticipants) == InsertAll(remaining, added, newParticipants)
      {
        assert added[i..][0] == added[i] && added[i..][1..] == added[i + 1..];
        var idx := IndexOf(newParticipants, added[i].remoteId);
        if idx.Some? {
          if idx.value > |members| {
            if DistinctIds(newParticipants) {
              ReconcileNeverTraps(before, newParticipants);
            }
            return {}, true;
          }
          members := members[..idx.value] + [added[i]] + members[idx.value..];
        }
      }
      assert added[|added|..] == [];
      trapped := false;

      updated := {};
      for i := 0 to |members|
        invariant updated + UpdatedIn(members[i..], newParticipants) == UpdatedIn(members, newParticipants)
      {
        assert members[i..][0] == members[i] && members[i..][1..] == members[i + 1..];
        var m := members[i];
        var idx := IndexOf(newParticipants, m.remoteId);
        if idx.Some? {
          var newMember := newParticipants[idx.value];
          if newMember.audioEstablished != m.audioEstablished {
            updated := updated + {m};
          }
        }
      }
      assert members[|members|..] == [];
      if DistinctIds(newParticipants) {
        ReconcileNeverTraps(before, newParticipants);
        ReconcileResult(before, newParticipants);
      }
    }

    /** `connectionState(forUserWith:)` for this snapshot's members. */
    function ConnectionState(userId: Uuid): (r: VoiceChannelConnectionState)
      reads this
      ensures r == NotConnected <==> !HasId(members, userId)
      ensures r == Connected <==> HasId(members, userId)
    {
      ConnectionStateOf(members, userId)
    }
  }

  /**
   * `connectionState(forUserWith:)`: not connected exactly when the user is
   * not a member; being joined and having an active flow are the same test,
   * so `connecting` is never answered.
   */
  function ConnectionStateOf(members: seq<CallMember>, userId: Uuid): (r: VoiceChannelConnectionState)
    ensures r == NotConnected <==> !HasId(members, userId)
    ensures r != Connecting
  {
    var isJoined := HasId(members, userId);
    var isFlowActive := HasId(members, userId);
    if !isJoined then NotConnected
    else if isFlowActive then Connected
    else Connecting
  }
}
