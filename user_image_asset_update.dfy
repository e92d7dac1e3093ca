/**
 * The request strategy that downloads and uploads the self user's profile
 * images: it decides which request to send next, builds the fetch and upload
 * requests, and feeds upload responses back into the profile-image status.
 *
 * The request syncs it drives are foreign objects; they are modelled as small
 * oracles: a download sync has at most one request pending, and an upload
 * sync hands out nothing while one of its requests is in flight.
 */
module UserImageAssetUpdate {
  import opened Wrappers
  import opened AssetErrors
  import opened ProfileImageStatus
  import ProfileImageStatusProperties

  /** The phases of the authentication status that matter here. */
  datatype AuthenticationPhase = Unauthenticated | Authenticated

  /** The two kinds of request the strategy sends. */
  datatype TransportRequest =
    | ImageGet(path: string)
    | AssetUpload(data: ImageData)

  const AssetsPath := "/assets/v3/"

  /** The download path of an asset: the v3 assets endpoint followed by the identifier. */
  function FetchPath(assetId: AssetId): (path: string)
    ensures |path| == |AssetsPath| + |assetId|
    ensures path[..|AssetsPath|] == AssetsPath && path[|AssetsPath|..] == assetId
  {
    AssetsPath + assetId
  }

  /** Reads the asset identifier back out of a download path. */
  function ParseFetchPath(path: string): (r: Option<AssetId>)
    ensures r.Some? <==> |path| >= |AssetsPath| && path[..|AssetsPath|] == AssetsPath
  {
    if |path| >= |AssetsPath| && path[..|AssetsPath|] == AssetsPath then Some(path[|AssetsPath|..]) else None
  }

  /** A download path names exactly the asset it was built from. */
  lemma FetchPathRoundTrip(assetId: AssetId)
    ensures ParseFetchPath(FetchPath(assetId)) == Some(assetId)
  {
  }

  /** Different assets are fetched from different paths. */
  lemma FetchPathInjective(a: AssetId, b: AssetId)
    requires FetchPath(a) == FetchPath(b)
    ensures a == b
  {
    FetchPathRoundTrip(a);
    FetchPathRoundTrip(b);
  }

  /** The remote identifier of the user's image of the given size. */
  function RemoteAssetId(user: SelfUser, size: ProfileImageSize): (r: Option<AssetId>)
    ensures size == Preview ==> r == user.previewProfileAssetIdentifier
    ensures size == Complete ==> r == user.completeProfileAssetIdentifier
  {
    match size
    case Preview => user.previewProfileAssetIdentifier
    case Complete => user.completeProfileAssetIdentifier
  }

  /**
   * The first of `sizes` whose registered value in `m` is `v` (compared by
   * identity when `V` is a class): what `size(for:)` finds.
   */
  function SizeRegisteredAs<V(==)>(m: map<ProfileImageSize, V>, v: V, sizes: seq<ProfileImageSize>): (r: Option<ProfileImageSize>)
    ensures r.Some? ==> r.value in sizes && r.value in m && m[r.value] == v
    ensures r.None? <==> forall i :: 0 <= i < |sizes| && sizes[i] in m ==> m[sizes[i]] != v
  {
    if |sizes| == 0 then None
    else if sizes[0] in m && m[sizes[0]] == v then Some(sizes[0])
    else
      var r := SizeRegisteredAs(m, v, sizes[1..]);
      assert forall i :: 1 <= i < |sizes| ==> sizes[i] == sizes[1..][i - 1];
      r
  }

  /** Every size is listed in `AllSizes`. */
  lemma AllSizesListed(size: ProfileImageSize)
    ensures size in AllSizes
  {
    assert AllSizes[0] == Preview && AllSizes[1] == Complete;
  }

  /** Over all sizes, nothing is found exactly when no size is registered with `v`. */
  lemma {:induction false} NoSizeRegistered<V>(m: map<ProfileImageSize, V>, v: V)
    ensures SizeRegisteredAs(m, v, AllSizes).None? <==> forall size :: size in m ==> m[size] != v
  {
    if SizeRegisteredAs(m, v, AllSizes).None? {
      forall size | size in m
        ensures m[size] != v
      {
        AllSizesListed(size);
        var i :| 0 <= i < |AllSizes| && AllSizes[i] == size;
      }
    }
  }

  /** With distinct registrations, a registered value is found under its own size. */
  lemma {:induction false} RegisteredSizeFound<V>(m: map<ProfileImageSize, V>, size: ProfileImageSize)
    requires Preview in m && Complete in m && m[Preview] != m[Complete]
    ensures SizeRegisteredAs(m, m[size], AllSizes) == Some(size)
  {
    var r := SizeRegisteredAs(m, m[size], AllSizes);
    NoSizeRegistered(m, m[size]);
    assert r.Some?;
    assert m[r.value] == m[size];
  }

  /** A download sync, as an oracle: the request it would produce next, if any. */
  class DownstreamObjectSync {
    var pendingRequest: Option<TransportRequest>

    constructor ()
      ensures pendingRequest == None
    {
      pendingRequest := None;
    }

    method NextRequest() returns (request: Option<TransportRequest>)
      ensures request == pendingRequest
    {
      request := pendingRequest;
    }
  }

  /** An upload sync, as an oracle: whether one of its requests is still in flight. */
  class SingleRequestSync {
    var inProgress: bool

    constructor ()
      ensures !inProgress
    {
      inProgress := false;
    }
  }

  /** What an upload response means for the size it was sent for. */
  datatype UploadOutcome =
    | NotForThisStrategy
    | UploadFailedWith(error: AssetTransportError)
    | UploadDoneWith(assetId: AssetId)
    | MissingAssetId

  /**
   * The outcome of an upload response: a non-success is a classified failure,
   * a success carries the new asset identifier under "key", and a success
   * without one is the fatal error of the source.
   */
  function UploadResponseOutcome(response: TransportResponse): (r: UploadOutcome)
    ensures r.UploadFailedWith? <==> response.result != Success
    ensures r.UploadFailedWith? ==> r.error == Classify(response)
    ensures r.UploadDoneWith? <==> response.result == Success && PayloadString(response, "key").Some?
    ensures r.UploadDoneWith? ==> PayloadString(response, "key") == Some(r.assetId)
    ensures !r.NotForThisStrategy?
  {
    if response.result != Success then UploadFailedWith(Classify(response))
    else match PayloadString(response, "key")
      case Some(key) => UploadDoneWith(key)
      case None => MissingAssetId
  }

  class UserImageAssetUpdateStrategy {
    var upstreamRequestSyncs: map<ProfileImageSize, SingleRequestSync>
    var downstreamRequestSyncs: map<ProfileImageSize, DownstreamObjectSync>
    /** Held weakly by the source: it may be gone. */
    var imageUploadStatus: UserProfileImageUpdateStatus?
    var authenticationPhase: AuthenticationPhase

    /** Each size has its own download sync and its own upload sync. */
    ghost predicate Valid()
      reads this
    {
      && Preview in upstreamRequestSyncs && Complete in upstreamRequestSyncs
      && upstreamRequestSyncs[Preview] != upstreamRequestSyncs[Complete]
      && Preview in downstreamRequestSyncs && Complete in downstreamRequestSyncs
      && downstreamRequestSyncs[Preview] != downstreamRequestSyncs[Complete]
    }

    constructor (imageUploadStatus: UserProfileImageUpdateStatus, authenticationPhase: AuthenticationPhase)
      ensures Valid()
      ensures this.imageUploadStatus == imageUploadStatus && this.authenticationPhase == authenticationPhase
      ensures forall size :: size in downstreamRequestSyncs ==> fresh(downstreamRequestSyncs[size])
      ensures forall size :: size in upstreamRequestSyncs ==> fresh(upstreamRequestSyncs[size])
      ensures forall size :: size in downstreamRequestSyncs ==> downstreamRequestSyncs[size].pendingRequest == None
      ensures forall size :: size in upstreamRequestSyncs ==> !upstreamRequestSyncs[size].inProgress
    {
      this.imageUploadStatus := imageUploadStatus;
      this.authenticationPhase := authenticationPhase;
      var previewDownload := new DownstreamObjectSync();
      var completeDownload := new DownstreamObjectSync();
      downstreamRequestSyncs := map[Preview := previewDownload, Complete := completeDownload];
      var previewUpload := new SingleRequestSync();
      var completeUpload := new SingleRequestSync();
      upstreamRequestSyncs := map[Preview := previewUpload, Complete := completeUpload];
    }

    /** The size whose download sync is `requestSync`. */
    function DownstreamSizeOf(requestSync: DownstreamObjectSync): (r: Option<ProfileImageSize>)
      reads this
      ensures r.Some? ==> r.value in downstreamRequestSyncs && downstreamRequestSyncs[r.value] == requestSync
    {
      SizeRegisteredAs(downstreamRequestSyncs, requestSync, AllSizes)
    }

    /** The size whose upload sync is `requestSync`. */
    function UpstreamSizeOf(requestSync: SingleRequestSync): (r: Option<ProfileImageSize>)
      reads this
      ensures r.Some? ==> r.value in upstreamRequestSyncs && upstreamRequestSyncs[r.value] == requestSync
    {
      SizeRegisteredAs(upstreamRequestSyncs, requestSync, AllSizes)
    }

    /** `size(for:)` on download syncs: the size registered with this very sync, if any. */
    method SizeForDownstream(requestSync: DownstreamObjectSync) returns (r: Option<ProfileImageSize>)
      ensures r.Some? ==> r.value in downstreamRequestSyncs && downstreamRequestSyncs[r.value] == requestSync
      ensures r.None? <==> forall size :: size in downstreamRequestSyncs ==> downstreamRequestSyncs[size] != requestSync
      ensures r == DownstreamSizeOf(requestSync)
    {
      NoSizeRegistered(downstreamRequestSyncs, requestSync);
      for i := 0 to |AllSizes|
        invariant SizeRegisteredAs(downstreamRequestSyncs, requestSync, AllSizes[i..])
                  == SizeRegisteredAs(downstreamRequestSyncs, requestSync, AllSizes)
      {
        assert AllSizes[i..][1..] == AllSizes[i + 1..];
        var size := AllSizes[i];
        if size in downstreamRequestSyncs && downstreamRequestSyncs[size] == requestSync {
          return Some(size);
        }
      }
      return None;
    }

    /** `size(for:)` on upload syncs: the size registered with this very sync, if any. */
    method SizeForUpstream(requestSync: SingleRequestSync) returns (r: Option<ProfileImageSize>)
      ensures r.Some? ==> r.value in upstreamRequestSyncs && upstreamRequestSyncs[r.value] == requestSync
      ensures r.None? <==> forall size :: size in upstreamRequestSyncs ==> upstreamRequestSyncs[size] != requestSync
      ensures r == UpstreamSizeOf(requestSync)
    {
      NoSizeRegistered(upstreamRequestSyncs, requestSync);
      for i := 0 to |AllSizes|
        invariant SizeRegisteredAs(upstreamRequestSyncs, requestSync, AllSizes[i..])
                  == SizeRegisteredAs(upstreamRequestSyncs, requestSync, AllSizes)
      {
        assert AllSizes[i..][1..] == AllSizes[i + 1..];
        var size := AllSizes[i];
        if size in upstreamRequestSyncs && upstreamRequestSyncs[size] == requestSync {
          return Some(size);
        }
      }
      return None;
    }

    /**
     * `request(forFetching:downstreamSync:)`: a download of the user's image of
     * the sync's size, from the path of its remote identifier. `downstreamSync`
     * is null when the sync is not a download sync, `user` is `None` when the
     * object is not a user.
     */
    method RequestForFetching(user: Option<SelfUser>, downstreamSync: DownstreamObjectSync?) returns (r: Option<TransportRequest>)
      ensures r.Some? <==>
        && downstreamSync != null && user.Some?
        && DownstreamSizeOf(downstreamSync).Some?
        && RemoteAssetId(user.value, DownstreamSizeOf(downstreamSync).value).Some?
      ensures r.Some? ==>
        r.value == ImageGet(FetchPath(RemoteAssetId(user.value, DownstreamSizeOf(downstreamSync).value).value))
    {
      if downstreamSync == null || user.None? {
        return None;
      }
      var size := SizeForDownstream(downstreamSync);
      if size.None? {
        return None;
      }
      var remoteId := RemoteAssetId(user.value, size.value);
      if remoteId.None? {
        return None;
      }
      return Some(ImageGet(FetchPath(remoteId.value)));
    }

    /**
     * `request(for:)`: an upload of the image pending for the sync's size,
     * consuming it from the status; nothing when the sync is not registered,
     * the status is gone, or no image is pending.
     */
    method RequestFor(requestSync: SingleRequestSync) returns (r: Option<TransportRequest>)
      modifies imageUploadStatus
      ensures imageUploadStatus == null || UpstreamSizeOf(requestSync).None? ==> r == None
      ensures imageUploadStatus != null && UpstreamSizeOf(requestSync).None? ==>
        imageUploadStatus.Snapshot() == old(imageUploadStatus.Snapshot())
      ensures imageUploadStatus != null && UpstreamSizeOf(requestSync).Some? ==>
        var size := UpstreamSizeOf(requestSync).value;
        var (image, next) := old(imageUploadStatus.Snapshot()).ConsumeImage(size);
        && r == (if image.Some? then Some(AssetUpload(image.value)) else None)
        && imageUploadStatus.Snapshot() == next
        && !imageUploadStatus.HasImageToUpload(size)
    {
      var size := SizeForUpstream(requestSync);
      if size.None? || imageUploadStatus == null {
        return None;
      }
      ghost var before := imageUploadStatus.Snapshot();
      var image := imageUploadStatus.ConsumeImage(size.value);
      ProfileImageStatusProperties.ConsumeIsPopOnce(before, size.value);
      ProfileImageStatusProperties.HasImageIffConsumable(before.ConsumeImage(size.value).1, size.value);
      if image.None? {
        return None;
      }
      return Some(AssetUpload(image.value));
    }

    /** The request the download sync of `size` has pending, if that sync is registered. */
    function PendingDownload(size: ProfileImageSize): Option<TransportRequest>
      reads this, downstreamRequestSyncs.Values
    {
      if size in downstreamRequestSyncs then downstreamRequestSyncs[size].pendingRequest else None
    }

    /** The first pending download over `sizes`, tried in that order. */
    function FirstPendingDownload(sizes: seq<ProfileImageSize>): (r: Option<TransportRequest>)
      reads this, downstreamRequestSyncs.Values
      ensures r.None? <==> forall i :: 0 <= i < |sizes| ==> PendingDownload(sizes[i]).None?
      ensures r.Some? ==> exists i :: 0 <= i < |sizes| && PendingDownload(sizes[i]) == r
                            && forall j :: 0 <= j < i ==> PendingDownload(sizes[j]).None?
    {
      if |sizes| == 0 then None
      else if PendingDownload(sizes[0]).Some? then
        assert PendingDownload(sizes[0]) == PendingDownload(sizes[0]);
        PendingDownload(sizes[0])
      else
        var r := FirstPendingDownload(sizes[1..]);
        assert forall i :: 1 <= i < |sizes| ==> sizes[i] == sizes[1..][i - 1];
        assert r.Some? ==> exists i :: 1 <= i < |sizes| && PendingDownload(sizes[i]) == r
                                  && forall j :: 0 <= j < i ==> PendingDownload(sizes[j]).None? by {
          if r.Some? {
            var k :| 0 <= k < |sizes[1..]| && PendingDownload(sizes[1..][k]) == r
                     && forall j :: 0 <= j < k ==> PendingDownload(sizes[1..][j]).None?;
            assert PendingDownload(sizes[k + 1]) == r;
          }
        }
        r
    }

    /** The first of `sizes` that has an image to upload in `status` and a registered upload sync. */
    function FirstUploadSize(status: Status, sizes: seq<ProfileImageSize>): (r: Option<ProfileImageSize>)
      reads this
      ensures r.Some? ==> r.value in sizes && status.HasImageToUpload(r.value) && r.value in upstreamRequestSyncs
      ensures r.None? <==> forall i :: 0 <= i < |sizes| ==>
                             !(status.HasImageToUpload(sizes[i]) && sizes[i] in upstreamRequestSyncs)
    {
      if |sizes| == 0 then None
      else if status.HasImageToUpload(sizes[0]) && sizes[0] in upstreamRequestSyncs then Some(sizes[0])
      else
        var r := FirstUploadSize(status, sizes[1..]);
        assert forall i :: 1 <= i < |sizes| ==> sizes[i] == sizes[1..][i - 1];
        r
    }

    /** The profile-image status as a value, when it is still there. */
    ghost function UploadStatus(): Option<Status>
      reads this, imageUploadStatus
    {
      if imageUploadStatus == null then None else Some(imageUploadStatus.Snapshot())
    }

    /** Which upload syncs have a request in flight. */
    ghost function Busy(): map<ProfileImageSize, bool>
      reads this, upstreamRequestSyncs.Values
    {
      map size | size in upstreamRequestSyncs :: upstreamRequestSyncs[size].inProgress
    }

    /** The download loop of `nextRequest()`: each size's download sync in `AllSizes` order, first answer wins. */
    method NextDownloadRequest() returns (r: Option<TransportRequest>)
      ensures r.None? <==> forall size :: size in downstreamRequestSyncs ==> downstreamRequestSyncs[size].pendingRequest.None?
      ensures r == FirstPendingDownload(AllSizes)
    {
      forall size | size in downstreamRequestSyncs
        ensures size in AllSizes
      {
        AllSizesListed(size);
      }
      for i := 0 to |AllSizes|
        invariant FirstPendingDownload(AllSizes[i..]) == FirstPendingDownload(AllSizes)
      {
        assert AllSizes[i..][1..] == AllSizes[i + 1..];
        var size := AllSizes[i];
        if size in downstreamRequestSyncs {
          var request := downstreamRequestSyncs[size].NextRequest();
          if request.Some? {
            return request;
          }
        }
      }
      return None;
    }

    /**
     * The upload choice of `nextRequest()`: the sizes with an image to upload,
     * in `AllSizes` order, keeping those with a registered upload sync; the first.
     */
    method ChooseUploadSize() returns (choice: Option<ProfileImageSize>)
      requires imageUploadStatus != null
      ensures choice.Some? ==> imageUploadStatus.HasImageToUpload(choice.value) && choice.value in upstreamRequestSyncs
      ensures choice.None? <==> forall size :: size in upstreamRequestSyncs ==> !imageUploadStatus.HasImageToUpload(size)
      ensures choice == FirstUploadSize(imageUploadStatus.Snapshot(), AllSizes)
    {
      forall size | size in upstreamRequestSyncs
        ensures size in AllSizes
      {
        AllSizesListed(size);
      }
      for i := 0 to |AllSizes|
        invariant FirstUploadSize(imageUploadStatus.Snapshot(), AllSizes[i..]) == FirstUploadSize(imageUploadStatus.Snapshot(), AllSizes)
      {
        assert AllSizes[i..][1..] == AllSizes[i + 1..];
        var size := AllSizes[i];
        if imageUploadStatus.HasImageToUpload(size) && size in upstreamRequestSyncs {
          return Some(size);
        }
      }
      return None;
    }

    /**
     * An upload sync's turn (`readyForNextRequestIfNotBusy()` then
     * `nextRequest()`): nothing while a request of it is in flight; otherwise
     * it asks `request(for:)` and is in flight when that produced a request.
     */
    method UploadSyncNextRequest(requestSync: SingleRequestSync) returns (r: Option<TransportRequest>)
      requires Valid() && imageUploadStatus != null
      requires UpstreamSizeOf(requestSync).Some?
      requires imageUploadStatus.HasImageToUpload(UpstreamSizeOf(requestSync).value)
      modifies requestSync, imageUploadStatus
      ensures old(requestSync.inProgress) ==>
        r == None && UploadStatus() == old(UploadStatus()) && Busy() == old(Busy())
      ensures !old(requestSync.inProgress) ==>
        var size := UpstreamSizeOf(requestSync).value;
        var (image, next) := old(imageUploadStatus.Snapshot()).ConsumeImage(size);
        && image.Some? && r == Some(AssetUpload(image.value))
        && imageUploadStatus.Snapshot() == next && Busy() == old(Busy())[size := true]
    {
      if requestSync.inProgress {
        return None;
      }
      var size := UpstreamSizeOf(requestSync).value;
      ghost var busy := Busy();
      ghost var otherSync := upstreamRequestSyncs[OtherSize(size)];
      ghost var otherBusy := otherSync.inProgress;
      assert otherSync != requestSync by {
        assert size == Preview || size == Complete;
      }
      ProfileImageStatusProperties.HasImageIffConsumable(imageUploadStatus.Snapshot(), size);
      r := RequestFor(requestSync);
      requestSync.inProgress := true;
      assert otherSync.inProgress == otherBusy;
      assert Busy() == busy[size := true] by {
        forall s | s in upstreamRequestSyncs
          ensures Busy()[s] == busy[size := true][s]
        {
          if s != size {
            assert s == OtherSize(size) by {
              assert s == Preview || s == Complete;
            }
          }
        }
      }
    }

    /**
     * `nextRequest()`: nothing unless authenticated; otherwise the first pending
     * download in `AllSizes` order; otherwise, when the status is still there,
     * an upload for the first size with an image to upload, unless that size's
     * upload sync is already in flight.
     */
    method NextRequest() returns (r: Option<TransportRequest>)
      requires Valid()
      modifies imageUploadStatus, upstreamRequestSyncs.Values
      ensures authenticationPhase != Authenticated ==> r == None
      ensures authenticationPhase == Authenticated && old(FirstPendingDownload(AllSizes)).Some? ==>
        r == old(FirstPendingDownload(AllSizes))
      ensures authenticationPhase != Authenticated || old(FirstPendingDownload(AllSizes)).Some? || imageUploadStatus == null ==>
        UploadStatus() == old(UploadStatus()) && Busy() == old(Busy())
      ensures authenticationPhase == Authenticated && old(FirstPendingDownload(AllSizes)).None? && imageUploadStatus == null ==>
        r == None
      ensures authenticationPhase == Authenticated && old(FirstPendingDownload(AllSizes)).None? && imageUploadStatus != null ==>
        var status := old(imageUploadStatus.Snapshot());
        var choice := FirstUploadSize(status, AllSizes);
        if choice.None? || old(upstreamRequestSyncs[choice.value].inProgress) then
          r == None && UploadStatus() == old(UploadStatus()) && Busy() == old(Busy())
        else
          var (image, next) := status.ConsumeImage(choice.value);
          && image.Some?
          && r == Some(AssetUpload(image.value))
          && imageUploadStatus.Snapshot() == next
          && Busy() == old(Busy())[choice.value := true]
    {
      if authenticationPhase != Authenticated {
        return None;
      }
      r := NextDownloadRequest();
      if r.Some? || imageUploadStatus == null {
        return;
      }
      var choice := ChooseUploadSize();
      if choice.None? {
        return None;
      }
      var requestSync := upstreamRequestSyncs[choice.value];
      RegisteredSizeFound(upstreamRequestSyncs, choice.value);
      r := UploadSyncNextRequest(requestSync);
    }

    /**
     * `didReceive(_:forSingleRequest:)`: a response for a registered upload sync
     * fails the upload with the classified error, or completes it with the
     * identifier under "key"; a success without one is the source's fatal error
     * and changes nothing here.
     */
    method DidReceive(response: TransportResponse, requestSync: SingleRequestSync) returns (outcome: UploadOutcome)
      modifies imageUploadStatus
      ensures outcome == (if UpstreamSizeOf(requestSync).None? then NotForThisStrategy else UploadResponseOutcome(response))
      ensures imageUploadStatus != null ==>
        var size := UpstreamSizeOf(requestSync);
        imageUploadStatus.Snapshot() ==
          if size.None? then old(imageUploadStatus.Snapshot())
          else match outcome
            case UploadFailedWith(error) => old(imageUploadStatus.Snapshot()).UploadingFailed(size.value, error)
            case UploadDoneWith(assetId) => old(imageUploadStatus.Snapshot()).UploadingDone(size.value, assetId)
            case _ => old(imageUploadStatus.Snapshot())
    {
      var size := SizeForUpstream(requestSync);
      if size.None? {
        return NotForThisStrategy;
      }
      outcome := UploadResponseOutcome(response);
      match outcome
      case UploadFailedWith(error) =>
        if imageUploadStatus != null {
          imageUploadStatus.UploadingFailed(size.value, error);
        }
      case UploadDoneWith(assetId) =>
        if imageUploadStatus != null {
          imageUploadStatus.UploadingDone(size.value, assetId);
        }
      case _ =>
    }
  }

  /**
   * What the status commits is what the strategy fetches: once the second
   * size finishes uploading, the download of each size asks for the
   * identifier just uploaded for it.
   */
  lemma UploadedIdsAreFetched(s: Status, size: ProfileImageSize, assetId: AssetId, otherId: AssetId)
    requires s.Valid()
    requires s.ImageStateFor(size) == Uploading && s.ImageStateFor(OtherSize(size)) == Uploaded(otherId)
    ensures var user := s.UploadingDone(size, assetId).selfUser;
            && RemoteAssetId(user, size) == Some(assetId)
            && RemoteAssetId(user, OtherSize(size)) == Some(otherId)
  {
    ProfileImageStatusProperties.BothUploadedCommits(s, size, assetId, otherId);
  }

  /** Uploads are tried in `AllSizes` order: a pending preview goes before a pending complete image. */
  lemma PreviewUploadsFirst(strategy: UserImageAssetUpdateStrategy, status: Status)
    requires strategy.Valid() && status.HasImageToUpload(Preview)
    ensures strategy.FirstUploadSize(status, AllSizes) == Some(Preview)
  {
  }

  /** Downloads are tried in `AllSizes` order: a pending preview download goes first. */
  lemma PreviewDownloadsFirst(strategy: UserImageAssetUpdateStrategy)
    requires strategy.Valid() && strategy.PendingDownload(Preview).Some?
    ensures strategy.FirstPendingDownload(AllSizes) == strategy.PendingDownload(Preview)
  {
  }

  /** The download sync of each size fetches that size's identifier. */
  lemma {:induction false} DownloadSyncFetchesItsSize(strategy: UserImageAssetUpdateStrategy, size: ProfileImageSize)
    requires strategy.Valid()
    ensures strategy.DownstreamSizeOf(strategy.downstreamRequestSyncs[size]) == Some(size)
  {
    RegisteredSizeFound(strategy.downstreamRequestSyncs, size);
  }

  /** The upload sync of each size uploads that size's image. */
  lemma {:induction false} UploadSyncUploadsItsSize(strategy: UserImageAssetUpdateStrategy, size: ProfileImageSize)
    requires strategy.Valid()
    ensures strategy.UpstreamSizeOf(strategy.upstreamRequestSyncs[size]) == Some(size)
  {
    RegisteredSizeFound(strategy.upstreamRequestSyncs, size);
  }
}
