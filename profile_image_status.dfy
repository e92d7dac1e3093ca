/**
 * The profile-image upload state machine `UserProfileImageUpdateStatus`: one
 * `ImageState` machine per `ProfileImageSize` and one aggregate
 * `ProfileUpdateState`, each with its own transition table. Requests for an
 * invalid transition are silently ignored. Accepted transitions cascade: a size
 * entering `uploaded` while the other size is `uploaded` moves the aggregate to
 * `update` (commit) and then `ready`; a size entering `failed` moves the
 * aggregate to `failed` and then `ready`, and both sizes are reset.
 *
 * The cascade is first written as functions on a `Status` value (what every
 * operation does to the whole state); the class `UserProfileImageUpdateStatus`
 * holds the same state in fields and each of its methods is proved to have the
 * effect of the corresponding function.
 */
module ProfileImageStatus {
  import opened Wrappers
  import opened AssetErrors

  /** Image bytes are opaque here. */
  type ImageData = seq<int>
  /** Asset identifiers assigned by the backend. */
  type AssetId = string

  datatype ProfileImageSize = Preview | Complete

  /** `ProfileImageSize.allSizes`, in the order the code iterates it. */
  const AllSizes: seq<ProfileImageSize> := [Preview, Complete]

  /** The size that is not `size`. */
  function OtherSize(size: ProfileImageSize): (o: ProfileImageSize)
    ensures o != size
  {
    match size
    case Preview => Complete
    case Complete => Preview
  }

  /** `ZMImageFormat`, as far as downsample operations report it. */
  datatype ImageFormat = Original | Profile | Medium

  /** `ProfileImageSize.imageFormat`. */
  function ImageFormatOf(size: ProfileImageSize): ImageFormat {
    match size
    case Preview => Profile
    case Complete => Medium
  }

  /** Every size has its own format, and none of them is the original's. */
  lemma ImageFormatsDistinct(a: ProfileImageSize, b: ProfileImageSize)
    ensures ImageFormatOf(a) == ImageFormatOf(b) <==> a == b
    ensures ImageFormatOf(a) != Original
  {
  }

  /** `UserProfileImageUpdateError`. */
  datatype UpdateError = PreprocessingFailed | UploadFailed(error: AssetTransportError)

  // ---------------------------------------------------------------------------
  // Per-size image state
  // ---------------------------------------------------------------------------

  /** The tag of an `ImageState`, without its payload. */
  datatype ImageStateKind = ReadyKind | PreprocessingKind | UploadKind | UploadingKind | UploadedKind | FailedKind

  /** The per-size transition table: from each kind, the kinds it may move to. */
  function AllowedImageTransitions(from: ImageStateKind): set<ImageStateKind> {
    match from
    case ReadyKind => {FailedKind, PreprocessingKind, UploadKind}
    case PreprocessingKind => {FailedKind, UploadKind}
    case UploadKind => {FailedKind, UploadingKind}
    case UploadingKind => {FailedKind, UploadedKind}
    case UploadedKind => {FailedKind, ReadyKind}
    case FailedKind => {ReadyKind}
  }

  datatype ImageState =
    | Ready
    | Preprocessing
    | Upload(image: ImageData)
    | Uploading
    | Uploaded(assetId: AssetId)
    | Failed(error: UpdateError)
  {
    function Kind(): ImageStateKind {
      match this
      case Ready => ReadyKind
      case Preprocessing => PreprocessingKind
      case Upload(_) => UploadKind
      case Uploading => UploadingKind
      case Uploaded(_) => UploadedKind
      case Failed(_) => FailedKind
    }

    /** `canTransition(to:)`: exactly the transitions of the table, whatever the payloads. */
    predicate CanTransition(to: ImageState)
      ensures CanTransition(to) <==> to.Kind() in AllowedImageTransitions(Kind())
    {
      match (this, to)
      case (Ready, Preprocessing) => true
      case (Ready, Upload(_)) => true
      case (Preprocessing, Upload(_)) => true
      case (Upload(_), Uploading) => true
      case (Uploading, Uploaded(_)) => true
      case (Uploaded(_), Ready) => true
      case (Failed(_), Ready) => true
      case (Failed(_), Failed(_)) => false
      case (_, Failed(_)) => true
      case _ => false
    }
  }

  // ---------------------------------------------------------------------------
  // Aggregate profile-update state
  // ---------------------------------------------------------------------------

  datatype ProfileStateKind = ReadyState | PreprocessState | UpdateState | FailedState

  /** The aggregate transition table. */
  function AllowedProfileTransitions(from: ProfileStateKind): set<ProfileStateKind> {
    match from
    case ReadyState => {FailedState, PreprocessState, UpdateState}
    case PreprocessState => {FailedState, UpdateState}
    case UpdateState => {FailedState, ReadyState}
    case FailedState => {ReadyState}
  }

  datatype ProfileUpdateState =
    | Ready
    | Preprocess(image: ImageData)
    | Update(previewAssetId: AssetId, completeAssetId: AssetId)
    | Failed(error: UpdateError)
  {
    function Kind(): ProfileStateKind {
      match this
      case Ready => ReadyState
      case Preprocess(_) => PreprocessState
      case Update(_, _) => UpdateState
      case Failed(_) => FailedState
    }

    /** `canTransition(to:)` of the aggregate machine. */
    predicate CanTransition(to: ProfileUpdateState)
      ensures CanTransition(to) <==> to.Kind() in AllowedProfileTransitions(Kind())
    {
      match (this, to)
      case (Ready, Preprocess(_)) => true
      case (Ready, Update(_, _)) => true
      case (Preprocess(_), Update(_, _)) => true
      case (Update(_, _), Ready) => true
      case (Failed(_), Ready) => true
      case (Failed(_), Failed(_)) => false
      case (_, Failed(_)) => true
      case _ => false
    }
  }

  /** Ranks that order the cascade: every transition only triggers transitions of lower rank. */
  function ProfileRank(s: ProfileUpdateState): nat {
    match s
    case Ready => 0
    case Failed(_) => 2
    case Update(_, _) => 2
    case Preprocess(_) => 6
  }

  function ImageRank(s: ImageState): nat {
    match s
    case Uploaded(_) => 4
    case Failed(_) => 4
    case _ => 0
  }

  // ---------------------------------------------------------------------------
  // The whole state, as a value
  // ---------------------------------------------------------------------------

  /** The fields of the self user that this component reads and commits. */
  datatype SelfUser = SelfUser(
    previewProfileAssetIdentifier: Option<AssetId>,
    completeProfileAssetIdentifier: Option<AssetId>,
    imageSmallProfileData: Option<ImageData>,
    imageMediumData: Option<ImageData>)

  function Lookup(m: map<ProfileImageSize, ImageData>, size: ProfileImageSize): (r: Option<ImageData>)
    ensures r.Some? <==> size in m
    ensures r.Some? ==> r.value == m[size]
  {
    if size in m then Some(m[size]) else None
  }

  /**
   * Everything the status holds: the aggregate state, the two per-size states,
   * the resized images kept for the commit, the self user it commits to, the
   * number of operations its preprocessor hands back for a new image, and the
   * log of aggregate states its change delegate has been told about.
   */
  datatype Status = Status(
    state: ProfileUpdateState,
    preview: ImageState,
    complete: ImageState,
    resizedImages: map<ProfileImageSize, ImageData>,
    selfUser: SelfUser,
    preprocessorOperations: nat,
    log: seq<ProfileUpdateState>)
  {
    /** `imageState(for:)`. */
    function ImageStateFor(size: ProfileImageSize): ImageState {
      match size
      case Preview => preview
      case Complete => complete
    }

    function WithImageState(size: ProfileImageSize, st: ImageState): (r: Status)
      ensures r.ImageStateFor(size) == st && r.ImageStateFor(OtherSize(size)) == ImageStateFor(OtherSize(size))
    {
      match size
      case Preview => this.(preview := st)
      case Complete => this.(complete := st)
    }

    /** `resetImageState()`: both sizes back to `ready`, resized images dropped. */
    function ResetImageState(): Status {
      this.(preview := ImageState.Ready, complete := ImageState.Ready, resizedImages := map[])
    }

    /** `setState(state:)`: the aggregate transition with its cascade. */
    function SetState(newState: ProfileUpdateState): Status
      decreases ProfileRank(newState), 0
    {
      if !state.CanTransition(newState) then this
      else
        var s1 := this.(state := newState, log := log + [newState]);
        match newState
        case Ready => s1.ResetImageState()
        case Preprocess(_) => s1.StartPreprocessing()
        case Update(p, c) => s1.UpdateUserProfile(p, c)
        case Failed(_) => s1.ResetImageState().SetState(ProfileUpdateState.Ready)
    }

    /** Commit: store the asset identifiers and resized images on the self user, then go back to `ready`. */
    function UpdateUserProfile(previewAssetId: AssetId, completeAssetId: AssetId): Status
      decreases 1, 0
    {
      var user := selfUser.(
        previewProfileAssetIdentifier := Some(previewAssetId),
        completeProfileAssetIdentifier := Some(completeAssetId),
        imageSmallProfileData := Lookup(resizedImages, Preview),
        imageMediumData := Lookup(resizedImages, Complete));
      this.(selfUser := user).ResetImageState().SetState(ProfileUpdateState.Ready)
    }

    /** Every size enters `preprocessing`; no operations from the preprocessor is a failure. */
    function StartPreprocessing(): Status
      decreases 5, 0
    {
      var s1 := EnterPreprocessing(AllSizes);
      if s1.preprocessorOperations == 0 then
        s1.ResetImageState().SetState(ProfileUpdateState.Failed(PreprocessingFailed))
      else s1
    }

    /** The `forEach` over the sizes that asks each of them to enter `preprocessing`. */
    function EnterPreprocessing(sizes: seq<ProfileImageSize>): Status
      decreases 3, |sizes|
    {
      if sizes == [] then this
      else SetImageState(ImageState.Preprocessing, sizes[0]).EnterPreprocessing(sizes[1..])
    }

    /** `setState(state:for:)`: the per-size transition with its cascade. */
    function SetImageState(newState: ImageState, size: ProfileImageSize): Status
      decreases ImageRank(newState), 0
    {
      if !ImageStateFor(size).CanTransition(newState) then this
      else
        var s1 := WithImageState(size, newState);
        match newState
        case Upload(image) => s1.(resizedImages := s1.resizedImages[size := image])
        case Uploaded(_) =>
          if s1.preview.Uploaded? && s1.complete.Uploaded? then
            s1.SetState(Update(s1.preview.assetId, s1.complete.assetId))
          else s1
        case Failed(error) => s1.SetState(ProfileUpdateState.Failed(error))
        case _ => s1
    }

    /** `hasImageToUpload(for:)`. */
    predicate HasImageToUpload(size: ProfileImageSize) {
      ImageStateFor(size).Upload?
    }

    /** `consumeImage(for:)`: the pending image, if any, and the state after claiming it. */
    function ConsumeImage(size: ProfileImageSize): (Option<ImageData>, Status) {
      match ImageStateFor(size)
      case Upload(image) => (Some(image), SetImageState(Uploading, size))
      case _ => (None, this)
    }

    /** `uploadingDone(imageSize:assetId:)`. */
    function UploadingDone(size: ProfileImageSize, assetId: AssetId): Status {
      SetImageState(Uploaded(assetId), size)
    }

    /** `uploadingFailed(imageSize:error:)`. */
    function UploadingFailed(size: ProfileImageSize, error: AssetTransportError): Status {
      SetImageState(ImageState.Failed(UploadFailed(error)), size)
    }

    /** `updateImage(imageData:)`. */
    function UpdateImage(imageData: ImageData): Status {
      SetState(Preprocess(imageData))
    }

    /** `updatePreprocessedImages(preview:complete:)`: both sizes straight to `upload`. */
    function UpdatePreprocessedImages(previewImage: ImageData, completeImage: ImageData): Status {
      SetImageState(Upload(previewImage), Preview).SetImageState(Upload(completeImage), Complete)
    }

    /**
     * `reuploadExisingImageIfNeeded()`: when the self user has no asset
     * identifiers yet but holds both resized images, upload them again.
     */
    function ReuploadExistingImageIfNeeded(): Status {
      if selfUser.previewProfileAssetIdentifier.None? && selfUser.completeProfileAssetIdentifier.None?
         && selfUser.imageSmallProfileData.Some? && selfUser.imageMediumData.Some?
      then UpdatePreprocessedImages(selfUser.imageSmallProfileData.value, selfUser.imageMediumData.value)
      else this
    }

    /** `completedDownsampleOperation`: the sizes in `sizes` whose format matches get the downsampled image. */
    function CompletedDownsample(format: ImageFormat, data: ImageData, sizes: seq<ProfileImageSize>): Status
      decreases |sizes|
    {
      if sizes == [] then this
      else
        var s1 := if ImageFormatOf(sizes[0]) == format then SetImageState(Upload(data), sizes[0]) else this;
        s1.CompletedDownsample(format, data, sizes[1..])
    }

    /** `failedPreprocessingImageOwner`. */
    function FailedPreprocessing(): Status {
      SetState(ProfileUpdateState.Failed(PreprocessingFailed))
    }

    /**
     * The invariant between calls: `failed` never persists, the aggregate rests
     * in `ready` or `preprocess`, and the two sizes are never both `uploaded`.
     */
    predicate Valid() {
      && (state.Ready? || state.Preprocess?)
      && !preview.Failed? && !complete.Failed?
      && !(preview.Uploaded? && complete.Uploaded?)
    }
  }

  /** A fresh status: every machine `ready`, nothing logged. */
  function InitialStatus(selfUser: SelfUser, preprocessorOperations: nat): (s: Status)
    ensures s.Valid()
  {
    Status(ProfileUpdateState.Ready, ImageState.Ready, ImageState.Ready, map[], selfUser, preprocessorOperations, [])
  }

  // ---------------------------------------------------------------------------
  // The status object
  // ---------------------------------------------------------------------------

  class UserProfileImageUpdateStatus {
    var state: ProfileUpdateState
    var previewImageState: ImageState
    var completeImageState: ImageState
    var resizedImages: map<ProfileImageSize, ImageData>
    /** Stands in for the self user in the sync context. */
    var selfUser: SelfUser
    /** Stands in for the preprocessor: how many operations it returns for a new image. */
    var preprocessorOperations: nat
    /** The aggregate states reported to the change delegate, in order. */
    ghost var states: seq<ProfileUpdateState>

    ghost function Snapshot(): Status
      reads this
    {
      Status(state, previewImageState, completeImageState, resizedImages, selfUser, preprocessorOperations, states)
    }

    constructor (selfUser: SelfUser, preprocessorOperations: nat)
      ensures Snapshot() == InitialStatus(selfUser, preprocessorOperations)
    {
      state := ProfileUpdateState.Ready;
      previewImageState := ImageState.Ready;
      completeImageState := ImageState.Ready;
      resizedImages := map[];
      this.selfUser := selfUser;
      this.preprocessorOperations := preprocessorOperations;
      states := [];
    }

    function ImageStateFor(size: ProfileImageSize): (st: ImageState)
      reads this
    {
      match size
      case Preview => previewImageState
      case Complete => completeImageState
    }

    predicate HasImageToUpload(size: ProfileImageSize)
      reads this
    {
      ImageStateFor(size).Upload?
    }

    method ResetImageState()
      modifies this
      ensures Snapshot() == old(Snapshot()).ResetImageState()
    {
      previewImageState := ImageState.Ready;
      completeImageState := ImageState.Ready;
      resizedImages := map[];
    }

    method SetState(newState: ProfileUpdateState)
      modifies this
      decreases ProfileRank(newState), 0
      ensures Snapshot() == old(Snapshot()).SetState(newState)
    {
      var currentState := state;
      if !currentState.CanTransition(newState) {
        return;
      }
      state := newState;
      states := states + [newState];
      match newState
      case Ready =>
        ResetImageState();
      case Preprocess(_) =>
        StartPreprocessing();
      case Update(p, c) =>
        UpdateUserProfile(p, c);
      case Failed(_) =>
        ResetImageState();
        SetState(ProfileUpdateState.Ready);
    }

    method UpdateUserProfile(previewAssetId: AssetId, completeAssetId: AssetId)
      modifies this
      decreases 1, 0
      ensures Snapshot() == old(Snapshot()).UpdateUserProfile(previewAssetId, completeAssetId)
    {
      selfUser := selfUser.(
        previewProfileAssetIdentifier := Some(previewAssetId),
        completeProfileAssetIdentifier := Some(completeAssetId),
        imageSmallProfileData := Lookup(resizedImages, Preview),
        imageMediumData := Lookup(resizedImages, Complete));
      ResetImageState();
      SetState(ProfileUpdateState.Ready);
    }

    method StartPreprocessing()
      modifies this
      decreases 5, 0
      ensures Snapshot() == old(Snapshot()).StartPreprocessing()
    {
      for i := 0 to |AllSizes|
        invariant Snapshot().EnterPreprocessing(AllSizes[i..]) == old(Snapshot()).EnterPreprocessing(AllSizes)
      {
        SetImageState(ImageState.Preprocessing, AllSizes[i]);
      }
      if preprocessorOperations == 0 {
        ResetImageState();
        SetState(ProfileUpdateState.Failed(PreprocessingFailed));
      }
    }

    method SetImageState(newState: ImageState, size: ProfileImageSize)
      modifies this
      decreases ImageRank(newState), 0
      ensures Snapshot() == old(Snapshot()).SetImageState(newState, size)
    {
      var currentState := ImageStateFor(size);
      if !currentState.CanTransition(newState) {
        return;
      }
      if size == Preview {
        previewImageState := newState;
      } else {
        completeImageState := newState;
      }
      match newState
      case Upload(image) =>
        resizedImages := resizedImages[size := image];
      case Uploaded(_) =>
        if previewImageState.Uploaded? && completeImageState.Uploaded? {
          SetState(Update(previewImageState.assetId, completeImageState.assetId));
        }
      case Failed(error) =>
        SetState(ProfileUpdateState.Failed(error));
      case _ =>
    }

    /** `consumeImage(for:)`: pop-once hand-over of the pending image. */
    method ConsumeImage(size: ProfileImageSize) returns (image: Option<ImageData>)
      modifies this
      ensures image == old(Snapshot()).ConsumeImage(size).0
      ensures Snapshot() == old(Snapshot()).ConsumeImage(size).1
    {
      match ImageStateFor(size)
      case Upload(data) =>
        SetImageState(Uploading, size);
        image := Some(data);
      case _ =>
        image := None;
    }

    method UploadingDone(size: ProfileImageSize, assetId: AssetId)
      modifies this
      ensures Snapshot() == old(Snapshot()).UploadingDone(size, assetId)
    {
      SetImageState(Uploaded(assetId), size);
    }

    method UploadingFailed(size: ProfileImageSize, error: AssetTransportError)
      modifies this
      ensures Snapshot() == old(Snapshot()).UploadingFailed(size, error)
    {
      SetImageState(ImageState.Failed(UploadFailed(error)), size);
    }

    method UpdateImage(imageData: ImageData)
      modifies this
      ensures Snapshot() == old(Snapshot()).UpdateImage(imageData)
    {
      SetState(Preprocess(imageData));
    }

    method UpdatePreprocessedImages(previewImage: ImageData, completeImage: ImageData)
      modifies this
      ensures Snapshot() == old(Snapshot()).UpdatePreprocessedImages(previewImage, completeImage)
    {
      SetImageState(Upload(previewImage), Preview);
      SetImageState(Upload(completeImage), Complete);
    }

    method ReuploadExistingImageIfNeeded()
      modifies this
      ensures Snapshot() == old(Snapshot()).ReuploadExistingImageIfNeeded()
    {
      if selfUser.previewProfileAssetIdentifier.Some? || selfUser.completeProfileAssetIdentifier.Some? {
        return;
      }
      if selfUser.imageSmallProfileData.None? || selfUser.imageMediumData.None? {
        return;
      }
      UpdatePreprocessedImages(selfUser.imageSmallProfileData.value, selfUser.imageMediumData.value);
    }

    /** A downsample operation finished: the size whose format it produced gets its image. */
    method CompletedDownsampleOperation(format: ImageFormat, downsampleImageData: ImageData)
      modifies this
      ensures Snapshot() == old(Snapshot()).CompletedDownsample(format, downsampleImageData, AllSizes)
    {
      for i := 0 to |AllSizes|
        invariant Snapshot().CompletedDownsample(format, downsampleImageData, AllSizes[i..])
                  == old(Snapshot()).CompletedDownsample(format, downsampleImageData, AllSizes)
      {
        if ImageFormatOf(AllSizes[i]) == format {
          SetImageState(Upload(downsampleImageData), AllSizes[i]);
        }
      }
    }

    method FailedPreprocessingImageOwner()
      modifies this
      ensures Snapshot() == old(Snapshot()).FailedPreprocessing()
    {
      SetState(ProfileUpdateState.Failed(PreprocessingFailed));
    }
  }
}
