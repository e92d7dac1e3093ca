/**
 * What the profile-image status promises, proved about the `Status` functions
 * that the methods of `UserProfileImageUpdateStatus` are specified by.
 */
module ProfileImageStatusProperties {
  import opened Wrappers
  import opened AssetErrors
  import opened ProfileImageStatus

  /** Both sizes are `ready`. */
  predicate SizesReady(s: Status) {
    s.preview == ImageState.Ready && s.complete == ImageState.Ready
  }

  // ---------------------------------------------------------------------------
  // Invalid requests and independence of the sizes
  // ---------------------------------------------------------------------------

  /** A per-size request the table does not allow changes nothing at all. */
  lemma InvalidImageRequestIgnored(s: Status, newState: ImageState, size: ProfileImageSize)
    requires !s.ImageStateFor(size).CanTransition(newState)
    ensures s.SetImageState(newState, size) == s
  {
  }

  /** An aggregate request the table does not allow changes nothing, and nothing is reported. */
  lemma InvalidProfileRequestIgnored(s: Status, newState: ProfileUpdateState)
    requires !s.state.CanTransition(newState)
    ensures s.SetState(newState) == s
  {
  }

  /**
   * Unless it fails or completes both uploads, a request for one size leaves
   * the other size, the aggregate state and the log as they were.
   */
  lemma OtherSizeUntouched(s: Status, newState: ImageState, size: ProfileImageSize)
    requires !newState.Failed?
    requires !(newState.Uploaded? && s.ImageStateFor(OtherSize(size)).Uploaded?)
    ensures var r := s.SetImageState(newState, size);
            && r.ImageStateFor(OtherSize(size)) == s.ImageStateFor(OtherSize(size))
            && r.state == s.state && r.log == s.log
  {
  }

  // ---------------------------------------------------------------------------
  // Cascades
  // ---------------------------------------------------------------------------

  /** Entering the aggregate `failed` reports `failed` then `ready` and resets both sizes. */
  lemma {:induction false} ProfileFailureResets(s: Status, error: UpdateError)
    requires !s.state.Failed?
    ensures var r := s.SetState(ProfileUpdateState.Failed(error));
            && r.log == s.log + [ProfileUpdateState.Failed(error), ProfileUpdateState.Ready]
            && r.state == ProfileUpdateState.Ready && SizesReady(r) && r.resizedImages == map[]
            && r.selfUser == s.selfUser
  {
    var s1 := s.(state := ProfileUpdateState.Failed(error), log := s.log + [ProfileUpdateState.Failed(error)]);
    assert s.SetState(ProfileUpdateState.Failed(error)) == s1.ResetImageState().SetState(ProfileUpdateState.Ready);
  }

  /** A size entering `failed` fails the aggregate, which reports `failed` then `ready` and resets both sizes. */
  lemma {:induction false} SizeFailureCascades(s: Status, error: UpdateError, size: ProfileImageSize)
    requires s.Valid()
    ensures var r := s.SetImageState(ImageState.Failed(error), size);
            && r.log == s.log + [ProfileUpdateState.Failed(error), ProfileUpdateState.Ready]
            && r.state == ProfileUpdateState.Ready && SizesReady(r)
  {
    var s1 := s.WithImageState(size, ImageState.Failed(error));
    assert s.SetImageState(ImageState.Failed(error), size) == s1.SetState(ProfileUpdateState.Failed(error));
    ProfileFailureResets(s1, error);
  }

  /** A failed upload leaves the size `ready` and reports `failed(uploadFailed(error))` then `ready`. */
  lemma UploadFailureReported(s: Status, size: ProfileImageSize, error: AssetTransportError)
    requires s.Valid() && s.ImageStateFor(size) == Uploading
    ensures var r := s.UploadingFailed(size, error);
            && r.ImageStateFor(size) == ImageState.Ready
            && r.log == s.log + [ProfileUpdateState.Failed(UploadFailed(error)), ProfileUpdateState.Ready]
  {
    SizeFailureCascades(s, UploadFailed(error), size);
  }

  /** The commit from state `update`: identifiers and images stored, `ready` reported, sizes reset. */
  lemma {:induction false} CommitReturnsToReady(s: Status, p: AssetId, c: AssetId)
    requires s.state.Update?
    ensures var r := s.UpdateUserProfile(p, c);
            && r.log == s.log + [ProfileUpdateState.Ready]
            && r.state == ProfileUpdateState.Ready && SizesReady(r)
            && r.selfUser == s.selfUser.(previewProfileAssetIdentifier := Some(p),
                                         completeProfileAssetIdentifier := Some(c),
                                         imageSmallProfileData := Lookup(s.resizedImages, Preview),
                                         imageMediumData := Lookup(s.resizedImages, Complete))
  {
    var user := s.selfUser.(previewProfileAssetIdentifier := Some(p),
                            completeProfileAssetIdentifier := Some(c),
                            imageSmallProfileData := Lookup(s.resizedImages, Preview),
                            imageMediumData := Lookup(s.resizedImages, Complete));
    var s1 := s.(selfUser := user).ResetImageState();
    assert s.UpdateUserProfile(p, c) == s1.SetState(ProfileUpdateState.Ready);
    assert s1.state.CanTransition(ProfileUpdateState.Ready);
  }

  /** The asset identifiers of both sizes, in (preview, complete) order. */
  function Committed(size: ProfileImageSize, assetId: AssetId, otherId: AssetId): (AssetId, AssetId) {
    if size == Preview then (assetId, otherId) else (otherId, assetId)
  }

  /**
   * When the second size finishes uploading, the aggregate reports
   * `update(preview, complete)` then `ready`, the identifiers are committed to
   * the self user, and both sizes are back to `ready`.
   */
  lemma {:induction false} BothUploadedCommits(s: Status, size: ProfileImageSize, assetId: AssetId, otherId: AssetId)
    requires s.Valid()
    requires s.ImageStateFor(size) == Uploading && s.ImageStateFor(OtherSize(size)) == Uploaded(otherId)
    ensures var r := s.UploadingDone(size, assetId);
            var (p, c) := Committed(size, assetId, otherId);
            && r.log == s.log + [Update(p, c), ProfileUpdateState.Ready]
            && r.state == ProfileUpdateState.Ready && SizesReady(r)
            && r.selfUser.previewProfileAssetIdentifier == Some(p)
            && r.selfUser.completeProfileAssetIdentifier == Some(c)
            && r.selfUser.imageSmallProfileData == Lookup(s.resizedImages, Preview)
            && r.selfUser.imageMediumData == Lookup(s.resizedImages, Complete)
  {
    var (p, c) := Committed(size, assetId, otherId);
    var s1 := s.WithImageState(size, Uploaded(assetId));
    assert s1.preview == Uploaded(p) && s1.complete == Uploaded(c);
    assert s.UploadingDone(size, assetId) == s1.SetState(Update(p, c));
    var s2 := s1.(state := Update(p, c), log := s1.log + [Update(p, c)]);
    assert s1.SetState(Update(p, c)) == s2.UpdateUserProfile(p, c);
    CommitReturnsToReady(s2, p, c);
  }

  /**
   * Entering `update(p, c)` from `ready`: the delegate sees `update(p, c)`
   * then `ready`, and both identifiers are committed to the self user.
   */
  lemma {:induction false} UpdateFromReadyCommits(s: Status, p: AssetId, c: AssetId)
    requires s.state == ProfileUpdateState.Ready
    ensures var r := s.SetState(Update(p, c));
            && r.log == s.log + [Update(p, c), ProfileUpdateState.Ready]
            && r.state == ProfileUpdateState.Ready && SizesReady(r)
            && r.selfUser.previewProfileAssetIdentifier == Some(p)
            && r.selfUser.completeProfileAssetIdentifier == Some(c)
  {
    var s1 := s.(state := Update(p, c), log := s.log + [Update(p, c)]);
    assert s.SetState(Update(p, c)) == s1.UpdateUserProfile(p, c);
    CommitReturnsToReady(s1, p, c);
  }

  /** Finishing one upload while the other size is not yet uploaded just records the identifier. */
  lemma UploadDoneRecorded(s: Status, size: ProfileImageSize, assetId: AssetId)
    requires s.ImageStateFor(size) == Uploading && !s.ImageStateFor(OtherSize(size)).Uploaded?
    ensures s.UploadingDone(size, assetId) == s.WithImageState(size, Uploaded(assetId))
  {
  }

  // ---------------------------------------------------------------------------
  // Pop-once hand-over
  // ---------------------------------------------------------------------------

  /** There is an image to upload exactly when consuming hands one over. */
  lemma HasImageIffConsumable(s: Status, size: ProfileImageSize)
    ensures s.HasImageToUpload(size) <==> s.ConsumeImage(size).0.Some?
  {
  }

  /** Consuming in `upload(d)` returns `d` and moves only that size to `uploading`. */
  lemma ConsumeHandsOver(s: Status, size: ProfileImageSize, data: ImageData)
    requires s.ImageStateFor(size) == Upload(data)
    ensures s.ConsumeImage(size) == (Some(data), s.WithImageState(size, Uploading))
  {
  }

  /** Consuming a size that is not in `upload` returns nothing and changes nothing. */
  lemma ConsumeWithoutImage(s: Status, size: ProfileImageSize)
    requires !s.ImageStateFor(size).Upload?
    ensures s.ConsumeImage(size) == (None, s)
  {
  }

  /** A second consume right after the first returns nothing. */
  lemma ConsumeIsPopOnce(s: Status, size: ProfileImageSize)
    ensures s.ConsumeImage(size).1.ConsumeImage(size).0 == None
  {
  }

  // ---------------------------------------------------------------------------
  // Preprocessing and re-upload
  // ---------------------------------------------------------------------------

  /** A completed downsample for one size moves that size, and only that size, to `upload(data)`. */
  lemma {:induction false} DownsampleMovesOnlyItsSize(s: Status, size: ProfileImageSize, data: ImageData)
    requires s.ImageStateFor(size) == Preprocessing
    ensures s.CompletedDownsample(ImageFormatOf(size), data, AllSizes)
            == s.WithImageState(size, Upload(data)).(resizedImages := s.resizedImages[size := data])
  {
    var r := s.WithImageState(size, Upload(data)).(resizedImages := s.resizedImages[size := data]);
    assert AllSizes[1..][1..] == [];
    if size == Preview {
      ImageFormatsDistinct(Preview, Complete);
      assert s.CompletedDownsample(Profile, data, AllSizes) == r.CompletedDownsample(Profile, data, AllSizes[1..]);
    } else {
      ImageFormatsDistinct(Complete, Preview);
      assert s.CompletedDownsample(Medium, data, AllSizes) == s.CompletedDownsample(Medium, data, AllSizes[1..]);
    }
  }

  /** An operation for the original format matches no size. */
  lemma {:induction false} DownsampleOfOriginalIgnored(s: Status, data: ImageData)
    ensures s.CompletedDownsample(Original, data, AllSizes) == s
  {
    assert AllSizes[1..][1..] == [];
  }

  /** Preprocessing from `ready` with operations puts both sizes in `preprocessing`. */
  lemma {:induction false} UpdateImageStartsPreprocessing(s: Status, image: ImageData)
    requires s.state == ProfileUpdateState.Ready && SizesReady(s) && s.preprocessorOperations > 0
    ensures var r := s.UpdateImage(image);
            && r.state == Preprocess(image) && r.log == s.log + [Preprocess(image)]
            && r.preview == Preprocessing && r.complete == Preprocessing
  {
    var s1 := s.(state := Preprocess(image), log := s.log + [Preprocess(image)]);
    assert s.UpdateImage(image) == s1.StartPreprocessing();
    assert AllSizes[1..][1..] == [];
    assert s1.EnterPreprocessing(AllSizes) ==
           s1.SetImageState(Preprocessing, Preview).SetImageState(Preprocessing, Complete);
  }

  /** With no operations from the preprocessor, the update fails at once and both sizes end `ready`. */
  lemma {:induction false} PreprocessingWithoutOperationsFails(s: Status, image: ImageData)
    requires s.state == ProfileUpdateState.Ready && SizesReady(s) && s.preprocessorOperations == 0
    ensures var r := s.UpdateImage(image);
            && r.log == s.log + [Preprocess(image), ProfileUpdateState.Failed(PreprocessingFailed), ProfileUpdateState.Ready]
            && r.state == ProfileUpdateState.Ready && SizesReady(r)
  {
    var s1 := s.(state := Preprocess(image), log := s.log + [Preprocess(image)]);
    assert s.UpdateImage(image) == s1.StartPreprocessing();
    assert AllSizes[1..][1..] == [];
    var s2 := s1.SetImageState(Preprocessing, Preview).SetImageState(Preprocessing, Complete);
    assert s1.EnterPreprocessing(AllSizes) == s2;
    ProfileFailureResets(s2.ResetImageState(), PreprocessingFailed);
  }

  /**
   * After a failure a new update starts cleanly: the log ends with `failed`,
   * `ready`, `preprocess(image)` and both sizes are `preprocessing`.
   */
  lemma RestartAfterFailure(s: Status, error: UpdateError, image: ImageData)
    requires s.Valid() && s.preprocessorOperations > 0
    ensures var r := s.SetState(ProfileUpdateState.Failed(error)).UpdateImage(image);
            && r.log == s.log + [ProfileUpdateState.Failed(error), ProfileUpdateState.Ready, Preprocess(image)]
            && r.state == Preprocess(image)
            && r.preview == Preprocessing && r.complete == Preprocessing
  {
    var f := s.SetState(ProfileUpdateState.Failed(error));
    ProfileFailureResets(s, error);
    UpdateImageStartsPreprocessing(f, image);
  }

  /**
   * Preprocessed images: both sizes go to `upload`; consuming both hands the
   * images over and leaves both `uploading`; completing both commits the
   * images and the identifiers to the self user.
   */
  lemma {:induction false} PreprocessedImagesCycle(s: Status, small: ImageData, medium: ImageData,
                                                   previewId: AssetId, completeId: AssetId)
    requires s.Valid() && SizesReady(s)
    ensures
      var s0 := s.UpdatePreprocessedImages(small, medium);
      var (d1, s1) := s0.ConsumeImage(Preview);
      var (d2, s2) := s1.ConsumeImage(Complete);
      var s4 := s2.UploadingDone(Preview, previewId).UploadingDone(Complete, completeId);
      && d1 == Some(small) && d2 == Some(medium)
      && s2.preview == Uploading && s2.complete == Uploading
      && s4.log == s.log + [Update(previewId, completeId), ProfileUpdateState.Ready]
      && s4.state == ProfileUpdateState.Ready && SizesReady(s4)
      && s4.selfUser == s.selfUser.(previewProfileAssetIdentifier := Some(previewId),
                                    completeProfileAssetIdentifier := Some(completeId),
                                    imageSmallProfileData := Some(small),
                                    imageMediumData := Some(medium))
  {
    var s0 := s.UpdatePreprocessedImages(small, medium);
    var half := s.SetImageState(Upload(small), Preview);
    assert half == s.WithImageState(Preview, Upload(small)).(resizedImages := s.resizedImages[Preview := small]);
    assert s0 == half.WithImageState(Complete, Upload(medium)).(resizedImages := half.resizedImages[Complete := medium]);
    var (d1, s1) := s0.ConsumeImage(Preview);
    ConsumeHandsOver(s0, Preview, small);
    var (d2, s2) := s1.ConsumeImage(Complete);
    ConsumeHandsOver(s1, Complete, medium);
    var s3 := s2.UploadingDone(Preview, previewId);
    UploadDoneRecorded(s2, Preview, previewId);
    assert s3.Valid();
    BothUploadedCommits(s3, Complete, completeId, previewId);
  }

  /** Without asset identifiers but with both cached images, both sizes go straight to `upload`. */
  lemma ReuploadWithoutAssetIds(s: Status)
    requires SizesReady(s)
    requires s.selfUser.previewProfileAssetIdentifier.None? && s.selfUser.completeProfileAssetIdentifier.None?
    requires s.selfUser.imageSmallProfileData.Some? && s.selfUser.imageMediumData.Some?
    ensures var r := s.ReuploadExistingImageIfNeeded();
            && r.preview == Upload(s.selfUser.imageSmallProfileData.value)
            && r.complete == Upload(s.selfUser.imageMediumData.value)
            && r.state == s.state && r.log == s.log
  {
  }

  /** With an asset identifier present, re-uploading does nothing. */
  lemma ReuploadWithAssetIdsIsNoOp(s: Status)
    requires s.selfUser.previewProfileAssetIdentifier.Some? || s.selfUser.completeProfileAssetIdentifier.Some?
    ensures s.ReuploadExistingImageIfNeeded() == s
  {
  }

  // ---------------------------------------------------------------------------
  // The invariant
  // ---------------------------------------------------------------------------

  /** Every aggregate request keeps the invariant. */
  lemma {:induction false} SetStatePreservesValid(s: Status, newState: ProfileUpdateState)
    requires s.Valid()
    ensures s.SetState(newState).Valid()
  {
    if s.state.CanTransition(newState) {
      var s1 := s.(state := newState, log := s.log + [newState]);
      match newState
      case Ready =>
      case Preprocess(image) =>
        assert AllSizes[1..][1..] == [];
        var s2 := s1.SetImageState(Preprocessing, Preview).SetImageState(Preprocessing, Complete);
        assert s1.EnterPreprocessing(AllSizes) == s2;
        if s2.preprocessorOperations == 0 {
          ProfileFailureResets(s2.ResetImageState(), PreprocessingFailed);
        }
      case Update(p, c) =>
        CommitReturnsToReady(s1, p, c);
      case Failed(e) =>
        ProfileFailureResets(s, e);
    }
  }

  /** Every per-size request keeps the invariant. */
  lemma {:induction false} SetImageStatePreservesValid(s: Status, newState: ImageState, size: ProfileImageSize)
    requires s.Valid()
    ensures s.SetImageState(newState, size).Valid()
  {
    if s.ImageStateFor(size).CanTransition(newState) {
      var s1 := s.WithImageState(size, newState);
      match newState
      case Uploaded(id) =>
        if s1.preview.Uploaded? && s1.complete.Uploaded? {
          BothUploadedCommits(s, size, id, s.ImageStateFor(OtherSize(size)).assetId);
        }
      case Failed(e) =>
        SizeFailureCascades(s, e, size);
      case _ =>
    }
  }

  /** Consuming keeps the invariant. */
  lemma ConsumePreservesValid(s: Status, size: ProfileImageSize)
    requires s.Valid()
    ensures s.ConsumeImage(size).1.Valid()
  {
  }

  /** Upload straight from the preprocessed images keeps the invariant. */
  lemma {:induction false} UpdatePreprocessedImagesPreservesValid(s: Status, previewImage: ImageData, completeImage: ImageData)
    requires s.Valid()
    ensures s.UpdatePreprocessedImages(previewImage, completeImage).Valid()
  {
    SetImageStatePreservesValid(s, Upload(previewImage), Preview);
    SetImageStatePreservesValid(s.SetImageState(Upload(previewImage), Preview), Upload(completeImage), Complete);
  }

  /** Re-uploading the cached images keeps the invariant. */
  lemma {:induction false} ReuploadPreservesValid(s: Status)
    requires s.Valid()
    ensures s.ReuploadExistingImageIfNeeded().Valid()
  {
    if && s.selfUser.previewProfileAssetIdentifier.None? && s.selfUser.completeProfileAssetIdentifier.None?
       && s.selfUser.imageSmallProfileData.Some? && s.selfUser.imageMediumData.Some? {
      UpdatePreprocessedImagesPreservesValid(s, s.selfUser.imageSmallProfileData.value, s.selfUser.imageMediumData.value);
    }
  }

  /** A finished downsample keeps the invariant, whatever sizes it is matched against. */
  lemma {:induction false} CompletedDownsamplePreservesValid(s: Status, format: ImageFormat, data: ImageData, sizes: seq<ProfileImageSize>)
    requires s.Valid()
    ensures s.CompletedDownsample(format, data, sizes).Valid()
    decreases |sizes|
  {
    if sizes != [] {
      var s1 := if ImageFormatOf(sizes[0]) == format then s.SetImageState(Upload(data), sizes[0]) else s;
      if ImageFormatOf(sizes[0]) == format {
        SetImageStatePreservesValid(s, Upload(data), sizes[0]);
      }
      CompletedDownsamplePreservesValid(s1, format, data, sizes[1..]);
    }
  }

  /** The remaining entry points go through one of the two setters and keep the invariant too. */
  lemma {:induction false} EntryPointsPreserveValid(s: Status, size: ProfileImageSize, assetId: AssetId,
                                                    error: AssetTransportError, image: ImageData)
    requires s.Valid()
    ensures s.UploadingDone(size, assetId).Valid()
    ensures s.UploadingFailed(size, error).Valid()
    ensures s.UpdateImage(image).Valid()
    ensures s.FailedPreprocessing().Valid()
  {
    SetImageStatePreservesValid(s, Uploaded(assetId), size);
    SetImageStatePreservesValid(s, ImageState.Failed(UploadFailed(error)), size);
    SetStatePreservesValid(s, Preprocess(image));
    SetStatePreservesValid(s, ProfileUpdateState.Failed(PreprocessingFailed));
  }

  // ---------------------------------------------------------------------------
  // A whole update cycle
  // ---------------------------------------------------------------------------

  /**
   * From a fresh status: update the image, both downsamples complete, each size
   * is consumed and uploaded; the delegate sees `preprocess`, `update(id1, id2)`,
   * `ready`, and the identifiers and resized images are committed.
   */
  lemma {:induction false} FullCycle(user: SelfUser, image: ImageData, small: ImageData, medium: ImageData)
    ensures
      var s0 := InitialStatus(user, 1).UpdateImage(image);
      var s1 := s0.CompletedDownsample(Profile, small, AllSizes);
      var s2 := s1.CompletedDownsample(Medium, medium, AllSizes);
      var (d1, s3) := s2.ConsumeImage(Preview);
      var s4 := s3.UploadingDone(Preview, "id1");
      var (d2, s5) := s4.ConsumeImage(Complete);
      var s6 := s5.UploadingDone(Complete, "id2");
      && d1 == Some(small) && d2 == Some(medium)
      && s6.log == [Preprocess(image), Update("id1", "id2"), ProfileUpdateState.Ready]
      && s6.state == ProfileUpdateState.Ready && SizesReady(s6)
      && s6.selfUser == user.(previewProfileAssetIdentifier := Some("id1"),
                              completeProfileAssetIdentifier := Some("id2"),
                              imageSmallProfileData := Some(small),
                              imageMediumData := Some(medium))
  {
    var i := InitialStatus(user, 1);
    var s0 := i.UpdateImage(image);
    UpdateImageStartsPreprocessing(i, image);
    var s1 := s0.CompletedDownsample(Profile, small, AllSizes);
    DownsampleMovesOnlyItsSize(s0, Preview, small);
    var s2 := s1.CompletedDownsample(Medium, medium, AllSizes);
    DownsampleMovesOnlyItsSize(s1, Complete, medium);
    var (d1, s3) := s2.ConsumeImage(Preview);
    ConsumeHandsOver(s2, Preview, small);
    var s4 := s3.UploadingDone(Preview, "id1");
    UploadDoneRecorded(s3, Preview, "id1");
    var (d2, s5) := s4.ConsumeImage(Complete);
    ConsumeHandsOver(s4, Complete, medium);
    assert s5.Valid();
    BothUploadedCommits(s5, Complete, "id2", "id1");
  }
}
