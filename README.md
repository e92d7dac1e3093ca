# Profile-image upload and call-participant bookkeeping, modelled in Dafny

This project models four pieces of the Wire iOS sync engine and proves properties about them.

**The profile-image update status.** This is the self user's profile-image pipeline, `UserProfileImageUpdateStatus`. It runs two state machines:
- an aggregate machine, `ProfileUpdateState`: `ready`, `preprocess(image)`, `update(previewAssetId, completeAssetId)`, `failed(error)`;
- one `ImageState` per image size (`preview`, `complete`): `ready`, `preprocessing`, `upload(image)`, `uploading`, `uploaded(assetId)`, `failed(error)`.

Each machine has its own transition table. Requests outside the table are ignored. When both sizes are uploaded, the aggregate machine moves to `update`, commits both asset identifiers and images to the self user, and goes back to `ready`. A failure of either size fails the aggregate machine, and a failed aggregate machine resets everything to `ready`.

The status is modelled twice:
- as a value, `ProfileImageStatus.Status`, whose pure functions carry the logic;
- as a class, `ProfileImageStatus.UserProfileImageUpdateStatus`, whose fields the methods update in place. Each method ensures that its new `Snapshot()` is the matching function applied to the old one.

**The image asset update strategy.** `UserImageAssetUpdateStrategy` decides which request goes out next:
- nothing before authentication;
- otherwise a pending download, preview size first;
- otherwise the upload of an image the status has ready, again preview first.

It also builds the download and upload requests, and maps an upload response to `uploadingDone` or `uploadingFailed` on the status. Errors are classified by `AssetTransportError`.

**Call participants.** `VoiceChannelParticipantV3Snapshot` keeps a call's member list. When a new list is reported, it removes the members that left and inserts the joiners at their index in the new list. It reports the members whose audio state changed, and answers connection-state queries.

**The participant notification.** `VoiceChannelParticipantNotification` needs one of its two change descriptions. The index-set accessors read the newer description first; the moves are read from the older one first.

Files:
- `wrappers.dfy`: `Option`.
- `asset_errors.dfy`: transport responses and error classification.
- `profile_image_status.dfy`: the state machines, the `Status` value and the status class.
- `profile_image_status_properties.dfy`: lemmas about the status.
- `user_image_asset_update.dfy`: the strategy.
- `call_participants.dfy`: the participant snapshot, the reconciliation functions and their lemmas.
- `participant_notification.dfy`: the notification.

The implementation of `UserProfileImageUpdateStatus` is not part of this model. Its behaviour is taken from its test file, cited below, which states every transition, cascade and side effect the status promises.

## Model

| member | source | states |
|---|---|---|
| ProfileImageStatus.ImageState.CanTransition | Tests/Source/UserSession/UserProfileImageUpdateStatusTests.swift:193-200 | A per-size transition is allowed exactly when its target kind is in the table: ready → failed/preprocessing/upload; preprocessing → failed/upload; upload → failed/uploading; uploading → failed/uploaded; uploaded → failed/ready; failed → ready |
| ProfileImageStatus.ProfileUpdateState.CanTransition | Tests/Source/UserSession/UserProfileImageUpdateStatusTests.swift:283-288 | An aggregate transition is allowed exactly when it is in the table: ready → failed/preprocess/update; preprocess → failed/update; update → failed/ready; failed → ready |
| ProfileImageStatus.InitialStatus | Tests/Source/UserSession/UserProfileImageUpdateStatusTests.swift:186-191 | The status starts in a valid state: everything ready, nothing failed |
| ProfileImageStatus.UserProfileImageUpdateStatus.constructor | Tests/Source/UserSession/UserProfileImageUpdateStatusTests.swift:277-281 | A new status object's snapshot is the initial status: aggregate and both sizes ready |
| ProfileImageStatus.ImageFormatsDistinct | Tests/Source/UserSession/UserProfileImageUpdateStatusTests.swift:399-400 | Each size has its own downsample format, and neither is the original format |
| ProfileImageStatus.Status.SetState | Tests/Source/UserSession/UserProfileImageUpdateStatusTests.swift:283-324 | The aggregate transition: outside the table nothing changes (`InvalidProfileRequestIgnored`); `failed` resets to `ready` (`ProfileFailureResets`); `update` commits and returns to `ready` (`UpdateFromReadyCommits`); it keeps `Valid` (`SetStatePreservesValid`) |
| ProfileImageStatus.Status.SetImageState | Tests/Source/UserSession/UserProfileImageUpdateStatusTests.swift:193-271 | The per-size transition: outside the table nothing changes (`InvalidImageRequestIgnored`); the other size is untouched (`OtherSizeUntouched`); both uploaded commits (`BothUploadedCommits`); a failure cascades (`SizeFailureCascades`); it keeps `Valid` (`SetImageStatePreservesValid`) |
| ProfileImageStatus.Status.ResetImageState | Tests/Source/UserSession/UserProfileImageUpdateStatusTests.swift:310-324 | Both sizes back to `ready` and the resized images dropped, as `ProfileFailureResets` states after a failure |
| ProfileImageStatus.Status.HasImageToUpload | Tests/Source/UserSession/UserProfileImageUpdateStatusTests.swift:463-474 | True exactly when consuming the size hands over an image (`HasImageIffConsumable`) |
| ProfileImageStatus.Status.ConsumeImage | Tests/Source/UserSession/UserProfileImageUpdateStatusTests.swift:476-491 | Hands over the pending image once and moves the size to `uploading` (`ConsumeHandsOver`, `ConsumeWithoutImage`, `ConsumeIsPopOnce`, `ConsumePreservesValid`) |
| ProfileImageStatus.Status.UploadingDone | Tests/Source/UserSession/UserProfileImageUpdateStatusTests.swift:493-507 | Records the identifier (`UploadDoneRecorded`), or commits when the other size is uploaded (`BothUploadedCommits`) |
| ProfileImageStatus.Status.UploadingFailed | Tests/Source/UserSession/UserProfileImageUpdateStatusTests.swift:509-523 | Fails the update with the upload error and returns to `ready` (`UploadFailureReported`) |
| ProfileImageStatus.Status.UpdateImage | Tests/Source/UserSession/UserProfileImageUpdateStatusTests.swift:329-362 | Starts preprocessing from `ready` (`UpdateImageStartsPreprocessing`), fails at once with no operations (`PreprocessingWithoutOperationsFails`), restarts after a failure (`RestartAfterFailure`) |
| ProfileImageStatus.Status.UpdatePreprocessedImages | Tests/Source/UserSession/UserProfileImageUpdateStatusTests.swift:564-606 | Both sizes go to `upload` with the given images, which consume then hands over (`PreprocessedImagesCycle`) |
| ProfileImageStatus.Status.ReuploadExistingImageIfNeeded | Tests/Source/UserSession/UserProfileImageUpdateStatusTests.swift:608-644 | Re-uploads the cached images only when the self user has no identifiers (`ReuploadWithoutAssetIds`, `ReuploadWithAssetIdsIsNoOp`) |
| ProfileImageStatus.Status.CompletedDownsample | Tests/Source/UserSession/UserProfileImageUpdateStatusTests.swift:392-417 | Moves exactly the size of the operation's format to `upload(data)` (`DownsampleMovesOnlyItsSize`, `DownsampleOfOriginalIgnored`) |
| ProfileImageStatus.Status.FailedPreprocessing | Tests/Source/UserSession/UserProfileImageUpdateStatusTests.swift:419-434 | Fails with `preprocessingFailed` and resets both sizes to `ready` (`ProfileFailureResets`) |
| ProfileImageStatus.UserProfileImageUpdateStatus.ResetImageState | Tests/Source/UserSession/UserProfileImageUpdateStatusTests.swift:310-324 | The object's new state is `Status.ResetImageState` applied to its old state |
| ProfileImageStatus.UserProfileImageUpdateStatus.SetState | Tests/Source/UserSession/UserProfileImageUpdateStatusTests.swift:283-324 | The object's new state is `Status.SetState` applied to its old state |
| ProfileImageStatus.UserProfileImageUpdateStatus.UpdateUserProfile | Tests/Source/UserSession/UserProfileImageUpdateStatusTests.swift:544-562 | The object's new state is `Status.UpdateUserProfile` applied to its old state |
| ProfileImageStatus.UserProfileImageUpdateStatus.StartPreprocessing | Tests/Source/UserSession/UserProfileImageUpdateStatusTests.swift:329-362 | The object's new state is `Status.StartPreprocessing, its loop over the sizes proved against the function` applied to its old state |
| ProfileImageStatus.UserProfileImageUpdateStatus.SetImageState | Tests/Source/UserSession/UserProfileImageUpdateStatusTests.swift:193-271 | The object's new state is `Status.SetImageState` applied to its old state |
| ProfileImageStatus.UserProfileImageUpdateStatus.ConsumeImage | Tests/Source/UserSession/UserProfileImageUpdateStatusTests.swift:476-491 | The object's new state is `Status.ConsumeImage, and returns the image that function hands over` applied to its old state |
| ProfileImageStatus.UserProfileImageUpdateStatus.UploadingDone | Tests/Source/UserSession/UserProfileImageUpdateStatusTests.swift:493-507 | The object's new state is `Status.UploadingDone` applied to its old state |
| ProfileImageStatus.UserProfileImageUpdateStatus.UploadingFailed | Tests/Source/UserSession/UserProfileImageUpdateStatusTests.swift:509-523 | The object's new state is `Status.UploadingFailed` applied to its old state |
| ProfileImageStatus.UserProfileImageUpdateStatus.UpdateImage | Tests/Source/UserSession/UserProfileImageUpdateStatusTests.swift:329-362 | The object's new state is `Status.UpdateImage` applied to its old state |
| ProfileImageStatus.UserProfileImageUpdateStatus.UpdatePreprocessedImages | Tests/Source/UserSession/UserProfileImageUpdateStatusTests.swift:564-606 | The object's new state is `Status.UpdatePreprocessedImages` applied to its old state |
| ProfileImageStatus.UserProfileImageUpdateStatus.ReuploadExistingImageIfNeeded | Tests/Source/UserSession/UserProfileImageUpdateStatusTests.swift:608-644 | The object's new state is `Status.ReuploadExistingImageIfNeeded` applied to its old state |
| ProfileImageStatus.UserProfileImageUpdateStatus.CompletedDownsampleOperation | Tests/Source/UserSession/UserProfileImageUpdateStatusTests.swift:392-417 | The object's new state is `Status.CompletedDownsample over all sizes, its loop proved against the function` applied to its old state |
| ProfileImageStatus.UserProfileImageUpdateStatus.FailedPreprocessingImageOwner | Tests/Source/UserSession/UserProfileImageUpdateStatusTests.swift:419-434 | The object's new state is `Status.FailedPreprocessing` applied to its old state |
| ProfileImageStatusProperties.InvalidImageRequestIgnored | Tests/Source/UserSession/UserProfileImageUpdateStatusTests.swift:213-222 | A per-size transition outside the table leaves the whole status unchanged |
| ProfileImageStatusProperties.InvalidProfileRequestIgnored | Tests/Source/UserSession/UserProfileImageUpdateStatusTests.swift:283-288 | An aggregate transition outside the table leaves the whole status unchanged |
| ProfileImageStatusProperties.OtherSizeUntouched | Tests/Source/UserSession/UserProfileImageUpdateStatusTests.swift:202-233 | Unless it fails or completes both uploads, setting one size's state leaves the other size, the aggregate state and the log as they were |
| ProfileImageStatusProperties.BothUploadedCommits | Tests/Source/UserSession/UserProfileImageUpdateStatusTests.swift:235-259 | Once the second size is uploaded, the log gains `update(preview, complete)` and then `ready`, and the self user holds both identifiers |
| ProfileImageStatusProperties.SizeFailureCascades | Tests/Source/UserSession/UserProfileImageUpdateStatusTests.swift:261-271 | A size failing with an error fails the aggregate machine with that error, which is followed by `ready` and both sizes ready |
| ProfileImageStatusProperties.ProfileFailureResets | Tests/Source/UserSession/UserProfileImageUpdateStatusTests.swift:310-324 | Failing the aggregate machine logs `failed(e)` then `ready`, resets both sizes and the resized images, and leaves the self user unchanged |
| ProfileImageStatusProperties.PreprocessingWithoutOperationsFails | Tests/Source/UserSession/UserProfileImageUpdateStatusTests.swift:350-362 | `updateImage` with no preprocessing operations logs `preprocess`, `failed(preprocessingFailed)`, `ready` and leaves both sizes ready |
| ProfileImageStatusProperties.UpdateImageStartsPreprocessing | Tests/Source/UserSession/UserProfileImageUpdateStatusTests.swift:329-348 | `updateImage` from ready with operations logs `preprocess(image)` and puts both sizes into preprocessing |
| ProfileImageStatusProperties.DownsampleMovesOnlyItsSize | Tests/Source/UserSession/UserProfileImageUpdateStatusTests.swift:392-417 | A finished downsample moves exactly the size of its format to `upload(data)` and leaves the other size as it was |
| ProfileImageStatusProperties.DownsampleOfOriginalIgnored | Tests/Source/UserSession/UserProfileImageUpdateStatusTests.swift:392-417 | A downsample in the original format matches no size and changes nothing |
| ProfileImageStatusProperties.RestartAfterFailure | Tests/Source/UserSession/UserProfileImageUpdateStatusTests.swift:436-457 | After a failed preprocessing, a new `updateImage` logs `failed`, `ready`, `preprocess(image)` and both sizes are preprocessing again |
| ProfileImageStatusProperties.HasImageIffConsumable | Tests/Source/UserSession/UserProfileImageUpdateStatusTests.swift:463-474 | A size has an image to upload exactly when consuming it hands over an image |
| ProfileImageStatusProperties.ConsumeHandsOver | Tests/Source/UserSession/UserProfileImageUpdateStatusTests.swift:476-491 | Consuming a size in `upload(image)` returns that image and moves the size to `uploading` |
| ProfileImageStatusProperties.ConsumeWithoutImage | Tests/Source/UserSession/UserProfileImageUpdateStatusTests.swift:476-491 | Consuming a size that is not in `upload` returns nothing and changes nothing |
| ProfileImageStatusProperties.ConsumeIsPopOnce | Tests/Source/UserSession/UserProfileImageUpdateStatusTests.swift:476-491 | A second consume of the same size returns nothing |
| ProfileImageStatusProperties.UploadDoneRecorded | Tests/Source/UserSession/UserProfileImageUpdateStatusTests.swift:493-507 | `uploadingDone` while the other size is not yet uploaded moves the size to `uploaded(assetId)` |
| ProfileImageStatusProperties.UploadFailureReported | Tests/Source/UserSession/UserProfileImageUpdateStatusTests.swift:509-523 | `uploadingFailed` logs `failed(uploadFailed(error))` then `ready` and leaves the size ready |
| ProfileImageStatusProperties.UpdateFromReadyCommits | Tests/Source/UserSession/UserProfileImageUpdateStatusTests.swift:300-308 | Requesting `update(p, c)` from `ready` logs `update(p, c)` then `ready`, commits both identifiers and ends in `ready`, which is the `ready` that test observes |
| ProfileImageStatusProperties.CommitReturnsToReady | Tests/Source/UserSession/UserProfileImageUpdateStatusTests.swift:544-562 | Entering `update(p, c)` writes both identifiers to the self user and returns to `ready` |
| ProfileImageStatusProperties.PreprocessedImagesCycle | Tests/Source/UserSession/UserProfileImageUpdateStatusTests.swift:564-606 | Preprocessed images followed by two consumes hand over both images and leave both sizes uploading; two uploads then commit both images and identifiers to the self user |
| ProfileImageStatusProperties.ReuploadWithoutAssetIds | Tests/Source/UserSession/UserProfileImageUpdateStatusTests.swift:608-626 | A self user with cached images and no identifiers puts both sizes into `upload` with those images |
| ProfileImageStatusProperties.ReuploadWithAssetIdsIsNoOp | Tests/Source/UserSession/UserProfileImageUpdateStatusTests.swift:628-644 | A self user that already has both identifiers leaves the status unchanged |
| ProfileImageStatusProperties.SetStatePreservesValid | Tests/Source/UserSession/UserProfileImageUpdateStatusTests.swift:283-324 | Aggregate transitions keep the status valid: it is at rest in ready or preprocess, no size failed, not both uploaded |
| ProfileImageStatusProperties.SetImageStatePreservesValid | Tests/Source/UserSession/UserProfileImageUpdateStatusTests.swift:193-271 | Per-size transitions keep the status valid, including through their cascades |
| ProfileImageStatusProperties.ConsumePreservesValid | Tests/Source/UserSession/UserProfileImageUpdateStatusTests.swift:476-491 | Consuming an image keeps the status valid |
| ProfileImageStatusProperties.UpdatePreprocessedImagesPreservesValid | Tests/Source/UserSession/UserProfileImageUpdateStatusTests.swift:564-606 | Uploading straight from preprocessed images keeps the status valid |
| ProfileImageStatusProperties.ReuploadPreservesValid | Tests/Source/UserSession/UserProfileImageUpdateStatusTests.swift:608-644 | Re-uploading cached images keeps the status valid |
| ProfileImageStatusProperties.CompletedDownsamplePreservesValid | Tests/Source/UserSession/UserProfileImageUpdateStatusTests.swift:392-417 | A finished downsample keeps the status valid |
| ProfileImageStatusProperties.EntryPointsPreserveValid | Tests/Source/UserSession/UserProfileImageUpdateStatusTests.swift:419-523 | `uploadingDone`, `uploadingFailed`, `updateImage` and `failedPreprocessingImageOwner` keep the status valid |
| ProfileImageStatusProperties.FullCycle | Tests/Source/UserSession/UserProfileImageUpdateStatusTests.swift:564-586 | From the initial status, update, downsample, consume and upload of both sizes log `preprocess`, `update("id1","id2")`, `ready` and commit the new profile |
| AssetErrors.Classify | Source/Synchronization/Strategies/UserImageAssetUpdateStrategy.swift:22-37 | Invalid length exactly for 400 with label `invalid-length`, too large exactly for 413 with label `client-error`, otherwise the session error carried over |
| AssetErrors.Other400 | Source/Synchronization/Strategies/UserImageAssetUpdateStrategy.swift:27-36 | A 400 whose label is not `invalid-length` is classified as other |
| UserImageAssetUpdate.UserImageAssetUpdateStrategy.constructor | Source/Synchronization/Strategies/UserImageAssetUpdateStrategy.swift:51-68 | Each size gets its own fresh download sync and its own fresh upload sync |
| UserImageAssetUpdate.UserImageAssetUpdateStrategy.SizeForDownstream | Source/Synchronization/Strategies/UserImageAssetUpdateStrategy.swift:85-92 | Returns the size registered with this very download sync, and nothing exactly when no size is |
| UserImageAssetUpdate.UserImageAssetUpdateStrategy.SizeForUpstream | Source/Synchronization/Strategies/UserImageAssetUpdateStrategy.swift:94-101 | Returns the size registered with this very upload sync, and nothing exactly when no size is |
| UserImageAssetUpdate.NoSizeRegistered | Source/Synchronization/Strategies/UserImageAssetUpdateStrategy.swift:85-101 | The size search over all sizes finds nothing exactly when no size is registered with that sync |
| UserImageAssetUpdate.RegisteredSizeFound | Source/Synchronization/Strategies/UserImageAssetUpdateStrategy.swift:85-101 | With distinct syncs, the search finds each sync under its own size |
| UserImageAssetUpdate.DownloadSyncFetchesItsSize | Source/Synchronization/Strategies/UserImageAssetUpdateStrategy.swift:57-58 | Each size's download sync maps back to that size |
| UserImageAssetUpdate.UploadSyncUploadsItsSize | Source/Synchronization/Strategies/UserImageAssetUpdateStrategy.swift:63-64 | Each size's upload sync maps back to that size |
| UserImageAssetUpdate.UserImageAssetUpdateStrategy.NextDownloadRequest | Source/Synchronization/Strategies/UserImageAssetUpdateStrategy.swift:126-131 | Returns the first pending download in preview-then-complete order, and nothing exactly when no download sync has one |
| UserImageAssetUpdate.UserImageAssetUpdateStrategy.ChooseUploadSize | Source/Synchronization/Strategies/UserImageAssetUpdateStrategy.swift:135 | Picks the first size, in preview-then-complete order, that has an image to upload, and nothing exactly when no size has one |
| UserImageAssetUpdate.UserImageAssetUpdateStrategy.UploadSyncNextRequest | Source/Synchronization/Strategies/UserImageAssetUpdateStrategy.swift:136-137 | A busy upload sync yields nothing and changes nothing; an idle one becomes busy and yields the upload of the consumed image |
| UserImageAssetUpdate.UserImageAssetUpdateStrategy.NextRequest | Source/Synchronization/Strategies/UserImageAssetUpdateStrategy.swift:122-138 | Nothing unless authenticated; else the first pending download; else nothing without a status; else the upload of the first size with an image, consumed from the status, or nothing if that sync is busy |
| UserImageAssetUpdate.PreviewDownloadsFirst | Source/Synchronization/Strategies/UserImageAssetUpdateStrategy.swift:126-131 | A pending preview download wins over a complete one |
| UserImageAssetUpdate.PreviewUploadsFirst | Source/Synchronization/Strategies/UserImageAssetUpdateStrategy.swift:135 | A preview image waiting for upload wins over a complete one |
| UserImageAssetUpdate.UserImageAssetUpdateStrategy.RequestForFetching | Source/Synchronization/Strategies/UserImageAssetUpdateStrategy.swift:142-157 | A request exactly when the sync is a registered download sync, the object is a user and that size's identifier is set; it is an image GET of the v3 assets path of that identifier |
| UserImageAssetUpdate.FetchPath | Source/Synchronization/Strategies/UserImageAssetUpdateStrategy.swift:155 | The path is `/assets/v3/` followed by the asset identifier |
| UserImageAssetUpdate.FetchPathRoundTrip | Source/Synchronization/Strategies/UserImageAssetUpdateStrategy.swift:155 | Parsing a download path gives back its asset identifier |
| UserImageAssetUpdate.FetchPathInjective | Source/Synchronization/Strategies/UserImageAssetUpdateStrategy.swift:155 | Different identifiers give different download paths |
| UserImageAssetUpdate.UploadedIdsAreFetched | Source/Synchronization/Strategies/UserImageAssetUpdateStrategy.swift:147-153 | Once the status commits after the second upload, the identifier the strategy fetches for each size is the one just uploaded for that size |
| UserImageAssetUpdate.UserImageAssetUpdateStrategy.RequestFor | Source/Synchronization/Strategies/UserImageAssetUpdateStrategy.swift:177-184 | An upload request exactly when the sync has a size and the status hands over an image for it, carrying that image; the size is consumed |
| UserImageAssetUpdate.UploadResponseOutcome | Source/Synchronization/Strategies/UserImageAssetUpdateStrategy.swift:186-195 | Failure with the classified error exactly when the result is not success; done with the payload's `key` exactly when it is success and the key is a string; otherwise the fatal missing-key case |
| UserImageAssetUpdate.UserImageAssetUpdateStrategy.DidReceive | Source/Synchronization/Strategies/UserImageAssetUpdateStrategy.swift:186-195 | An unknown sync is ignored; otherwise the status receives `uploadingFailed` with the classified error or `uploadingDone` with the key |
| CallParticipants.VoiceChannelParticipantV3Snapshot.constructor | Source/Calling/WireCallCenterV3+Notifications.swift:174-191 | The initiator defaults to the self user, and the members default to the active flow participants |
| CallParticipants.VoiceChannelParticipantV3Snapshot.Sort | Source/Calling/WireCallCenterV3+Notifications.swift:207-217 | `all` lists the other participants' identifiers in order; `connected` lists those of them whose audio is established |
| CallParticipants.OtherIdsMembership | Source/Calling/WireCallCenterV3+Notifications.swift:209-215 | An identifier is in `all` exactly when it is a participant other than the self user |
| CallParticipants.ConnectedAreOthersWithAudio | Source/Calling/WireCallCenterV3+Notifications.swift:208-215 | The connected list equals sorting only the participants with audio |
| CallParticipants.VoiceChannelParticipantV3Snapshot.CallParticipantsChanged | Source/Calling/WireCallCenterV3+Notifications.swift:219-241 | The new members are the reconciliation of the old list with the new one, or a trap; the updated set is the members whose audio differs; with distinct new identifiers there is no trap and the member identifiers become the new ones |
| CallParticipants.Reconcile | Source/Calling/WireCallCenterV3+Notifications.swift:221-231 | The member list after the removals and insertions, or the trap: never traps on distinct identifiers (`ReconcileNeverTraps`), holds the retained members and the joiners with the new identifiers in the retained order (`ReconcileResult`) |
| CallParticipants.RemoveAll | Source/Calling/WireCallCenterV3+Notifications.swift:222-227 | The removal loop; it leaves exactly the retained members in order (`RemoveAllLeavesRetained`) |
| CallParticipants.InsertAll | Source/Calling/WireCallCenterV3+Notifications.swift:228-231 | The insertion loop; it adds exactly the joiners (`InsertAllContents`), keeps the order of the members already there (`InsertAllKeepsOrder`), and traps only past the end (`InsertionStaysInBounds`, `RepeatedIdTraps`) |
| CallParticipants.ReconcileNeverTraps | Source/Calling/WireCallCenterV3+Notifications.swift:228-231 | With distinct identifiers in the new list, every insertion index is in bounds |
| CallParticipants.ReconcileResult | Source/Calling/WireCallCenterV3+Notifications.swift:221-231 | The result holds exactly the retained old members plus the joiners, carries the new list's identifiers, and keeps the retained members in their old order |
| CallParticipants.ReconcileDistinct | Source/Calling/WireCallCenterV3+Notifications.swift:221-231 | With distinct identifiers on both sides, there is no trap and the result has exactly as many members as the new list |
| CallParticipants.JoinersAreInNewList | Source/Calling/WireCallCenterV3+Notifications.swift:221 | Every joiner's identifier is in the new list |
| CallParticipants.RemoveAllLeavesRetained | Source/Calling/WireCallCenterV3+Notifications.swift:222-227 | Removing the leavers one by one leaves exactly the retained members in order |
| CallParticipants.InsertAllContents | Source/Calling/WireCallCenterV3+Notifications.swift:228-231 | Inserting the joiners adds exactly them, as a multiset and as identifiers |
| CallParticipants.InsertAllKeepsOrder | Source/Calling/WireCallCenterV3+Notifications.swift:228-231 | Inserting the joiners keeps the relative order of the members already there |
| CallParticipants.RepeatedIdTraps | Source/Calling/WireCallCenterV3+Notifications.swift:228-231 | A repeated identifier in the new list can push an insertion index past the end |
| CallParticipants.SameIdsKeepMembers | Source/Calling/WireCallCenterV3+Notifications.swift:219-231 | When the identifiers stay the same, the members stay exactly as they were, old audio state included |
| CallParticipants.UpdatedIn | Source/Calling/WireCallCenterV3+Notifications.swift:232-239 | A member is updated exactly when it is in the list and its entry in the new list has a different audio state |
| CallParticipants.FirstJoiner | Tests/Source/Integration/CallingV3Tests.swift:298-311 | The first participant to join becomes the only member, with nothing updated |
| CallParticipants.SoleParticipantAudioFlip | Tests/Source/Integration/CallingV3Tests.swift:313-325 | A sole participant gaining audio is reported as updated, and is kept with its old audio state |
| CallParticipants.ConnectionStateOf | Source/Calling/WireCallCenterV3+Notifications.swift:259-268 | Not connected exactly when no member has the identifier; never connecting |
| CallParticipants.VoiceChannelParticipantV3Snapshot.ConnectionState | Source/Calling/WireCallCenterV3+Notifications.swift:259-268 | Not connected exactly when the user is not a member, connected exactly when it is |
| ParticipantNotification.MakeNotification | Source/Calling/CallingV2+Notifications.swift:136-143 | Fails exactly when neither change description is given; otherwise stores the arguments as given |
| ParticipantNotification.VoiceChannelParticipantNotification.InsertedIndexes | Source/Calling/CallingV2+Notifications.swift:145 | Read from the newer description, else the older, else empty (`SingleDescription`, `BothDescriptions`) |
| ParticipantNotification.VoiceChannelParticipantNotification.DeletedIndexes | Source/Calling/CallingV2+Notifications.swift:146 | Read from the newer description, else the older, else empty (`SingleDescription`, `BothDescriptions`) |
| ParticipantNotification.VoiceChannelParticipantNotification.UpdatedIndexes | Source/Calling/CallingV2+Notifications.swift:147 | Read from the newer description, else the older, else empty (`SingleDescription`, `BothDescriptions`) |
| ParticipantNotification.VoiceChannelParticipantNotification.MovedIndexPairs | Source/Calling/CallingV2+Notifications.swift:156-158 | Read from the older description, else the newer, else empty (`BothDescriptions`, `PrioritiesDiffer`) |
| ParticipantNotification.VoiceChannelParticipantNotification.EnumerateMovedIndexes | Source/Calling/CallingV2+Notifications.swift:148-154 | Delegates to the older description, else the newer, and agrees with `MovedIndexPairs` (`EnumerationAgreesWithPairs`) |
| ParticipantNotification.SingleDescription | Source/Calling/CallingV2+Notifications.swift:145-158 | With one description present, every accessor answers from it |
| ParticipantNotification.BothDescriptions | Source/Calling/CallingV2+Notifications.swift:145-158 | With both present, the index sets come from the newer description and the moves from the older one |
| ParticipantNotification.EnumerationAgreesWithPairs | Source/Calling/CallingV2+Notifications.swift:148-158 | Enumerating the moves gives exactly `movedIndexPairs`, in order |
| ParticipantNotification.PrioritiesDiffer | Source/Calling/CallingV2+Notifications.swift:145-158 | A notification exists whose index sets and moves come from different descriptions |

## Left out

- The implementation file of `UserProfileImageUpdateStatus` is not part of this model. Its operations are reconstructed from its tests: the transition tables, the cascades to update and failure, the reset after failure, consume, and reupload. `updateImage` while already in `preprocess` changes nothing, because preprocess → preprocess is not in the aggregate table (UserProfileImageUpdateStatusTests.swift:283-288).
- `UpdateError.UploadFailed` carries an `AssetTransportError`, which narrows the arbitrary `Error` the status accepts; the test's `MockUploadError.failed` (UserProfileImageUpdateStatusTests.swift:521) is not representable.
- `ProfileImageStatus.ImageFormatOf`: `ProfileImageSize.imageFormat` is not part of this model. The mapping preview → profile, complete → medium is assumed, and `ImageFormatsDistinct` and `DownsampleOfOriginalIgnored` hold under that assumption.
- The status's change delegate is modelled as an append-only log of aggregate states. Per-size notifications to the delegate are not modelled.
- The `RequestAvailableNotification` the status posts is not modelled, because notifications are I/O.
- Core Data side effects are not modelled: `hasLocalModifications`, saving the context, and storing `originalProfileImageData`. The self user is a plain value holding the two identifiers and the two cached images.
- Image preprocessing is not modelled: the preprocessor, its operation queue, and the downsampling itself. The number of operations the preprocessor returns is a parameter, and a finished downsample arrives as its format and data.
- The strategy talks to three collaborators whose code is not part of this model: the download syncs, the upload syncs and the asset request factory. They are modelled as oracles:
  - a download sync has a pending request or not;
  - an upload sync is busy or idle;
  - the factory always builds an upload request carrying the image.
- The shareable and retention flags and the debug information on the upload request are not modelled.
- The syncs' own response bookkeeping is not modelled.
- Swift's dictionary iteration order in `size(for:)` is not modelled. The sizes are searched in a fixed order; because each sync is registered under one size, every order gives the same answer.
- `UserImageAssetUpdate.UserImageAssetUpdateStrategy.DidReceive`: the fatal error on a successful response without a string `key` is modelled as the `MissingAssetId` outcome, with the status unchanged.
- The authentication status is collapsed to two phases, authenticated or not, because that is the only distinction the strategy reads (UserImageAssetUpdateStrategy.swift:123-124).
- These strategy operations are not modelled:
  - `update(_:with:downstreamSync:)`, which stores the downloaded data on the user;
  - `delete`;
  - `contextChangeTrackers`;
  - whitelisting;
  - `requestAssetForNotification`, which whitelists on a notification.
  Each one forwards to Core Data or to the syncs.
- `CallMember`'s `==` is not part of this model. It is assumed to compare `remoteId` only, and the filters and index lookups of `callParticipantsChanged` use that assumption.
- `CallParticipants.VoiceChannelParticipantV3Snapshot.CallParticipantsChanged`: an out-of-bounds `insert(_:at:)`, a runtime trap, is modelled as the `trapped` result with the members left as they were at that point.
- `recalculateSet`, `SetSnapshot`, `notifyInitialChange` and notification posting are not modelled. The change computation and the main-queue dispatch belong to collaborators outside this model; the model returns the `updated` set that is handed to them.
- `WireCallCenterV3.activeInstance` and its fatal error are not modelled. The active flow participants are passed to the constructor as a parameter.
- `ParticipantNotification.MakeNotification`: the `fatalError` when both descriptions are missing is modelled as `None`.
- `ParticipantNotification`: change descriptions are plain values of their index sets and moves, and `post()` is not modelled.
- `ParticipantNotification.ChangeInfo.EnumeratedMoves`: `SetChangeInfo.enumerateMovedIndexes` is not part of this model. It is assumed to hand each moved pair's `(from, to)` to the block in the order of `movedIndexPairs`.
- Two behaviours of the source are modelled as written, with a lemma each:
  - A repeated identifier in the new participant list can trap; see `CallParticipants.RepeatedIdTraps`.
  - A member whose audio state changed keeps its old `audioEstablished` (`CallParticipants.SameIdsKeepMembers`). `connectionState` never answers connecting, because both of its flags test the same thing.
