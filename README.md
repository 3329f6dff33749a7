# Yoto Creator: content assembly and upload sequencing

Yoto Creator is a desktop app for building audio content for Yoto players.
The user:

- collects chapters on an editing page;
- fills each chapter with audio tracks picked from disk;
- optionally generates an icon and a cover image;
- publishes the result.

Publishing creates a content container on the remote Yoto API and then uploads, one
request at a time and stopping at the first failure:

1. the icon;
2. the cover;
3. every chapter's icon followed by its tracks.

This project models that core and proves properties of the model.

- **`Models`** (`models.dfy`): the three records.
  - A track (`AudioFile`) is a value.
  - A `Chapter` is an object. The page's list and its selection share it, and its order and
    track list change in place.
  - The publishable `YotoContent` is a value. The upload code only reads the chapters, so the
    record holds each chapter's fields (`ChapterData`) as they stood when it was built.
  - The numbering rule applies to every list: a track's `order` is its 0-based position.
- **`AudioFiles`** (`audio_files.dfy`): the audio helpers.
  - the extension whitelist;
  - the checked `long` size total;
  - the duration total over an abstract parser;
  - the size-unit loop;
  - the `HH:MM:SS`/`MM:SS` duration text;
  - the picker loop with its order counter;
  - the token-then-path reopening of a file.
- **`YotoApi`** (`yoto_api.dfy`): the upload service.
  - The authentication gate is a class with `apiKey`, `isAuthenticated` and a trace of the
    remote calls made.
  - `CreateContent` runs the upload sequence against an oracle for the remote answers.
    `createReply` answers the creation request; `uploadReply(k)` answers the k-th upload.
  - `Publish` is the specification of a whole run. `UploadPlan` is the order of the assets.
- **`Editor`** (`main_page.dfy`): the editing page's handlers.
  - The handlers are create, select and delete a chapter, add and remove tracks,
    authenticate, and publish.
  - `Valid()` is the page's invariant: distinct chapters, chapter order == position, and every
    track list numbered.
- **`Text`**, **`Ordering`** and **`Wrappers`**: the .NET behaviour the core relies on.
  - `Text`: white space, `Trim`, ASCII lower-casing, `string.Join`, decimal and `D2` formatting.
  - `Ordering`: LINQ's stable `OrderBy`, computed on positions, and the permutation facts
    about it.
  - `Wrappers`: `Option` and `Result`.

In the source the remote service, the file picker, the storage APIs and `TimeSpan.TryParse`
are calls. Here they are parameters:

- the probe's answer;
- the creation reply and the upload replies;
- the picked files with their properties;
- the token and path lookups;
- a duration parser.

A `null` string or list in the source is modelled as the empty one, because every check in
the source treats the two alike.

Some of the code's behaviour is easy to misread, and the model keeps it as written:

- Without chapters, the flat track list is uploaded in list position, not sorted by `order`.
- The publish checks stop at the first failing one and show one dialog. They do not collect
  every violation. A content with a flat list but no chapters is refused.
- A failed upload is reported only as the exception's message with the
  "Failed to create content: " prefix. The container id is not returned with the error.
- Having both a flat list and chapters is not an error: the chapters silently take precedence.

## Model

| member | source | states |
|---|---|---|
| Text.Trim | YotoCreator/MainPage.xaml.cs:109-110 | The result is a slice of the input with only white space cut from either end; it is empty exactly when the input is all white space, and otherwise starts and ends with a non-white-space character |
| Text.FormatD2RoundTrip | YotoCreator/Services/AudioFileService.cs:77-79 | For 0..99 the `D2` text is exactly two digits that read back as the number |
| Text.IntToStringInjective | YotoCreator/Services/YotoApiService.cs:206-210 | Different chapter orders never render to the same decimal text |
| Ordering.OrderBy | YotoCreator/Services/YotoApiService.cs:103 | The positions come out as a permutation of 0..n-1, by ascending key, with equal keys keeping list order (a stable sort) |
| Ordering.StablySortedUnique | YotoCreator/Services/YotoApiService.cs:103 | A stable ordering of a set of positions is unique, so `OrderBy` is determined by the keys |
| Ordering.OrderByKeepsSortedList | YotoCreator/Services/YotoApiService.cs:114 | Keys that never decrease along the list are enumerated in list order |
| Ordering.SortBy | YotoCreator/Services/YotoApiService.cs:103 | `OrderBy` on a key: the result is a permutation of the list (same length, same multiset) by ascending key |
| Ordering.SortByStable | YotoCreator/Services/YotoApiService.cs:103 | Element a of the result is element p[a] of the list, p the stable order of the keys, so elements with equal keys keep their list order |
| Ordering.SortBySortedList | YotoCreator/Services/YotoApiService.cs:114 | A list whose keys never decrease comes out unchanged |
| Ordering.SumPermutation | YotoCreator/Services/YotoApiService.cs:103-117 | A sum does not depend on the order of its terms, so counting uploads in sorted order equals counting in list order |
| Models.Chapter.constructor | YotoCreator/Models/Chapter.cs:35-38 | A new chapter has an empty track list and no icon |
| Models.Renumber | YotoCreator/MainPage.xaml.cs:257-260 | The renumbered list is numbered 0..n-1 and each track is unchanged apart from its order |
| Models.RenumberIdempotent | YotoCreator/MainPage.xaml.cs:257-260 | Renumbering a numbered list changes nothing, so a second renumbering pass leaves every order as it was |
| Models.AppendKeepsNumbered | YotoCreator/MainPage.xaml.cs:223-227 | Appending tracks numbered from the current count keeps a numbered list numbered |
| Models.SortedTracks | YotoCreator/Services/YotoApiService.cs:114 | A chapter's tracks are uploaded as a permutation of its list, by ascending order (ties in list order, by `Ordering.SortByStable`) |
| Models.SortedNumberedTracks | YotoCreator/Models/AudioFile.cs:30-33 | When orders are positions, sorting by order keeps the list as it is |
| AudioFiles.Extension | YotoCreator/Services/AudioFileService.cs:130 | `Path.GetExtension`: non-empty exactly when a '.' that is not last has no later '.' or separator, and then it is the text from that '.' |
| AudioFiles.IsSupportedAudioFormat | YotoCreator/Services/AudioFileService.cs:16-25 | True exactly when the file has an extension whose lower-cased text is one of the seven listed formats |
| AudioFiles.SupportedIgnoresCase | YotoCreator/Services/AudioFileService.cs:128-132 | Lower-casing the file name never changes the verdict: the check is case-insensitive |
| AudioFiles.NoDotNotSupported | YotoCreator/Services/AudioFileService.cs:131 | A name without an extension is never supported |
| AudioFiles.SupportedExamples | YotoCreator/Services/AudioFileService.cs:128-132 | Upper- and mixed-case audio extensions are accepted |
| AudioFiles.UnsupportedExamples | YotoCreator/Services/AudioFileService.cs:128-132 | Another extension, a second extension after an audio one, a trailing '.', and no extension are all refused |
| AudioFiles.GetTotalFileSize | YotoCreator/Services/AudioFileService.cs:155-158 | The checked `long` sum: 0 for an empty list, otherwise the exact sum of the sizes unless a running total leaves the `long` range (an overflow exception) |
| AudioFiles.TotalFileSizeOverflow | YotoCreator/Services/AudioFileService.cs:157 | For non-negative sizes the sum overflows exactly when the exact total exceeds the `long` maximum |
| AudioFiles.GetTotalDuration | YotoCreator/Services/AudioFileService.cs:137-150 | The loop adds exactly the durations the parser accepts; an empty list gives zero |
| AudioFiles.UnparsedEntryIgnored | YotoCreator/Services/AudioFileService.cs:143-146 | A track whose duration does not parse contributes nothing and does not stop the sum |
| AudioFiles.FormatFileSize | YotoCreator/Services/AudioFileService.cs:163-176 | The unit is the largest k <= 4 with bytes >= 1024^k ("B" for anything below 1024, negatives and 0 included), and the number is bytes / 1024^k |
| AudioFiles.ComponentsInRange | YotoCreator/Services/AudioFileService.cs:76-79 | The hours, minutes and seconds components of a duration are below 24, 60 and 60 |
| AudioFiles.DurationTextFields | YotoCreator/Services/AudioFileService.cs:77-79 | The duration text is `HH:MM:SS` when the hours component is positive and `MM:SS` otherwise, each field two digits that read back as its component |
| AudioFiles.DurationTextDropsDays | YotoCreator/Services/AudioFileService.cs:76-79 | A duration one day longer gives the same text: whole days are dropped |
| AudioFiles.ToLong | YotoCreator/Services/AudioFileService.cs:86 | The unsigned size cast to `long` is the size when it fits, and otherwise wraps modulo 2^64 |
| AudioFiles.CreateAudioFile | YotoCreator/Services/AudioFileService.cs:71-90 | The track takes the file's name, path and access token, the duration text of the file's duration, the cast size and the given order |
| AudioFiles.PickAudioFiles | YotoCreator/Services/AudioFileService.cs:30-66 | Nothing picked gives an empty list; otherwise the loop gives exactly the readable files' tracks, in picker order |
| AudioFiles.PickedPrefixSources | YotoCreator/Services/AudioFileService.cs:49-56 | Every track is built from the picked file at its own order, and the orders strictly increase |
| AudioFiles.PickedPrefixComplete | YotoCreator/Services/AudioFileService.cs:51-62 | Every readable picked file yields a track; unreadable ones are skipped yet still use up an order |
| AudioFiles.PickedAllReadable | YotoCreator/Services/AudioFileService.cs:49-56 | When every file is readable the tracks are numbered 0..n-1 with no gaps |
| AudioFiles.GetStorageFile | YotoCreator/Services/AudioFileService.cs:95-123 | Succeeds exactly when the token or else the path opens the file; a token that opens it gives the token's file, and otherwise a path that opens it gives the path's file; fails with "Could not access file" when a path was tried, else with "No valid path or token" |
| YotoApi.Target | YotoCreator/Services/YotoApiService.cs:168-238 | Every upload goes below the content's URL; only audio goes as "audio/mpeg", under the track's own file name |
| YotoApi.ChapterIconTargetsDistinct | YotoCreator/Services/YotoApiService.cs:200-213 | Two chapter icons share an endpoint, or a file name, exactly when their orders are equal |
| YotoApi.SortedChapters | YotoCreator/Services/YotoApiService.cs:103 | Chapters are uploaded as a permutation of the list, by ascending order (ties in list order, by `Ordering.SortByStable`) |
| YotoApi.TrackAssets | YotoCreator/Services/YotoApiService.cs:114-117 | Only audio uploads, as many as the chapter has tracks, each a track of the chapter, by ascending order; the uploaded tracks equal the chapter's list as a multiset, so each track is uploaded exactly once |
| YotoApi.ChapterAssets | YotoCreator/Services/YotoApiService.cs:105-117 | A chapter's uploads, as many as its icon (when present) plus its tracks: the icon first, under the chapter's own order, then only audio, each a track of this chapter, by ascending order |
| YotoApi.ChapterAssetsTracks | YotoCreator/Services/YotoApiService.cs:114-117 | After the icon, a chapter's uploads are exactly its `TrackAssets`, so each of its tracks is uploaded once |
| YotoApi.ChaptersAssets | YotoCreator/Services/YotoApiService.cs:103-118 | The chapter loop uploads chapter icons and audio only |
| YotoApi.BodyAssets | YotoCreator/Services/YotoApiService.cs:99-127 | After the two images only chapter icons and audio are uploaded |
| YotoApi.UploadPlan | YotoCreator/Services/YotoApiService.cs:87-127 | The icon and the cover are uploaded, when present, before everything else and never after |
| YotoApi.IndexSize | YotoCreator/Services/YotoApiService.cs:103-118 | One chapter tag per chapter upload |
| YotoApi.ChaptersGrouped | YotoCreator/Services/YotoApiService.cs:103-118 | The chapter uploads walk the chapters in turn, never going back; a chapter icon carries its chapter's order, every audio upload is a track of its chapter, and within one chapter every upload after the first is audio, by ascending track order |
| YotoApi.BlockTags | YotoCreator/Services/YotoApiService.cs:103-118 | The uploads tagged with chapter c are exactly those just after the uploads of the chapters before it, as many as chapter c's own |
| YotoApi.ChaptersBlocked | YotoCreator/Services/YotoApiService.cs:103-118 | Each chapter's uploads are one block, right after those of the chapters before it: the block is exactly the uploads tagged with that chapter, it equals the chapter's `ChapterAssets`, and after the icon it is the chapter's `TrackAssets` |
| YotoApi.ChapterModeOrder | YotoCreator/Services/YotoApiService.cs:87-118 | With chapters, the plan is the images, then the uploads of the chapters sorted by ascending order (a permutation of the chapters), grouped by chapter with chapter orders never decreasing; each chapter's block is exactly its icon, then each of its tracks exactly once by ascending track order |
| YotoApi.UploadRun | YotoCreator/Services/YotoApiService.cs:87-127 | A sequence of awaited uploads stops at the first failing one, which is the upload it reports |
| YotoApi.UploadAsset | YotoCreator/Services/YotoApiService.cs:168-238 | Each upload helper makes one request, which fails exactly when its reply does |
| YotoApi.UploadContent | YotoCreator/Services/YotoApiService.cs:87-127 | Steps 2 to 4 make exactly the calls of the whole plan's run |
| YotoApi.RunPlan | YotoCreator/Services/YotoApiService.cs:64-134 | The creation request comes first; a failed creation or a missing id makes it the only call and fails; a success returns the new id; every failure carries the "Failed to create content: " prefix |
| YotoApi.Publish | YotoCreator/Services/YotoApiService.cs:59-135 | The creation request comes first; the run succeeds exactly when the creation yields an id and every planned upload succeeds, and then makes every planned upload and returns the id |
| YotoApi.ImageAssets | YotoCreator/Services/YotoApiService.cs:88-97 | One upload for each of the icon and the cover that is present and non-empty |
| YotoApi.UploadRunMeaning | YotoCreator/Services/YotoApiService.cs:116 | A run of uploads makes every call up to and including the first failing one and no later call; it succeeds exactly when every reply is a success |
| YotoApi.UploadRunConcat | YotoCreator/Services/YotoApiService.cs:88-127 | Running two plans one after the other is running their concatenation; a failure in the first skips the second |
| YotoApi.UploadTracks | YotoCreator/Services/YotoApiService.cs:114-117 | The track loop makes exactly the calls of the track plan's run |
| YotoApi.UploadChapter | YotoCreator/Services/YotoApiService.cs:105-117 | One chapter: its icon (when present) and then its sorted tracks, stopping at a failure |
| YotoApi.UploadChapters | YotoCreator/Services/YotoApiService.cs:103-118 | The chapter loop makes exactly the calls of the run over all chapters' plans, stopping at the first failure |
| YotoApi.UploadImages | YotoCreator/Services/YotoApiService.cs:87-97 | The icon then the cover, as the image plan's run |
| YotoApi.UploadBody | YotoCreator/Services/YotoApiService.cs:99-127 | Sorted chapters when there are any, otherwise the flat list, as the body plan's run |
| YotoApi.PublishContent | YotoCreator/Services/YotoApiService.cs:64-134 | The authenticated sequence makes exactly the calls of `Publish` and returns its result |
| YotoApi.YotoApiService.constructor | YotoCreator/Services/YotoApiService.cs:21-26 | A new service is unauthenticated and has made no call |
| YotoApi.YotoApiService.Authenticate | YotoCreator/Services/YotoApiService.cs:31-54 | A blank key returns false and changes nothing; otherwise the key is kept, the user endpoint is probed, and the gate ends open exactly when the probe answered with success (closed when it threw) |
| YotoApi.YotoApiService.CreateContent | YotoCreator/Services/YotoApiService.cs:59-135 | Closed gate: fails with the not-authenticated message and makes no call; open gate: appends exactly the calls of `Publish` and returns its result |
| YotoApi.RunOutcome | YotoCreator/Services/YotoApiService.cs:67-85 | The first call is the creation request with language "en"; a failed creation or an empty id stops there; success, returning the id, exactly when every planned upload succeeds; every failure carries the "Failed to create content: " prefix |
| YotoApi.RunStopsAtFirstFailure | YotoCreator/Services/YotoApiService.cs:129-134 | The calls made are a prefix of the full sequence; on an upload failure the last call is the first failing upload and the error is its message, prefixed |
| YotoApi.ImagesComeFirst | YotoCreator/Services/YotoApiService.cs:87-97 | The icon is uploaded when present and always first, the cover right after it, and both before any chapter or audio upload |
| YotoApi.FlatListIgnoredWithChapters | YotoCreator/Services/YotoApiService.cs:100 | When chapters exist the flat list has no effect on the uploads |
| YotoApi.FlatListInListOrder | YotoCreator/Services/YotoApiService.cs:120-127 | Without chapters the flat list is uploaded in list position, not sorted by order |
| YotoApi.ChaptersAssetsSize | YotoCreator/Services/YotoApiService.cs:103-118 | The chapter uploads number the sum over chapters of (icon present) + track count |
| YotoApi.UploadPlanSize | YotoCreator/Services/YotoApiService.cs:87-118 | With chapters, uploads = [icon] + [cover] + the sum over chapters of ([chapter icon] + tracks), whatever the list positions |
| YotoApi.NumberedContentUploadsInListOrder | YotoCreator/Services/YotoApiService.cs:103-114 | When chapter and track orders are positions, the uploads follow the lists: each chapter's icon, then its tracks, chapter after chapter |
| YotoApi.ListOrderMatches | YotoCreator/Services/YotoApiService.cs:114 | With numbered track lists, sorting tracks changes nothing in the chapter uploads |
| Editor.NumberedDistinct | YotoCreator/Models/AudioFile.cs:30-33 | A numbered track list never holds the same track twice |
| Editor.RemoveFirst | YotoCreator/MainPage.xaml.cs:153 | `List.Remove`: one occurrence fewer when present, the list unchanged when absent, nothing new added |
| Editor.RemoveFirstAt | YotoCreator/MainPage.xaml.cs:153 | What is removed is the first occurrence, and the elements before and after it keep their order |
| Editor.RemoveFirstDistinct | YotoCreator/MainPage.xaml.cs:153 | Removing a chapter keeps the list free of repeats |
| Editor.RemoveEach | YotoCreator/MainPage.xaml.cs:250-254 | Removing the selected tracks one by one never lengthens the list |
| Editor.Unselected | YotoCreator/MainPage.xaml.cs:250-254 | The survivors are exactly the tracks of the list that were not selected |
| Editor.RemoveEachUnselected | YotoCreator/MainPage.xaml.cs:250-254 | On a list without repeats, the removal loop leaves exactly the unselected tracks, in their list order |
| Editor.AudiolessPositions | YotoCreator/MainPage.xaml.cs:374 | The positions of exactly the chapters without tracks, ascending |
| Editor.MissingAudio | YotoCreator/MainPage.xaml.cs:374-378 | The titles of the chapters without tracks, one per such chapter, in list order; empty exactly when every chapter has a track |
| Editor.PublishGuard | YotoCreator/MainPage.xaml.cs:355-380 | Passes exactly when authenticated, the title is not blank, there is a chapter, and every chapter has a track; the checks run in that order and the first failing one gives its dialog, the audio dialog listing the missing titles joined by ", " |
| Editor.CreationFeedback | YotoCreator/MainPage.xaml.cs:397-405 | Success shows the id on the status line; failure shows "Creation Error" with the service's message |
| Editor.PageContent | YotoCreator/MainPage.xaml.cs:388-395 | The content takes the untrimmed title and description, the chapters' current fields in list order, the generated icon and cover, and no flat list |
| Editor.PublishedInListOrder | YotoCreator/MainPage.xaml.cs:388-397 | On a page whose chapter and track orders are positions and that passes the guard, the planned uploads are the images and then each chapter's icon and tracks in list order, at least one upload per chapter |
| Editor.RenumberTracks | YotoCreator/MainPage.xaml.cs:257-260 | The loop renumbers the chapter's tracks by position and changes nothing else |
| Editor.RenumberChapters | YotoCreator/MainPage.xaml.cs:156-159 | The loop sets each listed chapter's order to its position and changes nothing else |
| Editor.RemoveTracks | YotoCreator/MainPage.xaml.cs:250-254 | The removal loop removes each selected track in turn and changes nothing else about the chapter |
| Editor.AppendTracks | YotoCreator/MainPage.xaml.cs:223-227 | The append loop adds the tracks in order, each numbered with the count before it, and changes nothing else about the chapter |
| Editor.MainPage.ValidChapters | YotoCreator/MainPage.xaml.cs:156-159 | On a valid page every listed chapter's order is a position in the list and its track list is numbered |
| Editor.MainPage.constructor | YotoCreator/MainPage.xaml.cs:26-37 | A fresh page is valid, with no chapters, nothing selected and an unauthenticated service |
| Editor.MainPage.AuthenticateYoto | YotoCreator/MainPage.xaml.cs:72-101 | A blank key is refused on the page without calling the service; otherwise the status line reports the service's verdict |
| Editor.MainPage.CreateChapter | YotoCreator/MainPage.xaml.cs:107-127 | A blank title is refused and nothing changes; otherwise a new chapter with the trimmed title and description, no tracks, and order = previous count is appended; the page stays valid |
| Editor.MainPage.SelectionChanged | YotoCreator/MainPage.xaml.cs:129-147 | The selection becomes the chosen listed chapter, or none |
| Editor.MainPage.DeleteChapter | YotoCreator/MainPage.xaml.cs:149-161 | The chapter leaves the list and every remaining chapter's order becomes its position; nothing else about any chapter changes |
| Editor.MainPage.AddAudioToChapter | YotoCreator/MainPage.xaml.cs:212-243 | Without a selection only a dialog; otherwise the picked tracks are appended in picker order, each numbered with the count before it; a picker failure changes nothing; the chapter's title, description, order and icon stay |
| Editor.MainPage.RemoveAudioFromChapter | YotoCreator/MainPage.xaml.cs:245-271 | Without a selection nothing; otherwise the survivors are the unselected tracks in their old relative order, renumbered 0..n-1; the chapter's title, description, order and icon stay |
| Editor.MainPage.CreateContent | YotoCreator/MainPage.xaml.cs:353-412 | A failed check shows its dialog and makes no remote call; otherwise the service gets the untrimmed title, a copy of the chapter list, the icon and cover, and an empty flat list, and the page reports its result |

## Left out

- HTTP, JSON and multipart encoding, headers, and reading an audio file's bytes before its upload.
  - Each request is a `Call` in the trace.
  - Its success or failure comes from the reply oracle.
  - A file that cannot be read counts as a failed upload.
- `async`/`await` and UI concurrency.
  - Every awaited call is one sequential step.
  - A publish run reads the content as it stood when the handler started.
- UI mechanics: list refreshes, progress rings, colours, image display, and the dialogs themselves.
  A handler returns what it would show.
- `GetContentAsync`, `UpdateContentAsync`, `DeleteContentAsync`, and the update handler. The
  update handler is an unimplemented stub.
- The image-generation service and its handlers, the credential store, the image converter,
  and the icon-generation script.
  - The generated icon and cover, and a chapter's icon, are whatever bytes the page holds.
  - The 16x16 size is documented but not enforced anywhere, so it is not modelled.
- `Id`, `CreatedAt` and `UpdatedAt` on the content. The creating side never sets them.
- AudioFiles.FormatFileSize: the number is an exact `real`, not a `double`.
  - The `0.##` rendering is not modelled.
  - Above 2^53 bytes the `double` conversion may round. This affects the number but not the
    unit, whose thresholds are exact powers of two.
- AudioFiles.GetTotalDuration: durations are whole ticks and the parser is a parameter.
  - `TimeSpan.TryParse` is not modelled.
  - In particular, nothing is claimed about how it reads the `MM:SS` text the picker produces.
  - The `double` seconds accumulator is not modelled.
- AudioFiles.PickAudioFiles: the `int` order counter is unbounded. Its wrap-around after 2^31
  files is not modelled.
- Editor.MainPage.RemoveAudioFromChapter: the source removes the selected tracks by
  reference; the model removes them by value. On the numbered lists a valid page holds, the
  two agree, because no two tracks are equal.
- YotoApi.YotoApiService.Authenticate: a key that the header parser rejects throws while
  the header is added, before the probe request, so no request is made. The model records
  the probe `CheckUser(key)` for every non-blank key. Such a key corresponds to the probe
  answer `Threw`, which leaves the gate closed, as the source's catch does.
- Editor.MainPage.AuthenticateYoto: the handler's exception branch is not modelled, because
  the service catches every failure itself.
