/**
 * YotoApiService: the authentication gate and the upload sequence of
 * `CreateContentAsync`. The remote API is an oracle: each call the service makes is
 * appended to the `calls` trace, and the answers come in as parameters (the user probe's
 * outcome, the creation reply, and `uploadReply(k)` for the k-th upload of a run). An
 * exception that cuts the sequence short is a `Failure` carrying its message.
 */
module YotoApi {
  import opened Wrappers
  import opened Text
  import opened Ordering
  import opened Models

  const YotoApiBase := "https://api.yotoplay.com/v1"
  const Language := "en"
  const NotAuthenticatedMessage := "Not authenticated. Please authenticate first."
  const MissingIdMessage := "Failed to get content ID from response"
  const FailurePrefix := "Failed to create content: "

  /** What one upload sends. */
  datatype Asset = Icon | Cover | ChapterIcon(chapterOrder: int) | Audio(file: AudioFile)

  /** A remote call: the user probe, the container creation, or an upload into a container. */
  datatype Call =
    | CheckUser(apiKey: string)
    | Create(title: string, description: string, language: string)
    | Upload(contentId: string, asset: Asset)

  /** The user probe either answers with a status (success or not) or throws. */
  datatype ProbeReply = Answered(success: bool) | Threw

  /** The creation request either fails (HTTP status, unreadable body) or yields the
      response's `id`, "" when it is missing. */
  datatype CreateReply = CreateFailed(message: string) | Created(id: string)

  /** An upload either succeeds or throws (unreadable file, HTTP status). */
  datatype Reply = Ok | Failed(message: string)

  /** The calls a `CreateContentAsync` run makes and what it returns or throws. */
  datatype Run = Run(calls: seq<Call>, result: Result<string, string>)

  // ---------------------------------------------------------------- targets

  /** One multipart upload: the URL, the form field, the file name and the media type. */
  datatype Part = Part(endpoint: string, field: string, fileName: string, mediaType: string)

  function ContentUrl(contentId: string): string {
    YotoApiBase + "/content/" + contentId
  }

  /** The four upload helpers' request for one asset. */
  function Target(contentId: string, asset: Asset): (p: Part)
    ensures |ContentUrl(contentId)| < |p.endpoint| && p.endpoint[..|ContentUrl(contentId)|] == ContentUrl(contentId)
    ensures asset.Audio? <==> p.mediaType == "audio/mpeg"
    ensures asset.Audio? ==> p.fileName == asset.file.fileName
  {
    match asset
    case Icon => Part(ContentUrl(contentId) + "/icon", "icon", "icon.png", "image/png")
    case Cover => Part(ContentUrl(contentId) + "/cover", "cover", "cover.png", "image/png")
    case ChapterIcon(order) =>
      Part(ContentUrl(contentId) + "/chapters/" + IntToString(order) + "/icon", "icon",
           "chapter_" + IntToString(order) + "_icon.png", "image/png")
    case Audio(file) => Part(ContentUrl(contentId) + "/audio", "audio", file.fileName, "audio/mpeg")
  }

  /** Chapter icons of different chapters go to different URLs under different names. */
  lemma ChapterIconTargetsDistinct(contentId: string, a: int, b: int)
    ensures Target(contentId, ChapterIcon(a)).fileName == Target(contentId, ChapterIcon(b)).fileName <==> a == b
    ensures Target(contentId, ChapterIcon(a)).endpoint == Target(contentId, ChapterIcon(b)).endpoint <==> a == b
  {
    var na, nb := IntToString(a), IntToString(b);
    var fa, fb := Target(contentId, ChapterIcon(a)).fileName, Target(contentId, ChapterIcon(b)).fileName;
    var ea, eb := Target(contentId, ChapterIcon(a)).endpoint, Target(contentId, ChapterIcon(b)).endpoint;
    var n := |ContentUrl(contentId) + "/chapters/"|;
    assert fa[8..|fa| - 9] == na && fb[8..|fb| - 9] == nb;
    assert ea[n..|ea| - 5] == na && eb[n..|eb| - 5] == nb;
    if a != b {
      IntToStringInjective(a, b);
    }
  }

  // ---------------------------------------------------------------- the upload plan

  function ChapterOrder(chapter: ChapterData): int {
    chapter.order
  }

  /** `content.Chapters.OrderBy(c => c.Order)`: the same chapters by ascending `order`,
      equal orders keeping their list order (see `SortByStable`). */
  function SortedChapters(chapters: seq<ChapterData>): (r: seq<ChapterData>)
    ensures |r| == |chapters| && multiset(r) == multiset(chapters)
    ensures forall a, b | 0 <= a < b < |r| :: r[a].order <= r[b].order
  {
    SortBy(chapters, ChapterOrder)
  }

  /** One audio upload per track, in the given order. */
  function AudioAssets(files: seq<AudioFile>): (r: seq<Asset>)
    ensures |r| == |files|
    ensures forall i | 0 <= i < |files| :: r[i] == Audio(files[i])
  {
    if files == [] then [] else [Audio(files[0])] + AudioAssets(files[1..])
  }

  /** The tracks a sequence of audio uploads uploads, in upload order. */
  function FilesOf(assets: seq<Asset>): (files: seq<AudioFile>)
    requires forall k | 0 <= k < |assets| :: assets[k].Audio?
    ensures |files| == |assets|
  {
    seq(|assets|, k requires 0 <= k < |assets| && assets[k].Audio? => assets[k].file)
  }

  /**
   * A chapter's tracks as uploads, by ascending `order`: every track of the chapter is
   * uploaded exactly once.
   */
  function TrackAssets(files: seq<AudioFile>): (r: seq<Asset>)
    ensures |r| == |files|
    ensures forall k | 0 <= k < |r| :: r[k].Audio? && r[k].file in files
    ensures multiset(FilesOf(r)) == multiset(files)
    ensures forall i, k | 0 <= i < k < |r| :: r[i].file.order <= r[k].file.order
  {
    var tracks := SortedTracks(files);
    forall k | 0 <= k < |tracks| ensures tracks[k] in files {
      assert tracks[k] in multiset(files);
    }
    assert FilesOf(AudioAssets(tracks)) == tracks;
    AudioAssets(tracks)
  }

  function ChapterIconAsset(chapter: ChapterData): seq<Asset> {
    if HasBytes(chapter.icon) then [ChapterIcon(chapter.order)] else []
  }

  /**
   * A chapter's uploads: its icon if it has one, then its tracks by `order`. Only the
   * first upload can be the icon, and it carries the chapter's order; every other one is
   * a track of the chapter, and the tracks come by ascending order (`ChapterAssetsTracks`:
   * they are the chapter's `TrackAssets`, each of its tracks exactly once).
   */
  function ChapterAssets(chapter: ChapterData): (r: seq<Asset>)
    ensures |r| == (if HasBytes(chapter.icon) then 1 else 0) + |chapter.audioFiles|
    ensures HasBytes(chapter.icon) ==> r[0] == ChapterIcon(chapter.order)
    ensures forall k | 0 <= k < |r| :: r[k].ChapterIcon? || r[k].Audio?
    ensures forall k | 0 < k < |r| :: r[k].Audio?
    ensures forall k | 0 <= k < |r| && r[k].Audio? :: r[k].file in chapter.audioFiles
    ensures forall i, k | 0 <= i < k < |r| && r[i].Audio? :: r[i].file.order <= r[k].file.order
  {
    IconThenTracks(chapter, ChapterIconAsset(chapter), TrackAssets(chapter.audioFiles));
    ChapterIconAsset(chapter) + TrackAssets(chapter.audioFiles)
  }

  /** After the icon, a chapter's uploads are its `TrackAssets`. */
  lemma ChapterAssetsTracks(chapter: ChapterData)
    ensures var r := ChapterAssets(chapter);
      |chapter.audioFiles| <= |r| && r[|r| - |chapter.audioFiles|..] == TrackAssets(chapter.audioFiles)
  {
    AfterPrefix(ChapterIconAsset(chapter), TrackAssets(chapter.audioFiles));
  }

  lemma AfterPrefix<T>(prefix: seq<T>, rest: seq<T>)
    ensures (prefix + rest)[|prefix + rest| - |rest|..] == rest
  {
  }

  lemma IconThenTracks(chapter: ChapterData, icon: seq<Asset>, audio: seq<Asset>)
    requires icon == (if HasBytes(chapter.icon) then [ChapterIcon(chapter.order)] else [])
    requires |audio| == |chapter.audioFiles|
    requires forall k | 0 <= k < |audio| :: audio[k].Audio? && audio[k].file in chapter.audioFiles
    requires forall i, k | 0 <= i < k < |audio| :: audio[i].file.order <= audio[k].file.order
    ensures var r := icon + audio;
      && |r| == (if HasBytes(chapter.icon) then 1 else 0) + |chapter.audioFiles|
      && (HasBytes(chapter.icon) ==> r[0] == ChapterIcon(chapter.order))
      && (forall k | 0 <= k < |r| :: r[k].ChapterIcon? || r[k].Audio?)
      && (forall k | 0 < k < |r| :: r[k].Audio?)
      && (forall k | 0 <= k < |r| && r[k].Audio? :: r[k].file in chapter.audioFiles)
      && (forall i, k | 0 <= i < k < |r| && r[i].Audio? :: r[i].file.order <= r[k].file.order)
  {
    var r := icon + audio;
    assert forall k | |icon| <= k < |r| :: r[k] == audio[k - |icon|];
  }

  /** The chapters' uploads, chapter after chapter: chapter icons and tracks only. */
  function ChaptersAssets(chapters: seq<ChapterData>): (r: seq<Asset>)
    ensures forall a | a in r :: a.ChapterIcon? || a.Audio?
    decreases |chapters|
  {
    if chapters == [] then []
    else ChaptersAssets(chapters[..|chapters| - 1]) + ChapterAssets(chapters[|chapters| - 1])
  }

  /** The content icon, then the cover, each only when present and non-empty. */
  function ImageAssets(content: YotoContent): (r: seq<Asset>)
    ensures |r| == (if HasBytes(content.icon) then 1 else 0) + (if HasBytes(content.coverImage) then 1 else 0)
    ensures forall a | a in r :: a.Icon? || a.Cover?
  {
    (if HasBytes(content.icon) then [Icon] else []) + (if HasBytes(content.coverImage) then [Cover] else [])
  }

  /** Chapters by `order` when there are any, otherwise the flat list in list order:
      chapter icons and tracks only. */
  function BodyAssets(content: YotoContent): (r: seq<Asset>)
    ensures forall a | a in r :: a.ChapterIcon? || a.Audio?
  {
    if |content.chapters| > 0 then ChaptersAssets(SortedChapters(content.chapters))
    else AudioAssets(content.audioFiles)
  }

  /** Every upload a fully successful run makes, in order: the content's icon and cover
      come first, and nowhere else. */
  function UploadPlan(content: YotoContent): (r: seq<Asset>)
    ensures |ImageAssets(content)| <= |r|
    ensures forall i | 0 <= i < |r| :: (r[i].Icon? || r[i].Cover?) <==> i < |ImageAssets(content)|
  {
    ImagesFirst(ImageAssets(content), BodyAssets(content));
    ImageAssets(content) + BodyAssets(content)
  }

  lemma ImagesFirst(images: seq<Asset>, body: seq<Asset>)
    requires forall a | a in images :: a.Icon? || a.Cover?
    requires forall a | a in body :: a.ChapterIcon? || a.Audio?
    ensures var r := images + body;
      forall i | 0 <= i < |r| :: (r[i].Icon? || r[i].Cover?) <==> i < |images|
  {
    var r := images + body;
    forall i | 0 <= i < |r| ensures (r[i].Icon? || r[i].Cover?) <==> i < |images| {
      if i < |images| {
        assert r[i] == images[i] && images[i] in images;
      } else {
        assert r[i] == body[i - |images|] && body[i - |images|] in body;
      }
    }
  }

  function UploadCalls(contentId: string, assets: seq<Asset>): (r: seq<Call>)
    ensures |r| == |assets|
    ensures forall i | 0 <= i < |assets| :: r[i] == Upload(contentId, assets[i])
  {
    seq(|assets|, i requires 0 <= i < |assets| => Upload(contentId, assets[i]))
  }

  /** The calls an upload sequence made, the number of the upload that comes next (or
      that failed), and whether every upload succeeded. */
  datatype Uploads = Uploads(calls: seq<Call>, next: nat, ok: bool)

  /**
   * Uploading `assets` one after another into container `contentId`, the first of them
   * as upload number `start`: an upload is made, and when its reply is a failure the
   * exception ends the sequence there.
   */
  function UploadRun(contentId: string, assets: seq<Asset>, uploadReply: nat -> Reply, start: nat): (u: Uploads)
    ensures start <= u.next <= start + |assets|
    ensures !u.ok ==> uploadReply(u.next).Failed?
    decreases |assets|
  {
    if assets == [] then Uploads([], start, true)
    else if uploadReply(start).Failed? then Uploads([Upload(contentId, assets[0])], start, false)
    else
      var rest := UploadRun(contentId, assets[1..], uploadReply, start + 1);
      Uploads([Upload(contentId, assets[0])] + rest.calls, rest.next, rest.ok)
  }

  /**
   * What an upload sequence does: every upload before `next` succeeded; it succeeds
   * exactly when all of them did, having made every upload; otherwise upload `next`
   * failed and was the last one made.
   */
  lemma {:induction false} UploadRunMeaning(contentId: string, assets: seq<Asset>, uploadReply: nat -> Reply, start: nat)
    ensures var u := UploadRun(contentId, assets, uploadReply, start);
      && start <= u.next <= start + |assets|
      && (forall i | start <= i < u.next :: uploadReply(i).Ok?)
      && (u.ok <==> forall i | start <= i < start + |assets| :: uploadReply(i).Ok?)
      && (u.ok ==> u.next == start + |assets| && u.calls == UploadCalls(contentId, assets))
      && (!u.ok ==> u.next < start + |assets| && uploadReply(u.next).Failed?
                    && u.calls == UploadCalls(contentId, assets[..u.next - start + 1]))
    decreases |assets|
  {
    if assets != [] && uploadReply(start).Ok? {
      var rest := UploadRun(contentId, assets[1..], uploadReply, start + 1);
      UploadRunMeaning(contentId, assets[1..], uploadReply, start + 1);
      if rest.ok {
        assert UploadCalls(contentId, assets) == [Upload(contentId, assets[0])] + UploadCalls(contentId, assets[1..]);
      } else {
        var n := rest.next - start;
        assert assets[..n + 1] == [assets[0]] + assets[1..][..n];
        assert UploadCalls(contentId, assets[..n + 1]) ==
          [Upload(contentId, assets[0])] + UploadCalls(contentId, assets[1..][..n]);
      }
    } else if assets != [] {
      assert assets[..1] == [assets[0]];
    }
  }

  /** Uploading `a + b` is uploading `a` and then, if that went through, `b`. */
  lemma {:induction false} UploadRunConcat(contentId: string, a: seq<Asset>, b: seq<Asset>, uploadReply: nat -> Reply, start: nat)
    ensures UploadRun(contentId, a + b, uploadReply, start) ==
      var ua := UploadRun(contentId, a, uploadReply, start);
      if ua.ok then
        var ub := UploadRun(contentId, b, uploadReply, ua.next);
        Uploads(ua.calls + ub.calls, ub.next, ub.ok)
      else ua
    decreases |a|
  {
    if a == [] {
      assert a + b == b;
    } else {
      assert (a + b)[1..] == a[1..] + b;
      UploadRunConcat(contentId, a[1..], b, uploadReply, start + 1);
    }
  }

  /** A failed sequence is also how any longer sequence it starts ends. */
  lemma UploadRunFailedPrefix(contentId: string, a: seq<Asset>, full: seq<Asset>, uploadReply: nat -> Reply, start: nat)
    requires a <= full && !UploadRun(contentId, a, uploadReply, start).ok
    ensures UploadRun(contentId, full, uploadReply, start) == UploadRun(contentId, a, uploadReply, start)
  {
    assert full == a + full[|a|..];
    UploadRunConcat(contentId, a, full[|a|..], uploadReply, start);
  }

  /**
   * What `CreateContentAsync` does once authenticated, for a given upload plan: create
   * the container, stop if that fails or yields no id, then upload the plan until the
   * first failing upload. Every failure is reported with the "Failed to create content: "
   * prefix.
   */
  function RunPlan(title: string, description: string, plan: seq<Asset>,
                   createReply: CreateReply, uploadReply: nat -> Reply): (run: Run)
    ensures |run.calls| >= 1 && run.calls[0] == Create(title, description, Language)
    ensures createReply.CreateFailed? || createReply.id == "" ==> |run.calls| == 1 && run.result.Failure?
    ensures run.result.Success? ==> createReply.Created? && run.result.value == createReply.id
    ensures run.result.Failure? ==> FailurePrefix <= run.result.error
  {
    var create := Create(title, description, Language);
    match createReply
    case CreateFailed(message) => Run([create], Failure(FailurePrefix + message))
    case Created(id) =>
      if id == "" then Run([create], Failure(FailurePrefix + MissingIdMessage))
      else
        var u := UploadRun(id, plan, uploadReply, 0);
        Run([create] + u.calls, if u.ok then Success(id) else Failure(FailurePrefix + uploadReply(u.next).message))
  }

  /** The run for a content: its own title, description and upload plan. */
  function Publish(content: YotoContent, createReply: CreateReply, uploadReply: nat -> Reply): (run: Run)
    ensures |run.calls| >= 1 && run.calls[0] == Create(content.title, content.description, Language)
    ensures run.result.Success? <==>
      && createReply.Created? && createReply.id != ""
      && forall i | 0 <= i < |UploadPlan(content)| :: uploadReply(i).Ok?
    ensures run.result.Success? ==>
      run.result.value == createReply.id
      && run.calls == [run.calls[0]] + UploadCalls(createReply.id, UploadPlan(content))
  {
    RunOutcome(content.title, content.description, UploadPlan(content), createReply, uploadReply);
    RunPlan(content.title, content.description, UploadPlan(content), createReply, uploadReply)
  }

  // ---------------------------------------------------------------- the service

  /** One upload helper call, as upload number `start`: the request is made, and it
      succeeds when the reply is Ok. */
  method UploadAsset(contentId: string, asset: Asset, uploadReply: nat -> Reply, start: nat)
    returns (made: seq<Call>, k: nat, ok: bool)
    ensures Uploads(made, k, ok) == UploadRun(contentId, [asset], uploadReply, start)
  {
    made := [Upload(contentId, asset)];
    ok := uploadReply(start).Ok?;
    k := if ok then start + 1 else start;
    assert [asset][1..] == [];
  }

  /** A `foreach` over tracks: one audio upload each, in the given order, until one fails. */
  method UploadTracks(contentId: string, tracks: seq<AudioFile>, uploadReply: nat -> Reply, start: nat)
    returns (made: seq<Call>, k: nat, ok: bool)
    ensures Uploads(made, k, ok) == UploadRun(contentId, AudioAssets(tracks), uploadReply, start)
  {
    made, k, ok := [], start, true;
    for ti := 0 to |tracks|
      invariant Uploads(made, k, true) == UploadRun(contentId, AudioAssets(tracks[..ti]), uploadReply, start)
    {
      UploadRunConcat(contentId, AudioAssets(tracks[..ti]), [Audio(tracks[ti])], uploadReply, start);
      assert AudioAssets(tracks[..ti]) + [Audio(tracks[ti])] == AudioAssets(tracks[..ti + 1]);
      var step;
      step, k, ok := UploadAsset(contentId, Audio(tracks[ti]), uploadReply, k);
      made := made + step;
      if !ok {
        AudioPrefix(tracks, ti + 1);
        UploadRunFailedPrefix(contentId, AudioAssets(tracks[..ti + 1]), AudioAssets(tracks), uploadReply, start);
        return;
      }
    }
    assert tracks[..|tracks|] == tracks;
  }

  /** The chapter icon if there is one, then the chapter's tracks by `order`. */
  method UploadChapter(contentId: string, chapter: ChapterData, uploadReply: nat -> Reply, start: nat)
    returns (made: seq<Call>, k: nat, ok: bool)
    ensures Uploads(made, k, ok) == UploadRun(contentId, ChapterAssets(chapter), uploadReply, start)
  {
    made, k, ok := [], start, true;
    if HasBytes(chapter.icon) {
      made, k, ok := UploadAsset(contentId, ChapterIcon(chapter.order), uploadReply, start);
    }
    UploadRunConcat(contentId, ChapterIconAsset(chapter), AudioAssets(SortedTracks(chapter.audioFiles)), uploadReply, start);
    if ok {
      var step;
      step, k, ok := UploadTracks(contentId, SortedTracks(chapter.audioFiles), uploadReply, k);
      made := made + step;
    }
  }

  /** Steps 2 and 3: the content icon, then the cover, each when present and non-empty. */
  method UploadImages(contentId: string, content: YotoContent, uploadReply: nat -> Reply)
    returns (made: seq<Call>, k: nat, ok: bool)
    ensures Uploads(made, k, ok) == UploadRun(contentId, ImageAssets(content), uploadReply, 0)
  {
    var iconPart := if HasBytes(content.icon) then [Icon] else [];
    var coverPart := if HasBytes(content.coverImage) then [Cover] else [];
    made, k, ok := [], 0, true;
    if HasBytes(content.icon) {
      made, k, ok := UploadAsset(contentId, Icon, uploadReply, 0);
    }
    UploadRunConcat(contentId, iconPart, coverPart, uploadReply, 0);
    if ok && HasBytes(content.coverImage) {
      var step;
      step, k, ok := UploadAsset(contentId, Cover, uploadReply, k);
      made := made + step;
    }
    assert iconPart + coverPart == ImageAssets(content);
  }

  /** Step 4: the chapters by `order` when there are any, else the flat list, if any. */
  method UploadBody(contentId: string, content: YotoContent, uploadReply: nat -> Reply, start: nat)
    returns (made: seq<Call>, k: nat, ok: bool)
    ensures Uploads(made, k, ok) == UploadRun(contentId, BodyAssets(content), uploadReply, start)
  {
    if |content.chapters| > 0 {
      made, k, ok := UploadChapters(contentId, SortedChapters(content.chapters), uploadReply, start);
    } else if |content.audioFiles| > 0 {
      made, k, ok := UploadTracks(contentId, content.audioFiles, uploadReply, start);
    } else {
      made, k, ok := [], start, true;
    }
  }

  /** The outer `foreach` over the sorted chapters. */
  method UploadChapters(contentId: string, sorted: seq<ChapterData>, uploadReply: nat -> Reply, start: nat)
    returns (made: seq<Call>, k: nat, ok: bool)
    ensures Uploads(made, k, ok) == UploadRun(contentId, ChaptersAssets(sorted), uploadReply, start)
  {
    made, k, ok := [], start, true;
    for ci := 0 to |sorted|
      invariant Uploads(made, k, true) == UploadRun(contentId, ChaptersAssets(sorted[..ci]), uploadReply, start)
    {
      var step, k2;
      step, k2, ok := UploadChapter(contentId, sorted[ci], uploadReply, k);
      ChaptersLoopStep(contentId, sorted, ci, uploadReply, start, made, k, step, k2, ok);
      made, k := made + step, k2;
      if !ok {
        return;
      }
    }
    assert sorted[..|sorted|] == sorted;
  }


  class YotoApiService {
    var apiKey: string
    var isAuthenticated: bool
    /** Every remote call made so far, oldest first. */
    var calls: seq<Call>

    constructor ()
      ensures apiKey == "" && !isAuthenticated && calls == []
    {
      apiKey := "";
      isAuthenticated := false;
      calls := [];
    }

    /**
     * `AuthenticateAsync`. A blank key is refused before anything changes. Otherwise the
     * key is stored, the user endpoint is probed, and the gate ends open exactly when
     * the probe answered with a success status (closed when it threw).
     */
    method Authenticate(key: string, probe: ProbeReply) returns (success: bool)
      modifies this
      ensures IsBlank(key) ==>
        !success && apiKey == old(apiKey) && isAuthenticated == old(isAuthenticated) && calls == old(calls)
      ensures !IsBlank(key) ==>
        && apiKey == key
        && calls == old(calls) + [CheckUser(key)]
        && isAuthenticated == (probe == Answered(true))
        && success == isAuthenticated
    {
      if IsBlank(key) {
        return false;
      }
      apiKey := key;
      calls := calls + [CheckUser(apiKey)];
      match probe {
        case Answered(status) =>
          isAuthenticated := status;
        case Threw =>
          isAuthenticated := false;
      }
      success := isAuthenticated;
    }

    /**
     * `CreateContentAsync`. Closed gate: fails with the not-authenticated message (not
     * prefixed: it is thrown outside the try block) and makes no call. Open gate: makes
     * exactly the calls of `Publish` on the content and returns its result.
     */
    method CreateContent(content: YotoContent, createReply: CreateReply, uploadReply: nat -> Reply)
      returns (r: Result<string, string>)
      modifies this
      ensures apiKey == old(apiKey) && isAuthenticated == old(isAuthenticated)
      ensures !isAuthenticated ==> calls == old(calls) && r == Failure(NotAuthenticatedMessage)
      ensures isAuthenticated ==>
        && calls == old(calls) + Publish(content, createReply, uploadReply).calls
        && r == Publish(content, createReply, uploadReply).result
    {
      ghost var plan := UploadPlan(content);
      var made: seq<Call> := [];
      if !isAuthenticated {
        r := Failure(NotAuthenticatedMessage);
      } else {
        made, r := PublishContent(content, plan, createReply, uploadReply);
      }
      calls := calls + made;
    }
  }

  /** The authenticated part of `CreateContentAsync`: the creation request, then the
      uploads of the content's plan, stopping at the first failure. */
  method PublishContent(content: YotoContent, ghost plan: seq<Asset>, createReply: CreateReply, uploadReply: nat -> Reply)
    returns (made: seq<Call>, r: Result<string, string>)
    requires plan == UploadPlan(content)
    ensures made == RunPlan(content.title, content.description, plan, createReply, uploadReply).calls
    ensures r == RunPlan(content.title, content.description, plan, createReply, uploadReply).result
  {
    RunPlanCases(content.title, content.description, plan, createReply, uploadReply);
    var create := Create(content.title, content.description, Language);
    var uploads: seq<Call> := [];
    if createReply.CreateFailed? {
      r := Failure(FailurePrefix + createReply.message);
    } else if createReply.id == "" {
      r := Failure(FailurePrefix + MissingIdMessage);
    } else {
      var contentId := createReply.id;
      var k, ok;
      uploads, k, ok := UploadContent(contentId, content, plan, uploadReply);
      r := if ok then Success(contentId) else Failure(FailurePrefix + uploadReply(k).message);
    }
    made := [create] + uploads;
  }

  /** Steps 2 to 4 into the new container: the images, then the body, stopping at the
      first failure. */
  method UploadContent(contentId: string, content: YotoContent, ghost plan: seq<Asset>, uploadReply: nat -> Reply)
    returns (made: seq<Call>, k: nat, ok: bool)
    requires plan == UploadPlan(content)
    ensures Uploads(made, k, ok) == UploadRun(contentId, plan, uploadReply, 0)
  {
    ghost var images, body := ImageAssets(content), BodyAssets(content);
    made, k, ok := UploadImages(contentId, content, uploadReply);
    if ok {
      var step, k2;
      step, k2, ok := UploadBody(contentId, content, uploadReply, k);
      SequenceStep(contentId, images, body, uploadReply, made, k, step, k2, ok);
      made, k := made + step, k2;
    } else {
      UploadRunFailedPrefix(contentId, images, images + body, uploadReply, 0);
    }
  }

  /** The images went through, then the body: together they are the whole plan's run. */
  lemma SequenceStep(contentId: string, images: seq<Asset>, body: seq<Asset>, uploadReply: nat -> Reply,
                     made: seq<Call>, k: nat, step: seq<Call>, k2: nat, ok: bool)
    requires Uploads(made, k, true) == UploadRun(contentId, images, uploadReply, 0)
    requires Uploads(step, k2, ok) == UploadRun(contentId, body, uploadReply, k)
    ensures Uploads(made + step, k2, ok) == UploadRun(contentId, images + body, uploadReply, 0)
  {
    UploadRunConcat(contentId, images, body, uploadReply, 0);
  }

  /** One turn of the chapters loop: a chapter that went through extends the uploads so
      far; one that failed ends the whole sequence. */
  lemma ChaptersLoopStep(contentId: string, sorted: seq<ChapterData>, ci: nat, uploadReply: nat -> Reply, start: nat,
                         made: seq<Call>, k: nat, step: seq<Call>, k2: nat, ok: bool)
    requires ci < |sorted|
    requires Uploads(made, k, true) == UploadRun(contentId, ChaptersAssets(sorted[..ci]), uploadReply, start)
    requires Uploads(step, k2, ok) == UploadRun(contentId, ChapterAssets(sorted[ci]), uploadReply, k)
    ensures ok ==> Uploads(made + step, k2, true) == UploadRun(contentId, ChaptersAssets(sorted[..ci + 1]), uploadReply, start)
    ensures !ok ==> Uploads(made + step, k2, false) == UploadRun(contentId, ChaptersAssets(sorted), uploadReply, start)
  {
    var done, next := ChaptersAssets(sorted[..ci]), ChapterAssets(sorted[ci]);
    ChaptersStep(sorted, ci);
    UploadRunConcat(contentId, done, next, uploadReply, start);
    if !ok {
      UploadRunFailedPrefix(contentId, done + next, ChaptersAssets(sorted), uploadReply, start);
    }
  }

  /** The three ways a run goes: the creation fails, it yields no id, or the plan is
      uploaded into the new container. */
  lemma RunPlanCases(title: string, description: string, plan: seq<Asset>, createReply: CreateReply, uploadReply: nat -> Reply)
    ensures var create := Create(title, description, Language);
      var run := RunPlan(title, description, plan, createReply, uploadReply);
      && (createReply.CreateFailed? ==> run == Run([create], Failure(FailurePrefix + createReply.message)))
      && (createReply.Created? && createReply.id == "" ==> run == Run([create], Failure(FailurePrefix + MissingIdMessage)))
      && (createReply.Created? && createReply.id != "" ==>
            var u := UploadRun(createReply.id, plan, uploadReply, 0);
            run == Run([create] + u.calls, if u.ok then Success(createReply.id) else Failure(FailurePrefix + uploadReply(u.next).message)))
  {
  }

  lemma AudioPrefix(tracks: seq<AudioFile>, n: nat)
    requires n <= |tracks|
    ensures AudioAssets(tracks[..n]) <= AudioAssets(tracks)
  {
  }

  /** One more chapter: the uploads so far grow by that chapter's, and stay a prefix of all. */
  lemma ChaptersStep(chapters: seq<ChapterData>, i: nat)
    requires i < |chapters|
    ensures ChaptersAssets(chapters[..i + 1]) == ChaptersAssets(chapters[..i]) + ChapterAssets(chapters[i])
    ensures ChaptersAssets(chapters[..i + 1]) <= ChaptersAssets(chapters)
  {
    var longer := chapters[..i + 1];
    assert longer[..|longer| - 1] == chapters[..i];
    assert longer[|longer| - 1] == chapters[i];
    ChaptersPrefix(chapters, i + 1);
  }

  lemma {:induction false} ChaptersPrefix(chapters: seq<ChapterData>, n: nat)
    requires n <= |chapters|
    ensures ChaptersAssets(chapters[..n]) <= ChaptersAssets(chapters)
    decreases |chapters|
  {
    if n < |chapters| {
      var front := chapters[..|chapters| - 1];
      ChaptersPrefix(front, n);
      assert front[..n] == chapters[..n];
    } else {
      assert chapters[..n] == chapters;
    }
  }

  /** The tags of the first `j` chapters begin the tags of all of them. */
  lemma {:induction false} IndexPrefix(chapters: seq<ChapterData>, j: nat)
    requires j <= |chapters|
    ensures ChapterIndex(chapters[..j]) <= ChapterIndex(chapters)
    decreases |chapters|
  {
    if j == |chapters| {
      assert chapters[..j] == chapters;
    } else {
      var n := |chapters| - 1;
      var front := chapters[..n];
      assert ChapterIndex(chapters) == ChapterIndex(front) + Repeat(n, ChapterUploads(chapters[n]));
      IndexPrefix(front, j);
      TakeTake(chapters, n, j);
    }
  }

  /** Every upload after those of the first `j` chapters is tagged with a later chapter. */
  lemma {:induction false} IndexAfter(chapters: seq<ChapterData>, j: nat)
    requires j <= |chapters|
    ensures var tags := ChapterIndex(chapters);
      forall i | |ChapterIndex(chapters[..j])| <= i < |tags| :: tags[i] >= j
    decreases |chapters|
  {
    var tags := ChapterIndex(chapters);
    if j == |chapters| {
      assert chapters[..j] == chapters;
    } else {
      var n := |chapters| - 1;
      var front := chapters[..n];
      var old_tags, more := ChapterIndex(front), Repeat(n, ChapterUploads(chapters[n]));
      assert tags == old_tags + more;
      IndexAfter(front, j);
      TakeTake(chapters, n, j);
      assert forall i | |ChapterIndex(front[..j])| <= i < |ChapterIndex(front)| :: ChapterIndex(front)[i] >= j;
      AtLeastAfter(old_tags, more, |ChapterIndex(chapters[..j])|, j);
    }
  }

  lemma AtLeastAfter(head: seq<nat>, tail: seq<nat>, start: nat, j: nat)
    requires forall i | start <= i < |head| :: head[i] >= j
    requires forall i | 0 <= i < |tail| :: tail[i] >= j
    ensures forall i | start <= i < |head + tail| :: (head + tail)[i] >= j
  {
  }

  // ---------------------------------------------------------------- properties of a run

  /**
   * The container is always created first, with the content's title and description and
   * language "en"; a failed creation or a missing id ends the run before any upload. The
   * run succeeds exactly when every planned upload succeeds, and then returns the id
   * after making every planned upload. Every failure carries the "Failed to create
   * content: " prefix.
   */
  lemma RunOutcome(title: string, description: string, plan: seq<Asset>, createReply: CreateReply, uploadReply: nat -> Reply)
    ensures var run := RunPlan(title, description, plan, createReply, uploadReply);
      && |run.calls| >= 1
      && run.calls[0] == Create(title, description, Language)
      && ((createReply.CreateFailed? || createReply.id == "") ==> run.calls == [run.calls[0]])
      && (run.result.Success? <==>
            && createReply.Created? && createReply.id != ""
            && forall i | 0 <= i < |plan| :: uploadReply(i).Ok?)
      && (run.result.Success? ==>
            run.result.value == createReply.id
            && run.calls == [run.calls[0]] + UploadCalls(createReply.id, plan))
      && (run.result.Failure? ==>
            |FailurePrefix| <= |run.result.error| && run.result.error[..|FailurePrefix|] == FailurePrefix)
  {
    if createReply.Created? && createReply.id != "" {
      UploadRunMeaning(createReply.id, plan, uploadReply, 0);
    }
  }

  /** No upload after a failing one: the calls made are a prefix of the full plan's, and a
      failed run ends at the first failing upload, reporting its message. */
  lemma RunStopsAtFirstFailure(title: string, description: string, plan: seq<Asset>, createReply: CreateReply, uploadReply: nat -> Reply)
    requires createReply.Created? && createReply.id != ""
    ensures var run := RunPlan(title, description, plan, createReply, uploadReply);
      var full := [Create(title, description, Language)] + UploadCalls(createReply.id, plan);
      && run.calls <= full
      && (run.result.Failure? ==>
            var k := |run.calls| - 2;
            && 0 <= k < |plan| && uploadReply(k).Failed? && (forall i | 0 <= i < k :: uploadReply(i).Ok?)
            && run.result.error == FailurePrefix + uploadReply(k).message)
  {
    var id := createReply.id;
    UploadRunMeaning(id, plan, uploadReply, 0);
    var u := UploadRun(id, plan, uploadReply, 0);
    if !u.ok {
      assert UploadCalls(id, plan[..u.next + 1]) == UploadCalls(id, plan)[..u.next + 1];
    }
  }

  /** Icon and cover are uploaded exactly when present and non-empty, icon first, and both
      before any chapter or audio upload. */
  lemma ImagesComeFirst(content: YotoContent)
    ensures var plan := UploadPlan(content);
      && (Icon in plan <==> HasBytes(content.icon))
      && (Cover in plan <==> HasBytes(content.coverImage))
      && (HasBytes(content.icon) ==> plan[0] == Icon)
      && (HasBytes(content.coverImage) ==> plan[if HasBytes(content.icon) then 1 else 0] == Cover)
      && (forall i | 0 <= i < |plan| && (plan[i].Icon? || plan[i].Cover?) :: i < |ImageAssets(content)|)
  {
    var plan, images := UploadPlan(content), ImageAssets(content);
    assert plan[..|images|] == images;
    if Icon in plan {
      var i :| 0 <= i < |plan| && plan[i] == Icon;
      assert images[i] == Icon;
    }
    if Cover in plan {
      var i :| 0 <= i < |plan| && plan[i] == Cover;
      assert images[i] == Cover;
    }
  }

  /** `count` copies of `n`. */
  function Repeat(n: nat, count: nat): (r: seq<nat>)
    ensures |r| == count && forall i | 0 <= i < count :: r[i] == n
  {
    seq(count, _ => n)
  }

  /** For each chapter upload, the position of its chapter in the walked list. */
  function ChapterIndex(chapters: seq<ChapterData>): seq<nat>
    decreases |chapters|
  {
    if chapters == [] then []
    else
      var n := |chapters| - 1;
      ChapterIndex(chapters[..n]) + Repeat(n, ChapterUploads(chapters[n]))
  }

  /** One tag per chapter upload. */
  lemma {:induction false} IndexSize(chapters: seq<ChapterData>)
    ensures |ChapterIndex(chapters)| == |ChaptersAssets(chapters)|
    decreases |chapters|
  {
    if chapters != [] {
      IndexSize(chapters[..|chapters| - 1]);
    }
  }

  /**
   * `body` walks `chapters` one after another, `tags[i]` naming the chapter of upload i:
   * the chapter never goes back, a chapter's icon is its first upload and carries its
   * order, and a chapter's tracks are its own, by ascending track order.
   */
  predicate GroupedBy(chapters: seq<ChapterData>, body: seq<Asset>, tags: seq<nat>) {
    && |tags| == |body|
    && (forall i | 0 <= i < |body| :: tags[i] < |chapters|)
    && (forall i, k | 0 <= i < k < |body| :: tags[i] <= tags[k])
    && (forall i | 0 <= i < |body| && body[i].ChapterIcon? :: body[i].chapterOrder == chapters[tags[i]].order)
    && (forall i | 0 <= i < |body| && body[i].Audio? :: body[i].file in chapters[tags[i]].audioFiles)
    && (forall i, k | 0 <= i < k < |body| && tags[i] == tags[k] ::
          body[k].Audio? && (body[i].Audio? ==> body[i].file.order <= body[k].file.order))
  }

  lemma {:induction false} ChaptersGrouped(chapters: seq<ChapterData>)
    ensures GroupedBy(chapters, ChaptersAssets(chapters), ChapterIndex(chapters))
    decreases |chapters|
  {
    if chapters != [] {
      var n := |chapters| - 1;
      var front, last := chapters[..n], chapters[n];
      ChaptersGrouped(front);
      GroupedSnoc(front, last, ChaptersAssets(front), ChapterIndex(front));
      assert chapters == front + [last];
    }
  }

  /** One more chapter's uploads, tagged with its position, keep the grouping. */
  lemma GroupedSnoc(front: seq<ChapterData>, last: ChapterData, body: seq<Asset>, tags: seq<nat>)
    requires GroupedBy(front, body, tags)
    ensures GroupedBy(front + [last], body + ChapterAssets(last), tags + Repeat(|front|, ChapterUploads(last)))
  {
    var chapters := front + [last];
    var more := ChapterAssets(last);
    var body', tags' := body + more, tags + Repeat(|front|, ChapterUploads(last));
    forall i | 0 <= i < |body'|
      ensures tags'[i] < |chapters|
      ensures body'[i].ChapterIcon? ==> body'[i].chapterOrder == chapters[tags'[i]].order
      ensures body'[i].Audio? ==> body'[i].file in chapters[tags'[i]].audioFiles
    {
      if i < |body| {
        assert body'[i] == body[i] && tags'[i] == tags[i] && chapters[tags[i]] == front[tags[i]];
      } else {
        assert body'[i] == more[i - |body|] && tags'[i] == |front|;
      }
    }
    forall i, k | 0 <= i < k < |body'|
      ensures tags'[i] <= tags'[k]
      ensures tags'[i] == tags'[k] ==> body'[k].Audio? && (body'[i].Audio? ==> body'[i].file.order <= body'[k].file.order)
    {
      if k < |body| {
        assert body'[i] == body[i] && body'[k] == body[k] && tags'[i] == tags[i] && tags'[k] == tags[k];
      } else if i < |body| {
        assert tags'[i] == tags[i] < |front| && tags'[k] == |front|;
      } else {
        assert body'[i] == more[i - |body|] && body'[k] == more[k - |body|];
      }
    }
  }

  /**
   * Each chapter's uploads are one block of `body`: the uploads of the chapters before
   * it, then its own `ChapterAssets`, begin `body`; that block holds exactly the uploads
   * tagged with the chapter; and after the icon it is the chapter's `TrackAssets`.
   */
  predicate ChapterBlocks(chapters: seq<ChapterData>, body: seq<Asset>, tags: seq<nat>) {
    && |tags| == |body|
    && forall c | 0 <= c < |chapters| ::
      var before, more := ChaptersAssets(chapters[..c]), ChapterAssets(chapters[c]);
      && before + more <= body
      && (forall i | 0 <= i < |body| :: tags[i] == c <==> |before| <= i < |before| + |more|)
      && |chapters[c].audioFiles| <= |more|
      && more[|more| - |chapters[c].audioFiles|..] == TrackAssets(chapters[c].audioFiles)
  }

  lemma TakeTake<T>(s: seq<T>, n: nat, j: nat)
    requires j <= n <= |s|
    ensures s[..n][..j] == s[..j]
  {
  }

  /** The uploads tagged `c` are exactly those of chapter `c`'s block. */
  lemma BlockTags(chapters: seq<ChapterData>, c: nat)
    requires c < |chapters|
    ensures var tags := ChapterIndex(chapters);
      var start, more := |ChaptersAssets(chapters[..c])|, ChapterAssets(chapters[c]);
      forall i | 0 <= i < |tags| :: tags[i] == c <==> start <= i < start + |more|
  {
    var tags := ChapterIndex(chapters);
    var pre, upto := chapters[..c], chapters[..c + 1];
    var start, more := |ChaptersAssets(pre)|, ChapterAssets(chapters[c]);
    assert upto[..c] == pre && upto[c] == chapters[c];
    var head, block := ChapterIndex(pre), Repeat(c, ChapterUploads(chapters[c]));
    assert ChapterIndex(upto) == head + block;
    IndexPrefix(chapters, c + 1);
    IndexAfter(chapters, c + 1);
    ChaptersGrouped(pre);
    forall i | 0 <= i < |tags| ensures tags[i] == c <==> start <= i < start + |more| {
      if i < start {
        assert tags[i] == head[i] < c;
      } else if i < start + |more| {
        assert tags[i] == block[i - start];
      }
    }
  }

  lemma ChaptersBlocked(chapters: seq<ChapterData>)
    ensures ChapterBlocks(chapters, ChaptersAssets(chapters), ChapterIndex(chapters))
  {
    IndexSize(chapters);
    forall c | 0 <= c < |chapters|
      ensures var before, more := ChaptersAssets(chapters[..c]), ChapterAssets(chapters[c]);
        var body, tags := ChaptersAssets(chapters), ChapterIndex(chapters);
        && before + more <= body
        && (forall i | 0 <= i < |body| :: tags[i] == c <==> |before| <= i < |before| + |more|)
        && |chapters[c].audioFiles| <= |more|
        && more[|more| - |chapters[c].audioFiles|..] == TrackAssets(chapters[c].audioFiles)
    {
      ChaptersStep(chapters, c);
      BlockTags(chapters, c);
      ChapterAssetsTracks(chapters[c]);
    }
  }

  /**
   * In chapter mode the uploads after the images walk the chapters by ascending chapter
   * order, whatever their list positions. Each chapter's uploads are one block, exactly
   * its `ChapterAssets`: its icon first when it has one, then each of its tracks exactly
   * once by ascending track order. Uploads are thus ordered by (chapter order, track
   * order), chapters with equal orders keeping their list order.
   */
  lemma ChapterModeOrder(content: YotoContent)
    requires |content.chapters| > 0
    ensures var sorted := SortedChapters(content.chapters);
      var body, tags := ChaptersAssets(sorted), ChapterIndex(sorted);
      && UploadPlan(content) == ImageAssets(content) + body
      && multiset(sorted) == multiset(content.chapters)
      && GroupedBy(sorted, body, tags)
      && ChapterBlocks(sorted, body, tags)
      && (forall i, k | 0 <= i < k < |body| :: sorted[tags[i]].order <= sorted[tags[k]].order)
  {
    var sorted := SortedChapters(content.chapters);
    var body, tags := ChaptersAssets(sorted), ChapterIndex(sorted);
    ChaptersGrouped(sorted);
    forall i, k | 0 <= i < k < |body| ensures sorted[tags[i]].order <= sorted[tags[k]].order {
      if tags[i] < tags[k] {
        assert sorted[tags[i]].order <= sorted[tags[k]].order;
      }
    }
    ChaptersBlocked(sorted);
  }

  /** With chapters, the flat list plays no part at all. */
  lemma FlatListIgnoredWithChapters(content: YotoContent, flat: seq<AudioFile>)
    requires |content.chapters| > 0
    ensures UploadPlan(content.(audioFiles := flat)) == UploadPlan(content)
  {
  }

  /** Without chapters, the flat list is uploaded in list position, whatever the orders. */
  lemma FlatListInListOrder(content: YotoContent)
    requires |content.chapters| == 0
    ensures var plan := UploadPlan(content);
      && |plan| == |ImageAssets(content)| + |content.audioFiles|
      && forall i | 0 <= i < |content.audioFiles| :: plan[|ImageAssets(content)| + i] == Audio(content.audioFiles[i])
  {
  }

  /** Uploads one chapter makes: its icon if present, plus one per track. */
  function ChapterUploads(chapter: ChapterData): nat
  {
    (if HasBytes(chapter.icon) then 1 else 0) + |chapter.audioFiles|
  }

  function UploadCounts(chapters: seq<ChapterData>): (counts: seq<int>)
    ensures |counts| == |chapters|
  {
    seq(|chapters|, i requires 0 <= i < |chapters| => ChapterUploads(chapters[i]))
  }

  lemma {:induction false} ChaptersAssetsSize(chapters: seq<ChapterData>)
    ensures |ChaptersAssets(chapters)| == Sum(UploadCounts(chapters))
    decreases |chapters|
  {
    if chapters != [] {
      var front := chapters[..|chapters| - 1];
      ChaptersAssetsSize(front);
      assert UploadCounts(chapters)[..|chapters| - 1] == UploadCounts(front);
    }
  }

  /** Upload count = [icon] + [cover] + the sum over chapters of [chapter icon] + tracks,
      in whatever list order the chapters are held. */
  lemma UploadPlanSize(content: YotoContent)
    requires |content.chapters| > 0
    ensures |UploadPlan(content)| ==
      (if HasBytes(content.icon) then 1 else 0) + (if HasBytes(content.coverImage) then 1 else 0)
      + Sum(UploadCounts(content.chapters))
  {
    var chapters := content.chapters;
    var p := OrderBy(Keys(chapters, ChapterOrder));
    var counts := UploadCounts(chapters);
    PermuteAllMultiset(chapters, p);
    PermuteAllMultiset(counts, p);
    assert UploadCounts(SortedChapters(chapters)) == Permute(counts, p);
    ChaptersAssetsSize(SortedChapters(chapters));
    SumPermutation(Permute(counts, p), counts);
  }

  /** Chapters numbered 0..n-1 in list order, each with its tracks numbered likewise (the
      editor's invariant): the sort changes nothing and the uploads follow the lists. */
  lemma NumberedContentUploadsInListOrder(content: YotoContent)
    requires forall i | 0 <= i < |content.chapters| :: content.chapters[i].order == i
    requires forall i | 0 <= i < |content.chapters| :: IsNumbered(content.chapters[i].audioFiles)
    ensures |content.chapters| > 0 ==> UploadPlan(content) == ImageAssets(content) + ListOrderAssets(content.chapters)
  {
    var chapters := content.chapters;
    if |chapters| > 0 {
      SortBySortedList(chapters, ChapterOrder);
      ListOrderMatches(chapters);
    }
  }

  /** Chapter after chapter in list order, each chapter's icon then its tracks in list order. */
  function ListOrderAssets(chapters: seq<ChapterData>): seq<Asset>
    decreases |chapters|
  {
    if chapters == [] then []
    else
      var last := chapters[|chapters| - 1];
      ListOrderAssets(chapters[..|chapters| - 1]) + (ChapterIconAsset(last) + AudioAssets(last.audioFiles))
  }

  lemma {:induction false} ListOrderMatches(chapters: seq<ChapterData>)
    requires forall i | 0 <= i < |chapters| :: IsNumbered(chapters[i].audioFiles)
    ensures ChaptersAssets(chapters) == ListOrderAssets(chapters)
    decreases |chapters|
  {
    if chapters != [] {
      var front, last := chapters[..|chapters| - 1], chapters[|chapters| - 1];
      assert forall i | 0 <= i < |front| :: front[i] == chapters[i];
      ListOrderMatches(front);
      SortedNumberedTracks(last.audioFiles);
    }
  }
}
