/**
 * The editing page: the chapter list, the selected chapter, the generated artwork, and
 * the button handlers that change them or hand the assembled content to the upload
 * service.
 *
 * The page's invariant (`Valid`): the chapter list holds distinct chapters, each
 * chapter's `order` is its position in the list, and every track list the page can reach
 * is numbered 0..n-1 in list order. Create, delete, add and remove all keep it, so any
 * sequence of edits starting from a fresh page keeps it.
 *
 * Text boxes, the file picker and the remote service's answers are parameters; what a
 * handler shows (a dialog or a status line) is its result.
 */
module Editor {
  import opened Wrappers
  import opened Text
  import opened Models
  import opened AudioFiles
  import opened YotoApi

  /** What a handler shows: nothing, an error dialog, or a status line. */
  datatype Feedback = Quiet | ErrorDialog(title: string, message: string) | StatusLine(text: string)

  const CreatedMessage := "Content created successfully! ID: "

  predicate Distinct<T(==)>(xs: seq<T>) {
    forall i, j | 0 <= i < j < |xs| :: xs[i] != xs[j]
  }

  /** A numbered track list never holds the same track twice: the orders differ. */
  lemma NumberedDistinct(files: seq<AudioFile>)
    requires IsNumbered(files)
    ensures Distinct(files)
  {
    forall i, j | 0 <= i < j < |files| ensures files[i] != files[j] {
      assert files[i].order == i && files[j].order == j;
    }
  }

  /** The position of the first element equal to x. */
  function FirstIndex<T(==)>(xs: seq<T>, x: T): (i: nat)
    requires x in xs
    ensures i < |xs| && xs[i] == x && x !in xs[..i]
  {
    if xs[0] == x then 0 else FirstIndex(xs[1..], x) + 1
  }

  /** `List<T>.Remove(x)`: drops the first element equal to x; a missing x changes nothing. */
  function RemoveFirst<T(==)>(xs: seq<T>, x: T): (r: seq<T>)
    ensures x in xs ==> |r| == |xs| - 1 && multiset(r) == multiset(xs) - multiset{x}
    ensures x !in xs ==> r == xs
    ensures forall y | y in r :: y in xs
  {
    if xs == [] then []
    else if xs[0] == x then
      assert xs == [xs[0]] + xs[1..];
      xs[1..]
    else
      assert xs == [xs[0]] + xs[1..];
      [xs[0]] + RemoveFirst(xs[1..], x)
  }

  /** What is removed is the first occurrence: the elements around it keep their order. */
  lemma {:induction false} RemoveFirstAt<T>(xs: seq<T>, x: T)
    requires x in xs
    ensures var i := FirstIndex(xs, x); RemoveFirst(xs, x) == xs[..i] + xs[i + 1..]
    decreases |xs|
  {
    if xs[0] != x {
      var rest := xs[1..];
      var i := FirstIndex(rest, x);
      assert FirstIndex(xs, x) == i + 1;
      RemoveFirstAt(rest, x);
      assert RemoveFirst(xs, x) == [xs[0]] + (rest[..i] + rest[i + 1..]);
      ConsAround(xs, i);
    }
  }

  lemma ConsAround<T>(xs: seq<T>, i: nat)
    requires i + 1 < |xs|
    ensures [xs[0]] + (xs[1..][..i] + xs[1..][i + 1..]) == xs[..i + 1] + xs[i + 2..]
  {
    assert xs[..i + 1] == [xs[0]] + xs[1..][..i];
    assert xs[i + 2..] == xs[1..][i + 1..];
  }

  lemma {:induction false} RemoveFirstDistinct<T>(xs: seq<T>, x: T)
    requires Distinct(xs)
    ensures Distinct(RemoveFirst(xs, x))
    decreases |xs|
  {
    if xs != [] && xs[0] != x {
      var rest := RemoveFirst(xs[1..], x);
      RemoveFirstDistinct(xs[1..], x);
      assert xs[0] !in xs[1..];
      assert xs[0] !in rest;
      var r := [xs[0]] + rest;
      forall i, j | 0 <= i < j < |r| ensures r[i] != r[j] {
        if i > 0 {
          assert r[i] == rest[i - 1] && r[j] == rest[j - 1];
        } else {
          assert r[j] in rest;
        }
      }
    }
  }

  /** The removal loop's effect: each item of `selected`, in turn, removed from the list. */
  function RemoveEach(files: seq<AudioFile>, selected: seq<AudioFile>): (r: seq<AudioFile>)
    ensures |r| <= |files|
    decreases |selected|
  {
    if selected == [] then files
    else RemoveFirst(RemoveEach(files, selected[..|selected| - 1]), selected[|selected| - 1])
  }

  /** The tracks of `files` that are not selected, in their list order. */
  function Unselected(files: seq<AudioFile>, selected: seq<AudioFile>): (r: seq<AudioFile>)
    ensures |r| <= |files|
    ensures forall f :: f in r <==> f in files && f !in selected
  {
    if files == [] then []
    else
      assert forall f :: f in files <==> f == files[0] || f in files[1..];
      (if files[0] in selected then [] else [files[0]]) + Unselected(files[1..], selected)
  }

  lemma {:induction false} UnselectedIgnoresAbsent(files: seq<AudioFile>, selected: seq<AudioFile>, x: AudioFile)
    requires x !in files
    ensures Unselected(files, selected + [x]) == Unselected(files, selected)
    decreases |files|
  {
    if files != [] {
      UnselectedIgnoresAbsent(files[1..], selected, x);
    }
  }

  /** Removing one more item from the survivors is selecting it as well. */
  lemma {:induction false} RemoveFirstUnselected(files: seq<AudioFile>, selected: seq<AudioFile>, x: AudioFile)
    requires Distinct(files)
    ensures RemoveFirst(Unselected(files, selected), x) == Unselected(files, selected + [x])
    decreases |files|
  {
    if files != [] {
      var f, rest := files[0], files[1..];
      assert Distinct(rest) by {
        forall i, j | 0 <= i < j < |rest| ensures rest[i] != rest[j] {
          assert rest[i] == files[i + 1] && rest[j] == files[j + 1];
        }
      }
      assert f !in rest;
      var u := Unselected(rest, selected);
      var u' := Unselected(rest, selected + [x]);
      if f in selected {
        assert Unselected(files, selected) == u;
        assert Unselected(files, selected + [x]) == u';
        RemoveFirstUnselected(rest, selected, x);
      } else if f == x {
        assert Unselected(files, selected) == [f] + u;
        assert RemoveFirst([f] + u, x) == u by {
          assert ([f] + u)[1..] == u;
        }
        assert Unselected(files, selected + [x]) == u';
        UnselectedIgnoresAbsent(rest, selected, x);
      } else {
        assert Unselected(files, selected) == [f] + u;
        assert RemoveFirst([f] + u, x) == [f] + RemoveFirst(u, x) by {
          assert ([f] + u)[1..] == u;
        }
        assert Unselected(files, selected + [x]) == [f] + u';
        RemoveFirstUnselected(rest, selected, x);
      }
    }
  }

  /**
   * On a list without repeated tracks, removing the selected items one by one leaves
   * exactly the unselected tracks, in their list order, whatever order the selection
   * was made in and whether or not it repeats itself.
   */
  lemma {:induction false} RemoveEachUnselected(files: seq<AudioFile>, selected: seq<AudioFile>)
    requires Distinct(files)
    ensures RemoveEach(files, selected) == Unselected(files, selected)
    decreases |selected|
  {
    if selected == [] {
      UnselectedNone(files);
    } else {
      var front, x := selected[..|selected| - 1], selected[|selected| - 1];
      RemoveEachUnselected(files, front);
      RemoveFirstUnselected(files, front, x);
      assert front + [x] == selected;
    }
  }

  lemma {:induction false} UnselectedNone(files: seq<AudioFile>)
    ensures Unselected(files, []) == files
    decreases |files|
  {
    if files != [] {
      UnselectedNone(files[1..]);
      assert files == [files[0]] + files[1..];
    }
  }

  /** The positions of the chapters without tracks, ascending. */
  function AudiolessPositions(chapters: seq<ChapterData>): (ks: seq<nat>)
    ensures forall j | 0 <= j < |ks| :: ks[j] < |chapters|
    ensures forall j, k | 0 <= j < k < |ks| :: ks[j] < ks[k]
    ensures forall i {:trigger i in ks} | 0 <= i < |chapters| :: i in ks <==> chapters[i].audioFiles == []
    decreases |chapters|
  {
    if chapters == [] then []
    else
      var n := |chapters| - 1;
      var front := chapters[..n];
      assert forall i | 0 <= i < n :: chapters[i] == front[i];
      AudiolessPositions(front) + (if chapters[n].audioFiles == [] then [n] else [])
  }

  /** An ascending sequence of positions below n has at most n elements. */
  lemma {:induction false} AscendingBounded(ks: seq<nat>, n: nat)
    requires forall j | 0 <= j < |ks| :: ks[j] < n
    requires forall j, k | 0 <= j < k < |ks| :: ks[j] < ks[k]
    ensures |ks| <= n
    decreases n
  {
    if ks != [] {
      var front := ks[..|ks| - 1];
      assert forall j | 0 <= j < |front| :: front[j] < ks[|ks| - 1] < n;
      AscendingBounded(front, n - 1);
    }
  }

  /**
   * `_chapters.Where(c => c.AudioFiles.Count == 0).Select(c => c.Title)`: the titles of
   * the chapters without tracks, one per such chapter, in list order.
   */
  function MissingAudio(chapters: seq<ChapterData>): (titles: seq<string>)
    ensures var ks := AudiolessPositions(chapters);
      |titles| == |ks| && forall j | 0 <= j < |ks| :: titles[j] == chapters[ks[j]].title
    ensures |titles| <= |chapters|
    ensures titles == [] <==> forall i | 0 <= i < |chapters| :: chapters[i].audioFiles != []
    ensures forall i | 0 <= i < |chapters| && chapters[i].audioFiles == [] :: chapters[i].title in titles
  {
    var ks := AudiolessPositions(chapters);
    var titles := seq(|ks|, j requires 0 <= j < |ks| => chapters[ks[j]].title);
    TitlesAtPositions(chapters, ks, titles);
    titles
  }

  lemma TitlesAtPositions(chapters: seq<ChapterData>, ks: seq<nat>, titles: seq<string>)
    requires forall j | 0 <= j < |ks| :: ks[j] < |chapters|
    requires forall j, k | 0 <= j < k < |ks| :: ks[j] < ks[k]
    requires forall i {:trigger i in ks} | 0 <= i < |chapters| :: i in ks <==> chapters[i].audioFiles == []
    requires |titles| == |ks| && forall j | 0 <= j < |ks| :: titles[j] == chapters[ks[j]].title
    ensures |titles| <= |chapters|
    ensures titles == [] <==> forall i | 0 <= i < |chapters| :: chapters[i].audioFiles != []
    ensures forall i | 0 <= i < |chapters| && chapters[i].audioFiles == [] :: chapters[i].title in titles
  {
    forall i | 0 <= i < |chapters| && chapters[i].audioFiles == [] ensures chapters[i].title in titles {
      assert i in ks;
      var j :| 0 <= j < |ks| && ks[j] == i;
      assert titles[j] == chapters[i].title;
    }
    assert |ks| > 0 ==> ks[0] in ks && chapters[ks[0]].audioFiles == [];
    AscendingBounded(ks, |chapters|);
  }

  const NotAuthenticated := ErrorDialog("Authentication Required", "Please authenticate with Yoto API first")
  const NoTitle := ErrorDialog("Title Required", "Please enter a title for the content")
  const NoChapters := ErrorDialog("Chapters Required", "Please add at least one chapter")
  const MissingAudioMessage := "All chapters must have at least one audio file. Missing audio in: "

  /**
   * The checks before publishing, in the order the handler makes them; the first that
   * fails decides the dialog. `None` means every check passed.
   */
  function PublishGuard(authenticated: bool, title: string, chapters: seq<ChapterData>): (f: Option<Feedback>)
    ensures f.None? <==>
      && authenticated
      && !IsBlank(title)
      && |chapters| > 0
      && forall i | 0 <= i < |chapters| :: chapters[i].audioFiles != []
    ensures f.Some? ==> f.value.ErrorDialog?
    ensures !authenticated ==> f == Some(NotAuthenticated)
    ensures authenticated && IsBlank(title) ==> f == Some(NoTitle)
    ensures authenticated && !IsBlank(title) && |chapters| == 0 ==> f == Some(NoChapters)
    ensures authenticated && !IsBlank(title) && (exists i | 0 <= i < |chapters| :: chapters[i].audioFiles == []) ==>
      f == Some(ErrorDialog("Audio Required", MissingAudioMessage + Join(", ", MissingAudio(chapters))))
  {
    if !authenticated then
      Some(NotAuthenticated)
    else if IsBlank(title) then
      Some(NoTitle)
    else if |chapters| == 0 then
      Some(NoChapters)
    else if MissingAudio(chapters) != [] then
      Some(ErrorDialog("Audio Required", MissingAudioMessage + Join(", ", MissingAudio(chapters))))
    else
      None
  }

  /** The dialog or status line a finished upload leads to. */
  function CreationFeedback(result: Result<string, string>): (f: Feedback)
    ensures result.Success? <==> f.StatusLine?
    ensures result.Success? ==> f.text == CreatedMessage + result.value
    ensures result.Failure? ==> f == ErrorDialog("Creation Error", result.error)
  {
    match result
    case Success(id) => StatusLine(CreatedMessage + id)
    case Failure(message) => ErrorDialog("Creation Error", message)
  }

  /** The content the publish handler builds from the page and the two text boxes. */
  function PageContent(title: string, description: string, chapters: seq<Chapter>,
                       icon: Option<Bytes>, cover: Option<Bytes>): (r: YotoContent)
    reads chapters
    ensures r.title == title && r.description == description && r.audioFiles == []
    ensures r.icon == icon && r.coverImage == cover
    ensures |r.chapters| == |chapters| && forall i | 0 <= i < |chapters| :: r.chapters[i] == chapters[i].Data()
  {
    YotoContent(title, description, [], Snapshot(chapters), icon, cover)
  }

  /**
   * A page that passes the guard publishes its chapters in list order, each chapter's
   * icon (if any) and then its tracks in list order; the flat list plays no part, and
   * every chapter contributes at least one audio upload.
   */
  lemma PublishedInListOrder(title: string, description: string, chapters: seq<Chapter>,
                             icon: Option<Bytes>, cover: Option<Bytes>)
    requires forall i | 0 <= i < |chapters| :: chapters[i].order == i
    requires forall i | 0 <= i < |chapters| :: IsNumbered(chapters[i].audioFiles)
    requires PublishGuard(true, title, Snapshot(chapters)).None?
    ensures var content := PageContent(title, description, chapters, icon, cover);
      && UploadPlan(content) == ImageAssets(content) + ListOrderAssets(Snapshot(chapters))
      && |UploadPlan(content)| >= |ImageAssets(content)| + |chapters|
  {
    var content := PageContent(title, description, chapters, icon, cover);
    var snapshot := content.chapters;
    assert forall i | 0 <= i < |snapshot| :: snapshot[i] == chapters[i].Data();
    NumberedContentUploadsInListOrder(content);
    ListOrderAtLeastOnePerChapter(snapshot);
  }

  lemma {:induction false} ListOrderAtLeastOnePerChapter(chapters: seq<ChapterData>)
    requires forall i | 0 <= i < |chapters| :: chapters[i].audioFiles != []
    ensures |ListOrderAssets(chapters)| >= |chapters|
    decreases |chapters|
  {
    if chapters != [] {
      var last := chapters[|chapters| - 1];
      ListOrderAtLeastOnePerChapter(chapters[..|chapters| - 1]);
      assert |AudioAssets(last.audioFiles)| >= 1;
    }
  }

  /** The loop that sets every track's order to its position in the chapter's list. */
  method RenumberTracks(chapter: Chapter)
    modifies chapter
    ensures chapter.audioFiles == Renumber(old(chapter.audioFiles))
    ensures chapter.title == old(chapter.title) && chapter.description == old(chapter.description)
    ensures chapter.order == old(chapter.order) && chapter.icon == old(chapter.icon)
  {
    ghost var before := chapter.audioFiles;
    for i := 0 to |chapter.audioFiles|
      invariant |chapter.audioFiles| == |before|
      invariant forall j | 0 <= j < |before| :: chapter.audioFiles[j] == if j < i then before[j].(order := j) else before[j]
      invariant chapter.title == old(chapter.title) && chapter.description == old(chapter.description)
      invariant chapter.order == old(chapter.order) && chapter.icon == old(chapter.icon)
    {
      chapter.audioFiles := chapter.audioFiles[i := chapter.audioFiles[i].(order := i)];
    }
    assert chapter.audioFiles == Renumber(before);
  }

  /** The loop that sets every chapter's order to its position in the list. */
  method RenumberChapters(chapters: seq<Chapter>)
    requires Distinct(chapters)
    modifies chapters
    ensures forall i | 0 <= i < |chapters| :: chapters[i].order == i
    ensures forall c | c in chapters ::
      c.title == old(c.title) && c.description == old(c.description)
      && c.icon == old(c.icon) && c.audioFiles == old(c.audioFiles)
  {
    for i := 0 to |chapters|
      invariant forall j | 0 <= j < i :: chapters[j].order == j
      invariant forall c | c in chapters ::
        c.title == old(c.title) && c.description == old(c.description)
        && c.icon == old(c.icon) && c.audioFiles == old(c.audioFiles)
    {
      chapters[i].order := i;
    }
  }

  /** The loop that appends each track, numbered with the track count just before it. */
  method AppendTracks(chapter: Chapter, files: seq<AudioFile>)
    modifies chapter
    ensures chapter.audioFiles == old(chapter.audioFiles) + NumberFrom(files, |old(chapter.audioFiles)|)
    ensures chapter.title == old(chapter.title) && chapter.description == old(chapter.description)
    ensures chapter.order == old(chapter.order) && chapter.icon == old(chapter.icon)
  {
    ghost var before := chapter.audioFiles;
    for n := 0 to |files|
      invariant chapter.audioFiles == before + NumberFrom(files[..n], |before|)
      invariant chapter.title == old(chapter.title) && chapter.description == old(chapter.description)
      invariant chapter.order == old(chapter.order) && chapter.icon == old(chapter.icon)
    {
      assert NumberFrom(files[..n + 1], |before|) == NumberFrom(files[..n], |before|) + [files[n].(order := |before| + n)];
      var file := files[n].(order := |chapter.audioFiles|);
      chapter.audioFiles := chapter.audioFiles + [file];
    }
    assert files[..|files|] == files;
  }

  /** The loop that removes each selected track, in turn, from the chapter's list. */
  method RemoveTracks(chapter: Chapter, selected: seq<AudioFile>)
    modifies chapter
    ensures chapter.audioFiles == RemoveEach(old(chapter.audioFiles), selected)
    ensures chapter.title == old(chapter.title) && chapter.description == old(chapter.description)
    ensures chapter.order == old(chapter.order) && chapter.icon == old(chapter.icon)
  {
    ghost var before := chapter.audioFiles;
    for n := 0 to |selected|
      invariant chapter.audioFiles == RemoveEach(before, selected[..n])
      invariant chapter.title == old(chapter.title) && chapter.description == old(chapter.description)
      invariant chapter.order == old(chapter.order) && chapter.icon == old(chapter.icon)
    {
      assert selected[..n + 1][..n] == selected[..n];
      chapter.audioFiles := RemoveFirst(chapter.audioFiles, selected[n]);
    }
    assert selected[..|selected|] == selected;
  }

  class MainPage {
    const api: YotoApiService
    var chapters: seq<Chapter>
    var selectedChapter: Chapter?
    var generatedIcon: Option<Bytes>
    var generatedCover: Option<Bytes>

    ghost predicate Valid()
      reads this, chapters, selectedChapter
    {
      && Distinct(chapters)
      && (forall i | 0 <= i < |chapters| :: chapters[i].order == i)
      && (forall i | 0 <= i < |chapters| :: IsNumbered(chapters[i].audioFiles))
      && (selectedChapter != null ==> IsNumbered(selectedChapter.audioFiles))
    }

    /** Every listed chapter carries a valid position and a numbered track list. */
    lemma ValidChapters()
      requires Valid()
      ensures forall c | c in chapters :: 0 <= c.order < |chapters| && IsNumbered(c.audioFiles)
    {
      forall c | c in chapters ensures 0 <= c.order < |chapters| && IsNumbered(c.audioFiles) {
        var i :| 0 <= i < |chapters| && chapters[i] == c;
      }
    }

    /** A fresh page: a new, unauthenticated service, no chapters, nothing selected. */
    constructor ()
      ensures Valid()
      ensures fresh(api) && !api.isAuthenticated && api.calls == []
      ensures chapters == [] && selectedChapter == null
      ensures generatedIcon == None && generatedCover == None
    {
      api := new YotoApiService();
      chapters := [];
      selectedChapter := null;
      generatedIcon := None;
      generatedCover := None;
    }

    /**
     * `YotoAuthButton_Click`: a blank key is refused on the page, without asking the
     * service; otherwise the service decides and the status line says how it went.
     */
    method AuthenticateYoto(key: string, probe: ProbeReply) returns (feedback: Feedback)
      modifies api
      ensures IsBlank(key) ==>
        feedback == StatusLine("Please enter an API key") && api.calls == old(api.calls)
        && api.isAuthenticated == old(api.isAuthenticated) && api.apiKey == old(api.apiKey)
      ensures !IsBlank(key) ==>
        && api.apiKey == key
        && api.calls == old(api.calls) + [CheckUser(key)]
        && api.isAuthenticated == (probe == Answered(true))
        && feedback == StatusLine(if api.isAuthenticated then "Connected" else "Authentication failed")
    {
      if IsBlank(key) {
        return StatusLine("Please enter an API key");
      }
      var success := api.Authenticate(key, probe);
      feedback := StatusLine(if success then "Connected" else "Authentication failed");
    }

    /**
     * `CreateChapterButton_Click`: the trimmed title must not be blank; the new chapter
     * goes at the end, numbered with the count before it, and starts with no tracks.
     */
    method CreateChapter(titleText: string, descriptionText: string) returns (feedback: Feedback)
      requires Valid()
      modifies this
      ensures Valid()
      ensures selectedChapter == old(selectedChapter)
      ensures generatedIcon == old(generatedIcon) && generatedCover == old(generatedCover)
      ensures IsBlank(titleText) ==>
        feedback == ErrorDialog("Title Required", "Please enter a title for the chapter") && chapters == old(chapters)
      ensures !IsBlank(titleText) ==>
        && feedback == Quiet
        && |chapters| == |old(chapters)| + 1
        && chapters[..|old(chapters)|] == old(chapters)
        && var c := chapters[|old(chapters)|];
        && fresh(c)
        && c.title == Trim(titleText) && c.description == Trim(descriptionText)
        && c.order == |old(chapters)| && c.audioFiles == [] && c.icon == None
    {
      var title := Trim(titleText);
      assert IsBlank(title) <==> IsBlank(titleText) by {
        if title != "" {
          assert !IsWhiteSpace(title[0]);
        }
      }
      if IsBlank(title) {
        return ErrorDialog("Title Required", "Please enter a title for the chapter");
      }
      var chapter := new Chapter(title, Trim(descriptionText), |chapters|);
      chapters := chapters + [chapter];
      feedback := Quiet;
    }

    /** `ChaptersList_SelectionChanged`: the selection is one of the listed chapters or none. */
    method SelectionChanged(selected: Chapter?)
      requires Valid()
      requires selected == null || selected in chapters
      modifies this
      ensures Valid()
      ensures selectedChapter == selected
      ensures chapters == old(chapters)
      ensures generatedIcon == old(generatedIcon) && generatedCover == old(generatedCover)
    {
      selectedChapter := selected;
    }

    /**
     * `DeleteChapterButton_Click`: the chapter leaves the list and the chapters after it
     * move up one place; every listed chapter's order becomes its new position. Nothing
     * else about any chapter changes, and the removed one keeps its old order.
     */
    method DeleteChapter(chapter: Chapter)
      requires Valid()
      modifies this, chapters
      ensures Valid()
      ensures chapters == RemoveFirst(old(chapters), chapter)
      ensures forall i | 0 <= i < |chapters| :: chapters[i].order == i
      ensures forall c | c in old(chapters) ::
        c.title == old(c.title) && c.description == old(c.description)
        && c.icon == old(c.icon) && c.audioFiles == old(c.audioFiles)
      ensures forall c | c in old(chapters) && c !in chapters :: c.order == old(c.order)
      ensures selectedChapter == old(selectedChapter)
      ensures generatedIcon == old(generatedIcon) && generatedCover == old(generatedCover)
    {
      ValidChapters();
      RemoveFirstDistinct(chapters, chapter);
      var list := RemoveFirst(chapters, chapter);
      assert forall i | 0 <= i < |list| :: list[i] in chapters;
      chapters := list;
      RenumberChapters(list);
    }

    /**
     * `AddAudioToChapterButton_Click`. Without a selected chapter it only complains.
     * Otherwise the picked tracks are appended in picker order, each numbered with the
     * track count just before it, so the list stays numbered; a picker failure is
     * reported and changes nothing.
     */
    method AddAudioToChapter(picked: Result<Option<seq<PickedFile>>, string>) returns (feedback: Feedback)
      requires Valid()
      modifies selectedChapter
      ensures Valid()
      ensures selectedChapter == null ==>
        feedback == ErrorDialog("No Chapter Selected", "Please select a chapter first")
      ensures selectedChapter != null && picked.Failure? ==>
        feedback == ErrorDialog("Error picking files", picked.error)
        && selectedChapter.audioFiles == old(selectedChapter.audioFiles)
      ensures selectedChapter != null && picked.Success? ==>
        && feedback == Quiet
        && var before := old(selectedChapter.audioFiles);
        && var files := if picked.value.Some? then PickedPrefix(picked.value.value, |picked.value.value|) else [];
        && selectedChapter.audioFiles == before + NumberFrom(files, |before|)
        && IsNumbered(selectedChapter.audioFiles)
      ensures selectedChapter != null ==>
        selectedChapter.title == old(selectedChapter.title) && selectedChapter.order == old(selectedChapter.order)
        && selectedChapter.icon == old(selectedChapter.icon) && selectedChapter.description == old(selectedChapter.description)
    {
      var chapter := selectedChapter;
      if chapter == null {
        return ErrorDialog("No Chapter Selected", "Please select a chapter first");
      }
      if picked.Failure? {
        return ErrorDialog("Error picking files", picked.error);
      }
      var files := PickAudioFiles(picked.value);
      ghost var before := chapter.audioFiles;
      AppendTracks(chapter, files);
      AppendKeepsNumbered(before, files);
      feedback := Quiet;
    }

    /**
     * `RemoveAudioFromChapterButton_Click`: each selected track is removed from the
     * selected chapter, then the survivors are renumbered by position. Because a
     * numbered list has no repeated track, the survivors are exactly the unselected
     * tracks, in their old relative order. Without a selected chapter nothing happens.
     */
    method RemoveAudioFromChapter(selected: seq<AudioFile>)
      requires Valid()
      modifies selectedChapter
      ensures Valid()
      ensures selectedChapter != null ==>
        && selectedChapter.audioFiles == Renumber(RemoveEach(old(selectedChapter.audioFiles), selected))
        && selectedChapter.audioFiles == Renumber(Unselected(old(selectedChapter.audioFiles), selected))
        && selectedChapter.title == old(selectedChapter.title) && selectedChapter.order == old(selectedChapter.order)
        && selectedChapter.icon == old(selectedChapter.icon) && selectedChapter.description == old(selectedChapter.description)
    {
      var chapter := selectedChapter;
      if chapter == null {
        return;
      }
      ghost var before := chapter.audioFiles;
      RemoveTracks(chapter, selected);
      RenumberTracks(chapter);
      NumberedDistinct(before);
      RemoveEachUnselected(before, selected);
    }

    /**
     * `CreateContentButton_Click`. A failed check shows its dialog and the service is not
     * called at all. Otherwise the service receives the untrimmed title and description,
     * a copy of the chapter list, the generated icon and cover, and an empty flat list;
     * the page then shows the new id or the service's error.
     */
    method CreateContent(titleText: string, descriptionText: string,
                         createReply: CreateReply, uploadReply: nat -> Reply) returns (feedback: Feedback)
      modifies api
      ensures var guard := old(PublishGuard(api.isAuthenticated, titleText, Snapshot(chapters)));
        && (guard.Some? ==> feedback == guard.value && api.calls == old(api.calls))
        && (guard.None? ==>
              var run := old(Publish(PageContent(titleText, descriptionText, chapters, generatedIcon, generatedCover),
                                     createReply, uploadReply));
              && api.calls == old(api.calls) + run.calls
              && feedback == CreationFeedback(run.result))
      ensures api.isAuthenticated == old(api.isAuthenticated) && api.apiKey == old(api.apiKey)
    {
      var guard := PublishGuard(api.isAuthenticated, titleText, Snapshot(chapters));
      if guard.Some? {
        return guard.value;
      }
      var content := PageContent(titleText, descriptionText, chapters, generatedIcon, generatedCover);
      var result := api.CreateContent(content, createReply, uploadReply);
      feedback := CreationFeedback(result);
    }
  }
}
