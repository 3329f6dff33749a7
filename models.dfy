/**
 * The content model: a track (`AudioFile`), a chapter (`Chapter`) and the publishable
 * unit (`YotoContent`), with the numbering rule every list of them follows: `Order` is
 * the 0-based position in the owning list.
 *
 * A chapter is an object: the page's chapter list and its selected-chapter reference
 * share it, and its `Order` and track list change in place. A track is a value: its
 * `Order` is only ever overwritten through the one list that holds it, so overwriting it
 * in place is replacing the list element. The content record is built once, by an
 * object initializer, and never changed afterwards, so it is a value too.
 */
module Models {
  import opened Wrappers
  import opened Ordering

  type Bytes = seq<bv8>

  /** `image != null && image.Length > 0`. */
  predicate HasBytes(image: Option<Bytes>) {
    image.Some? && |image.value| > 0
  }

  /**
   * A picked audio file. `fileName` is the name sent on upload; `filePath` and `token`
   * are the two handles for reopening the file; `duration` is display text, not a
   * number; `fileSize` is a byte count (a C# `long`); `order` is the 0-based position
   * in the owning list.
   */
  datatype AudioFile = AudioFile(
    fileName: string,
    filePath: string,
    duration: string,
    fileSize: int,
    order: int,
    token: string)

  /** What a chapter holds at one moment: its title, description, optional 16x16 icon,
      tracks and `order`. */
  datatype ChapterData = ChapterData(
    title: string,
    description: string,
    icon: Option<Bytes>,
    audioFiles: seq<AudioFile>,
    order: int)

  /** A chapter: a titled, ordered group of tracks with an optional 16x16 icon. */
  class Chapter {
    var title: string
    var description: string
    var icon: Option<Bytes>
    var audioFiles: seq<AudioFile>
    var order: int

    /** `new Chapter { Title = ..., Description = ..., Order = ... }`: the constructor
        starts the track list empty and leaves the icon null. */
    constructor (title: string, description: string, order: int)
      ensures this.title == title && this.description == description && this.order == order
      ensures icon == None && audioFiles == []
    {
      this.title := title;
      this.description := description;
      this.order := order;
      this.icon := None;
      this.audioFiles := [];
    }

    /** The chapter's fields as they stand now. */
    function Data(): (d: ChapterData)
      reads this
      ensures d.title == title && d.description == description
      ensures d.order == order && d.audioFiles == audioFiles && d.icon == icon
    {
      ChapterData(title, description, icon, audioFiles, order)
    }
  }

  /** The chapters' fields as they stand now, in list order. */
  function Snapshot(chapters: seq<Chapter>): (r: seq<ChapterData>)
    reads chapters
    ensures |r| == |chapters|
    ensures forall i | 0 <= i < |chapters| :: r[i] == chapters[i].Data()
  {
    seq(|chapters|, i requires 0 <= i < |chapters| reads chapters => chapters[i].Data())
  }

  /**
   * The unit handed to the upload service. `audioFiles` (the flat list) and `chapters`
   * are independent: nothing here stops both being non-empty, and only the upload code
   * decides which one is used. The upload code only reads the chapters, so the record
   * holds their fields as they stood when it was built. The server-side fields (`Id`, `CreatedAt`, `UpdatedAt`)
   * are never set by the creating side and are not part of this value.
   */
  datatype YotoContent = YotoContent(
    title: string,
    description: string,
    audioFiles: seq<AudioFile>,
    chapters: seq<ChapterData>,
    icon: Option<Bytes>,
    coverImage: Option<Bytes>)

  /** The two tracks agree on everything except `order`. */
  predicate SameTrack(a: AudioFile, b: AudioFile) {
    a.(order := 0) == b.(order := 0)
  }

  /** Every track's `order` is its position: the orders are exactly 0..|files|-1. */
  predicate IsNumbered(files: seq<AudioFile>) {
    forall i | 0 <= i < |files| :: files[i].order == i
  }

  /** The tracks with their orders rewritten to start, start + 1, ... */
  function NumberFrom(files: seq<AudioFile>, start: int): (r: seq<AudioFile>)
    ensures |r| == |files|
  {
    seq(|files|, i requires 0 <= i < |files| => files[i].(order := start + i))
  }

  /** The renumbering loop's effect: each track's order becomes its position. */
  function Renumber(files: seq<AudioFile>): (r: seq<AudioFile>)
    ensures |r| == |files| && IsNumbered(r)
    ensures forall i | 0 <= i < |files| :: SameTrack(r[i], files[i])
  {
    NumberFrom(files, 0)
  }

  /** Renumbering a numbered list changes nothing; so renumbering twice is renumbering once. */
  lemma RenumberIdempotent(files: seq<AudioFile>)
    ensures IsNumbered(files) ==> Renumber(files) == files
    ensures Renumber(Renumber(files)) == Renumber(files)
  {
    if IsNumbered(files) {
      assert forall i | 0 <= i < |files| :: Renumber(files)[i] == files[i];
    }
    assert forall i | 0 <= i < |files| :: Renumber(Renumber(files))[i] == Renumber(files)[i];
  }

  /** Appending tracks numbered from the current count keeps a numbered list numbered. */
  lemma AppendKeepsNumbered(files: seq<AudioFile>, added: seq<AudioFile>)
    requires IsNumbered(files)
    ensures IsNumbered(files + NumberFrom(added, |files|))
  {
  }

  function TrackOrder(file: AudioFile): int {
    file.order
  }

  /** `files.OrderBy(a => a.Order)`: the same tracks by ascending `order`, equal orders
      keeping their list order (see `SortByStable`). */
  function SortedTracks(files: seq<AudioFile>): (r: seq<AudioFile>)
    ensures |r| == |files| && multiset(r) == multiset(files)
    ensures forall a, b | 0 <= a < b < |r| :: r[a].order <= r[b].order
  {
    SortBy(files, TrackOrder)
  }

  /** On a numbered list the sort is the identity: list position and `order` agree. */
  lemma SortedNumberedTracks(files: seq<AudioFile>)
    requires IsNumbered(files)
    ensures SortedTracks(files) == files
  {
    SortBySortedList(files, TrackOrder);
  }
}
