/**
 * AudioFileService: the helpers around picked audio files. The file picker, the
 * storage APIs and `TimeSpan.TryParse` are outside the model; they appear as inputs
 * (the picked files with what reading their properties gave, lookup functions for the
 * token and the path, an abstract duration parser).
 */
module AudioFiles {
  import opened Wrappers
  import opened Text
  import opened Models

  // ---------------------------------------------------------------- extension check

  /** The whitelist, in the order the service declares it. */
  const SupportedAudioFormats: seq<string> := [".mp3", ".m4a", ".wav", ".wma", ".aac", ".flac", ".ogg"]

  /** Directory and volume separators on Windows; the extension never reaches past one. */
  predicate IsSeparator(c: char) {
    c == '\\' || c == '/' || c == ':'
  }

  /** The file has an extension starting at k: a '.' that is not the last character, with
      no other '.' and no separator after it. */
  predicate ExtensionStart(path: string, k: int) {
    && 0 <= k < |path| - 1
    && path[k] == '.'
    && forall m | k < m < |path| :: path[m] != '.' && !IsSeparator(path[m])
  }

  /** `Path.GetExtension`'s backward scan over positions i-1 down to 0. */
  function ExtensionScan(path: string, i: nat): (e: string)
    requires i <= |path|
    requires forall m | i <= m < |path| :: path[m] != '.' && !IsSeparator(path[m])
    ensures e != "" <==> exists k | 0 <= k < i :: ExtensionStart(path, k)
    ensures forall k | 0 <= k < i && ExtensionStart(path, k) :: e == path[k..]
    decreases i
  {
    if i == 0 then ""
    else if path[i - 1] == '.' then
      if i - 1 != |path| - 1 then
        assert ExtensionStart(path, i - 1);
        path[i - 1..]
      else ""
    else if IsSeparator(path[i - 1]) then ""
    else ExtensionScan(path, i - 1)
  }

  /** `Path.GetExtension`: the text from the extension's '.' to the end, or "" when there is
      no extension. */
  function Extension(path: string): (e: string)
    ensures e != "" <==> exists k :: ExtensionStart(path, k)
    ensures forall k | ExtensionStart(path, k) :: e == path[k..]
  {
    ExtensionScan(path, |path|)
  }

  /** `IsSupportedAudioFormat`: the lower-cased extension is on the whitelist. */
  function IsSupportedAudioFormat(fileName: string): (r: bool)
    ensures r <==> exists k :: ExtensionStart(fileName, k) && ToLower(fileName[k..]) in SupportedAudioFormats
  {
    var extension := ToLower(Extension(fileName));
    extension != "" && extension in SupportedAudioFormats
  }

  lemma LowerCharKeepsPunctuation(c: char)
    ensures LowerChar(c) == '.' <==> c == '.'
    ensures IsSeparator(LowerChar(c)) <==> IsSeparator(c)
  {
  }

  lemma LowerTwice(s: string)
    ensures ToLower(ToLower(s)) == ToLower(s)
  {
  }

  lemma {:induction false} ScanIgnoresCase(path: string, i: nat)
    requires i <= |path|
    requires forall m | i <= m < |path| :: path[m] != '.' && !IsSeparator(path[m])
    ensures forall m | i <= m < |path| :: ToLower(path)[m] != '.' && !IsSeparator(ToLower(path)[m])
    ensures ExtensionScan(ToLower(path), i) == ToLower(ExtensionScan(path, i))
    decreases i
  {
    var lower := ToLower(path);
    forall m | i <= m < |path|
      ensures lower[m] != '.' && !IsSeparator(lower[m])
    {
      LowerCharKeepsPunctuation(path[m]);
    }
    if i > 0 {
      LowerCharKeepsPunctuation(path[i - 1]);
      assert lower[i - 1..] == ToLower(path[i - 1..]);
      if path[i - 1] != '.' && !IsSeparator(path[i - 1]) {
        ScanIgnoresCase(path, i - 1);
      }
    }
  }

  /** The check does not depend on letter case anywhere in the name. */
  lemma SupportedIgnoresCase(fileName: string)
    ensures IsSupportedAudioFormat(ToLower(fileName)) == IsSupportedAudioFormat(fileName)
  {
    ScanIgnoresCase(fileName, |fileName|);
    LowerTwice(ExtensionScan(fileName, |fileName|));
  }

  /** A name without a '.' has no extension and is refused. */
  lemma NoDotNotSupported(fileName: string)
    requires forall m | 0 <= m < |fileName| :: fileName[m] != '.'
    ensures !IsSupportedAudioFormat(fileName)
  {
  }

  /** Upper- and mixed-case extensions are accepted. */
  lemma SupportedExamples()
    ensures IsSupportedAudioFormat("Track 01.MP3")
    ensures IsSupportedAudioFormat("story.Flac")
  {
    assert ExtensionStart("Track 01.MP3", 8) && ToLower(".MP3") == ".mp3";
    assert ExtensionStart("story.Flac", 5) && ToLower(".Flac") == ".flac";
  }

  /** Another extension, an audio extension followed by a second one, a trailing '.' and
      a bare format name are all refused. */
  lemma UnsupportedExamples()
    ensures !IsSupportedAudioFormat("notes.txt")
    ensures !IsSupportedAudioFormat("song.mp3.zip")
    ensures !IsSupportedAudioFormat("song.")
    ensures !IsSupportedAudioFormat("mp3")
  {
    assert ExtensionStart("notes.txt", 5) && ToLower(".txt") == ".txt";
    assert ExtensionStart("song.mp3.zip", 8) && ToLower(".zip") == ".zip";
  }

  // ---------------------------------------------------------------- total size

  const LongMin: int := -0x8000_0000_0000_0000
  const LongMax: int := 0x7FFF_FFFF_FFFF_FFFF

  predicate IsLong(n: int) {
    LongMin <= n <= LongMax
  }

  /** The exact sum of the sizes. */
  function TotalSize(files: seq<AudioFile>): int {
    if files == [] then 0 else TotalSize(files[..|files| - 1]) + files[|files| - 1].fileSize
  }

  /** Every running total of the checked sum fits in a `long`. */
  predicate RunningTotalsFit(files: seq<AudioFile>) {
    forall n | 1 <= n <= |files| :: IsLong(TotalSize(files[..n]))
  }

  /** `GetTotalFileSize`: LINQ's `Sum` over `long` adds in a checked context, so it either
      gives the exact sum or throws an overflow exception (None). */
  function GetTotalFileSize(files: seq<AudioFile>): (r: Option<int>)
    ensures files == [] ==> r == Some(0)
    ensures r.Some? <==> RunningTotalsFit(files)
    ensures r.Some? ==> r.value == TotalSize(files)
  {
    if files == [] then Some(0)
    else
      var front := files[..|files| - 1];
      assert forall n | 1 <= n <= |front| :: front[..n] == files[..n];
      assert files[..|files|] == files;
      match GetTotalFileSize(front)
      case None => None
      case Some(s) =>
        var t := s + files[|files| - 1].fileSize;
        if IsLong(t) then Some(t) else None
  }

  /** With sizes that are byte counts (never negative), the sum fails exactly when the
      true total exceeds `long.MaxValue`. */
  lemma {:induction false} TotalFileSizeOverflow(files: seq<AudioFile>)
    requires forall i | 0 <= i < |files| :: 0 <= files[i].fileSize
    ensures GetTotalFileSize(files).Some? <==> TotalSize(files) <= LongMax
  {
    TotalSizeMonotone(files);
    assert files[..|files|] == files;
  }

  lemma {:induction false} TotalSizeMonotone(files: seq<AudioFile>)
    requires forall i | 0 <= i < |files| :: 0 <= files[i].fileSize
    ensures forall n | 0 <= n <= |files| :: 0 <= TotalSize(files[..n]) <= TotalSize(files)
  {
    if files != [] {
      var front := files[..|files| - 1];
      TotalSizeMonotone(front);
      assert forall n | 0 <= n <= |front| :: front[..n] == files[..n];
      assert files[..|files|] == files;
    }
  }

  // ---------------------------------------------------------------- total duration

  /** The parsed durations added up; entries that do not parse add nothing. */
  function ParsedTotal(files: seq<AudioFile>, parse: string -> Option<int>): int {
    if files == [] then 0
    else
      var last := files[|files| - 1];
      ParsedTotal(files[..|files| - 1], parse) + (if parse(last.duration).Some? then parse(last.duration).value else 0)
  }

  /**
   * `GetTotalDuration`: adds up every duration `parse` accepts and skips the rest without
   * failing. `parse` stands for `TimeSpan.TryParse` and gives a duration in ticks.
   */
  method GetTotalDuration(files: seq<AudioFile>, parse: string -> Option<int>) returns (total: int)
    ensures total == ParsedTotal(files, parse)
  {
    total := 0;
    for i := 0 to |files|
      invariant total == ParsedTotal(files[..i], parse)
    {
      assert files[..i + 1][..i] == files[..i];
      var duration := parse(files[i].duration);
      if duration.Some? {
        total := total + duration.value;
      }
    }
    assert files[..|files|] == files;
  }

  lemma {:induction false} ParsedTotalConcat(a: seq<AudioFile>, b: seq<AudioFile>, parse: string -> Option<int>)
    ensures ParsedTotal(a + b, parse) == ParsedTotal(a, parse) + ParsedTotal(b, parse)
    decreases |b|
  {
    if b == [] {
      assert a + b == a;
    } else {
      assert (a + b)[..|a + b| - 1] == a + b[..|b| - 1];
      ParsedTotalConcat(a, b[..|b| - 1], parse);
    }
  }

  /** An entry whose duration does not parse can be dropped without changing the total. */
  lemma UnparsedEntryIgnored(a: seq<AudioFile>, f: AudioFile, b: seq<AudioFile>, parse: string -> Option<int>)
    requires parse(f.duration).None?
    ensures ParsedTotal(a + [f] + b, parse) == ParsedTotal(a + b, parse)
  {
    ParsedTotalConcat(a + [f], b, parse);
    ParsedTotalConcat(a, [f], parse);
    ParsedTotalConcat(a, b, parse);
    assert ParsedTotal([f], parse) == ParsedTotal([], parse) + 0 by {
      assert [f][..0] == [];
    }
  }

  // ---------------------------------------------------------------- size unit

  const SizeUnits: seq<string> := ["B", "KB", "MB", "GB", "TB"]

  function Pow1024(k: nat): (p: nat)
    ensures p >= 1
  {
    if k == 0 then 1 else 1024 * Pow1024(k - 1)
  }

  /**
   * `FormatFileSize` without the final rendering: divides by 1024 while the value is at
   * least 1024 and a larger unit remains. The unit chosen is the largest of the five
   * whose size the byte count reaches (B for anything below 1 KB, negatives included),
   * and the value is the byte count in that unit.
   */
  method FormatFileSize(bytes: int) returns (len: real, unit: string)
    ensures exists k | 0 <= k < |SizeUnits| ::
      && unit == SizeUnits[k]
      && (k > 0 ==> bytes >= Pow1024(k))
      && (k < |SizeUnits| - 1 ==> bytes < Pow1024(k + 1))
      && len == bytes as real / Pow1024(k) as real
  {
    var sizes := SizeUnits;
    len := bytes as real;
    var order := 0;
    while len >= 1024.0 && order < |sizes| - 1
      invariant 0 <= order < |sizes|
      invariant len == bytes as real / Pow1024(order) as real
      invariant order > 0 ==> bytes >= Pow1024(order)
    {
      ScaleStep(bytes, order, len);
      order := order + 1;
      len := len / 1024.0;
    }
    if order < |sizes| - 1 {
      ScaleBelow(bytes, order, len);
    }
    unit := sizes[order];
  }

  lemma ScaleStep(bytes: int, k: nat, len: real)
    requires len == bytes as real / Pow1024(k) as real && len >= 1024.0
    ensures bytes >= Pow1024(k + 1)
    ensures len / 1024.0 == bytes as real / Pow1024(k + 1) as real
  {
    var p := Pow1024(k) as real;
    assert bytes as real == len * p;
    assert len * p >= 1024.0 * p;
  }

  lemma ScaleBelow(bytes: int, k: nat, len: real)
    requires len == bytes as real / Pow1024(k) as real && len < 1024.0
    ensures bytes < Pow1024(k + 1)
  {
    var p := Pow1024(k) as real;
    assert p > 0.0;
    assert bytes as real == len * p;
    MulLess(len, 1024.0, p);
    assert Pow1024(k + 1) as real == 1024.0 * p;
  }

  lemma MulLess(x: real, y: real, p: real)
    requires x < y && p > 0.0
    ensures x * p < y * p
  {
  }

  // ---------------------------------------------------------------- duration text

  const TicksPerSecond: int := 10_000_000
  const TicksPerMinute: int := 60 * TicksPerSecond
  const TicksPerHour: int := 60 * TicksPerMinute
  const TicksPerDay: int := 24 * TicksPerHour

  /** C#'s integer `/`, which truncates toward zero. */
  function Quot(a: int, b: int): int
    requires b > 0
  {
    if a >= 0 then a / b else -((-a) / b)
  }

  /** C#'s integer `%`, whose sign follows the dividend. */
  function Rem(a: int, b: int): int
    requires b > 0
  {
    a - b * Quot(a, b)
  }

  /** The `Hours`, `Minutes` and `Seconds` components of a `TimeSpan` of `ticks`. */
  function Hours(ticks: int): int { Rem(Quot(ticks, TicksPerHour), 24) }
  function Minutes(ticks: int): int { Rem(Quot(ticks, TicksPerMinute), 60) }
  function Seconds(ticks: int): int { Rem(Quot(ticks, TicksPerSecond), 60) }

  /** The duration string built when a file is picked: HH:MM:SS when the hours component
      is positive, MM:SS otherwise, each field in the D2 format. */
  function DurationText(ticks: int): string {
    if Hours(ticks) > 0 then
      FormatD2(Hours(ticks)) + ":" + FormatD2(Minutes(ticks)) + ":" + FormatD2(Seconds(ticks))
    else
      FormatD2(Minutes(ticks)) + ":" + FormatD2(Seconds(ticks))
  }

  lemma ComponentsInRange(ticks: int)
    requires ticks >= 0
    ensures 0 <= Hours(ticks) < 24 && 0 <= Minutes(ticks) < 60 && 0 <= Seconds(ticks) < 60
  {
  }

  /**
   * For a non-negative duration the text has the promised shape, and each two-digit
   * field reads back as its component: the hours are shown only when positive.
   */
  lemma DurationTextFields(ticks: int)
    requires ticks >= 0
    ensures var s := DurationText(ticks);
      if Hours(ticks) > 0 then
        && |s| == 8 && s[2] == ':' && s[5] == ':'
        && (forall m | m in {0, 1, 3, 4, 6, 7} :: IsDigit(s[m]))
        && DigitsValue(s[0..2]) == Hours(ticks)
        && DigitsValue(s[3..5]) == Minutes(ticks)
        && DigitsValue(s[6..8]) == Seconds(ticks)
      else
        && |s| == 5 && s[2] == ':'
        && (forall m | m in {0, 1, 3, 4} :: IsDigit(s[m]))
        && DigitsValue(s[0..2]) == Minutes(ticks)
        && DigitsValue(s[3..5]) == Seconds(ticks)
  {
    ComponentsInRange(ticks);
    FormatD2RoundTrip(Hours(ticks));
    FormatD2RoundTrip(Minutes(ticks));
    FormatD2RoundTrip(Seconds(ticks));
    var s := DurationText(ticks);
    var h, m, sec := FormatD2(Hours(ticks)), FormatD2(Minutes(ticks)), FormatD2(Seconds(ticks));
    if Hours(ticks) > 0 {
      assert s == h + ":" + m + ":" + sec;
      assert s[0..2] == h && s[3..5] == m && s[6..8] == sec;
    } else {
      assert s == m + ":" + sec;
      assert s[0..2] == m && s[3..5] == sec;
    }
  }

  lemma HoursDropDay(ticks: int)
    requires ticks >= 0
    ensures Hours(ticks + TicksPerDay) == Hours(ticks)
  {
    var q := ticks / 36_000_000_000;
    assert Quot(ticks + TicksPerDay, TicksPerHour) == q + 24;
  }

  lemma MinutesDropDay(ticks: int)
    requires ticks >= 0
    ensures Minutes(ticks + TicksPerDay) == Minutes(ticks)
  {
    var q := ticks / 600_000_000;
    assert Quot(ticks + TicksPerDay, TicksPerMinute) == q + 1440;
  }

  lemma SecondsDropDay(ticks: int)
    requires ticks >= 0
    ensures Seconds(ticks + TicksPerDay) == Seconds(ticks)
  {
    var q := ticks / 10_000_000;
    assert Quot(ticks + TicksPerDay, TicksPerSecond) == q + 86400;
  }

  /** Whole days are dropped: a duration one day longer shows the same text. */
  lemma DurationTextDropsDays(ticks: int)
    requires ticks >= 0
    ensures DurationText(ticks + TicksPerDay) == DurationText(ticks)
  {
    HoursDropDay(ticks);
    MinutesDropDay(ticks);
    SecondsDropDay(ticks);
  }

  // ---------------------------------------------------------------- picking files

  /** A C# `ulong`. */
  type ULong = x: int | 0 <= x < 0x1_0000_0000_0000_0000

  /** The unchecked cast `(long)size`: sizes of 2^63 bytes or more wrap to negatives. */
  function ToLong(size: ULong): (r: int)
    ensures IsLong(r)
    ensures (r - size) % 0x1_0000_0000_0000_0000 == 0
    ensures size <= LongMax ==> r == size
  {
    if size <= LongMax then size else size - 0x1_0000_0000_0000_0000
  }

  /** What the storage APIs report for a picked file, and the token the future-access
      list hands out for it. */
  datatype FileProperties = FileProperties(size: ULong, durationTicks: int, token: string)

  /** A file as the picker returns it. `properties` is None when reading its properties or
      registering it for future access throws. */
  datatype PickedFile = PickedFile(name: string, path: string, properties: Option<FileProperties>)

  /** `CreateAudioFileFromStorageFileAsync`, for a file whose properties could be read. */
  function CreateAudioFile(file: PickedFile, order: int): (a: AudioFile)
    requires file.properties.Some?
    ensures a.fileName == file.name && a.filePath == file.path && a.order == order
    ensures a.token == file.properties.value.token
    ensures a.fileSize == ToLong(file.properties.value.size)
    ensures a.duration == DurationText(file.properties.value.durationTicks)
  {
    var props := file.properties.value;
    AudioFile(file.name, file.path, DurationText(props.durationTicks), ToLong(props.size), order, props.token)
  }

  /** The files the picking loop keeps from the first n picked ones: each readable file,
      in picker order, numbered by its position among all picked files. */
  function PickedPrefix(ps: seq<PickedFile>, n: nat): (files: seq<AudioFile>)
    requires n <= |ps|
    ensures |files| <= n
  {
    if n == 0 then []
    else
      var kept := PickedPrefix(ps, n - 1);
      if ps[n - 1].properties.Some? then kept + [CreateAudioFile(ps[n - 1], n - 1)] else kept
  }

  /**
   * `PickAudioFilesAsync`. `picked` is the picker's answer (None for null). The order
   * counter advances for every picked file, including those skipped because their
   * properties could not be read.
   */
  method PickAudioFiles(picked: Option<seq<PickedFile>>) returns (files: seq<AudioFile>)
    ensures picked.None? ==> files == []
    ensures picked.Some? ==> files == PickedPrefix(picked.value, |picked.value|)
  {
    if picked.None? || |picked.value| == 0 {
      return [];
    }
    var ps := picked.value;
    files := [];
    var order := 0;
    for n := 0 to |ps|
      invariant order == n
      invariant files == PickedPrefix(ps, n)
    {
      var fileOrder := order;
      order := order + 1;
      if ps[n].properties.Some? {
        files := files + [CreateAudioFile(ps[n], fileOrder)];
      }
    }
  }

  /** Each kept file was built from the readable picked file at position `order` < n. */
  predicate BuiltFromPicked(ps: seq<PickedFile>, files: seq<AudioFile>, n: nat) {
    forall i | 0 <= i < |files| ::
      && 0 <= files[i].order < n <= |ps|
      && ps[files[i].order].properties.Some?
      && files[i] == CreateAudioFile(ps[files[i].order], files[i].order)
  }

  predicate OrdersIncrease(files: seq<AudioFile>) {
    forall i, j | 0 <= i < j < |files| :: files[i].order < files[j].order
  }

  /** Every readable file among the first n picked ones is kept. */
  predicate KeepsReadable(ps: seq<PickedFile>, files: seq<AudioFile>, n: nat)
    requires n <= |ps|
  {
    forall p | 0 <= p < n && ps[p].properties.Some? :: exists i | 0 <= i < |files| :: files[i].order == p
  }

  /** Picking keeps only readable files, each built from the picked file at position
      `order`, and keeps them in picker order: the orders strictly increase, with gaps
      where files were skipped. */
  lemma {:induction false} PickedPrefixSources(ps: seq<PickedFile>, n: nat)
    requires n <= |ps|
    ensures BuiltFromPicked(ps, PickedPrefix(ps, n), n)
    ensures OrdersIncrease(PickedPrefix(ps, n))
  {
    if n > 0 {
      PickedPrefixSources(ps, n - 1);
      var kept := PickedPrefix(ps, n - 1);
      if ps[n - 1].properties.Some? {
        SourcesAppend(ps, kept, n);
      } else {
        SourcesSkip(ps, kept, n);
      }
    }
  }

  lemma SourcesAppend(ps: seq<PickedFile>, kept: seq<AudioFile>, n: nat)
    requires 0 < n <= |ps| && ps[n - 1].properties.Some?
    requires BuiltFromPicked(ps, kept, n - 1) && OrdersIncrease(kept)
    ensures BuiltFromPicked(ps, kept + [CreateAudioFile(ps[n - 1], n - 1)], n)
    ensures OrdersIncrease(kept + [CreateAudioFile(ps[n - 1], n - 1)])
  {
    var files := kept + [CreateAudioFile(ps[n - 1], n - 1)];
    forall i | 0 <= i < |files|
      ensures && 0 <= files[i].order < n
              && ps[files[i].order].properties.Some?
              && files[i] == CreateAudioFile(ps[files[i].order], files[i].order)
    {
      if i < |kept| {
        assert files[i] == kept[i];
      }
    }
    forall i, j | 0 <= i < j < |files| ensures files[i].order < files[j].order {
      assert files[i] == kept[i];
      if j < |kept| {
        assert files[j] == kept[j];
      }
    }
  }

  lemma SourcesSkip(ps: seq<PickedFile>, kept: seq<AudioFile>, n: nat)
    requires 0 < n <= |ps|
    requires BuiltFromPicked(ps, kept, n - 1)
    ensures BuiltFromPicked(ps, kept, n)
  {
  }

  /** Every readable file is kept. */
  lemma {:induction false} PickedPrefixComplete(ps: seq<PickedFile>, n: nat)
    requires n <= |ps|
    ensures KeepsReadable(ps, PickedPrefix(ps, n), n)
  {
    if n > 0 {
      PickedPrefixComplete(ps, n - 1);
      var kept := PickedPrefix(ps, n - 1);
      if ps[n - 1].properties.Some? {
        KeepsReadableAppend(ps, kept, CreateAudioFile(ps[n - 1], n - 1), n);
      } else {
        KeepsReadableSkip(ps, kept, n);
      }
    }
  }

  lemma KeepsReadableAppend(ps: seq<PickedFile>, kept: seq<AudioFile>, last: AudioFile, n: nat)
    requires 0 < n <= |ps| && last.order == n - 1
    requires KeepsReadable(ps, kept, n - 1)
    ensures KeepsReadable(ps, kept + [last], n)
  {
    var files := kept + [last];
    forall p | 0 <= p < n && ps[p].properties.Some?
      ensures exists i | 0 <= i < |files| :: files[i].order == p
    {
      if p < n - 1 {
        var i :| 0 <= i < |kept| && kept[i].order == p;
        assert files[i] == kept[i];
      } else {
        assert files[|kept|] == last;
      }
    }
  }

  lemma KeepsReadableSkip(ps: seq<PickedFile>, kept: seq<AudioFile>, n: nat)
    requires 0 < n <= |ps| && ps[n - 1].properties.None?
    requires KeepsReadable(ps, kept, n - 1)
    ensures KeepsReadable(ps, kept, n)
  {
  }

  /** When every picked file is readable, the orders are exactly the positions 0, 1, ... */
  lemma {:induction false} PickedAllReadable(ps: seq<PickedFile>, n: nat)
    requires n <= |ps|
    requires forall p | 0 <= p < |ps| :: ps[p].properties.Some?
    ensures |PickedPrefix(ps, n)| == n && IsNumbered(PickedPrefix(ps, n))
  {
    if n > 0 {
      PickedAllReadable(ps, n - 1);
      var kept := PickedPrefix(ps, n - 1);
      var last := CreateAudioFile(ps[n - 1], n - 1);
      assert PickedPrefix(ps, n) == kept + [last];
      NumberedSnoc(kept, last);
    }
  }

  lemma NumberedSnoc(files: seq<AudioFile>, last: AudioFile)
    requires IsNumbered(files) && last.order == |files|
    ensures IsNumbered(files + [last])
  {
    var longer := files + [last];
    forall i | 0 <= i < |longer| ensures longer[i].order == i {
      if i < |files| {
        assert longer[i] == files[i];
      }
    }
  }

  // ---------------------------------------------------------------- reopening a file

  const CouldNotAccessMessage := "Could not access file: "
  const NoPathOrTokenMessage := "No valid path or token for file: "

  /**
   * `GetStorageFileAsync`: the future-access token is tried first, the path second.
   * `fromToken` and `fromPath` stand for the two storage lookups (None when they throw).
   */
  function GetStorageFile<F>(file: AudioFile, fromToken: string -> Option<F>, fromPath: string -> Option<F>): (r: Result<F, string>)
    ensures r.Success? <==>
      (file.token != "" && fromToken(file.token).Some?) || (file.filePath != "" && fromPath(file.filePath).Some?)
    ensures file.token != "" && fromToken(file.token).Some? ==> r == Success(fromToken(file.token).value)
    ensures !(file.token != "" && fromToken(file.token).Some?) && file.filePath != "" && fromPath(file.filePath).Some? ==>
      r == Success(fromPath(file.filePath).value)
    ensures r.Failure? && file.filePath != "" ==> r.error == CouldNotAccessMessage + file.fileName
    ensures r.Failure? && file.filePath == "" ==> r.error == NoPathOrTokenMessage + file.fileName
  {
    if file.token != "" && fromToken(file.token).Some? then
      Success(fromToken(file.token).value)
    else if file.filePath != "" then
      match fromPath(file.filePath)
      case Some(f) => Success(f)
      case None => Failure(CouldNotAccessMessage + file.fileName)
    else
      Failure(NoPathOrTokenMessage + file.fileName)
  }
}
