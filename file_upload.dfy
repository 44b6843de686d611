/**
 * The drag-and-drop upload box (components/FileUpload.tsx): the list of
 * previews it shows, the simulated per-file progress driven by an interval
 * timer, removal, and the drag highlight.
 *
 * Each interval started by processFiles is a `Ticker` kept in the component;
 * one firing of an interval is a call of `Tick` with the random increment
 * (`Math.random() * 20`) as input. Object URLs are inputs too.
 */
module FileUpload {
  import opened Basics

  datatype PickedFile = PickedFile(name: string, sizeBytes: nat)

  datatype Variant = Image | Video | Document | Invoice

  datatype FilePreview = FilePreview(file: PickedFile, previewUrl: Option<string>, progress: real, completed: bool)

  /** A running (or finished) progress interval: the list index it writes to and its own running total. */
  datatype Ticker = Ticker(globalIndex: int, progress: real, running: bool)

  /** Single mode keeps only the first selected file. */
  function ToProcess(multiple: bool, selected: seq<PickedFile>): (r: seq<PickedFile>)
    requires |selected| > 0
    ensures multiple ==> r == selected
    ensures !multiple ==> |r| == 1 && r[0] == selected[0]
  {
    if multiple then selected else [selected[0]]
  }

  /** Whether a variant shows a preview image: every one but plain documents. */
  predicate HasPreview(variant: Variant)
  {
    variant == Image || variant == Video || variant == Invoice
  }

  /** The previews of freshly chosen files: no progress yet, a URL only for previewable variants. */
  function NewPreviews(variant: Variant, files: seq<PickedFile>, urls: seq<string>): (r: seq<FilePreview>)
    requires |urls| == |files|
    ensures |r| == |files|
    ensures forall i :: 0 <= i < |r| ==>
              r[i].file == files[i] && r[i].progress == 0.0 && !r[i].completed
              && (r[i].previewUrl.Some? <==> HasPreview(variant))
              && (r[i].previewUrl.Some? ==> r[i].previewUrl.value == urls[i])
  {
    seq(|files|, i requires 0 <= i < |files| =>
      FilePreview(files[i], if HasPreview(variant) then Some(urls[i]) else None, 0.0, false))
  }

  /** Multiple mode appends after the existing previews; single mode replaces them. */
  function WithPreviews(prev: seq<FilePreview>, multiple: bool, previews: seq<FilePreview>): (r: seq<FilePreview>)
    ensures multiple ==> |r| == |prev| + |previews| && r[..|prev|] == prev && r[|prev|..] == previews
    ensures !multiple ==> r == previews
  {
    if multiple then prev + previews else previews
  }

  /**
   * One firing of an interval: the running total grows by the increment; once it
   * reaches 100 it is pinned to 100 and the interval stops.
   */
  function Advance(t: Ticker, increment: real): (r: Ticker)
    ensures r.globalIndex == t.globalIndex
    ensures t.progress + increment >= 100.0 ==> r.progress == 100.0 && !r.running
    ensures t.progress + increment < 100.0 ==> r.progress == t.progress + increment && r.running
  {
    var p := t.progress + increment;
    if p >= 100.0 then Ticker(t.globalIndex, 100.0, false) else Ticker(t.globalIndex, p, true)
  }

  /**
   * What an interval firing writes into the list: the entry at its index gets the
   * new progress (and is marked completed at 100); an index with no entry leaves
   * the list as it is.
   */
  function WriteProgress(files: seq<FilePreview>, idx: int, progress: real, done: bool): (r: seq<FilePreview>)
    ensures |r| == |files|
    ensures forall j :: 0 <= j < |files| && j != idx ==> r[j] == files[j]
    ensures 0 <= idx < |files| && done ==> r[idx] == files[idx].(progress := 100.0, completed := true)
    ensures 0 <= idx < |files| && !done ==> r[idx] == files[idx].(progress := progress)
    ensures !(0 <= idx < |files|) ==> r == files
  {
    if 0 <= idx < |files| then
      files[idx := if done then files[idx].(progress := 100.0, completed := true)
                   else files[idx].(progress := progress)]
    else files
  }

  /** `prev.filter((_, i) => i !== idx)`: the entry at idx goes, the others keep their order. */
  function RemoveAt(files: seq<FilePreview>, idx: int): (r: seq<FilePreview>)
    ensures 0 <= idx < |files| ==> |r| == |files| - 1
    ensures 0 <= idx < |files| ==> forall j :: 0 <= j < idx ==> r[j] == files[j]
    ensures 0 <= idx < |files| ==> forall j :: idx <= j < |r| ==> r[j] == files[j + 1]
    ensures !(0 <= idx < |files|) ==> r == files
  {
    if 0 <= idx < |files| then files[..idx] + files[idx + 1..] else files
  }

  /** The drag highlight after a drag event of the given type. */
  function DragActiveAfter(active: bool, eventType: string): bool
  {
    if eventType == "dragenter" || eventType == "dragover" then true
    else if eventType == "dragleave" then false
    else active
  }

  lemma DragEvents(active: bool, eventType: string)
    ensures eventType == "dragenter" || eventType == "dragover" ==> DragActiveAfter(active, eventType)
    ensures eventType == "dragleave" ==> !DragActiveAfter(active, eventType)
    ensures eventType != "dragenter" && eventType != "dragover" && eventType != "dragleave" ==>
              DragActiveAfter(active, eventType) == active
  {
  }

  /**
   * A progress value the list can show: within 0..100. (A completed entry need
   * not stay at 100: an interval started for an earlier selection still writes
   * to its index after single mode has replaced the list.)
   */
  predicate GoodPreview(p: FilePreview)
  {
    0.0 <= p.progress <= 100.0
  }

  /** An interval's total stays within 0..100, below 100 while it runs and at 100 once stopped. */
  predicate GoodTicker(t: Ticker)
  {
    0.0 <= t.progress <= 100.0 && (t.running <==> t.progress < 100.0)
  }

  predicate AllGood(files: seq<FilePreview>)
  {
    forall i :: 0 <= i < |files| ==> GoodPreview(files[i])
  }

  /** Writing an interval's progress keeps every preview good. */
  lemma WriteProgressKeepsGood(files: seq<FilePreview>, t: Ticker)
    requires AllGood(files) && GoodTicker(t)
    ensures AllGood(WriteProgress(files, t.globalIndex, t.progress, !t.running))
  {
    var r := WriteProgress(files, t.globalIndex, t.progress, !t.running);
    forall i | 0 <= i < |r|
      ensures GoodPreview(r[i])
    {
      assert GoodPreview(files[i]);
    }
  }

  /** Fresh previews are good, and adding them to good ones keeps the list good. */
  lemma WithNewPreviewsGood(prev: seq<FilePreview>, multiple: bool, variant: Variant, files: seq<PickedFile>, urls: seq<string>)
    requires |urls| == |files| && AllGood(prev)
    ensures AllGood(WithPreviews(prev, multiple, NewPreviews(variant, files, urls)))
  {
    var added := NewPreviews(variant, files, urls);
    var r := WithPreviews(prev, multiple, added);
    forall i | 0 <= i < |r|
      ensures GoodPreview(r[i])
    {
      if multiple && i < |prev| {
        assert r[i] == prev[i];
      } else {
        assert r[i] == added[if multiple then i - |prev| else i];
      }
    }
  }

  class Uploader {
    const multiple: bool
    const variant: Variant
    var dragActive: bool
    var files: seq<FilePreview>
    var tickers: seq<Ticker>

    predicate Valid()
      reads this
    {
      && AllGood(files)
      && (forall k :: 0 <= k < |tickers| ==> GoodTicker(tickers[k]))
    }

    constructor (multiple: bool, variant: Variant)
      ensures this.multiple == multiple && this.variant == variant
      ensures !dragActive && files == [] && tickers == []
      ensures Valid()
    {
      this.multiple := multiple;
      this.variant := variant;
      dragActive := false;
      files := [];
      tickers := [];
    }

    method HandleDrag(eventType: string)
      modifies this
      ensures dragActive == DragActiveAfter(old(dragActive), eventType)
      ensures files == old(files) && tickers == old(tickers)
    {
      dragActive := DragActiveAfter(dragActive, eventType);
    }

    /**
     * processFiles: reports the files it keeps, shows their previews and starts
     * one interval per new preview, aimed at the preview's index in the list.
     */
    method ProcessFiles(selected: seq<PickedFile>, urls: seq<string>) returns (reported: seq<PickedFile>)
      requires |selected| > 0 && |urls| == |ToProcess(multiple, selected)|
      requires Valid()
      modifies this
      ensures reported == ToProcess(multiple, selected)
      ensures files == WithPreviews(old(files), multiple, NewPreviews(variant, reported, urls))
      ensures |tickers| == |old(tickers)| + |reported|
      ensures tickers[..|old(tickers)|] == old(tickers)
      ensures forall j :: |old(tickers)| <= j < |tickers| ==>
                tickers[j] == Ticker((if multiple then |old(files)| else 0) + j - |old(tickers)|, 0.0, true)
      ensures dragActive == old(dragActive)
      ensures Valid()
    {
      reported := ToProcess(multiple, selected);
      var previews := NewPreviews(variant, reported, urls);
      var base := if multiple then |files| else 0;
      WithNewPreviewsGood(files, multiple, variant, reported, urls);
      files := WithPreviews(files, multiple, previews);
      var started := tickers;
      for i := 0 to |previews|
        invariant files == WithPreviews(old(files), multiple, previews)
        invariant dragActive == old(dragActive)
        invariant |tickers| == |started| + i
        invariant tickers[..|started|] == started
        invariant forall j :: |started| <= j < |tickers| ==> tickers[j] == Ticker(base + j - |started|, 0.0, true)
        invariant forall k :: 0 <= k < |tickers| ==> GoodTicker(tickers[k])
      {
        tickers := tickers + [Ticker(base + i, 0.0, true)];
      }
    }

    /** One firing of interval k with the drawn increment (`Math.random() * 20`). */
    method Tick(k: int, increment: real)
      requires 0 <= k < |tickers| && tickers[k].running
      requires 0.0 <= increment < 20.0
      requires Valid()
      modifies this
      ensures tickers == old(tickers)[k := Advance(old(tickers)[k], increment)]
      ensures files == WriteProgress(old(files), tickers[k].globalIndex, tickers[k].progress, !tickers[k].running)
      ensures dragActive == old(dragActive)
      ensures Valid()
    {
      var t := Advance(tickers[k], increment);
      tickers := tickers[k := t];
      WriteProgressKeepsGood(files, t);
      files := WriteProgress(files, t.globalIndex, t.progress, !t.running);
    }

    method RemoveFile(idx: int)
      requires Valid()
      modifies this
      ensures files == RemoveAt(old(files), idx)
      ensures tickers == old(tickers) && dragActive == old(dragActive)
      ensures Valid()
    {
      files := RemoveAt(files, idx);
    }

    /**
     * A drop always clears the highlight; files are processed only if some were
     * dropped, and `reported` is what reaches onFilesSelected (nothing otherwise).
     */
    method HandleDrop(dropped: Option<seq<PickedFile>>, urls: seq<string>) returns (reported: Option<seq<PickedFile>>)
      requires dropped.Some? && dropped.value != [] ==> |urls| == |ToProcess(multiple, dropped.value)|
      requires Valid()
      modifies this
      ensures !dragActive
      ensures dropped.None? || dropped.value == [] ==>
                reported == None && files == old(files) && tickers == old(tickers)
      ensures dropped.Some? && dropped.value != [] ==>
                && reported == Some(ToProcess(multiple, dropped.value))
                && files == WithPreviews(old(files), multiple, NewPreviews(variant, reported.value, urls))
                && |tickers| == |old(tickers)| + |reported.value|
                && tickers[..|old(tickers)|] == old(tickers)
                && (forall j :: |old(tickers)| <= j < |tickers| ==>
                      tickers[j] == Ticker((if multiple then |old(files)| else 0) + j - |old(tickers)|, 0.0, true))
      ensures Valid()
    {
      dragActive := false;
      reported := None;
      if dropped.Some? && dropped.value != [] {
        var kept := ProcessFiles(dropped.value, urls);
        reported := Some(kept);
      }
    }

    /**
     * The file input's change event: processes the chosen files if there are
     * any, reporting them as processFiles does.
     */
    method HandleChange(chosen: Option<seq<PickedFile>>, urls: seq<string>) returns (reported: Option<seq<PickedFile>>)
      requires chosen.Some? && chosen.value != [] ==> |urls| == |ToProcess(multiple, chosen.value)|
      requires Valid()
      modifies this
      ensures dragActive == old(dragActive)
      ensures chosen.None? || chosen.value == [] ==>
                reported == None && files == old(files) && tickers == old(tickers)
      ensures chosen.Some? && chosen.value != [] ==>
                && reported == Some(ToProcess(multiple, chosen.value))
                && files == WithPreviews(old(files), multiple, NewPreviews(variant, reported.value, urls))
                && |tickers| == |old(tickers)| + |reported.value|
                && tickers[..|old(tickers)|] == old(tickers)
                && (forall j :: |old(tickers)| <= j < |tickers| ==>
                      tickers[j] == Ticker((if multiple then |old(files)| else 0) + j - |old(tickers)|, 0.0, true))
      ensures Valid()
    {
      reported := None;
      if chosen.Some? && chosen.value != [] {
        var kept := ProcessFiles(chosen.value, urls);
        reported := Some(kept);
      }
    }
  }
}
