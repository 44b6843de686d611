/**
 * The evidence-gathering intake form (src/components/Step1_FNOL.tsx): three
 * evidence lists (photos, videos, documents), a free-text description, a voice
 * recording, and the "Generate FNOL Summary" button that either asks the AI
 * service for an intake record or falls back to a sample one.
 *
 * Browser pieces are inputs: a picked file is a `PickedFile`, the object URL the
 * browser creates for it is passed in, `Date.now()` is the `stamp` string, the
 * AI call is an `Outcome`, and Math.random is the real `r` in [0, 1).
 */
module FnolIntake {
  import opened Basics
  import opened ClaimTypes
  import SampleData

  /** A file chosen in a file input (the parts of `File` the form keeps). */
  datatype PickedFile = PickedFile(name: string, sizeBytes: nat)

  /** A recorded audio clip. */
  datatype AudioClip = AudioClip(sizeBytes: nat)

  /** An entry of one of the evidence lists. */
  datatype Evidence = Evidence(id: string, name: string, kind: string, preview: string, file: PickedFile)

  /** The three lists differ in their id prefix and in whether they get a preview URL. */
  datatype EvidenceList = Images | Videos | Docs

  function IdPrefix(list: EvidenceList): string
  {
    match list
    case Images => "uploaded-img-"
    case Videos => "uploaded-vid-"
    case Docs => "uploaded-doc-"
  }

  /** `${prefix}${Date.now()}-${idx}`. */
  function EntryId(list: EvidenceList, stamp: string, idx: nat): string
  {
    IdPrefix(list) + stamp + "-" + NatToString(idx)
  }

  /** Within one upload the entries get distinct ids. */
  lemma EntryIdsDistinct(list: EvidenceList, stamp: string, i: nat, j: nat)
    requires i != j
    ensures EntryId(list, stamp, i) != EntryId(list, stamp, j)
  {
    var p := IdPrefix(list) + stamp + "-";
    if EntryId(list, stamp, i) == EntryId(list, stamp, j) {
      assert EntryId(list, stamp, i)[|p|..] == NatToString(i);
      assert EntryId(list, stamp, j)[|p|..] == NatToString(j);
      NatToStringInjective(i, j);
    }
  }

  /**
   * The entries one upload creates, in file order; `urls` are the object URLs
   * the browser hands out for photos and videos (documents get no preview).
   */
  function NewEntries(list: EvidenceList, files: seq<PickedFile>, stamp: string, urls: seq<string>): (r: seq<Evidence>)
    requires |urls| == |files|
    ensures |r| == |files|
    ensures forall i :: 0 <= i < |r| ==>
              r[i].file == files[i] && r[i].name == files[i].name && r[i].kind == "User Upload"
              && r[i].id == EntryId(list, stamp, i)
              && r[i].preview == (if list == Docs then "" else urls[i])
  {
    seq(|files|, i requires 0 <= i < |files| =>
      Evidence(EntryId(list, stamp, i), files[i].name, "User Upload",
               if list == Docs then "" else urls[i], files[i]))
  }

  /**
   * An upload handler's effect on its list: nothing when no file was chosen,
   * otherwise the new entries after the existing ones.
   */
  function AppendUpload(prev: seq<Evidence>, list: EvidenceList, files: Option<seq<PickedFile>>,
                        stamp: string, urls: seq<string>): (r: seq<Evidence>)
    requires files.Some? ==> |urls| == |files.value|
    ensures files.None? || files.value == [] ==> r == prev
    ensures files.Some? ==> |r| == |prev| + |files.value|
    ensures |r| >= |prev| && r[..|prev|] == prev
    ensures files.Some? ==> r[|prev|..] == NewEntries(list, files.value, stamp, urls)
  {
    if files.None? || files.value == [] then prev
    else prev + NewEntries(list, files.value, stamp, urls)
  }

  /** `prev.filter(e => e.id !== id)`. */
  function RemoveById(prev: seq<Evidence>, id: string): (r: seq<Evidence>)
    ensures forall i :: 0 <= i < |r| ==> r[i].id != id && r[i] in prev
    ensures forall i :: 0 <= i < |prev| && prev[i].id != id ==> prev[i] in r
    ensures (forall i :: 0 <= i < |prev| ==> prev[i].id != id) ==> r == prev
  {
    var keep := (e: Evidence) => e.id != id;
    FilterMembers(prev, keep);
    Filter(prev, keep)
  }

  /** Removing an entry that was there before an upload leaves the uploaded entries last, in order. */
  lemma {:induction false} RemoveKeepsLaterUpload(prev: seq<Evidence>, added: seq<Evidence>, id: string)
    requires forall i :: 0 <= i < |added| ==> added[i].id != id
    ensures RemoveById(prev + added, id) == RemoveById(prev, id) + added
  {
    FilterAppend(prev, added, (e: Evidence) => e.id != id);
  }

  // ---------------------------------------------------------------------------
  // The generate decision

  /**
   * handleGenerate asks the AI service when the trimmed description is
   * non-empty or there is a photo, a recording or a document; videos play no part.
   */
  predicate UsesAi(description: string, images: seq<Evidence>, audio: Option<AudioClip>, docs: seq<Evidence>)
  {
    |Trim(description)| > 0 || |images| > 0 || audio.Some? || |docs| > 0
  }

  /** The button is disabled when the description is empty and there is no photo and no recording. */
  predicate GenerateDisabled(description: string, images: seq<Evidence>, audio: Option<AudioClip>)
  {
    description == "" && |images| == 0 && audio.None?
  }

  /** The AI path is taken exactly when the description has a non-whitespace character or other evidence exists. */
  lemma UsesAiIffEvidence(description: string, images: seq<Evidence>, audio: Option<AudioClip>, docs: seq<Evidence>)
    ensures UsesAi(description, images, audio, docs) <==>
              !IsBlank(description) || |images| > 0 || audio.Some? || |docs| > 0
  {
    TrimEmptyIffBlank(description);
  }

  /**
   * The button and the decision disagree on whitespace: a description of only
   * whitespace enables the button, and the click then takes the sample-data path.
   */
  lemma WhitespaceEnablesButTakesSample(description: string)
    requires description != "" && IsBlank(description)
    ensures !GenerateDisabled(description, [], None)
    ensures !UsesAi(description, [], None, [])
  {
    TrimEmptyIffBlank(description);
  }

  /** The button also ignores documents: with only documents it stays disabled though the AI path would apply. */
  lemma DocumentsAloneKeepButtonDisabled(docs: seq<Evidence>)
    requires docs != []
    ensures GenerateDisabled("", [], None)
    ensures UsesAi("", [], None, docs)
  {
  }

  /** Whenever the button is enabled, what the click does is decided by UsesAi; with it disabled, only documents could make it use AI. */
  lemma DisabledMeansNoAiUnlessDocs(description: string, images: seq<Evidence>, audio: Option<AudioClip>, docs: seq<Evidence>)
    requires GenerateDisabled(description, images, audio)
    ensures UsesAi(description, images, audio, docs) <==> docs != []
  {
  }

  datatype FormEffect = SetFnol(data: FnolData) | Next

  /**
   * The record handleGenerate hands on: the AI answer when the AI path is taken
   * and the call resolves, otherwise the sample record (on the empty-form path and
   * when the call throws).
   */
  function GeneratedRecord(usesAi: bool, ai: Outcome<FnolData>, r: real, loadedAt: string): (d: FnolData)
    requires 0.0 <= r < 1.0
    ensures usesAi && ai.Resolved? ==> d == ai.value
    ensures !(usesAi && ai.Resolved?) ==> d in SampleData.FnolVariants(loadedAt)
  {
    if usesAi && ai.Resolved? then ai.value
    else
      var sample := SampleData.GenerateDummyData(r, loadedAt);
      SampleData.TablesHaveTenEntries(loadedAt);
      sample.fnol
  }

  // ---------------------------------------------------------------------------
  // The component

  class FnolForm {
    var isGenerating: bool
    var description: string
    var images: seq<Evidence>
    var videos: seq<Evidence>
    var docs: seq<Evidence>
    var isRecording: bool
    var recorderPresent: bool
    var audioBlob: Option<AudioClip>
    var audioUrl: Option<string>

    constructor ()
      ensures !isGenerating && description == ""
      ensures images == [] && videos == [] && docs == []
      ensures !isRecording && !recorderPresent && audioBlob == None && audioUrl == None
    {
      isGenerating := false;
      description := "";
      images := [];
      videos := [];
      docs := [];
      isRecording := false;
      recorderPresent := false;
      audioBlob := None;
      audioUrl := None;
    }

    method SetDescription(text: string)
      modifies this
      ensures description == text
      ensures images == old(images) && videos == old(videos) && docs == old(docs)
      ensures audioBlob == old(audioBlob) && audioUrl == old(audioUrl)
      ensures isRecording == old(isRecording) && recorderPresent == old(recorderPresent)
      ensures isGenerating == old(isGenerating)
    {
      description := text;
    }

    /** handleImageUpload, handleVideoUpload and handleDocUpload: only the chosen list changes. */
    method HandleUpload(list: EvidenceList, files: Option<seq<PickedFile>>, stamp: string, urls: seq<string>)
      requires files.Some? ==> |urls| == |files.value|
      modifies this
      ensures images == (if list == Images then AppendUpload(old(images), list, files, stamp, urls) else old(images))
      ensures videos == (if list == Videos then AppendUpload(old(videos), list, files, stamp, urls) else old(videos))
      ensures docs == (if list == Docs then AppendUpload(old(docs), list, files, stamp, urls) else old(docs))
      ensures description == old(description) && audioBlob == old(audioBlob) && audioUrl == old(audioUrl)
      ensures isRecording == old(isRecording) && recorderPresent == old(recorderPresent)
      ensures isGenerating == old(isGenerating)
    {
      if files.None? || files.value == [] {
        return;
      }
      match list {
        case Images => images := AppendUpload(images, list, files, stamp, urls);
        case Videos => videos := AppendUpload(videos, list, files, stamp, urls);
        case Docs => docs := AppendUpload(docs, list, files, stamp, urls);
      }
    }

    /** removeImage, removeVideo and removeDoc: only the chosen list changes. */
    method Remove(list: EvidenceList, id: string)
      modifies this
      ensures images == (if list == Images then RemoveById(old(images), id) else old(images))
      ensures videos == (if list == Videos then RemoveById(old(videos), id) else old(videos))
      ensures docs == (if list == Docs then RemoveById(old(docs), id) else old(docs))
      ensures description == old(description) && audioBlob == old(audioBlob) && audioUrl == old(audioUrl)
      ensures isRecording == old(isRecording) && recorderPresent == old(recorderPresent)
      ensures isGenerating == old(isGenerating)
    {
      match list {
        case Images => images := RemoveById(images, id);
        case Videos => videos := RemoveById(videos, id);
        case Docs => docs := RemoveById(docs, id);
      }
    }

    predicate ButtonDisabled()
      reads this
    {
      GenerateDisabled(description, images, audioBlob)
    }

    /**
     * handleGenerate, with the AI call's outcome and the random draw as inputs:
     * on every path the record is set once and the wizard advances once, and the
     * busy flag ends cleared. The lists and the recording are untouched.
     */
    method HandleGenerate(ai: Outcome<FnolData>, r: real, loadedAt: string) returns (effects: seq<FormEffect>)
      requires 0.0 <= r < 1.0
      modifies this
      ensures effects == [SetFnol(GeneratedRecord(UsesAi(description, images, audioBlob, docs), ai, r, loadedAt)), Next]
      ensures !isGenerating
      ensures description == old(description) && images == old(images) && videos == old(videos) && docs == old(docs)
      ensures audioBlob == old(audioBlob) && audioUrl == old(audioUrl)
      ensures isRecording == old(isRecording) && recorderPresent == old(recorderPresent)
    {
      isGenerating := true;
      var record: FnolData;
      if UsesAi(description, images, audioBlob, docs) && ai.Resolved? {
        record := ai.value;
      } else {
        record := SampleData.GenerateDummyData(r, loadedAt).fnol;
      }
      effects := [SetFnol(record), Next];
      isGenerating := false;
    }

    /** startRecording: with microphone access a recorder starts; without it nothing changes. */
    method StartRecording(granted: bool)
      modifies this
      ensures isRecording == (granted || old(isRecording))
      ensures recorderPresent == (granted || old(recorderPresent))
      ensures audioBlob == old(audioBlob) && audioUrl == old(audioUrl)
      ensures description == old(description) && images == old(images) && videos == old(videos) && docs == old(docs)
      ensures isGenerating == old(isGenerating)
    {
      if granted {
        recorderPresent := true;
        isRecording := true;
      }
    }

    /** stopRecording: does nothing unless a recorder exists and is recording. */
    method StopRecording()
      modifies this
      ensures isRecording == (old(isRecording) && !old(recorderPresent))
      ensures recorderPresent == old(recorderPresent)
      ensures audioBlob == old(audioBlob) && audioUrl == old(audioUrl)
      ensures description == old(description) && images == old(images) && videos == old(videos) && docs == old(docs)
      ensures isGenerating == old(isGenerating)
    {
      if recorderPresent && isRecording {
        isRecording := false;
      }
    }

    /** The recorder's onstop callback stores the clip and its object URL. */
    method RecorderStopped(clip: AudioClip, url: string)
      modifies this
      ensures audioBlob == Some(clip) && audioUrl == Some(url)
      ensures isRecording == old(isRecording) && recorderPresent == old(recorderPresent)
      ensures description == old(description) && images == old(images) && videos == old(videos) && docs == old(docs)
      ensures isGenerating == old(isGenerating)
    {
      audioBlob := Some(clip);
      audioUrl := Some(url);
    }

    /** "Delete Recording" clears both the clip and its URL. */
    method DeleteRecording()
      modifies this
      ensures audioBlob == None && audioUrl == None
      ensures isRecording == old(isRecording) && recorderPresent == old(recorderPresent)
      ensures description == old(description) && images == old(images) && videos == old(videos) && docs == old(docs)
      ensures isGenerating == old(isGenerating)
    {
      audioBlob := None;
      audioUrl := None;
    }
  }
}
