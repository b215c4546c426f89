/**
 * The contributor's recording flow (`ContributorPortal`): a six-step screen machine
 * (1 welcome, 2 choose a prompt, 3 tips, 4 recording, 6 review, 5 sent) around a
 * media recorder whose data chunks are buffered and turned into one blob when it stops.
 *
 * The camera is a parameter of `StartRecording` (`None` when access is refused, else
 * the number of tracks of the stream), the random quality scores are parameters of
 * `SampleQuality`, and the recorder's events are methods the browser calls.
 */
module Capture {
  import opened Wrappers
  import opened Domain
  import opened BlobUrls
  import Seqs
  import Gemini
  import Storage

  /** The steps a single handler may move between. */
  predicate Transition(from: nat, to: nat)
  {
    (from, to) in {(1, 2), (2, 3), (2, 1), (3, 2), (3, 4), (4, 6), (6, 3), (6, 5)}
  }

  /**
   * Every move stays within steps 1 to 6, step 5 is final, recording (4) is entered only
   * from the tips (3), review (6) only from recording, and the sent screen (5) only
   * from review.
   */
  lemma TransitionFacts(from: nat, to: nat)
    requires Transition(from, to)
    ensures 1 <= from <= 6 && 1 <= to <= 6 && from != to && from != 5
    ensures to == 4 ==> from == 3
    ensures to == 6 ==> from == 4
    ensures to == 5 ==> from == 6
  {
  }

  /** The simulated quality sample; the source's 0/1 scores are booleans here. */
  datatype Quality = Quality(light: bool, sound: bool, frame: bool)

  const PerfectTip := "Perfect! You look and sound great."
  const WindowTip := "Try facing a window for better light."
  const NoiseTip := "It's a bit noisy\U{2014}try a quieter spot."

  /** The tip the quality effect sets. */
  function DirectorTip(light: bool, sound: bool): string
  {
    if light && sound then PerfectTip
    else if !light then WindowTip
    else NoiseTip
  }

  /** Good light and sound earn praise; bad light wins over bad sound; bad sound alone gets the noise tip. */
  lemma DirectorTipRule(light: bool, sound: bool)
    ensures DirectorTip(light, sound) == PerfectTip <==> light && sound
    ensures DirectorTip(light, sound) == WindowTip <==> !light
    ensures DirectorTip(light, sound) == NoiseTip <==> light && !sound
  {
    assert |PerfectTip| != |WindowTip| && |PerfectTip| != |NoiseTip| && |WindowTip| != |NoiseTip|;
  }

  /** `isEverythingGood` */
  predicate IsEverythingGood(q: Quality)
  {
    q.light && q.sound && q.frame
  }

  /** The chunk buffer after one `dataavailable` event: empty chunks are ignored. */
  function Received(chunks: seq<Blob>, b: Blob): seq<Blob>
  {
    if b.Size() > 0 then chunks + [b] else chunks
  }

  /** The chunk buffer after a series of `dataavailable` events. */
  function Buffered(chunks: seq<Blob>, events: seq<Blob>): seq<Blob>
    decreases |events|
  {
    if events == [] then chunks else Buffered(Received(chunks, events[0]), events[1..])
  }

  predicate NonEmpty(b: Blob) { b.Size() > 0 }

  /** After any series of events the buffer holds the non-empty chunks, in arrival order. */
  lemma {:induction false} BufferedKeepsNonEmpty(chunks: seq<Blob>, events: seq<Blob>)
    ensures Buffered(chunks, events) == chunks + Seqs.Filter(NonEmpty, events)
    decreases |events|
  {
    if events != [] {
      BufferedKeepsNonEmpty(Received(chunks, events[0]), events[1..]);
      assert Seqs.Filter(NonEmpty, events)
          == (if NonEmpty(events[0]) then [events[0]] else []) + Seqs.Filter(NonEmpty, events[1..]);
    }
  }

  /** The review screen is shown at step 6 only while there is a video URL. */
  predicate ReviewVisible(step: nat, videoUrl: Option<ObjectUrl>)
  {
    step == 6 && videoUrl.Some?
  }

  const VideoMime := "video/webm"

  class Portal {
    var step: nat
    var prompts: seq<string>
    var activePromptIndex: nat
    var isUploading: bool
    var isRecording: bool
    var videoUrl: Option<ObjectUrl>
    var quality: Quality
    var directorTip: string
    /** `mediaRecorderRef.current !== null` */
    var hasRecorder: bool
    /** The recorder was told to stop and its `stop` event is still to come. */
    var stopRequested: bool
    var chunks: seq<Blob>
    /** Whether each track of the current stream is still live. */
    var tracks: seq<bool>
    const urls: UrlRegistry
    /** The values `isUploading` was set to, in order. */
    ghost var uploadingLog: seq<bool>

    /** Recording and a pending stop both happen on the recording screen. */
    ghost predicate Valid()
      reads this, urls
    {
      && 1 <= step <= 6
      && (isRecording ==> step == 4 && hasRecorder)
      && (stopRequested ==> step == 4 && !isRecording)
      && urls.Valid()
    }

    /** The first render; the quality effect then runs once with the zero scores. */
    constructor (urls: UrlRegistry)
      requires urls.Valid()
      ensures Valid() && this.urls == urls
      ensures step == 1 && prompts == [] && activePromptIndex == 0
      ensures !isUploading && !isRecording && videoUrl.None? && !hasRecorder && !stopRequested
      ensures quality == Quality(false, false, false) && directorTip == DirectorTip(false, false)
      ensures chunks == [] && tracks == [] && uploadingLog == []
    {
      step := 1;
      prompts := [];
      activePromptIndex := 0;
      isUploading := false;
      isRecording := false;
      videoUrl := None;
      quality := Quality(false, false, false);
      directorTip := DirectorTip(false, false);
      hasRecorder := false;
      stopRequested := false;
      chunks := [];
      tracks := [];
      this.urls := urls;
      uploadingLog := [];
    }

    /** The prompt request on mount. */
    method FetchPrompts(project: Project, oracle: string -> Option<seq<string>>)
      requires Valid()
      modifies this`prompts
      ensures Valid()
      ensures prompts == Gemini.ContributorPrompts(MilestoneLabel(project.milestone), project.recipientName, oracle)
      ensures step == old(step) && activePromptIndex == old(activePromptIndex) && videoUrl == old(videoUrl)
      ensures isRecording == old(isRecording) && chunks == old(chunks)
    {
      prompts := Gemini.ContributorPrompts(MilestoneLabel(project.milestone), project.recipientName, oracle);
    }

    /** "Get Started" */
    method GetStarted()
      requires Valid() && step == 1
      modifies this`step
      ensures Valid() && step == 2 && Transition(old(step), step)
      ensures prompts == old(prompts) && videoUrl == old(videoUrl) && chunks == old(chunks)
    {
      step := 2;
    }

    /** Choosing prompt `i` on step 2. */
    method ChoosePrompt(i: nat)
      requires Valid() && step == 2 && i < |prompts|
      modifies this`step, this`activePromptIndex
      ensures Valid() && step == 3 && Transition(old(step), step)
      ensures activePromptIndex == i && prompts == old(prompts) && videoUrl == old(videoUrl)
    {
      activePromptIndex := i;
      step := 3;
    }

    /** "Back" on step 2. */
    method BackToWelcome()
      requires Valid() && step == 2
      modifies this`step
      ensures Valid() && step == 1 && Transition(old(step), step)
      ensures activePromptIndex == old(activePromptIndex) && prompts == old(prompts)
    {
      step := 1;
    }

    /** "Choose Different Prompt" on step 3. */
    method ChooseDifferentPrompt()
      requires Valid() && step == 3
      modifies this`step
      ensures Valid() && step == 2 && Transition(old(step), step)
      ensures activePromptIndex == old(activePromptIndex) && prompts == old(prompts)
    {
      step := 2;
    }

    /**
     * "I'm Ready": with camera access, a new recorder starts on an emptied buffer and the
     * recording screen shows; without it, nothing changes.
     */
    method StartRecording(device: Option<nat>)
      requires Valid() && step == 3
      modifies this`hasRecorder, this`stopRequested, this`chunks, this`tracks, this`isRecording, this`step
      ensures Valid()
      ensures device.None? ==>
        && step == 3 && isRecording == old(isRecording) && chunks == old(chunks)
        && hasRecorder == old(hasRecorder) && tracks == old(tracks) && stopRequested == old(stopRequested)
      ensures device.Some? ==>
        && step == 4 && Transition(old(step), step) && isRecording && hasRecorder && !stopRequested
        && chunks == [] && |tracks| == device.value && forall k :: 0 <= k < |tracks| ==> tracks[k]
      ensures videoUrl == old(videoUrl) && prompts == old(prompts)
    {
      if device.None? {
        return;
      }
      hasRecorder := true;
      stopRequested := false;
      chunks := [];
      tracks := seq(device.value, _ => true);
      isRecording := true;
      step := 4;
    }

    /** The recorder's `dataavailable` event. */
    method OnDataAvailable(b: Blob)
      requires Valid()
      modifies this`chunks
      ensures Valid()
      ensures chunks == Received(old(chunks), b)
      ensures step == old(step) && isRecording == old(isRecording) && videoUrl == old(videoUrl)
    {
      if b.Size() > 0 {
        chunks := chunks + [b];
      }
    }

    /** The stop button: acts only on a recorder that is recording. */
    method StopRecording()
      requires Valid()
      modifies this`isRecording, this`stopRequested
      ensures Valid()
      ensures old(hasRecorder && isRecording) ==> !isRecording && stopRequested
      ensures !old(hasRecorder && isRecording) ==> isRecording == old(isRecording) && stopRequested == old(stopRequested)
      ensures step == old(step) && chunks == old(chunks) && videoUrl == old(videoUrl) && tracks == old(tracks)
    {
      if hasRecorder && isRecording {
        stopRequested := true;
        isRecording := false;
      }
    }

    /**
     * The recorder's `stop` event: the buffered chunks become one blob, a new URL is
     * minted for it, the review screen shows and every track of the stream stops.
     */
    method OnRecorderStop()
      requires Valid() && stopRequested
      modifies urls, this`videoUrl, this`step, this`tracks, this`stopRequested
      ensures Valid() && Transition(old(step), step) && step == 6 && !stopRequested && !isRecording
      ensures videoUrl.Some? && videoUrl.value !in old(urls.table)
      ensures urls.table == old(urls.table)[videoUrl.value := Blob(Concat(chunks), VideoMime)]
      ensures ReviewVisible(step, videoUrl)
      ensures chunks == old(chunks) && |tracks| == |old(tracks)| && forall k :: 0 <= k < |tracks| ==> !tracks[k]
    {
      var blob := Blob(Concat(chunks), VideoMime);
      var u := urls.CreateObjectUrl(blob);
      videoUrl := Some(u);
      step := 6;
      tracks := seq(|tracks|, _ => false);
      stopRequested := false;
    }

    /** "Record Again" on the review screen. */
    method RecordAgain()
      requires Valid() && ReviewVisible(step, videoUrl)
      modifies this`videoUrl, this`step
      ensures Valid() && step == 3 && Transition(old(step), step)
      ensures videoUrl.None? && !ReviewVisible(step, videoUrl)
      ensures prompts == old(prompts) && activePromptIndex == old(activePromptIndex)
    {
      videoUrl := None;
      step := 3;
    }

    /** "Submit Memory": uploading is shown, the upload runs without a listener, then the sent screen. */
    method FinalSubmit(suffix: string)
      requires Valid() && ReviewVisible(step, videoUrl)
      modifies this`isUploading, this`uploadingLog, this`step
      ensures Valid() && step == 5 && Transition(old(step), step)
      ensures !isUploading && uploadingLog == old(uploadingLog) + [true, false]
      ensures videoUrl == old(videoUrl) && chunks == old(chunks)
    {
      isUploading := true;
      uploadingLog := uploadingLog + [true];
      var path, reports := Storage.UploadMemory(false, suffix);
      isUploading := false;
      uploadingLog := uploadingLog + [false];
      step := 5;
    }

    /** One tick of the quality interval, which runs while recording or on step 4, and the tip effect it triggers. */
    method SampleQuality(light: bool, sound: bool)
      requires Valid() && (isRecording || step == 4)
      modifies this`quality, this`directorTip
      ensures Valid()
      ensures quality == Quality(light, sound, true) && directorTip == DirectorTip(light, sound)
      ensures IsEverythingGood(quality) <==> directorTip == PerfectTip
      ensures step == old(step) && isRecording == old(isRecording) && chunks == old(chunks)
    {
      quality := Quality(light, sound, true);
      directorTip := DirectorTip(light, sound);
      DirectorTipRule(light, sound);
    }
  }
}
