/** The pieces of the page controller (app.js) that decide something: the
    name of the downloaded file (app.js:250), the enabled state of the three
    buttons (app.js:49-53), the pause toggle (app.js:155-170) and the
    download guard (app.js:242-261). */
module App {
  import opened Audio
  import opened Transport
  import opened Wav

  // ---------------------------------------------------------------------
  // The download file name: name.replace(/\.[^/.]+$/, '') + '_8D.wav'
  // ---------------------------------------------------------------------

  /** The regular expression `\.[^/.]+$` matches at p: a dot, then at least
      one character, none of them '/' or '.', up to the end of the name. */
  ghost predicate ExtensionAt(name: string, p: int)
  {
    && 0 <= p < |name| - 1
    && name[p] == '.'
    && forall j :: p < j < |name| ==> name[j] != '.' && name[j] != '/'
  }

  /** Scans back from k for the match, knowing that name[k..] holds neither
      '.' nor '/'. */
  function ExtensionFrom(name: string, k: nat): (r: Option<nat>)
    requires k <= |name|
    requires forall j :: k <= j < |name| ==> name[j] != '.' && name[j] != '/'
    ensures r.Some? ==> ExtensionAt(name, r.value)
    ensures r.None? ==> forall p :: !ExtensionAt(name, p)
    decreases k
  {
    if k == 0 then None
    else if name[k - 1] == '/' then None
    else if name[k - 1] == '.' then (if k < |name| then Some(k - 1) else None)
    else ExtensionFrom(name, k - 1)
  }

  /** Where the match starts, if anywhere. */
  function Extension(name: string): (r: Option<nat>)
    ensures r.Some? ==> ExtensionAt(name, r.value)
    ensures r.None? ==> forall p :: !ExtensionAt(name, p)
  {
    ExtensionFrom(name, |name|)
  }

  /** The name of the downloaded file. */
  function DownloadFileName(name: string): (f: string)
    ensures Extension(name).None? ==> f == name + "_8D.wav"
    ensures Extension(name).Some? ==> f == name[..Extension(name).value] + "_8D.wav"
  {
    match Extension(name)
    case Some(p) => name[..p] + "_8D.wav"
    case None => name + "_8D.wav"
  }

  /** At most one position matches, and it is the last dot of the name. */
  lemma ExtensionUnique(name: string, p: int, q: int)
    requires ExtensionAt(name, p) && ExtensionAt(name, q)
    ensures p == q
  {
  }

  /** The result always ends in "_8D.wav" after a prefix of the name that
      keeps everything up to the last dot. */
  lemma DownloadFileNameShape(name: string)
    ensures var f := DownloadFileName(name);
      exists k :: 0 <= k <= |name| && f == name[..k] + "_8D.wav" &&
        (k == |name| || ExtensionAt(name, k))
  {
    var f := DownloadFileName(name);
    match Extension(name)
    case Some(p) =>
      assert f == name[..p] + "_8D.wav" && ExtensionAt(name, p);
    case None =>
      assert f == name[..|name|] + "_8D.wav";
  }

  lemma SongExample()
    ensures DownloadFileName("song.mp3") == "song_8D.wav"
  {
    assert ExtensionAt("song.mp3", 4);
    ExtensionIs("song.mp3", 4);
  }

  /** Only the last extension goes. */
  lemma TarGzExample()
    ensures DownloadFileName("a.tar.gz") == "a.tar_8D.wav"
  {
    assert ExtensionAt("a.tar.gz", 5);
    ExtensionIs("a.tar.gz", 5);
  }

  /** No dot: nothing is removed. */
  lemma NoDotExample()
    ensures DownloadFileName("noext") == "noext_8D.wav"
  {
    NoExtension("noext");
  }

  /** A trailing bare dot is not an extension. */
  lemma TrailingDotExample()
    ensures DownloadFileName("end.") == "end._8D.wav"
  {
    NoExtension("end.");
  }

  /** A dotfile loses its whole name. */
  lemma DotfileExample()
    ensures DownloadFileName(".bashrc") == "_8D.wav"
  {
    assert ExtensionAt(".bashrc", 0);
    ExtensionIs(".bashrc", 0);
  }

  /** A dot before the last '/' does not start an extension. */
  lemma SlashExample()
    ensures DownloadFileName("v1.0/take") == "v1.0/take_8D.wav"
  {
    var name := "v1.0/take";
    forall p | 0 <= p < |name| - 1 && name[p] == '.'
      ensures !ExtensionAt(name, p)
    {
      assert p == 2 && name[4] == '/';
    }
    NoExtension(name);
  }

  lemma ExtensionIs(name: string, p: nat)
    requires ExtensionAt(name, p)
    ensures DownloadFileName(name) == name[..p] + "_8D.wav"
  {
    ExtensionUnique(name, p, Extension(name).value);
  }

  lemma NoExtension(name: string)
    requires forall p :: !ExtensionAt(name, p)
    ensures DownloadFileName(name) == name + "_8D.wav"
  {
  }

  // ---------------------------------------------------------------------
  // Button states
  // ---------------------------------------------------------------------

  /** The `disabled` flags of the process, pause and download buttons. */
  datatype Buttons = Buttons(processDisabled: bool, pauseDisabled: bool, downloadDisabled: bool)

  /** updateButtonStates (app.js:49-53). */
  function ButtonStates(hasFile: bool, processingStarted: bool, hasBlob: bool): (b: Buttons)
    ensures b.processDisabled ==> b.pauseDisabled
    ensures !b.pauseDisabled ==> hasFile && processingStarted
    ensures b.downloadDisabled != hasBlob
  {
    Buttons(!hasFile, !hasFile || !processingStarted, !hasBlob)
  }

  /** Each flag is set exactly in the case the page forbids the action, and
      pause is never offered while processing is not. */
  lemma ButtonRules(hasFile: bool, processingStarted: bool, hasBlob: bool)
    ensures var b := ButtonStates(hasFile, processingStarted, hasBlob);
      && (b.processDisabled <==> !hasFile)
      && (b.pauseDisabled <==> !hasFile || !processingStarted)
      && (b.downloadDisabled <==> !hasBlob)
      && (b.processDisabled ==> b.pauseDisabled)
  {
  }

  // ---------------------------------------------------------------------
  // The pause toggle
  // ---------------------------------------------------------------------

  /** togglePause's effect on the transport (app.js:155-170). */
  function Toggled(t: TransportState, contextReady: bool, now: real): (r: TransportState)
    ensures r.processingStarted == t.processingStarted && r.promise == t.promise
    ensures Position(r, now) == Position(t, now)
    ensures !t.processingStarted || !contextReady ==> r == t
    ensures t.processingStarted && contextReady ==> r.isPaused == !t.isPaused
  {
    if !t.processingStarted then t
    else if t.isPaused then Resumed(t, contextReady, now)
    else Paused(t, contextReady, now)
  }

  /** Two toggles from playing return to playing, with the time between
      them excluded from the position. */
  lemma ToggleTwice(t: TransportState, contextReady: bool, now: real, later: real, end: real)
    requires t.processingStarted && !t.isPaused && contextReady
    ensures var u := Toggled(Toggled(t, contextReady, now), contextReady, later);
      && u.processingStarted && !u.isPaused
      && u.promise == t.promise
      && Position(u, end) == Position(t, now) + (end - later)
  {
    PauseTimeExcluded(t, contextReady, now, later, end);
  }

  /** Before playback starts the toggle does nothing. */
  lemma ToggleIdle(t: TransportState, contextReady: bool, now: real)
    requires !t.processingStarted
    ensures Toggled(t, contextReady, now) == t
  {
  }

  // ---------------------------------------------------------------------
  // The page
  // ---------------------------------------------------------------------

  datatype StatusKind = Success | Failure

  /** A message shown by showStatusMessage. */
  datatype Status = Status(message: string, kind: StatusKind)

  /** A download the page triggered: the anchor's file name and the bytes. */
  datatype Download = Download(fileName: string, data: seq<byte>)

  /** How a click on the download button ends: the download starts, the
      error message for a missing blob is shown, or `selectedFile.name`
      throws a TypeError because the file was cleared while a blob remained. */
  datatype DownloadOutcome = DownloadStarted | NoBlob | MissingFile

  /** A selected file: the page keeps only its name. */
  datatype SelectedFile = SelectedFile(name: string)

  class Page {
    var selectedFile: Option<SelectedFile>
    var processedAudioBlob: Option<seq<byte>>
    var buttons: Buttons
    var pauseLabel: string
    var status: Option<Status>
    var downloads: seq<Download>
    const processor: AudioProcessor

    constructor (processor: AudioProcessor)
      ensures this.processor == processor
      ensures selectedFile.None? && processedAudioBlob.None? && downloads == [] && status.None?
    {
      this.processor := processor;
      selectedFile := None;
      processedAudioBlob := None;
      buttons := Buttons(false, false, false);
      pauseLabel := "Pausar";
      status := None;
      downloads := [];
    }

    /** updateButtonStates (app.js:49-53). */
    method UpdateButtonStates()
      modifies this`buttons
      ensures buttons == ButtonStates(selectedFile.Some?, processor.processingStarted, processedAudioBlob.Some?)
    {
      buttons := Buttons(selectedFile.None?,
                         selectedFile.None? || !processor.processingStarted,
                         processedAudioBlob.None?);
    }

    /** togglePause (app.js:155-170). */
    method TogglePause(now: real)
      modifies this`pauseLabel, processor`offsetTime, processor`isPaused, processor`startTime,
               processor`suspended
      ensures processor.State() == Toggled(old(processor.State()), processor.contextReady, now)
      ensures old(processor.processingStarted) && old(processor.isPaused) ==> pauseLabel == "Pausar"
      ensures old(processor.processingStarted) && !old(processor.isPaused) ==> pauseLabel == "Continuar"
      ensures !old(processor.processingStarted) ==> pauseLabel == old(pauseLabel)
      ensures processor.contextReady == old(processor.contextReady)
      ensures processor.audioBuffer == old(processor.audioBuffer)
    {
      if !processor.processingStarted {
        return;
      }
      if processor.isPaused {
        processor.Resume(now);
        pauseLabel := "Pausar";
      } else {
        processor.Pause(now);
        pauseLabel := "Continuar";
      }
    }

    /** downloadProcessedAudio (app.js:242-261): without a blob only an error
        is shown; with a blob but no file (resetApp ran while an export was
        still rendering) reading `selectedFile.name` throws and nothing else
        happens; otherwise one download named by DownloadFileName starts. */
    method DownloadProcessedAudio() returns (outcome: DownloadOutcome)
      modifies this`status, this`downloads
      ensures outcome == NoBlob <==> processedAudioBlob.None?
      ensures outcome == MissingFile <==> processedAudioBlob.Some? && selectedFile.None?
      ensures outcome == NoBlob ==>
        downloads == old(downloads) &&
        status == Some(Status("Nenhum áudio processado disponível para download", Failure))
      ensures outcome == MissingFile ==> downloads == old(downloads) && status == old(status)
      ensures outcome == DownloadStarted ==>
        downloads == old(downloads) + [Download(DownloadFileName(selectedFile.value.name), processedAudioBlob.value)] &&
        status == Some(Status("Download iniciado!", Success))
    {
      if processedAudioBlob.None? {
        status := Some(Status("Nenhum áudio processado disponível para download", Failure));
        return NoBlob;
      }
      if selectedFile.None? {
        return MissingFile;
      }
      outcome := DownloadStarted;
      var fileName := DownloadFileName(selectedFile.value.name);
      downloads := downloads + [Download(fileName, processedAudioBlob.value)];
      status := Some(Status("Download iniciado!", Success));
    }
  }
}
