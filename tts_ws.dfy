/** One request of the `/ws/tts` WebSocket: the text is synthesized to a whole audio file in
    the temporary directory, which is then read back and sent in binary frames of at most
    4096 bytes, followed by an `end` event, and removed.  The two synthesis engines are
    parameters: each either writes the file or raises, possibly leaving a partial file. */
module TtsWs {
  import opened Common
  import opened Text

  const ChunkSize: nat := 4096
  const DefaultCoquiModel := "tts_models/en/vctk/vits"
  const EmptyTextError := "Empty text"
  const NoBackendError := "No TTS backend installed"
  const CoquiFailedPrefix := "TTS failed: "

  /** A message to the client: a binary audio frame, `{"event": "end"}` or `{"error": ...}`. */
  datatype TtsMessage = Audio(bytes: seq<Byte>) | EndEvent | ErrorMessage(error: string)

  // ---------------------------------------------------------------------------
  // Engines, found and loaded once at import
  // ---------------------------------------------------------------------------

  datatype Engine = Coqui | Pyttsx3

  /** Whether each engine's package imported, and whether the Coqui model loaded. */
  datatype Backends = Backends(coquiAvailable: bool, coquiLoaded: bool, pyttsx3Available: bool)

  /** `os.getenv("COQUI_TTS_MODEL", ...)`: the setting when it is set, even to "". */
  function CoquiModelName(setting: Option<string>): (name: string)
    ensures setting.Some? ==> name == setting.value
    ensures setting.None? ==> name == DefaultCoquiModel
  {
    setting.GetOr(DefaultCoquiModel)
  }

  /** The import-time setup: the Coqui model is loaded only when its package imported, with
      the default options first and once more without phonemes when that raises; if both
      raise, no model is loaded and the service goes on without it. */
  function LoadBackends(coquiAvailable: bool, firstLoadOk: bool, retryLoadOk: bool, pyttsx3Available: bool)
    : (b: Backends)
    ensures b.coquiAvailable == coquiAvailable && b.pyttsx3Available == pyttsx3Available
    ensures b.coquiLoaded ==> coquiAvailable
    ensures coquiAvailable && firstLoadOk ==> b.coquiLoaded
    ensures coquiAvailable && !firstLoadOk ==> (b.coquiLoaded <==> retryLoadOk)
  {
    Backends(coquiAvailable, coquiAvailable && (firstLoadOk || retryLoadOk), pyttsx3Available)
  }

  /** Backend precedence: Coqui when it imported and its model loaded, else pyttsx3 when it
      imported, else none. */
  function SelectEngine(b: Backends): (e: Option<Engine>)
    ensures e == Some(Coqui) <==> b.coquiAvailable && b.coquiLoaded
    ensures e == Some(Pyttsx3) <==> !(b.coquiAvailable && b.coquiLoaded) && b.pyttsx3Available
    ensures e.None? <==> !(b.coquiAvailable && b.coquiLoaded) && !b.pyttsx3Available
  {
    if b.coquiAvailable && b.coquiLoaded then Some(Coqui)
    else if b.pyttsx3Available then Some(Pyttsx3)
    else None
  }

  // ---------------------------------------------------------------------------
  // Framing: `while chunk := f.read(4096)`
  // ---------------------------------------------------------------------------

  /** The frames successive `read(4096)` calls return for a file holding `data`. */
  function Chunks(data: seq<Byte>): (frames: seq<seq<Byte>>)
    ensures |frames| <= |data|
    ensures frames == [] <==> data == []
    decreases |data|
  {
    if data == [] then []
    else if |data| <= ChunkSize then [data]
    else [data[..ChunkSize]] + Chunks(data[ChunkSize..])
  }

  function Flatten(frames: seq<seq<Byte>>): seq<Byte> {
    if frames == [] then [] else frames[0] + Flatten(frames[1..])
  }

  /** `frames` splits `data` into non-empty frames, all of exactly `ChunkSize` bytes except
      the last, which holds at most `ChunkSize`. */
  predicate IsFraming(frames: seq<seq<Byte>>, data: seq<Byte>) {
    && Flatten(frames) == data
    && (forall i :: 0 <= i < |frames| ==> 0 < |frames[i]| <= ChunkSize)
    && (forall i :: 0 <= i < |frames| - 1 ==> |frames[i]| == ChunkSize)
  }

  /** The frames read back concatenate to the file, and each has the size the loop gives it. */
  lemma {:induction false} ChunksFrame(data: seq<Byte>)
    ensures IsFraming(Chunks(data), data)
    decreases |data|
  {
    if |data| > ChunkSize {
      ChunksFrame(data[ChunkSize..]);
      var frames := Chunks(data);
      assert frames[1..] == Chunks(data[ChunkSize..]);
      assert data[..ChunkSize] + data[ChunkSize..] == data;
      forall i | 0 <= i < |frames| - 1
        ensures |frames[i]| == ChunkSize
      {
        if i > 0 {
          assert frames[i] == frames[1..][i - 1];
        }
      }
      forall i | 0 <= i < |frames|
        ensures 0 < |frames[i]| <= ChunkSize
      {
        if i > 0 {
          assert frames[i] == frames[1..][i - 1];
        }
      }
    } else if data != [] {
      assert Flatten(Chunks(data)) == data + [];
    }
  }

  /** A file of n bytes is sent in ceil(n / 4096) frames; none for an empty file. */
  lemma {:induction false} ChunkCount(data: seq<Byte>)
    ensures |Chunks(data)| == (|data| + ChunkSize - 1) / ChunkSize
    decreases |data|
  {
    if |data| > ChunkSize {
      ChunkCount(data[ChunkSize..]);
    }
  }

  /** The framing is the only one with those sizes: any split of `data` into full frames and
      a non-empty last frame is the one the read loop produces. */
  lemma {:induction false} FramingUnique(frames: seq<seq<Byte>>, data: seq<Byte>)
    requires IsFraming(frames, data)
    ensures frames == Chunks(data)
    decreases |frames|
  {
    if frames != [] {
      assert data == frames[0] + Flatten(frames[1..]);
      if |frames| == 1 {
        assert Flatten(frames[1..]) == [];
        assert data == frames[0];
      } else {
        assert |frames[0]| == ChunkSize;
        assert 0 < |frames[1]|;
        assert Flatten(frames[1..]) == frames[1] + Flatten(frames[2..]);
        assert data[..ChunkSize] == frames[0];
        assert data[ChunkSize..] == Flatten(frames[1..]);
        forall i | 0 <= i < |frames[1..]| - 1
          ensures |frames[1..][i]| == ChunkSize
        {
          assert frames[1..][i] == frames[i + 1];
        }
        forall i | 0 <= i < |frames[1..]|
          ensures 0 < |frames[1..][i]| <= ChunkSize
        {
          assert frames[1..][i] == frames[i + 1];
        }
        FramingUnique(frames[1..], data[ChunkSize..]);
      }
    }
  }

  /** A 10000-byte clip goes out as three frames of 4096, 4096 and 1808 bytes. */
  lemma TenThousandByteClip(data: seq<Byte>)
    requires |data| == 10000
    ensures |Chunks(data)| == 3
    ensures |Chunks(data)[0]| == 4096 && |Chunks(data)[1]| == 4096 && |Chunks(data)[2]| == 1808
  {
    var rest := data[ChunkSize..];
    assert Chunks(data) == [data[..ChunkSize]] + Chunks(rest);
    assert Chunks(rest) == [rest[..ChunkSize]] + Chunks(rest[ChunkSize..]);
    assert Chunks(rest[ChunkSize..]) == [rest[ChunkSize..]];
  }

  /** Reading from offset `pos` returns the next `read(4096)` and leaves the rest. */
  lemma NextChunk(data: seq<Byte>, pos: nat)
    requires pos < |data|
    ensures var n := if |data| - pos < ChunkSize then |data| - pos else ChunkSize;
            Chunks(data[pos..]) == [data[pos..pos + n]] + Chunks(data[pos + n..])
  {
    var n := if |data| - pos < ChunkSize then |data| - pos else ChunkSize;
    if |data| - pos > ChunkSize {
      assert data[pos..][..ChunkSize] == data[pos..pos + n];
      assert data[pos..][ChunkSize..] == data[pos + n..];
    } else {
      assert data[pos..] == data[pos..pos + n];
      assert data[pos + n..] == [];
    }
  }

  function AudioMessages(frames: seq<seq<Byte>>): seq<TtsMessage> {
    seq(|frames|, i requires 0 <= i < |frames| => Audio(frames[i]))
  }

  /** The read-and-send loop over the written file: each frame read is sent at once as one
      binary message.  When the client stays, it receives every frame of `Chunks(data)` in
      order; when it leaves, it received the frames before that point. */
  method StreamFile(data: seq<Byte>, disconnectAt: Option<nat>) returns (sent: seq<TtsMessage>, delivered: bool)
    ensures delivered <==> Delivers(|Chunks(data)|, disconnectAt)
    ensures sent == Delivered(AudioMessages(Chunks(data)), disconnectAt)
  {
    sent, delivered := [], true;
    var pos := 0;
    var read: seq<seq<Byte>> := [];
    while pos < |data|
      invariant 0 <= pos <= |data|
      invariant Chunks(data) == read + Chunks(data[pos..])
      invariant sent == AudioMessages(read)
      invariant Delivers(|read|, disconnectAt)
      decreases |data| - pos
    {
      var n := if |data| - pos < ChunkSize then |data| - pos else ChunkSize;
      var chunk := data[pos..pos + n];
      NextChunk(data, pos);
      if !Delivers(|read| + 1, disconnectAt) {
        delivered := false;
        assert AudioMessages(Chunks(data))[..disconnectAt.value] == AudioMessages(read);
        return;
      }
      sent := sent + [Audio(chunk)];
      read := read + [chunk];
      pos := pos + n;
    }
    assert Chunks(data[pos..]) == [];
  }

  // ---------------------------------------------------------------------------
  // One request of the connection
  // ---------------------------------------------------------------------------

  /** What a synthesis call did: it wrote the whole clip to the output path, or it raised
      with `message`, possibly leaving a partial file there. */
  datatype Synthesis = Wrote(audio: seq<Byte>) | Raised(message: string, leftover: Option<seq<Byte>>)

  type Files = map<string, seq<Byte>>

  /** The temporary directory, which the handler writes into and removes from. */
  class TempDir {
    var files: Files

    constructor ()
      ensures files == map[]
    {
      files := map[];
    }

    /** A synthesis engine writing, or partly writing, the file at `path`. */
    method Write(path: string, s: Synthesis)
      modifies this
      ensures files == AfterSynthesis(old(files), path, s)
    {
      if s.Wrote? {
        files := files[path := s.audio];
      } else if s.leftover.Some? {
        files := files[path := s.leftover.value];
      }
    }

    /** `os.remove(path)`. */
    method Remove(path: string)
      modifies this
      ensures files == old(files) - {path}
    {
      files := files - {path};
    }
  }

  function AfterSynthesis(files: Files, path: string, s: Synthesis): Files {
    match s
    case Wrote(audio) => files[path := audio]
    case Raised(_, leftover) => if leftover.Some? then files[path := leftover.value] else files
  }

  /** What one request did: the messages the client received, whether the connection goes
      on to the next request, and the temporary directory afterwards. */
  datatype Round = Round(sent: seq<TtsMessage>, open: bool, files: Files)

  /** One error message; the connection goes on only if it was `keepOpen` and the client
      took the message (a failed send escapes to the outer handler, whose own error message
      fails too). */
  function ErrorRound(files: Files, error: string, keepOpen: bool, disconnectAt: Option<nat>): (r: Round)
    ensures r.files == files
    ensures r.sent == [ErrorMessage(error)] || r.sent == []
    ensures r.open <==> keepOpen && r.sent == [ErrorMessage(error)]
  {
    Round(Delivered([ErrorMessage(error)], disconnectAt), keepOpen && Delivers(1, disconnectAt), files)
  }

  /** The file was written: its frames and then `end`, then the file is removed.  A send
      that fails ends the connection before the removal, so the file stays. */
  function AudioRound(files: Files, outPath: string, audio: seq<Byte>, disconnectAt: Option<nat>): (r: Round)
    ensures r.open <==> outPath !in r.files
    ensures r.open ==> |r.sent| > 0 && r.sent[|r.sent| - 1] == EndEvent
    ensures !r.open ==> EndEvent !in r.sent && r.files[outPath] == audio
    ensures forall p :: p != outPath ==> (p in r.files <==> p in files)
  {
    var planned := AudioMessages(Chunks(audio)) + [EndEvent];
    if Delivers(|planned|, disconnectAt) then Round(planned, true, files[outPath := audio] - {outPath})
    else Round(Delivered(planned, disconnectAt), false, files[outPath := audio])
  }

  /** The request `{text, voice}` handled with output path `outPath`.  Text that strips to
      nothing touches no file; the `end` event goes out only once the whole clip was sent, and
      then the file is already gone; no path but `outPath` is created or removed. */
  function TtsRound(files: Files, text: Option<string>, voice: Option<string>, backends: Backends,
                    outPath: string, coqui: (string, Option<string>) -> Synthesis, pyttsx3: string -> Synthesis,
                    disconnectAt: Option<nat>): (r: Round)
    ensures Strip(text.GetOr("")) == "" ==> r.files == files
    ensures EndEvent in r.sent ==> r.open && outPath !in r.files
    ensures forall p :: p != outPath ==> (p in r.files <==> p in files)
  {
    var t := text.GetOr("");
    if Strip(t) == "" then ErrorRound(files, EmptyTextError, true, disconnectAt)
    else
      match SelectEngine(backends)
      case None => ErrorRound(files, NoBackendError, true, disconnectAt)
      case Some(Coqui) =>
        (match coqui(t, voice)
         case Wrote(audio) => AudioRound(files, outPath, audio, disconnectAt)
         case Raised(message, _) =>
           ErrorRound(AfterSynthesis(files, outPath, coqui(t, voice)), CoquiFailedPrefix + message, true, disconnectAt))
      case Some(Pyttsx3) =>
        (match pyttsx3(t)
         case Wrote(audio) => AudioRound(files, outPath, audio, disconnectAt)
         case Raised(message, _) =>
           ErrorRound(AfterSynthesis(files, outPath, pyttsx3(t)), message, false, disconnectAt))
  }

  /** Sends one error message after `sent`. */
  method SendError(error: string, disconnectAt: Option<nat>) returns (sent: seq<TtsMessage>, delivered: bool)
    ensures sent == Delivered([ErrorMessage(error)], disconnectAt)
    ensures delivered <==> Delivers(1, disconnectAt)
  {
    if Delivers(1, disconnectAt) {
      sent, delivered := [ErrorMessage(error)], true;
    } else {
      sent, delivered := [], false;
    }
  }

  /** One pass of the `/ws/tts` request loop.  Synthesis gets the text as received; only the
      emptiness test strips it. */
  method TtsStep(dir: TempDir, text: Option<string>, voice: Option<string>, backends: Backends, outPath: string,
                 coqui: (string, Option<string>) -> Synthesis, pyttsx3: string -> Synthesis,
                 disconnectAt: Option<nat>)
    returns (sent: seq<TtsMessage>, open: bool)
    modifies dir
    ensures Round(sent, open, dir.files)
         == TtsRound(old(dir.files), text, voice, backends, outPath, coqui, pyttsx3, disconnectAt)
  {
    var t := text.GetOr("");
    if Strip(t) == "" {
      sent, open := SendError(EmptyTextError, disconnectAt);
      return;
    }
    var engine := SelectEngine(backends);
    if engine.None? {
      sent, open := SendError(NoBackendError, disconnectAt);
      return;
    }
    var synthesis;
    if engine == Some(Coqui) {
      synthesis := coqui(t, voice);
      dir.Write(outPath, synthesis);
      if synthesis.Raised? {
        sent, open := SendError(CoquiFailedPrefix + synthesis.message, disconnectAt);
        return;
      }
    } else {
      synthesis := pyttsx3(t);
      dir.Write(outPath, synthesis);
      if synthesis.Raised? {
        sent, open := SendError(synthesis.message, disconnectAt);
        open := false;
        return;
      }
    }
    var delivered;
    sent, delivered := StreamFile(synthesis.audio, disconnectAt);
    ghost var planned := AudioMessages(Chunks(synthesis.audio)) + [EndEvent];
    if !delivered || !Delivers(|sent| + 1, disconnectAt) {
      assert sent == Delivered(planned, disconnectAt);
      open := false;
      return;
    }
    sent := sent + [EndEvent];
    dir.Remove(outPath);
    open := true;
  }

  // ---------------------------------------------------------------------------
  // What a request does
  // ---------------------------------------------------------------------------

  /** Text that is empty after stripping gets one "Empty text" error, synthesizes nothing,
      and the connection waits for the next request. */
  lemma EmptyTextKeepsConnection(files: Files, text: Option<string>, voice: Option<string>, backends: Backends,
                                 outPath: string, coqui: (string, Option<string>) -> Synthesis,
                                 pyttsx3: string -> Synthesis)
    requires AllSpace(text.GetOr(""))
    ensures var r := TtsRound(files, text, voice, backends, outPath, coqui, pyttsx3, None);
            r == Round([ErrorMessage(EmptyTextError)], true, files)
  {
  }

  /** Backend precedence: with Coqui usable, pyttsx3 is never called; otherwise Coqui is
      never called; with neither, one "No TTS backend installed" error and no frames. */
  lemma BackendPrecedence(files: Files, text: Option<string>, voice: Option<string>, backends: Backends,
                          outPath: string, coqui: (string, Option<string>) -> Synthesis,
                          coqui2: (string, Option<string>) -> Synthesis,
                          pyttsx3: string -> Synthesis, pyttsx32: string -> Synthesis, disconnectAt: Option<nat>)
    ensures backends.coquiAvailable && backends.coquiLoaded ==>
              TtsRound(files, text, voice, backends, outPath, coqui, pyttsx3, disconnectAt)
              == TtsRound(files, text, voice, backends, outPath, coqui, pyttsx32, disconnectAt)
    ensures !(backends.coquiAvailable && backends.coquiLoaded) ==>
              TtsRound(files, text, voice, backends, outPath, coqui, pyttsx3, disconnectAt)
              == TtsRound(files, text, voice, backends, outPath, coqui2, pyttsx3, disconnectAt)
    ensures !(backends.coquiAvailable && backends.coquiLoaded) && !backends.pyttsx3Available
            && !AllSpace(text.GetOr("")) ==>
              TtsRound(files, text, voice, backends, outPath, coqui, pyttsx3, None)
              == Round([ErrorMessage(NoBackendError)], true, files)
  {
  }

  /** A request whose text is not blank and whose chosen engine writes `audio` is the
      streaming of that clip: what `AudioRound` describes. */
  lemma WrittenRequestStreamsClip(files: Files, text: Option<string>, voice: Option<string>, backends: Backends,
                                  outPath: string, coqui: (string, Option<string>) -> Synthesis,
                                  pyttsx3: string -> Synthesis, disconnectAt: Option<nat>, audio: seq<Byte>)
    requires !AllSpace(text.GetOr(""))
    requires SelectEngine(backends) == Some(Coqui) ==> coqui(text.GetOr(""), voice) == Wrote(audio)
    requires SelectEngine(backends) == Some(Pyttsx3) ==> pyttsx3(text.GetOr("")) == Wrote(audio)
    requires SelectEngine(backends).Some?
    ensures TtsRound(files, text, voice, backends, outPath, coqui, pyttsx3, disconnectAt)
            == AudioRound(files, outPath, audio, disconnectAt)
  {
  }

  /** A written clip reaches a client that stays as its frames -- which concatenate to the
      clip, are non-empty, 4096 bytes each but the last, ceil(n / 4096) of them -- and then
      one `end` event; the file is removed afterwards and no other file changes. */
  lemma WrittenClipIsStreamed(files: Files, outPath: string, audio: seq<Byte>)
    ensures var r := AudioRound(files, outPath, audio, None);
            && r.open
            && r.sent == AudioMessages(Chunks(audio)) + [EndEvent]
            && IsFraming(Chunks(audio), audio)
            && |Chunks(audio)| == (|audio| + ChunkSize - 1) / ChunkSize
            && r.files == files - {outPath}
  {
    ChunksFrame(audio);
    ChunkCount(audio);
  }

  /** A client that leaves during streaming ends the connection and the removal does not
      run: the file stays in the temporary directory. */
  lemma DisconnectLeavesFile(files: Files, outPath: string, audio: seq<Byte>, disconnectAt: nat)
    requires disconnectAt <= |Chunks(audio)|
    ensures var r := AudioRound(files, outPath, audio, Some(disconnectAt));
            && !r.open
            && r.sent == AudioMessages(Chunks(audio))[..disconnectAt]
            && outPath in r.files && r.files[outPath] == audio
  {
    var planned := AudioMessages(Chunks(audio)) + [EndEvent];
    assert planned[..disconnectAt] == AudioMessages(Chunks(audio))[..disconnectAt];
  }

  /** A failed Coqui synthesis gets one "TTS failed: ..." error and the connection goes on;
      whatever the engine left at the output path stays there. */
  lemma CoquiFailureContinues(files: Files, text: Option<string>, voice: Option<string>, backends: Backends,
                              outPath: string, coqui: (string, Option<string>) -> Synthesis,
                              pyttsx3: string -> Synthesis)
    requires !AllSpace(text.GetOr(""))
    requires backends.coquiAvailable && backends.coquiLoaded
    requires coqui(text.GetOr(""), voice).Raised?
    ensures var r := TtsRound(files, text, voice, backends, outPath, coqui, pyttsx3, None);
            var s := coqui(text.GetOr(""), voice);
            && r.sent == [ErrorMessage(CoquiFailedPrefix + s.message)]
            && r.open
            && (s.leftover.Some? ==> outPath in r.files && r.files[outPath] == s.leftover.value)
  {
  }

  /** An exception in the pyttsx3 path reaches the outer handler: one error message with the
      exception's text, and the connection is closed, unlike the empty-text case. */
  lemma UnexpectedErrorCloses(files: Files, text: Option<string>, voice: Option<string>, backends: Backends,
                              outPath: string, coqui: (string, Option<string>) -> Synthesis,
                              pyttsx3: string -> Synthesis)
    requires !AllSpace(text.GetOr(""))
    requires !(backends.coquiAvailable && backends.coquiLoaded) && backends.pyttsx3Available
    requires pyttsx3(text.GetOr("")).Raised?
    ensures var r := TtsRound(files, text, voice, backends, outPath, coqui, pyttsx3, None);
            r.sent == [ErrorMessage(pyttsx3(text.GetOr("")).message)] && !r.open
  {
  }

  /** A request touches no file of the temporary directory but its own output path. */
  lemma OnlyOutPathChanges(files: Files, text: Option<string>, voice: Option<string>, backends: Backends,
                           outPath: string, coqui: (string, Option<string>) -> Synthesis,
                           pyttsx3: string -> Synthesis, disconnectAt: Option<nat>, other: string)
    requires other != outPath
    ensures var r := TtsRound(files, text, voice, backends, outPath, coqui, pyttsx3, disconnectAt);
            (other in r.files <==> other in files) && (other in files ==> r.files[other] == files[other])
  {
    var t := text.GetOr("");
    var r := TtsRound(files, text, voice, backends, outPath, coqui, pyttsx3, disconnectAt);
    if Strip(t) != "" && SelectEngine(backends).Some? {
      var s := if SelectEngine(backends) == Some(Coqui) then coqui(t, voice) else pyttsx3(t);
      if s.Wrote? {
        assert r == AudioRound(files, outPath, s.audio, disconnectAt);
      } else {
        assert r.files == AfterSynthesis(files, outPath, s);
      }
    }
  }
}
