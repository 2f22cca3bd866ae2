/** The transcription worker of whisper_mic/whisper_mic.py: captured audio
    chunks are queued, drained and concatenated in arrival order, handed to
    the transcription engine, and the transcript is gated: emotion analysis
    runs only for a non-empty transcript free of the denylisted boilerplate
    phrases while analysis is enabled, the avatar is driven only when the
    avatar flag is set, and the transcript is output unless it is blank.

    The transcription engine and the morphological tokenizer are external:
    they are parameters (`engine`, `tokenize`). The sentiment classifier's
    `extract` returns None, so the sentiments passed on are always empty. */
module WhisperMic {
  import opened Common
  import opened Osc
  import opened EmotionAnalysis
  import opened VRChatManager

  newtype byte = x: int | 0 <= x < 256

  /** Raw 16-bit little-endian PCM bytes. */
  type Bytes = seq<byte>

  /** Phrases a transcript of background audio typically contains (sent_filtered). */
  const SentFiltered: seq<string> := [
    "ご視聴ありがとうございました",
    "チャンネル登録をお願いします",
    "次回もお会いしましょう",
    "ご覧いただきありがとうございます"
  ]

  /** banned_results; its fourth element None never equals a transcript,
      which is a string. */
  const BannedResults: seq<string> := ["", " ", "\n"]

  /** What the listen handler queues when the recognizer times out. */
  const TimeoutSentinel: string := "Timeout: No speech detected within the specified time."

  /** What the listen handler queues when the audio is unintelligible. */
  const NotUnderstoodSentinel: string := "Speech recognition could not understand audio."

  /** The sentiments `change_expression` receives: `SentimentAnalyzer.extract`
      returns None, which, like the empty list, is falsy, and falsiness is
      all that `change_expression` reads of it. */
  const PipelineSentiments: seq<Sentiment> := []

  /** The `.en` suffix rule for the model name. */
  function ModelName(model: string, english: bool): (name: string)
    ensures name == model || name == model + ".en"
    ensures name == model + ".en" <==> english && model != "large" && model != "large-v2"
  {
    if model != "large" && model != "large-v2" && english then model + ".en" else model
  }

  /** The chunks' bytes one after the other, oldest first. */
  function Concat(chunks: seq<Bytes>): (audio: Bytes)
  {
    if chunks == [] then [] else chunks[0] + Concat(chunks[1..])
  }

  /** Draining after one more chunk was queued yields what was queued
      before, followed by that chunk. */
  lemma {:induction false} ConcatAppend(chunks: seq<Bytes>, chunk: Bytes)
    ensures Concat(chunks + [chunk]) == Concat(chunks) + chunk
  {
    if chunks != [] {
      assert (chunks + [chunk])[1..] == chunks[1..] + [chunk];
      ConcatAppend(chunks[1..], chunk);
    }
  }

  /** |drained audio| is the sum of the chunks' lengths. */
  function TotalLength(chunks: seq<Bytes>): (total: nat)
  {
    if chunks == [] then 0 else |chunks[0]| + TotalLength(chunks[1..])
  }

  lemma {:induction false} ConcatLength(chunks: seq<Bytes>)
    ensures |Concat(chunks)| == TotalLength(chunks)
  {
    if chunks != [] {
      ConcatLength(chunks[1..]);
    }
  }

  /** The transcript contains one of the filtered phrases. */
  predicate Denylisted(text: string)
  {
    exists i | 0 <= i < |SentFiltered| :: IsSubstring(SentFiltered[i], text)
  }

  /** The loop that clears `no_filtered_sent` when a filtered phrase occurs in
      the transcript: containment, not equality. */
  method NoFilteredSent(text: string) returns (noFilteredSent: bool)
    ensures noFilteredSent <==> !Denylisted(text)
  {
    noFilteredSent := true;
    for i := 0 to |SentFiltered|
      invariant noFilteredSent <==> forall j :: 0 <= j < i ==> !IsSubstring(SentFiltered[j], text)
    {
      if IsSubstring(SentFiltered[i], text) {
        noFilteredSent := false;
      }
    }
  }

  /** Emotion analysis runs for `text`. */
  predicate AnalysisRuns(execEmotionAnalysis: bool, text: string)
  {
    execEmotionAnalysis && text != "" && !Denylisted(text)
  }

  /** A transcript that contains a filtered phrase is not analysed but is
      still output: the denylist and the blank-result list are independent. */
  lemma {:induction false} DenylistedStillOutput(pre: string, i: nat, post: string)
    requires i < |SentFiltered|
    ensures Denylisted(pre + SentFiltered[i] + post)
    ensures forall exec :: !AnalysisRuns(exec, pre + SentFiltered[i] + post)
    ensures pre + SentFiltered[i] + post !in BannedResults
  {
    var text := pre + SentFiltered[i] + post;
    SubstringOfExtension(SentFiltered[i], pre, post);
    assert |text| >= |SentFiltered[i]| > 1;
  }

  /** In the running pipeline the sentiments are empty, so the avatar gets 0
      whenever no emotion matched, whatever the draws. */
  lemma NoEmotionMeansNeutral(draw1: nat, draw2: nat)
    ensures ChangeExpression([], PipelineSentiments, draw1, draw2) == Ok(NeutralReset)
  {
  }

  /** The three cases `__listen_handler` distinguishes: a phrase was heard,
      the recognizer timed out (WaitTimeoutError), or the handler caught
      UnknownValueError, which the model treats as a third outcome of
      listening. */
  datatype ListenResult = Heard(audio: Bytes) | WaitTimeout | Unintelligible

  /** What `__transcribe` puts into result_queue. */
  datatype Output = Transcript(text: string) | EngineResult(text: string)

  class WhisperMic {
    var audioQueue: seq<Bytes>
    var resultQueue: seq<Output>
    var execEmotionAnalysis: bool
    /** The messages handed to the avatar client, oldest first. */
    var sentMessages: seq<Message>
    const model: string
    const verbose: bool
    const vrchat: bool
    const emotionAnalyzer: EmotionAnalyzer

    constructor (model: string, english: bool, verbose: bool, vrchat: bool, emotionAnalyzer: EmotionAnalyzer)
      ensures this.model == ModelName(model, english)
      ensures this.verbose == verbose && this.vrchat == vrchat && this.emotionAnalyzer == emotionAnalyzer
      ensures audioQueue == [] && resultQueue == [] && sentMessages == [] && execEmotionAnalysis
    {
      this.model := ModelName(model, english);
      this.verbose := verbose;
      this.vrchat := vrchat;
      this.emotionAnalyzer := emotionAnalyzer;
      audioQueue := [];
      resultQueue := [];
      sentMessages := [];
      execEmotionAnalysis := true;
    }

    /** The emotion categories the analyzer extracts for `text`. */
    function Emotions(text: string, sentences: seq<seq<string>>): (emotions: seq<Option<Category>>)
    {
      Matches(emotionAnalyzer.annotations, emotionAnalyzer.categories, [text] + Flatten(sentences))
    }

    /** What `__transcribe` does after the transcription engine returned
        `text`: analysis gating, at most one avatar message, output gating.
        `change_expression` returns None, so analysis is never switched off. */
    twostate predicate Transcribed(text: string, sentences: seq<seq<string>>, draw1: nat, draw2: nat, status: Status)
      reads this
    {
      var drives := AnalysisRuns(old(execEmotionAnalysis), text) && vrchat;
      var outcome := ChangeExpression(Emotions(text, sentences), PipelineSentiments, draw1, draw2);
      && execEmotionAnalysis == old(execEmotionAnalysis)
      && status == (if drives && outcome.Err? then Raised(outcome.error) else Done)
      && sentMessages == old(sentMessages) + (if drives && outcome.Ok? then [outcome.value] else [])
      && resultQueue == old(resultQueue) +
           (if status == Done && text !in BannedResults
            then [if verbose then EngineResult(text) else Transcript(text)]
            else [])
    }

    /** `__record_load`: the raw bytes join the back of the audio queue. */
    method RecordLoad(data: Bytes)
      modifies this`audioQueue
      ensures audioQueue == old(audioQueue) + [data]
    {
      audioQueue := audioQueue + [data];
    }

    /** `__get_all_audio` with its default `min_time`: take chunks from the
        front until the queue is empty, and go on waiting until at least one
        chunk was taken. Waiting for a chunk that another thread has yet to
        queue is not modelled, hence the precondition. */
    method GetAllAudio() returns (audio: Bytes)
      requires audioQueue != []
      modifies this`audioQueue
      ensures audio == Concat(old(audioQueue)) && audioQueue == []
    {
      audio := [];
      var gotAudio := false;
      while !gotAudio
        invariant !gotAudio ==> audio == [] && audioQueue == old(audioQueue)
        invariant gotAudio ==> audio == Concat(old(audioQueue)) && audioQueue == []
        decreases if gotAudio then 0 else 1
      {
        while audioQueue != []
          invariant audio + Concat(audioQueue) == Concat(old(audioQueue))
          invariant !gotAudio ==> audio == [] && audioQueue == old(audioQueue)
          decreases |audioQueue|
        {
          audio := audio + audioQueue[0];
          audioQueue := audioQueue[1..];
          gotAudio := true;
        }
      }
    }

    /** `__transcribe`: transcribe the given audio, or everything queued when
        none is given, then gate analysis, the avatar message and the output.
        An exception raised by `change_expression` ends the call before the
        transcript is queued. */
    method Transcribe(data: Option<Bytes>, engine: Bytes -> string, tokenize: string -> seq<seq<string>>,
                      draw1: nat, draw2: nat) returns (status: Status)
      requires data.None? ==> audioQueue != []
      modifies this
      ensures audioQueue == if data.None? then [] else old(audioQueue)
      ensures var text := engine(if data.Some? then data.value else Concat(old(audioQueue)));
              Transcribed(text, tokenize(text), draw1, draw2, status)
    {
      var audioData: Bytes;
      if data.None? {
        audioData := GetAllAudio();
      } else {
        audioData := data.value;
      }
      var predictedText := engine(audioData);

      status := Done;
      if execEmotionAnalysis && predictedText != "" {
        var noFilteredSent := NoFilteredSent(predictedText);
        if noFilteredSent {
          var emotions := emotionAnalyzer.ExtractEmotion(predictedText, tokenize(predictedText));
          var sentiments := PipelineSentiments;
          if vrchat {
            var outcome := ChangeExpression(emotions, sentiments, draw1, draw2);
            if outcome.Err? {
              return Raised(outcome.error);
            }
            sentMessages := sentMessages + [outcome.value];
          }
        }
      }

      if predictedText !in BannedResults {
        resultQueue := resultQueue + [if verbose then EngineResult(predictedText) else Transcript(predictedText)];
      }
    }

    /** `__listen_handler`: a heard phrase is queued, drained and transcribed;
        a timeout or unintelligible audio queues its sentinel string instead
        and nothing else happens. */
    method ListenHandler(listened: ListenResult, engine: Bytes -> string, tokenize: string -> seq<seq<string>>,
                         draw1: nat, draw2: nat) returns (status: Status)
      modifies this
      ensures listened.Heard? ==>
        audioQueue == [] &&
        var text := engine(Concat(old(audioQueue)) + listened.audio);
        Transcribed(text, tokenize(text), draw1, draw2, status)
      ensures !listened.Heard? ==>
        status == Done &&
        resultQueue == old(resultQueue) +
          [Transcript(if listened.WaitTimeout? then TimeoutSentinel else NotUnderstoodSentinel)] &&
        audioQueue == old(audioQueue) && sentMessages == old(sentMessages) &&
        execEmotionAnalysis == old(execEmotionAnalysis)
    {
      match listened
      case Heard(audio) =>
        RecordLoad(audio);
        var audioData := GetAllAudio();
        ConcatAppend(old(audioQueue), audio);
        status := Transcribe(Some(audioData), engine, tokenize, draw1, draw2);
      case WaitTimeout =>
        resultQueue := resultQueue + [Transcript(TimeoutSentinel)];
        status := Done;
      case Unintelligible =>
        resultQueue := resultQueue + [Transcript(NotUnderstoodSentinel)];
        status := Done;
    }
  }
}
