# whisper_mic expression core, modelled in Dafny

This project models the decision logic of a speech-to-avatar tool. The tool
transcribes microphone speech, matches the transcript against an emotion
lexicon, turns the first matched emotion into an integer expression code and
sends it to the avatar runtime as an OSC message. A separate watchdog resets
the avatar to the neutral code 0 after 15 seconds without a change.

Modules, one per source file, plus two shared ones:

- `Common` (common.dfy): `Option`, `Result` (with `:-`), the Python exceptions
  the code can raise (`PyError`), `dict.get` and Python's substring test.
- `Osc` (osc.dfy): the message type and the emote address
  `/avatar/parameters/FaceEmo_SYNC_EM_EMOTE`.
- `EmotionAnalysis` (emotion_analysis.dfy): the two tables built from CSV
  records and the lexicon matcher. The annotation dict is an
  insertion-ordered sequence. The matcher is the source's nested loops with
  the early `break`, proved against the function `Matches`.
- `VRChatManager` (vrchat_manager.dfy): `EMOTION_DICT`, `SENTIMENT_DICT` and
  the selection rule. Each `random.choice` call is a caller-supplied index
  (`draw`), taken modulo the list length.
- `CheckExpressionChange` (check_expression_change.dfy): the watchdog's two
  global variables as a class, the OSC handler and one iteration of the
  polling loop.
- `WhisperMic` (whisper_mic.dfy): the audio queue, the drain, the transcript
  gating and the listen handler, as a class whose fields are the queues and
  flags. The transcription engine and the tokenizer are function parameters.
  The messages the avatar client would send are recorded in `sentMessages`.

How the model reads the code:

- Python exceptions that some input can trigger are `Err` results, not
  preconditions. Examples: `None["aggregate"]` when a tag was missing from
  the category table, `random.choice(None)` for a sentiment label outside
  `SENTIMENT_DICT`, and a short or missing CSV record.
- `SentimentAnalyzer.extract` returns None, so the pipeline always passes
  empty sentiments (`PipelineSentiments`). `change_expression` returns
  nothing, so the 5-second analysis switch-off is never triggered.
  `Transcribed` states that `execEmotionAnalysis` never changes.
- The watchdog's periodic check reads both of its variables and changes
  neither (whisper_mic/check_expression_change.py:28-31). So a due reset is
  sent again on every period until a new emote message arrives.
- The sentiment threshold for POSITIVE and NEGATIVE is 0.65
  (whisper_mic/vrchat_manager.py:48). Any other label uses 0.
- A first emotion decides the code on its own. Sentiments are read only
  when there is no emotion, and the two are never compared
  (whisper_mic/vrchat_manager.py:38-44).
- A lexicon word matches a candidate word only when the two are equal
  (whisper_mic/emotion_analysis.py:80).
- Times are real numbers of seconds, supplied by the caller.

## Model

| member | source | states |
|---|---|---|
| `EmotionAnalysis.Find` | whisper_mic/emotion_analysis.py:16 | the dict's key position for `d[k] = v` and `d.get(k)`: the position returned holds the key with no earlier occurrence, or -1 exactly when no entry has the key |
| `EmotionAnalysis.Put` | whisper_mic/emotion_analysis.py:16 | dict assignment: the key then maps to the new tags and every other key keeps its value; a new key is appended, an existing key keeps its position |
| `EmotionAnalysis.LoadAnnotations` | whisper_mic/emotion_analysis.py:12-16 | the header record is skipped and every data record stores column 0 -> column 2; an empty file raises StopIteration and a record with fewer than 3 columns raises IndexError |
| `EmotionAnalysis.LoadCategories` | whisper_mic/emotion_analysis.py:18-22 | the header is skipped and every record stores column 1 -> (detail column 0, aggregate column 2), with the same two failures |
| `EmotionAnalysis.AnnotationLastRowWins` | whisper_mic/emotion_analysis.py:15-16 | each word appears once; a word is present iff some record has it, and it carries the tags of the last such record |
| `EmotionAnalysis.CategoryLastRowWins` | whisper_mic/emotion_analysis.py:21-22 | a tag is present iff some record has it in column 1, and the later record overwrites the earlier |
| `EmotionAnalysis.NewEmotionAnalyzer` | whisper_mic/emotion_analysis.py:8-22 | the analyzer is built iff both files have a header and only records of at least three columns; an empty file raises StopIteration and a short record raises IndexError, and the annotation file is read first, so its failure is the one raised |
| `EmotionAnalysis.CandidateWords` | whisper_mic/emotion_analysis.py:68-72 | the candidate list is the whole text followed by every token's normalised form, sentence after sentence, token after token |
| `EmotionAnalysis.EmotionAnalyzer.ExtractEmotion` | whisper_mic/emotion_analysis.py:59-88 | the nested loops with `break` yield exactly `Matches`: lexicon order, one lookup per tag character of each entry equal to some candidate word |
| `EmotionAnalysis.MatchesAppend` | whisper_mic/emotion_analysis.py:78-86 | the output follows lexicon order: matching a concatenated lexicon gives the parts' outputs one after the other |
| `EmotionAnalysis.MatchesLength` | whisper_mic/emotion_analysis.py:76-88 | the output length is the total number of tag characters of the matching entries |
| `EmotionAnalysis.MatchesEmpty` | whisper_mic/emotion_analysis.py:76-88 | the output is empty iff every matching entry has an empty tag string, so it is empty when nothing matches |
| `EmotionAnalysis.MatchesDependOnWordSet` | whisper_mic/emotion_analysis.py:79-86 | only the set of candidate words matters, so repeated candidates let an entry contribute once only and word order does not matter |
| `EmotionAnalysis.MatchesMembership` | whisper_mic/emotion_analysis.py:81-84 | an item is in the output iff it is the category lookup of a tag character of a matching entry; None appears iff such a tag is missing from the category table |
| `VRChatManager.PyChoice` | whisper_mic/vrchat_manager.py:42 | `random.choice` on a `dict.get` result: None raises TypeError, an empty list raises IndexError, otherwise the result is an element of the list |
| `VRChatManager.ChoiceReachesEvery` | whisper_mic/vrchat_manager.py:42 | every element of a non-empty list is the choice of some draw |
| `VRChatManager.ExpressionNum` | whisper_mic/vrchat_manager.py:36-54 | a first emotion decides: a code of its aggregate's list, 0 if the list is missing or empty, TypeError if the emotion is None; otherwise the first sentiment drives a code of its categories only when its score is strictly above the threshold, else 0; the code is always 0 or a table code |
| `VRChatManager.ChangeExpression` | whisper_mic/vrchat_manager.py:35-56 | exactly one message on the emote address, carrying the code the decision chose, hence 0 or a table code and never 5 or 9; it fails exactly when the decision raises, with the decision's exception |
| `VRChatManager.SentimentTableClosed` | whisper_mic/vrchat_manager.py:6-26 | every category listed for a sentiment label has a non-empty code list, so the nested choice never fails for a known label |
| `VRChatManager.TableCodes` | whisper_mic/vrchat_manager.py:6-18 | the table codes are exactly 0-4, 6-8 and 10-16 |
| `VRChatManager.EmotionTakesPrecedence` | whisper_mic/vrchat_manager.py:38-44 | when there is a first emotion, the sentiments and the second draw do not affect the result |
| `VRChatManager.EmptyEmotionGivesNeutral` | whisper_mic/vrchat_manager.py:38-42 | a first emotion whose aggregate is trust, surprise, anticipation, shame or unknown gives 0 |
| `VRChatManager.EmotionChoiceCoversList` | whisper_mic/vrchat_manager.py:39-42 | every code in the first emotion's list is produced by some draw |
| `VRChatManager.PolarSentimentThreshold` | whisper_mic/vrchat_manager.py:47-54 | for POSITIVE or NEGATIVE with no emotion, the code is non-zero iff the score is strictly above 0.65, and exactly 0.65 gives 0 |
| `VRChatManager.OtherSentimentThreshold` | whisper_mic/vrchat_manager.py:49-54 | for any other label the threshold is 0: NEUTRAL above 0 gives a code in 0-4, an unknown label above 0 raises TypeError, a score of 0 or below gives 0 |
| `VRChatManager.RaisesExactlyWhen` | whisper_mic/vrchat_manager.py:38-54 | the selection raises iff the first emotion is None, or there is no emotion and a label outside the table has a score above 0 |
| `VRChatManager.SentimentChoiceCovers` | whisper_mic/vrchat_manager.py:52-54 | every code reachable from a sentiment label is produced by some pair of draws |
| `CheckExpressionChange.PyInt` | whisper_mic/check_expression_change.py:21 | `int()` of an OSC argument: integers unchanged, floats truncated toward zero, booleans 0 and 1, and nil (None) raises TypeError, the only failing case |
| `CheckExpressionChange.ExpressionWatchdog.constructor` | whisper_mic/check_expression_change.py:10-11 | the state starts at the start time with code 0, so no reset is due before an emote message |
| `CheckExpressionChange.ExpressionWatchdog.PrintData` | whisper_mic/check_expression_change.py:14-21 | a message without arguments raises IndexError and records nothing; an address containing the emote parameter records now, then the argument as an integer, and when that conversion raises, the time stays recorded and the code is kept; any other address changes nothing |
| `CheckExpressionChange.ExpressionWatchdog.CheckExpressionChangeTime` | whisper_mic/check_expression_change.py:28-31 | one check sends a message iff more than 15 s have passed and the code is not 0, and the message is code 0 on the emote address; the state is not changed |
| `CheckExpressionChange.NeutralNeverReset` | whisper_mic/check_expression_change.py:29 | a code of 0 is never reset |
| `CheckExpressionChange.ResetBoundaryIsStrict` | whisper_mic/check_expression_change.py:29 | exactly 15 s after a change nothing is due; any later moment is due for a non-zero code |
| `CheckExpressionChange.ResetStaysDue` | whisper_mic/check_expression_change.py:24-33 | once due, a reset is due at every later check until an emote message changes the state |
| `WhisperMic.ModelName` | whisper_mic/whisper_mic.py:75-76 | the name gets `.en` appended iff english is set and the model is neither large nor large-v2; otherwise it is unchanged |
| `WhisperMic.ConcatAppend` | whisper_mic/whisper_mic.py:123-126 | draining after one more chunk was queued yields the earlier chunks' bytes followed by that chunk |
| `WhisperMic.ConcatLength` | whisper_mic/whisper_mic.py:124-126 | the drained audio is as long as all chunks together |
| `WhisperMic.NoFilteredSent` | whisper_mic/whisper_mic.py:197-202 | the flag stays true iff no filtered phrase is a substring of the transcript |
| `WhisperMic.DenylistedStillOutput` | whisper_mic/whisper_mic.py:59-64 | a transcript containing a filtered phrase is never analysed, yet it is not a banned result, so it is still output |
| `WhisperMic.NoEmotionMeansNeutral` | whisper_mic/whisper_mic.py:205-212 | with the pipeline's empty sentiments and no matched emotion, the avatar is sent code 0 |
| `WhisperMic.WhisperMic.constructor` | whisper_mic/whisper_mic.py:59-97 | empty queues, analysis enabled, and the model name after the suffix rule |
| `WhisperMic.WhisperMic.RecordLoad` | whisper_mic/whisper_mic.py:155-157 | exactly one chunk, the raw bytes, joins the back of the audio queue |
| `WhisperMic.WhisperMic.GetAllAudio` | whisper_mic/whisper_mic.py:119-130 | the result is the FIFO concatenation of the queued chunks and the queue is left empty |
| `WhisperMic.WhisperMic.Transcribe` | whisper_mic/whisper_mic.py:165-224 | analysis runs iff enabled, the transcript is non-empty and not denylisted; the avatar gets exactly one message iff the vrchat flag is also set and the selection succeeds; an exception ends the call before output; otherwise the transcript is queued iff it is not a banned result; analysis stays enabled |
| `WhisperMic.WhisperMic.ListenHandler` | whisper_mic/whisper_mic.py:133-143 | a heard phrase is queued, drained together with what was queued before and transcribed; a timeout or unintelligible audio queues its fixed sentinel and changes nothing else |

## Left out

- Transcription, tokenisation and sentiment models (nue_asr, whisper, torch,
  spacy with ginza, transformers) are external. The engine and the tokenizer
  are function parameters. The sentiment classifier's `None` result is the
  constant `PipelineSentiments`.
- `__preprocess`, the int16 to float32 scaling, is floating-point numerics.
  The engine parameter receives the raw bytes instead.
- Microphone setup, `listen`/`record` busy-waits for a result, keyboard
  typing, logging and printing are I/O.
- Concurrency and timing are left out: `listen_loop`,
  `__transcribe_forever`, `listen_in_background`, the watchdog thread, the
  OSC server and the 5-second sleeps. One check or one transition is
  modelled, not the scheduling.
- `__switch_emotion_analysis_once` is not modelled. Its thread is never
  started because `change_expression` returns None.
- WhisperMic.WhisperMic.GetAllAudio: requires a queued chunk. The source
  waits for a chunk another thread has yet to queue; that concurrency is not
  modelled. Its `min_time` wall-clock wait is left out too.
- WhisperMic.WhisperMic.Transcribe: with `data=None` it requires a queued
  chunk, for the same reason as `GetAllAudio`. The source blocks in
  `__get_all_audio` until another thread queues one.
- Scores and times are Dafny reals standing for Python doubles. The
  literal 0.65 in `ExpressionNum` means the double written 0.65, and a
  score is compared with it exactly. Double rounding is not modelled,
  including the rounding in `time.time() - LAST_EXPRESSION_CHANGE_TIME`.
  A score between the decimal 0.65 and the double nearest it would compare
  differently in Python.
- UDP and OSC transport: only the address and value that would be sent are
  modelled.
- OSC string and blob arguments, and floats that are NaN or infinite, are
  not modelled. Their `int()` conversion would parse text or raise. If such
  a conversion raised, the timer would already be restarted, as the model
  shows for nil.
- `__record_handler` is the same load, drain and transcribe sequence as a
  heard phrase in `ListenHandler`, without the exception handling.
- The whisper-model branch of `__transcribe` and the English or Japanese
  language choice are not modelled. `use_nue_asr` is hard-wired true, so
  this branch never runs and the model name is computed but unused.
- `save_file` is taken to be false. With it set, `os.remove(audio_data)`
  at whisper_mic/whisper_mic.py:227 receives the float32 tensor that
  `__preprocess` returned at whisper_mic/whisper_mic.py:184, which is not a
  path.
- `ListenHandler`'s `Unintelligible` case treats `UnknownValueError` as a
  third outcome of listening. In the source, `Recognizer.listen` raises only
  `WaitTimeoutError`. The `UnknownValueError` handler at
  whisper_mic/whisper_mic.py:142-143 could only fire after `__record_load`
  and `__get_all_audio` had run, and nothing visible in the try block raises
  it. The model does not capture that ordering.
- `toggle_microphone` is not modelled. It is marked unfinished: it flips
  `mic_active`, prints, and joins a `mic_thread` that is never assigned.
- whisper_mic/cli.py parses options and has no decision logic.
