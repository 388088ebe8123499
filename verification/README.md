# Conversation session of the "Traductor Despacho" interpreter

A Streamlit page (`app.py`) lets a Spanish-speaking professional talk with a
foreign-language client. While listening is on, each recorded block is
transcribed by a remote speech-to-text service, which also reports a detected
language. Then:

- a silence filter drops near-empty transcripts;
- `get_translation` decides who spoke: `"es"` means the professional (`"me"`),
  anything else means the client, whose language is then remembered as the
  learned client language (`idioma_cliente`);
- one prompt goes to a remote chat-completion service;
- the answer is appended to the chat log (`messages`) as one message.

A clear button resets the log and the learned language together. The chat
view draws one bubble per message.

This project models that session state machine in Dafny:

- `speech.dfy` (module `Speech`): Python's `str.strip()`, the silence filter,
  and the `str.upper()` used on client tags.
- `interpreting.dfy` (module `Interpreting`): role selection, target selection
  and the exact prompts of `get_translation`, as the pure function `Route`.
- `conversation.dfy` (module `Conversation`):
  - the remote service is the class `Translator`. It logs every prompt it
    receives and answers by a fixed, possibly failing function of the prompt.
  - the session state is the class `Session`, with methods for
    `get_translation`, one pass of the listening block, the clear button and
    the listening button.
  - each method is proved against a pure specification: `Ingest` against
    `Ingested`, `GetTranslation` against `Route`, `Clear` against the
    initial state `Cleared`; the listening button flips its flag.
  - `Replay` drives a `Session` through a sequence of events by calling
    `Ingest` and `Clear`, and is proved to end in the state `Run` gives. So
    the lemmas about `Run` hold of the `Session` object too.
- `rendering.dfy` (module `Rendering`): the loop that turns the log into
  bubbles, with the label and right-to-left choices.

Behaviour that the code has and a reader might not expect (the model follows
the code):

- The silence filter tests the UNTRIMMED length (`len(text) > 2`) together
  with a non-empty stripped text. So `"  a"` is processed
  (`Speech.PaddedLetterIsSpeech`), and the stored original keeps its padding
  (`Conversation.SuccessAppendsOne`).
- In the client branch, the learned language is overwritten BEFORE the call
  to the translation service. A failed call appends nothing but leaves the
  new learned language in place, so an ingestion is not atomic
  (`Conversation.FailureStillLearns`, `Conversation.FailedClientTurnIsNotAtomic`).
- Professional utterances are always translated. The hand-selected language
  always provides a target, so there is no branch without a translation call.
- "Set" means Python truthiness: a learned language equal to `""` counts as
  unset, and the manual selection is used (`Interpreting.TargetLanguageCases`).
- Every professional bubble is labelled with the CURRENT learned-or-manual
  language. That is not the language its translation was made into
  (`Rendering.RenderChat`, `Rendering.MeLabelFollowsLaterClient`).

## Model

| member | source | states |
|---|---|---|
| Speech.LeadingSpace | app.py:127 | the leading run removed by `strip()`: all of it whitespace, followed by a non-whitespace character or the end |
| Speech.TrailingSpace | app.py:127 | the trailing run removed by `strip()`: all of it whitespace, preceded by a non-whitespace character or the start |
| Speech.Strip | app.py:127 | `strip()` yields an infix of the text that does not start or end with whitespace, everything cut off being whitespace; it is empty iff the text is all whitespace |
| Speech.HasSpeech | app.py:127 | the silence filter passes iff the untrimmed text is longer than 2 characters and holds some non-whitespace character |
| Speech.Upper | app.py:161 | `upper()` keeps the length, leaves no ASCII lower-case letter, maps each ASCII lower-case letter to its capital and keeps every other character |
| Speech.PaddedLetterIsSpeech | app.py:127 | `"  a"` passes the filter although its stripped text is the single letter `"a"` |
| Speech.SilenceCases | app.py:127 | a text of at most 2 characters, or of whitespace only, is silence |
| Interpreting.TargetLanguageCases | app.py:54 | the target is the learned language when it is a non-empty string, and the manual selection when it is `None` or `""` |
| Interpreting.RoleFollowsDetectedLanguage | app.py:52-62 | the role is `"me"` iff the detected language is `"es"`, and `"client"` iff it is not |
| Interpreting.ProfessionalKeepsLearned | app.py:52-57 | an `"es"` utterance leaves the learned language unchanged and is sent as a Spanish-to-target prompt for the learned-or-manual target |
| Interpreting.ClientOverwritesLearned | app.py:58-62 | any other detected language becomes the learned language, overwriting any earlier value, and the utterance is sent as a to-Spanish prompt |
| Interpreting.InboundPromptQuotes | app.py:61 | the to-Spanish prompt contains the utterance verbatim at a fixed place, and different utterances give different prompts |
| Interpreting.OutboundPromptQuotes | app.py:55 | the Spanish-to-target prompt ends with the utterance verbatim, and for a given utterance it determines the target, and the other way round |
| Interpreting.DirectionsDiffer | app.py:55-61 | a professional prompt is never equal to a client prompt |
| Conversation.Translator.Complete | app.py:65-68 | one call to the chat-completion service: the prompt is logged and the answer is the service's reply to it |
| Conversation.Session.constructor | app.py:45-47 | a new session has an empty log, no learned language and listening off |
| Conversation.Session.PressListenButton | app.py:85-92 | the listening button flips the listening flag and nothing else |
| Conversation.Session.Clear | app.py:94-97 | the clear button empties the log and unsets the learned language together |
| Conversation.Session.GetTranslation | app.py:50-69 | `get_translation` sets the learned language as `Route` decides, makes exactly one call, with `Route`'s prompt, and returns the role, the reply and the DETECTED language code, or the error |
| Conversation.Session.Ingest | app.py:117-140 | one pass of the listening block changes the log, the learned language and the translator's call log exactly as `Ingested` says |
| Conversation.Replay | app.py:94-140 | driving a session object through any sequence of listening passes and clear presses leaves it in the state `Run` describes, with listening still on |
| Conversation.SilenceIsIgnored | app.py:127 | a transcript failing the filter changes neither the log nor the learned language, and makes no call |
| Conversation.SpeechCallsOnce | app.py:127-128 | a transcript passing the filter makes exactly one call, with the prompt for its role, whatever the reply is |
| Conversation.SuccessAppendsOne | app.py:128-134 | a successful pass appends exactly one message at the end, with the role, untrimmed original, reply and detected language; earlier messages are unchanged |
| Conversation.FailureStillLearns | app.py:127-138 | a failed call appends nothing and shows an error, yet a client utterance has already overwritten the learned language |
| Conversation.FailedClientTurnIsNotAtomic | app.py:58-68 | a French utterance whose translation fails leaves an empty log but a learned language of `"fr"` |
| Conversation.StepKeepsTagging | app.py:128-134 | each step keeps the log invariant that a message is the professional's iff its language is `"es"` |
| Conversation.RunKeepsTagging | app.py:128-134 | that invariant holds after any sequence of passes and clears |
| Conversation.RunLearnsLastClientLanguage | app.py:58-60 | after any session, the learned language is that of the last non-`"es"` utterance passing the filter since the last clear, whatever the service replied |
| Conversation.RunOnlyAppends | app.py:129 | without a clear, the old log is a prefix of the new one |
| Conversation.ClearForgets | app.py:94-97 | after a clear the state is the initial one whatever came before, so clearing twice is clearing once |
| Conversation.ClientStep | app.py:58-69 | an answered client utterance appends a client message and makes its language the learned one |
| Conversation.ProfessionalStep | app.py:52-69 | an answered professional utterance appends a professional message translated into the learned-or-manual target and keeps the learned language |
| Conversation.LanguageSwitchScenario | app.py:50-69 | a client in one language, the professional's answer translated into that learned language (not the manual one), the client switching language, then silence: three messages, and the second language learned |
| Conversation.ConsultationTexts | app.py:127 | the concrete texts "Hello, I need help", "Buenos días, cuénteme su caso" and "Oui" pass the filter and `" "` does not |
| Rendering.RenderChat | app.py:145-165 | one bubble per message in order, with role, original and translation; right-to-left iff a client message in `"ar"`; every professional bubble labelled with the current learned-or-manual language; client bubbles tagged with the capitalised language and labelled "Español" |
| Rendering.MeLabelFollowsLaterClient | app.py:148 | an earlier professional message stays in the log unchanged after a French client utterance, while the learned-or-manual label, which `RenderChat` puts on every professional bubble, changes from another language to `"fr"` |

## Left out

- Page setup, CSS and the HTML markup of the bubbles (app.py:11-35, 143-166).
  Only what each bubble shows is modelled.
- Construction of the Groq client and the API-key check (app.py:38-42), which
  configure a foreign library.
- Audio capture with `sounddevice`, WAV writing with `scipy`, and temporary
  file creation and removal (app.py:106-118, 135, 140). These are device and
  file I/O. The transcription arrives as an input `Transcription`: a text and
  a detected language, or an error.
- The internals of the speech-to-text and chat-completion services
  (app.py:65-68, 120-124). The service is an uninterpreted function of the
  prompt, and it may fail.
- Conversation.Translator.Complete: answers by a fixed function of the prompt,
  so two identical prompts get the same reply. A remote model's
  nondeterminism is not captured.
- The model name and other request parameters sent to the services
  (app.py:66, 122-123) are not modelled.
- `st.rerun()`, `st.stop()`, spinners and the status messages
  (app.py:88, 92, 97, 99-102, 109, 136) are framework control flow.
- The `display_lang` computed at app.py:57 and app.py:63 is never used, so it
  is not modelled.
- The list of languages offered by the selector (app.py:80) is not enforced.
  The manual selection is any string.
- Speech.Upper: maps only the ASCII letters. Python's full Unicode case
  mapping is not modelled, because language codes are ASCII.
- A reply whose content is `None`, and errors raised while the temporary file
  is written or removed, are not modelled.
- Conversation.Session.Ingest requires the listening flag to be on. The
  listening block only runs then (app.py:105). In `Run`, each `Heard` event
  stands for one pass of that block.
