/** The conversation session: the message log and the learned client
    language kept in the Streamlit session state (app.py:44-47), changed by
    one pass of the listening block (app.py:105-140, calling
    `get_translation` at app.py:50-69), by the clear button (app.py:94-97)
    and by the listening button (app.py:85-92). */
module Conversation {
  import opened Speech
  import opened Interpreting

  /** One entry of the chat log, the record appended at app.py:129-134. */
  datatype Message = Message(role: Role, original: string, translated: string, lang: string)

  /** What the speech-to-text service returned for one recorded block: the
      text and the language it detected, or the error it raised. */
  datatype Transcription = Transcribed(text: string, language: string) | NotTranscribed(error: string)

  /** What one pass of the listening block ends in: a message appended,
      silence (nothing happens), or an error message shown to the user. */
  datatype Outcome = Appended | Silent | ErrorShown(message: string)

  /** The value `get_translation` returns: role, translation, language code. */
  datatype Translation = Translation(role: Role, translated: string, lang: string)

  datatype Result<T> = Ok(value: T) | Err(error: string)

  /** The two parts of the session state the interpreter changes. */
  datatype State = State(messages: seq<Message>, learned: Option<string>)

  /** The state after a step, the prompts sent to the translation service
      during it (in order), and what the user is shown. */
  datatype Effect = Effect(state: State, prompts: seq<string>, outcome: Outcome)

  /** The text shown by the `except` branch of the listening block. */
  function ErrorText(error: string): string
  {
    "Error: " + error
  }

  /** One pass of the listening block on state `s`, as a function: the
      translation service is the (possibly failing) function `respond` of
      the prompt it receives. */
  function Ingested(s: State, t: Transcription, manual: string, respond: string -> Reply): Effect
  {
    match t
    case NotTranscribed(error) => Effect(s, [], ErrorShown(ErrorText(error)))
    case Transcribed(text, lang) =>
      if !HasSpeech(text) then Effect(s, [], Silent)
      else
        var route := Route(text, lang, manual, s.learned);
        match respond(route.prompt)
        case Completed(content) =>
          Effect(State(s.messages + [Message(route.role, text, content, lang)], route.learned),
                 [route.prompt], Appended)
        case Failed(error) =>
          Effect(State(s.messages, route.learned), [route.prompt], ErrorShown(ErrorText(error)))
  }

  /** The user-visible events that change the log: one pass of the listening
      block (it only runs while listening is on), with the language selected
      by hand at that moment, or a press of the clear button. */
  datatype Event = Heard(t: Transcription, manual: string) | ClearPressed

  /** The state the clear button leaves, which is also the initial state. */
  const Cleared: State := State([], None)

  function Step(s: State, e: Event, respond: string -> Reply): State
  {
    match e
    case Heard(t, manual) => Ingested(s, t, manual, respond).state
    case ClearPressed => Cleared
  }

  /** The state after a sequence of events, last event applied last. */
  function Run(s: State, events: seq<Event>, respond: string -> Reply): State
    decreases |events|
  {
    if events == [] then s
    else Step(Run(s, events[..|events| - 1], respond), events[|events| - 1], respond)
  }

  /** The remote chat-completion service. Every call is logged in `sent`, so
      that callers can state how many calls an operation makes and with
      which prompts; what it answers is the fixed function `respond`. */
  class Translator {
    const respond: string -> Reply
    var sent: seq<string>

    constructor (respond: string -> Reply)
      ensures this.respond == respond && sent == []
    {
      this.respond := respond;
      sent := [];
    }

    method Complete(prompt: string) returns (reply: Reply)
      modifies this
      ensures sent == old(sent) + [prompt]
      ensures reply == respond(prompt)
    {
      sent := sent + [prompt];
      reply := respond(prompt);
    }
  }

  /** The Streamlit session state: `messages`, `idioma_cliente` (here
      `learned`) and `listening`. */
  class Session {
    var messages: seq<Message>
    var learned: Option<string>
    var listening: bool

    function Snapshot(): State
      reads this
    {
      State(messages, learned)
    }

    /** A fresh session: an empty log, no learned language, not listening. */
    constructor ()
      ensures Snapshot() == Cleared && !listening
    {
      messages := [];
      learned := None;
      listening := false;
    }

    /** The listening button: "start" when off, "stop" when on. */
    method PressListenButton()
      modifies this`listening
      ensures listening == !old(listening)
    {
      if !listening {
        listening := true;
      } else {
        listening := false;
      }
    }

    /** The clear (anonymise) button: both parts are reset together. */
    method Clear()
      modifies this`messages, this`learned
      ensures Snapshot() == Cleared
    {
      messages := [];
      learned := None;
    }

    /** `get_translation`: the learned language is updated BEFORE the one
        call to the service, so a failing call still leaves it changed. */
    method GetTranslation(text: string, detected: string, manual: string, llm: Translator)
      returns (r: Result<Translation>)
      modifies this`learned, llm
      ensures var route := Route(text, detected, manual, old(learned));
        && learned == route.learned
        && llm.sent == old(llm.sent) + [route.prompt]
        && r == match llm.respond(route.prompt)
                case Completed(content) => Ok(Translation(route.role, content, detected))
                case Failed(error) => Err(error)
    {
      var prompt, role;
      if detected == Professional {
        var target := if IsSet(learned) then learned.value else manual;
        prompt := OutboundPrompt(target, text);
        role := Me;
      } else {
        learned := Some(detected);
        prompt := InboundPrompt(text);
        role := Client;
      }
      var reply := llm.Complete(prompt);
      match reply
      case Completed(content) => r := Ok(Translation(role, content, detected));
      case Failed(error) => r := Err(error);
    }

    /** One pass of the listening block, from the transcription on. */
    method Ingest(t: Transcription, manual: string, llm: Translator) returns (outcome: Outcome)
      requires listening
      modifies this`messages, this`learned, llm
      ensures var e := Ingested(old(Snapshot()), t, manual, llm.respond);
        Snapshot() == e.state && llm.sent == old(llm.sent) + e.prompts && outcome == e.outcome
    {
      match t
      case NotTranscribed(error) =>
        outcome := ErrorShown(ErrorText(error));
      case Transcribed(text, lang) =>
        if Strip(text) != [] && |text| > 2 {
          var r := GetTranslation(text, lang, manual, llm);
          match r
          case Ok(translation) =>
            messages := messages + [Message(translation.role, text, translation.translated, translation.lang)];
            outcome := Appended;
          case Err(error) =>
            outcome := ErrorShown(ErrorText(error));
        } else {
          outcome := Silent;
        }
    }
  }

  /** A session driven through a sequence of events: each `Heard` event is
      one pass of the listening block, each `ClearPressed` a press of the
      clear button. The object ends in the state `Run` describes, so every
      lemma about `Run` holds of the `Session` object too. */
  method Replay(session: Session, events: seq<Event>, llm: Translator)
    requires session.listening
    modifies session, llm
    ensures session.listening
    ensures session.Snapshot() == Run(old(session.Snapshot()), events, llm.respond)
  {
    ghost var start := session.Snapshot();
    for i := 0 to |events|
      invariant session.listening
      invariant session.Snapshot() == Run(start, events[..i], llm.respond)
    {
      match events[i] {
        case Heard(t, manual) =>
          var outcome := session.Ingest(t, manual, llm);
        case ClearPressed =>
          session.Clear();
      }
      RunSnoc(start, events[..i], events[i], llm.respond);
      assert events[..i] + [events[i]] == events[..i + 1];
    }
    assert events[..|events|] == events;
  }

  // ---------------------------------------------------------------------
  // Properties of one pass of the listening block

  /** A transcription that fails the silence filter changes nothing and
      makes no call to the translation service. */
  lemma SilenceIsIgnored(s: State, text: string, lang: string, manual: string, respond: string -> Reply)
    requires !HasSpeech(text)
    ensures Ingested(s, Transcribed(text, lang), manual, respond) == Effect(s, [], Silent)
  {
  }

  /** A transcription that passes the filter makes exactly one call, with
      the prompt for its role, whatever the service answers; the learned
      language afterwards is the one routing decided. */
  lemma SpeechCallsOnce(s: State, text: string, lang: string, manual: string, respond: string -> Reply)
    requires HasSpeech(text)
    ensures var e := Ingested(s, Transcribed(text, lang), manual, respond);
      && e.prompts == [Route(text, lang, manual, s.learned).prompt]
      && e.state.learned == (if lang == Professional then s.learned else Some(lang))
  {
  }

  /** A successful pass appends exactly one message at the end, holding the
      role, the UNTRIMMED text, the service's answer and the DETECTED
      language (never the target); earlier messages are unchanged. */
  lemma SuccessAppendsOne(s: State, text: string, lang: string, manual: string, respond: string -> Reply)
    requires HasSpeech(text)
    requires respond(Route(text, lang, manual, s.learned).prompt).Completed?
    ensures var e := Ingested(s, Transcribed(text, lang), manual, respond);
      && e.outcome == Appended
      && |e.state.messages| == |s.messages| + 1
      && e.state.messages[..|s.messages|] == s.messages
      && e.state.messages[|s.messages|].original == text
      && e.state.messages[|s.messages|].lang == lang
      && e.state.messages[|s.messages|].translated
         == respond(Route(text, lang, manual, s.learned).prompt).content
      && (e.state.messages[|s.messages|].role == Me <==> lang == Professional)
  {
  }

  /** A failed call appends nothing, but a client utterance has already
      overwritten the learned language. */
  lemma FailureStillLearns(s: State, text: string, lang: string, manual: string, respond: string -> Reply)
    requires HasSpeech(text)
    requires respond(Route(text, lang, manual, s.learned).prompt).Failed?
    ensures var e := Ingested(s, Transcribed(text, lang), manual, respond);
      && e.outcome.ErrorShown?
      && e.state.messages == s.messages
      && e.state.learned == (if lang == Professional then s.learned else Some(lang))
  {
  }

  /** A witness that a pass is not atomic: a French utterance whose
      translation fails leaves no message but changes the learned language. */
  lemma FailedClientTurnIsNotAtomic()
    ensures var e := Ingested(Cleared, Transcribed("Bonjour", "fr"), "Inglés", p => Failed("timeout"));
      e.state.messages == [] && e.state.learned == Some("fr") && e.state != Cleared
  {
  }

  // ---------------------------------------------------------------------
  // Properties of whole sessions

  /** The log's tagging invariant: a message is the professional's exactly
      when its language is the professional language. */
  ghost predicate WellTagged(messages: seq<Message>)
  {
    forall i :: 0 <= i < |messages| ==> (messages[i].role == Me <==> messages[i].lang == Professional)
  }

  lemma StepKeepsTagging(s: State, e: Event, respond: string -> Reply)
    requires WellTagged(s.messages)
    ensures WellTagged(Step(s, e, respond).messages)
  {
  }

  lemma {:induction false} RunKeepsTagging(s: State, events: seq<Event>, respond: string -> Reply)
    requires WellTagged(s.messages)
    ensures WellTagged(Run(s, events, respond).messages)
  {
    if events != [] {
      RunKeepsTagging(s, events[..|events| - 1], respond);
      StepKeepsTagging(Run(s, events[..|events| - 1], respond), events[|events| - 1], respond);
    }
  }

  /** Reference definition of the learned language: the detected language
      of the last non-Spanish utterance that passed the silence filter since
      the last clear, or the starting value if there is none. */
  function LearnedAfter(learned: Option<string>, events: seq<Event>): Option<string>
    decreases |events|
  {
    if events == [] then learned
    else
      var before := LearnedAfter(learned, events[..|events| - 1]);
      match events[|events| - 1]
      case ClearPressed => None
      case Heard(NotTranscribed(_), _) => before
      case Heard(Transcribed(text, lang), _) =>
        if HasSpeech(text) && lang != Professional then Some(lang) else before
  }

  /** The learned language after a session is the reference one; in
      particular it does not depend on what the service answered. */
  lemma {:induction false} RunLearnsLastClientLanguage(s: State, events: seq<Event>, respond: string -> Reply)
    ensures Run(s, events, respond).learned == LearnedAfter(s.learned, events)
  {
    if events != [] {
      RunLearnsLastClientLanguage(s, events[..|events| - 1], respond);
    }
  }

  /** Without a clear, the log only grows at its end. */
  lemma {:induction false} RunOnlyAppends(s: State, events: seq<Event>, respond: string -> Reply)
    requires forall i :: 0 <= i < |events| ==> events[i].Heard?
    ensures s.messages <= Run(s, events, respond).messages
  {
    if events != [] {
      var prefix := events[..|events| - 1];
      RunOnlyAppends(s, prefix, respond);
      var mid := Run(s, prefix, respond);
      assert mid.messages <= Step(mid, events[|events| - 1], respond).messages;
    }
  }

  /** A clear forgets everything before it, so clearing twice is clearing once. */
  lemma ClearForgets(s: State, events: seq<Event>, respond: string -> Reply)
    ensures Run(s, events + [ClearPressed], respond) == Cleared
    ensures Run(s, events + [ClearPressed, ClearPressed], respond) == Run(s, events + [ClearPressed], respond)
  {
  }

  /** Running one more event is one more step. */
  lemma RunSnoc(s: State, events: seq<Event>, e: Event, respond: string -> Reply)
    ensures Run(s, events + [e], respond) == Step(Run(s, events, respond), e, respond)
  {
  }

  /** A client utterance that is answered appends a client message and
      makes its language the learned one. */
  lemma ClientStep(s: State, text: string, lang: string, manual: string, respond: string -> Reply)
    requires HasSpeech(text) && lang != Professional
    requires respond(InboundPrompt(text)).Completed?
    ensures Step(s, Heard(Transcribed(text, lang), manual), respond)
         == State(s.messages + [Message(Client, text, respond(InboundPrompt(text)).content, lang)], Some(lang))
  {
  }

  /** A professional utterance that is answered appends a professional
      message translated into the learned-or-manual target. */
  lemma ProfessionalStep(s: State, text: string, manual: string, respond: string -> Reply)
    requires HasSpeech(text)
    requires respond(OutboundPrompt(TargetLanguage(s.learned, manual), text)).Completed?
    ensures Step(s, Heard(Transcribed(text, Professional), manual), respond)
         == State(s.messages + [Message(Me, text,
                    respond(OutboundPrompt(TargetLanguage(s.learned, manual), text)).content, Professional)],
                  s.learned)
  {
  }

  /** After any history, an answered client utterance appends a client
      message and makes its language the learned one. */
  lemma RunThenClient(s: State, before: seq<Event>, text: string, lang: string, manual: string,
                      respond: string -> Reply)
    requires HasSpeech(text) && lang != Professional
    requires respond(InboundPrompt(text)).Completed?
    ensures Run(s, before + [Heard(Transcribed(text, lang), manual)], respond)
         == State(Run(s, before, respond).messages
                    + [Message(Client, text, respond(InboundPrompt(text)).content, lang)], Some(lang))
  {
    RunSnoc(s, before, Heard(Transcribed(text, lang), manual), respond);
    ClientStep(Run(s, before, respond), text, lang, manual, respond);
  }

  /** After any history, an answered professional utterance appends a
      professional message translated into the learned-or-manual target. */
  lemma RunThenProfessional(s: State, before: seq<Event>, text: string, manual: string,
                            respond: string -> Reply)
    requires HasSpeech(text)
    requires respond(OutboundPrompt(TargetLanguage(Run(s, before, respond).learned, manual), text)).Completed?
    ensures var mid := Run(s, before, respond);
      Run(s, before + [Heard(Transcribed(text, Professional), manual)], respond)
      == State(mid.messages + [Message(Me, text,
                 respond(OutboundPrompt(TargetLanguage(mid.learned, manual), text)).content, Professional)],
               mid.learned)
  {
    RunSnoc(s, before, Heard(Transcribed(text, Professional), manual), respond);
    ProfessionalStep(Run(s, before, respond), text, manual, respond);
  }

  /** After any history, a block that fails the silence filter changes nothing. */
  lemma RunThenSilence(s: State, before: seq<Event>, text: string, lang: string, manual: string,
                       respond: string -> Reply)
    requires !HasSpeech(text)
    ensures Run(s, before + [Heard(Transcribed(text, lang), manual)], respond) == Run(s, before, respond)
  {
    RunSnoc(s, before, Heard(Transcribed(text, lang), manual), respond);
  }

  /** The opening of a consultation: a client speaking language `first`,
      then the professional's Spanish answer, translated into the learned
      `first` rather than the hand-selected `manual`. */
  lemma OpeningTurns(client: string, answer: string, first: string, manual: string, respond: string -> Reply)
    requires HasSpeech(client) && HasSpeech(answer)
    requires first != Professional && first != ""
    requires respond(InboundPrompt(client)).Completed? && respond(OutboundPrompt(first, answer)).Completed?
    ensures Run(Cleared, [Heard(Transcribed(client, first), manual),
                          Heard(Transcribed(answer, Professional), manual)], respond)
         == State([Message(Client, client, respond(InboundPrompt(client)).content, first),
                   Message(Me, answer, respond(OutboundPrompt(first, answer)).content, Professional)],
                  Some(first))
  {
    var e0 := Heard(Transcribed(client, first), manual);
    var e1 := Heard(Transcribed(answer, Professional), manual);
    assert Run(Cleared, [e0], respond)
        == State([Message(Client, client, respond(InboundPrompt(client)).content, first)], Some(first)) by {
      RunThenClient(Cleared, [], client, first, manual, respond);
      assert [] + [e0] == [e0];
    }
    RunThenProfessional(Cleared, [e0], answer, manual, respond);
    assert [e0] + [e1] == [e0, e1];
  }

  /** A session in the order of a consultation: the opening turns, the
      client switching to `second`, then a block of silence that changes
      nothing. */
  lemma LanguageSwitchScenario(client: string, answer: string, reply: string, blank: string,
                               first: string, second: string, manual: string, respond: string -> Reply)
    requires HasSpeech(client) && HasSpeech(answer) && HasSpeech(reply) && !HasSpeech(blank)
    requires first != Professional && first != "" && second != Professional
    requires respond(InboundPrompt(client)).Completed? && respond(InboundPrompt(reply)).Completed?
    requires respond(OutboundPrompt(first, answer)).Completed?
    ensures var s := Run(Cleared, [Heard(Transcribed(client, first), manual),
                                   Heard(Transcribed(answer, Professional), manual),
                                   Heard(Transcribed(reply, second), manual),
                                   Heard(Transcribed(blank, Professional), manual)], respond);
      && |s.messages| == 3
      && s.messages[0] == Message(Client, client, respond(InboundPrompt(client)).content, first)
      && s.messages[1] == Message(Me, answer, respond(OutboundPrompt(first, answer)).content, Professional)
      && s.messages[2] == Message(Client, reply, respond(InboundPrompt(reply)).content, second)
      && s.learned == Some(second)
  {
    var e0 := Heard(Transcribed(client, first), manual);
    var e1 := Heard(Transcribed(answer, Professional), manual);
    var e2 := Heard(Transcribed(reply, second), manual);
    var e3 := Heard(Transcribed(blank, Professional), manual);
    var m0 := Message(Client, client, respond(InboundPrompt(client)).content, first);
    var m1 := Message(Me, answer, respond(OutboundPrompt(first, answer)).content, Professional);
    var m2 := Message(Client, reply, respond(InboundPrompt(reply)).content, second);
    var s3 := State([m0, m1, m2], Some(second));
    OpeningTurns(client, answer, first, manual, respond);
    RunThenClient(Cleared, [e0, e1], reply, second, manual, respond);
    assert [e0, e1] + [e2] == [e0, e1, e2];
    assert Run(Cleared, [e0, e1, e2], respond) == s3;
    RunThenSilence(Cleared, [e0, e1, e2], blank, Professional, manual, respond);
    assert [e0, e1, e2] + [e3] == [e0, e1, e2, e3];
  }

  /** The texts of a concrete consultation pass or fail the silence filter
      as expected. */
  lemma ConsultationTexts()
    ensures HasSpeech("Hello, I need help") && HasSpeech("Buenos días, cuénteme su caso")
    ensures HasSpeech("Oui") && !HasSpeech(" ")
  {
    assert !IsSpace("Hello, I need help"[0]);
    assert !IsSpace("Buenos días, cuénteme su caso"[0]);
    assert !IsSpace("Oui"[0]);
    SilenceCases(" ");
  }
}
