/** The decision logic of `get_translation` (app.py:50-69): who spoke, which
    language the conversation is learned to be in, and which prompt goes to
    the chat-completion service. */
module Interpreting {

  datatype Option<T> = None | Some(value: T)

  /** The language the professional speaks; an utterance detected in it is
      always attributed to the professional. */
  const Professional: string := "es"

  /** The speaker of an utterance: "me" (the professional) or "client". */
  datatype Role = Me | Client

  /** What the chat-completion service gives back for one prompt: the
      content of its first choice, or the error it raised. */
  datatype Reply = Completed(content: string) | Failed(error: string)

  /** Python truthiness of the learned client language: `None` and the
      empty string are both unset. */
  predicate IsSet(learned: Option<string>)
  {
    learned.Some? && learned.value != ""
  }

  /** The language a professional utterance is translated into, also the
      label of every professional bubble: the learned client language when
      it is set, otherwise the language selected by hand. */
  function TargetLanguage(learned: Option<string>, manual: string): string
  {
    if IsSet(learned) then learned.value else manual
  }

  const OutboundHead: string := "Translate from Spanish to "
  const OutboundMiddle: string := ". Return ONLY the translation: "
  const InboundHead: string := "Traduce al español de forma profesional: "
  const InboundTail: string := ". Devuelve SOLO la traducción."

  /** The prompt for a professional utterance, into `target`. */
  function OutboundPrompt(target: string, text: string): string
  {
    OutboundHead + target + OutboundMiddle + text
  }

  /** The prompt for a client utterance, into Spanish. */
  function InboundPrompt(text: string): string
  {
    InboundHead + text + InboundTail
  }

  /** Everything `get_translation` decides before it calls the service:
      the role, the one prompt it sends, and the learned client language
      it leaves behind. */
  datatype Routing = Routing(role: Role, prompt: string, learned: Option<string>)

  function Route(text: string, detected: string, manual: string, learned: Option<string>): Routing
  {
    if detected == Professional then
      Routing(Me, OutboundPrompt(TargetLanguage(learned, manual), text), learned)
    else
      Routing(Client, InboundPrompt(text), Some(detected))
  }

  /** The target is the learned language when it is a non-empty string, and
      the manual selection when it is `None` or empty. */
  lemma TargetLanguageCases(language: string, manual: string)
    ensures language != "" ==> TargetLanguage(Some(language), manual) == language
    ensures TargetLanguage(Some(""), manual) == manual
    ensures TargetLanguage(None, manual) == manual
  {
  }

  /** The role is decided by the detected language alone. */
  lemma RoleFollowsDetectedLanguage(text: string, detected: string, manual: string, learned: Option<string>)
    ensures Route(text, detected, manual, learned).role == Me <==> detected == Professional
    ensures Route(text, detected, manual, learned).role == Client <==> detected != Professional
  {
  }

  /** A professional utterance leaves the learned language alone and is
      translated into the learned-or-manual target. */
  lemma ProfessionalKeepsLearned(text: string, manual: string, learned: Option<string>)
    ensures Route(text, Professional, manual, learned).learned == learned
    ensures Route(text, Professional, manual, learned).prompt
         == OutboundPrompt(TargetLanguage(learned, manual), text)
  {
  }

  /** Any other detected language becomes the learned language, whatever was
      learned before, and the utterance is translated into Spanish. */
  lemma ClientOverwritesLearned(text: string, detected: string, manual: string, learned: Option<string>)
    requires detected != Professional
    ensures Route(text, detected, manual, learned).learned == Some(detected)
    ensures Route(text, detected, manual, learned).prompt == InboundPrompt(text)
  {
  }

  /** A client prompt carries the utterance verbatim, and different
      utterances give different prompts. */
  lemma InboundPromptQuotes(text: string, other: string)
    ensures InboundPrompt(text)[|InboundHead|..|InboundHead| + |text|] == text
    ensures InboundPrompt(text) == InboundPrompt(other) ==> text == other
  {
  }

  /** A professional prompt ends with the utterance verbatim, and for one
      utterance it names the target language it was built for: neither the
      utterance nor the target can be swapped without changing the prompt. */
  lemma OutboundPromptQuotes(target: string, text: string, target': string, text': string)
    ensures OutboundPrompt(target, text)[|OutboundPrompt(target, text)| - |text|..] == text
    ensures OutboundPrompt(target, text) == OutboundPrompt(target, text') ==> text == text'
    ensures OutboundPrompt(target, text) == OutboundPrompt(target', text) ==> target == target'
  {
    var p := OutboundPrompt(target, text);
    assert p == (OutboundHead + target + OutboundMiddle) + text;
    if p == OutboundPrompt(target, text') {
      assert |text| == |text'|;
      assert text' == OutboundPrompt(target, text')[|p| - |text'|..];
    }
    if p == OutboundPrompt(target', text) {
      assert |target| == |target'|;
      var q := OutboundPrompt(target', text);
      assert p[|OutboundHead|..|OutboundHead| + |target|] == target;
      assert q[|OutboundHead|..|OutboundHead| + |target'|] == target';
    }
  }

  /** The two directions never send the same prompt. */
  lemma DirectionsDiffer(target: string, text: string, text': string)
    ensures OutboundPrompt(target, text) != InboundPrompt(text')
  {
    assert OutboundPrompt(target, text)[3] == 'n';
    assert InboundPrompt(text')[3] == 'd';
  }
}
