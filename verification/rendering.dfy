/** The chat view (app.py:143-166): one bubble per message, in log order.
    Only what each bubble shows is modelled, not its HTML. */
module Rendering {
  import opened Speech
  import opened Interpreting
  import opened Conversation

  const MeTag: string := "TÚ (Español)"
  const SpanishLabel: string := "Español"

  /** What one bubble shows: whose side it is on, its tag, the original
      text (written right to left when `rtl`), and the translation under
      the language label `caption`. */
  datatype Bubble = Bubble(side: Role, tag: string, original: string, rtl: bool, caption: string, translated: string)

  /** The tag of a client bubble: the detected language in capitals. */
  function ClientTag(lang: string): string
  {
    "CLIENTE (" + Upper(lang) + ")"
  }

  /** The chat view of `session` while `manual` is selected by hand. Every
      professional bubble carries the CURRENT learned-or-manual language
      as its label, whatever language its translation was made into; only
      client bubbles in Arabic are written right to left. */
  method RenderChat(session: Session, manual: string) returns (bubbles: seq<Bubble>)
    ensures |bubbles| == |session.messages|
    ensures forall i :: 0 <= i < |bubbles| ==>
      && bubbles[i].side == session.messages[i].role
      && bubbles[i].original == session.messages[i].original
      && bubbles[i].translated == session.messages[i].translated
      && (bubbles[i].rtl <==> session.messages[i].role == Client && session.messages[i].lang == "ar")
    ensures forall i :: 0 <= i < |bubbles| && session.messages[i].role == Me ==>
      bubbles[i].tag == MeTag && bubbles[i].caption == TargetLanguage(session.learned, manual)
    ensures forall i :: 0 <= i < |bubbles| && session.messages[i].role == Client ==>
      bubbles[i].tag == ClientTag(session.messages[i].lang) && bubbles[i].caption == SpanishLabel
  {
    bubbles := [];
    for i := 0 to |session.messages|
      invariant |bubbles| == i
      invariant forall j :: 0 <= j < i ==>
        && bubbles[j].side == session.messages[j].role
        && bubbles[j].original == session.messages[j].original
        && bubbles[j].translated == session.messages[j].translated
        && (bubbles[j].rtl <==> session.messages[j].role == Client && session.messages[j].lang == "ar")
      invariant forall j :: 0 <= j < i && session.messages[j].role == Me ==>
        bubbles[j].tag == MeTag && bubbles[j].caption == TargetLanguage(session.learned, manual)
      invariant forall j :: 0 <= j < i && session.messages[j].role == Client ==>
        bubbles[j].tag == ClientTag(session.messages[j].lang) && bubbles[j].caption == SpanishLabel
    {
      var m := session.messages[i];
      var bubble;
      if m.role == Me {
        var target := if IsSet(session.learned) then session.learned.value else manual;
        bubble := Bubble(Me, MeTag, m.original, false, target, m.translated);
      } else {
        var rtl := m.lang == "ar";
        bubble := Bubble(Client, ClientTag(m.lang), m.original, rtl, SpanishLabel, m.translated);
      }
      bubbles := bubbles + [bubble];
    }
  }

  /** The label of an earlier professional bubble follows the client: after
      a French client turn, a professional message that was translated into
      English is labelled "fr". */
  lemma MeLabelFollowsLaterClient(s: State, i: nat, text: string, manual: string, respond: string -> Reply)
    requires i < |s.messages| && s.messages[i].role == Me
    requires TargetLanguage(s.learned, manual) != "fr"
    requires HasSpeech(text)
    ensures var after := Ingested(s, Transcribed(text, "fr"), manual, respond).state;
      && i < |after.messages|
      && after.messages[i] == s.messages[i]
      && TargetLanguage(after.learned, manual) == "fr"
  {
  }
}
