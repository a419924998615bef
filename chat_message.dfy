/**
 * One chat bubble (src/components/ChatMessage.tsx): which text it shows in
 * plain or simplified mode, and when it carries the "Historical Language"
 * badge.
 */
module ChatBubble {
  import opened Common
  import opened ChatHistory

  /** `getMessageContent`. */
  function DisplayedContent(m: Message, simplified: bool): (text: string)
    ensures m.sender == User || !simplified ==> text == m.content
    ensures m.sender == Physicist && simplified ==>
      (Truthy(m.simplifiedContent) ==> text == m.simplifiedContent.value)
      && (!Truthy(m.simplifiedContent) ==> text == m.content)
  {
    if m.sender == User || !simplified then m.content
    else if m.simplifiedContent.Some? && m.simplifiedContent.value != "" then m.simplifiedContent.value
    else m.content
  }

  /** The badge: not simplified, not the user's message, and a simplified variant exists. */
  predicate ShowsHistoricalBadge(m: Message, simplified: bool) {
    !simplified && m.sender != User && Truthy(m.simplifiedContent)
  }

  /**
   * The badge marks exactly the physicist messages that have a simplified
   * variant: whenever switching modes changes a bubble's text, the plain
   * bubble carries the badge, and a badged bubble switches to its variant.
   */
  lemma BadgeMarksSimplifiable(m: Message)
    ensures DisplayedContent(m, true) != DisplayedContent(m, false) ==> ShowsHistoricalBadge(m, false)
    ensures ShowsHistoricalBadge(m, false) ==> DisplayedContent(m, true) == m.simplifiedContent.value
    ensures !ShowsHistoricalBadge(m, true)
    ensures m.sender == User ==> !ShowsHistoricalBadge(m, false)
  {
  }

  /** Every scripted reply has a simplified variant: plain mode badges it, simplified mode shows the variant. */
  lemma ScriptedRepliesAreBadged(physicistId: string, userMessage: string, id: string, timestamp: string)
    ensures var m := GenerateResponse(physicistId, userMessage, id, timestamp);
      ShowsHistoricalBadge(m, false) && DisplayedContent(m, true) == Answer(physicistId, userMessage).simplified
  {
  }
}
