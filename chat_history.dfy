/**
 * The scripted chat (src/hooks/useChatHistory.ts): a message log that is
 * reset to one greeting whenever the physicist changes, and a keyword-driven
 * responder that answers each user message a second later.
 *
 * `Date.now().toString()` and `new Date().toISOString()` arrive as the `id`
 * and `timestamp` parameters; the one-second `setTimeout` is the gap between
 * `SendMessage` and `DeliverReply`.
 */
module ChatHistory {
  import opened Common
  import PhysicistCatalog

  datatype Sender = User | Physicist

  /** A chat message (`Message` in src/types/index.ts). */
  datatype Message = Message(id: string, content: string, simplifiedContent: Option<string>,
                             sender: Sender, timestamp: string)

  /** What a physicist says, in period language and in simplified language. */
  datatype Utterance = Utterance(content: string, simplified: string)

  // ---------------------------------------------------------------------------
  // Greetings

  const GuideGreeting := Utterance(
    "Welcome to Photon! I'm your guide to the fascinating world of physics. What would you like to explore today?",
    "Welcome to Photon! I'm your guide to physics. What do you want to learn about?")
  const EinsteinGreeting := Utterance(
    "Greetings, my curious friend! Albert Einstein at your service. The universe is not only stranger than we imagine, it is stranger than we can imagine. What aspects of relativity or quantum mechanics shall we ponder together?",
    "Hi there! This is Albert Einstein. The universe is amazing and mysterious. Want to talk about relativity or quantum mechanics?")
  const NewtonGreeting := Utterance(
    "Good day to thee! Sir Isaac Newton presents himself. For every inquiry, there shall be an equal and informative response. What natural philosophies dost thou wish to explore today?",
    "Hello! I'm Isaac Newton. What physics topics would you like to learn about today?")
  const CurieGreeting := Utterance(
    "Bonjour! Marie Curie at your service. One never notices what has been done; one can only see what remains to be done. Shall we discuss radioactivity or perhaps the properties of elements?",
    "Hello! I'm Marie Curie. Would you like to talk about radioactivity or chemistry?")
  const DefaultGreeting := Utterance(
    "Hello there! I'm excited to discuss physics with you. What would you like to know?",
    "Hi! I'm ready to talk about physics. What are you interested in?")

  /** The greeting chosen by the effect's `switch`. */
  function Greeting(physicistId: string): (g: Utterance)
    ensures g.content != "" && g.simplified != ""
    ensures physicistId !in {PhysicistCatalog.GodOfPhysicsId, "einstein", "newton", "curie"} ==> g == DefaultGreeting
  {
    if physicistId == PhysicistCatalog.GodOfPhysicsId then GuideGreeting
    else if physicistId == "einstein" then EinsteinGreeting
    else if physicistId == "newton" then NewtonGreeting
    else if physicistId == "curie" then CurieGreeting
    else DefaultGreeting
  }

  /** The log the effect installs: exactly one physicist message, with id "1". */
  function InitialMessages(physicistId: string, timestamp: string): (log: seq<Message>)
    ensures |log| == 1 && log[0].id == "1" && log[0].sender == Physicist && log[0].timestamp == timestamp
    ensures log[0].content == Greeting(physicistId).content
    ensures log[0].simplifiedContent == Some(Greeting(physicistId).simplified)
  {
    var g := Greeting(physicistId);
    [Message("1", g.content, Some(g.simplified), Physicist, timestamp)]
  }

  // ---------------------------------------------------------------------------
  // Keyword rules

  /** `message.toLowerCase().includes(keyword)`, stated as "occurs somewhere". */
  ghost predicate Mentions(message: string, keyword: string) {
    exists i :: OccursAt(ToLower(message), keyword, i)
  }

  datatype Topic = Gravity | Relativity | Radioactivity | General

  /** The first rule whose keywords the message mentions, in the order the rules are tried. */
  function TopicOf(message: string): (t: Topic)
    ensures t == Gravity <==> Mentions(message, "gravity") || Mentions(message, "apple")
    ensures t == Relativity <==> (!(Mentions(message, "gravity") || Mentions(message, "apple"))
      && (Mentions(message, "relativity") || Mentions(message, "time")))
    ensures t == Radioactivity <==> (!(Mentions(message, "gravity") || Mentions(message, "apple"))
      && !(Mentions(message, "relativity") || Mentions(message, "time"))
      && (Mentions(message, "radioactivity") || Mentions(message, "radiation")))
  {
    var lower := ToLower(message);
    IncludesIff(lower, "gravity");
    IncludesIff(lower, "apple");
    IncludesIff(lower, "relativity");
    IncludesIff(lower, "time");
    IncludesIff(lower, "radioactivity");
    IncludesIff(lower, "radiation");
    if Includes(lower, "gravity") || Includes(lower, "apple") then Gravity
    else if Includes(lower, "relativity") || Includes(lower, "time") then Relativity
    else if Includes(lower, "radioactivity") || Includes(lower, "radiation") then Radioactivity
    else General
  }

  /** The keyword rules ignore case: a message and its lower-case form get the same answer. */
  lemma TopicIgnoresCase(message: string)
    ensures TopicOf(ToLower(message)) == TopicOf(message)
  {
    ToLowerIdempotent(message);
  }

  const NewtonOnGravity := Utterance(
    "Indeed, the contemplation of a falling apple led me to ponder the universal laws of gravitation. 'Tis not merely that objects fall, but that they are drawn to one another with a force proportional to their masses and inversely proportional to the square of the distance between them. A most elegant mathematical harmony, wouldn't thou agree?",
    "Yes, watching an apple fall helped me think about gravity. Things don't just fall down - they're pulled toward each other. The bigger the objects and the closer they are, the stronger the pull.")
  const OnGravity := Utterance(
    "Gravity is a fascinating subject. Newton's work laid the groundwork, but Einstein's general relativity revealed that gravity is actually a curvature of spacetime caused by mass and energy.",
    "Gravity is really interesting. Newton thought it was a force, but Einstein showed it's actually space and time being bent by heavy objects.")
  const EinsteinOnRelativity := Utterance(
    "Ah, relativity! When you sit with a nice girl for two hours you think it's only a minute, but when you sit on a hot stove for a minute you think it's two hours. That's relativity! More seriously though, time dilation is a consequence of the constant speed of light in all reference frames. Quite remarkable, ja?",
    "Relativity is about how time and space change depending on your perspective. Time actually passes slower for objects moving very fast. It happens because light speed is always the same for everyone.")
  const OnRelativity := Utterance(
    "Einstein's theories of relativity revolutionized our understanding of space, time, and gravity. The notion that time flows differently depending on relative motion and gravitational potential is quite profound.",
    "Einstein showed that time can run at different speeds depending on how fast you're moving or how close you are to something very heavy.")
  const CurieOnRadioactivity := Utterance(
    "Ah, radioactivity! My husband Pierre and I spent countless hours in our shed laboratory, studying the mysterious emissions from uranium compounds. We discovered that radioactivity is an atomic property, not influenced by chemical state or external conditions. C'est fascinant, n'est-ce pas?",
    "Radioactivity is when some elements naturally emit energy and particles. My husband Pierre and I found that this happens at the atomic level and can't be changed by chemical reactions.")
  const OnRadioactivity := Utterance(
    "Marie Curie's pioneering work on radioactivity led to numerous discoveries and applications in science and medicine, though we now understand the health hazards of radiation exposure that tragically affected her.",
    "Marie Curie studied radioactivity and made many important discoveries, but sadly she didn't know it was dangerous, and it made her sick.")
  const GuideDefault := Utterance(
    "That's an interesting question! I can connect you with specialists in that area. Would you like to chat with Einstein about relativity, Newton about classical mechanics, or Curie about radioactivity?",
    "Great question! Who would you like to talk to about this - Einstein, Newton, or Curie?")
  const EinsteinDefault := Utterance(
    "A most intriguing inquiry! The pursuit of knowledge requires both imagination and persistence. As I often say, 'I have no special talent. I am only passionately curious.' Perhaps we could explore this concept through the lens of relativity?",
    "That's an interesting question! I'm really curious about this too. Should we look at it from a relativity perspective?")
  const NewtonDefault := Utterance(
    "A question worthy of natural philosophical inquiry! If I have seen further, it is by standing upon the shoulders of Giants. Let us apply the principles of mathematics and reason to unravel this mystery together.",
    "Good question! I learned from those who came before me. Let's use math and logic to figure this out.")
  const CurieDefault := Utterance(
    "Une question fascinante! In science, we must not forget that the discoveries which have made the human mind capable of transforming nature have also given it the means to self-destruct. Let us approach this with both curiosity and responsibility.",
    "Fascinating question! Science gives us great power, so we need to be responsible with what we learn. Let's explore this carefully.")
  const GeneralDefault := Utterance(
    "That's a fascinating aspect of physics. I'd be happy to explore that concept with you further. What specific part interests you most?",
    "That's really interesting! Which part would you like to know more about?")

  /** The answer the keyword rules pick for a physicist and a user message. */
  function Answer(physicistId: string, userMessage: string): (u: Utterance)
    ensures u.content != "" && u.simplified != ""
  {
    match TopicOf(userMessage)
    case Gravity => if physicistId == "newton" then NewtonOnGravity else OnGravity
    case Relativity => if physicistId == "einstein" then EinsteinOnRelativity else OnRelativity
    case Radioactivity => if physicistId == "curie" then CurieOnRadioactivity else OnRadioactivity
    case General =>
      if physicistId == PhysicistCatalog.GodOfPhysicsId then GuideDefault
      else if physicistId == "einstein" then EinsteinDefault
      else if physicistId == "newton" then NewtonDefault
      else if physicistId == "curie" then CurieDefault
      else GeneralDefault
  }

  /**
   * A persona's own answer to its keyword topic is given exactly when that
   * persona is the one asked; everyone else gets the generic answer.
   */
  lemma PersonaAnswersAreExclusive(physicistId: string, userMessage: string)
    ensures Mentions(userMessage, "gravity") || Mentions(userMessage, "apple") ==>
      (Answer(physicistId, userMessage) == NewtonOnGravity <==> physicistId == "newton")
    ensures TopicOf(userMessage) == Relativity ==>
      (Answer(physicistId, userMessage) == EinsteinOnRelativity <==> physicistId == "einstein")
    ensures TopicOf(userMessage) == Radioactivity ==>
      (Answer(physicistId, userMessage) == CurieOnRadioactivity <==> physicistId == "curie")
  {
  }

  /** Only a message that mentions no keyword gets a persona's default answer. */
  lemma DefaultsNeedNoKeyword(physicistId: string, userMessage: string)
    requires Answer(physicistId, userMessage) in {GuideDefault, EinsteinDefault, NewtonDefault, CurieDefault, GeneralDefault}
    ensures forall k :: k in ["gravity", "apple", "relativity", "time", "radioactivity", "radiation"] ==> !Mentions(userMessage, k)
  {
  }

  /**
   * A message that mentions no keyword gets the default of the persona asked:
   * the guide's, Einstein's, Newton's or Curie's own, and the general one for
   * anyone else.
   */
  lemma KeywordlessMessagesGetDefaults(physicistId: string, userMessage: string)
    requires forall k :: k in ["gravity", "apple", "relativity", "time", "radioactivity", "radiation"] ==> !Mentions(userMessage, k)
    ensures Answer(physicistId, userMessage) ==
      if physicistId == PhysicistCatalog.GodOfPhysicsId then GuideDefault
      else if physicistId == "einstein" then EinsteinDefault
      else if physicistId == "newton" then NewtonDefault
      else if physicistId == "curie" then CurieDefault
      else GeneralDefault
  {
    assert !Mentions(userMessage, "gravity") && !Mentions(userMessage, "apple");
    assert !Mentions(userMessage, "relativity") && !Mentions(userMessage, "time");
    assert !Mentions(userMessage, "radioactivity") && !Mentions(userMessage, "radiation");
  }

  /** `generateResponse`: always a physicist message carrying both language variants. */
  function GenerateResponse(physicistId: string, userMessage: string, id: string, timestamp: string): (m: Message)
    ensures m.sender == Physicist && m.id == id && m.timestamp == timestamp
    ensures m.content != "" && m.simplifiedContent.Some? && m.simplifiedContent.value != ""
    ensures Utterance(m.content, m.simplifiedContent.value) == Answer(physicistId, userMessage)
  {
    var u := Answer(physicistId, userMessage);
    Message(id, u.content, Some(u.simplified), Physicist, timestamp)
  }

  /** The message `sendMessage` appends for the user. */
  function UserMessage(content: string, id: string, timestamp: string): Message {
    Message(id, content, None, User, timestamp)
  }

  /** A reply scheduled by `sendMessage`, with the physicist id of the render that scheduled it. */
  datatype PendingReply = PendingReply(physicistId: string, userMessage: string)

  class ChatHistoryHook {
    var physicistId: string
    var messages: seq<Message>

    /** The first render: an empty log, before the effect runs. */
    constructor (physicistId: string)
      ensures this.physicistId == physicistId && messages == []
    {
      this.physicistId := physicistId;
      messages := [];
    }

    /** The effect on `[physicistId]`: a non-empty id resets the log to its greeting. */
    method RunEffect(timestamp: string)
      modifies this`messages
      ensures physicistId == "" ==> messages == old(messages)
      ensures physicistId != "" ==> messages == InitialMessages(physicistId, timestamp)
    {
      if physicistId == "" {
        return;
      }
      var g := Greeting(physicistId);
      messages := [Message("1", g.content, Some(g.simplified), Physicist, timestamp)];
    }

    /** A new `physicistId` prop; the effect runs only when it differs from the previous one. */
    method ChangePhysicist(newId: string, timestamp: string)
      modifies this
      ensures physicistId == newId
      ensures newId == old(physicistId) || newId == "" ==> messages == old(messages)
      ensures newId != old(physicistId) && newId != "" ==> messages == InitialMessages(newId, timestamp)
    {
      var changed := newId != physicistId;
      physicistId := newId;
      if changed {
        RunEffect(timestamp);
      }
    }

    /** `sendMessage`: the user's message is appended at once, and a reply is scheduled. */
    method SendMessage(content: string, id: string, timestamp: string) returns (pending: PendingReply)
      modifies this`messages
      ensures messages == old(messages) + [UserMessage(content, id, timestamp)]
      ensures pending == PendingReply(physicistId, content)
    {
      messages := messages + [Message(id, content, None, User, timestamp)];
      pending := PendingReply(physicistId, content);
    }

    /** The timeout fires: the scheduled reply is appended to whatever the log is by then. */
    method DeliverReply(pending: PendingReply, id: string, timestamp: string)
      modifies this`messages
      ensures messages == old(messages) + [GenerateResponse(pending.physicistId, pending.userMessage, id, timestamp)]
    {
      var reply := GenerateResponse(pending.physicistId, pending.userMessage, id, timestamp);
      messages := messages + [reply];
    }

    /** A send whose reply arrives before anything else happens grows the log by the two messages. */
    method Exchange(content: string, userId: string, replyId: string, sentAt: string, repliedAt: string)
      modifies this`messages
      ensures |messages| == |old(messages)| + 2 && messages[..|old(messages)|] == old(messages)
      ensures messages[|old(messages)|] == UserMessage(content, userId, sentAt)
      ensures messages[|old(messages)| + 1] == GenerateResponse(physicistId, content, replyId, repliedAt)
    {
      var pending := SendMessage(content, userId, sentAt);
      DeliverReply(pending, replyId, repliedAt);
    }
  }
}
