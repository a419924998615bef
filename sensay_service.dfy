/**
 * The Sensay API client (src/services/sensay.ts): the payload
 * `createSensayReplica` posts — de-duplicated tags, a URL slug, the system
 * message and the voice-preview text — and the decision `ensureSensayUser`
 * takes on the answer of `GET /users/me`.
 *
 * The HTTP exchanges are parameters: each request's outcome is passed in.
 * The random hash and `Date.now()` are parameters too.
 */
module SensayService {
  import opened Common
  import opened ReplicaSlug

  // ---------------------------------------------------------------------------
  // Tags: `[...new Set(xs)]`

  /** The index of the first occurrence of `x` in `xs`. */
  function FirstIndex<T(==)>(xs: seq<T>, x: T): (i: nat)
    requires x in xs
    ensures i < |xs| && xs[i] == x
    ensures forall j :: 0 <= j < i ==> xs[j] != x
  {
    if xs[0] == x then 0 else 1 + FirstIndex(xs[1..], x)
  }

  /** A first occurrence inside a prefix is the first occurrence in the whole. */
  lemma FirstIndexInPrefix<T>(xs: seq<T>, n: nat, x: T)
    requires n <= |xs| && x in xs[..n]
    ensures FirstIndex(xs, x) == FirstIndex(xs[..n], x)
  {
    var k := FirstIndex(xs[..n], x);
    assert xs[k] == x;
  }

  /** `r` holds each element of `xs` once, in the order of first occurrence. */
  predicate IsDedupOf<T(==)>(xs: seq<T>, r: seq<T>) {
    Distinct(r)
    && (forall i :: 0 <= i < |r| ==> r[i] in xs)
    && (forall i :: 0 <= i < |xs| ==> xs[i] in r)
    && (forall i, j :: 0 <= i < j < |r| ==> FirstIndex(xs, r[i]) < FirstIndex(xs, r[j]))
  }

  /** `[...new Set(xs)]`. */
  function Dedup<T(==)>(xs: seq<T>): (r: seq<T>)
    ensures IsDedupOf(xs, r)
  {
    if xs == [] then []
    else
      var d := Dedup(xs[..|xs| - 1]);
      DedupStep(xs, d);
      if xs[|xs| - 1] in d then d else d + [xs[|xs| - 1]]
  }

  /** Extending the answer for all but the last element by that element, if it is new. */
  lemma DedupStep<T>(xs: seq<T>, d: seq<T>)
    requires xs != [] && IsDedupOf(xs[..|xs| - 1], d)
    ensures IsDedupOf(xs, if xs[|xs| - 1] in d then d else d + [xs[|xs| - 1]])
  {
    var n := |xs| - 1;
    var init, last := xs[..n], xs[n];
    forall i | 0 <= i < |d| ensures d[i] in xs && FirstIndex(xs, d[i]) == FirstIndex(init, d[i]) < n {
      FirstIndexInPrefix(xs, n, d[i]);
    }
    forall i | 0 <= i < |xs| ensures xs[i] in d + [last] {
      if i < n {
        assert xs[i] == init[i];
      }
    }
    if last !in d {
      var r := d + [last];
      var f := FirstIndex(xs, last);
      forall k | 0 <= k < n ensures xs[k] != last {
        assert xs[k] == init[k];
      }
      forall i, j | 0 <= i < j < |r| ensures r[i] != r[j] && FirstIndex(xs, r[i]) < FirstIndex(xs, r[j]) {
        if j < |d| {
          assert r[i] == d[i] && r[j] == d[j];
        } else {
          assert r[i] == d[i] && r[j] == last;
        }
      }
    } else {
      forall i, j | 0 <= i < j < |d| ensures FirstIndex(xs, d[i]) < FirstIndex(xs, d[j]) {
      }
    }
  }

  /** A list without repeats passes through unchanged. */
  lemma {:induction false} DedupOfDistinct<T>(xs: seq<T>)
    requires Distinct(xs)
    ensures Dedup(xs) == xs
  {
    if xs != [] {
      var init := xs[..|xs| - 1];
      assert Distinct(init);
      DedupOfDistinct(init);
      assert xs[|xs| - 1] !in init;
      assert init + [xs[|xs| - 1]] == xs;
    }
  }

  /** The replica's tags: the topics, then the specialty and the era, each once. */
  function Tags(topics: seq<string>, specialty: string, era: string): (tags: seq<string>)
    ensures Distinct(tags) && specialty in tags && era in tags
    ensures forall i :: 0 <= i < |topics| ==> topics[i] in tags
    ensures forall i :: 0 <= i < |tags| ==> tags[i] in topics || tags[i] == specialty || tags[i] == era
  {
    var all := topics + [specialty, era];
    assert all[|topics|] == specialty && all[|topics| + 1] == era;
    assert forall i :: 0 <= i < |topics| ==> all[i] == topics[i];
    Dedup(all)
  }

  /** Distinct topics followed by a new specialty and a new era become the tags as they are. */
  lemma TagsOfFreshTopics(topics: seq<string>, specialty: string, era: string)
    requires Distinct(topics) && specialty !in topics && era !in topics && specialty != era
    ensures Tags(topics, specialty, era) == topics + [specialty, era]
  {
    var all := topics + [specialty, era];
    forall i, j | 0 <= i < j < |all| ensures all[i] != all[j] {
      if j < |topics| {
      } else if i < |topics| {
        assert all[i] in topics;
      }
    }
    DedupOfDistinct(all);
  }

  // ---------------------------------------------------------------------------
  // System message

  const PhotonInstructions := " texting through the Photon app, which allows cross-timeline communication. Reply naturally using modern texting style while staying true to your era's knowledge and personality."

  /** The persona context every created replica's system message starts with. */
  function PhotonContext(name: string): string {
    "You are " + name + PhotonInstructions
  }

  /** The fixed persona context, a space, then the trimmed user text (or nothing). */
  function SystemMessage(name: string, userSystemMessage: string): (m: string)
    ensures var ctx := PhotonContext(name);
      |m| > |ctx| && m[..|ctx|] == ctx && m[|ctx|] == ' ' && m[|ctx| + 1..] == Trim(userSystemMessage)
  {
    var ctx := PhotonContext(name);
    var tail := if userSystemMessage != "" then Trim(userSystemMessage) else "";
    JoinWithSpace(ctx, tail);
    ctx + " " + tail
  }

  lemma JoinWithSpace(head: string, tail: string)
    ensures var m := head + " " + tail;
      |m| > |head| && m[..|head|] == head && m[|head|] == ' ' && m[|head| + 1..] == tail
  {
    var m := head + " " + tail;
    assert m[|head| + 1..] == tail;
  }

  // ---------------------------------------------------------------------------
  // `String.prototype.replace` with a string pattern

  /**
   * The replacement text for one match, after the `$` patterns of
   * GetSubstitution (ECMAScript, section 22.1.3.19.1) for a pattern without
   * capture groups: `$$`, `$&`, `` $` `` and `$'` are expanded, any other `$`
   * stands for itself.
   */
  function Substitute(replacement: string, matched: string, before: string, after: string): string
    decreases |replacement|
  {
    if replacement == [] then []
    else if replacement[0] == '$' && |replacement| >= 2 && replacement[1] == '$' then
      "$" + Substitute(replacement[2..], matched, before, after)
    else if replacement[0] == '$' && |replacement| >= 2 && replacement[1] == '&' then
      matched + Substitute(replacement[2..], matched, before, after)
    else if replacement[0] == '$' && |replacement| >= 2 && replacement[1] == '`' then
      before + Substitute(replacement[2..], matched, before, after)
    else if replacement[0] == '$' && |replacement| >= 2 && replacement[1] == '\'' then
      after + Substitute(replacement[2..], matched, before, after)
    else [replacement[0]] + Substitute(replacement[1..], matched, before, after)
  }

  /** A replacement without `$` is inserted literally. */
  lemma {:induction false} SubstituteLiteral(replacement: string, matched: string, before: string, after: string)
    requires '$' !in replacement
    ensures Substitute(replacement, matched, before, after) == replacement
  {
    if replacement != [] {
      SubstituteLiteral(replacement[1..], matched, before, after);
    }
  }

  /** `s.replace(pattern, replacement)` with a string pattern: only the first occurrence is replaced. */
  function ReplaceFirst(s: string, pattern: string, replacement: string): (r: string)
    ensures IndexOf(s, pattern).None? ==> r == s
    ensures IndexOf(s, pattern).Some? ==>
      var i := IndexOf(s, pattern).value;
      r == s[..i] + Substitute(replacement, pattern, s[..i], s[i + |pattern|..]) + s[i + |pattern|..]
  {
    match IndexOf(s, pattern)
    case None => s
    case Some(i) => s[..i] + Substitute(replacement, pattern, s[..i], s[i + |pattern|..]) + s[i + |pattern|..]
  }

  const NamePlaceholder := "{name}"

  /** `voicePreviewText.replace("{name}", name)`. */
  function VoicePreview(voicePreviewText: string, name: string): string {
    ReplaceFirst(voicePreviewText, NamePlaceholder, name)
  }

  /**
   * For a name without `$`, the first placeholder becomes the name, the text
   * before it holds no placeholder, and everything after it is kept, later
   * placeholders included.
   */
  lemma VoicePreviewReplacesFirstOnly(voicePreviewText: string, name: string, i: nat)
    requires '$' !in name
    requires OccursAt(voicePreviewText, NamePlaceholder, i)
    requires forall j :: 0 <= j < i ==> !OccursAt(voicePreviewText, NamePlaceholder, j)
    ensures VoicePreview(voicePreviewText, name) == voicePreviewText[..i] + name + voicePreviewText[i + 6..]
  {
    var found := IndexOf(voicePreviewText, NamePlaceholder);
    assert found.Some? && found.value == i;
    SubstituteLiteral(name, NamePlaceholder, voicePreviewText[..i], voicePreviewText[i + 6..]);
  }

  /** Without a placeholder the text is sent as written. */
  lemma VoicePreviewWithoutPlaceholder(voicePreviewText: string, name: string)
    requires forall j :: !OccursAt(voicePreviewText, NamePlaceholder, j)
    ensures VoicePreview(voicePreviewText, name) == voicePreviewText
  {
    assert IndexOf(voicePreviewText, NamePlaceholder).None?;
  }

  // ---------------------------------------------------------------------------
  // Payload

  datatype ReplicaType = Individual | Character | Brand

  /** The arguments of `createSensayReplica`. */
  datatype ReplicaRequest = ReplicaRequest(
    name: string, specialty: string, era: string, replicaType: ReplicaType, purpose: string,
    greeting: string, ownerID: string, topics: seq<string>, avatarUrl: string,
    suggestedQuestions: seq<string>, userSystemMessage: string, voicePreviewText: string)

  datatype LlmSettings = LlmSettings(model: string, memoryMode: string, systemMessage: string, tools: seq<string>)

  /** The body of `POST /replicas`. */
  datatype ReplicaPayload = ReplicaPayload(
    name: string, purpose: string, shortDescription: string, greeting: string, replicaType: ReplicaType,
    ownerID: string, isPrivate: bool, whitelistEmails: seq<string>, slug: string, tags: seq<string>,
    profileImage: string, suggestedQuestions: seq<string>, llm: LlmSettings, voicePreviewText: string)

  const Model := "claude-3-5-haiku-latest"
  const MemoryMode := "rag-search"

  function Payload(req: ReplicaRequest, randomHash: string, now: nat): (p: ReplicaPayload)
    ensures !p.isPrivate && p.whitelistEmails == [] && p.llm.tools == []
    ensures p.shortDescription == req.specialty && p.profileImage == req.avatarUrl
    ensures p.name == req.name && p.purpose == req.purpose && p.greeting == req.greeting
    ensures p.replicaType == req.replicaType && p.ownerID == req.ownerID
    ensures p.suggestedQuestions == req.suggestedQuestions
    ensures p.llm.model == Model && p.llm.memoryMode == MemoryMode
    ensures p.tags == Tags(req.topics, req.specialty, req.era)
    ensures Distinct(p.tags) && req.specialty in p.tags && req.era in p.tags
    ensures forall i :: 0 <= i < |req.topics| ==> req.topics[i] in p.tags
    ensures p.slug == Slug(req.name, randomHash, now)
    ensures p.llm.systemMessage == SystemMessage(req.name, req.userSystemMessage)
    ensures p.voicePreviewText == VoicePreview(req.voicePreviewText, req.name)
  {
    ReplicaPayload(
      req.name, req.purpose, req.specialty, req.greeting, req.replicaType, req.ownerID, false, [],
      Slug(req.name, randomHash, now), Tags(req.topics, req.specialty, req.era), req.avatarUrl,
      req.suggestedQuestions, LlmSettings(Model, MemoryMode, SystemMessage(req.name, req.userSystemMessage), []),
      VoicePreview(req.voicePreviewText, req.name))
  }

  // ---------------------------------------------------------------------------
  // ensureSensayUser

  /** An axios failure: `status` is `err.response.status`, absent when there was no response. */
  datatype HttpError = HttpError(status: Option<int>)

  datatype HttpOutcome = Ok | Failed(error: HttpError)

  /** The body of `POST /users`. */
  datatype NewUser = NewUser(name: string, id: string)

  datatype EnsureResult = UserReady | Thrown(error: HttpError)

  /** What `ensureSensayUser` posts, if anything, and how it ends. */
  datatype EnsureOutcome = EnsureOutcome(created: Option<NewUser>, result: EnsureResult)

  /**
   * `ensureSensayUser(userId, name)` given the answers to `GET /users/me`
   * and, when it is made, `POST /users`.
   */
  function EnsureSensayUser(userId: string, name: Option<string>, me: HttpOutcome, create: HttpOutcome): (o: EnsureOutcome)
    ensures o.created.Some? <==> me == Failed(HttpError(Some(401)))
    ensures o.created.Some? ==> o.created.value == NewUser(FirstTruthy(name, Some(userId)), userId)
    ensures me.Ok? ==> o.result == UserReady
    ensures me.Failed? && me.error.status != Some(401) ==> o.result == Thrown(me.error)
    ensures o.created.Some? ==> o.result == if create.Ok? then UserReady else Thrown(create.error)
  {
    match me
    case Ok => EnsureOutcome(None, UserReady)
    case Failed(err) =>
      if err.status == Some(401) then
        var user := NewUser(if Truthy(name) then name.value else userId, userId);
        EnsureOutcome(Some(user), if create.Ok? then UserReady else Thrown(create.error))
      else EnsureOutcome(None, Thrown(err))
  }
}
