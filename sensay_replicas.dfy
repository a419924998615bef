/**
 * The replica list (src/hooks/useSensayReplicas.ts): one fetch of the
 * organisation's replicas, each normalised from either camelCase or
 * snake_case fields, with a loading flag and an error.
 *
 * The API answer is a parameter. A replica is an untyped JSON object; its
 * fields are modelled as absent or holding a value of the expected type.
 */
module SensayReplicas {
  import opened Common

  /** A replica as the API returns it. */
  datatype RawReplica = RawReplica(
    uuid: Option<string>, name: Option<string>, slug: Option<string>,
    profileImage: Option<string>, profile_image: Option<string>,
    shortDescription: Option<string>, short_description: Option<string>,
    introduction: Option<string>, greeting: Option<string>,
    tags: Option<seq<string>>,
    systemMessage: Option<string>, system_message: Option<string>,
    ownerID: Option<string>, owner_id: Option<string>,
    replicaType: Option<string>,
    suggestedQuestions: Option<seq<string>>, suggested_questions: Option<seq<string>>,
    purpose: Option<string>)

  /** The object `normalizeReplica` builds. */
  datatype Replica = Replica(
    uuid: Option<string>, name: Option<string>, slug: Option<string>,
    profileImage: string, shortDescription: string, introduction: string, tags: seq<string>,
    systemMessage: string, ownerID: string, replicaType: Option<string>, greeting: string,
    suggestedQuestions: seq<string>)

  /** `a || b || ""` is one of the two when it is not empty, and empty only when both are falsy. */
  lemma FirstTruthyChoice(a: Option<string>, b: Option<string>)
    ensures FirstTruthy(a, b) != "" <==> Truthy(a) || Truthy(b)
    ensures Truthy(a) ==> FirstTruthy(a, b) == a.value
    ensures !Truthy(a) && Truthy(b) ==> FirstTruthy(a, b) == b.value
  {
  }

  /** `normalizeReplica`. */
  function NormalizeReplica(r: RawReplica): (n: Replica)
    ensures n.uuid == r.uuid && n.name == r.name && n.slug == r.slug && n.replicaType == r.replicaType
    ensures n.profileImage != "" <==> Truthy(r.profileImage) || Truthy(r.profile_image)
    ensures n.shortDescription != "" <==> Truthy(r.shortDescription) || Truthy(r.short_description)
    ensures n.systemMessage != "" <==> Truthy(r.systemMessage) || Truthy(r.system_message)
    ensures n.ownerID != "" <==> Truthy(r.ownerID) || Truthy(r.owner_id)
    ensures Truthy(r.profileImage) ==> n.profileImage == r.profileImage.value
    ensures Truthy(r.shortDescription) ==> n.shortDescription == r.shortDescription.value
    ensures Truthy(r.systemMessage) ==> n.systemMessage == r.systemMessage.value
    ensures Truthy(r.ownerID) ==> n.ownerID == r.ownerID.value
    ensures !Truthy(r.profileImage) && Truthy(r.profile_image) ==> n.profileImage == r.profile_image.value
    ensures !Truthy(r.shortDescription) && Truthy(r.short_description) ==> n.shortDescription == r.short_description.value
    ensures !Truthy(r.systemMessage) && Truthy(r.system_message) ==> n.systemMessage == r.system_message.value
    ensures !Truthy(r.ownerID) && Truthy(r.owner_id) ==> n.ownerID == r.owner_id.value
    ensures Truthy(r.introduction) ==> n.introduction == r.introduction.value
    ensures !Truthy(r.introduction) && Truthy(r.greeting) ==> n.introduction == r.greeting.value
    ensures Truthy(r.greeting) ==> n.greeting == r.greeting.value
    ensures !Truthy(r.greeting) && Truthy(r.introduction) ==> n.greeting == r.introduction.value
    ensures r.tags.Some? ==> n.tags == r.tags.value
    ensures r.tags.None? ==> n.tags == []
    ensures r.suggestedQuestions.Some? ==> n.suggestedQuestions == r.suggestedQuestions.value
    ensures r.suggestedQuestions.None? && r.suggested_questions.Some? ==> n.suggestedQuestions == r.suggested_questions.value
    ensures r.suggestedQuestions.None? && r.suggested_questions.None? ==> n.suggestedQuestions == []
  {
    FirstTruthyChoice(r.profileImage, r.profile_image);
    FirstTruthyChoice(r.shortDescription, r.short_description);
    FirstTruthyChoice(r.systemMessage, r.system_message);
    FirstTruthyChoice(r.ownerID, r.owner_id);
    FirstTruthyChoice(r.introduction, r.greeting);
    FirstTruthyChoice(r.greeting, r.introduction);
    Replica(
      r.uuid, r.name, r.slug,
      FirstTruthy(r.profileImage, r.profile_image),
      FirstTruthy(r.shortDescription, r.short_description),
      FirstTruthy(r.introduction, r.greeting),
      ArrayOr(r.tags, []),
      FirstTruthy(r.systemMessage, r.system_message),
      FirstTruthy(r.ownerID, r.owner_id),
      r.replicaType,
      FirstTruthy(r.greeting, r.introduction),
      ArrayOr(r.suggestedQuestions, ArrayOr(r.suggested_questions, [])))
  }

  /**
   * `introduction` and `greeting` stand in for each other: if the API sent
   * either, the replica has both: each keeps its own value when it has one and
   * otherwise takes the value of the other.
   */
  lemma IntroductionAndGreeting(r: RawReplica)
    ensures var n := NormalizeReplica(r);
      (Truthy(r.introduction) || Truthy(r.greeting) <==> n.introduction != "" && n.greeting != "")
      && (n.introduction == "" <==> n.greeting == "")
      && (Truthy(r.introduction) ==> n.introduction == r.introduction.value)
      && (Truthy(r.greeting) ==> n.greeting == r.greeting.value)
      && (!Truthy(r.introduction) && Truthy(r.greeting) ==> n.introduction == r.greeting.value)
      && (!Truthy(r.greeting) && Truthy(r.introduction) ==> n.greeting == r.introduction.value)
  {
    FirstTruthyChoice(r.introduction, r.greeting);
    FirstTruthyChoice(r.greeting, r.introduction);
  }

  /** A normalised replica written back with camelCase fields only. */
  function AsRaw(n: Replica): RawReplica {
    RawReplica(
      n.uuid, n.name, n.slug, Some(n.profileImage), None, Some(n.shortDescription), None,
      Some(n.introduction), Some(n.greeting), Some(n.tags), Some(n.systemMessage), None,
      Some(n.ownerID), None, n.replicaType, Some(n.suggestedQuestions), None, None)
  }

  /** Normalising an already normalised replica changes nothing. */
  lemma NormalizeIsIdempotent(r: RawReplica)
    ensures NormalizeReplica(AsRaw(NormalizeReplica(r))) == NormalizeReplica(r)
  {
    IntroductionAndGreeting(r);
  }

  /** `response.data.items`: an array of replicas, or something else. */
  datatype Items = ItemArray(items: seq<RawReplica>) | NotAnArray

  /** The outcome of `GET /replicas`. */
  datatype FetchOutcome = Fetched(items: Items) | FetchFailed(message: string)

  class ReplicaFeed {
    var replicas: seq<Replica>
    var loading: bool
    var error: Option<string>

    constructor ()
      ensures replicas == [] && loading && error == None
    {
      replicas := [];
      loading := true;
      error := None;
    }

    /** The mount effect's `fetchReplicas`, once the request has settled. */
    method FetchReplicas(outcome: FetchOutcome)
      modifies this
      ensures !loading
      ensures outcome.Fetched? && outcome.items.ItemArray? ==>
        error == old(error) && |replicas| == |outcome.items.items|
        && forall i :: 0 <= i < |replicas| ==> replicas[i] == NormalizeReplica(outcome.items.items[i])
      ensures outcome.Fetched? && outcome.items.NotAnArray? ==> replicas == [] && error == old(error)
      ensures outcome.FetchFailed? ==> replicas == old(replicas) && error == Some(outcome.message)
    {
      match outcome {
        case Fetched(items) =>
          if items.ItemArray? {
            replicas := seq(|items.items|, i requires 0 <= i < |items.items| => NormalizeReplica(items.items[i]));
          } else {
            replicas := [];
          }
        case FetchFailed(message) =>
          error := Some(message);
      }
      loading := false;
    }
  }
}
