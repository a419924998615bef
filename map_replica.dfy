/**
 * Turning a Sensay replica into the physicist card the replica page shows
 * (src/utils/mapReplicaToPhysicist.ts): fallbacks between camelCase and
 * snake_case fields, and an era and wallpaper chosen by the first famous
 * name the replica's name contains.
 */
module ReplicaMapping {
  import opened Common
  import opened SensayReplicas

  /** The card's physicist. `id` and `name` are copied as they are, possibly absent. */
  datatype MappedPhysicist = MappedPhysicist(
    id: Option<string>, name: Option<string>, era: string, specialty: string, bio: string,
    avatar: string, wallpaper: string, topics: seq<string>, knownFor: string)

  datatype EraRule = EraRule(keyword: string, era: string, wallpaper: string)

  const EinsteinWallpaper := "https://images.unsplash.com/photo-1518770660439-4636190af475?q=80&w=1080&auto=format&fit=crop"
  const NewtonWallpaper := "https://images.unsplash.com/photo-1470071459604-3b5ec3a7fe05?q=80&w=1080&auto=format&fit=crop"
  const HawkingWallpaper := "https://images.unsplash.com/photo-1462331940025-496dfbfc7564?q=80&w=1080&auto=format&fit=crop"
  const PhotonWallpaper := "https://images.unsplash.com/photo-1614332287897-cdc485fa562d?q=80&w=1080&auto=format&fit=crop"

  /** The name tests, in the order they are tried. */
  const EraRules: seq<EraRule> := [
    EraRule("einstein", "1879-1955", EinsteinWallpaper),
    EraRule("newton", "1643-1727", NewtonWallpaper),
    EraRule("hawking", "1942-2018", HawkingWallpaper),
    EraRule("photon", "Timeless", PhotonWallpaper)
  ]

  /** `(replica.name || "").toLowerCase()`. */
  function MatchName(name: Option<string>): string {
    ToLower(FirstTruthy(name, None))
  }

  /** The `if`/`else if` chain: the era and wallpaper for a replica name, if any test matches. */
  function EraFor(name: Option<string>): (rule: Option<EraRule>)
    ensures rule.Some? ==> rule.value in EraRules && Includes(MatchName(name), rule.value.keyword)
    ensures rule.None? ==> forall i :: 0 <= i < |EraRules| ==> !Includes(MatchName(name), EraRules[i].keyword)
  {
    var lower := MatchName(name);
    if Includes(lower, "einstein") then Some(EraRules[0])
    else if Includes(lower, "newton") then Some(EraRules[1])
    else if Includes(lower, "hawking") then Some(EraRules[2])
    else if Includes(lower, "photon") then Some(EraRules[3])
    else None
  }

  /** The chain picks the first rule of the table whose keyword the lower-cased name contains. */
  lemma EraForIsFirstMatch(name: Option<string>)
    ensures EraFor(name) == Find(EraRules, (rule: EraRule) => Includes(MatchName(name), rule.keyword))
  {
    var lower := MatchName(name);
    var p := (rule: EraRule) => Includes(lower, rule.keyword);
    assert EraRules == [EraRules[0]] + EraRules[1..];
    assert EraRules[1..] == [EraRules[1]] + EraRules[2..];
    assert EraRules[2..] == [EraRules[2]] + EraRules[3..];
    assert EraRules[3..] == [EraRules[3]] + EraRules[4..];
    assert EraRules[4..] == [];
  }

  /** A replica without a name, or with an empty one, matches no rule. */
  lemma NamelessReplicaHasNoEra(name: Option<string>)
    requires !Truthy(name)
    ensures EraFor(name) == None
  {
    assert MatchName(name) == "";
    forall i | 0 <= i < |EraRules| ensures !Includes("", EraRules[i].keyword) {
      IncludesIff("", EraRules[i].keyword);
    }
  }

  /** The tests ignore case. */
  lemma EraIgnoresCase(name: string)
    ensures EraFor(Some(ToLower(name))) == EraFor(Some(name))
  {
    ToLowerIdempotent(name);
  }

  /** `mapReplicaToPhysicist`. */
  function MapReplica(r: RawReplica): (p: MappedPhysicist)
    ensures p.id == r.uuid && p.name == r.name
    ensures EraFor(r.name).None? ==> p.era == "" && p.wallpaper == ""
    ensures EraFor(r.name).Some? ==> p.era == EraFor(r.name).value.era && p.wallpaper == EraFor(r.name).value.wallpaper
    ensures p.era == "" <==> p.wallpaper == ""
    ensures p.specialty == FirstTruthy(r.shortDescription, r.short_description)
    ensures p.avatar == FirstTruthy(r.profileImage, r.profile_image)
    ensures p.knownFor == FirstTruthy(r.greeting, r.introduction)
    ensures p.bio == FirstTruthy(r.purpose, None)
    ensures r.tags.Some? ==> p.topics == r.tags.value
    ensures r.tags.None? ==> p.topics == []
  {
    var rule := EraFor(r.name);
    MappedPhysicist(
      r.uuid, r.name,
      if rule.Some? then rule.value.era else "",
      FirstTruthy(r.shortDescription, r.short_description),
      FirstTruthy(r.purpose, None),
      FirstTruthy(r.profileImage, r.profile_image),
      if rule.Some? then rule.value.wallpaper else "",
      ArrayOr(r.tags, []),
      FirstTruthy(r.greeting, r.introduction))
  }

  /**
   * The replica page maps the normalised replicas of the replica list. The
   * normalised object has no `purpose`, so every card's bio is empty, and the
   * other fields are the normalised ones.
   */
  lemma ListedReplicaCard(r: RawReplica)
    ensures var n := NormalizeReplica(r);
      var p := MapReplica(AsRaw(n));
      p.bio == "" && p.specialty == n.shortDescription && p.avatar == n.profileImage
      && p.knownFor == n.greeting && p.topics == n.tags && (p.knownFor != "" <==> n.introduction != "")
  {
    IntroductionAndGreeting(r);
  }
}
