/**
 * The NFT metadata of a minted replica (src/utils/metadata.ts): name,
 * description, image, the attribute list and the replica's public URL.
 *
 * The replica is an untyped object; its fields are absent or hold a string
 * (`tags` an array of strings). An absent field interpolated into the URL
 * reads "undefined".
 */
module ReplicaMetadata {
  import opened Common

  datatype MintedReplica = MintedReplica(
    name: Option<string>, bio: Option<string>, profileImage: Option<string>, profile_image: Option<string>,
    era: Option<string>, specialty: Option<string>, replicaType: Option<string>,
    tags: Option<seq<string>>, uuid: Option<string>)

  datatype Attribute = Attribute(traitType: string, value: Option<string>)

  datatype Metadata = Metadata(name: Option<string>, description: string, image: Option<string>,
                               attributes: seq<Attribute>, externalUrl: string)

  const DefaultDescription := "Physics mentor AI replica"
  const ReplicaUrlPrefix := "https://photon-chi-five.vercel.app/replicas/"

  /** `${value}` for a value that is a string or `undefined`. */
  function Interpolate(value: Option<string>): string {
    if value.Some? then value.value else "undefined"
  }

  /** One "Expertise" attribute per tag. */
  function ExpertiseAttributes(tags: seq<string>): (attrs: seq<Attribute>)
    ensures |attrs| == |tags|
    ensures forall i :: 0 <= i < |tags| ==> attrs[i] == Attribute("Expertise", Some(tags[i]))
  {
    seq(|tags|, i requires 0 <= i < |tags| => Attribute("Expertise", Some(tags[i])))
  }

  /** `createReplicaMetadata`. */
  function CreateReplicaMetadata(r: MintedReplica): (m: Metadata)
    ensures m.name == r.name
    ensures m.description == (if Truthy(r.bio) then r.bio.value else DefaultDescription)
    ensures m.image == (if Truthy(r.profileImage) then r.profileImage else r.profile_image)
    ensures |m.attributes| == 3 + |ArrayOr(r.tags, [])|
    ensures m.attributes[..3] == [Attribute("Era", r.era), Attribute("Specialty", r.specialty), Attribute("Type", r.replicaType)]
    ensures forall i :: 3 <= i < |m.attributes| ==> m.attributes[i] == Attribute("Expertise", Some(ArrayOr(r.tags, [])[i - 3]))
    ensures |m.externalUrl| >= |ReplicaUrlPrefix| && m.externalUrl[..|ReplicaUrlPrefix|] == ReplicaUrlPrefix
    ensures m.externalUrl[|ReplicaUrlPrefix|..] == Interpolate(r.uuid)
  {
    var fixed := [Attribute("Era", r.era), Attribute("Specialty", r.specialty), Attribute("Type", r.replicaType)];
    var url := ReplicaUrlPrefix + Interpolate(r.uuid);
    assert url[|ReplicaUrlPrefix|..] == Interpolate(r.uuid);
    Metadata(
      r.name,
      if Truthy(r.bio) then r.bio.value else DefaultDescription,
      if Truthy(r.profileImage) then r.profileImage else r.profile_image,
      fixed + ExpertiseAttributes(ArrayOr(r.tags, [])),
      url)
  }

  /** The values of the "Expertise" attributes, in order. */
  function ExpertiseOf(attrs: seq<Attribute>): seq<string> {
    if attrs == [] then []
    else
      var rest := ExpertiseOf(attrs[1..]);
      if attrs[0].traitType == "Expertise" && attrs[0].value.Some? then [attrs[0].value.value] + rest else rest
  }

  /** Reading the "Expertise" attributes of a replica's metadata back gives its tags, in order. */
  lemma {:induction false} ExpertiseRoundTrip(r: MintedReplica)
    ensures ExpertiseOf(CreateReplicaMetadata(r).attributes) == ArrayOr(r.tags, [])
  {
    var attrs := CreateReplicaMetadata(r).attributes;
    assert attrs == attrs[..3] + attrs[3..];
    ExpertiseOfAppend(attrs[..3], attrs[3..]);
    ExpertiseOfNone(attrs[..3]);
    ExpertiseOfTags(ArrayOr(r.tags, []));
    assert attrs[3..] == ExpertiseAttributes(ArrayOr(r.tags, []));
  }

  lemma {:induction false} ExpertiseOfAppend(a: seq<Attribute>, b: seq<Attribute>)
    ensures ExpertiseOf(a + b) == ExpertiseOf(a) + ExpertiseOf(b)
  {
    if a == [] {
      assert a + b == b;
    } else {
      assert (a + b)[1..] == a[1..] + b;
      ExpertiseOfAppend(a[1..], b);
    }
  }

  lemma {:induction false} ExpertiseOfNone(attrs: seq<Attribute>)
    requires forall i :: 0 <= i < |attrs| ==> attrs[i].traitType != "Expertise"
    ensures ExpertiseOf(attrs) == []
  {
    if attrs != [] {
      ExpertiseOfNone(attrs[1..]);
    }
  }

  lemma {:induction false} ExpertiseOfTags(tags: seq<string>)
    ensures ExpertiseOf(ExpertiseAttributes(tags)) == tags
  {
    if tags != [] {
      assert ExpertiseAttributes(tags)[1..] == ExpertiseAttributes(tags[1..]);
      ExpertiseOfTags(tags[1..]);
    }
  }

  /** A replica without tags has exactly the three fixed attributes. */
  lemma UntaggedReplica(r: MintedReplica)
    requires r.tags.None? || r.tags == Some([])
    ensures CreateReplicaMetadata(r).attributes == [Attribute("Era", r.era), Attribute("Specialty", r.specialty), Attribute("Type", r.replicaType)]
  {
    var attrs := CreateReplicaMetadata(r).attributes;
    assert attrs == attrs[..3];
  }
}
