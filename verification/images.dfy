// Image tags, the latest image and the age checks (pkg/manager_ami/ami.go and the tag
// builder of pkg/manager_packer/manager.go).
//
// Time is an integer number of nanoseconds; `ZeroTime` is Go's zero time. Timestamps are
// strings read by an abstract partial function.
module Images {
  import opened Options
  import opened Protocol

  // The tag keys the operator uses; any other key is `Other`.
  datatype Key =
    | BroughtBy // brought-to-you-by
    | ClusterName // cluster-name
    | CreatedBy // created-by
    | PackerRepo // packer-repo
    | PackerBranch // packer-repo-branch
    | BaseAMI // base-ami
    | JobIdKey // job-id
    | BuildIdKey // build-id
    | CreateTimestamp // create-timestamp
    | StatusKey // status
    | Other(name: string)

  type Tags = map<Key, string>
  type Parse = string -> Option<int>
  type Format = int -> string

  const ZeroTime := 0
  const ACTIVE := "active"
  const DEPRECATED := "deprecated"
  const SECOND := 1_000_000_000

  datatype Tag = Tag(key: Key, value: string)

  // An image as EC2 lists it, and as EC2 keeps it.
  datatype Image = Image(id: ImageId, tags: seq<Tag>, creationDate: Option<string>)
  datatype StoredImage = StoredImage(tags: Tags, creationDate: Option<string>)
  type Ec2 = map<ImageId, StoredImage>

  // CreateTags: the new tags override.
  function Retag(ec2: Ec2, id: ImageId, tags: Tags): Ec2
    requires id in ec2
  {
    ec2[id := ec2[id].(tags := ec2[id].tags + tags)]
  }

  function Trunc(t: int): int { t - t % SECOND }

  // What the operator needs of RFC 3339 text: stamps are written in whole seconds.
  ghost predicate RoundTrip(parse: Parse, format: Format) {
    forall t :: SECOND <= t ==> parse(format(t)) == Some(Trunc(t))
  }

  // ---------------------------------------------------------------- tags and filters

  datatype FilterOptions = FilterOptions(timestamp: bool, identifiers: bool, baseAMI: bool)

  const Everything := FilterOptions(true, true, true)
  const IdentityOnly := FilterOptions(false, false, false)
  const WithBase := FilterOptions(false, false, true)

  predicate Fewer(a: FilterOptions, b: FilterOptions) {
    (a.timestamp ==> b.timestamp) && (a.identifiers ==> b.identifiers) && (a.baseAMI ==> b.baseAMI)
  }

  const IdentityKeys := {BroughtBy, ClusterName, CreatedBy, PackerRepo, PackerBranch}

  function TagKeys(options: FilterOptions): set<Key> {
    IdentityKeys
    + (if options.baseAMI then {BaseAMI} else {})
    + (if options.identifiers then {JobIdKey, BuildIdKey} else {})
    + (if options.timestamp then {CreateTimestamp, StatusKey} else {})
  }

  function TagValue(spec: Spec, status: Status, stamp: string, key: Key): string {
    match key
    case BroughtBy => "opsy-the-ami-operator"
    case ClusterName => spec.cluster
    case CreatedBy => spec.name
    case PackerRepo => spec.repo
    case PackerBranch => spec.branch
    case BaseAMI => status.base
    case JobIdKey => status.jobId
    case BuildIdKey => status.buildId
    case CreateTimestamp => stamp
    case StatusKey => ACTIVE
    case Other(_) => ""
  }

  function TagsFor(spec: Spec, status: Status, options: FilterOptions, stamp: string): Tags {
    map key | key in TagKeys(options) :: TagValue(spec, status, stamp, key)
  }

  // Which tags there are, and what each says; as a function, they are TagsFor.
  method BuildTagsAndFilters(spec: Spec, status: Status, options: FilterOptions, stamp: string) returns (tags: Tags)
    ensures tags.Keys == {BroughtBy, ClusterName, CreatedBy, PackerRepo, PackerBranch}
                         + (if options.baseAMI then {BaseAMI} else {})
                         + (if options.identifiers then {JobIdKey, BuildIdKey} else {})
                         + (if options.timestamp then {CreateTimestamp, StatusKey} else {})
    ensures tags[BroughtBy] == "opsy-the-ami-operator" && tags[ClusterName] == spec.cluster && tags[CreatedBy] == spec.name
    ensures tags[PackerRepo] == spec.repo && tags[PackerBranch] == spec.branch
    ensures options.baseAMI ==> tags[BaseAMI] == status.base
    ensures options.identifiers ==> tags[JobIdKey] == status.jobId && tags[BuildIdKey] == status.buildId
    ensures options.timestamp ==> tags[CreateTimestamp] == stamp && tags[StatusKey] == "active"
    ensures tags == TagsFor(spec, status, options, stamp)
  {
    tags := map[BroughtBy := "opsy-the-ami-operator",
                ClusterName := spec.cluster,
                CreatedBy := spec.name,
                PackerRepo := spec.repo,
                PackerBranch := spec.branch];
    if options.baseAMI {
      tags := tags[BaseAMI := status.base];
    }
    if options.identifiers {
      tags := tags[JobIdKey := status.jobId];
      tags := tags[BuildIdKey := status.buildId];
    }
    if options.timestamp {
      tags := tags[CreateTimestamp := stamp];
      tags := tags[StatusKey := ACTIVE];
    }
  }

  // EC2's tag filters: every named tag is there with that value.
  predicate Matches(filter: Tags, tags: Tags) {
    forall k :: k in filter ==> k in tags && tags[k] == filter[k]
  }

  // An image that has just been tagged is found by every filter of the same builder built
  // with fewer options, whatever tags it carried before.
  lemma TaggedImageIsFound(spec: Spec, status: Status, a: FilterOptions, b: FilterOptions,
                           stamp: string, stamp': string, before: Tags)
    requires Fewer(a, b) && (a.timestamp ==> stamp == stamp')
    ensures Matches(TagsFor(spec, status, a, stamp), before + TagsFor(spec, status, b, stamp'))
  {}

  predicate SameIdentity(a: Spec, b: Spec) {
    a.cluster == b.cluster && a.name == b.name && a.repo == b.repo && a.branch == b.branch
  }

  // No image belongs to two builders that differ in cluster, name, repository or branch,
  // whichever options their filters use.
  lemma FiltersSeparate(a: Spec, b: Spec, sa: Status, sb: Status, oa: FilterOptions, ob: FilterOptions, stamp: string, tags: Tags)
    requires Matches(TagsFor(a, sa, oa, stamp), tags) && Matches(TagsFor(b, sb, ob, stamp), tags)
    ensures SameIdentity(a, b)
  {
    IdentityMatched(a, sa, oa, stamp, tags);
    IdentityMatched(b, sb, ob, stamp, tags);
  }

  lemma IdentityMatched(spec: Spec, status: Status, options: FilterOptions, stamp: string, tags: Tags)
    requires Matches(TagsFor(spec, status, options, stamp), tags)
    ensures forall key :: key in IdentityKeys ==> key in tags && tags[key] == TagValue(spec, status, stamp, key)
  {
    assert IdentityKeys <= TagKeys(options);
    assert {ClusterName, CreatedBy, PackerRepo, PackerBranch} <= IdentityKeys;
  }

  // ---------------------------------------------------------------- the latest image

  function FirstTag(tags: seq<Tag>, key: Key): Option<string> {
    if tags == [] then None
    else if tags[0].key == key then Some(tags[0].value)
    else FirstTag(tags[1..], key)
  }

  // The time FindLatestImage goes by; None when its text cannot be parsed.
  function Stamp(parse: Parse, image: Image): Option<int> {
    match FirstTag(image.tags, CreateTimestamp)
    case None => CreationStamp(parse, image)
    case Some(text) =>
      var t := parse(text);
      if t == Some(ZeroTime) then CreationStamp(parse, image) else t
  }

  function CreationStamp(parse: Parse, image: Image): Option<int> {
    match image.creationDate
    case None => Some(ZeroTime)
    case Some(text) => parse(text)
  }

  // An image's time is what its first create-timestamp tag says; if there is none, or it says
  // the zero time, what its creation date says; and the zero time if there is none either.
  lemma {:induction false} StampMeaning(parse: Parse, image: Image, i: nat)
    requires forall j :: 0 <= j < i && j < |image.tags| ==> image.tags[j].key != CreateTimestamp
    requires i < |image.tags| ==> image.tags[i].key == CreateTimestamp
    ensures var t := if i < |image.tags| then parse(image.tags[i].value) else Some(0);
      Stamp(parse, image) ==
        if t != Some(0) then t
        else match image.creationDate { case None => Some(0) case Some(text) => parse(text) }
  {
    FirstTagAt(image.tags, CreateTimestamp, i);
  }

  lemma {:induction false} FirstTagAt(tags: seq<Tag>, key: Key, i: nat)
    requires forall j :: 0 <= j < i && j < |tags| ==> tags[j].key != key
    requires i < |tags| ==> tags[i].key == key
    ensures FirstTag(tags, key) == if i < |tags| then Some(tags[i].value) else None
  {
    if tags != [] && i > 0 {
      assert forall j :: 0 <= j < |tags[1..]| ==> tags[1..][j] == tags[j + 1];
      FirstTagAt(tags[1..], key, i - 1);
    }
  }

  // FindLatestImage's three results: an image (an index here), its time, and an error.
  datatype LatestError = BadStamp(at: nat) | NoImages
  datatype Latest = Latest(index: Option<nat>, stamp: int, err: Option<LatestError>)

  function LatestOf(parse: Parse, images: seq<Image>): Latest {
    var r := Scan(parse, images, |images|);
    if r.err.None? && r.index.None? then Latest(None, ZeroTime, Some(NoImages)) else r
  }

  function Scan(parse: Parse, images: seq<Image>, n: nat): Latest
    requires n <= |images|
  {
    if n == 0 then Latest(None, ZeroTime, None)
    else
      var before := Scan(parse, images, n - 1);
      var t := Stamp(parse, images[n - 1]);
      if before.err.Some? then before
      else if t.None? then Latest(None, ZeroTime, Some(BadStamp(n - 1)))
      else if n == 1 || t.value > before.stamp then Latest(Some(n - 1), t.value, None)
      else before
  }

  method FindLatestImage(parse: Parse, images: seq<Image>)
    returns (latestImage: Option<nat>, createdTimestamp: int, err: Option<LatestError>)
    ensures Latest(latestImage, createdTimestamp, err) == LatestOf(parse, images)
  {
    latestImage, createdTimestamp, err := None, ZeroTime, None;
    for i := 0 to |images|
      invariant Latest(latestImage, createdTimestamp, None) == Scan(parse, images, i)
    {
      var image := images[i];
      var imageTimestamp := ZeroTime;
      var j := 0;
      while j < |image.tags|
        invariant j <= |image.tags| && imageTimestamp == ZeroTime
        invariant FirstTag(image.tags, CreateTimestamp) == FirstTag(image.tags[j..], CreateTimestamp)
      {
        if image.tags[j].key == CreateTimestamp {
          var parsed := parse(image.tags[j].value);
          if parsed.None? {
            ScanStops(parse, images, i, |images|);
            return None, ZeroTime, Some(BadStamp(i));
          }
          imageTimestamp := parsed.value;
          break;
        }
        j := j + 1;
      }
      if imageTimestamp == ZeroTime && image.creationDate.Some? {
        var parsed := parse(image.creationDate.value);
        if parsed.None? {
          ScanStops(parse, images, i, |images|);
          return None, ZeroTime, Some(BadStamp(i));
        }
        imageTimestamp := parsed.value;
      }
      if i == 0 || imageTimestamp > createdTimestamp {
        latestImage := Some(i);
        createdTimestamp := imageTimestamp;
      }
    }
    if latestImage.None? {
      return None, ZeroTime, Some(NoImages);
    }
  }

  // The first image whose time cannot be read decides the result.
  lemma {:induction false} ScanStops(parse: Parse, images: seq<Image>, i: nat, n: nat)
    requires i < n <= |images| && Stamp(parse, images[i]).None? && Scan(parse, images, i).err.None?
    ensures Scan(parse, images, n) == Latest(None, ZeroTime, Some(BadStamp(i)))
  {
    if n > i + 1 {
      ScanStops(parse, images, i, n - 1);
    }
  }

  // The image is the earliest listed one with the greatest time.
  predicate IsLatest(parse: Parse, images: seq<Image>, i: int) {
    && 0 <= i < |images|
    && (forall j :: 0 <= j < |images| ==> Stamp(parse, images[j]).Some?)
    && (forall j :: 0 <= j < |images| ==> Stamp(parse, images[j]).value <= Stamp(parse, images[i]).value)
    && (forall j :: 0 <= j < i ==> Stamp(parse, images[j]).value < Stamp(parse, images[i]).value)
  }

  // FindLatestImage succeeds exactly on a non-empty list of readable images, with the
  // earliest of the newest; otherwise it reports the first unreadable one, or no images.
  // It never returns a missing image without an error.
  lemma LatestMeaning(parse: Parse, images: seq<Image>)
    ensures var r := LatestOf(parse, images);
      && (r.err.None? <==> r.index.Some?)
      && (forall i: nat :: r.index == Some(i) <==> IsLatest(parse, images, i))
      && (r.index.Some? ==> Some(r.stamp) == Stamp(parse, images[r.index.value]))
      && (r.err == Some(NoImages) <==> images == [])
      && (forall i: nat :: r.err == Some(BadStamp(i)) <==>
            i < |images| && Stamp(parse, images[i]).None?
            && forall j :: 0 <= j < i ==> Stamp(parse, images[j]).Some?)
  {
    ScanMeaning(parse, images, |images|);
    var r := LatestOf(parse, images);
    forall i, k | IsLatest(parse, images, i) && IsLatest(parse, images, k)
      ensures i == k
    {
    }
    assert images[..|images|] == images;
  }

  lemma {:induction false} ScanMeaning(parse: Parse, images: seq<Image>, n: nat)
    requires n <= |images|
    ensures var r := Scan(parse, images, n);
      && (r.err.Some? ==> r.err.value.BadStamp? && r.index.None? && r.err.value.at < n
                          && Stamp(parse, images[r.err.value.at]).None?
                          && forall j :: 0 <= j < r.err.value.at ==> Stamp(parse, images[j]).Some?)
      && (r.err.None? && n > 0 ==>
            && r.index.Some? && IsLatest(parse, images[..n], r.index.value)
            && Some(r.stamp) == Stamp(parse, images[r.index.value]))
      && (n == 0 ==> r == Latest(None, ZeroTime, None))
  {
    if n > 0 {
      ScanMeaning(parse, images, n - 1);
    }
  }

  // ---------------------------------------------------------------- the age checks

  datatype AMITypeCheck = AMITypeCheck(
    imageActive: bool, imageCheckPassDefault: bool, imageExist: bool, imageExpired: bool, imageNotFound: bool)

  const PackerBuilderCheck := AMITypeCheck(false, false, false, true, true)
  const AMIRefreshCheck := AMITypeCheck(true, false, true, false, false)

  // IsImageExpired.
  predicate Expired(created: int, validFor: int, now: int) { now > created + validFor }

  method IsImageActive(image: Image) returns (active: bool)
    ensures active <==> Tag(StatusKey, "active") in image.tags
  {
    for i := 0 to |image.tags|
      invariant Tag(StatusKey, ACTIVE) !in image.tags[..i]
    {
      if image.tags[i].key == StatusKey && image.tags[i].value == ACTIVE {
        return true;
      }
    }
    assert image.tags[..|image.tags|] == image.tags;
    return false;
  }

  // AMIChecks after a successful listing: the verdict and the image it names.
  function AMIChecks(parse: Parse, images: seq<Image>, now: int, validFor: int, check: AMITypeCheck): (bool, Option<nat>) {
    if |images| == 0 then (check.imageNotFound, None)
    else
      var r := LatestOf(parse, images);
      if r.err.Some? then (check.imageNotFound, None)
      else if r.index.None? then (check.imageExist, None)
      else if Expired(r.stamp, validFor, now) then (check.imageExpired, r.index)
      else if Tag(StatusKey, ACTIVE) in ImageAt(images, r.index.value).tags then (check.imageActive, r.index)
      else (true, r.index)
  }

  function ImageAt(images: seq<Image>, i: nat): Image {
    if i < |images| then images[i] else Image("", [], None)
  }

  // The image every branch past the error checks looks at is there, so the `imageExist`
  // column of the check tables never matters.
  lemma ExistColumnIsDead(parse: Parse, images: seq<Image>, now: int, validFor: int, check: AMITypeCheck, other: bool)
    ensures AMIChecks(parse, images, now, validFor, check) == AMIChecks(parse, images, now, validFor, check.(imageExist := other))
  {
    LatestMeaning(parse, images);
  }

  // The newest image is readable, young and not active.
  ghost predicate YoungInactive(parse: Parse, images: seq<Image>, now: int, validFor: int) {
    exists i :: IsLatest(parse, images, i)
      && now <= Stamp(parse, images[i]).value + validFor && Tag(StatusKey, "active") !in images[i].tags
  }

  // The two tables give opposite verdicts except on a young inactive newest image, where
  // both pass; and both name the same image.
  lemma OppositeVerdicts(parse: Parse, images: seq<Image>, now: int, validFor: int)
    ensures var build := AMIChecks(parse, images, now, validFor, PackerBuilderCheck);
      var refresh := AMIChecks(parse, images, now, validFor, AMIRefreshCheck);
      && (build.0 == refresh.0 <==> YoungInactive(parse, images, now, validFor))
      && (YoungInactive(parse, images, now, validFor) ==> build.0)
      && build.1 == refresh.1
  {
    LatestMeaning(parse, images);
  }

  // When a build is allowed: exactly when no listed image is the newest, young and active.
  lemma BuildVerdict(parse: Parse, images: seq<Image>, now: int, validFor: int)
    ensures !AMIChecks(parse, images, now, validFor, PackerBuilderCheck).0
       <==> exists i :: IsLatest(parse, images, i)
              && now <= Stamp(parse, images[i]).value + validFor && Tag(StatusKey, "active") in images[i].tags
  {
    LatestMeaning(parse, images);
  }

  // Once it lets a build through it goes on doing so while the images stay as they are.
  lemma BuildStaysAllowed(parse: Parse, images: seq<Image>, now: int, later: int, validFor: int)
    requires now <= later && AMIChecks(parse, images, now, validFor, PackerBuilderCheck).0
    ensures AMIChecks(parse, images, later, validFor, PackerBuilderCheck).0
  {
    BuildVerdict(parse, images, now, validFor);
    BuildVerdict(parse, images, later, validFor);
  }

  // ---------------------------------------------------------------- listings

  // The images a filter accepts.
  function Members(ec2: Ec2, filter: Tags): set<ImageId> { set id | id in ec2 && Matches(filter, ec2[id].tags) }

  // `tags` lists exactly the entries of `m`.
  predicate Lists(tags: seq<Tag>, m: Tags) {
    && (forall i :: 0 <= i < |tags| ==> tags[i].key in m && m[tags[i].key] == tags[i].value)
    && (forall k :: k in m ==> exists i :: 0 <= i < |tags| && tags[i].key == k)
  }

  // `listing` is DescribeImages' answer for `filter`, in any order.
  predicate IsListing(listing: seq<Image>, ec2: Ec2, filter: Tags) {
    && (forall i :: 0 <= i < |listing| ==>
          && listing[i].id in ec2 && Matches(filter, ec2[listing[i].id].tags)
          && Lists(listing[i].tags, ec2[listing[i].id].tags)
          && listing[i].creationDate == ec2[listing[i].id].creationDate)
    && (forall i, j :: 0 <= i < j < |listing| ==> listing[i].id != listing[j].id)
    && (forall id :: id in ec2 && Matches(filter, ec2[id].tags) ==> exists i :: 0 <= i < |listing| && listing[i].id == id)
  }

  lemma {:induction false} FirstTagListed(tags: seq<Tag>, key: Key)
    ensures FirstTag(tags, key).Some? <==> exists i :: 0 <= i < |tags| && tags[i].key == key
    ensures FirstTag(tags, key).Some? ==> Tag(key, FirstTag(tags, key).value) in tags
  {
    if tags != [] && tags[0].key != key {
      FirstTagListed(tags[1..], key);
      assert forall i :: 0 < i < |tags| ==> tags[1..][i - 1] == tags[i];
    }
  }

  // A listed tag list reads like the stored map.
  lemma ListedTag(tags: seq<Tag>, m: Tags, key: Key)
    requires Lists(tags, m)
    ensures FirstTag(tags, key) == if key in m then Some(m[key]) else None
    ensures key in m ==> Tag(key, m[key]) in tags
    ensures forall value :: Tag(key, value) in tags ==> key in m && m[key] == value
  {
    FirstTagListed(tags, key);
  }

  // The time of a stored image.
  function StoredStamp(parse: Parse, image: StoredImage): Option<int> {
    var created := match image.creationDate { case None => Some(ZeroTime) case Some(text) => parse(text) };
    if CreateTimestamp !in image.tags then created
    else
      var t := parse(image.tags[CreateTimestamp]);
      if t == Some(ZeroTime) then created else t
  }

  lemma ListedStamp(parse: Parse, image: Image, stored: StoredImage)
    requires Lists(image.tags, stored.tags) && image.creationDate == stored.creationDate
    ensures Stamp(parse, image) == StoredStamp(parse, stored)
  {
    ListedTag(image.tags, stored.tags, CreateTimestamp);
  }
}
