// The image update in place: tagAMI, deprecateAMI, deprecateOldAMIs and handleAMIUpdates of
// pkg/manager_packer/manager.go against EC2's tags, any call of which may fail; and any
// sequence of such updates for one builder, over different images and base images.
module Ownership {
  import opened Options
  import opened Protocol
  import opened Images

  // The images an update for a base image competes with: the builder's identity tags and
  // that base image.
  function Family(spec: Spec, base: ImageId): Tags { TagsFor(spec, NoStatus.(base := base), WithBase, "") }

  predicate IsActive(image: StoredImage) { StatusKey in image.tags && image.tags[StatusKey] == ACTIVE }

  predicate IsDeprecated(image: StoredImage) { StatusKey in image.tags && image.tags[StatusKey] == "deprecated" }

  function Deprecated(image: StoredImage): StoredImage { image.(tags := image.tags + map[StatusKey := DEPRECATED]) }

  function Tagged(spec: Spec, pb: Status, stamp: string, image: StoredImage): StoredImage {
    image.(tags := image.tags + TagsFor(spec, pb, Everything, stamp))
  }

  function ActiveIn(ec2: Ec2, family: Tags): set<ImageId> {
    set id | id in ec2 && Matches(family, ec2[id].tags) && IsActive(ec2[id])
  }

  // Apart from `a`, only members of the family differ, only in being deprecated; and no
  // other image joined or left the family.
  ghost predicate OnlyFamily(before: Ec2, after: Ec2, family: Tags, a: ImageId) {
    && before.Keys == after.Keys
    && (forall id :: id in before && id != a ==>
          || after[id] == before[id]
          || (Matches(family, before[id].tags) && after[id] == Deprecated(before[id])))
    && (forall id :: id in before && id != a ==> (Matches(family, after[id].tags) <==> Matches(family, before[id].tags)))
  }

  ghost predicate Stamped(spec: Spec, pb: Status, before: StoredImage, after: StoredImage) {
    exists stamp :: after == Tagged(spec, pb, stamp, before)
  }

  // Every moment of an update: the image itself is as before or carries the full tag set.
  ghost predicate Updating(spec: Spec, pb: Status, before: Ec2, after: Ec2) {
    && OnlyFamily(before, after, Family(spec, pb.base), pb.built)
    && (pb.built in before ==>
          after[pb.built] == before[pb.built] || Stamped(spec, pb, before[pb.built], after[pb.built]))
  }

  // In no family of the builder is an image newly active, but `a` in that of `base`.
  ghost predicate Bounded(spec: Spec, base: ImageId, a: ImageId, before: Ec2, after: Ec2) {
    forall x :: ActiveIn(after, Family(spec, x)) <= ActiveIn(before, Family(spec, x)) + if x == base then {a} else {}
  }

  lemma FamilyTags(spec: Spec, pb: Status)
    ensures TagsFor(spec, pb, WithBase, "") == Family(spec, pb.base)
    ensures StatusKey !in Family(spec, pb.base) && BaseAMI in Family(spec, pb.base) && Family(spec, pb.base)[BaseAMI] == pb.base
  {
    assert BaseAMI in TagKeys(WithBase) && StatusKey !in TagKeys(WithBase);
  }

  lemma FullTags(spec: Spec, pb: Status, stamp: string, image: StoredImage)
    ensures var after := Tagged(spec, pb, stamp, image);
      && Matches(Family(spec, pb.base), after.tags) && IsActive(after)
      && BaseAMI in after.tags && after.tags[BaseAMI] == pb.base
  {
    TaggedImageIsFound(spec, pb, WithBase, Everything, "", stamp, image.tags);
    FamilyTags(spec, pb);
    assert StatusKey in TagKeys(Everything) && BaseAMI in TagKeys(Everything);
  }

  lemma StillUpdating(spec: Spec, pb: Status, ec2: Ec2)
    ensures Updating(spec, pb, ec2, ec2)
  {}

  lemma UpdatingTwice(spec: Spec, pb: Status, a: Ec2, b: Ec2, c: Ec2)
    requires Updating(spec, pb, a, b) && Updating(spec, pb, b, c)
    ensures Updating(spec, pb, a, c)
  {
    OnlyFamilyTwice(a, b, c, Family(spec, pb.base), pb.built);
    if pb.built in a && c[pb.built] != b[pb.built] {
      var stamp :| c[pb.built] == Tagged(spec, pb, stamp, b[pb.built]);
      if b[pb.built] != a[pb.built] {
        var earlier :| b[pb.built] == Tagged(spec, pb, earlier, a[pb.built]);
        TagsTwice(spec, pb, earlier, stamp, a[pb.built]);
      }
      assert c[pb.built] == Tagged(spec, pb, stamp, a[pb.built]);
    }
  }

  lemma TagsTwice(spec: Spec, pb: Status, earlier: string, later: string, image: StoredImage)
    ensures Tagged(spec, pb, later, Tagged(spec, pb, earlier, image)) == Tagged(spec, pb, later, image)
  {
    assert TagsFor(spec, pb, Everything, earlier).Keys == TagsFor(spec, pb, Everything, later).Keys;
  }

  lemma OnlyFamilyTwice(a: Ec2, b: Ec2, c: Ec2, family: Tags, keep: ImageId)
    requires OnlyFamily(a, b, family, keep) && OnlyFamily(b, c, family, keep)
    ensures OnlyFamily(a, c, family, keep)
  {
    forall id | id in a && id != keep
      ensures c[id] == a[id] || (Matches(family, a[id].tags) && c[id] == Deprecated(a[id]))
    {
      assert Deprecated(Deprecated(a[id])) == Deprecated(a[id]);
    }
  }

  // A base image other than the update's: nothing becomes active there.
  lemma UpdatingBounds(spec: Spec, pb: Status, before: Ec2, after: Ec2)
    requires Updating(spec, pb, before, after)
    ensures Bounded(spec, pb.base, pb.built, before, after)
  {
    forall x, id | id in ActiveIn(after, Family(spec, x)) && !(x == pb.base && id == pb.built)
      ensures id in ActiveIn(before, Family(spec, x))
    {
      if id == pb.built && after[id] != before[id] {
        var stamp :| after[id] == Tagged(spec, pb, stamp, before[id]);
        FullTags(spec, pb, stamp, before[id]);
        FamilyTags(spec, NoStatus.(base := x));
        assert false;
      }
    }
  }

  // The listed images but `a` have been deprecated, and nothing else has changed.
  ghost predicate Retired(before: Ec2, after: Ec2, family: Tags, a: ImageId, done: seq<ImageId>) {
    && OnlyFamily(before, after, family, a)
    && (a in before ==> after[a] == before[a])
    && (forall id :: id in done && id != a ==> id in after && IsDeprecated(after[id]))
  }

  lemma RetireNone(before: Ec2, after: Ec2, family: Tags, a: ImageId, ids: seq<ImageId>, i: nat)
    requires i < |ids| && ids[i] == a && Retired(before, after, family, a, ids[..i])
    ensures Retired(before, after, family, a, ids[..i + 1])
  {
    assert ids[..i + 1] == ids[..i] + [a];
  }

  lemma RetireOne(before: Ec2, after: Ec2, family: Tags, a: ImageId, ids: seq<ImageId>, i: nat)
    requires i < |ids| && ids[i] != a && ids[i] in Members(before, family) && StatusKey !in family
    requires Retired(before, after, family, a, ids[..i])
    ensures ids[i] in after && Retired(before, Retag(after, ids[i], map[StatusKey := DEPRECATED]), family, a, ids[..i + 1])
  {
    DeprecatingOne(after, family, a, ids[i]);
    OnlyFamilyTwice(before, after, Retag(after, ids[i], map[StatusKey := DEPRECATED]), family, a);
    assert ids[..i + 1] == ids[..i] + [ids[i]];
  }

  lemma DeprecatingOne(before: Ec2, family: Tags, a: ImageId, id: ImageId)
    requires id in before && id != a && Matches(family, before[id].tags) && StatusKey !in family
    ensures var after := Retag(before, id, map[StatusKey := DEPRECATED]);
      && OnlyFamily(before, after, family, a) && IsDeprecated(after[id])
      && (forall x :: x in before && IsDeprecated(before[x]) ==> IsDeprecated(after[x]))
  {}

  lemma RetiredIsUpdating(spec: Spec, pb: Status, before: Ec2, after: Ec2, done: seq<ImageId>)
    ensures Retired(before, after, Family(spec, pb.base), pb.built, done) ==>
      && Updating(spec, pb, before, after) && before.Keys == after.Keys
      && (pb.built in before ==> after[pb.built] == before[pb.built])
  {}

  lemma RetiredStart(ec2: Ec2, family: Tags, a: ImageId)
    ensures Retired(ec2, ec2, family, a, [])
  {}

  // With every member listed and dealt with, only `a` can be active.
  lemma RetiredAll(before: Ec2, after: Ec2, family: Tags, a: ImageId, ids: seq<ImageId>)
    requires Retired(before, after, family, a, ids) && forall id :: id in Members(before, family) ==> id in ids
    ensures ActiveIn(after, family) == ActiveIn(before, family) * {a}
    ensures forall id :: id in Members(after, family) && id != a ==> id in ids && IsDeprecated(after[id])
  {
    assert forall id :: id in Members(after, family) && id != a ==> id in Members(before, family);
  }

  class Ec2Client {
    var images: Ec2
    var launchable: set<ImageId> // the images that everybody may launch
    ghost var history: seq<Ec2> // every state the tags have been in, the present one last

    ghost predicate Valid()
      reads this
    {
      |history| > 0 && history[|history| - 1] == images
    }

    // Since `from` moments ago everything was within the bounds of an update.
    ghost predicate WasUpdating(from: nat, spec: Spec, pb: Status, before: Ec2)
      reads this
    {
      from <= |history| && forall k :: from <= k < |history| ==> Updating(spec, pb, before, history[k])
    }

    constructor (images: Ec2, launchable: set<ImageId>)
      ensures Valid() && this.images == images && this.launchable == launchable
    {
      this.images, this.launchable := images, launchable;
      history := [images];
    }

    // An unknown image is refused; otherwise the call may still be lost, or be reported
    // as failed although it landed.
    method CreateTags(id: ImageId, tags: Tags) returns (call: Call)
      requires Valid()
      modifies this`images, this`history
      ensures Valid() && history == old(history) + [images]
      ensures call != Lost ==> id in old(images) && images == Retag(old(images), id, tags)
      ensures call == Lost ==> images == old(images)
    {
      call := *;
      if id !in images {
        call := Lost;
      }
      if call != Lost {
        images := Retag(images, id, tags);
      }
      history := history + [images];
    }

    method DescribeImages(filter: Tags) returns (ids: Option<seq<ImageId>>)
      ensures ids.Some? ==> (forall id :: id in ids.value <==> id in Members(images, filter))
    {
      var answered: bool := *;
      if !answered {
        return None;
      }
      var left := Members(images, filter);
      var found: seq<ImageId> := [];
      while left != {}
        invariant forall id :: id in Members(images, filter) <==> id in left || id in found
        decreases left
      {
        var id :| id in left;
        left := left - {id};
        found := found + [id];
      }
      return Some(found);
    }

    method TagAMI(amiId: ImageId, spec: Spec, pb: Status, stamp: string) returns (ok: bool)
      requires Valid()
      modifies this`images, this`history
      ensures Valid() && history == old(history) + [images]
      ensures images == old(images)
           || (amiId in old(images) && images == Retag(old(images), amiId, TagsFor(spec, pb, Everything, stamp)))
      ensures ok ==> amiId in old(images) && images == Retag(old(images), amiId, TagsFor(spec, pb, Everything, stamp))
    {
      var tags := BuildTagsAndFilters(spec, pb, Everything, stamp);
      var call := CreateTags(amiId, tags);
      ok := call == Landed;
    }

    // The launch permission is dropped first; only then is the image tagged, so an image
    // tagged here can no longer be launched by everybody.
    method DeprecateAMI(amiId: ImageId) returns (ok: bool)
      requires Valid()
      modifies this
      ensures Valid() && old(history) <= history
      ensures images == old(images)
           || (amiId in old(images) && images == Retag(old(images), amiId, map[StatusKey := "deprecated"]))
      ensures ok ==> amiId in old(images) && images == Retag(old(images), amiId, map[StatusKey := "deprecated"])
      ensures launchable == old(launchable) || launchable == old(launchable) - {amiId}
      ensures ok || images != old(images) ==> amiId !in launchable
      ensures forall k :: |old(history)| <= k < |history| ==> history[k] == images
    {
      var modified: Call := *;
      if modified != Lost {
        launchable := launchable - {amiId};
      }
      if modified != Landed {
        return false;
      }
      var call := CreateTags(amiId, map[StatusKey := DEPRECATED]);
      ok := call == Landed;
    }

    // Touches only other members of the family. On success all of those are deprecated and
    // none can be launched by everybody.
    method DeprecateOldAMIs(spec: Spec, pb: Status) returns (ok: bool)
      requires Valid()
      modifies this
      ensures Valid() && old(history) <= history && launchable <= old(launchable)
      ensures WasUpdating(|old(history)|, spec, pb, old(images)) && Updating(spec, pb, old(images), images)
      ensures pb.built in old(images) ==> pb.built in images && images[pb.built] == old(images)[pb.built]
      ensures pb.built in old(launchable) ==> pb.built in launchable
      ensures ok ==> ActiveIn(images, Family(spec, pb.base)) == ActiveIn(old(images), Family(spec, pb.base)) * {pb.built}
      ensures ok ==> forall id :: id in Members(images, Family(spec, pb.base)) && id != pb.built ==>
                IsDeprecated(images[id]) && id !in launchable
    {
      hide Retired, Updating, Members, ActiveIn, IsDeprecated, Retag, Family;
      var excludeAMI := pb.built;
      var family := BuildTagsAndFilters(spec, pb, WithBase, "");
      FamilyTags(spec, pb);
      RetiredStart(images, family, excludeAMI);
      StillUpdating(spec, pb, images);
      var listed := DescribeImages(family);
      if listed.None? {
        return false;
      }
      var ids := listed.value;
      for i := 0 to |ids|
        invariant Valid() && old(history) <= history && launchable <= old(launchable)
        invariant WasUpdating(|old(history)|, spec, pb, old(images))
        invariant Retired(old(images), images, family, excludeAMI, ids[..i])
        invariant forall j :: 0 <= j < i && ids[j] != excludeAMI ==> ids[j] !in launchable
        invariant excludeAMI in old(launchable) ==> excludeAMI in launchable
      {
        assert ids[i] in ids;
        if ids[i] == excludeAMI {
          RetireNone(old(images), images, family, excludeAMI, ids, i);
        } else {
          RetireOne(old(images), images, family, excludeAMI, ids, i);
          var done := DeprecateAMI(ids[i]);
          RetiredIsUpdating(spec, pb, old(images), images, ids[..i]);
          RetiredIsUpdating(spec, pb, old(images), images, ids[..i + 1]);
          if !done {
            return false;
          }
        }
      }
      assert ids[..|ids|] == ids;
      RetiredIsUpdating(spec, pb, old(images), images, ids);
      RetiredAll(old(images), images, family, excludeAMI, ids);
      return true;
    }

    // Whatever happens, the image itself is left alone or carries the full tag set, and in
    // no family of the builder is another image newly active; on success the image is the
    // only active one of its family and its siblings are deprecated.
    method HandleAMIUpdates(spec: Spec, pb: Status, stamp: string) returns (ok: bool)
      requires Valid()
      modifies this
      ensures Valid() && old(history) <= history && launchable <= old(launchable)
      ensures WasUpdating(|old(history)|, spec, pb, old(images)) && Updating(spec, pb, old(images), images)
      ensures Bounded(spec, pb.base, pb.built, old(images), images)
      ensures ok ==> pb.built in images && images[pb.built] == Tagged(spec, pb, stamp, old(images)[pb.built])
      ensures ok ==> ActiveIn(images, Family(spec, pb.base)) == {pb.built}
      ensures ok ==> forall id :: id in Members(images, Family(spec, pb.base)) && id != pb.built ==>
                IsDeprecated(images[id]) && id !in launchable
    {
      hide Bounded, ActiveIn, Members, IsDeprecated, Updating;
      ok := TagAMI(pb.built, spec, pb, stamp);
      TaggingUpdates(spec, pb, old(images), images, stamp);
      ghost var tagged := images;
      if ok {
        ok := DeprecateOldAMIs(spec, pb);
        UpdatingAfter(spec, pb, old(images), tagged);
        NowActive(spec, pb, old(images), tagged, stamp);
      }
      UpdatingBounds(spec, pb, old(images), images);
    }

    // The update is tried again until it succeeds or the log ends.
    method UpdateUntilDone(spec: Spec, pb: Status, stamps: seq<string>) returns (ok: bool)
      requires Valid()
      modifies this
      ensures Valid() && old(history) <= history
      ensures WasUpdating(|old(history)|, spec, pb, old(images)) && Updating(spec, pb, old(images), images)
      ensures ok ==> ActiveIn(images, Family(spec, pb.base)) == {pb.built}
    {
      hide ActiveIn, Updating;
      ok := false;
      var i := 0;
      StillUpdating(spec, pb, images);
      while i < |stamps| && !ok
        invariant Valid() && old(history) <= history
        invariant WasUpdating(|old(history)|, spec, pb, old(images)) && Updating(spec, pb, old(images), images)
        invariant ok ==> ActiveIn(images, Family(spec, pb.base)) == {pb.built}
        decreases |stamps| - i
      {
        ghost var before := images;
        ok := HandleAMIUpdates(spec, pb, stamps[i]);
        UpdatingAfter(spec, pb, old(images), before);
        i := i + 1;
      }
    }

    // A builder's updates one after the other, over any images and base images, each retried
    // until it succeeds; `ends` are the moments between them. If no base image has two active
    // images to begin with, none has two between updates, nor three at any moment.
    method UpdateInTurn(spec: Spec, pbs: seq<Status>, stamps: seq<seq<string>>) returns (done: bool, ghost ends: seq<nat>)
      requires Valid() && |pbs| == |stamps|
      modifies this
      ensures Valid() && old(history) <= history
      ensures AtMost(spec, old(images), 1) ==> forall k :: |old(history)| <= k < |history| ==> AtMost(spec, history[k], 2)
      ensures |ends| <= |pbs| && (done ==> |ends| == |pbs|)
      ensures forall i :: 0 <= i < |ends| ==> |old(history)| <= ends[i] + 1 <= |history|
      ensures AtMost(spec, old(images), 1) ==> forall i :: 0 <= i < |ends| ==> AtMost(spec, history[ends[i]], 1)
      ensures forall i :: 0 <= i < |ends| ==> ActiveIn(history[ends[i]], Family(spec, pbs[i].base)) == {pbs[i].built}
    {
      hide AtMost, ActiveIn, Updating;
      ends := [];
      for i := 0 to |pbs|
        invariant Valid() && old(history) <= history && |ends| == i
        invariant AtMost(spec, old(images), 1) ==> AtMost(spec, images, 1)
        invariant AtMost(spec, old(images), 1) ==> forall k :: |old(history)| <= k < |history| ==> AtMost(spec, history[k], 2)
        invariant forall j :: 0 <= j < |ends| ==> |old(history)| <= ends[j] + 1 <= |history|
        invariant AtMost(spec, old(images), 1) ==> forall j :: 0 <= j < |ends| ==> AtMost(spec, history[ends[j]], 1)
        invariant forall j :: 0 <= j < |ends| ==> ActiveIn(history[ends[j]], Family(spec, pbs[j].base)) == {pbs[j].built}
      {
        ghost var before, past := images, history;
        done := UpdateUntilDone(spec, pbs[i], stamps[i]);
        if AtMost(spec, before, 1) {
          forall k | |past| <= k < |history| ensures AtMost(spec, history[k], 2) {
            OneMore(spec, pbs[i], before, history[k]);
          }
        }
        if !done {
          return;
        }
        if AtMost(spec, before, 1) {
          JustOne(spec, pbs[i], before, images);
        }
        ends := ends + [|history| - 1];
      }
      done := true;
    }
  }

  // For every base image, the builder has at most `limit` active images.
  ghost predicate AtMost(spec: Spec, ec2: Ec2, limit: nat) {
    forall x :: |ActiveIn(ec2, Family(spec, x))| <= limit
  }

  lemma TaggingUpdates(spec: Spec, pb: Status, before: Ec2, after: Ec2, stamp: string)
    requires after == before || (pb.built in before && after == Retag(before, pb.built, TagsFor(spec, pb, Everything, stamp)))
    ensures Updating(spec, pb, before, after)
  {
    if after != before {
      assert after[pb.built] == Tagged(spec, pb, stamp, before[pb.built]);
    }
  }

  lemma UpdatingAfter(spec: Spec, pb: Status, before: Ec2, middle: Ec2)
    requires Updating(spec, pb, before, middle)
    ensures forall after :: Updating(spec, pb, middle, after) ==> Updating(spec, pb, before, after)
  {
    hide Updating;
    forall after | Updating(spec, pb, middle, after) ensures Updating(spec, pb, before, after) {
      UpdatingTwice(spec, pb, before, middle, after);
    }
  }

  lemma NowActive(spec: Spec, pb: Status, before: Ec2, after: Ec2, stamp: string)
    requires pb.built in before && after == Retag(before, pb.built, TagsFor(spec, pb, Everything, stamp))
    ensures after[pb.built] == Tagged(spec, pb, stamp, before[pb.built]) && pb.built in ActiveIn(after, Family(spec, pb.base))
  {
    FullTags(spec, pb, stamp, before[pb.built]);
  }

  lemma OneMore(spec: Spec, pb: Status, before: Ec2, after: Ec2)
    requires AtMost(spec, before, 1) && Updating(spec, pb, before, after)
    ensures AtMost(spec, after, 2)
  {
    UpdatingBounds(spec, pb, before, after);
    hide Updating;
    forall x ensures |ActiveIn(after, Family(spec, x))| <= 2 {
      AddingOne(ActiveIn(after, Family(spec, x)), ActiveIn(before, Family(spec, x)), if x == pb.base then {pb.built} else {});
    }
  }

  // After a success the family of the update's base image has just the new image, and no
  // other family has gained any.
  lemma JustOne(spec: Spec, pb: Status, before: Ec2, after: Ec2)
    requires AtMost(spec, before, 1) && Updating(spec, pb, before, after)
    requires ActiveIn(after, Family(spec, pb.base)) == {pb.built}
    ensures AtMost(spec, after, 1)
  {
    UpdatingBounds(spec, pb, before, after);
    hide Updating;
    forall x ensures |ActiveIn(after, Family(spec, x))| <= 1 {
      if x != pb.base {
        AddingOne(ActiveIn(after, Family(spec, x)), ActiveIn(before, Family(spec, x)), {});
      }
    }
  }

  lemma AddingOne(s: set<ImageId>, t: set<ImageId>, more: set<ImageId>)
    requires s <= t + more
    ensures |s| <= |t| + |more|
  {
    Smaller(s, t + more);
  }

  lemma {:induction false} Smaller<T>(s: set<T>, u: set<T>)
    requires s <= u
    ensures |s| <= |u|
  {
    if s != {} {
      var x :| x in s;
      Smaller(s - {x}, u - {x});
    }
  }
}
