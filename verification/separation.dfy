// Whose steps may touch an image's tags: builders that differ in cluster, name, repository
// or branch leave each other's images alone, unless a build log reports a foreign image.
module Separation {
  import opened Options
  import opened Opsy
  import opened Protocol
  import opened ProtocolInv
  import opened Images
  import opened World
  import opened Freshness

  // No other builder is in the middle of tagging or retiring the image.
  ghost predicate NobodyElse(w: World, n: Name, a: ImageId) {
    forall m :: m in w.builders && m != n ==>
      && (w.builders[m].upd.Tagging? ==> w.builders[m].upd.img != a)
      && (w.builders[m].upd.Retiring? ==> a !in w.builders[m].upd.rest)
  }

  // The builder's build log reported the image and starts its update.
  predicate Reports(w: World, ev: WorldEvent, a: ImageId) {
    ev.Of? && ev.e.StartUpdate? && ev.n in w.builders && w.builders[ev.n].pb.built == a
  }

  predicate Foreign(ev: WorldEvent, n: Name) { !(ev.Of? && ev.n == n) }

  lemma ForeignStep(env: Env, w: World, ev: WorldEvent, n: Name, a: ImageId)
    requires CanHappen(env, w, ev) && n in w.builders && Distinct(w, n) && Mine(w, n, a) && NobodyElse(w, n, a)
    requires Foreign(ev, n) && !Reports(w, ev, a) && ev != ImageDeleted(a)
    ensures n in Apply(env, w, ev).builders && Mine(Apply(env, w, ev), n, a)
    ensures Apply(env, w, ev).ec2[a] == w.ec2[a]
    ensures NobodyElse(Apply(env, w, ev), n, a) && Distinct(Apply(env, w, ev), n)
  {
    if ev.Of? {
      ForeignKeepsAway(env, w, ev, n, a);
    }
  }

  // What a foreign builder's own step does to its pending update.
  lemma ForeignKeepsAway(env: Env, w: World, ev: WorldEvent, n: Name, a: ImageId)
    requires CanHappen(env, w, ev) && n in w.builders && Distinct(w, n) && Mine(w, n, a) && NobodyElse(w, n, a)
    requires ev.Of? && ev.n != n && !Reports(w, ev, a)
    ensures var b := Step(ConfigOf(w, ev.n), ev.e).b;
      && b.spec == w.builders[ev.n].spec
      && (b.upd.Tagging? ==> b.upd.img != a)
      && (b.upd.Retiring? ==> a !in b.upd.rest)
  {
    StepUpd(ConfigOf(w, ev.n), ev.e);
    ForeignListing(env, w, ev, n, a);
    ForeignAdoption(env, w, ev, n, a);
    TaggingComesFrom(ConfigOf(w, ev.n), ev.e);
  }

  lemma TaggingComesFrom(c: Config, e: Event)
    requires Enabled(c, e)
    ensures var b := Step(c, e).b;
      b.upd.Tagging? ==>
        || (e.Adopt? && b.upd.img == e.img)
        || (e.StartUpdate? && b.upd.img == c.b.pb.built)
        || c.b.upd == b.upd
  {
    if !ImageStep(e) && !Boots(e) {
      OtherStepsKeepUpd(c, e);
    }
  }

  // An adopting builder finds only its own images.
  lemma ForeignAdoption(env: Env, w: World, ev: WorldEvent, n: Name, a: ImageId)
    requires CanHappen(env, w, ev) && ev.Of? && ev.n != n && n in w.builders && Distinct(w, n) && Mine(w, n, a)
    ensures ev.e.Adopt? ==> ev.e.img != a
  {
    if ev.e.Adopt? && ev.e.img == a {
      var b := w.builders[ev.n];
      assert Matches(IdentityFilter(b.spec), w.ec2[a].tags);
      FiltersSeparate(b.spec, w.builders[n].spec, NoStatus, NoStatus, IdentityOnly, IdentityOnly, "", w.ec2[a].tags);
    }
  }

  // The builder's own steps may rewrite its image's tags, but it stays the builder's.
  lemma OwnStep(env: Env, w: World, ev: WorldEvent, n: Name, a: ImageId)
    requires CanHappen(env, w, ev) && ev.Of? && ev.n == n
    requires n in w.builders && Distinct(w, n) && Mine(w, n, a) && NobodyElse(w, n, a)
    ensures n in Apply(env, w, ev).builders && Mine(Apply(env, w, ev), n, a)
    ensures NobodyElse(Apply(env, w, ev), n, a) && Distinct(Apply(env, w, ev), n)
  {
    var b := w.builders[n];
    StepUpd(ConfigOf(w, n), ev.e);
    hide Step, Enabled;
    if ev.e.TagCall? && a in w.ec2 {
      IdentityIgnoresStatus(b.spec, NoStatus, b.pb);
      TaggedImageIsFound(b.spec, b.pb, IdentityOnly, Everything, "", env.format(w.now), w.ec2[a].tags);
    }
    assert StatusKey !in TagKeys(IdentityOnly);
  }

  // Nobody deletes the image, and no builder but its own has it reported by its build log.
  ghost predicate LeftAlone(ws: seq<World>, evs: seq<WorldEvent>, n: Name, a: ImageId, k: nat)
    requires k <= |evs| && k <= |ws|
  {
    forall i :: 0 <= i < k ==> evs[i] != ImageDeleted(a) && (Foreign(evs[i], n) ==> !Reports(ws[i], evs[i], a))
  }

  // In any such run, with all builders at work in any order, the image stays its builder's
  // and no step but the builder's own changes any of its tags.
  lemma {:induction false} TagsAreSafe(env: Env, ws: seq<World>, evs: seq<WorldEvent>, n: Name, a: ImageId, k: nat)
    requires IsRun(env, ws, evs) && k < |ws| && LeftAlone(ws, evs, n, a, k)
    requires n in ws[0].builders && Distinct(ws[0], n) && Mine(ws[0], n, a) && NobodyElse(ws[0], n, a)
    ensures n in ws[k].builders && Distinct(ws[k], n) && Mine(ws[k], n, a) && NobodyElse(ws[k], n, a)
    ensures forall i :: 0 <= i < k && Foreign(evs[i], n) ==>
      a in ws[i].ec2 && a in ws[i + 1].ec2 && ws[i + 1].ec2[a] == ws[i].ec2[a]
  {
    hide *;
    if k > 0 {
      RunStep(env, ws, evs, k - 1);
      var w, ev := ws[k - 1], evs[k - 1];
      LeftAloneBefore(ws, evs, n, a, k);
      TagsAreSafe(env, ws, evs, n, a, k - 1);
      Own(w, n, a);
      if Foreign(ev, n) {
        ForeignStep(env, w, ev, n, a);
      } else {
        NotForeign(ev, n);
        OwnStep(env, w, ev, n, a);
      }
      Own(ws[k], n, a);
    }
  }

  lemma LeftAloneBefore(ws: seq<World>, evs: seq<WorldEvent>, n: Name, a: ImageId, k: nat)
    requires 0 < k <= |evs| && k <= |ws| && LeftAlone(ws, evs, n, a, k)
    ensures LeftAlone(ws, evs, n, a, k - 1)
    ensures evs[k - 1] != ImageDeleted(a) && (Foreign(evs[k - 1], n) ==> !Reports(ws[k - 1], evs[k - 1], a))
  {}

  lemma NotForeign(ev: WorldEvent, n: Name)
    requires !Foreign(ev, n)
    ensures ev.Of? && ev.n == n
  {}

  lemma Own(w: World, n: Name, a: ImageId)
    requires n in w.builders && Mine(w, n, a)
    ensures a in w.ec2
  {}

  // From the moment a builder's tagging call lands, every later check of that builder
  // finds the image among those it lists.
  lemma TaggedImageStaysFound(env: Env, ws: seq<World>, evs: seq<WorldEvent>, n: Name, k: nat, seen: seq<Image>)
    requires IsRun(env, ws, evs) && 0 < k < |ws|
    requires evs[0].Of? && evs[0].n == n && evs[0].e.TagCall? && !evs[0].e.call.Lost?
    requires n in ws[0].builders && ws[0].builders[n].upd.Tagging?
    requires var a := ws[0].builders[n].upd.img;
      NobodyElse(ws[0], n, a) && Distinct(ws[0], n) && LeftAlone(ws, evs, n, a, k)
    requires n in ws[k].builders && IsListing(seen, ws[k].ec2, IdentityFilter(ws[k].builders[n].spec))
    ensures exists i :: 0 <= i < |seen| && seen[i].id == ws[0].builders[n].upd.img
  {
    var a := ws[0].builders[n].upd.img;
    RunStep(env, ws, evs, 0);
    hide *;
    TaggingIsMine(env, ws[0], evs[0], n);
    LeftAloneLater(env, ws, evs, n, a, k);
    TagsAreSafe(env, ws[1..], evs[1..], n, a, k - 1);
    assert ws[1..][k - 1] == ws[k];
    MineIsListed(ws[k], n, a, seen);
  }

  lemma MineIsListed(w: World, n: Name, a: ImageId, seen: seq<Image>)
    requires n in w.builders && Mine(w, n, a) && IsListing(seen, w.ec2, IdentityFilter(w.builders[n].spec))
    ensures exists i :: 0 <= i < |seen| && seen[i].id == a
  {}

  lemma LeftAloneLater(env: Env, ws: seq<World>, evs: seq<WorldEvent>, n: Name, a: ImageId, k: nat)
    requires IsRun(env, ws, evs) && 0 < k <= |evs| && LeftAlone(ws, evs, n, a, k)
    ensures IsRun(env, ws[1..], evs[1..]) && LeftAlone(ws[1..], evs[1..], n, a, k - 1)
  {
    RunLater(env, ws, evs);
    hide Reports, Foreign;
    assert forall i :: 0 <= i < k - 1 ==> evs[1..][i] == evs[i + 1] && ws[1..][i] == ws[i + 1];
  }

  lemma TaggingIsMine(env: Env, w: World, ev: WorldEvent, n: Name)
    requires CanHappen(env, w, ev) && ev.Of? && ev.n == n && ev.e.TagCall? && !ev.e.call.Lost?
    requires n in w.builders && w.builders[n].upd.Tagging? && Distinct(w, n) && NobodyElse(w, n, w.builders[n].upd.img)
    ensures var w', a := Apply(env, w, ev), w.builders[n].upd.img;
      n in w'.builders && Distinct(w', n) && Mine(w', n, a) && NobodyElse(w', n, a)
  {
    var b := w.builders[n];
    TagEffect(env, w, ev);
    hide Step, Enabled;
    IdentityIgnoresStatus(b.spec, NoStatus, b.pb);
    TaggedImageIsFound(b.spec, b.pb, IdentityOnly, Everything, "", env.format(w.now), w.ec2[b.upd.img].tags);
  }
}
