// From the moment a builder's image is stamped until its age runs out, no run makes that
// builder create a job (flightCheck, LatestAMIDoesNotExistsOrExpired, handleAMIUpdates).
module Freshness {
  import opened Options
  import opened Opsy
  import opened Protocol
  import opened ProtocolInv
  import opened ProtocolJobs
  import opened Images
  import opened World

  ghost predicate Mine(w: World, n: Name, id: ImageId)
    requires n in w.builders
  {
    id in w.ec2 && Matches(IdentityFilter(w.builders[n].spec), w.ec2[id].tags)
  }

  // The image belongs to the builder, and every other image of the builder is readable
  // and strictly older.
  ghost predicate StrictlyNewest(env: Env, w: World, n: Name, a: ImageId)
    requires n in w.builders
  {
    && Mine(w, n, a) && StoredStamp(env.parse, w.ec2[a]).Some?
    && forall x :: Mine(w, n, x) && x != a ==>
         && StoredStamp(env.parse, w.ec2[x]).Some?
         && StoredStamp(env.parse, w.ec2[x]).value < StoredStamp(env.parse, w.ec2[a]).value
  }

  ghost predicate Distinct(w: World, n: Name)
    requires n in w.builders
  {
    forall m :: m in w.builders && m != n ==> !SameIdentity(w.builders[m].spec, w.builders[n].spec)
  }

  // What keeps the builder from building: image `a` is stamped no earlier than `since`,
  // active, and neither this builder nor another is about to retire it; and no JobCreation
  // is stored or on its way.
  ghost predicate Guarded(env: Env, w: World, n: Name, a: ImageId, since: int)
    requires n in w.builders
  {
    && a in w.ec2
    && StampedActive(env, w, a, since)
    && CalmBuilder(w.builders[n], a)
    && NobodyRetires(w, n, a)
  }

  ghost predicate StampedActive(env: Env, w: World, a: ImageId, since: int)
    requires a in w.ec2
  {
    && StatusKey in w.ec2[a].tags && w.ec2[a].tags[StatusKey] == ACTIVE
    && StoredStamp(env.parse, w.ec2[a]).Some?
    && since <= StoredStamp(env.parse, w.ec2[a]).value <= Trunc(w.now)
  }

  predicate CalmBuilder(b: Builder, a: ImageId) {
    && b.stored.state != JobCreation
    && (b.phase.Writing? ==> b.pb.state != JobCreation)
    && (b.upd.Listing? ==> b.upd.keep == a)
    && (b.upd.Retiring? ==> b.upd.keep == a)
  }

  ghost predicate NobodyRetires(w: World, n: Name, a: ImageId) {
    forall m :: m in w.builders && m != n && w.builders[m].upd.Retiring? ==> a !in w.builders[m].upd.rest
  }

  // ---------------------------------------------------------------- the flight check

  lemma NewestIsListedLatest(env: Env, w: World, n: Name, a: ImageId, seen: seq<Image>) returns (i: nat)
    requires n in w.builders && StrictlyNewest(env, w, n, a)
    requires IsListing(seen, w.ec2, IdentityFilter(w.builders[n].spec))
    ensures i < |seen| && seen[i].id == a && IsLatest(env.parse, seen, i)
    ensures Stamp(env.parse, seen[i]) == StoredStamp(env.parse, w.ec2[a])
    ensures Lists(seen[i].tags, w.ec2[a].tags)
  {
    i :| 0 <= i < |seen| && seen[i].id == a;
    forall j | 0 <= j < |seen|
      ensures Stamp(env.parse, seen[j]) == StoredStamp(env.parse, w.ec2[seen[j].id])
      ensures Mine(w, n, seen[j].id)
      ensures j != i ==> seen[j].id != a
    {
      ListedStamp(env.parse, seen[j], w.ec2[seen[j].id]);
    }
  }

  // While the newest image is active and young the check refuses; once it is too old, the
  // check allows a build, whatever its status.
  lemma CheckFollowsNewest(env: Env, w: World, n: Name, a: ImageId, seen: seq<Image>)
    requires n in w.builders && StrictlyNewest(env, w, n, a)
    requires IsListing(seen, w.ec2, IdentityFilter(w.builders[n].spec))
    ensures var stamp := StoredStamp(env.parse, w.ec2[a]).value;
      var allowed := AMIChecks(env.parse, seen, w.now, w.builders[n].spec.validFor, PackerBuilderCheck).0;
      allowed <==>
        || w.now > stamp + w.builders[n].spec.validFor
        || StatusKey !in w.ec2[a].tags || w.ec2[a].tags[StatusKey] != "active"
  {
    var i := NewestIsListedLatest(env, w, n, a, seen);
    BuildVerdict(env.parse, seen, w.now, w.builders[n].spec.validFor);
    ListedTag(seen[i].tags, w.ec2[a].tags, StatusKey);
    LatestMeaning(env.parse, seen);
    forall j: nat | IsLatest(env.parse, seen, j) ensures j == i {}
  }

  // ---------------------------------------------------------------- the guard

  lemma TaggingStamps(env: Env, w: World, spec: Spec, pb: Status, x: ImageId)
    requires RoundTrip(env.parse, env.format) && SECOND <= w.now && x in w.ec2
    ensures var ec2 := Retag(w.ec2, x, TagsFor(spec, pb, Everything, env.format(w.now)));
      && StoredStamp(env.parse, ec2[x]) == Some(Trunc(w.now))
      && StatusKey in ec2[x].tags && ec2[x].tags[StatusKey] == ACTIVE
      && Matches(IdentityFilter(spec), ec2[x].tags)
  {
    TaggingSets(env, w, spec, pb, x);
    IdentityIgnoresStatus(spec, NoStatus, pb);
    TaggedImageIsFound(spec, pb, IdentityOnly, Everything, "", env.format(w.now), w.ec2[x].tags);
  }

  lemma TaggingSets(env: Env, w: World, spec: Spec, pb: Status, x: ImageId)
    requires RoundTrip(env.parse, env.format) && SECOND <= w.now && x in w.ec2
    ensures var ec2 := Retag(w.ec2, x, TagsFor(spec, pb, Everything, env.format(w.now)));
      && StoredStamp(env.parse, ec2[x]) == Some(Trunc(w.now))
      && StatusKey in ec2[x].tags && ec2[x].tags[StatusKey] == ACTIVE
  {
    var stamp := env.format(w.now);
    assert env.parse(stamp) == Some(Trunc(w.now)) && Trunc(w.now) >= SECOND;
    FullTags(spec, pb, stamp);
    hide TagsFor;
  }

  lemma FullTags(spec: Spec, pb: Status, stamp: string)
    ensures var tags := TagsFor(spec, pb, Everything, stamp);
      && CreateTimestamp in tags && tags[CreateTimestamp] == stamp
      && StatusKey in tags && tags[StatusKey] == ACTIVE
  {
    assert CreateTimestamp in TagKeys(Everything) && StatusKey in TagKeys(Everything);
  }

  lemma TruncMonotone(a: int, b: int)
    requires a <= b
    ensures Trunc(a) <= Trunc(b)
  {}

  // One step of a run keeps the guard and creates no job for the builder.
  lemma GuardStep(env: Env, w: World, ev: WorldEvent, n: Name, a: ImageId, since: int)
    requires RoundTrip(env.parse, env.format) && Inv(w) && CanHappen(env, w, ev)
    requires n in w.builders && Distinct(w, n)
    requires Guarded(env, w, n, a, since) && StrictlyNewest(env, w, n, a)
    requires n in Apply(env, w, ev).builders && StrictlyNewest(env, Apply(env, w, ev), n, a)
    requires w.now <= since + w.builders[n].spec.validFor
    ensures Guarded(env, Apply(env, w, ev), n, a, since) && Distinct(Apply(env, w, ev), n)
    ensures !CreatesJob(ev, n)
  {
    assert BuilderInv(w, n);
    GuardImage(env, w, ev, n, a, since);
    GuardBuilder(env, w, ev, n, a, since);
    GuardOthers(env, w, ev, n, a);
    assert w.builders[n].phase.Handling? ==> w.builders[n].pb.state == w.builders[n].stored.state;
  }

  predicate CreatesJob(ev: WorldEvent, n: Name) {
    ev.Of? && ev.n == n && ev.e.Create? && (ev.e.outcome.Made? || ev.e.outcome.MadeUnseen?)
  }

  lemma GuardImage(env: Env, w: World, ev: WorldEvent, n: Name, a: ImageId, since: int)
    requires RoundTrip(env.parse, env.format) && Inv(w) && CanHappen(env, w, ev)
    requires n in w.builders && Distinct(w, n) && Guarded(env, w, n, a, since)
    requires n in Apply(env, w, ev).builders && StrictlyNewest(env, Apply(env, w, ev), n, a)
    ensures StampedActive(env, Apply(env, w, ev), a, since)
  {
    var w' := Apply(env, w, ev);
    TruncMonotone(w.now, w'.now);
    if ev.Of? && ev.e.TagCall? && !ev.e.call.Lost? {
      var b := w.builders[ev.n];
      TaggingStamps(env, w, b.spec, b.pb, b.upd.img);
      if b.upd.img == a && ev.n != n {
        ForeignTag(env, w, ev, n, a);
      }
    }
  }

  // Only the builder's own tags make an image its own.
  lemma ForeignTag(env: Env, w: World, ev: WorldEvent, n: Name, a: ImageId)
    requires CanHappen(env, w, ev) && ev.Of? && ev.n != n && ev.e.TagCall? && !ev.e.call.Lost?
    requires n in w.builders && Distinct(w, n) && w.builders[ev.n].upd.img == a && Inv(w)
    requires RoundTrip(env.parse, env.format)
    ensures n in Apply(env, w, ev).builders && !Mine(Apply(env, w, ev), n, a)
  {
    var w' := Apply(env, w, ev);
    var b := w.builders[ev.n];
    TaggingStamps(env, w, b.spec, b.pb, a);
    if Mine(w', n, a) {
      FiltersSeparate(b.spec, w.builders[n].spec, NoStatus, NoStatus, IdentityOnly, IdentityOnly, "", w'.ec2[a].tags);
    }
  }

  lemma GuardBuilder(env: Env, w: World, ev: WorldEvent, n: Name, a: ImageId, since: int)
    requires RoundTrip(env.parse, env.format) && Inv(w) && CanHappen(env, w, ev)
    requires n in w.builders && Guarded(env, w, n, a, since) && StrictlyNewest(env, w, n, a)
    requires n in Apply(env, w, ev).builders && StrictlyNewest(env, Apply(env, w, ev), n, a)
    requires w.now <= since + w.builders[n].spec.validFor
    ensures CalmBuilder(Apply(env, w, ev).builders[n], a)
  {
    assert BuilderInv(w, n);
    if ev.Of? && ev.n == n {
      CheckSaysNo(env, w, ev, n, a, since);
      hide StrictlyNewest, Step, Consistent;
      if ev.e.TagCall? && !ev.e.call.Lost? && w.builders[n].upd.img != a {
        NewerTagEndsIt(env, w, ev, n, a, since);
        assert false;
      }
      StepKeepsCalm(ConfigOf(w, n), ev.e, w.restarted, a);
    }
  }

  lemma CheckSaysNo(env: Env, w: World, ev: WorldEvent, n: Name, a: ImageId, since: int)
    requires CanHappen(env, w, ev) && ev.Of? && ev.n == n
    requires Guarded(env, w, n, a, since) && StrictlyNewest(env, w, n, a)
    requires w.now <= since + w.builders[n].spec.validFor
    ensures !(ev.e.Verdict? && ev.e.pass)
  {
    if ev.e.Verdict? && ev.e.pass {
      CheckFollowsNewest(env, w, n, a, ev.seen);
    }
  }

  lemma NewerTagEndsIt(env: Env, w: World, ev: WorldEvent, n: Name, a: ImageId, since: int)
    requires RoundTrip(env.parse, env.format) && Inv(w) && CanHappen(env, w, ev)
    requires ev.Of? && ev.n == n && ev.e.TagCall? && !ev.e.call.Lost?
    requires n in w.builders && Guarded(env, w, n, a, since) && w.builders[n].upd.img != a
    ensures n in Apply(env, w, ev).builders && !StrictlyNewest(env, Apply(env, w, ev), n, a)
  {
    var b := w.builders[n];
    TagEffect(env, w, ev);
    hide Apply, CanHappen, Retag;
    TaggingStamps(env, w, b.spec, b.pb, b.upd.img);
    RetagOthers(w.ec2, b.upd.img, TagsFor(b.spec, b.pb, Everything, env.format(w.now)));
    assert Mine(Apply(env, w, ev), n, b.upd.img);
  }

  // A landed tagging call makes its image strictly the builder's newest, if the builder's
  // other images were all stamped in earlier seconds.
  lemma TaggedIsNewest(env: Env, w: World, ev: WorldEvent, n: Name)
    requires RoundTrip(env.parse, env.format) && SECOND <= w.now && CanHappen(env, w, ev)
    requires ev.Of? && ev.n == n && ev.e.TagCall? && !ev.e.call.Lost?
    requires forall x :: Mine(w, n, x) && x != w.builders[n].upd.img ==>
      StoredStamp(env.parse, w.ec2[x]).Some? && StoredStamp(env.parse, w.ec2[x]).value < Trunc(w.now)
    ensures n in Apply(env, w, ev).builders && StrictlyNewest(env, Apply(env, w, ev), n, w.builders[n].upd.img)
  {
    var b := w.builders[n];
    TagEffect(env, w, ev);
    var w' := Apply(env, w, ev);
    hide Apply, CanHappen, Retag;
    TaggingStamps(env, w, b.spec, b.pb, b.upd.img);
    RetagOthers(w.ec2, b.upd.img, TagsFor(b.spec, b.pb, Everything, env.format(w.now)));
    forall x | Mine(w', n, x) && x != b.upd.img ensures Mine(w, n, x) {}
  }

  // What a tagging call that landed does to the world.
  lemma TagEffect(env: Env, w: World, ev: WorldEvent)
    requires CanHappen(env, w, ev) && ev.Of? && ev.e.TagCall? && !ev.e.call.Lost?
    ensures var b := w.builders[ev.n];
      && b.upd.Tagging? && b.upd.img in w.ec2 && ev.n in Apply(env, w, ev).builders
      && Apply(env, w, ev).builders[ev.n].spec == b.spec
      && Apply(env, w, ev).ec2 == Retag(w.ec2, b.upd.img, TagsFor(b.spec, b.pb, Everything, env.format(w.now)))
  {}

  lemma RetagOthers(ec2: Ec2, id: ImageId, tags: Tags)
    requires id in ec2
    ensures Retag(ec2, id, tags).Keys == ec2.Keys
    ensures forall x :: x in ec2 && x != id ==> Retag(ec2, id, tags)[x] == ec2[x]
  {}

  lemma StepKeepsCalm(c: Config, e: Event, restarted: bool, a: ImageId)
    requires CInv(c, restarted) && Enabled(c, e) && CalmBuilder(c.b, a)
    requires !(e.Verdict? && e.pass)
    requires e.TagCall? && e.call.Landed? ==> c.b.upd.img == a
    ensures CalmBuilder(Step(c, e).b, a)
  {
    hide *;
    if ImageStep(e) {
      ImageKeepsCalm(c, e, restarted, a);
    } else if Outside(e) {
      BootKeepsCalm(c, e, restarted, a);
    } else if Updating(e) {
      UpdateKeepsCalm(c, e, restarted, a);
    } else {
      HandlerKeepsCalm(c, e, restarted, a);
    }
  }

  lemma ImageKeepsCalm(c: Config, e: Event, restarted: bool, a: ImageId)
    requires CInv(c, restarted) && Enabled(c, e) && CalmBuilder(c.b, a) && ImageStep(e)
    requires e.TagCall? && e.call.Landed? ==> c.b.upd.img == a
    ensures CalmBuilder(Step(c, e).b, a)
  {}

  lemma BootKeepsCalm(c: Config, e: Event, restarted: bool, a: ImageId)
    requires CInv(c, restarted) && Enabled(c, e) && CalmBuilder(c.b, a) && Outside(e) && !ImageStep(e)
    ensures CalmBuilder(Step(c, e).b, a)
  {}

  lemma UpdateKeepsCalm(c: Config, e: Event, restarted: bool, a: ImageId)
    requires CInv(c, restarted) && Enabled(c, e) && CalmBuilder(c.b, a) && Updating(e)
    ensures CalmBuilder(Step(c, e).b, a)
  {}

  lemma HandlerKeepsCalm(c: Config, e: Event, restarted: bool, a: ImageId)
    requires CInv(c, restarted) && Enabled(c, e) && CalmBuilder(c.b, a) && !Outside(e) && !Updating(e)
    requires !(e.Verdict? && e.pass)
    ensures CalmBuilder(Step(c, e).b, a)
  {}

  lemma GuardOthers(env: Env, w: World, ev: WorldEvent, n: Name, a: ImageId)
    requires CanHappen(env, w, ev) && n in w.builders && Distinct(w, n)
    requires Mine(w, n, a) && NobodyRetires(w, n, a)
    ensures NobodyRetires(Apply(env, w, ev), n, a) && Distinct(Apply(env, w, ev), n)
  {
    var w' := Apply(env, w, ev);
    forall m | m in w'.builders && m != n
      ensures w'.builders[m].spec == w.builders[m].spec
      ensures w'.builders[m].upd.Retiring? ==> a !in w'.builders[m].upd.rest
    {
      if ev.Of? && ev.n == m {
        StepUpd(ConfigOf(w, m), ev.e);
        ForeignListing(env, w, ev, n, a);
      }
    }
    if ev.Of? && ev.n == n {
      StepUpd(ConfigOf(w, n), ev.e);
    }
  }

  // Another builder's listing never contains the image.
  lemma ForeignListing(env: Env, w: World, ev: WorldEvent, n: Name, a: ImageId)
    requires CanHappen(env, w, ev) && ev.Of? && ev.n != n && n in w.builders && Distinct(w, n) && Mine(w, n, a)
    ensures ev.e.ListCall? && ev.e.listed.Some? ==> a !in ev.e.listed.value
  {
    if ev.e.ListCall? && ev.e.listed.Some? && a in ev.e.listed.value {
      var b := w.builders[ev.n];
      assert Matches(TagsFor(b.spec, b.pb, WithBase, ""), w.ec2[a].tags);
      FiltersSeparate(b.spec, w.builders[n].spec, b.pb, NoStatus, WithBase, IdentityOnly, "", w.ec2[a].tags);
    }
  }

  // How a step changes the images an update still has to retire.
  lemma StepUpd(c: Config, e: Event)
    requires Enabled(c, e)
    ensures var b := Step(c, e).b;
      && b.spec == c.b.spec
      && (b.upd.Retiring? ==>
            || (e.ListCall? && e.listed == Some(b.upd.rest))
            || (c.b.upd.Retiring? && forall x :: x in b.upd.rest ==> x in c.b.upd.rest))
  {
    if !ImageStep(e) && !Boots(e) {
      OtherStepsKeepUpd(c, e);
    }
  }

  lemma OtherStepsKeepUpd(c: Config, e: Event)
    requires Enabled(c, e) && !ImageStep(e) && !Boots(e)
    ensures Step(c, e).b.spec == c.b.spec
    ensures Step(c, e).b.upd == c.b.upd || Step(c, e).b.upd.NoUpd?
  {
    hide *;
    if e.Create? {
      CreateKeepsUpd(c, e.jobId, e.outcome);
    } else if Updating(e) {
      UpdatesKeepUpd(c, e);
    } else {
      HandlersKeepUpd(c, e);
    }
  }

  lemma CreateKeepsUpd(c: Config, id: JobId, outcome: CreateOutcome)
    requires Enabled(c, Create(id, outcome))
    ensures var b := Step(c, Create(id, outcome)).b; b.spec == c.b.spec && b.upd == c.b.upd
  {}

  lemma UpdatesKeepUpd(c: Config, e: Event)
    requires Enabled(c, e) && Updating(e)
    ensures Step(c, e).b.spec == c.b.spec
    ensures Step(c, e).b.upd == c.b.upd || Step(c, e).b.upd.NoUpd?
  {}

  lemma HandlersKeepUpd(c: Config, e: Event)
    requires Enabled(c, e) && !ImageStep(e) && !Boots(e) && !Updating(e) && !e.Create?
    ensures Step(c, e).b.spec == c.b.spec
    ensures Step(c, e).b.upd == c.b.upd || Step(c, e).b.upd.NoUpd?
  {}

  // ---------------------------------------------------------------- whole runs

  lemma {:induction false} GuardRun(env: Env, ws: seq<World>, evs: seq<WorldEvent>, n: Name, a: ImageId, since: int, k: nat)
    requires RoundTrip(env.parse, env.format) && IsRun(env, ws, evs) && Inv(ws[0]) && k < |ws|
    requires forall i :: 0 <= i <= k ==> n in ws[i].builders
    requires Distinct(ws[0], n) && Guarded(env, ws[0], n, a, since)
    requires forall i :: 0 <= i <= k ==> StrictlyNewest(env, ws[i], n, a)
    requires forall i :: 0 <= i < k ==> ws[i].now <= since + ws[i].builders[n].spec.validFor
    ensures Guarded(env, ws[k], n, a, since) && Distinct(ws[k], n)
    ensures forall i :: 0 <= i < k ==> !CreatesJob(evs[i], n)
  {
    hide *;
    if k > 0 {
      GuardRun(env, ws, evs, n, a, since, k - 1);
      RunInv(env, ws, evs, k - 1);
      RunStep(env, ws, evs, k - 1);
      GuardStep(env, ws[k - 1], evs[k - 1], n, a, since);
    }
  }

  // A tagging call that lands, reported or not, raises the guard at once.
  lemma TaggingGuards(env: Env, w: World, ev: WorldEvent, n: Name)
    requires RoundTrip(env.parse, env.format) && Inv(w) && CanHappen(env, w, ev)
    requires ev.Of? && ev.n == n && ev.e.TagCall? && !ev.e.call.Lost?
    requires NobodyRetires(w, n, w.builders[n].upd.img)
    ensures n in Apply(env, w, ev).builders
    ensures Guarded(env, Apply(env, w, ev), n, w.builders[n].upd.img, Trunc(w.now))
  {
    var b := w.builders[n];
    assert BuilderInv(w, n);
    TaggingStamps(env, w, b.spec, b.pb, b.upd.img);
    TaggingCalms(ConfigOf(w, n), ev.e, w.restarted);
  }

  lemma TaggingCalms(c: Config, e: Event, restarted: bool)
    requires CInv(c, restarted) && UpdInv(c.b) && Enabled(c, e) && e.TagCall?
    ensures CalmBuilder(Step(c, e).b, c.b.upd.img)
  {}

  // A run that starts when builder `n` stamps an image, while nobody else is about to
  // retire that image; from then on the image stays strictly the builder's newest, and the
  // last step happens before the stamp has aged by validFor.
  ghost predicate FreshRun(env: Env, ws: seq<World>, evs: seq<WorldEvent>, n: Name) {
    && RoundTrip(env.parse, env.format) && IsRun(env, ws, evs) && Inv(ws[0]) && |evs| > 0
    && evs[0].Of? && evs[0].n == n && evs[0].e.TagCall? && !evs[0].e.call.Lost?
    && (forall i :: 0 <= i < |ws| ==> n in ws[i].builders)
    && Distinct(ws[0], n) && ws[0].builders[n].upd.Tagging? && NobodyRetires(ws[0], n, ws[0].builders[n].upd.img)
    && (forall i :: 0 < i < |ws| ==> StrictlyNewest(env, ws[i], n, ws[0].builders[n].upd.img))
    && forall i :: 0 < i < |ws| - 1 ==> ws[i].now <= Trunc(ws[0].now) + ws[i].builders[n].spec.validFor
  }

  // The main result: such a run creates no job for the builder.
  lemma NoJobWhileFresh(env: Env, ws: seq<World>, evs: seq<WorldEvent>, n: Name)
    requires FreshRun(env, ws, evs, n)
    ensures forall i :: 0 <= i < |evs| ==> !CreatesJob(evs[i], n)
  {
    var a := ws[0].builders[n].upd.img;
    TaggingGuards(env, ws[0], evs[0], n);
    StepInv(env, ws[0], evs[0]);
    StepUpd(ConfigOf(ws[0], n), evs[0].e);
    var later, laterEvs := ws[1..], evs[1..];
    RunLater(env, ws, evs);
    GuardRun(env, later, laterEvs, n, a, Trunc(ws[0].now), |laterEvs|);
    forall i | 0 <= i < |evs| ensures !CreatesJob(evs[i], n) {
      if i > 0 {
        assert laterEvs[i - 1] == evs[i];
      }
    }
  }

  // ---------------------------------------------------------------- after it has expired

  // Once the newest image has expired, every later listing of the same run lets the builder
  // build, as long as that stamp is still strictly the newest.
  lemma ExpiredStaysAllowed(env: Env, ws: seq<World>, evs: seq<WorldEvent>, n: Name, a: ImageId, b: ImageId,
                            j: nat, k: nat, seen: seq<Image>)
    requires IsRun(env, ws, evs) && j <= k < |ws| && n in ws[j].builders && StrictlyNewest(env, ws[j], n, a)
    requires ws[j].now > StoredStamp(env.parse, ws[j].ec2[a]).value + ws[j].builders[n].spec.validFor
    requires n in ws[k].builders && StrictlyNewest(env, ws[k], n, b)
    requires StoredStamp(env.parse, ws[k].ec2[b]).value <= StoredStamp(env.parse, ws[j].ec2[a]).value
    requires IsListing(seen, ws[k].ec2, IdentityFilter(ws[k].builders[n].spec))
    ensures AMIChecks(env.parse, seen, ws[k].now, ws[k].builders[n].spec.validFor, PackerBuilderCheck).0
  {
    RunOnward(env, ws, evs, n, j, k);
    CheckFollowsNewest(env, ws[k], n, b, seen);
  }

  // There are notations that read back: this one counts the seconds out.
  function Strokes(n: nat): (s: string)
    ensures |s| == n
  {
    seq(n, _ => 'x')
  }

  const Tally := Env(s => Some(|s| * SECOND), t => Strokes(if t < 0 then 0 else t / SECOND))

  lemma TallyReadsBack()
    ensures RoundTrip(Tally.parse, Tally.format)
  {}
}
