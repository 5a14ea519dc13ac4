// Status.Update of pkg/status/status.go: read, overwrite the status, write, and retry when
// somebody else was faster. Other writers may edit the object at any point in between.
module StatusUpdate {

  datatype Outcome = Updated | Conflict | Failed

  // client-go's retry.DefaultRetry.
  const Steps := 5

  // One object as the API server keeps it. Every write makes a new version; `specEdits`
  // records all specs the object was given, `writes` the status of every status write.
  class ApiObject<Spec(0), State(0)> {
    const hasSubresource: bool // does a status write ignore the spec it carries?
    var version: nat
    var spec: Spec
    var status: State
    ghost var specEdits: seq<Spec>
    ghost var otherWrites: nat // writes made by anybody but the caller of Update
    ghost var failedCalls: nat // calls that failed, other than by a conflict

    ghost predicate Valid()
      reads this
    {
      |specEdits| > 0 && specEdits[|specEdits| - 1] == spec
    }

    constructor (hasSubresource: bool, spec: Spec, status: State)
      ensures Valid() && this.spec == spec && this.status == status
    {
      this.hasSubresource := hasSubresource;
      this.version, this.spec, this.status := 0, spec, status;
      specEdits, otherWrites, failedCalls := [spec], 0, 0;
    }

    // Anything other writers do between two of our calls.
    method OtherWriters()
      requires Valid()
      modifies this
      ensures Valid() && old(specEdits) <= specEdits && failedCalls == old(failedCalls)
      ensures otherWrites >= old(otherWrites) && version - old(version) == otherWrites - old(otherWrites)
      ensures version == old(version) ==> status == old(status) && spec == old(spec) && specEdits == old(specEdits)
    {
      var n: int := *;
      var i := 0;
      while i < n
        invariant Valid() && old(specEdits) <= specEdits && failedCalls == old(failedCalls)
        invariant otherWrites >= old(otherWrites) && version - old(version) == otherWrites - old(otherWrites)
        invariant version == old(version) ==> status == old(status) && spec == old(spec) && specEdits == old(specEdits)
      {
        var isSpecEdit: bool := *;
        if isSpecEdit {
          var newSpec: Spec := *;
          spec := newSpec;
          specEdits := specEdits + [newSpec];
        } else {
          var newStatus: State := *;
          status := newStatus;
        }
        version := version + 1;
        otherWrites := otherWrites + 1;
        i := i + 1;
      }
    }

    method Get() returns (ok: bool, latestVersion: nat, latestSpec: Spec)
      modifies this`failedCalls
      ensures ok ==> latestVersion == version && latestSpec == spec
      ensures failedCalls == old(failedCalls) + if ok then 0 else 1
    {
      ok := *;
      failedCalls := failedCalls + if ok then 0 else 1;
      latestVersion, latestSpec := version, spec;
    }

    // The write goes through only on the current version. With the status subresource it
    // leaves the spec alone, otherwise it stores the spec it was sent. A failure other than
    // a conflict may hide a write that landed.
    method UpdateStatus(atVersion: nat, newSpec: Spec, newStatus: State) returns (outcome: Outcome)
      modifies this`version, this`spec, this`status, this`failedCalls
      ensures failedCalls == old(failedCalls) + if outcome == Failed then 1 else 0
      ensures spec == old(spec) || (!hasSubresource && atVersion == old(version) && spec == newSpec)
      ensures atVersion != old(version) ==> outcome != Updated
      ensures outcome == Conflict ==> atVersion != old(version)
      ensures outcome == Updated ==> version == old(version) + 1 && status == newStatus
      ensures outcome != Updated ==> || (version == old(version) && status == old(status))
                                     || (outcome == Failed && atVersion == old(version)
                                         && version == old(version) + 1 && status == newStatus)
    {
      var fails: bool := *;
      var landed: bool := *;
      failedCalls := failedCalls + if fails then 1 else 0;
      if atVersion != version {
        return if fails then Failed else Conflict;
      }
      if !fails || landed {
        status := newStatus;
        if !hasSubresource {
          spec := newSpec;
        }
        version := version + 1;
      }
      return if fails then Failed else Updated;
    }

    // On success the caller's status is the stored one and the spec is still the last one
    // anybody gave the object; nobody's spec edit is ever undone. At most five attempts
    // are made. A conflict is reported only if on each of the five somebody else wrote
    // between our read, of version `seen[i]`, and our write, which met version `met[i]`;
    // then nothing of ours was written. Any other failure is that of a call, and the last
    // call: a conflict is retried as long as attempts are left.
    method Update(callerStatus: State) returns (outcome: Outcome, attempts: nat, ghost seen: seq<nat>, ghost met: seq<nat>)
      requires Valid()
      modifies this
      ensures Valid() && old(specEdits) <= specEdits
      ensures outcome == Updated ==> status == callerStatus
      ensures 1 <= attempts <= 5
      ensures failedCalls == old(failedCalls) + if outcome == Failed then 1 else 0
      ensures outcome == Conflict ==> attempts == 5 && Overtaken(old(version), seen, met, 5) && met[4] == version
      ensures outcome == Conflict ==> version - old(version) == otherWrites - old(otherWrites) >= 5
    {
      attempts, seen, met := 0, [], [];
      while true
        invariant Valid() && old(specEdits) <= specEdits && attempts < Steps
        invariant failedCalls == old(failedCalls)
        invariant Overtaken(old(version), seen, met, attempts)
        invariant version == if attempts == 0 then old(version) else met[attempts - 1]
        invariant version - old(version) == otherWrites - old(otherWrites) >= attempts
        decreases Steps - attempts
      {
        attempts := attempts + 1;
        OtherWriters();
        var found, latestVersion, latestSpec := Get();
        if !found {
          return Failed, attempts, seen, met;
        }
        OtherWriters();
        outcome := UpdateStatus(latestVersion, latestSpec, callerStatus);
        if outcome == Conflict {
          OvertakenAgain(old(version), seen, met, latestVersion, version);
        }
        seen, met := seen + [latestVersion], met + [version];
        if outcome != Conflict || attempts == Steps {
          return outcome, attempts, seen, met;
        }
      }
    }
  }

  // On each of `n` attempts the object moved on between our read and our write; `start` was
  // its version before the first.
  ghost predicate Overtaken(start: nat, seen: seq<nat>, met: seq<nat>, n: nat) {
    && |seen| == |met| == n
    && forall i :: 0 <= i < n ==> (if i == 0 then start else met[i - 1]) <= seen[i] < met[i]
  }

  lemma OvertakenAgain(start: nat, seen: seq<nat>, met: seq<nat>, read: nat, now: nat)
    requires Overtaken(start, seen, met, |met|)
    requires (if met == [] then start else met[|met| - 1]) <= read < now
    ensures Overtaken(start, seen + [read], met + [now], |met| + 1)
  {}
}
