/** The AMI janitor: it deregisters the account's own images older than
    730 hours that no instance is running, and deletes the snapshots whose
    description names a deregistered image. */
module Deckhand {
  import opened Common

  const OlderThanHours: nat := 730
  const NanosPerHour: nat := 3600000000000

  /** An image: its id, its name, and its creation date as nanoseconds since
      the epoch, or the error of parsing it. */
  datatype Image = Image(imageId: string, name: string, creationDate: Result<int>)

  datatype Snapshot = Snapshot(snapshotId: string, description: string)

  /** EC2 as the janitor sees it: the error of opening a session, the image
      ids of the instances of each reservation, the account's snapshots, its
      images, and the images and snapshots whose deregistration or deletion
      fails, with their errors. */
  datatype Ec2 = Ec2(
    sessionError: Option<string>,
    reservations: Result<seq<seq<string>>>,
    snapshots: Result<seq<Snapshot>>,
    images: Result<seq<Image>>,
    deregisterErrors: map<string, string>,
    deleteErrors: map<string, string>)

  /** The requests that change the account. */
  datatype Effect = DeregisterImage(imageId: string) | DeleteSnapshot(snapshotId: string)

  // ---------------------------------------------------------------------
  // Used images

  /** The image ids of every instance of the reservations. */
  function UsedIds(reservations: seq<seq<string>>): set<string>
  {
    if |reservations| == 0 then {}
    else UsedIds(reservations[..|reservations| - 1]) + Elements(reservations[|reservations| - 1])
  }

  function Elements(s: seq<string>): (r: set<string>)
    ensures forall x :: x in r <==> x in s
  {
    set x | x in s
  }

  /** An id is used exactly when some instance of some reservation runs it. */
  lemma {:induction false} UsedIdsExactly(reservations: seq<seq<string>>, x: string)
    ensures x in UsedIds(reservations) <==>
      exists i, j :: 0 <= i < |reservations| && 0 <= j < |reservations[i]| && reservations[i][j] == x
    decreases |reservations|
  {
    if |reservations| > 0 {
      var init := reservations[..|reservations| - 1];
      var n := |reservations| - 1;
      UsedIdsExactly(init, x);
      if exists i, j :: 0 <= i < |reservations| && 0 <= j < |reservations[i]| && reservations[i][j] == x {
        var i, j :| 0 <= i < |reservations| && 0 <= j < |reservations[i]| && reservations[i][j] == x;
        if i < n {
          assert init[i][j] == x;
        }
      }
      if exists i, j :: 0 <= i < |init| && 0 <= j < |init[i]| && init[i][j] == x {
        var i, j :| 0 <= i < |init| && 0 <= j < |init[i]| && init[i][j] == x;
        assert reservations[i][j] == x;
      }
    }
  }

  /** getUniqueUsedImages: the `encountered` set is filled in the nested
      loops, then listed in whatever order a Go map is ranged over. */
  method GetUniqueUsedImages(reservations: Result<seq<seq<string>>>) returns (r: Result<seq<string>>)
    ensures reservations.Err? ==> r == Err(reservations.error)
    ensures reservations.Ok? ==> (r.Ok?
      && (forall x :: x in r.value <==> x in UsedIds(reservations.value))
      && (forall i, j :: 0 <= i < j < |r.value| ==> r.value[i] != r.value[j]))
  {
    if reservations.Err? {
      return Err(reservations.error);
    }
    var res := reservations.value;
    var encountered: set<string> := {};
    for i := 0 to |res|
      invariant encountered == UsedIds(res[..i])
    {
      assert res[..i + 1][..i] == res[..i];
      for k := 0 to |res[i]|
        invariant encountered == UsedIds(res[..i]) + Elements(res[i][..k])
      {
        assert res[i][..k + 1] == res[i][..k] + [res[i][k]];
        encountered := encountered + {res[i][k]};
      }
      assert res[i][..|res[i]|] == res[i];
    }
    assert res[..|res|] == res;
    var uniqueUsedImages := [];
    var rest := encountered;
    while rest != {}
      invariant rest <= encountered
      invariant forall i, j :: 0 <= i < j < |uniqueUsedImages| ==> uniqueUsedImages[i] != uniqueUsedImages[j]
      invariant forall x :: x in encountered <==> x in rest || x in uniqueUsedImages
      invariant forall x :: x in uniqueUsedImages ==> x !in rest
      decreases rest
    {
      var image :| image in rest;
      uniqueUsedImages := uniqueUsedImages + [image];
      rest := rest - {image};
    }
    r := Ok(uniqueUsedImages);
  }

  /** contains: "" when the image is in use, and the image id otherwise (the
      name says the opposite of what is returned). */
  function ContainsInverted(arr: seq<string>, str: string): (r: string)
    ensures str in arr ==> r == ""
    ensures str !in arr ==> r == str
  {
    if |arr| == 0 then str
    else if arr[0] == str then ""
    else ContainsInverted(arr[1..], str)
  }

  /** An image with an empty id reads as in use, so it is never cleaned up. */
  lemma EmptyIdLooksUsed(arr: seq<string>)
    ensures ContainsInverted(arr, "") == ""
  {
  }

  // ---------------------------------------------------------------------
  // The age filter

  /** The kept images and the first parse error, if any. */
  datatype Filtered = Filtered(images: seq<Image>, err: Option<string>)

  predicate OlderThan(image: Image, olderThanHours: nat, now: int)
    requires image.creationDate.Ok?
  {
    now - image.creationDate.value > olderThanHours * NanosPerHour
  }

  /** filterImagesByDateRange by reference: the images older than the
      threshold in input order, up to the first date that does not parse. */
  function FilterOlder(images: seq<Image>, olderThanHours: nat, now: int): Filtered
  {
    if |images| == 0 then Filtered([], None)
    else if images[0].creationDate.Err? then Filtered([], Some(images[0].creationDate.error))
    else
      var rest := FilterOlder(images[1..], olderThanHours, now);
      Filtered((if OlderThan(images[0], olderThanHours, now) then [images[0]] else []) + rest.images, rest.err)
  }

  /** filterImagesByDateRange, `now` being the clock's reading. */
  method FilterImagesByDateRange(images: seq<Image>, olderThanHours: nat, now: int) returns (filteredAmis: seq<Image>, err: Option<string>)
    ensures Filtered(filteredAmis, err) == FilterOlder(images, olderThanHours, now)
  {
    filteredAmis := [];
    for i := 0 to |images|
      invariant filteredAmis + FilterOlder(images[i..], olderThanHours, now).images == FilterOlder(images, olderThanHours, now).images
      invariant FilterOlder(images[i..], olderThanHours, now).err == FilterOlder(images, olderThanHours, now).err
    {
      assert images[i..][1..] == images[i + 1..];
      var image := images[i];
      if image.creationDate.Err? {
        assert filteredAmis + [] == filteredAmis;
        return filteredAmis, Some(image.creationDate.error);
      }
      if now - image.creationDate.value > olderThanHours * NanosPerHour {
        filteredAmis := filteredAmis + [image];
      }
    }
    assert images[|images|..] == [];
    assert filteredAmis + [] == filteredAmis;
    err := None;
  }

  /** With every date parsed, exactly the images strictly older than the
      threshold are kept. */
  lemma {:induction false} FilterOlderExactly(images: seq<Image>, olderThanHours: nat, now: int, x: Image)
    requires forall i :: 0 <= i < |images| ==> images[i].creationDate.Ok?
    ensures FilterOlder(images, olderThanHours, now).err.None?
    ensures x in FilterOlder(images, olderThanHours, now).images <==> x in images && OlderThan(x, olderThanHours, now)
    decreases |images|
  {
    if |images| > 0 {
      assert forall i :: 0 <= i < |images[1..]| ==> images[1..][i] == images[i + 1];
      FilterOlderExactly(images[1..], olderThanHours, now, x);
      assert images == [images[0]] + images[1..];
    }
  }

  /** The first date that does not parse ends the filter: what is kept is
      what the images before it give, and its error is returned. */
  lemma {:induction false} FilterStopsAtParseError(images: seq<Image>, olderThanHours: nat, now: int, k: int)
    requires 0 <= k < |images| && images[k].creationDate.Err?
    requires forall i :: 0 <= i < k ==> images[i].creationDate.Ok?
    ensures FilterOlder(images, olderThanHours, now)
      == Filtered(FilterOlder(images[..k], olderThanHours, now).images, Some(images[k].creationDate.error))
    decreases k
  {
    if k > 0 {
      assert images[1..][k - 1] == images[k];
      assert forall i :: 0 <= i < k - 1 ==> images[1..][i] == images[i + 1];
      FilterStopsAtParseError(images[1..], olderThanHours, now, k - 1);
      assert images[..k][1..] == images[1..][..k - 1];
      assert images[..k][0] == images[0];
    }
  }

  // ---------------------------------------------------------------------
  // Snapshots

  /** The snapshots whose description names the image, in snapshot order. */
  function SnapshotIdsFor(snapshots: seq<Snapshot>, imageId: string): seq<string>
  {
    if |snapshots| == 0 then []
    else
      var last := snapshots[|snapshots| - 1];
      SnapshotIdsFor(snapshots[..|snapshots| - 1], imageId)
      + (if Contains(last.description, imageId) then [last.snapshotId] else [])
  }

  /** The loop collecting `snapshotIDs`. */
  method CollectSnapshotIDs(snapshots: seq<Snapshot>, imageId: string) returns (snapshotIDs: seq<string>)
    ensures snapshotIDs == SnapshotIdsFor(snapshots, imageId)
  {
    snapshotIDs := [];
    for i := 0 to |snapshots|
      invariant snapshotIDs == SnapshotIdsFor(snapshots[..i], imageId)
    {
      assert snapshots[..i + 1][..i] == snapshots[..i];
      if Contains(snapshots[i].description, imageId) {
        snapshotIDs := snapshotIDs + [snapshots[i].snapshotId];
      }
    }
    assert snapshots[..|snapshots|] == snapshots;
  }

  /** Exactly the snapshots whose description contains the image id are
      chosen. */
  lemma {:induction false} SnapshotIdsForExactly(snapshots: seq<Snapshot>, imageId: string, x: string)
    ensures x in SnapshotIdsFor(snapshots, imageId) <==>
      exists i :: 0 <= i < |snapshots| && snapshots[i].snapshotId == x && Contains(snapshots[i].description, imageId)
    decreases |snapshots|
  {
    if |snapshots| > 0 {
      var init := snapshots[..|snapshots| - 1];
      SnapshotIdsForExactly(init, imageId, x);
      if exists i :: 0 <= i < |snapshots| && snapshots[i].snapshotId == x && Contains(snapshots[i].description, imageId) {
        var i :| 0 <= i < |snapshots| && snapshots[i].snapshotId == x && Contains(snapshots[i].description, imageId);
        if i < |init| {
          assert init[i] == snapshots[i];
        }
      }
      if exists i :: 0 <= i < |init| && init[i].snapshotId == x && Contains(init[i].description, imageId) {
        var i :| 0 <= i < |init| && init[i].snapshotId == x && Contains(init[i].description, imageId);
        assert snapshots[i] == init[i];
      }
    }
  }

  /** The deletes sent, up to and including the first that fails, and that
      one's id and error. */
  datatype Deletion = Deletion(effects: seq<Effect>, failed: Option<(string, string)>)

  function DeleteSnapshots(ec2: Ec2, snapshotIDs: seq<string>): (d: Deletion)
    ensures |d.effects| <= |snapshotIDs|
    ensures d.failed.Some? ==>
      d.failed.value.0 in snapshotIDs && d.failed.value.0 in ec2.deleteErrors
      && d.failed.value.1 == ec2.deleteErrors[d.failed.value.0]
  {
    if |snapshotIDs| == 0 then Deletion([], None)
    else if snapshotIDs[0] in ec2.deleteErrors then
      Deletion([DeleteSnapshot(snapshotIDs[0])], Some((snapshotIDs[0], ec2.deleteErrors[snapshotIDs[0]])))
    else
      var rest := DeleteSnapshots(ec2, snapshotIDs[1..]);
      Deletion([DeleteSnapshot(snapshotIDs[0])] + rest.effects, rest.failed)
  }

  /** The snapshots are deleted in order up to and including the first
      whose delete fails, and that one's id and error are reported; when
      none fails, every snapshot is deleted. */
  lemma {:induction false} DeleteSnapshotsStopsAtFailure(ec2: Ec2, snapshotIDs: seq<string>)
    ensures var d := DeleteSnapshots(ec2, snapshotIDs);
      |d.effects| <= |snapshotIDs|
      && (forall i :: 0 <= i < |d.effects| ==> d.effects[i] == DeleteSnapshot(snapshotIDs[i]))
      && (d.failed.None? <==> |d.effects| == |snapshotIDs| && forall i :: 0 <= i < |snapshotIDs| ==> snapshotIDs[i] !in ec2.deleteErrors)
      && (d.failed.Some? ==>
            |d.effects| > 0 && d.failed.value.0 == snapshotIDs[|d.effects| - 1] && d.failed.value.0 in ec2.deleteErrors
            && d.failed.value.1 == ec2.deleteErrors[d.failed.value.0])
    decreases |snapshotIDs|
  {
    if |snapshotIDs| > 0 && snapshotIDs[0] !in ec2.deleteErrors {
      DeleteSnapshotsStopsAtFailure(ec2, snapshotIDs[1..]);
      assert forall i :: 0 <= i < |snapshotIDs[1..]| ==> snapshotIDs[1..][i] == snapshotIDs[i + 1];
    }
  }

  // ---------------------------------------------------------------------
  // The cleanup loop

  /** The outcome of the cleanup so far: the effects, whether the run has
      stopped, and the error it returns. */
  datatype Step = Step(effects: seq<Effect>, stopped: bool, err: Option<string>)

  /** errors.Wrapf: wrapping nil gives nil. */
  function Wrapf(err: Option<string>, msg: string): (r: Option<string>)
    ensures r.None? <==> err.None?
  {
    if err.None? then None else Some(msg + ": " + err.value)
  }

  /** What a failed snapshot delete returns. As written the code wraps `err`,
      the deregistration's result, which is nil by then; the corrected
      version wraps the delete's own error. */
  function SnapshotFailure(asWritten: bool, snapshotID: string, deleteErr: string): Option<string>
  {
    if asWritten then Wrapf(None, "Failed to delete Snapshot " + snapshotID)
    else Wrapf(Some(deleteErr), "Failed to delete Snapshot " + snapshotID)
  }

  /** One old image: skipped when in use; otherwise deregistered, and its
      snapshots deleted, a failure stopping the run. */
  function ImageStep(ec2: Ec2, used: seq<string>, image: Image, snapshots: seq<Snapshot>, asWritten: bool): Step
  {
    var imageForCleanup := ContainsInverted(used, image.imageId);
    if imageForCleanup == "" then Step([], false, None)
    else if imageForCleanup in ec2.deregisterErrors then
      Step([DeregisterImage(imageForCleanup)], true,
           Wrapf(Some(ec2.deregisterErrors[imageForCleanup]), "Failed to deregister AMI " + image.imageId))
    else
      var d := DeleteSnapshots(ec2, SnapshotIdsFor(snapshots, image.imageId));
      Step([DeregisterImage(imageForCleanup)] + d.effects, d.failed.Some?,
           if d.failed.None? then None else SnapshotFailure(asWritten, d.failed.value.0, d.failed.value.1))
  }

  function CleanupSteps(ec2: Ec2, used: seq<string>, images: seq<Image>, snapshots: seq<Snapshot>, asWritten: bool): Step
  {
    if |images| == 0 then Step([], false, None)
    else
      var s := ImageStep(ec2, used, images[0], snapshots, asWritten);
      if s.stopped then s
      else
        var rest := CleanupSteps(ec2, used, images[1..], snapshots, asWritten);
        Step(s.effects + rest.effects, rest.stopped, rest.err)
  }

  /** deleteAMIs by reference. */
  function DeleteAMIsOutcome(ec2: Ec2, used: seq<string>, now: int, asWritten: bool): Step
  {
    if ec2.snapshots.Err? then Step([], true, Wrapf(Some(ec2.snapshots.error), "Failed to get snapshots"))
    else if ec2.images.Err? then Step([], true, Wrapf(Some(ec2.images.error), "Failed to describe images"))
    else
      var filtered := FilterOlder(ec2.images.value, OlderThanHours, now);
      if filtered.err.Some? then Step([], true, Wrapf(filtered.err, "Failed to filter images by date range"))
      else CleanupSteps(ec2, used, filtered.images, ec2.snapshots.value, asWritten)
  }

  /** deleteAMIs as the code is written: a failed snapshot delete stops the
      run and returns nil. */
  function DeleteAMIsAsWritten(ec2: Ec2, used: seq<string>, now: int): (r: Step)
    ensures var c := DeleteAMIsOutcome(ec2, used, now, false);
      r.effects == c.effects && r.stopped == c.stopped && (r.err.Some? ==> r.err == c.err)
  {
    AsWrittenSameOutcome(ec2, used, now);
    DeleteAMIsOutcome(ec2, used, now, true)
  }

  /** As written, the cleanup makes the same calls and stops at the same
      point as the corrected one; it only loses the snapshot error. */
  lemma AsWrittenSameOutcome(ec2: Ec2, used: seq<string>, now: int)
    ensures var w, c := DeleteAMIsOutcome(ec2, used, now, true), DeleteAMIsOutcome(ec2, used, now, false);
      w.effects == c.effects && w.stopped == c.stopped && (w.err.Some? ==> w.err == c.err)
  {
    if ec2.snapshots.Ok? && ec2.images.Ok? {
      AsWrittenSameCalls(ec2, used, FilterOlder(ec2.images.value, OlderThanHours, now).images, ec2.snapshots.value);
    }
  }

  lemma {:induction false} AsWrittenSameCalls(ec2: Ec2, used: seq<string>, images: seq<Image>, snapshots: seq<Snapshot>)
    ensures var w, c := CleanupSteps(ec2, used, images, snapshots, true), CleanupSteps(ec2, used, images, snapshots, false);
      w.effects == c.effects && w.stopped == c.stopped && (w.err.Some? ==> w.err == c.err)
    decreases |images|
  {
    if |images| > 0 {
      AsWrittenSameCalls(ec2, used, images[1..], snapshots);
    }
  }

  /** The inner loop over `snapshotIDs`, wrapping the delete's own error. */
  method DeleteSnapshotsOf(ec2: Ec2, snapshotIDs: seq<string>) returns (effects: seq<Effect>, err: Option<string>)
    ensures var d := DeleteSnapshots(ec2, snapshotIDs);
      effects == d.effects && err == (if d.failed.None? then None else SnapshotFailure(false, d.failed.value.0, d.failed.value.1))
  {
    effects := [];
    for i := 0 to |snapshotIDs|
      invariant var rest := DeleteSnapshots(ec2, snapshotIDs[i..]);
        DeleteSnapshots(ec2, snapshotIDs) == Deletion(effects + rest.effects, rest.failed)
    {
      var snapshotID := snapshotIDs[i];
      ghost var tail := DeleteSnapshots(ec2, snapshotIDs[i + 1..]);
      assert snapshotIDs[i..][1..] == snapshotIDs[i + 1..];
      assert DeleteSnapshots(ec2, snapshotIDs[i..])
        == if snapshotID in ec2.deleteErrors then Deletion([DeleteSnapshot(snapshotID)], Some((snapshotID, ec2.deleteErrors[snapshotID])))
           else Deletion([DeleteSnapshot(snapshotID)] + tail.effects, tail.failed);
      if snapshotID in ec2.deleteErrors {
        var deleteErr := ec2.deleteErrors[snapshotID];
        return effects + [DeleteSnapshot(snapshotID)], Wrapf(Some(deleteErr), "Failed to delete Snapshot " + snapshotID);
      }
      assert effects + ([DeleteSnapshot(snapshotID)] + tail.effects) == (effects + [DeleteSnapshot(snapshotID)]) + tail.effects;
      effects := effects + [DeleteSnapshot(snapshotID)];
    }
    assert snapshotIDs[|snapshotIDs|..] == [];
    assert effects + [] == effects;
    err := None;
  }

  /** The body of the cleanup loop for one old image. */
  method ProcessImage(ec2: Ec2, used: seq<string>, image: Image, snapshots: seq<Snapshot>) returns (s: Step)
    ensures s == ImageStep(ec2, used, image, snapshots, false)
    ensures s.stopped <==> s.err.Some?
  {
    var imageForCleanup := ContainsInverted(used, image.imageId);
    if imageForCleanup == "" {
      return Step([], false, None);
    }
    var effects := [DeregisterImage(imageForCleanup)];
    if imageForCleanup in ec2.deregisterErrors {
      return Step(effects, true, Wrapf(Some(ec2.deregisterErrors[imageForCleanup]), "Failed to deregister AMI " + image.imageId));
    }
    var snapshotIDs := CollectSnapshotIDs(snapshots, image.imageId);
    var deletes, err := DeleteSnapshotsOf(ec2, snapshotIDs);
    s := Step(effects + deletes, err.Some?, err);
  }

  /** deleteAMIs, with the snapshot failure reported. */
  method DeleteAMIs(ec2: Ec2, used: seq<string>, now: int) returns (err: Option<string>, effects: seq<Effect>)
    ensures Step(effects, err.Some?, err) == DeleteAMIsOutcome(ec2, used, now, false)
  {
    if ec2.snapshots.Err? {
      return Wrapf(Some(ec2.snapshots.error), "Failed to get snapshots"), [];
    }
    if ec2.images.Err? {
      return Wrapf(Some(ec2.images.error), "Failed to describe images"), [];
    }
    var oldImages, filterErr := FilterImagesByDateRange(ec2.images.value, 730, now);
    if filterErr.Some? {
      return Wrapf(filterErr, "Failed to filter images by date range"), [];
    }
    err, effects := CleanupImages(ec2, used, oldImages, ec2.snapshots.value);
  }

  /** The loop of deleteAMIs over the old images, with the snapshot failure
      reported. */
  method CleanupImages(ec2: Ec2, used: seq<string>, oldImages: seq<Image>, snapshots: seq<Snapshot>)
    returns (err: Option<string>, effects: seq<Effect>)
    ensures Step(effects, err.Some?, err) == CleanupSteps(ec2, used, oldImages, snapshots, false)
  {
    effects := [];
    for i := 0 to |oldImages|
      invariant var rest := CleanupSteps(ec2, used, oldImages[i..], snapshots, false);
        CleanupSteps(ec2, used, oldImages, snapshots, false) == Step(effects + rest.effects, rest.stopped, rest.err)
    {
      var s := ProcessImage(ec2, used, oldImages[i], snapshots);
      CleanupStep(ec2, used, oldImages, snapshots, i, effects, s);
      if s.stopped {
        return s.err, effects + s.effects;
      }
      effects := effects + s.effects;
    }
    assert oldImages[|oldImages|..] == [];
    assert effects + [] == effects;
    err := None;
  }

  /** One step of the cleanup loop: with the effects so far followed by the
      rest of the run from image `i`, taking image `i`'s step either ends the
      run with that step's error or leaves the rest from image `i + 1`. */
  lemma CleanupStep(ec2: Ec2, used: seq<string>, images: seq<Image>, snapshots: seq<Snapshot>, i: int,
                    effects: seq<Effect>, s: Step)
    requires 0 <= i < |images|
    requires s == ImageStep(ec2, used, images[i], snapshots, false)
    requires s.stopped <==> s.err.Some?
    requires var rest := CleanupSteps(ec2, used, images[i..], snapshots, false);
      CleanupSteps(ec2, used, images, snapshots, false) == Step(effects + rest.effects, rest.stopped, rest.err)
    ensures s.stopped ==>
      CleanupSteps(ec2, used, images, snapshots, false) == Step(effects + s.effects, s.err.Some?, s.err)
    ensures var rest := CleanupSteps(ec2, used, images[i + 1..], snapshots, false);
      !s.stopped ==> CleanupSteps(ec2, used, images, snapshots, false) == Step((effects + s.effects) + rest.effects, rest.stopped, rest.err)
  {
    var tail := CleanupSteps(ec2, used, images[i + 1..], snapshots, false);
    CleanupUnfold(ec2, used, images, snapshots, i);
    assert effects + (s.effects + tail.effects) == (effects + s.effects) + tail.effects;
  }

  /** The run from image `i`: image `i`'s step, then the run from `i + 1`
      unless that step stopped. */
  lemma CleanupUnfold(ec2: Ec2, used: seq<string>, images: seq<Image>, snapshots: seq<Snapshot>, i: int)
    requires 0 <= i < |images|
    ensures var s, tail := ImageStep(ec2, used, images[i], snapshots, false), CleanupSteps(ec2, used, images[i + 1..], snapshots, false);
      CleanupSteps(ec2, used, images[i..], snapshots, false)
        == if s.stopped then s else Step(s.effects + tail.effects, tail.stopped, tail.err)
  {
    assert images[i..][1..] == images[i + 1..];
  }

  /** With the correction, the run stops exactly when it reports an error. */
  lemma {:induction false} CorrectedStopsIffError(ec2: Ec2, used: seq<string>, images: seq<Image>, snapshots: seq<Snapshot>)
    ensures CleanupSteps(ec2, used, images, snapshots, false).stopped <==> CleanupSteps(ec2, used, images, snapshots, false).err.Some?
    decreases |images|
  {
    if |images| > 0 {
      CorrectedStopsIffError(ec2, used, images[1..], snapshots);
    }
  }

  /** As written, a failed snapshot delete stops the run and reports
      nothing. */
  lemma SnapshotFailureUnreported(ec2: Ec2, used: seq<string>, image: Image, snapshots: seq<Snapshot>)
    requires image.imageId != "" && image.imageId !in used && image.imageId !in ec2.deregisterErrors
    requires DeleteSnapshots(ec2, SnapshotIdsFor(snapshots, image.imageId)).failed.Some?
    ensures ImageStep(ec2, used, image, snapshots, true).stopped
    ensures ImageStep(ec2, used, image, snapshots, true).err.None?
    ensures ImageStep(ec2, used, image, snapshots, false).err.Some?
  {
  }

  /** The discrepancy on a whole run: one old unused image whose only
      snapshot cannot be deleted. */
  lemma SnapshotFailureExample()
    ensures var ec2 := Ec2(None, Ok([]), Ok([Snapshot("snap-1", "ami-1")]), Ok([Image("ami-1", "old", Ok(0))]),
                           map[], map["snap-1" := "denied"]);
      var now := 731 * NanosPerHour;
      DeleteAMIsAsWritten(ec2, [], now) == Step([DeregisterImage("ami-1"), DeleteSnapshot("snap-1")], true, None)
      && DeleteAMIsOutcome(ec2, [], now, false)
         == Step([DeregisterImage("ami-1"), DeleteSnapshot("snap-1")], true, Some("Failed to delete Snapshot snap-1: denied"))
  {
    var image := Image("ami-1", "old", Ok(0));
    var snapshots := [Snapshot("snap-1", "ami-1")];
    var ec2 := Ec2(None, Ok([]), Ok(snapshots), Ok([image]), map[], map["snap-1" := "denied"]);
    var d := Deletion([DeleteSnapshot("snap-1")], Some(("snap-1", "denied")));
    assert DeleteSnapshots(ec2, ["snap-1"]) == d;
    assert "Failed to delete Snapshot " + "snap-1" + ": " + "denied" == "Failed to delete Snapshot snap-1: denied";
    assert ContainsInverted([], "ami-1") == "ami-1";
    assert FilterOlder([image], OlderThanHours, 731 * NanosPerHour).images == [image];
    assert Contains("ami-1", "ami-1") by { assert HasPrefix("ami-1", "ami-1"); }
    assert snapshots[..0] == [];
    assert SnapshotIdsFor(snapshots, "ami-1") == ["snap-1"];
    assert ["snap-1"][1..] == [];
  }

  /** Only old images that no instance uses are deregistered. */
  lemma {:induction false} DeregistersOnlyOldUnused(ec2: Ec2, used: seq<string>, images: seq<Image>, snapshots: seq<Snapshot>, asWritten: bool, x: string)
    requires DeregisterImage(x) in CleanupSteps(ec2, used, images, snapshots, asWritten).effects
    ensures x !in used && exists i :: 0 <= i < |images| && images[i].imageId == x
    decreases |images|
  {
    var s := ImageStep(ec2, used, images[0], snapshots, asWritten);
    var imageForCleanup := ContainsInverted(used, images[0].imageId);
    if imageForCleanup != "" && imageForCleanup !in ec2.deregisterErrors {
      DeleteSnapshotsStopsAtFailure(ec2, SnapshotIdsFor(snapshots, images[0].imageId));
    }
    if DeregisterImage(x) !in s.effects {
      DeregistersOnlyOldUnused(ec2, used, images[1..], snapshots, asWritten, x);
      var i :| 0 <= i < |images[1..]| && images[1..][i].imageId == x;
      assert images[i + 1].imageId == x;
    }
  }

  /** For a deregistered image, exactly its snapshots are deleted, in
      snapshot order, until one fails. */
  lemma DeletesExactlyItsSnapshots(ec2: Ec2, used: seq<string>, image: Image, snapshots: seq<Snapshot>, asWritten: bool)
    requires image.imageId != "" && image.imageId !in used && image.imageId !in ec2.deregisterErrors
    ensures var s := ImageStep(ec2, used, image, snapshots, asWritten);
      var ids := SnapshotIdsFor(snapshots, image.imageId);
      s.effects[0] == DeregisterImage(image.imageId)
      && |s.effects| - 1 <= |ids|
      && (forall i :: 1 <= i < |s.effects| ==> s.effects[i] == DeleteSnapshot(ids[i - 1]))
      && (!s.stopped ==> |s.effects| - 1 == |ids|)
  {
    DeleteSnapshotsStopsAtFailure(ec2, SnapshotIdsFor(snapshots, image.imageId));
  }

  /** A deregistration failure stops the run with its error. */
  lemma DeregisterFailureStops(ec2: Ec2, used: seq<string>, images: seq<Image>, snapshots: seq<Snapshot>, asWritten: bool)
    requires |images| > 0 && images[0].imageId != "" && images[0].imageId !in used && images[0].imageId in ec2.deregisterErrors
    ensures CleanupSteps(ec2, used, images, snapshots, asWritten)
      == Step([DeregisterImage(images[0].imageId)], true,
              Some("Failed to deregister AMI " + images[0].imageId + ": " + ec2.deregisterErrors[images[0].imageId]))
  {
  }

  /** handler: the session, the used images, then the cleanup. */
  function HandlerOutcome(ec2: Ec2, now: int, asWritten: bool): Step
  {
    if ec2.sessionError.Some? then Step([], true, ec2.sessionError)
    else if ec2.reservations.Err? then Step([], true, Some(ec2.reservations.error))
    else
      // the order the used images are listed in does not matter to the cleanup
      var used := UsedList(ec2.reservations.value);
      DeleteAMIsOutcome(ec2, used, now, asWritten)
  }

  /** One listing of the used images. */
  function UsedList(reservations: seq<seq<string>>): (r: seq<string>)
    ensures forall x :: x in r <==> x in UsedIds(reservations)
  {
    if |reservations| == 0 then []
    else UsedList(reservations[..|reservations| - 1]) + reservations[|reservations| - 1]
  }

  /** Only membership in the used list is ever consulted. */
  lemma {:induction false} CleanupDependsOnUsedSet(ec2: Ec2, a: seq<string>, b: seq<string>, images: seq<Image>, snapshots: seq<Snapshot>, asWritten: bool)
    requires forall x :: x in a <==> x in b
    ensures CleanupSteps(ec2, a, images, snapshots, asWritten) == CleanupSteps(ec2, b, images, snapshots, asWritten)
    decreases |images|
  {
    if |images| > 0 {
      CleanupDependsOnUsedSet(ec2, a, b, images[1..], snapshots, asWritten);
    }
  }

  method Handler(ec2: Ec2, now: int) returns (err: Option<string>, effects: seq<Effect>)
    ensures Step(effects, err.Some?, err) == HandlerOutcome(ec2, now, false)
  {
    if ec2.sessionError.Some? {
      return ec2.sessionError, [];
    }
    var uniqueUsedImages := GetUniqueUsedImages(ec2.reservations);
    if uniqueUsedImages.Err? {
      return Some(uniqueUsedImages.error), [];
    }
    err, effects := DeleteAMIs(ec2, uniqueUsedImages.value, now);
    DeleteAMIsDependsOnUsedSet(ec2, uniqueUsedImages.value, UsedList(ec2.reservations.value), now, false);
  }

  lemma DeleteAMIsDependsOnUsedSet(ec2: Ec2, a: seq<string>, b: seq<string>, now: int, asWritten: bool)
    requires forall x :: x in a <==> x in b
    ensures DeleteAMIsOutcome(ec2, a, now, asWritten) == DeleteAMIsOutcome(ec2, b, now, asWritten)
  {
    if ec2.snapshots.Ok? && ec2.images.Ok? {
      CleanupDependsOnUsedSet(ec2, a, b, FilterOlder(ec2.images.value, OlderThanHours, now).images, ec2.snapshots.value, asWritten);
    }
  }

  /** The discrepancy at the top level: on the run of SnapshotFailureExample
      the handler as written reports success, the corrected one the wrapped
      delete error, after the same calls. */
  lemma HandlerSnapshotFailureExample()
    ensures var ec2 := Ec2(None, Ok([]), Ok([Snapshot("snap-1", "ami-1")]), Ok([Image("ami-1", "old", Ok(0))]),
                           map[], map["snap-1" := "denied"]);
      var now := 731 * NanosPerHour;
      HandlerOutcome(ec2, now, true) == Step([DeregisterImage("ami-1"), DeleteSnapshot("snap-1")], true, None)
      && HandlerOutcome(ec2, now, false)
         == Step([DeregisterImage("ami-1"), DeleteSnapshot("snap-1")], true, Some("Failed to delete Snapshot snap-1: denied"))
  {
    SnapshotFailureExample();
    assert UsedList([]) == [];
  }
}
