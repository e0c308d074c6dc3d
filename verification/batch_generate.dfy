/**
 * The batch driver: the fixed radius range, the segment angle and sleeper
 * density chosen for each radius, and the best-effort sweep that runs the
 * per-radius generator once for every radius and summarises the result.
 */
module BatchGenerate {
  import opened Outcomes
  import opened Diverse
  import GenerateStls
  import Wrappers

  /** Curve radii in studs, R24 to R120. */
  const Radii: seq<int> := [24, 32, 40, 48, 56, 64, 72, 80, 88, 96, 104, 112, 120]

  /** Segment angle per radius, in hundredths of a degree (22.5 degrees is 2250). */
  const AngleMap: map<int, nat> := map[
    24 := 2250, 32 := 2250,
    40 := 1800, 48 := 1800, 56 := 1800,
    64 := 1500, 72 := 1500, 80 := 1500, 88 := 1500,
    96 := 1125, 104 := 1125, 112 := 1125, 120 := 1125]

  /** Sleeper density per radius, from the parametric curve. */
  const DiverseMap: map<int, int> := map r | r in Radii :: CalculateDiverse(r)

  /** Every configuration is rendered for each radius the batch processes. */
  const FilesPerRadius: nat := 4

  /** The per-radius generator renders exactly that many configurations when none is chosen. */
  lemma FilesPerRadiusMatchesConfigurations()
    ensures FilesPerRadius == |GenerateStls.Configurations| == GenerateStls.PerRadius(Wrappers.None)
  {
  }

  /** The radii run from 24 to 120 in steps of 8. */
  lemma RadiiRange()
    ensures |Radii| == 13
    ensures forall i :: 0 <= i < |Radii| ==> Radii[i] == 24 + 8 * i
  {
  }

  /** The angle table has an entry for each radius, and for nothing else. */
  lemma AngleMapCoversRadii()
    ensures AngleMap.Keys == set r | r in Radii
  {
  }

  /** Angles never grow as the radius grows. */
  lemma AnglesNonIncreasing()
    ensures forall i, j :: 0 <= i <= j < |Radii| ==>
      Radii[i] in AngleMap && Radii[j] in AngleMap && AngleMap[Radii[i]] >= AngleMap[Radii[j]]
  {
  }

  /** The density table, radius by radius. */
  lemma DiverseMapValues()
    ensures DiverseMap == map[
      24 := 1800, 32 := 1332, 40 := 968, 48 := 708, 56 := 552, 64 := 500, 72 := 552,
      80 := 708, 88 := 968, 96 := 1332, 104 := 1800, 112 := 1800, 120 := 1800]
  {
    assert CalculateDiverse(24) == 1800 && CalculateDiverse(32) == 1332 && CalculateDiverse(40) == 968;
    assert CalculateDiverse(48) == 708 && CalculateDiverse(56) == 552 && CalculateDiverse(64) == 500;
    assert CalculateDiverse(72) == 552 && CalculateDiverse(80) == 708 && CalculateDiverse(88) == 968;
    assert CalculateDiverse(96) == 1332 && CalculateDiverse(104) == 1800;
    assert CalculateDiverse(112) == 1800 && CalculateDiverse(120) == 1800;
  }

  /** Both tables answer for every radius of the sweep. */
  lemma TablesCoverRadius(i: nat)
    requires i < |Radii|
    ensures Radii[i] in AngleMap && Radii[i] in DiverseMap
    ensures DiverseMap[Radii[i]] == CalculateDiverse(Radii[i])
  {
  }

  /**
   * The failed radii are exactly the radii whose run failed, listed in
   * increasing order, which is the order they were tried in.
   */
  lemma FailedRadiiExact(outcomes: seq<RenderOutcome>)
    requires |outcomes| == |Radii|
    ensures forall r :: r in FailedItems(Radii, outcomes) <==>
      exists i :: 0 <= i < |Radii| && Radii[i] == r && !Succeeded(outcomes[i])
    ensures forall i, j :: 0 <= i < j < |FailedItems(Radii, outcomes)| ==>
      FailedItems(Radii, outcomes)[i] < FailedItems(Radii, outcomes)[j]
  {
    forall r
      ensures r in FailedItems(Radii, outcomes) <==>
        exists i :: 0 <= i < |Radii| && Radii[i] == r && !Succeeded(outcomes[i])
    {
      FailedItemsMembers(Radii, outcomes, r);
    }
    FailedItemsIncreasing(Radii, outcomes);
  }

  /** One run of the per-radius generator: the radius, angle and density it is given. */
  datatype Invocation = Invocation(radius: int, angle: nat, diverse: int)

  /** The summary the batch prints, and its exit status. */
  datatype BatchSummary = BatchSummary(
    successCount: nat,
    failedRadii: seq<int>,
    totalFiles: nat,
    successfulFiles: nat,
    exitCode: int)

  /**
   * The generator runs the batch makes, one per radius in order, each
   * given the radius's table angle and curve density.
   */
  method PlanInvocations() returns (invocations: seq<Invocation>)
    ensures |invocations| == |Radii|
    ensures forall i :: 0 <= i < |Radii| ==>
      Radii[i] in AngleMap && invocations[i] == Invocation(Radii[i], AngleMap[Radii[i]], CalculateDiverse(Radii[i]))
  {
    invocations := [];
    for i := 0 to |Radii|
      invariant |invocations| == i
      invariant forall k :: 0 <= k < i ==>
        Radii[k] in AngleMap && invocations[k] == Invocation(Radii[k], AngleMap[Radii[k]], CalculateDiverse(Radii[k]))
    {
      var radius := Radii[i];
      TablesCoverRadius(i);
      invocations := invocations + [Invocation(radius, AngleMap[radius], DiverseMap[radius])];
    }
  }

  /**
   * The loop of the batch over any list of radii: count the successes
   * and collect the failed radii, trying every radius whatever happened
   * to the earlier ones.
   */
  method Sweep(radii: seq<int>, outcomes: seq<RenderOutcome>) returns (successCount: nat, failedRadii: seq<int>)
    requires |outcomes| == |radii|
    ensures successCount == CountSucceeded(outcomes)
    ensures failedRadii == FailedItems(radii, outcomes)
    ensures successCount + |failedRadii| == |radii|
  {
    successCount, failedRadii := 0, [];
    for i := 0 to |radii|
      invariant successCount == CountSucceeded(outcomes[..i])
      invariant failedRadii == FailedItems(radii[..i], outcomes[..i])
    {
      if Succeeded(outcomes[i]) {
        successCount := successCount + 1;
      } else {
        failedRadii := failedRadii + [radii[i]];
      }
      assert radii[..i + 1][..i] == radii[..i];
      assert outcomes[..i + 1][..i] == outcomes[..i];
    }
    assert radii[..|radii|] == radii;
    assert outcomes[..|radii|] == outcomes;
  }

  /**
   * The batch run: every radius is tried once, in order, whatever
   * happened to the earlier ones; `outcomes[i]` is how the run for
   * `Radii[i]` ended.  The exit status is 1 exactly when some radius failed.
   */
  method RunBatch(outcomes: seq<RenderOutcome>) returns (invocations: seq<Invocation>, summary: BatchSummary)
    requires |outcomes| == |Radii|
    ensures |invocations| == |Radii|
    ensures forall i :: 0 <= i < |Radii| ==>
      Radii[i] in AngleMap && invocations[i] == Invocation(Radii[i], AngleMap[Radii[i]], CalculateDiverse(Radii[i]))
    ensures summary.successCount == CountSucceeded(outcomes)
    ensures summary.successCount + |summary.failedRadii| == |Radii|
    ensures forall r :: r in summary.failedRadii <==>
      exists i :: 0 <= i < |Radii| && Radii[i] == r && !Succeeded(outcomes[i])
    ensures forall i, j :: 0 <= i < j < |summary.failedRadii| ==> summary.failedRadii[i] < summary.failedRadii[j]
    ensures summary.totalFiles == FilesPerRadius * |Radii|
    ensures summary.successfulFiles == FilesPerRadius * summary.successCount <= summary.totalFiles
    ensures summary.exitCode == (if |summary.failedRadii| > 0 then 1 else 0)
  {
    invocations := PlanInvocations();
    var successCount, failedRadii := Sweep(Radii, outcomes);
    FailedRadiiExact(outcomes);
    var totalFiles := |Radii| * FilesPerRadius;
    var successfulFiles := successCount * FilesPerRadius;
    summary := BatchSummary(successCount, failedRadii, totalFiles, successfulFiles,
      if |failedRadii| > 0 then 1 else 0);
  }
}
