/**
 * Reference definitions of the two routines of src/parmmg.c, as functions of
 * the oracle: the code each returns and the steps it invokes, in order. The
 * imperative controller in module Controller is proved to agree with them;
 * the lemmas below state the failure classification they implement.
 */
module Phases {
  import opened Steps

  /** What PMMG_preprocessMesh returns (-1, 0 or 1) and the steps it invoked. */
  datatype Preprocessed = Preprocessed(ier: int, steps: seq<Step>)

  /** What main returns and the steps it invoked. */
  datatype Finished = Finished(code: ExitCode, steps: seq<Step>)

  function Abs(x: int): int { if x < 0 then -x else x }

  /** The quality histogram runs on the root process when it prints at all. */
  predicate InquaRuns(o: Oracle) { o.rank == 0 && Abs(o.imprim) > 0 }

  /** A default solution is synthesised when optimising a mesh without one. */
  predicate DoSolRuns(o: Oracle) { o.optim && o.np == 0 }

  /** The length histogram is printed by the root at verbosity above 1 when a metric exists. */
  predicate PrilenRuns(o: Oracle) { o.rank == 0 && o.imprim > 1 && o.hasMetric }

  /** Every step of preprocessing that runs for this oracle succeeds. */
  predicate PreprocessSucceeds(o: Oracle) {
    o.scaleOk && o.tetraQualOk && (InquaRuns(o) ==> o.inquaOk) &&
    (DoSolRuns(o) ==> o.doSolOk) && o.analysOk
  }

  /** Initialisation, verbosity, loading (root only), input check and broadcast all succeed. */
  predicate SetupSucceeds(o: Oracle) {
    o.initOk && o.verboseOk && (o.rank == 0 ==> o.loadMesh >= 1 && o.loadSol >= 0) &&
    o.inputOk && o.bcastOk
  }

  /** The rank-0 packing and writing steps all succeed. */
  predicate FinalizeSucceeds(o: Oracle) {
    o.hashOk && o.bdryBuild >= 0 && o.saveMeshOk && o.saveSolOk
  }

  /**
   * PMMG_preprocessMesh (lines 13-53): the code it returns and the steps it
   * invokes. The code is -1 exactly when scaling fails, 1 exactly when every
   * step that runs succeeds, and 0 otherwise.
   */
  function PreprocessMeshSpec(o: Oracle): (p: Preprocessed)
    ensures p.ier == -1 || p.ier == 0 || p.ier == 1
    ensures p.ier == -1 <==> !o.scaleOk
    ensures p.ier == 1 <==> PreprocessSucceeds(o)
  {
    var t0 := [SetCommonFunc, SetFunc, ScaleMesh];
    if !o.scaleOk then Preprocessed(-1, t0)
    else
      var a := Analysis(o);
      Preprocessed(a.ier, t0 + a.steps)
  }

  /**
   * The part of PMMG_preprocessMesh that works on the scaled mesh (lines
   * 30-52): quality check, histograms, default solution, analysis. It
   * returns 1 exactly when every step that runs succeeds, 0 otherwise.
   */
  function Analysis(o: Oracle): (p: Preprocessed)
    ensures p.ier == 0 || p.ier == 1
    ensures p.ier == 1 <==> (o.tetraQualOk && (InquaRuns(o) ==> o.inquaOk) &&
                             (DoSolRuns(o) ==> o.doSolOk) && o.analysOk)
  {
    var t1 := [TetraQual];
    if !o.tetraQualOk then Preprocessed(0, t1)
    else
      var t2 := t1 + (if InquaRuns(o) then [Inqua] else []);
      if InquaRuns(o) && !o.inquaOk then Preprocessed(0, t2)
      else
        var t3 := t2 + (if DoSolRuns(o) then [DoSol, SolTruncature] else []);
        if DoSolRuns(o) && !o.doSolOk then Preprocessed(0, t2 + [DoSol])
        else
          var t4 := t3 + [Analys];
          if !o.analysOk then Preprocessed(0, t4)
          else Preprocessed(1, t4 + (if PrilenRuns(o) then [Prilen] else []))
  }

  /** None of the steps main invokes from the distribution on occurs in t. */
  predicate NoLateStep(t: seq<Step>) {
    UnscaleMesh !in t && DistributeMesh !in t && Remesh !in t && MergeParMesh !in t &&
    HashTetra !in t && BdryBuild !in t && SaveMesh !in t && SaveSol !in t
  }

  /** The steps of main up to the broadcast, stopping at the first failure (lines 84-117). */
  function SetupSteps(o: Oracle): (t: seq<Step>)
    ensures |t| > 0 && t[0] == InitParMesh
  {
    var t0 := [InitParMesh];
    if !o.initOk then t0
    else
      var t1 := t0 + [SetVerbose(if o.rank == 0 then 5 else 0)];
      if !o.verboseOk then t1
      else
        var t2 := t1 + (if o.rank == 0 then [LoadMesh] else []);
        if o.rank == 0 && o.loadMesh < 1 then t2
        else
          var t3 := t2 + (if o.rank == 0 then [LoadSol] else []);
          if o.rank == 0 && o.loadSol < 0 then t3
          else
            var t4 := t3 + [CheckInputData];
            if !o.inputOk then t4
            else t4 + [BcastMesh]
  }

  /**
   * The packing and writing done by the root once the meshes are merged
   * (lines 161-180): a failed hash, boundary build or mesh write is a
   * StrongFailure, a failed solution write only a LowFailure, and otherwise
   * the remesher's code stands.
   */
  function Finalize(o: Oracle): (f: Finished)
    ensures f.code == (if FinalizeSucceeds(o) then o.remesh
                       else if o.hashOk && o.bdryBuild >= 0 && o.saveMeshOk then LowFailure
                       else StrongFailure)
  {
    if !o.hashOk then Finished(StrongFailure, [HashTetra])
    else if o.bdryBuild < 0 then Finished(StrongFailure, [HashTetra, BdryBuild])
    else if !o.saveMeshOk then Finished(StrongFailure, [HashTetra, BdryBuild, SaveMesh])
    else if !o.saveSolOk then Finished(LowFailure, [HashTetra, BdryBuild, SaveMesh, SaveSol])
    else Finished(o.remesh, [HashTetra, BdryBuild, SaveMesh, SaveSol])
  }

  /**
   * The end of main after a remeshing that did not return StrongFailure
   * (lines 147-183): unscale, merge, and on the root pack and write.
   */
  function AfterRemesh(o: Oracle): (f: Finished)
    ensures f.code == StrongFailure || o.unscaleOk
  {
    if !o.unscaleOk then Finished(StrongFailure, [UnscaleMesh])
    else if !o.mergeOk then Finished(StrongFailure, [UnscaleMesh, MergeParMesh])
    else if o.rank != 0 then Finished(o.remesh, [UnscaleMesh, MergeParMesh])
    else
      var z := Finalize(o);
      Finished(z.code, [UnscaleMesh, MergeParMesh] + z.steps)
  }

  /**
   * The part of main after preprocessing returned ier (lines 118-183). A code
   * of -1 or 0 always ends in StrongFailure (the return of line 125 makes the
   * LowFailure of line 126 unreachable).
   */
  function AfterPreprocess(o: Oracle, ier: int): (f: Finished)
    ensures ier <= 0 ==> f.code == StrongFailure
  {
    if ier <= 0 then
      if ier == -1 then Finished(StrongFailure, [])
      else Finished(StrongFailure, [UnscaleMesh])
    else if !o.distributeOk then
      Finished(if o.unscaleOk then LowFailure else StrongFailure, [DistributeMesh, UnscaleMesh])
    else if o.remesh == StrongFailure then Finished(StrongFailure, [DistributeMesh, Remesh])
    else
      var f := AfterRemesh(o);
      Finished(f.code, [DistributeMesh, Remesh] + f.steps)
  }

  /**
   * Whether the mesh is still scaled when main returns, given what
   * preprocessing returned: never after a failed scaling, always after a
   * remesher StrongFailure (nothing unscales it), and otherwise exactly when
   * the one unscaling failed.
   */
  predicate EndsScaledAfterPreprocess(o: Oracle, ier: int) {
    if ier == -1 then false
    else if ier > 0 && o.distributeOk && o.remesh == StrongFailure then true
    else !o.unscaleOk
  }

  /** Whether the mesh is still scaled when main returns: only once scaling succeeded. */
  predicate EndsScaled(o: Oracle) {
    SetupSucceeds(o) && o.scaleOk &&
    (if PreprocessSucceeds(o) && o.distributeOk && o.remesh == StrongFailure then true
     else !o.unscaleOk)
  }

  /**
   * main (lines 65-184): the exit code and the steps invoked, setup first,
   * then preprocessing, then the rest; any setup failure is a StrongFailure.
   */
  function MainSpec(o: Oracle): (r: Finished)
    ensures !SetupSucceeds(o) ==> r.code == StrongFailure
  {
    if !SetupSucceeds(o) then Finished(StrongFailure, SetupSteps(o))
    else
      var p := PreprocessMeshSpec(o);
      var f := AfterPreprocess(o, p.ier);
      Finished(f.code, SetupSteps(o) + p.steps + f.steps)
  }

  // ---------------------------------------------------------------------
  // The same routines seen from a trace that is already under way: each
  // function below runs the routine after the steps of t and returns the
  // extended trace, appending one step at a time as the C code invokes
  // them. The controller in module Controller is proved against these; the
  // lemmas right after them show that each one appends exactly the segment
  // its counterpart above describes.
  // ---------------------------------------------------------------------

  /** main from initialisation to the broadcast, run after the steps of t. */
  function SetupFrom(o: Oracle, t: seq<Step>): seq<Step>
  {
    var t0 := t + [InitParMesh];
    if !o.initOk then t0
    else
      var t1 := t0 + [SetVerbose(if o.rank == 0 then 5 else 0)];
      if !o.verboseOk then t1
      else
        var t2 := if o.rank == 0 then t1 + [LoadMesh] else t1;
        if o.rank == 0 && o.loadMesh < 1 then t2
        else
          var t3 := if o.rank == 0 then t2 + [LoadSol] else t2;
          if o.rank == 0 && o.loadSol < 0 then t3
          else
            var t4 := t3 + [CheckInputData];
            if !o.inputOk then t4
            else t4 + [BcastMesh]
  }

  /** PMMG_preprocessMesh run after the steps of t. */
  function PreprocessFrom(o: Oracle, t: seq<Step>): Preprocessed
  {
    var t0 := t + [SetCommonFunc] + [SetFunc] + [ScaleMesh];
    if !o.scaleOk then Preprocessed(-1, t0)
    else
      var t1 := t0 + [TetraQual];
      if !o.tetraQualOk then Preprocessed(0, t1)
      else
        var t2 := if InquaRuns(o) then t1 + [Inqua] else t1;
        if InquaRuns(o) && !o.inquaOk then Preprocessed(0, t2)
        else if DoSolRuns(o) && !o.doSolOk then Preprocessed(0, t2 + [DoSol])
        else
          var t3 := if DoSolRuns(o) then t2 + [DoSol] + [SolTruncature] else t2;
          var t4 := t3 + [Analys];
          if !o.analysOk then Preprocessed(0, t4)
          else Preprocessed(1, if PrilenRuns(o) then t4 + [Prilen] else t4)
  }

  /** The root's packing and writing run after the steps of t. */
  function FinalizeFrom(o: Oracle, t: seq<Step>): Finished
  {
    var t1 := t + [HashTetra];
    if !o.hashOk then Finished(StrongFailure, t1)
    else
      var t2 := t1 + [BdryBuild];
      if o.bdryBuild < 0 then Finished(StrongFailure, t2)
      else
        var t3 := t2 + [SaveMesh];
        if !o.saveMeshOk then Finished(StrongFailure, t3)
        else
          var t4 := t3 + [SaveSol];
          if !o.saveSolOk then Finished(LowFailure, t4)
          else Finished(o.remesh, t4)
  }

  /** Unscaling, merging and the root's writing run after the steps of t. */
  function AfterRemeshFrom(o: Oracle, t: seq<Step>): Finished
  {
    var t1 := t + [UnscaleMesh];
    if !o.unscaleOk then Finished(StrongFailure, t1)
    else
      var t2 := t1 + [MergeParMesh];
      if !o.mergeOk then Finished(StrongFailure, t2)
      else if o.rank != 0 then Finished(o.remesh, t2)
      else FinalizeFrom(o, t2)
  }

  /** The part of main after preprocessing returned ier, run after the steps of t. */
  function AfterPreprocessFrom(o: Oracle, ier: int, t: seq<Step>): Finished
  {
    if ier <= 0 then
      if ier == -1 then Finished(StrongFailure, t)
      else Finished(StrongFailure, t + [UnscaleMesh])
    else
      var t1 := t + [DistributeMesh];
      if !o.distributeOk then
        Finished(if o.unscaleOk then LowFailure else StrongFailure, t1 + [UnscaleMesh])
      else
        var t2 := t1 + [Remesh];
        if o.remesh == StrongFailure then Finished(StrongFailure, t2)
        else AfterRemeshFrom(o, t2)
  }

  /** Setup appends exactly SetupSteps(o) to whatever ran before it. */
  lemma SetupFromAppends(o: Oracle, t: seq<Step>)
    ensures SetupFrom(o, t) == t + SetupSteps(o)
  {
  }

  /** Preprocessing appends exactly the steps of PreprocessMeshSpec and returns its code. */
  lemma PreprocessFromAppends(o: Oracle, t: seq<Step>)
    ensures PreprocessFrom(o, t) == Preprocessed(PreprocessMeshSpec(o).ier, t + PreprocessMeshSpec(o).steps)
  {
  }

  /** Packing and writing append exactly the steps of Finalize and return its code. */
  lemma FinalizeFromAppends(o: Oracle, t: seq<Step>)
    ensures FinalizeFrom(o, t) == Finished(Finalize(o).code, t + Finalize(o).steps)
  {
  }

  /** The end of main after remeshing appends exactly the steps of AfterRemesh. */
  lemma {:induction false} AfterRemeshFromAppends(o: Oracle, t: seq<Step>)
    ensures AfterRemeshFrom(o, t) == Finished(AfterRemesh(o).code, t + AfterRemesh(o).steps)
  {
    FinalizeFromAppends(o, t + [UnscaleMesh] + [MergeParMesh]);
  }

  /** The part of main after preprocessing appends exactly the steps of AfterPreprocess. */
  lemma {:induction false} AfterPreprocessFromAppends(o: Oracle, ier: int, t: seq<Step>)
    ensures AfterPreprocessFrom(o, ier, t) ==
            Finished(AfterPreprocess(o, ier).code, t + AfterPreprocess(o, ier).steps)
  {
    AfterRemeshFromAppends(o, t + [DistributeMesh] + [Remesh]);
  }

  // ---------------------------------------------------------------------
  // The shape of each segment
  // ---------------------------------------------------------------------

  /** Preprocessing begins with the two function setters and the scaling. */
  lemma PreprocessBeginsWithScaling(o: Oracle)
    ensures var t := PreprocessMeshSpec(o).steps;
      |t| >= 3 && t[..3] == [SetCommonFunc, SetFunc, ScaleMesh] && ScaleMesh in t
  {
  }

  /** The analysis of the scaled mesh invokes only kernels that work in the scaled frame. */
  lemma AnalysisStepsAreScaledKernels(o: Oracle)
    ensures forall x | x in Analysis(o).steps :: NeedsScaled(x) && !x.UnscaleMesh? && !x.Remesh?
  {
  }

  /** Preprocessing never loads, distributes, remeshes, unscales, merges or writes. */
  lemma {:induction false} PreprocessStepsAreEarly(o: Oracle)
    ensures var t := PreprocessMeshSpec(o).steps;
      NoLateStep(t) && LoadMesh !in t && LoadSol !in t
  {
    if o.scaleOk {
      AnalysisStepsAreScaledKernels(o);
      ScaledKernelsAreEarly([SetCommonFunc, SetFunc, ScaleMesh], Analysis(o).steps);
    }
  }

  /** Appending scaled-frame kernels to an early trace keeps it early. */
  lemma ScaledKernelsAreEarly(t0: seq<Step>, a: seq<Step>)
    requires NoLateStep(t0) && LoadMesh !in t0 && LoadSol !in t0
    requires forall x | x in a :: NeedsScaled(x) && !x.UnscaleMesh? && !x.Remesh?
    ensures NoLateStep(t0 + a) && LoadMesh !in t0 + a && LoadSol !in t0 + a
  {
  }

  /** Setup never scales, and invokes none of the steps from the distribution on. */
  lemma SetupStepsAreEarly(o: Oracle)
    ensures NoLateStep(SetupSteps(o)) && ScaleMesh !in SetupSteps(o)
  {
    assert forall x | x in SetupSteps(o) :: x.InitParMesh? || x.SetVerbose? || x.LoadMesh? ||
                                           x.LoadSol? || x.CheckInputData? || x.BcastMesh?;
  }

  /**
   * Setup loads only on the root, and reaches the broadcast exactly when
   * everything before it succeeded.
   */
  lemma SetupLoadsOnRoot(o: Oracle)
    ensures var t := SetupSteps(o);
      ((LoadMesh in t || LoadSol in t) ==> o.rank == 0) &&
      (BcastMesh in t <==>
         (o.initOk && o.verboseOk && (o.rank == 0 ==> o.loadMesh >= 1 && o.loadSol >= 0) && o.inputOk))
  {
  }

  /** Packing and writing only invoke steps that need physical coordinates. */
  lemma FinalizeWritesUnscaled(o: Oracle)
    ensures forall x | x in Finalize(o).steps :: NeedsUnscaled(x) && !x.ScaleMesh?
  {
  }

  /** Packing and writing neither scales, unscales nor loads. */
  lemma FinalizeShape(o: Oracle)
    ensures var t := Finalize(o).steps;
      UnscaleMesh !in t && ScaleMesh !in t && LoadMesh !in t && LoadSol !in t
  {
  }

  /**
   * After a remeshing that did not fail strongly, unscaling is invoked exactly
   * once, never scaling nor loading, and packing and writing only on the root.
   */
  lemma {:induction false} AfterRemeshShape(o: Oracle)
    ensures var t := AfterRemesh(o).steps;
      UnscaleMesh in t && multiset(t)[UnscaleMesh] == 1 &&
      ScaleMesh !in t && LoadMesh !in t && LoadSol !in t &&
      ((HashTetra in t || BdryBuild in t || SaveMesh in t || SaveSol in t) ==> o.rank == 0)
  {
    if o.unscaleOk && o.mergeOk && o.rank == 0 {
      FinalizeShape(o);
      NeverInvoked(Finalize(o).steps, UnscaleMesh);
    }
  }

  /**
   * After preprocessing, unscaling is invoked at most once and never after a
   * failed scaling; the run ends in StrongFailure unless it unscaled
   * successfully; packing and writing happen only on the root.
   */
  lemma {:induction false} AfterPreprocessShape(o: Oracle, ier: int)
    ensures var f := AfterPreprocess(o, ier);
      multiset(f.steps)[UnscaleMesh] <= 1 &&
      (UnscaleMesh in f.steps ==> ier != -1) &&
      ScaleMesh !in f.steps && LoadMesh !in f.steps && LoadSol !in f.steps &&
      ((HashTetra in f.steps || BdryBuild in f.steps || SaveMesh in f.steps || SaveSol in f.steps)
         ==> o.rank == 0) &&
      (f.code == StrongFailure || (UnscaleMesh in f.steps && o.unscaleOk))
  {
    if ier > 0 && o.distributeOk && o.remesh != StrongFailure {
      AfterRemeshShape(o);
      NeverInvoked([DistributeMesh, Remesh], UnscaleMesh);
    }
  }

  /** A step that does not occur in a trace occurs there zero times. */
  lemma NeverInvoked(t: seq<Step>, x: Step)
    requires x !in t
    ensures multiset(t)[x] == 0
  {
  }

  // ---------------------------------------------------------------------
  // PMMG_preprocessMesh
  // ---------------------------------------------------------------------

  /**
   * A failed scaling returns -1 right after the scaling: no quality,
   * histogram, solution or analysis step follows.
   */
  lemma ScaleFailureStopsPreprocessing(o: Oracle)
    requires !o.scaleOk
    ensures PreprocessMeshSpec(o).ier == -1
    ensures PreprocessMeshSpec(o).steps == [SetCommonFunc, SetFunc, ScaleMesh]
  {
  }

  /** 0 means scaling succeeded and a later step failed; 1 means all that ran succeeded. */
  lemma PreprocessCodes(o: Oracle)
    ensures PreprocessMeshSpec(o).ier == 0 <==> o.scaleOk && !PreprocessSucceeds(o)
    ensures PreprocessMeshSpec(o).ier == 1 ==> Analys in PreprocessMeshSpec(o).steps
  {
  }

  /**
   * The conditional steps: the quality histogram only on rank 0 at nonzero
   * verbosity, the default solution only when optimising without a solution,
   * and its truncation only after it succeeded.
   */
  lemma ConditionalPreprocessSteps(o: Oracle)
    ensures var t := PreprocessMeshSpec(o).steps;
      (Inqua in t <==> o.scaleOk && o.tetraQualOk && InquaRuns(o)) &&
      (DoSol in t <==> o.scaleOk && o.tetraQualOk && (InquaRuns(o) ==> o.inquaOk) && DoSolRuns(o)) &&
      (SolTruncature in t <==> DoSol in t && o.doSolOk) &&
      (Prilen in t <==> PreprocessSucceeds(o) && PrilenRuns(o))
  {
  }

  // ---------------------------------------------------------------------
  // main
  // ---------------------------------------------------------------------

  /**
   * A failure before preprocessing (init, verbosity, loading the mesh or the
   * solution, the input check, the broadcast) is a StrongFailure and the mesh
   * is never scaled nor unscaled; a failed load stops before the broadcast.
   */
  lemma {:induction false} SetupFailureIsStrong(o: Oracle)
    requires !SetupSucceeds(o)
    ensures MainSpec(o).code == StrongFailure
    ensures ScaleMesh !in MainSpec(o).steps && UnscaleMesh !in MainSpec(o).steps
    ensures (o.rank == 0 && (o.loadMesh < 1 || o.loadSol < 0)) ==> BcastMesh !in MainSpec(o).steps
  {
    SetupStepsAreEarly(o);
    SetupLoadsOnRoot(o);
  }

  /**
   * A failed preprocessing is always a StrongFailure, whatever the unscaling
   * gives: the return of line 125 makes the LowFailure of line 126
   * unreachable. Unscaling is attempted exactly when the code was 0.
   */
  lemma {:induction false} PreprocessFailureIsStrong(o: Oracle)
    requires SetupSucceeds(o) && PreprocessMeshSpec(o).ier <= 0
    ensures MainSpec(o).code == StrongFailure
    ensures UnscaleMesh in MainSpec(o).steps <==> PreprocessMeshSpec(o).ier == 0
    ensures DistributeMesh !in MainSpec(o).steps
  {
    SetupStepsAreEarly(o);
    PreprocessStepsAreEarly(o);
  }

  /** A failed distribution after a successful preprocessing degrades to LowFailure when unscaling succeeds. */
  lemma {:induction false} DistributeFailureDegrades(o: Oracle)
    requires SetupSucceeds(o) && PreprocessSucceeds(o) && !o.distributeOk
    ensures MainSpec(o).code == (if o.unscaleOk then LowFailure else StrongFailure)
    ensures UnscaleMesh in MainSpec(o).steps && Remesh !in MainSpec(o).steps
  {
    SetupStepsAreEarly(o);
    PreprocessStepsAreEarly(o);
  }

  /** A StrongFailure from remeshing skips unscaling, merging and writing. */
  lemma {:induction false} RemeshStrongFailureSkipsTail(o: Oracle)
    requires SetupSucceeds(o) && PreprocessSucceeds(o) && o.distributeOk
    requires o.remesh == StrongFailure
    ensures MainSpec(o).code == StrongFailure
    ensures var t := MainSpec(o).steps;
      Remesh in t && UnscaleMesh !in t && MergeParMesh !in t && SaveMesh !in t && SaveSol !in t
  {
    SetupStepsAreEarly(o);
    PreprocessStepsAreEarly(o);
    assert AfterPreprocess(o, 1).steps == [DistributeMesh, Remesh];
  }

  /**
   * After a remeshing that did not fail strongly: failing to unscale, merge,
   * hash, build the boundary or save the mesh is a StrongFailure; failing
   * only to save the solution is a LowFailure, with the mesh written.
   */
  lemma LateFailures(o: Oracle)
    requires SetupSucceeds(o) && PreprocessSucceeds(o) && o.distributeOk
    requires o.remesh != StrongFailure
    ensures (!o.unscaleOk || !o.mergeOk) ==> MainSpec(o).code == StrongFailure
    ensures (o.rank == 0 && o.unscaleOk && o.mergeOk &&
             (!o.hashOk || o.bdryBuild < 0 || !o.saveMeshOk)) ==> MainSpec(o).code == StrongFailure
    ensures (o.rank == 0 && o.unscaleOk && o.mergeOk && o.hashOk && o.bdryBuild >= 0 &&
             o.saveMeshOk && !o.saveSolOk) ==>
              MainSpec(o).code == LowFailure && SaveMesh in MainSpec(o).steps
  {
    var f := AfterRemesh(o);
    assert AfterPreprocess(o, 1) == Finished(f.code, [DistributeMesh, Remesh] + f.steps);
    if o.rank == 0 && o.unscaleOk && o.mergeOk {
      assert f.steps == [UnscaleMesh, MergeParMesh] + Finalize(o).steps;
    }
  }

  /**
   * When nothing fails the exit code is the remeshing result, so a LowFailure
   * of the remesher propagates to the exit code.
   */
  lemma CleanRunReturnsRemeshResult(o: Oracle)
    requires SetupSucceeds(o) && PreprocessSucceeds(o) && o.distributeOk
    requires o.remesh != StrongFailure && o.unscaleOk && o.mergeOk
    requires o.rank == 0 ==> FinalizeSucceeds(o)
    ensures MainSpec(o).code == o.remesh
  {
    var f := AfterRemesh(o);
    assert AfterPreprocess(o, 1) == Finished(f.code, [DistributeMesh, Remesh] + f.steps);
  }

  /**
   * Success needs every step that ran to have succeeded: setup, preprocessing,
   * distribution, a Success from the remesher, unscaling, the merge, and on
   * the root the packing and both writes; the merge and the writes are in the
   * trace.
   */
  lemma SuccessMeansWritten(o: Oracle)
    requires MainSpec(o).code == Success
    ensures SetupSucceeds(o) && PreprocessSucceeds(o) && o.distributeOk
    ensures o.remesh == Success && o.unscaleOk && o.mergeOk
    ensures o.rank == 0 ==> FinalizeSucceeds(o)
    ensures MergeParMesh in MainSpec(o).steps
    ensures o.rank == 0 ==> SaveMesh in MainSpec(o).steps && SaveSol in MainSpec(o).steps
  {
    var f := AfterRemesh(o);
    assert AfterPreprocess(o, 1) == Finished(f.code, [DistributeMesh, Remesh] + f.steps);
    if o.rank == 0 {
      assert f.steps == [UnscaleMesh, MergeParMesh] + Finalize(o).steps;
    }
  }

  /**
   * A LowFailure does not always come with a saved mesh: a failed
   * distribution followed by a successful unscaling returns LowFailure
   * before anything is written (lines 130-134), and a process other than the
   * root passes the remesher's LowFailure through without writing (line 183).
   */
  lemma {:induction false} LowFailureWithoutSave(o: Oracle)
    ensures (SetupSucceeds(o) && PreprocessSucceeds(o) && !o.distributeOk && o.unscaleOk) ==>
              MainSpec(o).code == LowFailure && SaveMesh !in MainSpec(o).steps
    ensures (o.rank != 0 && SetupSucceeds(o) && PreprocessSucceeds(o) && o.distributeOk &&
             o.remesh == LowFailure && o.unscaleOk && o.mergeOk) ==>
              MainSpec(o).code == LowFailure && SaveMesh !in MainSpec(o).steps
  {
    SetupStepsAreEarly(o);
    PreprocessStepsAreEarly(o);
  }

  /**
   * The exit code of main as one decision table over the answers of the
   * steps, in the order main consults them.
   */
  function Classify(o: Oracle): ExitCode {
    if !SetupSucceeds(o) || !PreprocessSucceeds(o) then StrongFailure
    else if !o.distributeOk then (if o.unscaleOk then LowFailure else StrongFailure)
    else if o.remesh == StrongFailure || !o.unscaleOk || !o.mergeOk then StrongFailure
    else if o.rank != 0 then o.remesh
    else if !o.hashOk || o.bdryBuild < 0 || !o.saveMeshOk then StrongFailure
    else if !o.saveSolOk then LowFailure
    else o.remesh
  }

  /** main returns exactly the code of the decision table, for every oracle. */
  lemma {:induction false} MainSpecClassifies(o: Oracle)
    ensures MainSpec(o).code == Classify(o)
  {
    if SetupSucceeds(o) && PreprocessSucceeds(o) && o.distributeOk && o.remesh != StrongFailure {
      var f := AfterRemesh(o);
      assert AfterPreprocess(o, 1) == Finished(f.code, [DistributeMesh, Remesh] + f.steps);
    }
  }

  /**
   * Whatever fails, the run ends in StrongFailure unless it unscaled the mesh
   * successfully, so a weaker code always leaves physical coordinates.
   */
  lemma {:induction false} WeakCodesUnscale(o: Oracle)
    ensures MainSpec(o).code == StrongFailure ||
            (UnscaleMesh in MainSpec(o).steps && o.unscaleOk)
  {
    if SetupSucceeds(o) {
      AfterPreprocessShape(o, PreprocessMeshSpec(o).ier);
    }
  }

  /** Unscaling is invoked at most once per run, and only after a successful scaling. */
  lemma {:induction false} UnscaleAtMostOnce(o: Oracle)
    ensures multiset(MainSpec(o).steps)[UnscaleMesh] <= 1
    ensures UnscaleMesh in MainSpec(o).steps ==> o.scaleOk && ScaleMesh in MainSpec(o).steps
  {
    SetupStepsAreEarly(o);
    NeverInvoked(SetupSteps(o), UnscaleMesh);
    if SetupSucceeds(o) {
      var p := PreprocessMeshSpec(o);
      PreprocessStepsAreEarly(o);
      PreprocessBeginsWithScaling(o);
      NeverInvoked(p.steps, UnscaleMesh);
      AfterPreprocessShape(o, p.ier);
    }
  }

  /** Packing, boundary building and writing happen on the root process only. */
  lemma {:induction false} FinalizeOnRootOnly(o: Oracle)
    ensures (HashTetra in MainSpec(o).steps || BdryBuild in MainSpec(o).steps ||
             SaveMesh in MainSpec(o).steps || SaveSol in MainSpec(o).steps) ==> o.rank == 0
  {
    SetupStepsAreEarly(o);
    if SetupSucceeds(o) {
      PreprocessStepsAreEarly(o);
      AfterPreprocessShape(o, PreprocessMeshSpec(o).ier);
    }
  }

  /** The mesh and the solution are loaded on the root process only. */
  lemma {:induction false} LoadOnRootOnly(o: Oracle)
    ensures (LoadMesh in MainSpec(o).steps || LoadSol in MainSpec(o).steps) ==> o.rank == 0
  {
    SetupLoadsOnRoot(o);
    if SetupSucceeds(o) {
      PreprocessStepsAreEarly(o);
      AfterPreprocessShape(o, PreprocessMeshSpec(o).ier);
    }
  }

  // ---------------------------------------------------------------------
  // The scaling discipline
  // ---------------------------------------------------------------------

  /** Setup runs on physical coordinates and leaves them so. */
  lemma {:induction false} SetupDisciplined(o: Oracle)
    ensures Disciplined(o, SetupSteps(o), false) && !ScaledAtEnd(o, SetupSteps(o), false)
  {
    assert forall x | x in SetupSteps(o) :: x.InitParMesh? || x.SetVerbose? || x.LoadMesh? ||
                                           x.LoadSol? || x.CheckInputData? || x.BcastMesh?;
    DisciplinedUniform(o, SetupSteps(o), false);
  }

  /** The function setters run in either frame; scaling enters the scaled frame when it succeeds. */
  lemma {:induction false} ScalingDisciplined(o: Oracle)
    ensures var t0 := [SetCommonFunc, SetFunc, ScaleMesh];
      Disciplined(o, t0, false) && ScaledAtEnd(o, t0, false) == o.scaleOk
  {
    DisciplinedUniform(o, [SetCommonFunc, SetFunc], false);
    DisciplinedSingle(o, ScaleMesh, false);
    DisciplinedAppend(o, [SetCommonFunc, SetFunc], [ScaleMesh], false);
    assert [SetCommonFunc, SetFunc] + [ScaleMesh] == [SetCommonFunc, SetFunc, ScaleMesh];
  }

  /**
   * Preprocessing scales first and analyses only in the scaled frame; it
   * leaves the mesh scaled exactly when scaling succeeded.
   */
  lemma {:induction false} PreprocessDisciplined(o: Oracle)
    ensures var t := PreprocessMeshSpec(o).steps;
      Disciplined(o, t, false) && ScaledAtEnd(o, t, false) == o.scaleOk
  {
    ScalingDisciplined(o);
    if o.scaleOk {
      AnalysisStepsAreScaledKernels(o);
      DisciplinedUniform(o, Analysis(o).steps, true);
      DisciplinedAppend(o, [SetCommonFunc, SetFunc, ScaleMesh], Analysis(o).steps, false);
    }
  }

  /**
   * After a remeshing on the scaled mesh: unscaling comes first, merging and
   * writing only once it succeeded, and the run ends unscaled unless it ends
   * in StrongFailure.
   */
  lemma {:induction false} AfterRemeshDisciplined(o: Oracle)
    ensures var f := AfterRemesh(o);
      Disciplined(o, f.steps, true) && (f.code != StrongFailure ==> !ScaledAtEnd(o, f.steps, true)) &&
      ScaledAtEnd(o, f.steps, true) == !o.unscaleOk
  {
    DisciplinedSingle(o, UnscaleMesh, true);
    if o.unscaleOk {
      DisciplinedSingle(o, MergeParMesh, false);
      DisciplinedAppend(o, [UnscaleMesh], [MergeParMesh], true);
      assert [UnscaleMesh] + [MergeParMesh] == [UnscaleMesh, MergeParMesh];
      if o.mergeOk && o.rank == 0 {
        FinalizeWritesUnscaled(o);
        DisciplinedUniform(o, Finalize(o).steps, false);
        DisciplinedAppend(o, [UnscaleMesh, MergeParMesh], Finalize(o).steps, true);
      }
    }
  }

  /**
   * The steps after preprocessing start scaled exactly when scaling
   * succeeded, keep the discipline, and end unscaled unless the run ends in
   * StrongFailure; the final state is EndsScaledAfterPreprocess.
   */
  lemma {:induction false} AfterPreprocessDisciplined(o: Oracle, ier: int)
    ensures var f := AfterPreprocess(o, ier);
      Disciplined(o, f.steps, ier != -1) &&
      (f.code != StrongFailure ==> !ScaledAtEnd(o, f.steps, ier != -1)) &&
      ScaledAtEnd(o, f.steps, ier != -1) == EndsScaledAfterPreprocess(o, ier)
  {
    if ier == -1 {
    } else if ier <= 0 {
      DisciplinedSingle(o, UnscaleMesh, true);
    } else {
      DisciplinedSingle(o, DistributeMesh, true);
      if !o.distributeOk {
        DisciplinedSingle(o, UnscaleMesh, true);
        DisciplinedAppend(o, [DistributeMesh], [UnscaleMesh], true);
        assert [DistributeMesh] + [UnscaleMesh] == [DistributeMesh, UnscaleMesh];
      } else {
        DisciplinedSingle(o, Remesh, true);
        DisciplinedAppend(o, [DistributeMesh], [Remesh], true);
        assert [DistributeMesh] + [Remesh] == [DistributeMesh, Remesh];
        if o.remesh != StrongFailure {
          AfterRemeshDisciplined(o);
          DisciplinedAppend(o, [DistributeMesh, Remesh], AfterRemesh(o).steps, true);
        }
      }
    }
  }

  /**
   * Every step main invokes runs in a scaling state that permits it, and the
   * run ends with the mesh in physical coordinates unless it ends in
   * StrongFailure; the final state is EndsScaled.
   */
  lemma {:induction false} MainSpecDisciplined(o: Oracle)
    ensures Disciplined(o, MainSpec(o).steps, false)
    ensures MainSpec(o).code != StrongFailure ==> !ScaledAtEnd(o, MainSpec(o).steps, false)
    ensures ScaledAtEnd(o, MainSpec(o).steps, false) == EndsScaled(o)
  {
    SetupDisciplined(o);
    if SetupSucceeds(o) {
      var s := SetupSteps(o);
      var p := PreprocessMeshSpec(o);
      var f := AfterPreprocess(o, p.ier);
      PreprocessDisciplined(o);
      AfterPreprocessDisciplined(o, p.ier);
      DisciplinedAppend(o, s, p.steps, false);
      DisciplinedAppend(o, s + p.steps, f.steps, false);
    }
  }
}
