/**
 * The run controller of src/parmmg.c as imperative code: one object per
 * process holds the oracle, the scaling state of its mesh and the trace of
 * the steps it has invoked. Every external call goes through Call, Scale or
 * Unscale, which admit a step only in a scaling state that permits it, so
 * verifying the controller also proves that it keeps the scaling discipline.
 */
module Controller {
  import opened Steps
  import opened Phases

  class Run {
    /** What every external step answers on this process. */
    const oracle: Oracle
    /** Whether the mesh coordinates are currently in the scaled frame. */
    ghost var scaled: bool
    /** The external steps invoked so far, in order. */
    ghost var trace: seq<Step>

    constructor (o: Oracle)
      ensures oracle == o && trace == [] && !scaled
    {
      oracle := o;
      trace := [];
      scaled := false;
    }

    /** Invokes step x, which leaves the scaling state alone; its answer is read from the oracle. */
    method Call(x: Step)
      requires Permitted(x, scaled) && !x.ScaleMesh? && !x.UnscaleMesh?
      modifies this
      ensures trace == old(trace) + [x]
      ensures scaled == old(scaled)
    {
      trace := trace + [x];
    }

    /** Invokes _MMG5_scaleMesh on an unscaled mesh; the mesh is scaled when it succeeds. */
    method Scale()
      requires !scaled
      modifies this
      ensures trace == old(trace) + [ScaleMesh]
      ensures scaled == oracle.scaleOk
    {
      trace := trace + [ScaleMesh];
      scaled := oracle.scaleOk;
    }

    /** Invokes _MMG5_unscaleMesh on a scaled mesh; the mesh stays scaled when it fails. */
    method Unscale()
      requires scaled
      modifies this
      ensures trace == old(trace) + [UnscaleMesh]
      ensures scaled == !oracle.unscaleOk
    {
      trace := trace + [UnscaleMesh];
      scaled := !oracle.unscaleOk;
    }

    /**
     * main up to the broadcast (lines 84-117): extends the trace as
     * SetupFrom does, leaves the mesh unscaled, and reports whether every
     * step succeeded.
     */
    method Setup() returns (ok: bool)
      requires !scaled
      modifies this
      ensures !scaled
      ensures ok == SetupSucceeds(oracle)
      ensures trace == SetupFrom(oracle, old(trace))
    {
      Call(InitParMesh);
      if !oracle.initOk {
        return false;
      }
      if oracle.rank == 0 {
        Call(SetVerbose(5));
        if !oracle.verboseOk {
          return false;
        }
        Call(LoadMesh);
        if oracle.loadMesh < 1 {
          return false;
        }
        Call(LoadSol);
        if oracle.loadSol < 0 {
          return false;
        }
      } else {
        Call(SetVerbose(0));
        if !oracle.verboseOk {
          return false;
        }
      }
      Call(CheckInputData);
      if !oracle.inputOk {
        return false;
      }
      Call(BcastMesh);
      return oracle.bcastOk;
    }

    /**
     * PMMG_preprocessMesh (lines 13-53): from an unscaled mesh, returns the
     * code and extends the trace as PreprocessFrom does, and leaves the mesh
     * scaled exactly when scaling succeeded.
     */
    method PreprocessMesh() returns (ier: int)
      requires !scaled
      modifies this
      ensures ier == PreprocessFrom(oracle, old(trace)).ier
      ensures trace == PreprocessFrom(oracle, old(trace)).steps
      ensures scaled == oracle.scaleOk
    {
      Call(SetCommonFunc);
      Call(SetFunc);
      Scale();
      if !oracle.scaleOk {
        return -1;
      }
      Call(TetraQual);
      if !oracle.tetraQualOk {
        return 0;
      }
      if oracle.rank == 0 && Abs(oracle.imprim) > 0 {
        Call(Inqua);
        if !oracle.inquaOk {
          return 0;
        }
      }
      if oracle.optim && oracle.np == 0 {
        Call(DoSol);
        if !oracle.doSolOk {
          return 0;
        }
        Call(SolTruncature);
      }
      Call(Analys);
      if !oracle.analysOk {
        return 0;
      }
      if oracle.rank == 0 {
        if oracle.imprim > 1 && oracle.hasMetric {
          Call(Prilen);
        }
      }
      return 1;
    }

    /**
     * The root's packing and writing (lines 161-180) on a merged, unscaled
     * mesh: returns the code and extends the trace as FinalizeFrom does;
     * remeshed is what the remesher returned, kept when everything succeeds.
     */
    method PackAndWrite(remeshed: ExitCode) returns (code: ExitCode)
      requires !scaled && remeshed == oracle.remesh
      modifies this
      ensures !scaled
      ensures code == FinalizeFrom(oracle, old(trace)).code
      ensures trace == FinalizeFrom(oracle, old(trace)).steps
    {
      Call(HashTetra);
      if !oracle.hashOk {
        return StrongFailure;
      }
      Call(BdryBuild);
      if oracle.bdryBuild < 0 {
        return StrongFailure;
      }
      Call(SaveMesh);
      if !oracle.saveMeshOk {
        return StrongFailure;
      }
      Call(SaveSol);
      if !oracle.saveSolOk {
        return LowFailure;
      }
      return remeshed;
    }

    /**
     * The end of main after a remeshing that did not fail strongly (lines
     * 147-183): returns the code and extends the trace as AfterRemeshFrom
     * does; the mesh stays scaled exactly when unscaling failed, so it is
     * unscaled unless the run ends in StrongFailure.
     */
    method UnscaleAndMerge(remeshed: ExitCode) returns (code: ExitCode)
      requires scaled && remeshed == oracle.remesh
      modifies this
      ensures code == AfterRemeshFrom(oracle, old(trace)).code
      ensures trace == AfterRemeshFrom(oracle, old(trace)).steps
      ensures code != StrongFailure ==> !scaled
      ensures scaled == !oracle.unscaleOk
    {
      Unscale();
      if !oracle.unscaleOk {
        return StrongFailure;
      }
      Call(MergeParMesh);
      if !oracle.mergeOk {
        return StrongFailure;
      }
      if oracle.rank != 0 {
        return remeshed;
      }
      code := PackAndWrite(remeshed);
    }

    /**
     * main after preprocessing returned ier (lines 118-183): returns the code
     * and extends the trace as AfterPreprocessFrom does; the mesh is scaled
     * on entry exactly when scaling succeeded; on exit it is scaled as
     * EndsScaledAfterPreprocess says, so unscaled unless the run ends in
     * StrongFailure.
     */
    method DistributeAndRemesh(ier: int) returns (code: ExitCode)
      requires scaled == (ier != -1)
      modifies this
      ensures code == AfterPreprocessFrom(oracle, ier, old(trace)).code
      ensures trace == AfterPreprocessFrom(oracle, ier, old(trace)).steps
      ensures code != StrongFailure ==> !scaled
      ensures scaled == EndsScaledAfterPreprocess(oracle, ier)
    {
      if ier <= 0 {
        // `ier == -1 || !unscale` short-circuits: no unscaling after a failed scaling
        if ier == -1 {
          return StrongFailure;
        }
        Unscale();
        if !oracle.unscaleOk {
          return StrongFailure;
        }
        // line 125 returns StrongFailure either way, so the LowFailure of line 126 is never reached
        return StrongFailure;
      }
      Call(DistributeMesh);
      if !oracle.distributeOk {
        Unscale();
        if !oracle.unscaleOk {
          return StrongFailure;
        }
        return LowFailure;
      }
      Call(Remesh);
      var remeshed := oracle.remesh;
      if remeshed == StrongFailure {
        return remeshed;
      }
      code := UnscaleAndMerge(remeshed);
    }

    /**
     * main (lines 65-184) on a fresh run: returns the exit code and invokes
     * the steps of MainSpec; the mesh is left scaled exactly as EndsScaled
     * says, which is the state the trace leaves it in, so unscaled unless the
     * run ends in StrongFailure.
     */
    method Execute() returns (code: ExitCode)
      requires trace == [] && !scaled
      modifies this
      ensures code == MainSpec(oracle).code && trace == MainSpec(oracle).steps
      ensures code != StrongFailure ==> !scaled
      ensures scaled == EndsScaled(oracle) && scaled == ScaledAtEnd(oracle, trace, false)
    {
      MainSpecDisciplined(oracle);
      SetupFromAppends(oracle, []);
      var ok := Setup();
      assert trace == SetupSteps(oracle);
      if !ok {
        return StrongFailure;
      }
      PreprocessFromAppends(oracle, trace);
      var ier := PreprocessMesh();
      AfterPreprocessFromAppends(oracle, ier, trace);
      code := DistributeAndRemesh(ier);
    }
  }

  /**
   * The executable's entry point for one process: the exit code and the
   * steps are those of MainSpec, and unless the run ends in StrongFailure
   * the mesh is back in physical coordinates.
   */
  method ParMmgMain(o: Oracle) returns (code: ExitCode, ghost steps: seq<Step>)
    ensures code == MainSpec(o).code && steps == MainSpec(o).steps
    ensures Disciplined(o, steps, false)
    ensures code != StrongFailure ==> !ScaledAtEnd(o, steps, false)
    ensures ScaledAtEnd(o, steps, false) == EndsScaled(o)
  {
    MainSpecDisciplined(o);
    var run := new Run(o);
    code := run.Execute();
    steps := run.trace;
  }
}
