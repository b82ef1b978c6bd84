/**
 * The vocabulary of the ParMmg run controller: the external steps it invokes,
 * the oracle that fixes what each of them answers on one process, the three
 * exit codes, and the scaling discipline that every trace of steps must keep.
 */
module Steps {

  /** The three results of the executable (PMMG_SUCCESS, PMMG_LOWFAILURE, PMMG_STRONGFAILURE). */
  datatype ExitCode = Success | LowFailure | StrongFailure

  /** One call into a collaborator whose body is not part of this model. */
  datatype Step =
    | InitParMesh         // PMMG_Init_parMesh
    | SetVerbose(level: int) // MMG3D_Set_iparameter(..., MMG3D_IPARAM_verbose, level)
    | LoadMesh            // PMMG_loadMesh
    | LoadSol             // PMMG_loadSol
    | CheckInputData      // _PMMG_check_inputData
    | BcastMesh           // PMMG_bcastMesh
    | SetCommonFunc       // _MMG3D_Set_commonFunc
    | SetFunc             // MMG3D_setfunc
    | ScaleMesh           // _MMG5_scaleMesh
    | TetraQual           // _MMG3D_tetraQual
    | Inqua               // _MMG3D_inqua
    | DoSol               // MMG3D_doSol
    | SolTruncature       // _MMG3D_scalarSolTruncature
    | Analys              // _MMG3D_analys
    | Prilen              // _MMG3D_prilen
    | DistributeMesh      // PMMG_distributeMesh
    | Remesh              // _PMMG_parmmglib1
    | UnscaleMesh         // _MMG5_unscaleMesh
    | MergeParMesh        // PMMG_mergeParMesh
    | HashTetra           // MMG3D_hashTetra
    | BdryBuild           // _MMG3D_bdryBuild
    | SaveMesh            // PMMG_saveMesh
    | SaveSol             // PMMG_saveSol

  /**
   * What one process sees: its rank, the mesh and solution flags the
   * controller tests, and the answer each external step gives. Every step is
   * invoked at most once per run except unscaling, which the controller is
   * proved to invoke at most once as well, so one answer per step suffices.
   */
  datatype Oracle = Oracle(
    rank: int,           // parmesh->myrank
    imprim: int,         // mesh->info.imprim while preprocessing
    optim: bool,         // mesh->info.optim
    np: int,             // sol->np
    hasMetric: bool,     // sol->m is set
    initOk: bool,
    verboseOk: bool,
    loadMesh: int,       // result of PMMG_loadMesh, failure below 1
    loadSol: int,        // result of PMMG_loadSol, failure below 0
    inputOk: bool,
    bcastOk: bool,
    scaleOk: bool,
    tetraQualOk: bool,
    inquaOk: bool,
    doSolOk: bool,
    analysOk: bool,
    distributeOk: bool,
    remesh: ExitCode,    // result of _PMMG_parmmglib1
    unscaleOk: bool,
    mergeOk: bool,
    hashOk: bool,
    bdryBuild: int,      // result of _MMG3D_bdryBuild, failure below 0
    saveMeshOk: bool,
    saveSolOk: bool)

  /** Kernels that work on scaled coordinates: analysis, remeshing, and unscaling itself. */
  predicate NeedsScaled(x: Step) {
    x.TetraQual? || x.Inqua? || x.DoSol? || x.SolTruncature? || x.Analys? || x.Prilen? ||
    x.Remesh? || x.UnscaleMesh?
  }

  /** Steps that read, write or hand over physical coordinates, and scaling itself. */
  predicate NeedsUnscaled(x: Step) {
    x.LoadMesh? || x.LoadSol? || x.CheckInputData? || x.BcastMesh? || x.ScaleMesh? ||
    x.MergeParMesh? || x.HashTetra? || x.BdryBuild? || x.SaveMesh? || x.SaveSol?
  }

  /** Whether step x may be invoked while the mesh is (scaled) or is not scaled. */
  predicate Permitted(x: Step, scaled: bool) {
    (NeedsScaled(x) ==> scaled) && (NeedsUnscaled(x) ==> !scaled)
  }

  /**
   * The scaling state after step x: a successful scaling enters the scaled
   * frame, a successful unscaling leaves it, a failed one leaves it as it was.
   */
  function ScaledAfter(o: Oracle, scaled: bool, x: Step): bool {
    match x
    case ScaleMesh => scaled || o.scaleOk
    case UnscaleMesh => scaled && !o.unscaleOk
    case _ => scaled
  }

  /** The scaling state after running the steps of t from state scaled. */
  function ScaledAtEnd(o: Oracle, t: seq<Step>, scaled: bool): bool
    decreases |t|
  {
    if t == [] then scaled else ScaledAtEnd(o, t[1..], ScaledAfter(o, scaled, t[0]))
  }

  /** Every step of t, run from state scaled, is invoked in a state that permits it. */
  predicate Disciplined(o: Oracle, t: seq<Step>, scaled: bool)
    decreases |t|
  {
    t == [] || (Permitted(t[0], scaled) && Disciplined(o, t[1..], ScaledAfter(o, scaled, t[0])))
  }

  /**
   * The discipline is compositional: a trace a + b keeps it exactly when a
   * does and b does from the state a leaves, and that state threads through.
   */
  lemma {:induction false} DisciplinedAppend(o: Oracle, a: seq<Step>, b: seq<Step>, scaled: bool)
    ensures Disciplined(o, a + b, scaled) <==>
            Disciplined(o, a, scaled) && Disciplined(o, b, ScaledAtEnd(o, a, scaled))
    ensures ScaledAtEnd(o, a + b, scaled) == ScaledAtEnd(o, b, ScaledAtEnd(o, a, scaled))
    decreases |a|
  {
    if a == [] {
      assert a + b == b;
    } else {
      assert (a + b)[0] == a[0];
      assert (a + b)[1..] == a[1..] + b;
      DisciplinedAppend(o, a[1..], b, ScaledAfter(o, scaled, a[0]));
    }
  }

  /** A one-step trace keeps the discipline exactly when that step is permitted. */
  lemma DisciplinedSingle(o: Oracle, x: Step, scaled: bool)
    ensures Disciplined(o, [x], scaled) <==> Permitted(x, scaled)
    ensures ScaledAtEnd(o, [x], scaled) == ScaledAfter(o, scaled, x)
  {
    assert [x][1..] == [];
  }

  /**
   * A trace whose every step is permitted in state scaled and leaves that
   * state unchanged keeps the discipline and ends in that same state.
   */
  lemma {:induction false} DisciplinedUniform(o: Oracle, t: seq<Step>, scaled: bool)
    requires forall x | x in t :: Permitted(x, scaled) && !x.ScaleMesh? && !x.UnscaleMesh?
    ensures Disciplined(o, t, scaled) && ScaledAtEnd(o, t, scaled) == scaled
    decreases |t|
  {
    if t != [] {
      assert t[0] in t;
      assert forall x | x in t[1..] :: x in t;
      DisciplinedUniform(o, t[1..], scaled);
    }
  }
}
