# ParMmg run controller

This project models the run controller of the ParMmg executable, `src/parmmg.c`. The controller is a fixed sequence of external steps with early exits:

- initialise the parallel mesh;
- set the verbosity;
- on the root process, load the mesh and the solution;
- check the input and broadcast the mesh;
- preprocess (`PMMG_preprocessMesh`);
- distribute the mesh and remesh (`_PMMG_parmmglib1`);
- unscale and merge;
- on the root process, hash the tetrahedra, build the boundary, and save the mesh and the solution.

The controller turns the pass/fail answers of these steps into one of three exit codes: `PMMG_SUCCESS`, `PMMG_LOWFAILURE` and `PMMG_STRONGFAILURE`. `PMMG_preprocessMesh` returns its own code: -1, 0 or 1.

Every external call is an abstract `Step`. An `Oracle` record fixes the answer each step gives on one process. The same record also carries the process's rank, the verbosity `imprim`, the `optim` flag and the size `np` of the solution.

The project has three modules:

- **`Steps`** (`steps.dfy`) defines the vocabulary: steps, oracle and exit codes. It also defines the scaling discipline. Kernels that need scaled coordinates may only run on a scaled mesh. Loading, the input check, broadcasting, scaling, merging, hashing, the boundary build and writing may only run on an unscaled mesh.
- **`Phases`** (`phases.dfy`) gives the reference definitions. Each part of the two routines is a function returning the code it produces and the segment of steps it invokes:
  - `PreprocessMeshSpec` and its scaled-frame part `Analysis`;
  - `SetupSteps`, `AfterPreprocess`, `AfterRemesh`, `Finalize`;
  - `MainSpec` for the whole of `main`.

  Trace-threaded versions (`SetupFrom`, `PreprocessFrom`, …) append the same steps one at a time to a trace already under way. Lemmas show that each of them appends exactly its segment. These functions, and the decision table `Classify`, carry no contract of their own and have no row in the table below: the `…FromAppends` rows pin the trace-threaded functions to their segments, and the `MainSpecClassifies` row pins `Classify` to `MainSpec`. The lemmas in this module state the failure classification, which steps run when, and the scaling discipline of the whole run.
- **`Controller`** (`controller.dfy`) is the imperative model. Class `Run` holds:
  - the oracle;
  - a ghost `scaled` flag;
  - a ghost `trace` of the steps invoked.

  Its methods mirror the C code branch for branch, with the same early returns. The one exception is the unreachable `PMMG_LOWFAILURE` statement on line 126, which has no counterpart. External steps go through `Call`, `Scale` and `Unscale`. Each of these admits a step only in a scaling state that permits it, so every call site in the controller is checked against the discipline. `Execute` and `ParMmgMain` are proved to return the code of `MainSpec` and to invoke exactly its steps.

## Model

| member | source | states |
|---|---|---|
| Phases.PreprocessMeshSpec | src/parmmg.c:13-53 | The code is -1, 0 or 1. It is -1 exactly when scaling fails and 1 exactly when every step that runs succeeds. |
| Phases.Analysis | src/parmmg.c:30-52 | The scaled-frame part of preprocessing returns 0 or 1. It returns 1 exactly when the quality check, the conditional histogram, the conditional default solution and the analysis all succeed. |
| Phases.SetupSteps | src/parmmg.c:84-117 | The setup segment always starts with the initialisation of the parallel mesh. |
| Phases.Finalize | src/parmmg.c:161-180 | Failed hashing, boundary build or mesh write gives StrongFailure. A failed solution write alone gives LowFailure. Otherwise the remesher's code stands. |
| Phases.AfterRemesh | src/parmmg.c:147-183 | After a remeshing that did not fail strongly, the code is StrongFailure unless unscaling succeeded. |
| Phases.AfterPreprocess | src/parmmg.c:121-183 | A preprocessing code of -1 or 0 always ends in StrongFailure. |
| Phases.MainSpec | src/parmmg.c:65-184 | Any failure before preprocessing ends in StrongFailure. |
| Phases.SetupFromAppends | src/parmmg.c:84-117 | Running setup step by step after any trace appends exactly `SetupSteps`. |
| Phases.PreprocessFromAppends | src/parmmg.c:13-53 | Running preprocessing step by step appends exactly the steps of `PreprocessMeshSpec` and returns its code. |
| Phases.FinalizeFromAppends | src/parmmg.c:161-180 | Running the root's packing and writing step by step appends exactly the steps of `Finalize` and returns its code. |
| Phases.AfterRemeshFromAppends | src/parmmg.c:147-183 | Running the end of `main` step by step appends exactly the steps of `AfterRemesh` and returns its code. |
| Phases.AfterPreprocessFromAppends | src/parmmg.c:121-183 | Running `main` after preprocessing step by step appends exactly the steps of `AfterPreprocess` and returns its code. |
| Phases.PreprocessBeginsWithScaling | src/parmmg.c:23-28 | Preprocessing starts with the two function setters and then the scaling. |
| Phases.AnalysisStepsAreScaledKernels | src/parmmg.c:30-47 | Every step of the scaled-frame part is a kernel that needs scaled coordinates. None of them is unscaling or remeshing. |
| Phases.PreprocessStepsAreEarly | src/parmmg.c:13-53 | Preprocessing never loads, distributes, remeshes, unscales, merges, hashes, builds the boundary or writes. |
| Phases.SetupStepsAreEarly | src/parmmg.c:84-117 | Setup never scales, and invokes none of the steps from the distribution on. |
| Phases.SetupLoadsOnRoot | src/parmmg.c:92-117 | Setup loads only on rank 0. It reaches the broadcast exactly when initialisation, verbosity, loading (on the root) and the input check all succeeded. |
| Phases.FinalizeWritesUnscaled | src/parmmg.c:161-180 | Every packing and writing step needs physical coordinates, and none of them is scaling. |
| Phases.FinalizeShape | src/parmmg.c:161-180 | Packing and writing never scale, unscale or load. |
| Phases.AfterRemeshShape | src/parmmg.c:147-183 | After a remeshing that did not return StrongFailure, unscaling is invoked exactly once. Nothing scales or loads, and hashing, boundary build and writing happen only on rank 0. |
| Phases.AfterPreprocessShape | src/parmmg.c:121-183 | After preprocessing, unscaling is invoked at most once and never when the code was -1. Packing and writing happen only on rank 0. The run ends in StrongFailure unless it unscaled successfully. |
| Phases.ScaleFailureStopsPreprocessing | src/parmmg.c:28 | A failed scaling returns -1 right after the scaling: the steps are exactly the two setters and the scaling. |
| Phases.PreprocessCodes | src/parmmg.c:28-52 | Code 0 means scaling succeeded and a later step failed. Code 1 means the analysis ran. |
| Phases.ConditionalPreprocessSteps | src/parmmg.c:32-47 | The quality histogram runs exactly when rank 0 with nonzero verbosity is reached. The default solution runs exactly when an empty solution is optimised. Truncation runs exactly when the default solution succeeded. The length histogram runs exactly on a successful root run with verbosity above 1 and a metric. |
| Phases.SetupFailureIsStrong | src/parmmg.c:84-117 | A setup failure gives StrongFailure and the mesh is never scaled or unscaled. A failed load on the root stops before the broadcast. |
| Phases.PreprocessFailureIsStrong | src/parmmg.c:121-127 | A preprocessing code of 0 or less gives StrongFailure whatever unscaling answers. Unscaling is attempted exactly when the code was 0, and nothing is distributed. |
| Phases.DistributeFailureDegrades | src/parmmg.c:130-134 | A failed distribution gives LowFailure when unscaling succeeds and StrongFailure otherwise. Unscaling is attempted, and remeshing is not. |
| Phases.RemeshStrongFailureSkipsTail | src/parmmg.c:142-147 | A remesher StrongFailure gives StrongFailure without unscaling, merging or writing. |
| Phases.LateFailures | src/parmmg.c:147-179 | After remeshing, a failure to unscale, merge, hash, build the boundary or save the mesh gives StrongFailure. A failure to save only the solution gives LowFailure, with the mesh written. |
| Phases.CleanRunReturnsRemeshResult | src/parmmg.c:142-183 | When nothing fails, the exit code is the remesher's code, so a remesher LowFailure propagates. |
| Phases.SuccessMeansWritten | src/parmmg.c:84-183 | Success implies that setup, preprocessing, distribution, unscaling and the merge succeeded and the remesher returned Success. On the root it also implies that hashing, the boundary build and both saves succeeded. The merge and the saves are in the trace. |
| Phases.LowFailureWithoutSave | src/parmmg.c:130-134 | A failed distribution followed by a successful unscaling returns LowFailure with no mesh saved. On a process other than the root, a remesher LowFailure after a clean tail is returned without saving. |
| Phases.MainSpecClassifies | src/parmmg.c:65-184 | The exit code of `main` equals a flat decision table over the step answers, for every oracle. |
| Phases.WeakCodesUnscale | src/parmmg.c:121-183 | Every run ends in StrongFailure unless it invoked unscaling and unscaling succeeded. |
| Phases.UnscaleAtMostOnce | src/parmmg.c:121-183 | Unscaling is invoked at most once per run, and only after a successful scaling. |
| Phases.FinalizeOnRootOnly | src/parmmg.c:161-180 | Hashing, boundary build and both saves happen only on rank 0. |
| Phases.LoadOnRootOnly | src/parmmg.c:92-101 | The mesh and the solution are loaded only on rank 0. |
| Phases.SetupDisciplined | src/parmmg.c:84-117 | Setup keeps the scaling discipline and leaves the mesh unscaled. |
| Phases.ScalingDisciplined | src/parmmg.c:23-28 | The setters and the scaling keep the discipline. The mesh is scaled afterwards exactly when scaling succeeded. |
| Phases.PreprocessDisciplined | src/parmmg.c:13-53 | Preprocessing keeps the discipline and leaves the mesh scaled exactly when scaling succeeded. |
| Phases.AfterRemeshDisciplined | src/parmmg.c:147-180 | Starting from a scaled mesh, the end of `main` keeps the discipline. It ends scaled exactly when unscaling failed, so unscaled unless it ends in StrongFailure. |
| Phases.AfterPreprocessDisciplined | src/parmmg.c:121-183 | Starting scaled exactly when the code is not -1, the rest of `main` keeps the discipline. It ends scaled never after code -1, always after a remesher StrongFailure, and otherwise exactly when unscaling failed (`EndsScaledAfterPreprocess`). |
| Phases.MainSpecDisciplined | src/parmmg.c:65-184 | Every step of a run is invoked in a scaling state that permits it. The run ends scaled exactly when `EndsScaled` holds (setup and scaling succeeded, and either the remesher failed strongly or the unscaling failed), so unscaled unless its code is StrongFailure. |
| Steps.DisciplinedAppend | src/parmmg.c:65-184 | The discipline of a concatenated trace splits at the boundary, and the scaling state threads through. |
| Steps.DisciplinedUniform | src/parmmg.c:65-184 | A trace of steps that are all permitted in one state, and that neither scale nor unscale, keeps the discipline in that state. |
| Controller.Run.Call | src/parmmg.c:84-180 | Invokes a step that neither scales nor unscales, only in a scaling state that permits it. It appends the step and leaves the state alone. |
| Controller.Run.Scale | src/parmmg.c:28 | Scales only an unscaled mesh. The mesh is scaled afterwards exactly when scaling succeeded. |
| Controller.Run.Unscale | src/parmmg.c:123-149 | Unscales only a scaled mesh. The mesh stays scaled exactly when unscaling failed. |
| Controller.Run.Setup | src/parmmg.c:84-117 | Reports success exactly when every setup step succeeded. It extends the trace as `SetupFrom` does, and the mesh stays unscaled. |
| Controller.Run.PreprocessMesh | src/parmmg.c:13-53 | Returns the code of `PreprocessFrom` and extends the trace as it does. The mesh is scaled afterwards exactly when scaling succeeded. |
| Controller.Run.PackAndWrite | src/parmmg.c:161-180 | Returns the code of `FinalizeFrom` and extends the trace as it does, on an unscaled mesh. |
| Controller.Run.UnscaleAndMerge | src/parmmg.c:147-183 | Returns the code of `AfterRemeshFrom` and extends the trace as it does. The mesh stays scaled exactly when unscaling failed, so it ends unscaled unless the code is StrongFailure. |
| Controller.Run.DistributeAndRemesh | src/parmmg.c:121-183 | Returns the code of `AfterPreprocessFrom` and extends the trace as it does, testing the unscaling result of line 123 as the source does. The mesh ends scaled exactly as `EndsScaledAfterPreprocess` says: never after code -1, still scaled after a remesher StrongFailure, otherwise exactly when unscaling failed. |
| Controller.Run.Execute | src/parmmg.c:65-184 | On a fresh run, returns the code of `MainSpec` and invokes exactly its steps. The final scaling state is `EndsScaled` and equals the state the trace leaves the mesh in, so unscaled unless the code is StrongFailure. |
| Controller.ParMmgMain | src/parmmg.c:65-184 | Returns the code and the steps of `MainSpec`. The steps keep the scaling discipline, and the state they leave the mesh in is `EndsScaled`, so unscaled unless the run ends in StrongFailure. |

## Left out

- MPI initialisation and the rank query. The model takes one process's view with `rank` as an input. The code does no reduction of failures across ranks, and neither does the model.
- The `fprintf` banners and version prints. They are output only.
- The bodies of the external kernels: scaling arithmetic (floating point), histograms, analysis, broadcast, partitioning, remeshing, merging, hashing, boundary build, and file loading and saving. Each is modelled only by the answer it gives in the oracle.
- The memory freeing done by `_PMMG_RETURN_AND_FREE`, whose definition is not part of this model. It is taken as "free, then return the given code".
- The hard-coded file names.
- Partition coverage and merge renumbering invariants. Nothing in `src/parmmg.c` implements them.
- The numeric values of the `PMMG_*` codes, which are defined in a header that is not part of this model. The remesher's result is taken to be one of the three codes.
- The verbosity level is not derived from the `MMG3D_Set_iparameter` calls: `imprim` is an input. The setter's body is not part of this model.
- Each step gives one answer per run. Unscaling is named at three places (lines 123, 131 and 149), and `Phases.UnscaleAtMostOnce` proves that at most one of them runs. The verbosity setter is named at lines 93 and 104, in branches that exclude each other, so it shares one answer. Every other step is named once.
- Steps.ScaledAfter: what a failed scaling or unscaling leaves behind is a choice of the model, since the bodies of `_MMG5_scaleMesh` and `_MMG5_unscaleMesh` are not part of it. A failed scaling is taken to leave the mesh unscaled, and a failed unscaling to leave it scaled; in the source the geometry is then in no known frame. No step runs after either failure, so the discipline and "unscaled unless StrongFailure" do not depend on this choice. Only the exact end state on StrongFailure paths does: `Phases.EndsScaled`, `Phases.EndsScaledAfterPreprocess`, and the contracts that state them (`Controller.Run.Scale`, `Controller.Run.Unscale`, `Controller.Run.UnscaleAndMerge`, `Controller.Run.DistributeAndRemesh`, `Controller.Run.Execute`, `Controller.ParMmgMain`, and the end-state clauses of the `…Disciplined` lemmas).
- The model assumes one mesh per process. The `mesh` and `sol` handles taken at lines 89-90 are unscaled at lines 123, 131 and 149. The mesh scaled at line 28 is read from `parmesh->listgrp[0]` at line 17, and the mesh packed at lines 165-168 is read from `parmesh->listgrp[0]` again. The single `scaled` flag, and with it `Phases.MainSpecDisciplined` and `Controller.ParMmgMain`, treats these as the same mesh. The callees that could replace `listgrp[0]` (broadcast, distribution, remeshing, merge) are not part of this model.
- The class `Run` enforces the scaling discipline through the preconditions of `Call`, `Scale` and `Unscale` rather than as an object invariant over `trace`. The discipline of the trace itself is proved once on `MainSpec` (`Phases.MainSpecDisciplined`) and carried to `ParMmgMain`.

Where the code and the design intent differ, the model follows the code:

- On line 125, a `return PMMG_STRONGFAILURE;` follows the guarded early return. As a result, the `PMMG_LOWFAILURE` on line 126 is unreachable, and any preprocessing failure ends in StrongFailure even when unscaling succeeds.
- When the remesher returns StrongFailure, the mesh is not unscaled.
- A failed quality check or quality histogram also stops preprocessing, with code 0.
- `PMMG_LOWFAILURE` is documented at line 59 as a failure that still saves a conform mesh. Two paths return it without saving anything: a failed distribution followed by a successful unscaling (lines 130-134), and, on a process other than the root, a remesher LowFailure passed through at line 183. `Phases.LowFailureWithoutSave` states both.
