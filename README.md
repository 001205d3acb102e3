# Robust spatial normalization, modelled in Dafny

This project models niworkflows' `SpatialNormalization` interface. It registers a moving image
(usually a T1w) to a reference image or a TemplateFlow template. The interface works in four steps:

- It resolves which image is moving and which is fixed, and which masks go with each. The inputs
  to that decision are the optional moving, reference and lesion masks, the explicit-masking flag
  and the reference image or template.
- It runs an affine initializer when the user gave no initial transform.
- It tries the registration settings files one after another, until the registration engine
  exits with 0.
- When an external run fails, it saves that run's terminal output.

The helpers `mask` and `create_cfm` build the masked images and the cost function masks (CFMs).

Modules:

- `Wrappers`: `Option` and `Result`.
- `Errors`: the exceptions the driver raises.
- `Text`: `str.lower`, Python's ordering of `str` and `sorted()`, the `04d` format and
  `posixpath.join`.
- `MaskAlgebra`: the voxel arithmetic of `mask` and `create_cfm`. An image is the flat sequence
  of its voxels.
- `Resolution`: images are symbolic (`File`, `Masked`, `Cfm`). This module holds the
  moving-side and fixed-side decision tables, the template query, and `Eval`, which says what
  voxels a symbolic image holds.
- `Presets`: `_get_settings`.
- `Diagnostics`: `_write_outputs` and the names the logs are saved under.
- `Norm`: the class `SpatialNormalization`, with its constructor, `_get_ants_args` and
  `_run_interface`.

External parties become parameters:

- The template service and the file-existence check are a function
  `lookup: TemplateRequest -> TemplateAnswer`.
- The data directory is its path and the names it lists.
- The registration engine is an oracle `engine: nat -> Runtime`. `engine(j)` is what the run
  configured with the j-th settings file (counting from 0) reports.
- The affine initializer's result is an argument.
- The voxels of each image file are a function `load: string -> seq<int>`. Argument resolution
  reads them only where `create_cfm` checks that a mask is binary.

`RunInterface` returns the run's visible steps as an ordered trace of `Event`s:

- the initializer call and its log write;
- then each attempt, with its registration configuration, its exit code and, when it fails, its
  log write.

The fixed-side code disagrees with the docstring table at norm.py:319-346 in one place: a
reference mask without explicit masking becomes the fixed mask as it is, even when there is a
lesion. The table says a non-global CFM is built in that case. The model follows the code.

## Model

| member | source | states |
|---|---|---|
| Norm.SpatialNormalization.constructor | niworkflows/interfaces/norm.py:141-146 | no registration configured, no reference image, the attempt counter at 1, terminal output "file" |
| Norm.SpatialNormalization.MovingSideArgs | niworkflows/interfaces/norm.py:241-317 | raises NonBinaryMask exactly when the lesion is cut out of a moving mask that is not binary, with explicit masking off; otherwise returns the common arguments plus the moving image and moving mask chosen by the moving-side decision table |
| Norm.SpatialNormalization.GetAntsArgs | niworkflows/interfaces/norm.py:240-453 | a rejected moving mask raises first, and then the reference image stays unrecorded; after that, LAS without a reference image raises NotImplementedError, and a template that is not an existing file raises ValueError; otherwise the arguments are those of the resolved moving and fixed sides; the recorded reference image is the user's reference image or the resolved template, and it is recorded even when the file check then fails |
| Norm.SpatialNormalization.RunInterface | niworkflows/interfaces/norm.py:170-238 | errors from resolving the moving side (a non-binary moving mask) and then the fixed side propagate before anything runs, leaving the counter and `norm` unchanged; the initializer runs first, and only without a user transform; settings files are tried in order up to and including the first one that exits with 0; on success the counter has advanced once per failure; exhaustion raises with old(retry)+failures-1, which is the number of files on a fresh interface and 0 for an empty list; `norm` is the last registration configured |
| Norm.SpatialNormalization.RunResolved | niworkflows/interfaces/norm.py:170-238 | once the arguments are resolved, the trace is the initializer step followed by the attempts, and every attempt runs with the initializer's transform when the user gave none |
| Norm.SpatialNormalization.Initialize | niworkflows/interfaces/norm.py:175-193 | without a user transform, the initializer is called on the resolved fixed and moving images with num_threads, its logs are saved under `.nipype-init`, and its output becomes `initial_moving_transform`; with one, nothing happens |
| Norm.SpatialNormalization.Register | niworkflows/interfaces/norm.py:196-238 | the retry loop's effect on the object: the attempts run, the last registration configured, the counter advanced by the number of failures, and the success or the RuntimeError |
| Norm.SpatialNormalization.Attempt | niworkflows/interfaces/norm.py:219-227 | a failed run's logs are saved under that attempt's number; a successful run saves nothing |
| Norm.SpatialNormalization.TrySettings | niworkflows/interfaces/norm.py:196-235 | the number of failures is the number of settings files that fail before the first success; the loop succeeds exactly when some file succeeds; it makes exactly one attempt past the failures when it succeeds |
| Norm.LeadingFailures | niworkflows/interfaces/norm.py:196-235 | the first k engine runs fail, and when k is less than n, run k succeeds |
| Norm.AttemptEventsAt | niworkflows/interfaces/norm.py:196-235 | the j-th attempt of the trace configures the j-th settings file and is logged under attempt number firstRetry + j |
| Norm.AttemptsUntilFirstSuccess | niworkflows/interfaces/norm.py:196-235 | attempt j configures settings file j with the shared arguments and the histogram-matching override; it exits with 0 exactly when it is the first success; every attempt before it saved its logs under its own number |
| Norm.EveryAttemptUsesInitialTransform | niworkflows/interfaces/norm.py:193-199 | every attempt's `initial_moving_transform` is the initializer's output, or the user's transform when one was given |
| Norm.LogNamesOfRunDistinct | niworkflows/interfaces/norm.py:186-225 | no two failed attempts of a run, and no attempt and the initializer, save logs under the same suffix |
| Norm.ArgsForImages | niworkflows/interfaces/norm.py:241-248 | the resolved arguments always hold both the moving and the fixed image |
| Resolution.MovingSide | niworkflows/interfaces/norm.py:276-317 | the moving image is masked exactly when a moving mask comes with explicit masking; a mask argument exists exactly when there is a lesion, or a moving mask that is not burnt into the image; a lesion always goes into a CFM, which is global unless its base is a moving mask used without explicit masking |
| Resolution.FixedSide | niworkflows/interfaces/norm.py:346-451 | errors arise only on the template branch (LAS, then a missing template file); the fixed image and mask for every combination of reference mask, explicit masking and lesion; each fixed-side CFM is the whole-image mask of the reference mask, the reference image or the brain mask, and never carries the lesion |
| Resolution.MovingCfmRejectedIffEvalFails | niworkflows/interfaces/norm.py:297-317 | resolving the moving side raises exactly when evaluating its mask argument fails with NonBinaryMask |
| Resolution.TemplateQuery | niworkflows/interfaces/norm.py:399-417 | the template name; default resolution 1 for precise and 2 otherwise; `suffix` is the reference modality, `desc` is None, and `res` is overridden by the deprecated resolution; every other key of the user's specification is kept and nothing else is added |
| Resolution.FixedCfmIsWholeImage | niworkflows/interfaces/norm.py:366-451 | every fixed-side CFM evaluates to the all-ones mask of its base file's grid |
| Resolution.ExplicitMaskingZeroesMovingImage | niworkflows/interfaces/norm.py:279-288 | with explicit masking, the moving image the engine sees is 0 where the moving mask is 0 and the original voxel elsewhere |
| Resolution.NonBinaryMovingMaskRejected | niworkflows/interfaces/norm.py:297-306 | a non-global CFM cut out of the moving mask fails with ValueError exactly when that mask is not binary, whatever the lesion holds; when the lesion has the mask's grid, that is its only failure |
| MaskAlgebra.Mask | niworkflows/interfaces/norm.py:484-490 | the array afterwards is the original masked: 0 where the mask is 0, unchanged elsewhere |
| MaskAlgebra.MaskedAt | niworkflows/interfaces/norm.py:490 | voxel i of the masked image is 0 when mask voxel i is 0, and the input voxel otherwise |
| MaskAlgebra.MaskIdempotent | niworkflows/interfaces/norm.py:490 | masking twice with the same mask is masking once |
| MaskAlgebra.CreateCfm | niworkflows/interfaces/norm.py:545-557 | rejects a base exactly when global_mask is off and the input is not binary; without a lesion, the result is all ones (global) or the input itself |
| MaskAlgebra.CfmSubtractsLesion | niworkflows/interfaces/norm.py:550-557 | with a lesion, each voxel is max(base - lesion, 0), so it is never negative; with a non-negative lesion, the mask stays binary and below the base |
| MaskAlgebra.SubtractClampedAt | niworkflows/interfaces/norm.py:556 | voxel i of the subtraction is max(base[i] - lesion[i], 0) |
| MaskAlgebra.CfmOutPath | niworkflows/interfaces/norm.py:531-534 | without out_path, the result is the working directory, at most one separator, then the input's base name with `_cfm` before the extension; an absolute out_path is returned as given |
| Presets.GetSettings | niworkflows/interfaces/norm.py:148-168 | user settings are returned unchanged; otherwise the result is sorted and is a permutation of the data-directory entries that match `<moving lower>-mni_registration_<flavor>_*.json` |
| Presets.MatchingPathsMembers | niworkflows/interfaces/norm.py:161-168 | a path is a default preset exactly when it joins the data directory with a listed entry matching the pattern |
| Presets.MatchingPathsPermutation | niworkflows/interfaces/norm.py:161-168 | listing the same entries in another order selects the same matches, up to order |
| Presets.DefaultSettingsIgnoreListingOrder | niworkflows/interfaces/norm.py:161-168 | the default settings list does not depend on the order in which the directory lists its files |
| Diagnostics.WriteOutputs | niworkflows/interfaces/norm.py:569-581 | returns the paths `<cwd>/<stream><suffix>` of the non-empty streams among stdout, stderr and merged, in that order; the suffix defaults to `.nipype` |
| Diagnostics.AttemptSuffixInjective | niworkflows/interfaces/norm.py:225 | distinct attempt numbers give distinct `.nipype-NNNN` suffixes, and attempts below 10000 get exactly four digits |
| Diagnostics.InitSuffixDistinct | niworkflows/interfaces/norm.py:186-225 | no attempt suffix is `.nipype-init` |
| Diagnostics.LogNamesDistinct | niworkflows/interfaces/norm.py:186-225 | two log names share a suffix exactly when they are the same name |
| Text.SortStrings | niworkflows/interfaces/norm.py:161 | `sorted()` gives an ordered permutation of its argument |
| Text.SortedUnique | niworkflows/interfaces/norm.py:161 | two sorted permutations of the same strings are equal |
| Text.InsertSorted | niworkflows/interfaces/norm.py:161 | inserting into a sorted list keeps it sorted |
| Text.ZeroPad4RoundTrip | niworkflows/interfaces/norm.py:225 | the `04d` rendering of n reads back as n, and it has four characters exactly when n < 10000 |

## Left out

- External programs are not run. ANTs `Registration`, `AffineInitializer`, TemplateFlow's
  `get_template_specs`/`get_template` and `op.isfile` appear only through what they report,
  passed in as parameters.
- The file I/O is not modelled. This covers `command.txt`, loading and saving NIfTI files, the
  writes of the stream files, and the directory glob. `WriteOutputs` returns the paths it would
  write. Events record each write as a `LogWrite`, the process record plus the log name, and
  `LogWrite.Files()` gives its paths.
- Logging calls, `resource_monitor`, `ignore_exception` and `cmdline` have no effect on the
  modelled state and are left out.
- Input validation by the traits library is left out, and so are defaults that come from the
  machine, such as `cpu_count()` for num_threads. The inputs arrive already validated.
- `_list_outputs` is not part of this model.
- Voxel data is integer: the floating-point data of `get_fdata()` and the uint8 cast of the CFM
  are not modelled. The reorientation of the lesion by `as_closest_canonical` is taken to be the
  identity, because the images share one grid.
- Mask: the method models the in-place zeroing of the loaded array. The returned
  `os.path.abspath(new_name)` is not modelled.
- CfmOutPath: the input file name arrives already split into base name and extension.
  `os.path.abspath` normalisation is not modelled, for absolute or relative paths: `.`, `..` and
  repeated separators are kept. A relative `out_path` is joined to the working directory.
- The warning `create_cfm` logs when neither a lesion nor a global mask is requested is left out.
- A user-supplied `template_spec` is mutated in place: `res`, `suffix` and `desc` are written
  into the user's own dictionary. This aliasing is not modelled, because `TemplateQuery` builds a
  fresh map. Without a user specification the source also starts from a fresh dictionary.
- Norm.SpatialNormalization.Register: `norm` and `retry` are assigned once, after the loop, to
  the values the source leaves after the last iteration. They are not updated per iteration.
  Inside the loop the source reads `self.retry` for the log suffix (norm.py:225) and `self.norm`
  for the command line and the run (norm.py:212, 220). The model passes the same values: attempt
  j uses number `old(retry) + j` and the registration it has just configured. The trace is
  therefore the same.
- Norm.SpatialNormalization.RunInterface: the `runtime.returncode = 0` assignment is represented
  by the `Ok(0)` result.
- Resolution.Eval: each CFM is evaluated as a value of its own, but `create_cfm` writes it to
  `<cwd>/<base>_cfm<ext>`. Two CFMs whose bases share a file name therefore overwrite each other
  on disk, and the model does not capture that. For example, take moving and reference masks both
  named `brain_mask.nii.gz`, with explicit masking and a lesion. The all-ones fixed CFM replaces
  the moving CFM that excludes the lesion, and both mask arguments then name the same file.
- Norm.SpatialNormalization.GetAntsArgs: array-library errors during resolution are not raised.
  These are the errors from images on different grids (`ShapeMismatch` in `Eval`); the images are
  assumed to share a grid. The only error `create_cfm` itself raises, NonBinaryMask, is modelled.
- Norm.SpatialNormalization.Initialize: the affine initializer is assumed to succeed. Its exit
  code is not examined. In the source, a failing initializer raises from its run before any
  registration, because it does not set `ignore_exception`, unlike the registrations
  (norm.py:184, 215).
