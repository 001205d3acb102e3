/** The normalization driver: it resolves the registration arguments once, runs the affine
    initializer when no initial transform is given, then tries the settings files one after the
    other until the registration engine exits with 0. */
module Norm {
  import opened Wrappers
  import opened Errors
  import opened Resolution
  import opened Presets
  import opened Diagnostics

  /** The keys of the argument dictionary handed to the registration engine. */
  datatype ArgKey =
    | MovingImage | FixedImage | MovingImageMasks | FixedImageMasks
    | InitialMovingTransform | NumThreads | Float | TerminalOutput | WriteCompositeTransform

  /** An argument value; `Undefined` is an input the user did not set. */
  datatype ArgValue =
    | ImageArg(image: Image)
    | PathArg(path: string)
    | IntArg(n: int)
    | BoolArg(b: bool)
    | StrArg(s: string)
    | Undefined

  type Args = map<ArgKey, ArgValue>

  function TransformArg(t: Option<string>): ArgValue {
    if t.Some? then PathArg(t.value) else Undefined
  }

  /** The argument dictionary for a resolved moving and fixed side: the common settings, both
      images, and a mask entry for each side that has one. */
  function ArgsFor(inp: Inputs, moving: Side, fixed: Side): Args {
    var withFixed := MovingArgs(inp, moving)[FixedImage := ImageArg(fixed.image)];
    if fixed.masks.Some? then withFixed[FixedImageMasks := ImageArg(fixed.masks.value)] else withFixed
  }

  /** The common settings with the moving side's entries. */
  function MovingArgs(inp: Inputs, moving: Side): Args {
    var common := map[
      MovingImage := ImageArg(moving.image),
      NumThreads := IntArg(inp.numThreads),
      Float := BoolArg(inp.float),
      TerminalOutput := StrArg("file"),
      WriteCompositeTransform := BoolArg(true),
      InitialMovingTransform := TransformArg(inp.initialMovingTransform)];
    if moving.masks.Some? then common[MovingImageMasks := ImageArg(moving.masks.value)] else common
  }

  /** Both images are always among the resolved arguments. */
  lemma ArgsForImages(inp: Inputs, moving: Side, fixed: Side)
    ensures FixedImage in ArgsFor(inp, moving, fixed) && ArgsFor(inp, moving, fixed)[FixedImage] == ImageArg(fixed.image)
    ensures MovingImage in ArgsFor(inp, moving, fixed) && ArgsFor(inp, moving, fixed)[MovingImage] == ImageArg(moving.image)
  {
  }

  /** The arguments every attempt runs with: the resolved ones, with the initializer's transform
      when the user gave none. */
  function AttemptArgs(inp: Inputs, fixed: Side, init: InitializerResult): Args {
    var args := ArgsFor(inp, MovingSide(inp), fixed);
    if inp.initialMovingTransform.None? then args[InitialMovingTransform := PathArg(init.outFile)] else args
  }

  /** One configured registration: the settings file, the arguments, the histogram-matching
      override when the user set one, and the terminal output mode. */
  datatype Registration = Registration(fromFile: string, args: Args, useHistogramMatching: Option<bool>, terminalOutput: string)

  datatype InitializerCall = InitializerCall(fixedImage: Image, movingImage: Image, numThreads: int)

  /** What the affine initializer reports: its process record and the transform it wrote. */
  datatype InitializerResult = InitializerResult(runtime: Runtime, outFile: string)

  /** The externally visible steps of a run, in order, with the log files each one left. */
  datatype Event =
    | Initialized(call: InitializerCall, initLogs: LogWrite)
    | Attempted(registration: Registration, returncode: int, logs: Option<LogWrite>)

  /** How many of the first n attempts fail before the first one that exits with 0. */
  function LeadingFailures(engine: nat -> Runtime, n: nat): (k: nat)
    ensures k <= n
    ensures forall j :: 0 <= j < k ==> engine(j).returncode != 0
    ensures k < n ==> engine(k).returncode == 0
  {
    if n == 0 then 0
    else
      var k := LeadingFailures(engine, n - 1);
      if k < n - 1 then k
      else if engine(n - 1).returncode != 0 then n
      else n - 1
  }

  /** Once attempt i succeeds after i failures, later attempts do not change the count. */
  lemma LeadingFailuresStop(engine: nat -> Runtime, i: nat, n: nat)
    requires LeadingFailures(engine, i) == i && i < n && engine(i).returncode == 0
    ensures LeadingFailures(engine, n) == i
  {
  }

  /** The registration configured for the j-th settings file. */
  function RegistrationFor(inp: Inputs, files: seq<string>, args: Args, terminalOutput: string, j: nat): Registration
    requires j < |files|
  {
    Registration(files[j], args, inp.useHistogramMatching, terminalOutput)
  }

  /** Attempt j (from 0) of a run over `files` whose first attempt number is `firstRetry`: the
      registration it configures, the exit code, and the logs saved when it fails. */
  function AttemptEvent(inp: Inputs, files: seq<string>, args: Args, terminalOutput: string,
                        engine: nat -> Runtime, firstRetry: nat, j: nat): Event
    requires j < |files|
  {
    Attempted(RegistrationFor(inp, files, args, terminalOutput, j),
              engine(j).returncode,
              if engine(j).returncode != 0 then Some(LogWrite(engine(j), AttemptLogs(firstRetry + j))) else None)
  }

  /** The first n attempts of such a run, in order. */
  function AttemptEvents(inp: Inputs, files: seq<string>, args: Args, terminalOutput: string,
                         engine: nat -> Runtime, firstRetry: nat, n: nat): (r: seq<Event>)
    requires n <= |files|
    ensures |r| == n
  {
    if n == 0 then []
    else AttemptEvents(inp, files, args, terminalOutput, engine, firstRetry, n - 1)
         + [AttemptEvent(inp, files, args, terminalOutput, engine, firstRetry, n - 1)]
  }

  lemma {:induction false} AttemptEventsAt(inp: Inputs, files: seq<string>, args: Args, terminalOutput: string,
                                           engine: nat -> Runtime, firstRetry: nat, n: nat, j: nat)
    requires j < n <= |files|
    ensures AttemptEvents(inp, files, args, terminalOutput, engine, firstRetry, n)[j]
            == AttemptEvent(inp, files, args, terminalOutput, engine, firstRetry, j)
  {
    if j < n - 1 {
      AttemptEventsAt(inp, files, args, terminalOutput, engine, firstRetry, n - 1, j);
    }
  }

  /** The trace of a run stops at the first success: attempt j configures the j-th settings
      file, only the last attempt run can succeed and does so exactly when some file succeeded,
      and every failed attempt saves its logs under its own attempt number. */
  lemma AttemptsUntilFirstSuccess(inp: Inputs, files: seq<string>, args: Args, terminalOutput: string,
                                  engine: nat -> Runtime, firstRetry: nat)
    ensures var k := LeadingFailures(engine, |files|);
            var n := if k < |files| then k + 1 else k;
            var trace := AttemptEvents(inp, files, args, terminalOutput, engine, firstRetry, n);
            forall j :: 0 <= j < n ==>
              && trace[j].Attempted?
              && trace[j].registration == Registration(files[j], args, inp.useHistogramMatching, terminalOutput)
              && (trace[j].returncode == 0 <==> j == k)
              && trace[j].logs == if j < k then Some(LogWrite(engine(j), AttemptLogs(firstRetry + j))) else None
  {
    var k := LeadingFailures(engine, |files|);
    var n := if k < |files| then k + 1 else k;
    forall j | 0 <= j < n
      ensures var e := AttemptEvents(inp, files, args, terminalOutput, engine, firstRetry, n)[j];
              && e.Attempted?
              && e.registration == Registration(files[j], args, inp.useHistogramMatching, terminalOutput)
              && (e.returncode == 0 <==> j == k)
              && e.logs == if j < k then Some(LogWrite(engine(j), AttemptLogs(firstRetry + j))) else None
    {
      AttemptEventsAt(inp, files, args, terminalOutput, engine, firstRetry, n, j);
    }
  }

  /** Without a user transform, every attempt starts from the initializer's output transform;
      with one, every attempt starts from the user's. */
  lemma {:induction false} EveryAttemptUsesInitialTransform(inp: Inputs, fixed: Side, init: InitializerResult, files: seq<string>,
                                                            terminalOutput: string, engine: nat -> Runtime, firstRetry: nat, n: nat)
    requires n <= |files|
    ensures forall j :: 0 <= j < n ==>
              var e := AttemptEvents(inp, files, AttemptArgs(inp, fixed, init), terminalOutput, engine, firstRetry, n)[j];
              && e.Attempted?
              && var args := e.registration.args;
              && InitialMovingTransform in args
              && args[InitialMovingTransform] == PathArg(if inp.initialMovingTransform.None? then init.outFile
                                                         else inp.initialMovingTransform.value)
  {
    var args := AttemptArgs(inp, fixed, init);
    forall j | 0 <= j < n
      ensures var e := AttemptEvents(inp, files, args, terminalOutput, engine, firstRetry, n)[j];
              e.Attempted? && e.registration.args == args
    {
      AttemptEventsAt(inp, files, args, terminalOutput, engine, firstRetry, n, j);
    }
  }

  /** No two log writes of a run share a suffix: the initializer's and each failed attempt's
      logs land in files of their own. */
  lemma LogNamesOfRunDistinct(inp: Inputs, files: seq<string>, args: Args, terminalOutput: string,
                              engine: nat -> Runtime, firstRetry: nat, n: nat, i: nat, j: nat)
    requires i < j < n <= |files|
    ensures var trace := AttemptEvents(inp, files, args, terminalOutput, engine, firstRetry, n);
            && trace[i].Attempted? && trace[j].Attempted?
            && (trace[i].logs.Some? && trace[j].logs.Some? ==> trace[i].logs.value.name.Suffix() != trace[j].logs.value.name.Suffix())
            && (trace[i].logs.Some? ==> trace[i].logs.value.name.Suffix() != InitLogs.Suffix())
  {
    AttemptEventsAt(inp, files, args, terminalOutput, engine, firstRetry, n, i);
    AttemptEventsAt(inp, files, args, terminalOutput, engine, firstRetry, n, j);
    LogNamesDistinct(AttemptLogs(firstRetry + i), AttemptLogs(firstRetry + j));
    LogNamesDistinct(AttemptLogs(firstRetry + i), InitLogs);
  }

  /** The initializer's step of a run: present only when the user gave no initial transform. */
  function InitEvents(inp: Inputs, fixed: Side, init: InitializerResult): (r: seq<Event>)
    ensures |r| == if inp.initialMovingTransform.None? then 1 else 0
  {
    if inp.initialMovingTransform.None?
    then [Initialized(InitializerCall(fixed.image, MovingSide(inp).image, inp.numThreads),
                      LogWrite(init.runtime, InitLogs))]
    else []
  }

  lemma AttemptEventsStep(inp: Inputs, files: seq<string>, args: Args, terminalOutput: string,
                          engine: nat -> Runtime, firstRetry: nat, i: nat, attempts: seq<Event>, event: Event)
    requires i < |files|
    requires attempts == AttemptEvents(inp, files, args, terminalOutput, engine, firstRetry, i)
    requires event == Attempted(RegistrationFor(inp, files, args, terminalOutput, i), engine(i).returncode,
                                if engine(i).returncode != 0 then Some(LogWrite(engine(i), AttemptLogs(firstRetry + i))) else None)
    ensures attempts + [event] == AttemptEvents(inp, files, args, terminalOutput, engine, firstRetry, i + 1)
  {
  }

  /** Argument resolution as a whole: the moving side is resolved first and can raise; then the
      fixed side is. The value is the resolved fixed side. */
  function ResolvedFixed(inp: Inputs, lookup: TemplateRequest -> TemplateAnswer, load: string -> seq<int>): Result<Side, Error> {
    if MovingCfmRejected(inp, load) then Err(NonBinaryMask) else FixedSide(inp, lookup)
  }

  function SettingsFor(inp: Inputs, dataDir: string, entries: seq<string>): seq<string> {
    GetSettings(inp.settings, inp.moving, inp.flavor, dataDir, entries)
  }

  class SpatialNormalization {
    const inputs: Inputs
    /** The last registration configured. */
    var norm: Option<Registration>
    /** The reference image the registration targets, reported with the outputs. */
    var referenceImage: Option<string>
    /** The number of the current attempt. */
    var retry: nat
    const terminalOutput: string

    constructor (inputs: Inputs)
      ensures this.inputs == inputs
      ensures norm == None && referenceImage == None
      ensures retry == 1 && terminalOutput == "file"
    {
      this.inputs := inputs;
      norm := None;
      referenceImage := None;
      retry := 1;
      terminalOutput := "file";
    }

    /** The first half of `_get_ants_args`: the common settings and the moving side's
        entries. `load` gives the voxels of each file; `create_cfm` raises when the lesion is cut
        out of a moving mask that is not binary. */
    method MovingSideArgs(load: string -> seq<int>) returns (r: Result<Args, Error>)
      ensures r == if MovingCfmRejected(inputs, load) then Err(NonBinaryMask)
                   else Ok(MovingArgs(inputs, MovingSide(inputs)))
    {
      var args := map[
        MovingImage := ImageArg(File(inputs.movingImage)),
        NumThreads := IntArg(inputs.numThreads),
        Float := BoolArg(inputs.float),
        TerminalOutput := StrArg("file"),
        WriteCompositeTransform := BoolArg(true),
        InitialMovingTransform := TransformArg(inputs.initialMovingTransform)];

      if inputs.movingMask.Some? {
        var movingMask := File(inputs.movingMask.value);
        if inputs.explicitMasking {
          args := args[MovingImage := ImageArg(Masked(File(inputs.movingImage), movingMask, MovingMaskedName))];
        } else {
          args := args[MovingImageMasks := ImageArg(movingMask)];
        }
        if inputs.lesionMask.Some? {
          if !inputs.explicitMasking && !MaskAlgebra.IsBinary(load(inputs.movingMask.value)) {
            return Err(NonBinaryMask);
          }
          args := args[MovingImageMasks :=
            ImageArg(Cfm(movingMask, Some(File(inputs.lesionMask.value)), inputs.explicitMasking))];
        }
      } else if inputs.lesionMask.Some? {
        args := args[MovingImageMasks :=
          ImageArg(Cfm(File(inputs.movingImage), Some(File(inputs.lesionMask.value)), true))];
      }
      assert args == MovingArgs(inputs, MovingSide(inputs));
      return Ok(args);
    }

    /** `_get_ants_args`: builds the argument dictionary step by step and records the reference
        image. On the template branch the reference is recorded before the file check, so it is
        set even when that check fails. The moving side comes first: when it raises, the fixed
        side is never looked at. */
    method GetAntsArgs(lookup: TemplateRequest -> TemplateAnswer, load: string -> seq<int>) returns (r: Result<Args, Error>)
      modifies this`referenceImage
      ensures MovingCfmRejected(inputs, load) ==> r == Err(NonBinaryMask)
      ensures !MovingCfmRejected(inputs, load) ==>
                match FixedSide(inputs, lookup)
                case Err(e) => r == Err(e)
                case Ok(fixed) => r == Ok(ArgsFor(inputs, MovingSide(inputs), fixed))
      ensures referenceImage == if MovingCfmRejected(inputs, load) then old(referenceImage)
                                else if inputs.referenceImage.Some? then inputs.referenceImage
                                else if inputs.orientation == LAS then old(referenceImage)
                                else Some(lookup(TemplateQuery(inputs)).refTemplate)
    {
      var moving := MovingSideArgs(load);
      if moving.Err? {
        return Err(moving.error);
      }
      var args := moving.value;
      ghost var movingArgs := args;

      // fixed side
      if inputs.referenceImage.Some? {
        var reference := File(inputs.referenceImage.value);
        args := args[FixedImage := ImageArg(reference)];
        referenceImage := inputs.referenceImage;
        if inputs.referenceMask.Some? {
          var referenceMask := File(inputs.referenceMask.value);
          if inputs.explicitMasking {
            args := args[FixedImage := ImageArg(Masked(reference, referenceMask, FixedMaskedName))];
            if inputs.lesionMask.Some? {
              args := args[FixedImageMasks := ImageArg(Cfm(referenceMask, None, true))];
            }
          } else {
            args := args[FixedImageMasks := ImageArg(referenceMask)];
          }
        } else if inputs.lesionMask.Some? {
          args := args[FixedImageMasks := ImageArg(Cfm(reference, None, true))];
        }
        assert args == ArgsFor(inputs, MovingSide(inputs), FixedSide(inputs, lookup).value);
      } else {
        if inputs.orientation == LAS {
          return Err(NotImplementedError);
        }
        var answer := lookup(TemplateQuery(inputs));
        referenceImage := Some(answer.refTemplate);
        if !answer.isFile {
          return Err(ReferenceNotFound(answer.refTemplate));
        }
        var template := File(answer.refTemplate);
        var brainMask := File(answer.brainMask);
        args := args[FixedImage := ImageArg(template)];
        args := args[FixedImageMasks := ImageArg(brainMask)];
        if inputs.explicitMasking {
          args := args[FixedImage := ImageArg(Masked(template, brainMask, FixedMaskedName))];
          args := args - {FixedImageMasks};
          assert args == movingArgs[FixedImage := ImageArg(Masked(template, brainMask, FixedMaskedName))];
          if inputs.lesionMask.Some? {
            args := args[FixedImageMasks := ImageArg(Cfm(brainMask, None, true))];
          }
        }
        assert args == ArgsFor(inputs, MovingSide(inputs), FixedSide(inputs, lookup).value);
      }
      return Ok(args);
    }

    /** `_run_interface`. The engine is an oracle: `engine(j)` is what the registration of the
        j-th settings file (from 0) reports. Attempt j is logged under the attempt number
        old(retry) + j, which is j + 1 on a fresh interface. */
    method RunInterface(dataDir: string, entries: seq<string>, lookup: TemplateRequest -> TemplateAnswer,
                        load: string -> seq<int>, init: InitializerResult, engine: nat -> Runtime)
      returns (r: Result<int, Error>, events: seq<Event>)
      modifies this`referenceImage, this`norm, this`retry
      // the reference image is recorded by the fixed side, which a moving-side error preempts
      ensures referenceImage == if MovingCfmRejected(inputs, load) then old(referenceImage)
                                else if inputs.referenceImage.Some? then inputs.referenceImage
                                else if inputs.orientation == LAS then old(referenceImage)
                                else Some(lookup(TemplateQuery(inputs)).refTemplate)
      // argument resolution raises: nothing runs
      ensures ResolvedFixed(inputs, lookup, load).Err? ==>
                && r == Err(ResolvedFixed(inputs, lookup, load).error)
                && events == [] && retry == old(retry) && norm == old(norm)
      ensures ResolvedFixed(inputs, lookup, load).Ok? ==>
                var files := SettingsFor(inputs, dataDir, entries);
                var fixed := ResolvedFixed(inputs, lookup, load).value;
                var args := AttemptArgs(inputs, fixed, init);
                var k := LeadingFailures(engine, |files|);
                var attempts := if k < |files| then k + 1 else k;
                // the initializer runs once, first, and only without a user transform
                // and then the settings files are tried in order, up to and including the first success
                && events == InitEvents(inputs, fixed, init)
                             + AttemptEvents(inputs, files, args, terminalOutput, engine, old(retry), attempts)
                && norm == (if attempts == 0 then old(norm)
                            else Some(RegistrationFor(inputs, files, args, terminalOutput, attempts - 1)))
                // success stops the loop; exhaustion reports how many attempts failed
                && (k < |files| ==> r == Ok(0) && retry == old(retry) + k)
                && (k == |files| ==> r == Err(RetriesExhausted(old(retry) + k - 1)) && retry == old(retry) + k)
    {
      var files := SettingsFor(inputs, dataDir, entries);
      var resolved := GetAntsArgs(lookup, load);
      if resolved.Err? {
        return Err(resolved.error), [];
      }
      r, events := RunResolved(files, resolved.value, ResolvedFixed(inputs, lookup, load).value, init, engine);
    }

    /** `_run_interface` once the arguments are resolved: the initializer step, then the retry
        loop. */
    method RunResolved(files: seq<string>, args: Args, ghost fixed: Side, init: InitializerResult, engine: nat -> Runtime)
      returns (r: Result<int, Error>, events: seq<Event>)
      requires args == ArgsFor(inputs, MovingSide(inputs), fixed)
      modifies this`norm, this`retry
      ensures var attemptArgs := AttemptArgs(inputs, fixed, init);
              var k := LeadingFailures(engine, |files|);
              var n := if k < |files| then k + 1 else k;
              && events == InitEvents(inputs, fixed, init)
                           + AttemptEvents(inputs, files, attemptArgs, terminalOutput, engine, old(retry), n)
              && norm == (if n == 0 then old(norm) else Some(RegistrationFor(inputs, files, attemptArgs, terminalOutput, n - 1)))
              && (k < |files| ==> r == Ok(0) && retry == old(retry) + k)
              && (k == |files| ==> r == Err(RetriesExhausted(old(retry) + k - 1)) && retry == old(retry) + k)
    {
      ArgsForImages(inputs, MovingSide(inputs), fixed);
      var attemptArgs, initEvents := Initialize(args, init);
      assert attemptArgs == AttemptArgs(inputs, fixed, init);
      assert initEvents == InitEvents(inputs, fixed, init);
      var attempts;
      r, attempts := Register(files, attemptArgs, engine);
      events := initEvents + attempts;
    }

    /** The rest of `_run_interface`: the retry loop, after which the attempt counter and the
        last registration configured are those of the last attempt run. */
    method Register(files: seq<string>, args: Args, engine: nat -> Runtime)
      returns (r: Result<int, Error>, attempts: seq<Event>)
      modifies this`norm, this`retry
      ensures var k := LeadingFailures(engine, |files|);
              var n := if k < |files| then k + 1 else k;
              && attempts == AttemptEvents(inputs, files, args, terminalOutput, engine, old(retry), n)
              && norm == (if n == 0 then old(norm) else Some(RegistrationFor(inputs, files, args, terminalOutput, n - 1)))
              && (k < |files| ==> r == Ok(0) && retry == old(retry) + k)
              && (k == |files| ==> r == Err(RetriesExhausted(old(retry) + k - 1)) && retry == old(retry) + k)
    {
      var succeeded, failures;
      succeeded, attempts, failures := TrySettings(files, args, retry, engine);
      if |attempts| > 0 {
        norm := Some(RegistrationFor(inputs, files, args, terminalOutput, |attempts| - 1));
      }
      retry := retry + failures;
      if succeeded {
        return Ok(0), attempts;
      }
      return Err(RetriesExhausted(retry - 1)), attempts;
    }

    /** The initializer step of `_run_interface`: without a user transform, the affine
        initializer aligns the resolved moving image to the resolved fixed image, its logs are
        saved under the `.nipype-init` suffix and its output transform becomes the initial
        transform of every attempt. */
    method Initialize(args: Args, init: InitializerResult) returns (attemptArgs: Args, events: seq<Event>)
      requires FixedImage in args && args[FixedImage].ImageArg?
      requires MovingImage in args && args[MovingImage].ImageArg?
      ensures inputs.initialMovingTransform.Some? ==> attemptArgs == args && events == []
      ensures inputs.initialMovingTransform.None? ==>
                && attemptArgs == args[InitialMovingTransform := PathArg(init.outFile)]
                && events == [Initialized(InitializerCall(args[FixedImage].image, args[MovingImage].image, inputs.numThreads),
                                          LogWrite(init.runtime, InitLogs))]
    {
      attemptArgs, events := args, [];
      if inputs.initialMovingTransform.None? {
        var call := InitializerCall(args[FixedImage].image, args[MovingImage].image, inputs.numThreads);
        var _ := WriteOutputs(init.runtime, Some(InitSuffix));
        events := [Initialized(call, LogWrite(init.runtime, InitLogs))];
        attemptArgs := args[InitialMovingTransform := PathArg(init.outFile)];
      }
    }

    /** One attempt: the registration runs, and when it fails its logs are saved under the
        attempt number. */
    static method Attempt(registration: Registration, result: Runtime, number: nat) returns (event: Event)
      ensures event == Attempted(registration, result.returncode,
                                 if result.returncode != 0 then Some(LogWrite(result, AttemptLogs(number))) else None)
    {
      if result.returncode != 0 {
        var _ := WriteOutputs(result, Some(AttemptSuffix(number)));
        return Attempted(registration, result.returncode, Some(LogWrite(result, AttemptLogs(number))));
      }
      return Attempted(registration, result.returncode, None);
    }

    /** The retry loop of `_run_interface`: configures a registration for each settings file in
        turn, runs it, saves the logs of a failed attempt under the current attempt number and
        counts it, and stops at the first exit code 0. */
    method TrySettings(files: seq<string>, args: Args, firstRetry: nat, engine: nat -> Runtime)
      returns (succeeded: bool, attempts: seq<Event>, failures: nat)
      ensures failures == LeadingFailures(engine, |files|)
      ensures succeeded == (failures < |files|)
      ensures |attempts| == if succeeded then failures + 1 else failures
      ensures attempts == AttemptEvents(inputs, files, args, terminalOutput, engine, firstRetry, |attempts|)
    {
      attempts := [];
      var i := 0;
      while i < |files|
        invariant 0 <= i <= |files|
        invariant LeadingFailures(engine, i) == i
        invariant |attempts| == i
        invariant attempts == AttemptEvents(inputs, files, args, terminalOutput, engine, firstRetry, i)
      {
        var registration := RegistrationFor(inputs, files, args, terminalOutput, i);
        var result := engine(i);
        var event := Attempt(registration, result, firstRetry + i);
        AttemptEventsStep(inputs, files, args, terminalOutput, engine, firstRetry, i, attempts, event);
        attempts := attempts + [event];
        if result.returncode == 0 {
          LeadingFailuresStop(engine, i, |files|);
          return true, attempts, i;
        }
        i := i + 1;
      }
      return false, attempts, i;
    }
  }
}
