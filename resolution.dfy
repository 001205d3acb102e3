/** Input resolution: which image the registration engine treats as moving and which as fixed,
    and which masks go with each, decided from the optional moving, reference and lesion masks,
    the explicit-masking flag and the reference image or template. Images are symbolic: a file,
    the result of `mask`, or the result of `create_cfm`. */
module Resolution {
  import opened Wrappers
  import opened Errors
  import MaskAlgebra
  import Text

  datatype Image =
    | File(path: string)
      // mask(image, mask, newName)
    | Masked(image: Image, mask: Image, newName: string)
      // create_cfm(base, lesion_mask=lesion, global_mask=globalMask)
    | Cfm(base: Image, lesion: Option<Image>, globalMask: bool)

  datatype Flavor = Precise | Testing | Fast
  datatype Orientation = RAS | LAS
  datatype Modality = T1w | T2w | Boldref | PDw
  /** The moving image's modality takes only two of those values. */
  type MovingModality = m: Modality | m == T1w || m == Boldref witness T1w
  /** The deprecated `template_resolution` takes 1, 2 or an explicit None. */
  datatype ResolutionChoice = Res1 | Res2 | ResNone
  /** A value of the template specification dictionary. */
  datatype SpecValue = SInt(n: int) | SStr(s: string) | SNone

  /** The inputs of one normalization request; an absent optional input is `None`. */
  datatype Inputs = Inputs(
    movingImage: string,
    referenceImage: Option<string>,
    movingMask: Option<string>,
    referenceMask: Option<string>,
    lesionMask: Option<string>,
    numThreads: int,
    flavor: Flavor,
    orientation: Orientation,
    reference: Modality,
    moving: MovingModality,
    template: string,
    settings: Option<seq<string>>,
    templateSpec: Option<map<string, SpecValue>>,
    templateResolution: Option<ResolutionChoice>,
    explicitMasking: bool,
    initialMovingTransform: Option<string>,
    useHistogramMatching: Option<bool>,
    float: bool
  )

  function ModalityName(m: Modality): string {
    match m
    case T1w => "T1w"
    case T2w => "T2w"
    case Boldref => "boldref"
    case PDw => "PDw"
  }

  function FlavorName(f: Flavor): string {
    match f
    case Precise => "precise"
    case Testing => "testing"
    case Fast => "fast"
  }

  const MovingMaskedName := "moving_masked.nii.gz"
  const FixedMaskedName := "fixed_masked.nii.gz"

  /** The image one side hands to the engine and the mask argument for that side, if any. */
  datatype Side = Side(image: Image, masks: Option<Image>)

  /** The moving side, as the decision table over (moving mask, explicit masking, lesion). */
  function MovingSide(inp: Inputs): (r: Side)
    // the moving image is masked exactly when a moving mask comes with explicit masking
    ensures r.image == if inp.movingMask.Some? && inp.explicitMasking
                       then Masked(File(inp.movingImage), File(inp.movingMask.value), MovingMaskedName)
                       else File(inp.movingImage)
    // a mask argument is passed exactly when there is a lesion, or a moving mask that is not
    // burnt into the image
    ensures r.masks.Some? <==> inp.lesionMask.Some? || (inp.movingMask.Some? && !inp.explicitMasking)
    // without a lesion the mask argument is the moving mask itself
    ensures inp.lesionMask.None? && r.masks.Some? ==> r.masks.value == File(inp.movingMask.value)
    // a lesion always ends up in the moving cost function mask; the CFM is global unless it
    // is cut out of a moving mask that is not burnt into the image
    ensures inp.lesionMask.Some? ==>
              r.masks.value == Cfm(File(if inp.movingMask.Some? then inp.movingMask.value else inp.movingImage),
                                   Some(File(inp.lesionMask.value)),
                                   inp.movingMask.None? || inp.explicitMasking)
  {
    var img := File(inp.movingImage);
    match (inp.movingMask, inp.explicitMasking, inp.lesionMask)
    case (Some(m), true, Some(l)) =>
      Side(Masked(img, File(m), MovingMaskedName), Some(Cfm(File(m), Some(File(l)), true)))
    case (Some(m), true, None) =>
      Side(Masked(img, File(m), MovingMaskedName), None)
    case (Some(m), false, Some(l)) =>
      Side(img, Some(Cfm(File(m), Some(File(l)), false)))
    case (Some(m), false, None) =>
      Side(img, Some(File(m)))
    case (None, _, Some(l)) =>
      Side(img, Some(Cfm(img, Some(File(l)), true)))
    case (None, _, None) =>
      Side(img, None)
  }

  /** What is sent to the template service: the template name, the specification extended with
      the deprecated resolution, the reference modality as `suffix` and `desc=None`, and the
      default resolution of the flavor. */
  datatype TemplateRequest = TemplateRequest(template: string, spec: map<string, SpecValue>, defaultResolution: nat)

  /** What the template service and the file system answer: the resolved reference path, whether
      it is an existing file, and the template's brain mask. */
  datatype TemplateAnswer = TemplateAnswer(refTemplate: string, isFile: bool, brainMask: string)

  function ResolutionValue(c: ResolutionChoice): SpecValue {
    match c
    case Res1 => SInt(1)
    case Res2 => SInt(2)
    case ResNone => SNone
  }

  function TemplateQuery(inp: Inputs): (q: TemplateRequest)
    ensures q.template == inp.template
    ensures q.defaultResolution == if inp.flavor == Precise then 1 else 2
    ensures "suffix" in q.spec && q.spec["suffix"] == SStr(ModalityName(inp.reference))
    ensures "desc" in q.spec && q.spec["desc"] == SNone
    ensures inp.templateResolution.Some? ==> "res" in q.spec && q.spec["res"] == ResolutionValue(inp.templateResolution.value)
    ensures inp.templateResolution.None? && inp.templateSpec.Some? && "res" in inp.templateSpec.value ==>
              "res" in q.spec && q.spec["res"] == inp.templateSpec.value["res"]
    ensures inp.templateResolution.None? && (inp.templateSpec.None? || "res" !in inp.templateSpec.value) ==>
              "res" !in q.spec
    // every other key of the user's specification is passed on unchanged, and nothing else is added
    ensures forall k :: k in q.spec && k != "res" && k != "suffix" && k != "desc" ==>
              inp.templateSpec.Some? && k in inp.templateSpec.value && q.spec[k] == inp.templateSpec.value[k]
    ensures inp.templateSpec.Some? ==> forall k :: k in inp.templateSpec.value ==> k in q.spec
  {
    var base := if inp.templateSpec.Some? then inp.templateSpec.value else map[];
    var withRes := if inp.templateResolution.Some?
                   then base["res" := ResolutionValue(inp.templateResolution.value)]
                   else base;
    var defaultResolution := match inp.flavor case Precise => 1 case Fast => 2 case Testing => 2;
    TemplateRequest(inp.template, withRes["suffix" := SStr(ModalityName(inp.reference))]["desc" := SNone],
                    defaultResolution)
  }

  /** The fixed side. With a reference image, the decision table over (reference mask, explicit
      masking, lesion); without one, the template the service resolves. */
  function FixedSide(inp: Inputs, lookup: TemplateRequest -> TemplateAnswer): (r: Result<Side, Error>)
    // failures only arise on the template branch: LAS before any lookup, then a missing file
    ensures r.Err? <==> inp.referenceImage.None? &&
                        (inp.orientation == LAS || !lookup(TemplateQuery(inp)).isFile)
    ensures inp.referenceImage.None? && inp.orientation == LAS ==> r == Err(NotImplementedError)
    ensures inp.referenceImage.None? && inp.orientation == RAS && !lookup(TemplateQuery(inp)).isFile ==>
              r == Err(ReferenceNotFound(lookup(TemplateQuery(inp)).refTemplate))
    // no fixed-side cost function mask ever carries the lesion: each is a whole-image mask
    ensures r.Ok? && r.value.masks.Some? && r.value.masks.value.Cfm? ==>
              r.value.masks.value.lesion.None? && r.value.masks.value.globalMask
    // reference image supplied: it is the fixed image, masked exactly when a reference mask
    // comes with explicit masking
    ensures inp.referenceImage.Some? ==>
              r.value.image == if inp.referenceMask.Some? && inp.explicitMasking
                               then Masked(File(inp.referenceImage.value), File(inp.referenceMask.value), FixedMaskedName)
                               else File(inp.referenceImage.value)
    // a reference mask without explicit masking is the fixed mask as it is, lesion or not
    ensures inp.referenceImage.Some? && inp.referenceMask.Some? && !inp.explicitMasking ==>
              r.value.masks == Some(File(inp.referenceMask.value))
    // otherwise a fixed mask exists exactly when there is a lesion
    ensures inp.referenceImage.Some? && (inp.referenceMask.None? || inp.explicitMasking) ==>
              (r.value.masks.Some? <==> inp.lesionMask.Some?)
    // the base of each fixed-side cost function mask
    ensures inp.referenceImage.Some? && inp.referenceMask.Some? && inp.explicitMasking && inp.lesionMask.Some? ==>
              r.value.masks == Some(Cfm(File(inp.referenceMask.value), None, true))
    ensures inp.referenceImage.Some? && inp.referenceMask.None? && inp.lesionMask.Some? ==>
              r.value.masks == Some(Cfm(File(inp.referenceImage.value), None, true))
    ensures r.Ok? && inp.referenceImage.None? && inp.explicitMasking && inp.lesionMask.Some? ==>
              r.value.masks == Some(Cfm(File(lookup(TemplateQuery(inp)).brainMask), None, true))
    // template: the brain mask is the fixed mask without explicit masking; with it, the brain
    // mask is burnt into the template and a mask argument exists exactly when there is a lesion
    ensures r.Ok? && inp.referenceImage.None? ==>
              var answer := lookup(TemplateQuery(inp));
              && r.value.image == (if inp.explicitMasking
                                   then Masked(File(answer.refTemplate), File(answer.brainMask), FixedMaskedName)
                                   else File(answer.refTemplate))
              && (!inp.explicitMasking ==> r.value.masks == Some(File(answer.brainMask)))
              && (inp.explicitMasking ==> (r.value.masks.Some? <==> inp.lesionMask.Some?))
  {
    match inp.referenceImage
    case Some(ref) =>
      var img := File(ref);
      Ok(match (inp.referenceMask, inp.explicitMasking, inp.lesionMask)
         case (Some(m), true, Some(_)) =>
           Side(Masked(img, File(m), FixedMaskedName), Some(Cfm(File(m), None, true)))
         case (Some(m), true, None) =>
           Side(Masked(img, File(m), FixedMaskedName), None)
         case (Some(m), false, _) =>
           Side(img, Some(File(m)))
         case (None, _, Some(_)) =>
           Side(img, Some(Cfm(img, None, true)))
         case (None, _, None) =>
           Side(img, None))
    case None =>
      if inp.orientation == LAS then Err(NotImplementedError)
      else
        var answer := lookup(TemplateQuery(inp));
        if !answer.isFile then Err(ReferenceNotFound(answer.refTemplate))
        else
          var template := File(answer.refTemplate);
          var brain := File(answer.brainMask);
          if !inp.explicitMasking then Ok(Side(template, Some(brain)))
          else Ok(Side(Masked(template, brain, FixedMaskedName),
                       if inp.lesionMask.Some? then Some(Cfm(brain, None, true)) else None))
  }

  // ---------------------------------------------------------------------------------------
  // What the symbolic images hold once `mask` and `create_cfm` have run

  /** The voxels of a symbolic image, given the voxels of each file on disk. A grid mismatch is
      the array library's error; `create_cfm`'s own check raises NonBinaryMask. */
  function Eval(img: Image, load: string -> seq<int>): Result<seq<int>, Error> {
    match img
    case File(p) => Ok(load(p))
    case Masked(i, m, _) =>
      var data :- Eval(i, load);
      var maskData :- Eval(m, load);
      if |data| != |maskData| then Err(ShapeMismatch) else Ok(MaskAlgebra.Masked(data, maskData))
    case Cfm(b, None, g) =>
      var base :- Eval(b, load);
      MaskAlgebra.CreateCfm(base, None, g)
    case Cfm(b, Some(l), g) =>
      var base :- Eval(b, load);
      // the binarity check comes before the lesion is read
      if !g && !MaskAlgebra.IsBinary(base) then Err(NonBinaryMask)
      else
        var lesion :- Eval(l, load);
        if |lesion| != |base| then Err(ShapeMismatch) else MaskAlgebra.CreateCfm(base, Some(lesion), g)
  }

  /** Whether resolving the moving side raises: `create_cfm` cuts the lesion out of the moving
      mask itself (explicit masking off), and that mask is not binary. */
  predicate MovingCfmRejected(inp: Inputs, load: string -> seq<int>) {
    && inp.movingMask.Some? && !inp.explicitMasking && inp.lesionMask.Some?
    && !MaskAlgebra.IsBinary(load(inp.movingMask.value))
  }

  /** The moving side raises exactly when evaluating its mask argument fails with NonBinaryMask:
      no other moving mask can be rejected for its values. */
  lemma MovingCfmRejectedIffEvalFails(inp: Inputs, load: string -> seq<int>)
    ensures MovingCfmRejected(inp, load) <==>
              MovingSide(inp).masks.Some? && Eval(MovingSide(inp).masks.value, load) == Err(NonBinaryMask)
  {
    var m := MovingSide(inp).masks;
    if m.Some? && m.value.Cfm? && m.value.globalMask {
      assert MaskAlgebra.IsBinary(MaskAlgebra.Ones(|Eval(m.value.base, load).value|));
    }
  }

  /** Every fixed-side cost function mask is the all-ones mask of its image's grid: the lesion
      lives in the moving image's space and never reaches the fixed side. */
  lemma FixedCfmIsWholeImage(inp: Inputs, lookup: TemplateRequest -> TemplateAnswer, load: string -> seq<int>)
    requires FixedSide(inp, lookup).Ok?
    requires FixedSide(inp, lookup).value.masks.Some? && FixedSide(inp, lookup).value.masks.value.Cfm?
    ensures var cfm := FixedSide(inp, lookup).value.masks.value;
            cfm.base.File? && Eval(cfm, load) == Ok(MaskAlgebra.Ones(|load(cfm.base.path)|))
  {
    var cfm := FixedSide(inp, lookup).value.masks.value;
    assert cfm.base.File? by {
      if inp.referenceImage.Some? {
        assert cfm.base == File(if inp.referenceMask.Some? then inp.referenceMask.value else inp.referenceImage.value);
      }
    }
  }

  /** With a moving mask and explicit masking, the moving image the engine sees is zero wherever
      the moving mask is zero and the original voxel elsewhere. */
  lemma ExplicitMaskingZeroesMovingImage(inp: Inputs, load: string -> seq<int>, i: int)
    requires inp.movingMask.Some? && inp.explicitMasking
    requires |load(inp.movingImage)| == |load(inp.movingMask.value)|
    requires 0 <= i < |load(inp.movingImage)|
    ensures var moving := Eval(MovingSide(inp).image, load);
            && moving.Ok?
            && |moving.value| == |load(inp.movingImage)|
            && moving.value[i] == if load(inp.movingMask.value)[i] == 0 then 0 else load(inp.movingImage)[i]
  {
    MaskAlgebra.MaskedAt(load(inp.movingImage), load(inp.movingMask.value), i);
  }

  /** With a moving mask, explicit masking off and a lesion, the moving mask itself is the CFM
      base, so that mask argument fails with NonBinaryMask exactly when the mask is not binary,
      whatever the lesion holds. */
  lemma NonBinaryMovingMaskRejected(inp: Inputs, load: string -> seq<int>)
    requires inp.movingMask.Some? && !inp.explicitMasking && inp.lesionMask.Some?
    ensures Eval(MovingSide(inp).masks.value, load) == Err(NonBinaryMask) <==> !MaskAlgebra.IsBinary(load(inp.movingMask.value))
    ensures |load(inp.lesionMask.value)| == |load(inp.movingMask.value)| ==>
              (Eval(MovingSide(inp).masks.value, load).Err? <==> !MaskAlgebra.IsBinary(load(inp.movingMask.value)))
  {
    var cfm := MovingSide(inp).masks.value;
    assert cfm == Cfm(File(inp.movingMask.value), Some(File(inp.lesionMask.value)), false);
  }
}
