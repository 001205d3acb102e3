/** The voxel arithmetic of `mask` and `create_cfm`. An image is the flat sequence of its voxel
    values on a grid shared with every other image it is combined with. */
module MaskAlgebra {
  import opened Wrappers
  import opened Errors
  import Text

  /** The result of `data[mask == 0] = 0`. */
  function Masked(img: seq<int>, m: seq<int>): (r: seq<int>)
    requires |img| == |m|
    ensures |r| == |img|
  {
    if img == [] then [] else [if m[0] == 0 then 0 else img[0]] + Masked(img[1..], m[1..])
  }

  /** Every output voxel is 0 where the mask is 0 and the input voxel elsewhere. */
  lemma {:induction false} MaskedAt(img: seq<int>, m: seq<int>, i: int)
    requires |img| == |m| && 0 <= i < |img|
    ensures Masked(img, m)[i] == if m[i] == 0 then 0 else img[i]
  {
    if i > 0 {
      MaskedAt(img[1..], m[1..], i - 1);
    }
  }

  /** Masking twice with the same mask is masking once. */
  lemma MaskIdempotent(img: seq<int>, m: seq<int>)
    requires |img| == |m|
    ensures Masked(Masked(img, m), m) == Masked(img, m)
  {
    var once := Masked(img, m);
    forall i | 0 <= i < |img| ensures Masked(once, m)[i] == once[i] {
      MaskedAt(once, m, i);
      MaskedAt(img, m, i);
    }
  }

  /** `mask`'s in-place step on the loaded voxel array: every voxel whose mask value is 0 is
      set to 0. */
  method Mask(data: array<int>, m: seq<int>)
    requires data.Length == |m|
    modifies data
    ensures data[..] == Masked(old(data[..]), m)
  {
    var i := 0;
    while i < data.Length
      invariant 0 <= i <= data.Length
      invariant forall k :: 0 <= k < i ==> data[k] == if m[k] == 0 then 0 else old(data[k])
      invariant forall k :: i <= k < data.Length ==> data[k] == old(data[k])
    {
      if m[i] == 0 {
        data[i] := 0;
      }
      i := i + 1;
    }
    forall k | 0 <= k < data.Length ensures data[..][k] == Masked(old(data[..]), m)[k] {
      MaskedAt(old(data[..]), m, k);
    }
  }

  predicate IsBinary(s: seq<int>) {
    forall i :: 0 <= i < |s| ==> s[i] == 0 || s[i] == 1
  }

  /** np.ones(shape). */
  function Ones(n: nat): seq<int> {
    seq(n, _ => 1)
  }

  function Max(a: int, b: int): int {
    if a < b then b else a
  }

  /** np.fmax(base - lesion, 0). */
  function SubtractClamped(base: seq<int>, lesion: seq<int>): (r: seq<int>)
    requires |base| == |lesion|
    ensures |r| == |base|
  {
    if base == [] then []
    else [Max(base[0] - lesion[0], 0)] + SubtractClamped(base[1..], lesion[1..])
  }

  lemma {:induction false} SubtractClampedAt(base: seq<int>, lesion: seq<int>, i: int)
    requires |base| == |lesion| && 0 <= i < |base|
    ensures SubtractClamped(base, lesion)[i] == Max(base[i] - lesion[i], 0)
  {
    if i > 0 {
      SubtractClampedAt(base[1..], lesion[1..], i - 1);
    }
  }

  /** The voxels of `create_cfm(in_file, lesion_mask, global_mask)`. The base is all ones of the
      input's shape when `global_mask` holds and the input's own data otherwise; a base with a
      value outside {0, 1} is rejected; a lesion is subtracted with negatives clamped to 0. */
  function CreateCfm(inData: seq<int>, lesion: Option<seq<int>>, globalMask: bool): (r: Result<seq<int>, Error>)
    requires lesion.Some? ==> |lesion.value| == |inData|
    ensures r.Err? <==> !globalMask && !IsBinary(inData)
    ensures r.Err? ==> r.error == NonBinaryMask
    ensures r.Ok? ==> |r.value| == |inData|
    ensures globalMask && lesion.None? ==> r == Ok(Ones(|inData|))
    ensures !globalMask && lesion.None? && IsBinary(inData) ==> r == Ok(inData)
  {
    var base := if globalMask then Ones(|inData|) else inData;
    if !IsBinary(base) then Err(NonBinaryMask)
    else match lesion
      case None => Ok(base)
      case Some(l) => Ok(SubtractClamped(base, l))
  }

  /** With a lesion, every voxel of the mask is max(base - lesion, 0): never negative, and when
      the lesion has no negative voxel, never above the base and always 0 or 1. */
  lemma CfmSubtractsLesion(inData: seq<int>, lesion: seq<int>, globalMask: bool)
    requires |lesion| == |inData|
    requires CreateCfm(inData, Some(lesion), globalMask).Ok?
    ensures var base := if globalMask then Ones(|inData|) else inData;
            var r := CreateCfm(inData, Some(lesion), globalMask).value;
            && (forall i :: 0 <= i < |r| ==> r[i] == Max(base[i] - lesion[i], 0) && r[i] >= 0)
            && ((forall i :: 0 <= i < |lesion| ==> lesion[i] >= 0) ==>
                  IsBinary(r) && forall i :: 0 <= i < |r| ==> r[i] <= base[i])
  {
    var base := if globalMask then Ones(|inData|) else inData;
    var r := CreateCfm(inData, Some(lesion), globalMask).value;
    forall i | 0 <= i < |r| ensures r[i] == Max(base[i] - lesion[i], 0) {
      SubtractClampedAt(base, lesion, i);
    }
  }

  /** create_cfm's output path. Without an `out_path` it is fname_presuffix(in_file,
      suffix='_cfm', newpath=os.getcwd()): the input's base name followed by `_cfm` and the
      input's extension, in the working directory. The input name arrives already split into
      base name and extension. */
  function CfmOutPath(inBase: string, inExt: string, outPath: Option<string>, cwd: string): (r: string)
    requires '/' !in inBase
    // the default lands directly in the working directory: the working directory, at most one
    // separator, and the new file name
    ensures outPath.None? ==>
              && |r| >= |cwd|
              && r[..|cwd|] == cwd
              && (r[|cwd|..] == inBase + "_cfm" + inExt || r[|cwd|..] == "/" + inBase + "_cfm" + inExt)
    ensures outPath.Some? && |outPath.value| > 0 && outPath.value[0] == '/' ==> r == outPath.value
  {
    match outPath
    case None => Text.JoinPath(cwd, inBase + "_cfm" + inExt)
    case Some(p) => Text.JoinPath(cwd, p)
  }
}
