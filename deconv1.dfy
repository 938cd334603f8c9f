/**
 * deconv1.py: the 3dDeconvolve interface `Decon`, the canonical variant.
 * Its overrides render the design-matrix and bucket names from derived
 * file names, render the whole stimulus block under num_stimts, and
 * withhold the stimulus lists (and the bucket, under no_bucket) from the
 * generic formatting.
 */
module Deconv1 {
  import opened Wrappers
  import opened Text
  import opened Interface
  import opened FileNames
  import opened Stimulus
  import opened Skip

  /** The argstr of out_xmat, '-x1D %s \n', applied to a name. */
  function XmatArg(name: string): string
  {
    "-x1D " + name + " \n"
  }

  /** The argstr of out_file, '-bucket %s \\\n', applied to a name. */
  function BucketArg(name: string): string
  {
    "-bucket " + name + " \\\n"
  }

  /** Decon._gen_filename: a name for out_xmat and out_file, None for any
      other input. */
  function GenFilename(inputs: DeconInputs, split: Splitter, name: string): (r: Option<string>)
    ensures r.Some? <==> name == "out_xmat" || name == "out_file"
    ensures name == "out_xmat" ==>
      var base := split(inputs.outXmat).base;
      EndsWith(r.value, "xmat.1D") && |base| <= |r.value| && r.value[..|base|] == base
    ensures name == "out_file" ==> StripSuffix(r.value, StatsSuffix) == Some(split(inputs.outFile).base)
  {
    if name == "out_xmat" then
      var base := split(inputs.outXmat).base;
      XmatNameShape(base);
      Some(XmatName(base))
    else if name == "out_file" then
      var base := split(inputs.outFile).base;
      StatsNameInverse(base);
      Some(StatsName(base))
    else None
  }

  /** Decon._format_arg: out_xmat is always rendered from the derived name,
      out_file from the derived name unless no_bucket is set, num_stimts as
      the whole stimulus block; everything else goes to the superclass. */
  function FormatArg(inputs: DeconInputs, split: Splitter, name: string): (r: Formatted)
    ensures r.Superclass? <==> name != "out_xmat" && name != "num_stimts" && (name != "out_file" || inputs.noBucket)
    ensures name == "out_xmat" ==> r == Arg(XmatArg(GenFilename(inputs, split, "out_xmat").value))
    ensures name == "out_file" && !inputs.noBucket ==> r == Arg(BucketArg(GenFilename(inputs, split, "out_file").value))
    ensures name == "num_stimts" ==> (r.Raised? <==> !ListsDefined(inputs))
    ensures name == "num_stimts" && ListsDefined(inputs) ==> r == Arg(Block(inputs).value)
  {
    if name == "out_xmat" then
      var xmat := GenFilename(inputs, split, "out_xmat");
      Arg(XmatArg(xmat.value))
    else if name == "out_file" && !inputs.noBucket then
      var bucket := GenFilename(inputs, split, "out_file");
      Arg(BucketArg(bucket.value))
    else if name == "num_stimts" then
      match Block(inputs)
      case Success(arg) => Arg(arg)
      case Failure(e) => Raised(e)
    else Superclass
  }

  /** Decon._parse_inputs: extends the caller's list (or a fresh one when
      the caller passed None) with the stimulus lists, and with out_file
      when no_bucket is set, and hands that list to the superclass. */
  method ParseInputs(inputs: DeconInputs, skip: NameList?) returns (passed: NameList)
    modifies skip
    ensures skip != null ==> passed == skip
    ensures skip == null ==> fresh(passed)
    ensures passed.items == SkipNames(if skip == null then [] else old(skip.items), inputs.noBucket)
  {
    if skip == null {
      passed := new NameList([]);
    } else {
      passed := skip;
    }
    Extend(passed, StimulusLists);
    if inputs.noBucket {
      Extend(passed, ["out_file"]);
    }
  }

  /** The derived design-matrix name is the base name plus '.1D' when the
      base ends in 'xmat' and plus '.xmat.1D' otherwise; either way it ends
      in '.1D', and it has no directory part when the base has none,
      whatever directory the raw value named. */
  lemma XmatFilename(inputs: DeconInputs, split: Splitter)
    ensures var base := split(inputs.outXmat).base;
      GenFilename(inputs, split, "out_xmat")
        == Some(if EndsWith(base, "xmat") then base + ".1D" else base + ".xmat.1D")
    ensures EndsWith(GenFilename(inputs, split, "out_xmat").value, ".1D")
    ensures '/' !in split(inputs.outXmat).base ==> '/' !in GenFilename(inputs, split, "out_xmat").value
  {
    var base := split(inputs.outXmat).base;
    XmatNameShape(base);
    var r := XmatName(base);
    assert r[|r| - 3..] == r[|r| - 7..][4..];
  }

  /** The derived bucket name is the base name plus '_stats.nii.gz', and
      the bucket argument is '-bucket <that name> \\\n' whenever no_bucket
      is unset. */
  lemma BucketArgument(inputs: DeconInputs, split: Splitter)
    requires !inputs.noBucket
    ensures FormatArg(inputs, split, "out_file") == Arg("-bucket " + split(inputs.outFile).base + "_stats.nii.gz \\\n")
  {
    var base := split(inputs.outFile).base;
    assert BucketArg(StatsName(base)) == "-bucket " + base + "_stats.nii.gz \\\n";
  }

  /** With no_bucket set, out_file is withheld from the generic formatting
      whatever the caller's list held, and the override itself renders no
      bucket argument for it. */
  lemma NoBucketWithholdsBucket(inputs: DeconInputs, split: Splitter, callerSkip: seq<string>)
    requires inputs.noBucket
    ensures "out_file" in SkipNames(callerSkip, inputs.noBucket)
    ensures FormatArg(inputs, split, "out_file") == Superclass
  {
  }
}
