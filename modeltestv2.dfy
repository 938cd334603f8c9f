/**
 * modeltestv2.py: a 3dDeconvolve `Decon` variant. It differs from
 * deconv1.py in one branch of `_format_arg`: with no_bucket set, the
 * no_bucket input itself renders as its argstr '-nobucket'.
 */
module ModelTestV2 {
  import opened Wrappers
  import opened Text
  import opened Interface
  import opened FileNames
  import opened Stimulus
  import opened Skip
  import Deconv1

  /** The argstr of no_bucket. */
  const NoBucketArgstr: string := "-nobucket"

  /** Decon._gen_filename: the same code as deconv1.py's. */
  function GenFilename(inputs: DeconInputs, split: Splitter, name: string): (r: Option<string>)
    ensures r.Some? <==> name == "out_xmat" || name == "out_file"
    ensures name == "out_xmat" ==>
      var base := split(inputs.outXmat).base;
      EndsWith(r.value, "xmat.1D") && |base| <= |r.value| && r.value[..|base|] == base
    ensures name == "out_file" ==> StripSuffix(r.value, StatsSuffix) == Some(split(inputs.outFile).base)
  {
    Deconv1.GenFilename(inputs, split, name)
  }

  /** Decon._format_arg of this variant: as deconv1.py, plus no_bucket
      rendering as '-nobucket' when it is set. */
  function FormatArg(inputs: DeconInputs, split: Splitter, name: string): (r: Formatted)
    ensures r.Superclass? <==>
      && name != "out_xmat" && name != "num_stimts"
      && (name != "out_file" || inputs.noBucket)
      && (name != "no_bucket" || !inputs.noBucket)
    ensures name == "no_bucket" && inputs.noBucket ==> r == Arg(NoBucketArgstr)
    ensures name == "out_xmat" ==> r == Arg(Deconv1.XmatArg(GenFilename(inputs, split, "out_xmat").value))
    ensures name == "out_file" && !inputs.noBucket ==> r == Arg(Deconv1.BucketArg(GenFilename(inputs, split, "out_file").value))
    ensures name == "num_stimts" ==> (r.Raised? <==> !ListsDefined(inputs))
  {
    if name == "out_xmat" then
      var xmat := GenFilename(inputs, split, "out_xmat");
      Arg(Deconv1.XmatArg(xmat.value))
    else if name == "no_bucket" && inputs.noBucket then
      Arg(NoBucketArgstr)
    else if name == "out_file" && !inputs.noBucket then
      var bucket := GenFilename(inputs, split, "out_file");
      Arg(Deconv1.BucketArg(bucket.value))
    else if name == "num_stimts" then
      match Block(inputs)
      case Success(arg) => Arg(arg)
      case Failure(e) => Raised(e)
    else Superclass
  }

  /** Decon._parse_inputs: the same code as deconv1.py's. The caller's list
      (or a fresh one) is extended in place with the stimulus lists, and with
      out_file when no_bucket is set. */
  method ParseInputs(inputs: DeconInputs, skip: NameList?) returns (passed: NameList)
    modifies skip
    ensures skip != null ==> passed == skip
    ensures skip == null ==> fresh(passed)
    ensures passed.items == SkipNames(if skip == null then [] else old(skip.items), inputs.noBucket)
  {
    passed := Deconv1.ParseInputs(inputs, skip);
  }

  /** This variant names files exactly as deconv1.py does, and formats
      every input as deconv1.py does except no_bucket when it is set. */
  lemma AgreesWithDeconv1(inputs: DeconInputs, split: Splitter, name: string)
    ensures GenFilename(inputs, split, name) == Deconv1.GenFilename(inputs, split, name)
    ensures name != "no_bucket" || !inputs.noBucket ==>
      FormatArg(inputs, split, name) == Deconv1.FormatArg(inputs, split, name)
    ensures name == "no_bucket" && inputs.noBucket ==>
      FormatArg(inputs, split, name) == Arg("-nobucket") && Deconv1.FormatArg(inputs, split, name) == Superclass
  {
  }

  /** With no_bucket set, the bucket never reaches the command line through
      this override: out_file is withheld from formatting, its own branch
      hands it to the superclass, and the only bucket-related argument is
      '-nobucket'. Without it, out_file renders as
      '-bucket <base>_stats.nii.gz \\\n'. */
  lemma BucketRules(inputs: DeconInputs, split: Splitter, callerSkip: seq<string>)
    ensures inputs.noBucket ==>
      && "out_file" in SkipNames(callerSkip, inputs.noBucket)
      && FormatArg(inputs, split, "out_file") == Superclass
      && FormatArg(inputs, split, "no_bucket") == Arg("-nobucket")
    ensures !inputs.noBucket ==>
      && FormatArg(inputs, split, "out_file") == Arg("-bucket " + split(inputs.outFile).base + "_stats.nii.gz \\\n")
      && FormatArg(inputs, split, "no_bucket") == Superclass
  {
    var base := split(inputs.outFile).base;
    assert Deconv1.BucketArg(StatsName(base)) == "-bucket " + base + "_stats.nii.gz \\\n";
  }
}
