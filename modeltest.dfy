/**
 * modeltest.py: the earliest 3dDeconvolve `Decon` variant. Its only
 * special input is num_stimts, and its `_parse_inputs` always passes the
 * fixed tuple of the three stimulus lists, ignoring the caller's.
 */
module ModelTest {
  import opened Wrappers
  import opened Interface
  import opened Stimulus
  import opened Skip
  import Deconv1

  /** Decon._format_arg of this variant: the stimulus block under
      num_stimts, the superclass for everything else. */
  function FormatArg(inputs: DeconInputs, name: string): (r: Formatted)
    ensures r.Superclass? <==> name != "num_stimts"
    ensures name == "num_stimts" ==> (r.Raised? <==> !ListsDefined(inputs))
    ensures name == "num_stimts" && ListsDefined(inputs) ==> r == Arg(Block(inputs).value)
  {
    if name == "num_stimts" then
      match Block(inputs)
      case Success(arg) => Arg(arg)
      case Failure(e) => Raised(e)
    else Superclass
  }

  /** Decon._parse_inputs of this variant: the tuple of the three stimulus
      lists, whatever the caller passed. */
  function ParseInputs(skip: Option<seq<string>>): (r: seq<string>)
    ensures forall n :: n in r <==> n in {"stim_files", "labels", "models"}
    ensures |r| == 3
  {
    StimulusLists
  }

  /** The fixed tuple is what deconv1.py would pass for a caller that
      passed nothing and an unset no_bucket; the caller's list never
      matters. */
  lemma ParseInputsIgnoresCaller(skip: Option<seq<string>>, other: Option<seq<string>>)
    ensures ParseInputs(skip) == ParseInputs(other) == SkipNames([], false)
  {
  }

  /** The stimulus block is the one deconv1.py renders. */
  lemma BlockAsDeconv1(inputs: DeconInputs, split: Splitter)
    ensures FormatArg(inputs, "num_stimts") == Deconv1.FormatArg(inputs, split, "num_stimts")
  {
  }
}
