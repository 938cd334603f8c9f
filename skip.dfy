/**
 * The skip rules of `_parse_inputs`: the names of inputs withheld from the
 * generic formatting of CommandLine._parse_inputs.
 */
module Skip {

  /** The three parallel stimulus lists, which have no argstr of their own. */
  const StimulusLists: seq<string> := ["stim_files", "labels", "models"]

  /** A Python list of input names; `_parse_inputs` extends the list object
      it was given, so the caller's list changes too. */
  class NameList {
    var items: seq<string>

    constructor (items: seq<string>)
      ensures this.items == items
    {
      this.items := items;
    }
  }

  /** list += names, in place. */
  method Extend(list: NameList, names: seq<string>)
    modifies list
    ensures list.items == old(list.items) + names
  {
    list.items := list.items + names;
  }

  /** The names `_parse_inputs` hands to the superclass: the caller's names,
      then the three stimulus lists, then out_file when no_bucket is set. */
  function SkipNames(callerSkip: seq<string>, noBucket: bool): (r: seq<string>)
    ensures |callerSkip| <= |r| && r[..|callerSkip|] == callerSkip
    ensures forall n :: n in r <==> n in callerSkip || n in StimulusLists || (noBucket && n == "out_file")
    ensures "out_file" in r <==> noBucket || "out_file" in callerSkip
  {
    callerSkip + StimulusLists + (if noBucket then ["out_file"] else [])
  }
}
