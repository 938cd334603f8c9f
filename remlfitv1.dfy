/**
 * remlfitv1.py: the 3dREMLfit interface `REMLfit`. Its overrides render
 * the output bucket from a derived name and the symbolic general linear
 * tests as one `-gltsym 'SYM: expr' label` entry per (contrast, label)
 * pair; every other input goes to the superclass.
 */
module RemlFitV1 {
  import opened Wrappers
  import opened Text
  import opened Shell
  import opened Interface
  import opened FileNames

  /** The argstr of out_file, '-Rbuck %s \\\n', applied to a name. */
  function RbuckArg(name: string): string
  {
    "-Rbuck " + name + " \\\n"
  }

  /** '-gltsym \'SYM: %s\' %s \\\n' applied to a (contrast, label) pair. */
  function GltEntry(glt: string, labelText: string): string
  {
    "-gltsym 'SYM: " + glt + "' " + labelText + " \\\n"
  }

  /** The generator over zip(sg, sl): one entry per pair, stopping at the
      shorter list. */
  function GltEntries(sg: seq<string>, sl: seq<string>): (r: seq<string>)
    ensures |r| == Min(|sg|, |sl|)
    ensures forall i :: 0 <= i < |r| ==> r[i] == GltEntry(sg[i], sl[i])
  {
    if |sg| == 0 || |sl| == 0 then []
    else [GltEntry(sg[0], sl[0])] + GltEntries(sg[1..], sl[1..])
  }

  /** The glt branch of _format_arg: the entries joined by single spaces,
      with no count in front. zip() over a list that was never set raises
      TypeError. */
  function GltBlock(inputs: RemlInputs): (r: Result<string, Error>)
    ensures r.Failure? <==> inputs.glt.None? || inputs.labels.None?
    ensures r.Failure? ==> r.error == NotIterable(if inputs.glt.None? then "glt" else "labels")
  {
    match (inputs.glt, inputs.labels)
    case (None, _) => Failure(NotIterable("glt"))
    case (Some(_), None) => Failure(NotIterable("labels"))
    case (Some(sg), Some(sl)) => Success(Join(" ", GltEntries(sg, sl)))
  }

  /** REMLfit._gen_filename: a name for out_file only. */
  function GenFilename(inputs: RemlInputs, split: Splitter, name: string): (r: Option<string>)
    ensures r.Some? <==> name == "out_file"
    ensures name == "out_file" ==> StripSuffix(r.value, RemlSuffix) == Some(split(inputs.outFile).base)
  {
    if name == "out_file" then
      var base := split(inputs.outFile).base;
      RemlNameInverse(base);
      Some(RemlName(base))
    else None
  }

  /** REMLfit._format_arg: out_file and glt are rendered here; every other
      input, out_var and out_beta included, goes to the superclass. */
  function FormatArg(inputs: RemlInputs, split: Splitter, name: string): (r: Formatted)
    ensures r.Superclass? <==> name != "out_file" && name != "glt"
    ensures name == "out_file" ==> r == Arg(RbuckArg(GenFilename(inputs, split, "out_file").value))
    ensures name == "glt" ==> (r.Raised? <==> inputs.glt.None? || inputs.labels.None?)
    ensures name == "glt" && inputs.glt.Some? && inputs.labels.Some? ==> r == Arg(GltBlock(inputs).value)
  {
    if name == "out_file" then
      var bucket := GenFilename(inputs, split, "out_file");
      Arg(RbuckArg(bucket.value))
    else if name == "glt" then
      match GltBlock(inputs)
      case Success(arg) => Arg(arg)
      case Failure(e) => Raised(e)
    else Superclass
  }

  /** The bucket argument is '-Rbuck <base>_REML.nii.gz \\\n', whatever
      directory or extension the raw out_file value had. */
  lemma RbuckArgument(inputs: RemlInputs, split: Splitter)
    ensures FormatArg(inputs, split, "out_file") == Arg("-Rbuck " + split(inputs.outFile).base + "_REML.nii.gz \\\n")
  {
    var base := split(inputs.outFile).base;
    assert RbuckArg(RemlName(base)) == "-Rbuck " + base + "_REML.nii.gz \\\n";
  }

  /** The glt block is the entries for min(|glt|, |labels|) pairs, in input
      order, joined by single spaces; the i-th binds the i-th contrast to
      the i-th label. This lifts GltEntries' own contract to the block; what
      a shell makes of the block is stated separately, in GltWords. */
  lemma GltLayout(inputs: RemlInputs)
    requires inputs.glt.Some? && inputs.labels.Some?
    ensures var sg, sl := inputs.glt.value, inputs.labels.value;
      GltBlock(inputs) == Success(Join(" ", seq(Min(|sg|, |sl|), i requires 0 <= i < Min(|sg|, |sl|) => GltEntry(sg[i], sl[i]))))
  {
    var sg, sl := inputs.glt.value, inputs.labels.value;
    assert GltEntries(sg, sl) == seq(Min(|sg|, |sl|), i requires 0 <= i < Min(|sg|, |sl|) => GltEntry(sg[i], sl[i]));
  }

  /** An empty glt or labels list gives the empty string. */
  lemma GltEmpty(inputs: RemlInputs)
    requires inputs.glt.Some? && inputs.labels.Some?
    requires inputs.glt.value == [] || inputs.labels.value == []
    ensures GltBlock(inputs) == Success("")
  {
  }

  /** The arguments 3dREMLfit should receive for one test. */
  function GltArgs(glt: string, labelText: string): seq<string>
  {
    ["-gltsym", "SYM: " + glt, labelText]
  }

  lemma GltEntrySpelling(glt: string, labelText: string, t: string)
    ensures GltEntry(glt, labelText) + t
      == "-gltsym" + (" " + ("'" + ("SYM: " + glt) + "'" + (" " + (labelText + (" " + ("\\\n" + t))))))
  {
  }

  /** What the shell makes of one entry followed by anything. */
  lemma GltEntryWords(glt: string, labelText: string, t: string)
    requires '\'' !in glt && PlainWord(labelText)
    ensures Words(GltEntry(glt, labelText) + t) == GltArgs(glt, labelText) + Words(t)
  {
    GltEntrySpelling(glt, labelText, t);
    WordsContinuation(t);
    WordThen(labelText, "\\\n" + t);
    assert '\'' !in "SYM: " + glt;
    QuotedThen("SYM: " + glt, labelText + (" " + ("\\\n" + t)));
    FlagsPlain();
    WordThen("-gltsym", "'" + ("SYM: " + glt) + "'" + (" " + (labelText + (" " + ("\\\n" + t)))));
  }

  /** The argument vector 3dREMLfit receives from the glt block, when no
      contrast holds a single quote and every label is a plain word: for
      each pair in input order, -gltsym, then 'SYM: ' and the contrast as
      one argument, then the label. */
  lemma GltWords(inputs: RemlInputs)
    requires inputs.glt.Some? && inputs.labels.Some?
    requires forall g :: g in inputs.glt.value ==> '\'' !in g
    requires forall l :: l in inputs.labels.value ==> PlainWord(l)
    ensures var sg, sl := inputs.glt.value, inputs.labels.value;
      Words(GltBlock(inputs).value)
        == Flatten(seq(Min(|sg|, |sl|), i requires 0 <= i < Min(|sg|, |sl|) => GltArgs(sg[i], sl[i])))
  {
    var sg, sl := inputs.glt.value, inputs.labels.value;
    var es := GltEntries(sg, sl);
    var args := seq(Min(|sg|, |sl|), i requires 0 <= i < Min(|sg|, |sl|) => GltArgs(sg[i], sl[i]));
    forall i, t | 0 <= i < |es|
      ensures Words(es[i] + t) == args[i] + Words(t)
    {
      assert sg[i] in sg && sl[i] in sl;
      GltEntryWords(sg[i], sl[i], t);
    }
    JoinedWords(es, args);
  }
}
