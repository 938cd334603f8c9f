/**
 * The stimulus block of 3dDeconvolve: the `num_stimts` branch of
 * `Decon._format_arg`, which is the same code in deconv1.py, modeltestv2.py
 * and modeltest.py. It renders the count flag, then one
 * `-stim_times i file 'model' -stim_label i label` entry per stimulus,
 * built by zipping range(1, N+1) with the three parallel lists.
 */
module Stimulus {
  import opened Wrappers
  import opened Text
  import opened Shell
  import opened Interface

  /** Python's range(lo, hi), as a list. */
  function Range(lo: int, hi: int): (r: seq<int>)
    ensures |r| == if hi <= lo then 0 else hi - lo
    ensures forall i :: 0 <= i < |r| ==> r[i] == lo + i
    decreases hi - lo
  {
    if hi <= lo then [] else [lo] + Range(lo + 1, hi)
  }

  /** The argstr of num_stimts, '-num_stimts %d \\\n', applied to the value. */
  function CountFlag(value: int): string
  {
    "-num_stimts " + Decimal(value) + " \\\n"
  }

  /** '-stim_times %s %s \'%s\' -stim_label %s %s \\\n' applied to the
      tuple (i, file, model, j, label). */
  function Entry(i: int, file: string, model: string, j: int, labelText: string): string
  {
    "-stim_times " + Decimal(i) + " " + file + " '" + model + "' -stim_label " + Decimal(j) + " " + labelText + " \\\n"
  }

  /** The generator over zip(num, sf, sm, num, sl): zip stops at its
      shortest argument, and the one range supplies both indices. */
  function Entries(num: seq<int>, sf: seq<string>, sm: seq<string>, sl: seq<string>): (r: seq<string>)
    ensures |r| == Min(|num|, Min(|sf|, Min(|sm|, |sl|)))
    ensures forall k :: 0 <= k < |r| ==> r[k] == Entry(num[k], sf[k], sm[k], num[k], sl[k])
  {
    if |num| == 0 || |sf| == 0 || |sm| == 0 || |sl| == 0 then []
    else [Entry(num[0], sf[0], sm[0], num[0], sl[0])] + Entries(num[1..], sf[1..], sm[1..], sl[1..])
  }

  /** The num_stimts branch of _format_arg. zip() over a list that was
      never set raises TypeError; the lists are tried in the order zip
      receives them. */
  function Block(inputs: DeconInputs): (r: Result<string, Error>)
    ensures r.Failure? <==> !ListsDefined(inputs)
    ensures r.Success? ==> var head := CountFlag(inputs.numStimts) + " ";
      |head| <= |r.value| && r.value[..|head|] == head
  {
    match (inputs.stimFiles, inputs.models, inputs.labels)
    case (None, _, _) => Failure(NotIterable("stim_files"))
    case (Some(_), None, _) => Failure(NotIterable("models"))
    case (Some(_), Some(_), None) => Failure(NotIterable("labels"))
    case (Some(sf), Some(sm), Some(sl)) =>
      var entries := Entries(Range(1, inputs.numStimts + 1), sf, sm, sl);
      JoinPair(" ", CountFlag(inputs.numStimts), Join(" ", entries));
      Success(Join(" ", [CountFlag(inputs.numStimts), Join(" ", entries)]))
  }

  // ---------------------------------------------------------------------
  // The reference reading: which stimuli the block is meant to describe.

  /** One stimulus: its 1-based index, onset file, response model and label. */
  datatype Stimulus = Stimulus(index: int, file: string, model: string, labelText: string)

  predicate ListsDefined(inputs: DeconInputs)
  {
    inputs.stimFiles.Some? && inputs.models.Some? && inputs.labels.Some?
  }

  /** How many stimuli are described: N, but no more than any list holds. */
  function StimulusCount(inputs: DeconInputs): nat
    requires ListsDefined(inputs)
  {
    var n := if inputs.numStimts < 0 then 0 else inputs.numStimts;
    Min(n, Min(|inputs.stimFiles.value|, Min(|inputs.models.value|, |inputs.labels.value|)))
  }

  /** Stimulus k (from 1) pairs index k with the k-th file, model and label. */
  function Stimuli(inputs: DeconInputs): seq<Stimulus>
    requires ListsDefined(inputs)
  {
    seq(StimulusCount(inputs), k requires 0 <= k < StimulusCount(inputs) =>
      Stimulus(k + 1, inputs.stimFiles.value[k], inputs.models.value[k], inputs.labels.value[k]))
  }

  /** The text of one stimulus's entry, with its index in both places. */
  function EntryText(s: Stimulus): string
  {
    Entry(s.index, s.file, s.model, s.index, s.labelText)
  }

  function EntryTexts(ss: seq<Stimulus>): (r: seq<string>)
  {
    seq(|ss|, k requires 0 <= k < |ss| => EntryText(ss[k]))
  }

  /** The arguments 3dDeconvolve should receive for one stimulus. */
  function StimulusArgs(s: Stimulus): seq<string>
  {
    ["-stim_times", Decimal(s.index), s.file, s.model, "-stim_label", Decimal(s.index), s.labelText]
  }

  /** The arguments for the stimuli, one stimulus after another. */
  function StimuliArgs(ss: seq<Stimulus>): seq<string>
  {
    Flatten(seq(|ss|, k requires 0 <= k < |ss| => StimulusArgs(ss[k])))
  }

  /** Every file and label passes through the shell unchanged, and no model
      contains the single quote that would end its quoting. */
  predicate ShellSafe(inputs: DeconInputs)
    requires ListsDefined(inputs)
  {
    && (forall f :: f in inputs.stimFiles.value ==> PlainWord(f))
    && (forall m :: m in inputs.models.value ==> '\'' !in m)
    && (forall l :: l in inputs.labels.value ==> PlainWord(l))
  }

  // ---------------------------------------------------------------------
  // Properties of the block.

  /** The block raises exactly when one of the three lists was never set,
      naming the first of them in zip's argument order. */
  lemma BlockRaises(inputs: DeconInputs)
    ensures Block(inputs).Failure? <==> !ListsDefined(inputs)
    ensures inputs.stimFiles.None? ==> Block(inputs) == Failure(NotIterable("stim_files"))
    ensures inputs.stimFiles.Some? && inputs.models.None? ==> Block(inputs) == Failure(NotIterable("models"))
    ensures inputs.stimFiles.Some? && inputs.models.Some? && inputs.labels.None?
            ==> Block(inputs) == Failure(NotIterable("labels"))
  {
  }

  /** The block is the count flag, one space, then the entries of the
      stimuli joined by single spaces, in list order: entry k (from 1)
      carries index k in both -stim_times and -stim_label and the k-th file,
      quoted model and label; there are min(N, |files|, |models|, |labels|)
      of them, none when N <= 0. The count clause spells out StimulusCount;
      what a shell makes of the block is stated separately, in BlockWords. */
  lemma BlockLayout(inputs: DeconInputs)
    requires ListsDefined(inputs)
    ensures |Stimuli(inputs)| == Min(if inputs.numStimts < 0 then 0 else inputs.numStimts,
                                     Min(|inputs.stimFiles.value|, Min(|inputs.models.value|, |inputs.labels.value|)))
    ensures Block(inputs) == Success(CountFlag(inputs.numStimts) + " " + Join(" ", EntryTexts(Stimuli(inputs))))
  {
    var entries := Entries(Range(1, inputs.numStimts + 1), inputs.stimFiles.value, inputs.models.value, inputs.labels.value);
    EntriesOfStimuli(inputs);
    JoinPair(" ", CountFlag(inputs.numStimts), Join(" ", entries));
  }

  /** The zipped entries are the entries of the stimuli. */
  lemma EntriesOfStimuli(inputs: DeconInputs)
    requires ListsDefined(inputs)
    ensures Entries(Range(1, inputs.numStimts + 1), inputs.stimFiles.value, inputs.models.value, inputs.labels.value)
      == EntryTexts(Stimuli(inputs))
  {
    var sf, sm, sl := inputs.stimFiles.value, inputs.models.value, inputs.labels.value;
    var num := Range(1, inputs.numStimts + 1);
    var entries := Entries(num, sf, sm, sl);
    var expected := EntryTexts(Stimuli(inputs));
    assert |entries| == |expected|;
    forall k | 0 <= k < |entries|
      ensures entries[k] == expected[k]
    {
      assert num[k] == k + 1;
    }
  }

  /** With no stimuli to describe, the block is the count flag and a
      trailing space. */
  lemma EmptyBlock(inputs: DeconInputs)
    requires ListsDefined(inputs)
    requires inputs.numStimts <= 0 || inputs.stimFiles.value == [] || inputs.models.value == [] || inputs.labels.value == []
    ensures Block(inputs) == Success(CountFlag(inputs.numStimts) + " ")
  {
    BlockLayout(inputs);
    assert EntryTexts(Stimuli(inputs)) == [];
    assert Join(" ", []) == "";
    assert CountFlag(inputs.numStimts) + " " + "" == CountFlag(inputs.numStimts) + " ";
  }

  /** Seven words, the fourth single-quoted, each followed by one space,
      then a line continuation: the shell passes on the seven words. */
  lemma {:induction false} SevenWords(a: string, b: string, c: string, m: string, e: string, f: string, g: string, t: string)
    requires PlainWord(a) && PlainWord(b) && PlainWord(c) && PlainWord(e) && PlainWord(f) && PlainWord(g)
    requires '\'' !in m
    ensures Words(a + (" " + (b + (" " + (c + (" " + ("'" + m + "'" + (" " + (e + (" " + (f + (" " + (g + (" " + ("\\\n" + t)))))))))))))))
         == [a, b, c, m, e, f, g] + Words(t)
  {
    var r7 := "\\\n" + t;
    WordsContinuation(t);
    var r6 := g + (" " + r7);
    WordThen(g, r7);
    var r5 := f + (" " + r6);
    WordThen(f, r6);
    var r4 := e + (" " + r5);
    WordThen(e, r5);
    var r3 := "'" + m + "'" + (" " + r4);
    QuotedThen(m, r4);
    var r2 := c + (" " + r3);
    WordThen(c, r3);
    var r1 := b + (" " + r2);
    WordThen(b, r2);
    WordThen(a, r1);
  }

  /** An entry followed by t, grouped word by word. */
  lemma EntrySpelling(d: string, file: string, model: string, labelText: string, t: string)
    ensures "-stim_times " + d + " " + file + " '" + model + "' -stim_label " + d + " " + labelText + " \\\n" + t
      == "-stim_times" + (" " + (d + (" " + (file + (" " + ("'" + model + "'" + (" " + ("-stim_label"
         + (" " + (d + (" " + (labelText + (" " + ("\\\n" + t))))))))))))))
  {
  }

  /** What the shell makes of one entry followed by anything: the seven
      arguments of that stimulus, then whatever follows. */
  lemma EntryWords(s: Stimulus, t: string)
    requires PlainWord(s.file) && PlainWord(s.labelText) && '\'' !in s.model
    ensures Words(EntryText(s) + t) == StimulusArgs(s) + Words(t)
  {
    var d := Decimal(s.index);
    DecimalPlain(s.index);
    EntrySpelling(d, s.file, s.model, s.labelText, t);
    FlagsPlain();
    SevenWords("-stim_times", d, s.file, s.model, "-stim_label", d, s.labelText, t);
  }

  /** What the shell makes of the joined entries: the stimuli's arguments, in order. */
  lemma JoinedEntriesWords(ss: seq<Stimulus>)
    requires forall s :: s in ss ==> PlainWord(s.file) && PlainWord(s.labelText) && '\'' !in s.model
    ensures Words(Join(" ", EntryTexts(ss))) == StimuliArgs(ss)
  {
    var es := EntryTexts(ss);
    var args := seq(|ss|, k requires 0 <= k < |ss| => StimulusArgs(ss[k]));
    forall k, t | 0 <= k < |es|
      ensures Words(es[k] + t) == args[k] + Words(t)
    {
      EntryWords(ss[k], t);
    }
    JoinedWords(es, args);
  }

  /** The argument vector 3dDeconvolve receives from the block, when every
      file and label is a plain word and no model holds a single quote: the
      count flag and N, then for stimulus k (from 1) the seven arguments
      -stim_times k file_k model_k -stim_label k label_k, in list order,
      for min(N, |files|, |models|, |labels|) stimuli. */
  lemma BlockWords(inputs: DeconInputs)
    requires ListsDefined(inputs) && ShellSafe(inputs)
    ensures Block(inputs).Success?
    ensures Words(Block(inputs).value) == ["-num_stimts", Decimal(inputs.numStimts)] + StimuliArgs(Stimuli(inputs))
  {
    BlockLayout(inputs);
    var ss := Stimuli(inputs);
    forall s | s in ss
      ensures PlainWord(s.file) && PlainWord(s.labelText) && '\'' !in s.model
    {
      var k :| 0 <= k < |ss| && ss[k] == s;
      assert inputs.stimFiles.value[k] in inputs.stimFiles.value;
      assert inputs.models.value[k] in inputs.models.value;
      assert inputs.labels.value[k] in inputs.labels.value;
    }
    JoinedEntriesWords(ss);
    CountFlagWords(inputs.numStimts, Join(" ", EntryTexts(ss)));
  }

  /** The count flag, a space, then anything: the shell reads -num_stimts
      and the count, then whatever follows. */
  lemma CountFlagWords(value: int, t: string)
    ensures Words(CountFlag(value) + " " + t) == ["-num_stimts", Decimal(value)] + Words(t)
  {
    var d := Decimal(value);
    DecimalPlain(value);
    CountFlagSpelling(d, t);
    FlagsPlain();
    WordThen("-num_stimts", d + (" " + ("\\\n" + (" " + t))));
    WordThen(d, "\\\n" + (" " + t));
    WordsContinuation(" " + t);
    WordsBlank(t);
  }

  lemma CountFlagSpelling(d: string, t: string)
    ensures "-num_stimts " + d + " \\\n" + " " + t == "-num_stimts" + (" " + (d + (" " + ("\\\n" + (" " + t)))))
  {
  }
}
