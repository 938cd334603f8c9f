# afnidev_nipype command-line builders, in Dafny

This project models the code that the afnidev_nipype interfaces write
themselves. They are nipype `CommandLine` subclasses wrapping the AFNI
programs 3dDeconvolve (`Decon`) and 3dREMLfit (`REMLfit`). Three
overrides make up that code:

- `_format_arg` renders an input as command-line text. Inputs it does not
  handle go to `CommandLine._format_arg`.
- `_gen_filename` derives output file names.
- `_parse_inputs` chooses which inputs are withheld from generic formatting.

Five files carry variants of these overrides:

- deconv1.py holds the canonical `Decon`.
- modeltestv2.py is `Decon` plus a `-nobucket` branch.
- modeltest.py is an earlier `Decon`: only the stimulus block is special, and its skip tuple is fixed.
- remlfitv1.py holds `REMLfit`, with the `-gltsym` block and the `-Rbuck` bucket.
- drafts.py holds a loop-based `Decon` stimulus block.

Layout (one module per file):

- `Interface`:
  - the read-only input records `DeconInputs` and `RemlInputs`. A list nipype
    leaves Undefined is `None`.
  - the `_format_arg` outcome `Formatted`: argument text, delegation to the
    superclass, or a raised exception.
  - `split_filename`, taken as a function parameter (`Splitter`).
- `Text`:
  - `%d` rendering (`Decimal`), with its parse-back inverse.
  - `str.join` (`Join`).
- `Shell`: the reference reading of the produced text. This is the argument
  vector a POSIX shell hands the program for the first command of the text,
  given blanks, backslash-newline continuations, backslash escapes and single
  quotes. An unquoted newline ends that command.
- `Stimulus`: the `num_stimts` block shared by deconv1.py, modeltestv2.py and
  modeltest.py. Beside it is the reference description of the stimuli it is
  meant to pass.
- `FileNames`: the suffix rules of `_gen_filename`.
- `Skip`: the skip list of `_parse_inputs`. The caller's Python list is
  extended in place, so it is a class (`NameList`) whose `items` the methods
  reassign.
- `Deconv1`, `ModelTestV2`, `ModelTest`, `RemlFitV1`, `Drafts`: each file's
  overrides.

The imperative pieces keep their form:

- `_parse_inputs` in deconv1.py and modeltestv2.py mutates its argument
  (`Deconv1.ParseInputs`, `ModelTestV2.ParseInputs`).
- The drafts.py loop appends to a string with `+=`. It is a `while` loop
  (`Drafts.FormatStimuli`), proved equal to the recursive `Drafts.Draft`.
  One pass of its body is the method `Drafts.Iteration`, which appends the
  three parts in turn.

## Model

| member | source | states |
|---|---|---|
| Stimulus.Range | deconv1.py:209 | range(1, N+1) has max(N, 0) elements, and element i is i+1 |
| Stimulus.Entries | deconv1.py:213 | zip stops at its shortest argument. Entry k carries the k-th index in both -stim_times and -stim_label, plus the k-th file, quoted model and label |
| Stimulus.Block | deconv1.py:205-215 | the num_stimts branch fails exactly when a list is Undefined, and otherwise starts with '-num_stimts N \\\n' and one space |
| Stimulus.BlockRaises | deconv1.py:208-213 | the block raises exactly when a list is Undefined. The error names the first Undefined list in zip's argument order |
| Stimulus.BlockLayout | deconv1.py:205-215 | the block is '-num_stimts N \\\n', one space, then the stimuli's entries joined by single spaces in list order. Their number is min(max(N,0), len(stim_files), len(models), len(labels)) |
| Stimulus.EntriesOfStimuli | deconv1.py:209-213 | the zipped entries are exactly the entries of stimuli 1..count, in order |
| Stimulus.EmptyBlock | deconv1.py:206-214 | with N <= 0 or an empty list, the block is the count flag plus a trailing space |
| Stimulus.EntryWords | deconv1.py:213 | the shell reads one entry as the seven arguments -stim_times k file model -stim_label k label |
| Stimulus.CountFlagWords | deconv1.py:206 | the shell reads the count flag as -num_stimts and N, and the line continuation is dropped |
| Stimulus.BlockWords | deconv1.py:205-215 | for shell-safe files, models and labels, 3dDeconvolve receives -num_stimts N, then the seven arguments of each stimulus in order |
| Text.Decimal | deconv1.py:206 | the %d rendering is non-empty and holds only digits and '-' |
| Text.DecimalRoundTrip | deconv1.py:206 | the %d rendering of any integer reads back as that integer |
| FileNames.XmatName | deconv1.py:223-227 | the design-matrix name starts with the base and ends in '.1D' |
| FileNames.StatsName | deconv1.py:231-232 | the bucket name is exactly the base followed by '_stats.nii.gz' |
| FileNames.RemlName | remlfitv1.py:219-220 | the REML bucket name is exactly the base followed by '_REML.nii.gz' |
| FileNames.XmatNameShape | deconv1.py:222-227 | the xmat name starts with the base and ends in 'xmat.1D'. It is base+'.1D' iff the base ends in 'xmat', and base+'.xmat.1D' iff not. It holds '/' iff the base does |
| FileNames.XmatNameStable | deconv1.py:223-226 | deriving again from a derived xmat name, after its .1D extension is removed, gives the same name |
| FileNames.StatsNameInverse | deconv1.py:231-232 | the bucket name is base+'_stats.nii.gz'. Stripping that suffix recovers the base |
| FileNames.RemlNameInverse | remlfitv1.py:219-220 | the REML bucket name is base+'_REML.nii.gz'. Stripping that suffix recovers the base |
| Skip.Extend | deconv1.py:241 | `+=` on the list object: the new items are the old items followed by the names |
| Skip.SkipNames | deconv1.py:239-245 | the caller's names stay as a prefix. Every stimulus list is in the result. out_file is in it iff no_bucket holds or the caller listed it |
| Deconv1.GenFilename | deconv1.py:219-235 | returns a name exactly for out_xmat and out_file, None otherwise. The xmat name starts with the base and ends in 'xmat.1D'. The bucket name strips back to the base |
| Deconv1.FormatArg | deconv1.py:195-217 | out_xmat renders '-x1D <derived> \n'. out_file renders '-bucket <derived> \\\n' unless no_bucket is set. num_stimts raises iff a list is Undefined, and otherwise renders the block. Exactly the other names go to the superclass |
| Deconv1.ParseInputs | deconv1.py:237-247 | extends the caller's own list, or a fresh one for None. The list ends as the caller's names + the stimulus lists + out_file when no_bucket is set |
| Deconv1.XmatFilename | deconv1.py:220-227 | the derived out_xmat is base+'.1D' if the base ends in 'xmat', else base+'.xmat.1D'. It ends in '.1D', and it has no directory part when the base has none |
| Deconv1.BucketArgument | deconv1.py:201-203 | with no_bucket unset, out_file renders '-bucket <base>_stats.nii.gz \\\n', whatever the raw directory or extension |
| Deconv1.NoBucketWithholdsBucket | deconv1.py:244-245 | with no_bucket set, out_file is skipped and the override gives it to the superclass |
| ModelTestV2.GenFilename | modeltestv2.py:255-274 | as deconv1.py: names for out_xmat and out_file only, with the same suffix rules |
| ModelTestV2.FormatArg | modeltestv2.py:206-249 | no_bucket, when set, renders exactly '-nobucket'. out_xmat always renders from the derived name. out_file renders from the derived name when no_bucket is unset. num_stimts raises iff a list is Undefined. Exactly the other names go to the superclass |
| ModelTestV2.ParseInputs | modeltestv2.py:276-286 | the caller's list, or a fresh one, extended in place with the stimulus lists, and with out_file iff no_bucket holds |
| ModelTestV2.AgreesWithDeconv1 | modeltestv2.py:206-274 | the file names match deconv1.py for every name. Formatting matches for every input except a set no_bucket, which renders '-nobucket' where deconv1.py delegates |
| ModelTestV2.BucketRules | modeltestv2.py:212-217 | with no_bucket set: out_file is skipped and delegated, and no_bucket renders '-nobucket'. Without it: out_file renders '-bucket <base>_stats.nii.gz \\\n', and no_bucket is delegated |
| ModelTest.FormatArg | modeltest.py:187-222 | only num_stimts is handled: it raises iff a list is Undefined and otherwise renders the block. Every other name goes to the superclass |
| ModelTest.ParseInputs | modeltest.py:229-233 | the skip names are exactly stim_files, labels and models, whatever the caller passed |
| ModelTest.ParseInputsIgnoresCaller | modeltest.py:232-233 | any two caller arguments give the same tuple, which is deconv1.py's list for an empty caller list and no_bucket unset |
| ModelTest.BlockAsDeconv1 | modeltest.py:209-220 | the stimulus block is identical to deconv1.py's |
| RemlFitV1.GltEntries | remlfitv1.py:202 | there are min(len(glt), len(labels)) entries, and entry i is "-gltsym 'SYM: glt[i]' labels[i] \\\n" |
| RemlFitV1.GltBlock | remlfitv1.py:197-203 | the glt branch fails exactly when glt or labels is Undefined, naming glt first |
| RemlFitV1.GenFilename | remlfitv1.py:207-223 | returns a name exactly for out_file, None otherwise. The name strips back to the base via '_REML.nii.gz' |
| RemlFitV1.FormatArg | remlfitv1.py:187-205 | out_file renders '-Rbuck <derived>'. glt raises iff glt or labels is Undefined, and otherwise renders the glt block. Exactly the other names go to the superclass (out_var and out_beta included) |
| RemlFitV1.RbuckArgument | remlfitv1.py:193-195 | out_file renders '-Rbuck <base>_REML.nii.gz \\\n' |
| RemlFitV1.GltLayout | remlfitv1.py:197-203 | the glt block is the min(len(glt), len(labels)) entries in input order, joined by single spaces, with no count prefix |
| RemlFitV1.GltEmpty | remlfitv1.py:202 | an empty glt or labels list gives the empty string |
| RemlFitV1.GltWords | remlfitv1.py:202 | for quote-free contrasts and plain labels, 3dREMLfit receives -gltsym, 'SYM: <contrast>' as one argument, then the label, for each pair in order |
| Drafts.Draft | drafts.py:259-272 | the block fails exactly when some defined list is shorter than num_stimts, at index Reach, the first iteration that indexes past a list. On success it starts with '-num_stimts N' |
| Drafts.FormatStimuli | drafts.py:259-272 | the loop's result equals Draft. That is either the count flag followed by each iteration's parts, or the IndexError of the first list indexed past its end |
| Drafts.Iteration | drafts.py:263-270 | one pass of the loop body succeeds iff every defined list has an item i. It then appends exactly that iteration's piece. Otherwise it raises IndexError for the first list, in body order, that holds exactly i items |
| Drafts.FormatArg | drafts.py:256-273 | num_stimts gives the loop's block or its exception. Every other name goes to the superclass |
| Drafts.FailsAt | drafts.py:261-270 | when the lists cover iterations before i but not i, the loop raises at i. The error names the first list it indexes there |
| Drafts.DraftRaises | drafts.py:263-270 | the loop raises iff a defined list is shorter than num_stimts. An Undefined list never raises. The failing index is below num_stimts, at most each short list's length, and equal to one of them: the length of the shortest |
| Drafts.NoIterations | drafts.py:259-261 | num_stimts <= 0 gives just '-num_stimts N', with no trailing separator |
| Drafts.UndefinedContributeNothing | drafts.py:263-270 | with all three lists Undefined, the iterations append nothing |
| Drafts.PieceEnding | drafts.py:263-270 | an iteration's text ends in a newline when labels is defined, and in the model's closing quote when only models is. With labels Undefined and newline-free items, it does not end in a newline |
| Drafts.PieceCount | drafts.py:263-270 | one iteration appends two blanks for stim_files, two quotes for models, and two blanks and a newline for labels, each only when that list is defined (for items free of the counted character) |
| Drafts.PerIterationCount | drafts.py:261-270 | n iterations append n times one iteration's count of a blank, newline or quote |
| Drafts.OneLinePerIteration | drafts.py:261-270 | with labels defined and newline-free items, n iterations append exactly n newlines |
| Drafts.UndefinedLabels | drafts.py:269-270 | with labels Undefined and newline-free items, the iterations append no newline |
| Drafts.UndefinedModels | drafts.py:266-267 | with models Undefined and quote-free items, the iterations append no quote. With models defined, they append two per iteration |
| Drafts.UndefinedStimFiles | drafts.py:263-264 | for blank-free items, the iterations append two blanks per iteration for stim_files and two for labels, each only when that list is defined |
| Drafts.PiecesStart | drafts.py:261-270 | the first iteration's text comes first in the block |
| Drafts.FusedCount | drafts.py:259-264 | with stim_files defined, the shell reads '-num_stimts' and then the single argument 'N-stim_files' |
| Drafts.LabelLineEndsCommand | drafts.py:259-270 | with all three lists defined, the shell's first command is exactly six arguments: '-num_stimts', 'N-stim_files', '1', the first file and model glued to '-labels', '1' and the first label. The first label line's newline ends it |

## Left out

- Trait declarations and their checks (`mandatory`, `requires`, `exists`, `Enum`, `minlen`, defaults, `position`, name templates) are not modelled. The nipype traits machinery enforces them, and it is not part of this model.
- `CommandLine._format_arg` and `CommandLine._parse_inputs` are not modelled: generic argstr substitution, boolean flags and position ordering. A name an override does not handle is reported as `Superclass`. The list `_parse_inputs` hands over is the result.
- `split_filename` is not part of this model. It is a function parameter, so its treatment of double extensions such as .nii.gz is not modelled. Every file-name property is stated relative to its base output.
- `_list_outputs` and running the program are not modelled. `_list_outputs` returns None in most files, and it depends on the filesystem in drafts.py.
- Commented-out code is not modelled, and neither are the unused imports.
- The framework passes `value` to `_format_arg` as the input's own value. The model reads the value from the input record instead.
- nipype's Undefined is assumed not iterable, so zip over it raises TypeError (`NotIterable`). Indexing past the end of a list is IndexError (`IndexOutOfRange`). The model does not capture the exceptions' message texts.
- Deconv1.ParseInputs: a caller may pass a tuple as `skip`. `+=` with a list then raises rather than extending, and the model accepts only None or a list.
- ModelTestV2.ParseInputs: a tuple passed as `skip` is not modelled, for the same reason.
- Stimulus.BlockWords: the shell reading covers unquoted plain words and single-quoted text. It does not cover double quotes, expansions or globbing. So the argument-vector properties require files and labels that are plain words, and models without a single quote.
- RemlFitV1.GltWords: stated under the same restriction, for contrasts without a single quote and plain labels.
- Drafts.OneLinePerIteration: counts newlines only when no item holds one. The other counting lemmas (PieceCount, PerIterationCount, UndefinedLabels, UndefinedModels, UndefinedStimFiles, PieceEnding's last clause) likewise require items free of the counted character, since an item's own blanks, quotes or newlines would add to the count.
- Drafts.LabelLineEndsCommand: stated for a plain first file and label and a quote-free first model, as the shell reading requires.
- The out_xmat argstr '-x1D %s \n' also ends in a bare newline. The input has position -1, so it is the last argument and the newline closes the command after it. Argument ordering belongs to the superclass and is not modelled.

## Findings

| source | as written | input that shows it | evidently intended | confidence | as-written member | corrected member |
|---|---|---|---|---|---|---|
| drafts.py:259-264 | the argstr '-num_stimts %d' is followed directly by '-stim_files %s %s', with no space, and the parts of each iteration are appended with no separators | num_stimts=1, stim_files=['a.1D'], models=['GAM'], labels=['c1']: the text is '-num_stimts 1-stim_files 1 a.1D'GAM'-labels 1 c1\n', and 3dDeconvolve receives '1-stim_files' as the count argument | the count and each option as separate arguments, as deconv1.py:213-214 builds them with single-space joins | not executed | Drafts.FusedCount | Stimulus.BlockWords |
| drafts.py:269-270 | each -labels part ends in a bare newline, and the text is run through a shell | num_stimts=2, stim_files=['a.1D','b.1D'], models=['GAM','GAM'], labels=['c1','c2']: the text is '-num_stimts 2-stim_files 1 a.1D'GAM'-labels 1 c1\n-stim_files 2 b.1D'GAM'-labels 2 c2\n'. 3dDeconvolve receives '-num_stimts', '2-stim_files', '1', 'a.1DGAM-labels', '1', 'c1', and the second stimulus's text runs as a command of its own | each label passed as a -stim_label argument of the one command, as deconv1.py:213 builds them | not executed | Drafts.LabelLineEndsCommand | Stimulus.BlockWords |
