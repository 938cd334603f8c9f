/**
 * drafts.py: an earlier 3dDeconvolve `Decon` whose `_format_arg` builds the
 * stimulus block in a loop over range(num_stimts), appending to a string.
 * Each list contributes only when it is defined, indexes are taken
 * directly (so a defined list that is too short raises IndexError), and
 * the parts are appended with no separating spaces.
 */
module Drafts {
  import opened Wrappers
  import opened Text
  import opened Shell
  import opened Interface

  /** The argstr of num_stimts in this file, '-num_stimts %d', applied to the value. */
  function CountFlag(value: int): string
  {
    "-num_stimts " + Decimal(value)
  }

  /** A list that was never set, or one holding at least n items. */
  predicate Covers(list: Option<seq<string>>, n: int)
  {
    list.None? || n <= |list.value|
  }

  predicate AllCover(inputs: DeconInputs, n: int)
  {
    Covers(inputs.stimFiles, n) && Covers(inputs.models, n) && Covers(inputs.labels, n)
  }

  /** The text one iteration writes for file f of stimulus k. */
  function FileText(k: int, f: string): string
  {
    "-stim_files " + Decimal(k) + " " + f
  }

  /** The text one iteration writes for model m: m in single quotes. */
  function ModelText(m: string): string
  {
    "'" + m + "'"
  }

  /** The text one iteration writes for label l of stimulus k: a -labels
      line, ended by a bare newline. */
  function LabelText(k: int, l: string): string
  {
    "-labels " + Decimal(k) + " " + l + "\n"
  }

  /** What iteration i appends for stim_files: nothing when undefined. */
  function FilePart(inputs: DeconInputs, i: nat): string
    requires Covers(inputs.stimFiles, i + 1)
  {
    if inputs.stimFiles.Some? then FileText(i + 1, inputs.stimFiles.value[i]) else ""
  }

  /** What iteration i appends for models: nothing when undefined. */
  function ModelPart(inputs: DeconInputs, i: nat): string
    requires Covers(inputs.models, i + 1)
  {
    if inputs.models.Some? then ModelText(inputs.models.value[i]) else ""
  }

  /** What iteration i appends for labels: nothing when undefined. */
  function LabelPart(inputs: DeconInputs, i: nat): string
    requires Covers(inputs.labels, i + 1)
  {
    if inputs.labels.Some? then LabelText(i + 1, inputs.labels.value[i]) else ""
  }

  /** What iteration i appends. */
  function Piece(inputs: DeconInputs, i: nat): string
    requires AllCover(inputs, i + 1)
  {
    FilePart(inputs, i) + ModelPart(inputs, i) + LabelPart(inputs, i)
  }

  /** The parts of the first n iterations, in order. */
  function Pieces(inputs: DeconInputs, n: nat): string
    requires AllCover(inputs, n)
  {
    if n == 0 then "" else Pieces(inputs, n - 1) + Piece(inputs, n - 1)
  }

  /** The length of a defined list shorter than n, or n. */
  function ReachOf(list: Option<seq<string>>, n: int): int
  {
    if list.Some? && |list.value| < n then |list.value| else n
  }

  /** The iteration at which the loop first indexes past the end of a
      defined list: the length of the shortest such list. */
  function Reach(inputs: DeconInputs): int
  {
    var n := inputs.numStimts;
    Min(ReachOf(inputs.stimFiles, n), Min(ReachOf(inputs.models, n), ReachOf(inputs.labels, n)))
  }

  /** The block the loop builds: the count flag, then every iteration's
      parts; or the IndexError of the first list indexed past its end,
      trying the lists in the order the loop body does. */
  function Draft(inputs: DeconInputs): (r: Result<string, Error>)
    ensures r.Failure? <==> !AllCover(inputs, inputs.numStimts)
    ensures r.Failure? ==> r.error.IndexOutOfRange? && 0 <= r.error.index == Reach(inputs) < inputs.numStimts
    ensures r.Success? ==>
      |CountFlag(inputs.numStimts)| <= |r.value| && r.value[..|CountFlag(inputs.numStimts)|] == CountFlag(inputs.numStimts)
  {
    var n := inputs.numStimts;
    if AllCover(inputs, n) then
      Success(CountFlag(n) + Pieces(inputs, if n < 0 then 0 else n))
    else
      var i := Reach(inputs);
      Failure(IndexOutOfRange(FirstShort(inputs, i), i))
  }

  /** The list the loop body indexes past its end at iteration i: the
      first, in the order the body indexes them, that holds exactly i items. */
  function FirstShort(inputs: DeconInputs, i: int): string
  {
    if inputs.stimFiles.Some? && |inputs.stimFiles.value| == i then "stim_files"
    else if inputs.models.Some? && |inputs.models.value| == i then "models"
    else "labels"
  }

  /** Once every list covers the first i iterations but not iteration i,
      the loop raises at iteration i, for the first list it indexes there. */
  lemma FailsAt(inputs: DeconInputs, i: int)
    requires 0 <= i < inputs.numStimts
    requires AllCover(inputs, i) && !AllCover(inputs, i + 1)
    ensures Draft(inputs) == Failure(IndexOutOfRange(FirstShort(inputs, i), i))
  {
    assert !AllCover(inputs, inputs.numStimts);
    assert Reach(inputs) == i;
  }

  /** Appending iteration i's piece to the text of the first i iterations
      gives the text of the first i + 1. */
  lemma NextPieces(inputs: DeconInputs, i: nat, head: string)
    requires AllCover(inputs, i + 1)
    ensures (head + Pieces(inputs, i)) + Piece(inputs, i) == head + Pieces(inputs, i + 1)
  {
    assert Pieces(inputs, i + 1) == Pieces(inputs, i) + Piece(inputs, i);
    Assoc(head, Pieces(inputs, i), Piece(inputs, i));
  }

  /** One pass of the loop body: each defined list is indexed at i and its
      text appended, in the order stim_files, models, labels; indexing past
      the end of a list raises before anything more is appended. */
  method Iteration(inputs: DeconInputs, i: nat, arg: string) returns (r: Result<string, Error>)
    requires AllCover(inputs, i)
    ensures r.Success? <==> AllCover(inputs, i + 1)
    ensures r.Success? ==> r.value == arg + Piece(inputs, i)
    ensures r.Failure? ==> r.error == IndexOutOfRange(FirstShort(inputs, i), i)
  {
    var text := arg;
    if inputs.stimFiles.Some? {
      if i >= |inputs.stimFiles.value| {
        return Failure(IndexOutOfRange("stim_files", i));
      }
      text := text + FileText(i + 1, inputs.stimFiles.value[i]);
    }
    assert text == arg + FilePart(inputs, i);
    if inputs.models.Some? {
      if i >= |inputs.models.value| {
        return Failure(IndexOutOfRange("models", i));
      }
      text := text + ModelText(inputs.models.value[i]);
    }
    assert text == arg + FilePart(inputs, i) + ModelPart(inputs, i);
    if inputs.labels.Some? {
      if i >= |inputs.labels.value| {
        return Failure(IndexOutOfRange("labels", i));
      }
      text := text + LabelText(i + 1, inputs.labels.value[i]);
    }
    assert text == arg + FilePart(inputs, i) + ModelPart(inputs, i) + LabelPart(inputs, i);
    Assoc(arg, FilePart(inputs, i), ModelPart(inputs, i));
    Assoc(arg, FilePart(inputs, i) + ModelPart(inputs, i), LabelPart(inputs, i));
    return Success(text);
  }

  /** The num_stimts branch of Decon._format_arg, as the loop runs it. */
  method FormatStimuli(inputs: DeconInputs) returns (r: Result<string, Error>)
    ensures r == Draft(inputs)
  {
    var n := inputs.numStimts;
    var arg := CountFlag(n);
    ghost var head := arg;
    var i := 0;
    while i < n
      invariant 0 <= i <= (if n < 0 then 0 else n)
      invariant AllCover(inputs, i)
      invariant arg == head + Pieces(inputs, i)
    {
      var step := Iteration(inputs, i, arg);
      if step.Failure? {
        FailsAt(inputs, i);
        return step;
      }
      NextPieces(inputs, i, head);
      arg := step.value;
      i := i + 1;
    }
    assert i == (if n < 0 then 0 else n);
    assert AllCover(inputs, n);
    assert arg == CountFlag(n) + Pieces(inputs, i);
    return Success(arg);
  }

  /** Decon._format_arg of this variant. */
  method FormatArg(inputs: DeconInputs, name: string) returns (r: Formatted)
    ensures name != "num_stimts" ==> r == Superclass
    ensures name == "num_stimts" ==> r == match Draft(inputs)
      case Success(arg) => Arg(arg)
      case Failure(e) => Raised(e)
  {
    if name == "num_stimts" {
      var block := FormatStimuli(inputs);
      match block
      case Success(arg) => r := Arg(arg);
      case Failure(e) => r := Raised(e);
    } else {
      r := Superclass;
    }
  }

  /** A defined list holding fewer than n items. */
  predicate Short(list: Option<seq<string>>, n: int)
  {
    list.Some? && |list.value| < n
  }

  /** The loop raises exactly when a defined list is shorter than
      num_stimts (never when num_stimts <= 0), and it raises at the
      iteration equal to the length of the shortest such list; it never
      raises for an undefined list. */
  lemma DraftRaises(inputs: DeconInputs)
    ensures var n := inputs.numStimts;
      Draft(inputs).Failure? <==> Short(inputs.stimFiles, n) || Short(inputs.models, n) || Short(inputs.labels, n)
    ensures Draft(inputs).Failure? ==>
      && 0 <= Draft(inputs).error.index < inputs.numStimts
      && (Short(inputs.stimFiles, inputs.numStimts) ==> Draft(inputs).error.index <= |inputs.stimFiles.value|)
      && (Short(inputs.models, inputs.numStimts) ==> Draft(inputs).error.index <= |inputs.models.value|)
      && (Short(inputs.labels, inputs.numStimts) ==> Draft(inputs).error.index <= |inputs.labels.value|)
      && (Short(inputs.stimFiles, inputs.numStimts) || Short(inputs.models, inputs.numStimts) || Short(inputs.labels, inputs.numStimts))
      && ((Short(inputs.stimFiles, inputs.numStimts) && Draft(inputs).error.index == |inputs.stimFiles.value|)
          || (Short(inputs.models, inputs.numStimts) && Draft(inputs).error.index == |inputs.models.value|)
          || (Short(inputs.labels, inputs.numStimts) && Draft(inputs).error.index == |inputs.labels.value|))
  {
  }

  /** With num_stimts <= 0 the loop does not run: the result is the count
      flag alone, with no trailing separator. */
  lemma NoIterations(inputs: DeconInputs)
    requires inputs.numStimts <= 0
    ensures Draft(inputs) == Success("-num_stimts " + Decimal(inputs.numStimts))
  {
    assert CountFlag(inputs.numStimts) + "" == CountFlag(inputs.numStimts);
  }

  /** With all three lists undefined, the loop runs num_stimts times and
      appends nothing. */
  lemma {:induction false} UndefinedContributeNothing(inputs: DeconInputs, n: nat)
    requires inputs.stimFiles.None? && inputs.models.None? && inputs.labels.None?
    ensures Pieces(inputs, n) == ""
  {
    if n > 0 {
      UndefinedContributeNothing(inputs, n - 1);
    }
  }

  // ---------------------------------------------------------------------
  // What each list contributes, counted by the characters only its part
  // writes: each -stim_files part two spaces, each quoted model two single
  // quotes, each -labels part two spaces and a newline.

  /** How many times c occurs in s. */
  function Count(c: char, s: string): nat
  {
    if s == [] then 0 else (if s[0] == c then 1 else 0) + Count(c, s[1..])
  }

  /** The characters the counts are taken of. */
  predicate Marker(c: char)
  {
    c == ' ' || c == '\n' || c == '\''
  }

  /** No item of a defined list holds c. */
  predicate ItemsWithout(inputs: DeconInputs, c: char)
  {
    && (inputs.stimFiles.Some? ==> forall f :: f in inputs.stimFiles.value ==> c !in f)
    && (inputs.models.Some? ==> forall m :: m in inputs.models.value ==> c !in m)
    && (inputs.labels.Some? ==> forall l :: l in inputs.labels.value ==> c !in l)
  }

  /** How many c one iteration appends: the contributions of the defined lists. */
  function PerIteration(inputs: DeconInputs, c: char): nat
  {
    (if inputs.stimFiles.Some? && c == ' ' then 2 else 0)
    + (if inputs.models.Some? && c == '\'' then 2 else 0)
    + (if inputs.labels.Some? then (if c == ' ' then 2 else if c == '\n' then 1 else 0) else 0)
  }

  lemma {:induction false} CountAppend(c: char, a: string, b: string)
    ensures Count(c, a + b) == Count(c, a) + Count(c, b)
  {
    if a == [] {
      assert a + b == b;
    } else {
      assert (a + b)[1..] == a[1..] + b;
      CountAppend(c, a[1..], b);
    }
  }

  lemma {:induction false} CountAbsent(c: char, s: string)
    requires c !in s
    ensures Count(c, s) == 0
  {
    if s != [] {
      CountAbsent(c, s[1..]);
    }
  }

  lemma {:induction false} CountZero(c: char, s: string)
    requires Count(c, s) == 0
    ensures c !in s
  {
    if s != [] {
      CountZero(c, s[1..]);
    }
  }

  lemma CountOne(c: char, x: char)
    ensures Count(c, [x]) == if c == x then 1 else 0
  {
  }

  /** A plain word holds no blank, newline or quote. */
  lemma PlainCount(c: char, w: string)
    requires PlainWord(w) && Marker(c)
    ensures Count(c, w) == 0
  {
    forall k | 0 <= k < |w|
      ensures w[k] != c
    {
      assert PlainChar(w[k]);
    }
  }

  /** Two words, each followed by a blank. */
  lemma CountSpaced(c: char, a: string, b: string, e: string)
    requires PlainWord(a) && PlainWord(b) && Marker(c) && c !in e
    ensures Count(c, a + " " + b + " " + e) == if c == ' ' then 2 else 0
  {
    PlainCount(c, a);
    PlainCount(c, b);
    CountAbsent(c, e);
    CountOne(c, ' ');
    CountAppend(c, a, " ");
    CountAppend(c, a + " ", b);
    CountAppend(c, a + " " + b, " ");
    CountAppend(c, a + " " + b + " ", e);
  }

  lemma FilePartCount(inputs: DeconInputs, i: nat, c: char)
    requires Covers(inputs.stimFiles, i + 1) && Marker(c) && ItemsWithout(inputs, c)
    ensures Count(c, FilePart(inputs, i)) == if inputs.stimFiles.Some? && c == ' ' then 2 else 0
  {
    if inputs.stimFiles.Some? {
      var f := inputs.stimFiles.value[i];
      assert f in inputs.stimFiles.value;
      FlagsPlain();
      DecimalPlain(i + 1);
      assert FilePart(inputs, i) == "-stim_files" + " " + Decimal(i + 1) + " " + f;
      CountSpaced(c, "-stim_files", Decimal(i + 1), f);
    }
  }

  lemma ModelPartCount(inputs: DeconInputs, i: nat, c: char)
    requires Covers(inputs.models, i + 1) && Marker(c) && ItemsWithout(inputs, c)
    ensures Count(c, ModelPart(inputs, i)) == if inputs.models.Some? && c == '\'' then 2 else 0
  {
    if inputs.models.Some? {
      var m := inputs.models.value[i];
      assert m in inputs.models.value;
      CountAbsent(c, m);
      CountOne(c, '\'');
      CountAppend(c, "'", m);
      CountAppend(c, "'" + m, "'");
    }
  }

  lemma LabelPartCount(inputs: DeconInputs, i: nat, c: char)
    requires Covers(inputs.labels, i + 1) && Marker(c) && ItemsWithout(inputs, c)
    ensures Count(c, LabelPart(inputs, i)) == if inputs.labels.Some? then (if c == ' ' then 2 else if c == '\n' then 1 else 0) else 0
  {
    if inputs.labels.Some? {
      var l := inputs.labels.value[i];
      assert l in inputs.labels.value;
      FlagsPlain();
      DecimalPlain(i + 1);
      var head := "-labels" + " " + Decimal(i + 1) + " " + l;
      CountSpaced(c, "-labels", Decimal(i + 1), l);
      assert LabelPart(inputs, i) == head + "\n";
      CountOne(c, '\n');
      CountAppend(c, head, "\n");
    }
  }

  /** What one iteration appends, counted. */
  lemma PieceCount(inputs: DeconInputs, i: nat, c: char)
    requires AllCover(inputs, i + 1) && Marker(c) && ItemsWithout(inputs, c)
    ensures Count(c, Piece(inputs, i)) == PerIteration(inputs, c)
  {
    FilePartCount(inputs, i, c);
    ModelPartCount(inputs, i, c);
    LabelPartCount(inputs, i, c);
    CountAppend(c, FilePart(inputs, i), ModelPart(inputs, i));
    CountAppend(c, FilePart(inputs, i) + ModelPart(inputs, i), LabelPart(inputs, i));
  }

  lemma PiecesStep(inputs: DeconInputs, n: nat, c: char)
    requires 0 < n && AllCover(inputs, n)
    ensures Count(c, Pieces(inputs, n)) == Count(c, Pieces(inputs, n - 1)) + Count(c, Piece(inputs, n - 1))
  {
    CountAppend(c, Pieces(inputs, n - 1), Piece(inputs, n - 1));
  }

  /** Every iteration appends the same contribution of each defined list,
      and none of an undefined one: after n iterations the text holds n
      times one iteration's count of c. */
  lemma {:induction false} PerIterationCount(inputs: DeconInputs, n: nat, c: char)
    requires AllCover(inputs, n) && Marker(c) && ItemsWithout(inputs, c)
    ensures Count(c, Pieces(inputs, n)) == n * PerIteration(inputs, c)
  {
    if n == 0 {
      assert Pieces(inputs, n) == "";
    } else {
      var k := PerIteration(inputs, c);
      PerIterationCount(inputs, n - 1, c);
      PieceCount(inputs, n - 1, c);
      PiecesStep(inputs, n, c);
      assert (n - 1) * k + k == n * k;
    }
  }

  /** With labels defined, n iterations append exactly n newlines, one per
      -labels line. */
  lemma OneLinePerIteration(inputs: DeconInputs, n: nat)
    requires AllCover(inputs, n) && inputs.labels.Some? && ItemsWithout(inputs, '\n')
    ensures Count('\n', Pieces(inputs, n)) == n
  {
    assert PerIteration(inputs, '\n') == 1;
    PerIterationCount(inputs, n, '\n');
  }

  /** An undefined labels list contributes nothing: no iteration appends a
      newline. */
  lemma UndefinedLabels(inputs: DeconInputs, n: nat)
    requires AllCover(inputs, n) && inputs.labels.None? && ItemsWithout(inputs, '\n')
    ensures '\n' !in Pieces(inputs, n)
  {
    assert PerIteration(inputs, '\n') == 0;
    PerIterationCount(inputs, n, '\n');
    CountZero('\n', Pieces(inputs, n));
  }

  /** An undefined models list contributes nothing: no iteration appends a
      quote. A defined one contributes two quotes per iteration. */
  lemma UndefinedModels(inputs: DeconInputs, n: nat)
    requires AllCover(inputs, n) && ItemsWithout(inputs, '\'')
    ensures inputs.models.None? ==> '\'' !in Pieces(inputs, n)
    ensures inputs.models.Some? ==> Count('\'', Pieces(inputs, n)) == 2 * n
  {
    assert PerIteration(inputs, '\'') == if inputs.models.Some? then 2 else 0;
    PerIterationCount(inputs, n, '\'');
    if inputs.models.None? {
      CountZero('\'', Pieces(inputs, n));
    }
  }

  lemma Distribute(n: nat, a: nat, b: nat)
    ensures n * (a + b) == n * a + n * b
  {
  }

  /** An undefined stim_files list contributes nothing: the only blanks are
      the two of each -labels part. A defined one adds two per iteration. */
  lemma UndefinedStimFiles(inputs: DeconInputs, n: nat)
    requires AllCover(inputs, n) && ItemsWithout(inputs, ' ')
    ensures Count(' ', Pieces(inputs, n))
      == (if inputs.stimFiles.Some? then 2 * n else 0) + (if inputs.labels.Some? then 2 * n else 0)
  {
    var files := if inputs.stimFiles.Some? then 2 else 0;
    var labels := if inputs.labels.Some? then 2 else 0;
    assert PerIteration(inputs, ' ') == files + labels;
    PerIterationCount(inputs, n, ' ');
    Distribute(n, files, labels);
    assert n * files == (if inputs.stimFiles.Some? then 2 * n else 0);
    assert n * labels == (if inputs.labels.Some? then 2 * n else 0);
  }

  lemma AbsentNotLast(s: string, c: char)
    requires c !in s
    ensures !EndsWith(s, [c])
  {
    if |s| > 0 {
      assert s[|s| - 1..][0] == s[|s| - 1] && s[|s| - 1] in s;
    }
  }

  /** Each iteration's text ends in a newline exactly when labels is
      defined (for single-line items), and in the closing quote of the
      model when only models is. */
  lemma PieceEnding(inputs: DeconInputs, i: nat)
    requires AllCover(inputs, i + 1)
    ensures inputs.labels.Some? ==> EndsWith(Piece(inputs, i), "\n")
    ensures inputs.labels.None? && inputs.models.Some? ==> EndsWith(Piece(inputs, i), "'")
    ensures inputs.labels.None? && ItemsWithout(inputs, '\n') ==> !EndsWith(Piece(inputs, i), "\n")
  {
    if inputs.labels.None? && ItemsWithout(inputs, '\n') {
      PieceCount(inputs, i, '\n');
      CountZero('\n', Piece(inputs, i));
      AbsentNotLast(Piece(inputs, i), '\n');
    }
  }

  lemma Assoc(a: string, b: string, c: string)
    ensures a + b + c == a + (b + c)
  {
  }

  /** The first iteration's text comes first. */
  lemma {:induction false} PiecesStart(inputs: DeconInputs, n: nat) returns (rest: string)
    requires n >= 1 && AllCover(inputs, n)
    ensures Pieces(inputs, n) == Piece(inputs, 0) + rest
  {
    if n == 1 {
      rest := "";
      assert Pieces(inputs, 0) == "";
    } else {
      var r := PiecesStart(inputs, n - 1);
      rest := r + Piece(inputs, n - 1);
      Assoc(Piece(inputs, 0), r, Piece(inputs, n - 1));
    }
  }

  // ---------------------------------------------------------------------
  // What the shell makes of the block: the parts are appended with no
  // separators, so words fuse, and each -labels part's newline ends the
  // command.

  /** Two plain words written together are one plain word. */
  lemma GluedPlain(a: string, b: string)
    requires PlainWord(a) && PlainWord(b)
    ensures PlainWord(a + b)
  {
    var w := a + b;
    forall k | 0 <= k < |w|
      ensures PlainChar(w[k])
    {
      if k >= |a| {
        assert w[k] == b[k - |a|];
      }
    }
  }

  lemma FusedRegroup(d: string, y: string)
    ensures "-num_stimts " + d + "-stim_files " + y == "-num_stimts" + (" " + ((d + "-stim_files") + (" " + y)))
  {
  }

  /** How the shell reads a count fused to the first -stim_files. */
  lemma FusedSpelling(d: string, y: string)
    requires PlainWord(d)
    ensures Words("-num_stimts " + d + "-stim_files " + y) == ["-num_stimts", d + "-stim_files"] + Words(y)
  {
    FlagsPlain();
    GluedPlain(d, "-stim_files");
    FusedRegroup(d, y);
    WordThen(d + "-stim_files", y);
    WordThen("-num_stimts", (d + "-stim_files") + (" " + y));
  }

  lemma Glue(c: string, q: string, rest: string)
    ensures "-num_stimts " + c + ("-stim_files " + q + rest) == "-num_stimts " + c + "-stim_files " + (q + rest)
  {
  }

  /** With stim_files defined, an iteration's text opens with -stim_files;
      q is the rest of it. */
  lemma FilesFirst(inputs: DeconInputs, i: nat) returns (q: string)
    requires AllCover(inputs, i + 1) && inputs.stimFiles.Some?
    ensures Piece(inputs, i) == "-stim_files " + q
  {
    q := Decimal(i + 1) + " " + inputs.stimFiles.value[i] + ModelPart(inputs, i) + LabelPart(inputs, i);
  }

  /** With stim_files defined, the block opens with the count followed
      directly by the first -stim_files. */
  lemma DraftStart(inputs: DeconInputs) returns (y: string)
    requires inputs.numStimts >= 1 && AllCover(inputs, inputs.numStimts)
    requires inputs.stimFiles.Some?
    ensures Draft(inputs).Success?
    ensures Draft(inputs).value == "-num_stimts " + Decimal(inputs.numStimts) + "-stim_files " + y
  {
    var n := inputs.numStimts;
    var rest := PiecesStart(inputs, n);
    var q := FilesFirst(inputs, 0);
    Glue(Decimal(n), q, rest);
    y := q + rest;
  }

  /** The count and the first -stim_files are appended with no space
      between them, so the shell hands 3dDeconvolve '-num_stimts' followed
      by the single argument '<N>-stim_files' instead of the count. */
  lemma FusedCount(inputs: DeconInputs)
    requires inputs.numStimts >= 1 && AllCover(inputs, inputs.numStimts)
    requires inputs.stimFiles.Some?
    ensures Draft(inputs).Success?
    ensures var w := Words(Draft(inputs).value);
      |w| >= 2 && w[0] == "-num_stimts" && w[1] == Decimal(inputs.numStimts) + "-stim_files"
  {
    var y := DraftStart(inputs);
    DecimalPlain(inputs.numStimts);
    FusedSpelling(Decimal(inputs.numStimts), y);
  }

  lemma LabelRegroup(d: string, e: string, f: string, m: string, l: string, rest: string)
    ensures "-num_stimts " + d + ("-stim_files " + e + " " + f + ("'" + m + "'") + ("-labels " + e + " " + l + "\n")) + rest
      == "-num_stimts" + (" " + ((d + "-stim_files") + (" " + (e + (" " + (f + ("'" + m + "'"
         + ("-labels" + (" " + (e + (" " + (l + ("\n" + rest)))))))))))))
  {
  }

  /** How the shell reads a count fused to a first iteration with all three
      lists defined: the model glues the file to -labels, and the label
      line's newline ends the command. */
  lemma LabelSpelling(d: string, e: string, f: string, m: string, l: string, rest: string)
    requires PlainWord(d) && PlainWord(e) && PlainWord(f) && '\'' !in m && PlainWord(l)
    ensures Words("-num_stimts " + d + ("-stim_files " + e + " " + f + ("'" + m + "'") + ("-labels " + e + " " + l + "\n")) + rest)
      == ["-num_stimts", d + "-stim_files", e, f + m + "-labels", e, l]
  {
    FlagsPlain();
    GluedPlain(d, "-stim_files");
    LabelRegroup(d, e, f, m, l, rest);
    WordsNewline(rest);
    WordsPlain(l, "\n" + rest);
    WordThen(e, l + ("\n" + rest));
    GluedWord(f, m, "-labels", e + (" " + (l + ("\n" + rest))));
    WordThen(e, f + ("'" + m + "'" + ("-labels" + (" " + (e + (" " + (l + ("\n" + rest))))))));
    WordThen(d + "-stim_files", e + (" " + (f + ("'" + m + "'" + ("-labels" + (" " + (e + (" " + (l + ("\n" + rest))))))))));
    WordThen("-num_stimts", (d + "-stim_files") + (" " + (e + (" " + (f + ("'" + m + "'"
      + ("-labels" + (" " + (e + (" " + (l + ("\n" + rest))))))))))));
  }

  /** With all three lists defined, as 3dDeconvolve's interface requires,
      the first iteration's -labels line ends in a bare newline, which ends
      the command: 3dDeconvolve receives six arguments, the count fused to
      -stim_files, the first file glued through its unquoted model to
      -labels, and the first label; no later stimulus reaches it, and each
      later iteration's text is left to run as a command of its own. */
  lemma LabelLineEndsCommand(inputs: DeconInputs)
    requires inputs.numStimts >= 1 && AllCover(inputs, inputs.numStimts)
    requires inputs.stimFiles.Some? && inputs.models.Some? && inputs.labels.Some?
    requires PlainWord(inputs.stimFiles.value[0]) && '\'' !in inputs.models.value[0]
    requires PlainWord(inputs.labels.value[0])
    ensures Draft(inputs).Success?
    ensures Words(Draft(inputs).value)
      == ["-num_stimts", Decimal(inputs.numStimts) + "-stim_files", Decimal(1),
          inputs.stimFiles.value[0] + inputs.models.value[0] + "-labels", Decimal(1), inputs.labels.value[0]]
  {
    var n := inputs.numStimts;
    var f, m, l := inputs.stimFiles.value[0], inputs.models.value[0], inputs.labels.value[0];
    var rest := PiecesStart(inputs, n);
    assert Piece(inputs, 0) == "-stim_files " + Decimal(1) + " " + f + ("'" + m + "'") + ("-labels " + Decimal(1) + " " + l + "\n");
    assert Draft(inputs).value == CountFlag(n) + Pieces(inputs, n);
    Assoc(CountFlag(n), Piece(inputs, 0), rest);
    DecimalPlain(n);
    DecimalPlain(1);
    LabelSpelling(Decimal(n), Decimal(1), f, m, l, rest);
  }
}
