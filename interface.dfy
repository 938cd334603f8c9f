/**
 * The values the interfaces' overrides work on: the inputs they read from
 * `self.inputs` (never written), what `_format_arg` hands back, and the
 * exceptions it can raise.
 */
module Interface {
  import opened Wrappers

  /** What split_filename returns for a path: directory, base name, extension. */
  datatype PathParts = PathParts(dir: string, base: string, ext: string)

  /** nipype.utils.filemanip.split_filename, whose body is not part of this
      model; every function that needs it takes it as a parameter. */
  type Splitter = string -> PathParts

  /** The exceptions the overrides can raise. */
  datatype Error =
    | NotIterable(field: string)                  // zip() over an Undefined input (TypeError)
    | IndexOutOfRange(field: string, index: int)  // list[i] past the end (IndexError)

  /** The result of `_format_arg` for one input. */
  datatype Formatted =
    | Arg(text: string)     // the argument text the override returns
    | Superclass            // passed on unchanged to CommandLine._format_arg
    | Raised(error: Error)  // the override raises

  /** The 3dDeconvolve inputs the overrides read. A list that was never set
      (nipype's Undefined) is None. */
  datatype DeconInputs = DeconInputs(
    numStimts: int,
    stimFiles: Option<seq<string>>,
    models: Option<seq<string>>,
    labels: Option<seq<string>>,
    outXmat: string,
    noBucket: bool,
    outFile: string)

  /** The 3dREMLfit inputs the overrides read. */
  datatype RemlInputs = RemlInputs(
    glt: Option<seq<string>>,
    labels: Option<seq<string>>,
    outFile: string)
}
