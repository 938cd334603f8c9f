/**
 * The fixed suffix rules of `_gen_filename`: each derived name is the base
 * name that split_filename returns (directory and extension removed) plus a
 * suffix that depends only on which output is being named.
 */
module FileNames {
  import opened Wrappers
  import opened Text

  const XmatToken: string := "xmat"
  const StatsSuffix: string := "_stats.nii.gz"
  const RemlSuffix: string := "_REML.nii.gz"

  /** The design-matrix name: '.1D' after a base that already ends in
      'xmat', '.xmat.1D' after any other. */
  function XmatName(base: string): (r: string)
    ensures EndsWith(r, ".1D")
    ensures |base| < |r| && r[..|base|] == base
  {
    if EndsWith(base, XmatToken) then base + ".1D" else base + ".xmat.1D"
  }

  /** The 3dDeconvolve output bucket name. */
  function StatsName(base: string): (r: string)
    ensures EndsWith(r, StatsSuffix)
    ensures |r| == |base| + |StatsSuffix| && r[..|base|] == base
  {
    base + StatsSuffix
  }

  /** The 3dREMLfit output bucket name. */
  function RemlName(base: string): (r: string)
    ensures EndsWith(r, RemlSuffix)
    ensures |r| == |base| + |RemlSuffix| && r[..|base|] == base
  {
    base + RemlSuffix
  }

  /** The name without the given suffix, if it ends with it. */
  function StripSuffix(name: string, suffix: string): (r: Option<string>)
    ensures r.Some? <==> EndsWith(name, suffix)
    ensures r.Some? ==> r.value + suffix == name
  {
    if EndsWith(name, suffix) then Some(name[..|name| - |suffix|]) else None
  }

  /** The design-matrix name always ends in 'xmat.1D', starts with the base
      name, and takes the short suffix exactly when the base already ends in
      'xmat'. The suffixes hold no '/', so the name has a directory part only
      if the base does. */
  lemma XmatNameShape(base: string)
    ensures EndsWith(XmatName(base), "xmat.1D")
    ensures |base| <= |XmatName(base)| && XmatName(base)[..|base|] == base
    ensures XmatName(base) == base + ".1D" <==> EndsWith(base, XmatToken)
    ensures XmatName(base) == base + ".xmat.1D" <==> !EndsWith(base, XmatToken)
    ensures '/' in XmatName(base) <==> '/' in base
  {
    var r := XmatName(base);
    if EndsWith(base, XmatToken) {
      assert r[|r| - 7..] == base[|base| - 4..] + ".1D";
      assert |base + ".1D"| != |base + ".xmat.1D"|;
    } else {
      assert r[|r| - 7..] == "xmat.1D";
    }
    assert r[..|base|] == base;
    assert forall c :: c in r <==> c in base || c in r[|base|..];
  }

  /** Deriving again from a derived design-matrix name, once split_filename
      has removed its '.1D' extension, gives the same name back: the rule
      never stacks a second 'xmat'. */
  lemma XmatNameStable(base: string)
    ensures |XmatName(base)| >= 3 && XmatName(XmatName(base)[..|XmatName(base)| - 3]) == XmatName(base)
  {
    XmatNameShape(base);
    var r := XmatName(base);
    var stem := r[..|r| - 3];
    assert stem[|stem| - 4..] == r[|r| - 7..|r| - 3] == XmatToken;
    assert stem + ".1D" == r;
  }

  /** Appending a suffix and stripping it again gives back the base. */
  lemma StripAppended(base: string, suffix: string)
    ensures StripSuffix(base + suffix, suffix) == Some(base)
  {
    assert (base + suffix)[|base|..] == suffix;
    assert (base + suffix)[..|base|] == base;
  }

  /** The bucket name determines the base it was made from, and holds a
      directory part only if the base does. */
  lemma StatsNameInverse(base: string)
    ensures StripSuffix(StatsName(base), StatsSuffix) == Some(base)
    ensures '/' in StatsName(base) <==> '/' in base
  {
    StripAppended(base, StatsSuffix);
  }

  /** The REML bucket name determines the base it was made from, and holds
      a directory part only if the base does. */
  lemma RemlNameInverse(base: string)
    ensures StripSuffix(RemlName(base), RemlSuffix) == Some(base)
    ensures '/' in RemlName(base) <==> '/' in base
  {
    StripAppended(base, RemlSuffix);
  }
}
