/** DepthwiseConvolution2DTestDataToString: the name of a (case, element type)
    test instance. The name spells out the shapes and layouts of the case, the
    element type and, for a case with a stride, its lhs dilation; every '-' is
    then replaced by 'n'. Distinct test instances must get distinct names,
    which holds because a name can be read back into what it records. */
module TestNames {
  import opened Text
  import opened ConvSpec
  import opened TestCases

  /** "_lhs_dilation_<lhs_dilate>x1" for a case with a stride, else nothing. */
  function LhsDilationSuffix(spec: DepthwiseConvolution2DSpec): (suffix: string)
    ensures |suffix| > 0 <==> HasLhsDilation(spec)
  {
    if HasLhsDilation(spec) then "_lhs_dilation_" + IntToString(spec.params.value.lhsDilate) + "x1" else ""
  }

  /** The rendered pieces of a name: the three dimension lists joined with
      'x', the three layouts joined with '_', and the tail made of the element
      type and the dilation suffix. */
  datatype RenderedParts = RenderedParts(
    activationDims: string, activationLayout: string,
    kernelDims: string, kernelLayout: string,
    outputDims: string, outputLayout: string,
    tail: string)

  /** The name assembled from its rendered pieces and their labels. */
  function Assemble(p: RenderedParts): (name: string)
    ensures |name| > 16 && name[..16] == "activation_dims_"
  {
    "activation_dims_" + p.activationDims +
    ("_activation_layout_" + p.activationLayout +
    ("_kernel_dims_" + p.kernelDims +
    ("_kernel_layout_" + p.kernelLayout +
    ("_output_dims_" + p.outputDims +
    ("_output_layout_" + p.outputLayout +
    p.tail)))))
  }

  /** The tail starts with the element type; it is longer than the element
      type exactly when the case has an lhs dilation. */
  function Render(spec: DepthwiseConvolution2DSpec, useBfloat16: bool): (parts: RenderedParts)
    ensures var t := GetFloatDataType(useBfloat16);
      |t| <= |parts.tail| && parts.tail[..|t|] == t
    ensures |parts.tail| > |GetFloatDataType(useBfloat16)| <==> HasLhsDilation(spec)
  {
    RenderedParts(
      Join(spec.activationDims, 'x'), Join(spec.activationLayout, '_'),
      Join(spec.kernelDims, 'x'), Join(spec.kernelLayout, '_'),
      Join(spec.outputDims, 'x'), Join(spec.outputLayout, '_'),
      GetFloatDataType(useBfloat16) + LhsDilationSuffix(spec))
  }

  /** The name as concatenated and appended, before '-' is replaced. */
  function UnsanitizedName(spec: DepthwiseConvolution2DSpec, useBfloat16: bool): (name: string)
    ensures HasSuffix(name, GetFloatDataType(useBfloat16) + LhsDilationSuffix(spec))
  {
    AssembleEndsWithTail(Render(spec, useBfloat16));
    Assemble(Render(spec, useBfloat16))
  }

  /** DepthwiseConvolution2DTestDataToString: test names may not contain '-',
      so each one becomes 'n'; nothing else moves or changes. */
  function DepthwiseConvolution2DTestDataToString(spec: DepthwiseConvolution2DSpec, useBfloat16: bool): (name: string)
    ensures '-' !in name
    ensures |name| == |UnsanitizedName(spec, useBfloat16)|
    ensures forall i :: 0 <= i < |name| && UnsanitizedName(spec, useBfloat16)[i] != '-' ==>
              name[i] == UnsanitizedName(spec, useBfloat16)[i]
    ensures forall i :: 0 <= i < |name| && UnsanitizedName(spec, useBfloat16)[i] == '-' ==> name[i] == 'n'
  {
    var name := Replace(UnsanitizedName(spec, useBfloat16), '-', 'n');
    ReplaceRemoves(UnsanitizedName(spec, useBfloat16), '-', 'n');
    name
  }

  /** Everything a name records of its test instance. */
  datatype NameFields = NameFields(
    activationDims: seq<int>, activationLayout: seq<int>,
    kernelDims: seq<int>, kernelLayout: seq<int>,
    outputDims: seq<int>, outputLayout: seq<int>,
    useBfloat16: bool, lhsDilation: Option<int>)

  function Recorded(spec: DepthwiseConvolution2DSpec, useBfloat16: bool): NameFields
  {
    NameFields(spec.activationDims, spec.activationLayout, spec.kernelDims, spec.kernelLayout,
               spec.outputDims, spec.outputLayout, useBfloat16,
               if HasLhsDilation(spec) then Some(spec.params.value.lhsDilate) else None)
  }

  /** head + value + rest, where rest starts with a character value lacks. */
  lemma PeelAtFirst(head: string, v1: string, r1: string, v2: string, r2: string)
    requires head + v1 + r1 == head + v2 + r2
    requires |r1| > 0 && |r2| > 0 && r1[0] !in v2 && r2[0] !in v1
    ensures v1 == v2 && r1 == r2
  {
    assert head + v1 + r1 == head + (v1 + r1) && head + v2 + r2 == head + (v2 + r2);
    DropCommonPrefix(head, v1 + r1, v2 + r2);
    SplitAtFirst(v1, r1, v2, r2);
  }

  /** head + value + rest, where the second character of rest is one value
      lacks and the first is not that character. */
  lemma PeelAtSecond(head: string, v1: string, r1: string, v2: string, r2: string)
    requires head + v1 + r1 == head + v2 + r2
    requires |r1| > 1 && |r2| > 1 && r1[1] !in v2 && r2[1] !in v1
    requires r1[1] != r2[0] && r2[1] != r1[0]
    ensures v1 == v2 && r1 == r2
  {
    assert head + v1 + r1 == head + (v1 + r1) && head + v2 + r2 == head + (v2 + r2);
    DropCommonPrefix(head, v1 + r1, v2 + r2);
    SplitAtSecond(v1, r1, v2, r2);
  }

  /** Each character of s is part of a number or the separator. */
  predicate NumeralsAnd(s: string, sep: char)
  {
    forall i :: 0 <= i < |s| ==> IsNumeral(s[i]) || s[i] == sep
  }

  /** Pieces as Render produces them: numbers and separators, and a tail that
      starts with a letter. */
  predicate WellRendered(p: RenderedParts)
  {
    && NumeralsAnd(p.activationDims, 'x') && NumeralsAnd(p.activationLayout, '_')
    && NumeralsAnd(p.kernelDims, 'x') && NumeralsAnd(p.kernelLayout, '_')
    && NumeralsAnd(p.outputDims, 'x') && NumeralsAnd(p.outputLayout, '_')
    && |p.tail| > 0 && (p.tail[0] == 'b' || p.tail[0] == 'f')
  }

  /** The labels let an assembled name be cut back into its pieces. */
  lemma AssembleInjective(p1: RenderedParts, p2: RenderedParts)
    requires WellRendered(p1) && WellRendered(p2)
    requires Assemble(p1) == Assemble(p2)
    ensures p1 == p2
  {
    var r6a, r6b := "_output_layout_" + p1.outputLayout + p1.tail, "_output_layout_" + p2.outputLayout + p2.tail;
    var r5a, r5b := "_output_dims_" + p1.outputDims + r6a, "_output_dims_" + p2.outputDims + r6b;
    var r4a, r4b := "_kernel_layout_" + p1.kernelLayout + r5a, "_kernel_layout_" + p2.kernelLayout + r5b;
    var r3a, r3b := "_kernel_dims_" + p1.kernelDims + r4a, "_kernel_dims_" + p2.kernelDims + r4b;
    var r2a, r2b := "_activation_layout_" + p1.activationLayout + r3a, "_activation_layout_" + p2.activationLayout + r3b;
    PeelAtFirst("activation_dims_", p1.activationDims, r2a, p2.activationDims, r2b);
    PeelAtSecond("_activation_layout_", p1.activationLayout, r3a, p2.activationLayout, r3b);
    PeelAtFirst("_kernel_dims_", p1.kernelDims, r4a, p2.kernelDims, r4b);
    PeelAtSecond("_kernel_layout_", p1.kernelLayout, r5a, p2.kernelLayout, r5b);
    PeelAtFirst("_output_dims_", p1.outputDims, r6a, p2.outputDims, r6b);
    PeelAtFirst("_output_layout_", p1.outputLayout, p1.tail, p2.outputLayout, p2.tail);
  }

  lemma RenderWellRendered(spec: DepthwiseConvolution2DSpec, useBfloat16: bool)
    ensures WellRendered(Render(spec, useBfloat16))
  {
    JoinChars(spec.activationDims, 'x');
    JoinChars(spec.activationLayout, '_');
    JoinChars(spec.kernelDims, 'x');
    JoinChars(spec.kernelLayout, '_');
    JoinChars(spec.outputDims, 'x');
    JoinChars(spec.outputLayout, '_');
    var tail := Render(spec, useBfloat16).tail;
    assert tail[0] == GetFloatDataType(useBfloat16)[0];
  }

  /** The element type and dilation suffix at the end of a name are read back. */
  lemma TailInjective(s1: DepthwiseConvolution2DSpec, b1: bool, s2: DepthwiseConvolution2DSpec, b2: bool)
    requires GetFloatDataType(b1) + LhsDilationSuffix(s1) == GetFloatDataType(b2) + LhsDilationSuffix(s2)
    ensures b1 == b2
    ensures Recorded(s1, b1).lhsDilation == Recorded(s2, b2).lhsDilation
  {
    var t1, t2 := GetFloatDataType(b1), GetFloatDataType(b2);
    assert (t1 + LhsDilationSuffix(s1))[0] == t1[0];
    assert (t2 + LhsDilationSuffix(s2))[0] == t2[0];
    DropCommonPrefix(t1, LhsDilationSuffix(s1), LhsDilationSuffix(s2));
    if HasLhsDilation(s1) && HasLhsDilation(s2) {
      var d1, d2 := IntToString(s1.params.value.lhsDilate), IntToString(s2.params.value.lhsDilate);
      assert "_lhs_dilation_" + d1 + "x1" == "_lhs_dilation_" + (d1 + "x1");
      assert "_lhs_dilation_" + d2 + "x1" == "_lhs_dilation_" + (d2 + "x1");
      DropCommonPrefix("_lhs_dilation_", d1 + "x1", d2 + "x1");
      DropCommonSuffix(d1, d2, "x1");
      IntToStringInjective(s1.params.value.lhsDilate, s2.params.value.lhsDilate);
    }
  }

  /** A name before sanitising determines every shape, every layout, the
      element type and the lhs dilation of its test instance. */
  lemma UnsanitizedNameInjective(s1: DepthwiseConvolution2DSpec, b1: bool,
                                 s2: DepthwiseConvolution2DSpec, b2: bool)
    requires UnsanitizedName(s1, b1) == UnsanitizedName(s2, b2)
    ensures Recorded(s1, b1) == Recorded(s2, b2)
  {
    var p1, p2 := Render(s1, b1), Render(s2, b2);
    assert p1 == p2 by {
      RenderWellRendered(s1, b1);
      RenderWellRendered(s2, b2);
      AssembleInjective(p1, p2);
    }
    TailInjective(s1, b1, s2, b2);
    assert s1.activationDims == s2.activationDims by { JoinInjective(s1.activationDims, s2.activationDims, 'x'); }
    assert s1.activationLayout == s2.activationLayout by { JoinInjective(s1.activationLayout, s2.activationLayout, '_'); }
    assert s1.kernelDims == s2.kernelDims by { JoinInjective(s1.kernelDims, s2.kernelDims, 'x'); }
    assert s1.kernelLayout == s2.kernelLayout by { JoinInjective(s1.kernelLayout, s2.kernelLayout, '_'); }
    assert s1.outputDims == s2.outputDims by { JoinInjective(s1.outputDims, s2.outputDims, 'x'); }
    assert s1.outputLayout == s2.outputLayout by { JoinInjective(s1.outputLayout, s2.outputLayout, '_'); }
  }

  lemma AssembleNoMinus(p: RenderedParts)
    requires '-' !in p.activationDims && '-' !in p.activationLayout
    requires '-' !in p.kernelDims && '-' !in p.kernelLayout
    requires '-' !in p.outputDims && '-' !in p.outputLayout && '-' !in p.tail
    ensures '-' !in Assemble(p)
  {
    var r := "_output_layout_" + p.outputLayout + p.tail;
    assert '-' !in r;
    r := "_output_dims_" + p.outputDims + r;
    assert '-' !in r;
    r := "_kernel_layout_" + p.kernelLayout + r;
    assert '-' !in r;
    r := "_kernel_dims_" + p.kernelDims + r;
    assert '-' !in r;
    r := "_activation_layout_" + p.activationLayout + r;
    assert '-' !in r;
  }

  lemma TailNoMinus(spec: DepthwiseConvolution2DSpec, useBfloat16: bool)
    requires HasLhsDilation(spec) ==> spec.params.value.lhsDilate >= 0
    ensures '-' !in GetFloatDataType(useBfloat16) + LhsDilationSuffix(spec)
  {
    if HasLhsDilation(spec) {
      var d := IntToString(spec.params.value.lhsDilate);
      assert '-' !in d;
      assert '-' !in "_lhs_dilation_" + d + "x1";
    }
  }

  /** A case that prints no negative number has no '-' to replace, so its
      name is the unsanitised one. */
  lemma UnsanitizedNameNoMinus(spec: DepthwiseConvolution2DSpec, useBfloat16: bool)
    requires NonNegative(spec)
    ensures '-' !in UnsanitizedName(spec, useBfloat16)
  {
    JoinNoMinus(spec.activationDims, 'x');
    JoinNoMinus(spec.activationLayout, '_');
    JoinNoMinus(spec.kernelDims, 'x');
    JoinNoMinus(spec.kernelLayout, '_');
    JoinNoMinus(spec.outputDims, 'x');
    JoinNoMinus(spec.outputLayout, '_');
    TailNoMinus(spec, useBfloat16);
    AssembleNoMinus(Render(spec, useBfloat16));
  }

  lemma SanitizingKeepsNonNegativeNames(spec: DepthwiseConvolution2DSpec, useBfloat16: bool)
    requires NonNegative(spec)
    ensures DepthwiseConvolution2DTestDataToString(spec, useBfloat16) == UnsanitizedName(spec, useBfloat16)
  {
    UnsanitizedNameNoMinus(spec, useBfloat16);
    ReplaceAbsent(UnsanitizedName(spec, useBfloat16), '-', 'n');
  }

  /** An assembled name ends with its tail. */
  lemma AssembleEndsWithTail(p: RenderedParts)
    ensures HasSuffix(Assemble(p), p.tail)
  {
    var t := p.tail;
    var r6 := "_output_layout_" + p.outputLayout + t;
    var r5 := "_output_dims_" + p.outputDims + r6;
    var r4 := "_kernel_layout_" + p.kernelLayout + r5;
    var r3 := "_kernel_dims_" + p.kernelDims + r4;
    var r2 := "_activation_layout_" + p.activationLayout + r3;
    assert HasSuffix(r6, t) by {
      assert t[|t| - |t|..] == t;
      HasSuffixPrepend("_output_layout_" + p.outputLayout, t, t);
    }
    assert HasSuffix(r5, t) by { HasSuffixPrepend("_output_dims_" + p.outputDims, r6, t); }
    assert HasSuffix(r4, t) by { HasSuffixPrepend("_kernel_layout_" + p.kernelLayout, r5, t); }
    assert HasSuffix(r3, t) by { HasSuffixPrepend("_kernel_dims_" + p.kernelDims, r4, t); }
    assert HasSuffix(r2, t) by { HasSuffixPrepend("_activation_layout_" + p.activationLayout, r3, t); }
    HasSuffixPrepend("activation_dims_" + p.activationDims, r2, t);
  }

  /** The last two characters of the tail: "x1" from the dilation suffix,
      otherwise the end of the element type. */
  function TailEnd(spec: DepthwiseConvolution2DSpec, useBfloat16: bool): (end: string)
    ensures |end| == 2 && '-' !in end
    ensures end == "x1" <==> HasLhsDilation(spec)
    ensures HasSuffix(GetFloatDataType(useBfloat16) + LhsDilationSuffix(spec), end)
  {
    if HasLhsDilation(spec) then "x1" else if useBfloat16 then "16" else "32"
  }

  lemma TailSuffixes(spec: DepthwiseConvolution2DSpec, useBfloat16: bool)
    ensures HasSuffix(Render(spec, useBfloat16).tail, TailEnd(spec, useBfloat16))
    ensures HasLhsDilation(spec) ==> HasSuffix(Render(spec, useBfloat16).tail, LhsDilationSuffix(spec))
  {
    var dataType, suffix := GetFloatDataType(useBfloat16), LhsDilationSuffix(spec);
    if HasLhsDilation(spec) {
      assert HasSuffix(suffix, "x1");
      HasSuffixPrepend(dataType, suffix, "x1");
      assert HasSuffix(suffix, suffix);
      HasSuffixPrepend(dataType, suffix, suffix);
    } else {
      assert Render(spec, useBfloat16).tail == dataType;
    }
  }

  /** The unsanitised name ends in "x1" exactly when the case has a stride, and
      then it ends in "_lhs_dilation_<lhs_dilate>x1"; sanitising keeps the
      final "x1" or its absence. */
  lemma NameSuffix(spec: DepthwiseConvolution2DSpec, useBfloat16: bool)
    ensures HasLhsDilation(spec) ==> HasSuffix(UnsanitizedName(spec, useBfloat16), LhsDilationSuffix(spec))
    ensures HasLhsDilation(spec) <==> HasSuffix(DepthwiseConvolution2DTestDataToString(spec, useBfloat16), "x1")
    ensures HasLhsDilation(spec) && spec.params.value.lhsDilate >= 0 ==>
              HasSuffix(DepthwiseConvolution2DTestDataToString(spec, useBfloat16), LhsDilationSuffix(spec))
  {
    var p := Render(spec, useBfloat16);
    var raw := UnsanitizedName(spec, useBfloat16);
    var last2 := TailEnd(spec, useBfloat16);
    AssembleEndsWithTail(p);
    TailSuffixes(spec, useBfloat16);
    HasSuffixTransitive(raw, p.tail, last2);
    if HasLhsDilation(spec) {
      HasSuffixTransitive(raw, p.tail, LhsDilationSuffix(spec));
      if spec.params.value.lhsDilate >= 0 {
        assert '-' !in LhsDilationSuffix(spec) by {
          TailNoMinus(spec, useBfloat16);
        }
        ReplaceKeepsSuffix(raw, LhsDilationSuffix(spec), '-', 'n');
      }
    }
    ReplaceKeepsSuffix(raw, last2, '-', 'n');
    SuffixesOfEqualLength(Replace(raw, '-', 'n'), last2, "x1");
  }

  /** Sanitising leaves the name of a case of admissible options unchanged. */
  lemma ExpandedNameUnsanitized(options: seq<ConfigOption>, i: nat, useBfloat16: bool)
    requires forall k :: 0 <= k < |options| ==> Admissible(options[k])
    requires i < |Expand(options)|
    ensures DepthwiseConvolution2DTestDataToString(Expand(options)[i], useBfloat16) ==
            UnsanitizedName(Expand(options)[i], useBfloat16)
  {
    ExpandedCaseNonNegative(options, i);
    SanitizingKeepsNonNegativeNames(Expand(options)[i], useBfloat16);
  }

  /** Two cases of distinct options with the same shapes and layouts are the
      same case. */
  lemma SameShapesSameIndex(options: seq<ConfigOption>, i: nat, j: nat)
    requires NoDuplicates(options)
    requires i < |Expand(options)| && j < |Expand(options)|
    requires SameShapesAndLayouts(Expand(options)[i], Expand(options)[j])
    ensures i == j
  {
    ExpandDistinct(options);
  }

  /** For a list of distinct admissible options, as config_options is
      (TestCases.ConfigOptionsDistinct, TestCases.ConfigOptionsAdmissible), no
      two test instances over its cases and both element types share a name. */
  lemma NamesUnique(options: seq<ConfigOption>, i: nat, b1: bool, j: nat, b2: bool)
    requires NoDuplicates(options) && forall k :: 0 <= k < |options| ==> Admissible(options[k])
    requires i < |Expand(options)| && j < |Expand(options)|
    requires DepthwiseConvolution2DTestDataToString(Expand(options)[i], b1) ==
             DepthwiseConvolution2DTestDataToString(Expand(options)[j], b2)
    ensures i == j && b1 == b2
  {
    var cases := Expand(options);
    ExpandedNameUnsanitized(options, i, b1);
    ExpandedNameUnsanitized(options, j, b2);
    UnsanitizedNameInjective(cases[i], b1, cases[j], b2);
    SameShapesSameIndex(options, i, j);
  }

  /** Over all generated cases and both element types, no two test instances
      share a name. */
  lemma GeneratedNamesUnique(skipOuterDimCases: bool, i: nat, b1: bool, j: nat, b2: bool)
    requires i < |Expand(ConfigOptions(skipOuterDimCases))| && j < |Expand(ConfigOptions(skipOuterDimCases))|
    requires DepthwiseConvolution2DTestDataToString(Expand(ConfigOptions(skipOuterDimCases))[i], b1) ==
             DepthwiseConvolution2DTestDataToString(Expand(ConfigOptions(skipOuterDimCases))[j], b2)
    ensures i == j && b1 == b2
  {
    ConfigOptionsDistinct(skipOuterDimCases);
    ConfigOptionsAdmissible(skipOuterDimCases);
    NamesUnique(ConfigOptions(skipOuterDimCases), i, b1, j, b2);
  }

  /** Every case of the option (256, 5, 2, 144) carries its lhs dilation of 8
      at the end of its name. */
  lemma DilationNameExample(v: nat, useBfloat16: bool)
    requires v < 4
    ensures HasSuffix(DepthwiseConvolution2DTestDataToString(Variants(ConfigOption(256, 5, 2, 144))[v], useBfloat16),
                      "_lhs_dilation_8x1")
  {
    var spec := Variants(ConfigOption(256, 5, 2, 144))[v];
    assert spec.params == Some(WindowParams(4, 0, 8));
    assert LhsDilationSuffix(spec) == "_lhs_dilation_8x1";
    NameSuffix(spec, useBfloat16);
  }

  /** The option (256, 1, 2, 64) is an outer-dimension case: although its
      feature count is 256, its names carry no dilation suffix. This rests on
      reading its never-assigned stride, pad and lhs_dilate (None in the model)
      as stride == -1; the source reads indeterminate values there. */
  lemma OuterDimNameExample(v: nat, useBfloat16: bool)
    requires v < 4
    ensures !HasSuffix(DepthwiseConvolution2DTestDataToString(Variants(ConfigOption(256, 1, 2, 64))[v], useBfloat16),
                       "x1")
  {
    var spec := Variants(ConfigOption(256, 1, 2, 64))[v];
    assert spec.params == None;
    NameSuffix(spec, useBfloat16);
  }
}
