/** BuildHloTextDepthwiseConvolution2D: the HLO program a test case runs. It
    declares an activation and a kernel parameter, and its root is one
    convolution of the two with feature_group_count equal to the output
    feature count (a depthwise convolution). Three templates differ in the
    window attribute and in indentation: the outer-dimension shape (1x1
    activation, 2x2 kernel) gets a padded, rhs-dilated window; a case without
    a stride gets a bare window; a case with a stride gets a strided,
    lhs-dilated window. */
module HloText {
  import opened Text
  import opened ConvSpec
  import opened TestCases

  /** The window attribute of the convolution, one constructor per template. */
  datatype Window =
    | OuterDimWindow(size: int)
    | PlainWindow(size: int)
    | LhsDilatedWindow(size: int, stride: int, lhsDilate: int)

  /** The template test: activation_dims[1] == 1 and kernel_dims[1] == 2 come
      first; otherwise stride == -1 selects the bare window. A case whose
      stride was never assigned reads as stride == -1. */
  function ChooseWindow(spec: DepthwiseConvolution2DSpec): (w: Window)
    requires |spec.activationDims| > 1 && |spec.kernelDims| > 1
    ensures w.size == spec.window
    ensures w.OuterDimWindow? <==> spec.activationDims[1] == 1 && spec.kernelDims[1] == 2
    ensures w.LhsDilatedWindow? <==> !w.OuterDimWindow? && HasLhsDilation(spec)
    ensures w.LhsDilatedWindow? ==>
              w.stride == spec.params.value.stride && w.lhsDilate == spec.params.value.lhsDilate
  {
    if spec.activationDims[1] == 1 && spec.kernelDims[1] == 2 then OuterDimWindow(spec.window)
    else if !HasLhsDilation(spec) then PlainWindow(spec.window)
    else LhsDilatedWindow(spec.window, spec.params.value.stride, spec.params.value.lhsDilate)
  }

  /** The text between "window={" and "}". The lhs-dilated template passes the
      literal 0 for both low and high padding of the first spatial dimension. */
  function RenderWindow(w: Window): (text: string)
    ensures |text| == 6 + 2 * |IntToString(w.size)| + |WindowRest(w)|
    ensures text[..5] == "size="
  {
    var d := IntToString(w.size);
    "size=" + (d + ("x" + (d + WindowRest(w))))
  }

  /** What follows "size=<d>x<d>" in the window attribute. */
  function WindowRest(w: Window): (rest: string)
    ensures w.PlainWindow? <==> |rest| == 0
    ensures w.OuterDimWindow? ==> |rest| > 10 && rest[..10] == "  pad=1_1x"
    ensures w.LhsDilatedWindow? ==> |rest| > 8 && rest[..8] == " stride="
  {
    var d := IntToString(w.size);
    match w
    case OuterDimWindow(_) => "  pad=1_1x" + d + "_" + d + " rhs_dilate=1x" + d
    case PlainWindow(_) => ""
    case LhsDilatedWindow(_, stride, lhsDilate) =>
      " stride=" + (IntToString(stride) + ("x1 pad=0_0x0_0 lhs_dilate=" + (IntToString(lhsDilate) + "x1")))
  }

  function WindowAttribute(w: Window): (attribute: string)
    ensures |attribute| > 9 && attribute[..8] == "window={" && attribute[|attribute| - 1] == '}'
    ensures attribute[8..|attribute| - 1] == RenderWindow(w)
  {
    "window={" + RenderWindow(w) + "}"
  }

  const DimLabels := "dim_labels=b01f_01io->b01f"

  const ModuleHeader := "HloModule TensorFlowDepthwiseConv"

  /** The group-count attribute; it prints the count as a decimal. */
  function FeatureGroupCount(outputFeature: int): (attribute: string)
    ensures |attribute| > 20 && attribute[..20] == "feature_group_count="
    ensures forall i :: 20 <= i < |attribute| ==> IsNumeral(attribute[i])
  {
    "feature_group_count=" + IntToString(outputFeature)
  }

  /** An HLO shape: element type, comma-joined dimensions, comma-joined
      minor-to-major layout. */
  function TensorType(dataType: string, dims: seq<int>, layout: seq<int>): (t: string)
    ensures |t| > |dataType| + 1 && t[..|dataType|] == dataType && t[|dataType|] == '[' && t[|t| - 1] == '}'
  {
    dataType + ("[" + (Join(dims, ',') + ("]{" + (Join(layout, ',') + "}"))))
  }

  function ActivationType(spec: DepthwiseConvolution2DSpec, useBfloat16: bool): (t: string)
    ensures var e := GetFloatDataType(useBfloat16); |t| > |e| && t[..|e|] == e && t[|e|] == '['
  {
    TensorType(GetFloatDataType(useBfloat16), spec.activationDims, spec.activationLayout)
  }

  function KernelType(spec: DepthwiseConvolution2DSpec, useBfloat16: bool): (t: string)
    ensures var e := GetFloatDataType(useBfloat16); |t| > |e| && t[..|e|] == e && t[|e|] == '['
  {
    TensorType(GetFloatDataType(useBfloat16), spec.kernelDims, spec.kernelLayout)
  }

  function OutputType(spec: DepthwiseConvolution2DSpec, useBfloat16: bool): (t: string)
    ensures var e := GetFloatDataType(useBfloat16); |t| > |e| && t[..|e|] == e && t[|e|] == '['
  {
    TensorType(GetFloatDataType(useBfloat16), spec.outputDims, spec.outputLayout)
  }

  function ActivationParameter(spec: DepthwiseConvolution2DSpec, useBfloat16: bool): (instruction: string)
    ensures |instruction| > 26 && instruction[..13] == "activation = "
    ensures instruction[|instruction| - 13..] == " parameter(0)"
  {
    "activation = " + ActivationType(spec, useBfloat16) + " parameter(0)"
  }

  function KernelParameter(spec: DepthwiseConvolution2DSpec, useBfloat16: bool): (instruction: string)
    ensures |instruction| > 22 && instruction[..9] == "kernel = "
    ensures instruction[|instruction| - 13..] == " parameter(1)"
  {
    "kernel = " + KernelType(spec, useBfloat16) + " parameter(1)"
  }

  /** The root instruction up to its attributes; the operand types repeat
      the parameter types. */
  function ConvolutionInstruction(spec: DepthwiseConvolution2DSpec, useBfloat16: bool): (instruction: string)
    ensures |instruction| > 21 && instruction[..12] == "ROOT conv = "
    ensures instruction[|instruction| - 9..] == " kernel),"
  {
    Framed("ROOT conv = ", OutputType(spec, useBfloat16), " convolution(", ActivationType(spec, useBfloat16),
           " activation, ", KernelType(spec, useBfloat16), " kernel),");
    "ROOT conv = " + OutputType(spec, useBfloat16) + " convolution(" + ActivationType(spec, useBfloat16) +
    " activation, " + KernelType(spec, useBfloat16) + " kernel),"
  }

  /** Appending keeps a prefix. */
  lemma AppendKeepsPrefix(x: string, y: string, n: nat)
    requires n <= |x|
    ensures (x + y)[..n] == x[..n]
  {
  }

  /** A string appended together from a head, five middle pieces and a tail,
      left to right, starts with the head and ends with the tail. */
  lemma Framed(head: string, m1: string, m2: string, m3: string, m4: string, m5: string, tail: string)
    ensures (head + m1 + m2 + m3 + m4 + m5 + tail)[..|head|] == head
    ensures (head + m1 + m2 + m3 + m4 + m5 + tail)[|head + m1 + m2 + m3 + m4 + m5|..] == tail
  {
    var n := |head|;
    AppendKeepsPrefix(head, m1, n);
    AppendKeepsPrefix(head + m1, m2, n);
    AppendKeepsPrefix(head + m1 + m2, m3, n);
    AppendKeepsPrefix(head + m1 + m2 + m3, m4, n);
    AppendKeepsPrefix(head + m1 + m2 + m3 + m4, m5, n);
    AppendKeepsPrefix(head + m1 + m2 + m3 + m4 + m5, tail, n);
  }

  /** The attribute line that opens with the window. The lhs-dilated template
      breaks the line after the window, leaving a trailing blank; the others
      break it after dim_labels. */
  function WindowLine(w: Window, indent: string): (line: string)
    ensures |line| > |indent| && line[..|indent|] == indent
    ensures line[|line| - 1] == ' ' <==> w.LhsDilatedWindow?
  {
    if w.LhsDilatedWindow? then indent + WindowAttribute(w) + ", "
    else indent + WindowAttribute(w) + ", " + DimLabels + ","
  }

  /** The attribute line that closes with the group count; the lhs-dilated
      template puts dim_labels before it. */
  function LastAttributeLine(w: Window, indent: string, outputFeature: int): (line: string)
    ensures |line| >= |indent| && line[..|indent|] == indent
    ensures HasSuffix(line, FeatureGroupCount(outputFeature))
    ensures |line| > |indent| + |FeatureGroupCount(outputFeature)| <==> w.LhsDilatedWindow?
  {
    if w.LhsDilatedWindow? then indent + DimLabels + ", " + FeatureGroupCount(outputFeature)
    else indent + FeatureGroupCount(outputFeature)
  }

  /** The lines of the raw-string template, given its indentation, its three
      instructions and its two attribute lines. */
  function TemplateLines(margin: string, activation: string, kernel: string, convolution: string,
                         windowLine: string, lastAttributeLine: string): (lines: seq<string>)
    ensures |lines| == 11
  {
    [ "",
      margin + ModuleHeader,
      "",
      margin + "ENTRY main {",
      margin + "  " + activation,
      margin + "  " + kernel,
      margin + "  " + convolution,
      windowLine,
      lastAttributeLine,
      margin + "}",
      margin ]
  }

  /** The bare-window template is indented two columns deeper than the other
      two. */
  function Margin(w: Window): (margin: string)
    ensures |margin| == if w.PlainWindow? then 6 else 4
    ensures forall i :: 0 <= i < |margin| ==> margin[i] == ' '
  {
    if w.PlainWindow? then "      " else "    "
  }

  /** The lines of the template the case selects, its placeholders filled in. */
  function HloLines(spec: DepthwiseConvolution2DSpec, useBfloat16: bool): (lines: seq<string>)
    requires |spec.activationDims| > 1 && |spec.kernelDims| > 1
    ensures |lines| == 11
  {
    var w := ChooseWindow(spec);
    var attributes := Margin(w) + "      ";
    TemplateLines(Margin(w), ActivationParameter(spec, useBfloat16), KernelParameter(spec, useBfloat16),
                  ConvolutionInstruction(spec, useBfloat16),
                  WindowLine(w, attributes), LastAttributeLine(w, attributes, spec.outputFeature))
  }

  /** BuildHloTextDepthwiseConvolution2D: the template text, a newline
      between consecutive lines (the text starts with a newline and ends with
      the closing indentation). */
  function BuildHloTextDepthwiseConvolution2D(spec: DepthwiseConvolution2DSpec, useBfloat16: bool): (text: string)
    requires |spec.activationDims| > 1 && |spec.kernelDims| > 1
    ensures |text| > 0 && text[0] == '\n'
  {
    var lines := HloLines(spec, useBfloat16);
    assert JoinLines(lines) == "" + "\n" + JoinLines(lines[1..]);
    JoinLines(lines)
  }

  /** A line of the template puts sub into the text. */
  lemma LineContains(lines: seq<string>, k: nat, p: string, sub: string, q: string)
    requires k < |lines| && lines[k] == p + sub + q
    ensures Contains(JoinLines(lines), sub)
  {
    JoinLinesContains(lines, k);
    ContainsPart(p, sub, q);
    ContainsTransitive(JoinLines(lines), lines[k], sub);
  }

  /** Each instruction and attribute line of the template, and the module
      header, occurs in the text. */
  lemma TemplateContains(margin: string, activation: string, kernel: string, convolution: string,
                         windowLine: string, lastAttributeLine: string)
    ensures var text := JoinLines(TemplateLines(margin, activation, kernel, convolution, windowLine, lastAttributeLine));
      && Contains(text, ModuleHeader)
      && Contains(text, activation) && Contains(text, kernel) && Contains(text, convolution)
      && Contains(text, windowLine) && Contains(text, lastAttributeLine)
  {
    var lines := TemplateLines(margin, activation, kernel, convolution, windowLine, lastAttributeLine);
    LineContains(lines, 1, margin, ModuleHeader, "");
    LineContains(lines, 4, margin + "  ", activation, "");
    LineContains(lines, 5, margin + "  ", kernel, "");
    LineContains(lines, 6, margin + "  ", convolution, "");
    LineContains(lines, 7, "", windowLine, "");
    LineContains(lines, 8, "", lastAttributeLine, "");
  }

  /** The program is the TensorFlowDepthwiseConv module; it declares the
      activation as parameter 0 and the kernel as parameter 1, each with the
      element type and the dims and layout of the case; and its root
      convolves them into the output shape and layout, passing operands whose
      types repeat those of the parameters. */
  lemma HloTextDeclaresShapes(spec: DepthwiseConvolution2DSpec, useBfloat16: bool)
    requires |spec.activationDims| > 1 && |spec.kernelDims| > 1
    ensures var text := BuildHloTextDepthwiseConvolution2D(spec, useBfloat16);
      && Contains(text, ModuleHeader)
      && Contains(text, "activation = " + ActivationType(spec, useBfloat16) + " parameter(0)")
      && Contains(text, "kernel = " + KernelType(spec, useBfloat16) + " parameter(1)")
      && Contains(text, "ROOT conv = " + OutputType(spec, useBfloat16) + " convolution(" +
                        ActivationType(spec, useBfloat16) + " activation, " +
                        KernelType(spec, useBfloat16) + " kernel),")
  {
    var w := ChooseWindow(spec);
    var attributes := Margin(w) + "      ";
    TemplateContains(Margin(w), ActivationParameter(spec, useBfloat16), KernelParameter(spec, useBfloat16),
                     ConvolutionInstruction(spec, useBfloat16),
                     WindowLine(w, attributes), LastAttributeLine(w, attributes, spec.outputFeature));
  }

  /** The window attribute opens the first attribute line. */
  lemma WindowLineContainsWindow(w: Window, indent: string)
    ensures Contains(WindowLine(w, indent), WindowAttribute(w))
  {
    var attribute, rest := WindowAttribute(w), if w.LhsDilatedWindow? then ", " else ", " + DimLabels + ",";
    assert WindowLine(w, indent) == indent + attribute + rest;
    ContainsPart(indent, attribute, rest);
  }

  /** The dimension labels end the first attribute line, or open the second
      one in the lhs-dilated template. */
  lemma AttributeLinesContainDimLabels(w: Window, indent: string, outputFeature: int)
    ensures if w.LhsDilatedWindow? then Contains(LastAttributeLine(w, indent, outputFeature), DimLabels)
            else Contains(WindowLine(w, indent), DimLabels)
  {
    if w.LhsDilatedWindow? {
      var groups := FeatureGroupCount(outputFeature);
      assert LastAttributeLine(w, indent, outputFeature) == indent + DimLabels + (", " + groups);
      ContainsPart(indent, DimLabels, ", " + groups);
    } else {
      ContainsPart(indent + WindowAttribute(w) + ", ", DimLabels, ",");
    }
  }

  /** The feature group count ends the second attribute line. */
  lemma LastAttributeLineContainsGroups(w: Window, indent: string, outputFeature: int)
    ensures Contains(LastAttributeLine(w, indent, outputFeature), FeatureGroupCount(outputFeature))
  {
    var groups := FeatureGroupCount(outputFeature);
    if w.LhsDilatedWindow? {
      ContainsPart(indent + DimLabels + ", ", groups, "");
    } else {
      ContainsPart(indent, groups, "");
    }
  }

  /** The root convolution carries the window the template test picks, the
      dimension labels b01f_01io->b01f, and one feature group per output
      feature: each input feature is convolved with its own filter. */
  lemma HloTextAttributes(spec: DepthwiseConvolution2DSpec, useBfloat16: bool)
    requires |spec.activationDims| > 1 && |spec.kernelDims| > 1
    ensures var text := BuildHloTextDepthwiseConvolution2D(spec, useBfloat16);
      && Contains(text, "window={" + RenderWindow(ChooseWindow(spec)) + "}")
      && Contains(text, DimLabels)
      && Contains(text, "feature_group_count=" + IntToString(spec.outputFeature))
  {
    var w := ChooseWindow(spec);
    var attributes := Margin(w) + "      ";
    var text := BuildHloTextDepthwiseConvolution2D(spec, useBfloat16);
    var windowLine := WindowLine(w, attributes);
    var lastAttributeLine := LastAttributeLine(w, attributes, spec.outputFeature);
    TemplateContains(Margin(w), ActivationParameter(spec, useBfloat16), KernelParameter(spec, useBfloat16),
                     ConvolutionInstruction(spec, useBfloat16), windowLine, lastAttributeLine);
    assert Contains(text, WindowAttribute(w)) by {
      WindowLineContainsWindow(w, attributes);
      ContainsTransitive(text, windowLine, WindowAttribute(w));
    }
    assert Contains(text, FeatureGroupCount(spec.outputFeature)) by {
      LastAttributeLineContainsGroups(w, attributes, spec.outputFeature);
      ContainsTransitive(text, lastAttributeLine, FeatureGroupCount(spec.outputFeature));
    }
    AttributeLinesContainDimLabels(w, attributes, spec.outputFeature);
    if w.LhsDilatedWindow? {
      ContainsTransitive(text, lastAttributeLine, DimLabels);
    } else {
      ContainsTransitive(text, windowLine, DimLabels);
    }
  }

  /** The window a case derived from `option` gets: the template test on the
      dims agrees with the regime test on the option, since activation_dims[1]
      is the activation size and kernel_dims[1] the kernel size. */
  lemma WindowOfDerivedCase(spec: DepthwiseConvolution2DSpec, option: ConfigOption)
    requires DerivedFrom(spec, option)
    ensures |spec.activationDims| > 1 && |spec.kernelDims| > 1
    ensures ChooseWindow(spec) ==
      if IsOuterDimCase(option) then OuterDimWindow(option.kernelSize)
      else if option.feature == 256 && option.activationSize != 0 then
        LhsDilatedWindow(option.kernelSize, option.activationSize - 1, option.feature / 32)
      else PlainWindow(option.kernelSize)
  {
  }

  /** For an admissible option, the template a case gets is told apart by the
      activation size and the feature count alone. */
  lemma WindowOfAdmissibleCase(spec: DepthwiseConvolution2DSpec, option: ConfigOption)
    requires DerivedFrom(spec, option) && Admissible(option)
    ensures |spec.activationDims| > 1 && |spec.kernelDims| > 1
    ensures ChooseWindow(spec).OuterDimWindow? <==> spec.activationDims[1] == 1
    ensures ChooseWindow(spec).LhsDilatedWindow? <==> spec.activationDims[1] != 1 && spec.outputFeature == 256
    ensures ChooseWindow(spec).LhsDilatedWindow? ==>
              ChooseWindow(spec) == LhsDilatedWindow(spec.window, spec.activationDims[1] - 1, 8)
  {
    WindowOfDerivedCase(spec, option);
  }

  /** Among the generated cases, exactly those with 256 features outside the
      outer-dimension shape get the strided, lhs-dilated window, with stride
      one less than the activation size and lhs dilation 8. */
  lemma GeneratedCaseWindows(skipOuterDimCases: bool, i: nat)
    requires i < |Expand(ConfigOptions(skipOuterDimCases))|
    ensures var spec := Expand(ConfigOptions(skipOuterDimCases))[i];
      && |spec.activationDims| > 1 && |spec.kernelDims| > 1
      && (ChooseWindow(spec).OuterDimWindow? <==> spec.activationDims[1] == 1)
      && (ChooseWindow(spec).LhsDilatedWindow? <==> spec.activationDims[1] != 1 && spec.outputFeature == 256)
      && (ChooseWindow(spec).LhsDilatedWindow? ==>
            ChooseWindow(spec) == LhsDilatedWindow(spec.window, spec.activationDims[1] - 1, 8))
  {
    var spec := Expand(ConfigOptions(skipOuterDimCases))[i];
    GeneratedCaseOrigin(skipOuterDimCases, i);
    var option :| Admissible(option) && DerivedFrom(spec, option);
    WindowOfAdmissibleCase(spec, option);
  }

  /** The size and every number of the window can be read back from the
      window attribute: the three templates never render the same text. */
  lemma RenderWindowInjective(w1: Window, w2: Window)
    requires RenderWindow(w1) == RenderWindow(w2)
    ensures w1 == w2
  {
    var d1, d2 := IntToString(w1.size), IntToString(w2.size);
    var r1, r2 := "x" + (d1 + WindowRest(w1)), "x" + (d2 + WindowRest(w2));
    DropCommonPrefix("size=", d1 + r1, d2 + r2);
    SplitAtFirst(d1, r1, d2, r2);
    IntToStringInjective(w1.size, w2.size);
    DropCommonPrefix("x", d1 + WindowRest(w1), d2 + WindowRest(w2));
    DropCommonPrefix(d1, WindowRest(w1), WindowRest(w2));
    WindowRestInjective(w1, w2);
  }

  lemma WindowRestInjective(w1: Window, w2: Window)
    requires w1.size == w2.size && WindowRest(w1) == WindowRest(w2)
    ensures w1 == w2
  {
    WindowRestShape(w1);
    WindowRestShape(w2);
    if w1.LhsDilatedWindow? && w2.LhsDilatedWindow? {
      LhsDilatedRestInjective(w1, w2);
    }
  }

  /** The bare window has nothing after its size; the padded one continues
      with a second blank, the strided one with " s". */
  lemma WindowRestShape(w: Window)
    ensures w.PlainWindow? <==> |WindowRest(w)| == 0
    ensures w.OuterDimWindow? ==> |WindowRest(w)| > 1 && WindowRest(w)[1] == ' '
    ensures w.LhsDilatedWindow? ==> |WindowRest(w)| > 1 && WindowRest(w)[1] == 's'
  {
  }

  lemma LhsDilatedRestInjective(w1: Window, w2: Window)
    requires w1.LhsDilatedWindow? && w2.LhsDilatedWindow?
    requires WindowRest(w1) == WindowRest(w2)
    ensures w1.stride == w2.stride && w1.lhsDilate == w2.lhsDilate
  {
    var s1, s2 := IntToString(w1.stride), IntToString(w2.stride);
    var l1, l2 := IntToString(w1.lhsDilate), IntToString(w2.lhsDilate);
    var middle := "x1 pad=0_0x0_0 lhs_dilate=";
    DropCommonPrefix(" stride=", s1 + (middle + (l1 + "x1")), s2 + (middle + (l2 + "x1")));
    SplitAtFirst(s1, middle + (l1 + "x1"), s2, middle + (l2 + "x1"));
    IntToStringInjective(w1.stride, w2.stride);
    DropCommonPrefix(middle, l1 + "x1", l2 + "x1");
    DropCommonSuffix(l1, l2, "x1");
    IntToStringInjective(w1.lhsDilate, w2.lhsDilate);
  }

  /** An HLO shape is read back into its element type, dims and layout, for
      any element type without a '['. */
  lemma TensorTypeInjective(t1: string, dims1: seq<int>, layout1: seq<int>,
                            t2: string, dims2: seq<int>, layout2: seq<int>)
    requires '[' !in t1 && '[' !in t2
    requires TensorType(t1, dims1, layout1) == TensorType(t2, dims2, layout2)
    ensures t1 == t2 && dims1 == dims2 && layout1 == layout2
  {
    var j1, j2 := Join(dims1, ','), Join(dims2, ',');
    var k1, k2 := Join(layout1, ',') + "}", Join(layout2, ',') + "}";
    SplitAtFirst(t1, "[" + (j1 + ("]{" + k1)), t2, "[" + (j2 + ("]{" + k2)));
    DropCommonPrefix("[", j1 + ("]{" + k1), j2 + ("]{" + k2));
    JoinChars(dims1, ',');
    JoinChars(dims2, ',');
    SplitAtFirst(j1, "]{" + k1, j2, "]{" + k2);
    JoinInjective(dims1, dims2, ',');
    DropCommonPrefix("]{", k1, k2);
    DropCommonSuffix(Join(layout1, ','), Join(layout2, ','), "}");
    JoinInjective(layout1, layout2, ',');
  }

  /** The window a generated case gets, from the option it came from. */
  lemma ExampleWindow(option: ConfigOption, w: Window)
    requires Admissible(option)
    requires w == if IsOuterDimCase(option) then OuterDimWindow(option.kernelSize)
                  else if option.feature == 256 then
                    LhsDilatedWindow(option.kernelSize, option.activationSize - 1, option.feature / 32)
                  else PlainWindow(option.kernelSize)
    ensures var spec := Variants(option)[0];
      |spec.activationDims| > 1 && |spec.kernelDims| > 1 &&
      spec.outputFeature == option.feature && ChooseWindow(spec) == w
  {
    WindowOfAdmissibleCase(Variants(option)[0], option);
  }

  /** The HLO text of a case holds the window attribute and the group count
      spelt out. */
  lemma HloTextSpelled(spec: DepthwiseConvolution2DSpec, useBfloat16: bool, window: string, groups: string)
    requires |spec.activationDims| > 1 && |spec.kernelDims| > 1
    requires "window={" + RenderWindow(ChooseWindow(spec)) + "}" == window
    requires "feature_group_count=" + IntToString(spec.outputFeature) == groups
    ensures Contains(BuildHloTextDepthwiseConvolution2D(spec, useBfloat16), window)
    ensures Contains(BuildHloTextDepthwiseConvolution2D(spec, useBfloat16), groups)
  {
    HloTextAttributes(spec, useBfloat16);
  }

  /** The plain regime (128, 6, 3, 64): a bare 3x3 window and 128 feature
      groups. */
  lemma PlainHloExample(useBfloat16: bool)
    ensures var text := BuildHloTextDepthwiseConvolution2D(Variants(ConfigOption(128, 6, 3, 64))[0], useBfloat16);
      Contains(text, "window={size=3x3}") && Contains(text, "feature_group_count=128")
  {
    var option := ConfigOption(128, 6, 3, 64);
    ExampleWindow(option, PlainWindow(3));
    assert "window={" + RenderWindow(PlainWindow(3)) + "}" == "window={size=3x3}";
    assert "feature_group_count=" + IntToString(128) == "feature_group_count=128";
    HloTextSpelled(Variants(option)[0], useBfloat16, "window={size=3x3}", "feature_group_count=128");
  }

  /** The part of a 2x2 outer-dimension window after its size, spelt out: the
      padding is asymmetric in the two spatial dimensions. */
  lemma OuterDimRestText()
    ensures WindowRest(OuterDimWindow(2)) == "  pad=1_1x2_2 rhs_dilate=1x2"
  {
    assert IntToString(2) == "2";
    assert "  pad=1_1x" + "2" == "  pad=1_1x2";
    assert "  pad=1_1x2" + "_" == "  pad=1_1x2_";
    assert "  pad=1_1x2_" + "2" == "  pad=1_1x2_2";
    assert "  pad=1_1x2_2" + " rhs_dilate=1x" == "  pad=1_1x2_2 rhs_dilate=1x";
  }

  /** The text of a 2x2 window up to its rest. */
  lemma SizeTwoPrefix(d: string, rest: string)
    requires d == "2"
    ensures "window={" + ("size=" + (d + ("x" + (d + rest)))) == "window={size=2x2" + rest
  {
    assert "size=" + (d + ("x" + (d + rest))) == (("size=" + "2") + "x") + "2" + rest;
    assert (("size=" + "2") + "x") + "2" == "size=2x2";
    assert "window={" + "size=2x2" == "window={size=2x2";
    assert "window={" + ("size=2x2" + rest) == "window={size=2x2" + rest;
  }

  /** Closing the window attribute after the outer-dimension rest. */
  lemma CloseOuterDimWindow(rest: string)
    requires rest == "  pad=1_1x2_2 rhs_dilate=1x2"
    ensures "window={size=2x2" + rest + "}" == "window={size=2x2  pad=1_1x2_2 rhs_dilate=1x2}"
  {
    assert "window={size=2x2" + "  pad=1_1x2_2 rhs_dilate=1x2" == "window={size=2x2  pad=1_1x2_2 rhs_dilate=1x2";
  }

  /** The window attribute of a 2x2 outer-dimension window, spelt out. */
  lemma OuterDimWindowText()
    ensures WindowAttribute(OuterDimWindow(2)) == "window={size=2x2  pad=1_1x2_2 rhs_dilate=1x2}"
  {
    OuterDimRestText();
    assert IntToString(2) == "2";
    SizeTwoPrefix(IntToString(2), WindowRest(OuterDimWindow(2)));
    CloseOuterDimWindow(WindowRest(OuterDimWindow(2)));
  }

  /** The outer-dimension case (256, 1, 2, 64) gets the padded, rhs-dilated
      2x2 window even though its feature count is 256. */
  lemma OuterDimHloExample(useBfloat16: bool)
    ensures var text := BuildHloTextDepthwiseConvolution2D(Variants(ConfigOption(256, 1, 2, 64))[0], useBfloat16);
      Contains(text, "window={size=2x2  pad=1_1x2_2 rhs_dilate=1x2}") && Contains(text, "feature_group_count=256")
  {
    var option := ConfigOption(256, 1, 2, 64);
    ExampleWindow(option, OuterDimWindow(2));
    OuterDimWindowText();
    assert "feature_group_count=" + IntToString(256) == "feature_group_count=256";
    HloTextSpelled(Variants(option)[0], useBfloat16, "window={size=2x2  pad=1_1x2_2 rhs_dilate=1x2}",
                   "feature_group_count=256");
  }

  /** The dilation case (256, 5, 2, 144) gets a 2x2 window with stride 4 and
      lhs dilation 8 (256 / 32). */
  lemma DilatedHloExample(useBfloat16: bool)
    ensures var text := BuildHloTextDepthwiseConvolution2D(Variants(ConfigOption(256, 5, 2, 144))[0], useBfloat16);
      Contains(text, WindowAttribute(LhsDilatedWindow(2, 4, 8))) && Contains(text, "feature_group_count=256")
  {
    var option := ConfigOption(256, 5, 2, 144);
    ExampleWindow(option, LhsDilatedWindow(2, 4, 8));
    assert "feature_group_count=" + IntToString(256) == "feature_group_count=256";
    HloTextSpelled(Variants(option)[0], useBfloat16, WindowAttribute(LhsDilatedWindow(2, 4, 8)),
                   "feature_group_count=256");
  }
}
