# Depthwise 2-D convolution test cases for XLA, modelled in Dafny

XLA's depthwise convolution test (`conv_depthwise_test.cc`) builds a table of
depthwise 2-D convolution cases from a fixed list of options
`{feature, activation_size, kernel_size, batch}`. It gives each case a readable
test name and renders each case as an HLO module in text form. This project
models those parts:

- `ConvSpec` (`conv_spec.dfy`) models the `DepthwiseConvolution2DSpec` record
  and `GetFloatDataType`.
- `TestCases` (`test_cases.dfy`) models `GetConv2DTestCases`:
  - the functional specification is `BaseCase`, `Variants` and `Expand`;
  - the method `GetConv2DTestCases` follows the source's loop;
  - the method `PushCases` follows the loop body, which updates one record in
    place and pushes it after each layout change.
  - Both methods are proved equal to the specification. The file also proves
    the case count, the order of the cases, that no two cases coincide, and that
    no number a generated case's test name prints is negative. The plain cases
    still hold `-1` in `stride`, `pad` and `lhs_dilate`, which the name does not
    print.
- `TestNames` (`test_names.dfy`) models `DepthwiseConvolution2DTestDataToString`:
  - the name is assembled from the `StrJoin`-ed shapes and layouts, the element
    type and an optional `_lhs_dilation_<n>x1` suffix;
  - then every `'-'` in it is replaced by `'n'`.
  - The file proves that sanitising leaves no `'-'`, that a name determines every
    field it prints (so the generated cases get distinct names), and when the
    dilation suffix is present.
- `HloText` (`hlo_text.dfy`) models `BuildHloTextDepthwiseConvolution2D`:
  - it chooses one of three templates (outer dimension, plain, lhs-dilated);
  - the text is reproduced character for character, including each template's
    indentation, the double space in the outer-dimension window and the trailing
    space after the lhs-dilated window.
  - The file proves that the text declares the operand shapes and the chosen
    window, dimension labels and group count, and that the window attribute
    determines the window. It also proves which template each generated case
    gets.
- `Text` (`text.dfy`) holds the string helpers these rely on:
  - decimal rendering of integers, standing in for `absl::StrCat` and `%d`;
  - `absl::StrJoin` and `absl::c_replace`;
  - the injectivity facts needed to read a rendered string back.

The build variant is a parameter of the model. `skipOuterDimCases` is true when
the test is built for the GPU backend, where the source's `#ifndef
XLA_TEST_BACKEND_GPU` drops the two outer-dimension options.

`stride`, `pad` and `lhs_dilate` are set together or not at all, so the model
keeps them in one field of type `Option<WindowParams>`:

- the plain case has the value `-1` in all three;
- the dilation case has `stride = activation_size - 1`, `pad = 0` and
  `lhs_dilate = feature / 32`;
- the outer-dimension case never assigns them. Its record is a fresh local
  without an initializer, so the source reads indeterminate values. The model
  uses `None` here and reads `None` as `stride == -1`: the name gets no dilation
  suffix. The HLO text of this case does not depend on the fields, because its
  template is chosen before `stride` is looked at.

## Model

| member | source | states |
|---|---|---|
| ConvSpec.GetFloatDataType | tensorflow/compiler/xla/tests/conv_depthwise_test.cc:31-33 | the element type is "bf16" exactly when bfloat16 is requested, and "f32" otherwise |
| ConvSpec.HasLhsDilation | tensorflow/compiler/xla/tests/conv_depthwise_test.cc:130-132 | a case with an lhs dilation has assigned stride, pad and lhs_dilate; the plain case, with -1 in all three, has none |
| TestCases.ConfigOptions | tensorflow/compiler/xla/tests/conv_depthwise_test.cc:52-61 | nine common options come first; the GPU build has no others, and every other build appends two options, both outer-dimension cases |
| TestCases.CommonOptions | tensorflow/compiler/xla/tests/conv_depthwise_test.cc:52-55 | nine options, none of them an outer-dimension case |
| TestCases.OuterDimOptions | tensorflow/compiler/xla/tests/conv_depthwise_test.cc:57-60 | two options, both outer-dimension cases (activation size 1, kernel size 2) |
| TestCases.IsOuterDimCase | tensorflow/compiler/xla/tests/conv_depthwise_test.cc:80 | an outer-dimension case has a kernel one larger than its activation (the 1x1 activation with the 2x2 kernel) |
| TestCases.BaseCase | tensorflow/compiler/xla/tests/conv_depthwise_test.cc:64-99 | the first case of an option has the option's shapes, the kernel layout {3,2,1,0} and the default layouts; per regime it has the right output shape and stride/pad/lhs_dilate, and the outer-dimension test takes precedence over feature == 256 |
| TestCases.LayoutsArePermutations | tensorflow/compiler/xla/tests/conv_depthwise_test.cc:75-78 | the layouts {3,0,2,1}, {0,3,2,1} and {3,2,1,0} are permutations of 0..3 |
| TestCases.VariantActivationLayout | tensorflow/compiler/xla/tests/conv_depthwise_test.cc:98-110 | the activation layout of each pushed case is {3,0,2,1} or {0,3,2,1}, a permutation of 0..3 |
| TestCases.VariantOutputLayout | tensorflow/compiler/xla/tests/conv_depthwise_test.cc:98-110 | the output layout of each pushed case is {3,0,2,1} or {0,3,2,1}, a permutation of 0..3 |
| TestCases.VariantLayoutSteps | tensorflow/compiler/xla/tests/conv_depthwise_test.cc:98-110 | between two consecutive pushes exactly one of the activation and output layouts changes, and the four pushed cases have four different layout pairs |
| TestCases.Variants | tensorflow/compiler/xla/tests/conv_depthwise_test.cc:97-111 | an option gives one case, or four when its kernel size is even; the v-th case differs from the first only in its activation and output layouts, in the order the source pushes them |
| TestCases.Expand | tensorflow/compiler/xla/tests/conv_depthwise_test.cc:63-112 | every case in the list comes from one of the options |
| TestCases.ExpandSingle | tensorflow/compiler/xla/tests/conv_depthwise_test.cc:63-112 | a one-option list gives exactly that option's cases |
| TestCases.ExpandConcat | tensorflow/compiler/xla/tests/conv_depthwise_test.cc:63-112 | the cases of a concatenation of option lists are the concatenation of their cases |
| TestCases.ExpandOrder | tensorflow/compiler/xla/tests/conv_depthwise_test.cc:63-112 | the v-th case of option j sits right after the cases of the options before j |
| TestCases.DerivedFromShapes | tensorflow/compiler/xla/tests/conv_depthwise_test.cc:74-77 | two cases with the same activation and kernel shapes come from the same option |
| TestCases.ExpandDistinct | tensorflow/compiler/xla/tests/conv_depthwise_test.cc:63-112 | no two cases from a duplicate-free option list have the same shapes and layouts |
| TestCases.ConfigOptionsDistinct | tensorflow/compiler/xla/tests/conv_depthwise_test.cc:52-61 | the option list has no duplicates, in either build |
| TestCases.ExpandLength | tensorflow/compiler/xla/tests/conv_depthwise_test.cc:97-111 | the number of cases is the sum of 1 per odd kernel size and 4 per even kernel size |
| TestCases.ConfigCount | tensorflow/compiler/xla/tests/conv_depthwise_test.cc:50-115 | the GPU build has 24 cases and every other build has 32 |
| TestCases.ExpandConcatLength | tensorflow/compiler/xla/tests/conv_depthwise_test.cc:59-60 | appending options adds their case counts |
| TestCases.OuterDimCount | tensorflow/compiler/xla/tests/conv_depthwise_test.cc:59-60 | the two outer-dimension options give 8 cases |
| TestCases.CommonCount | tensorflow/compiler/xla/tests/conv_depthwise_test.cc:53-55 | the nine common options give 24 cases |
| TestCases.PushCases | tensorflow/compiler/xla/tests/conv_depthwise_test.cc:63-111 | one loop pass, updating a record in place and pushing it after each layout change, appends exactly the option's cases |
| TestCases.ExpandPrefix | tensorflow/compiler/xla/tests/conv_depthwise_test.cc:63-112 | one more option of the list adds exactly its cases after those of the options before it |
| TestCases.GetConv2DTestCases | tensorflow/compiler/xla/tests/conv_depthwise_test.cc:50-115 | the loop over the options returns exactly the specified case list, with 24 or 32 cases |
| TestCases.ConfigOptionsAdmissible | tensorflow/compiler/xla/tests/conv_depthwise_test.cc:52-61 | every option is non-negative; outside the outer-dimension case its kernel is at most one larger than the activation and its activation is larger than 1 |
| TestCases.DerivedNonNegative | tensorflow/compiler/xla/tests/conv_depthwise_test.cc:80-95 | a case derived from such an option holds no negative dimension or layout entry, and no negative lhs_dilate when it has an lhs dilation (stride != -1) |
| TestCases.GeneratedCaseOrigin | tensorflow/compiler/xla/tests/conv_depthwise_test.cc:50-115 | every generated case comes from an admissible option |
| TestCases.ExpandedCaseNonNegative | tensorflow/compiler/xla/tests/conv_depthwise_test.cc:63-112 | every case of a list of admissible options holds no negative printed number |
| TestCases.GeneratedCasesNonNegative | tensorflow/compiler/xla/tests/conv_depthwise_test.cc:50-115 | no generated case holds a number that would print with a '-' |
| TestCases.DilationRegimeExample | tensorflow/compiler/xla/tests/conv_depthwise_test.cc:84-90 | option (256, 5, 2, 144) gets stride 4, pad 0, lhs_dilate 8 and output dims {144, 8, 4, 256} |
| TestCases.PlainRegimeExample | tensorflow/compiler/xla/tests/conv_depthwise_test.cc:91-99 | option (128, 6, 3, 64) gives a single case with stride/pad/lhs_dilate -1 and output dims {64, 4, 4, 128} |
| TestCases.OuterDimExample | tensorflow/compiler/xla/tests/conv_depthwise_test.cc:80-83 | option (256, 1, 2, 64) is an outer-dimension case despite feature 256, with output dims {64, 2, 3, 256} |
| TestNames.DepthwiseConvolution2DTestDataToString | tensorflow/compiler/xla/tests/conv_depthwise_test.cc:117-137 | the name has no '-'; it has the length of the assembled string and agrees with it at every position that is not '-' |
| TestNames.LhsDilationSuffix | tensorflow/compiler/xla/tests/conv_depthwise_test.cc:129-132 | the suffix is non-empty exactly when stride != -1 |
| TestNames.Assemble | tensorflow/compiler/xla/tests/conv_depthwise_test.cc:122-128 | the assembled name starts with "activation_dims_" |
| TestNames.Render | tensorflow/compiler/xla/tests/conv_depthwise_test.cc:121-132 | the tail of the name starts with the element type, and is longer than it exactly when the case has an lhs dilation |
| TestNames.UnsanitizedName | tensorflow/compiler/xla/tests/conv_depthwise_test.cc:121-132 | the name before sanitising ends with the element type followed by the optional "_lhs_dilation_<n>x1" suffix |
| TestNames.PeelAtFirst | tensorflow/compiler/xla/tests/conv_depthwise_test.cc:122-128 | a field followed by a part that starts with a character the field cannot hold is read back uniquely |
| TestNames.PeelAtSecond | tensorflow/compiler/xla/tests/conv_depthwise_test.cc:122-128 | the same when the distinguishing character is the second one, as for a '_'-joined layout followed by "_kernel…" |
| TestNames.AssembleInjective | tensorflow/compiler/xla/tests/conv_depthwise_test.cc:122-128 | the concatenation of labelled fields determines each field |
| TestNames.RenderWellRendered | tensorflow/compiler/xla/tests/conv_depthwise_test.cc:122-131 | each rendered field holds only numerals and its separator, and the tail starts with the element type's letter |
| TestNames.TailInjective | tensorflow/compiler/xla/tests/conv_depthwise_test.cc:121-132 | the element type and the optional dilation suffix determine the bfloat16 flag and the dilation value |
| TestNames.UnsanitizedNameInjective | tensorflow/compiler/xla/tests/conv_depthwise_test.cc:117-132 | the assembled name determines every field it prints: shapes, layouts, element type and lhs dilation |
| TestNames.AssembleNoMinus | tensorflow/compiler/xla/tests/conv_depthwise_test.cc:122-128 | fields without '-' assemble into a string without '-' |
| TestNames.TailNoMinus | tensorflow/compiler/xla/tests/conv_depthwise_test.cc:128-132 | the element type and a non-negative dilation suffix contain no '-' |
| TestNames.UnsanitizedNameNoMinus | tensorflow/compiler/xla/tests/conv_depthwise_test.cc:117-132 | a case with no negative number assembles into a name without '-' |
| TestNames.SanitizingKeepsNonNegativeNames | tensorflow/compiler/xla/tests/conv_depthwise_test.cc:134-136 | for such a case, replacing '-' by 'n' leaves the name unchanged |
| TestNames.AssembleEndsWithTail | tensorflow/compiler/xla/tests/conv_depthwise_test.cc:122-128 | the assembled name ends with the element type and the optional suffix |
| TestNames.TailEnd | tensorflow/compiler/xla/tests/conv_depthwise_test.cc:128-132 | the element type followed by the optional dilation suffix ends with two characters that contain no '-' and are "x1" exactly when the case has an lhs dilation |
| TestNames.TailSuffixes | tensorflow/compiler/xla/tests/conv_depthwise_test.cc:128-132 | the tail ends with those two characters, and with the dilation suffix when there is one |
| TestNames.NameSuffix | tensorflow/compiler/xla/tests/conv_depthwise_test.cc:129-136 | the final name ends in "x1" if and only if stride != -1; it ends in "_lhs_dilation_<n>x1" when n is non-negative |
| TestNames.NamesUnique | tensorflow/compiler/xla/tests/conv_depthwise_test.cc:50-137 | for a list of distinct admissible options, which config_options is, two cases each paired with a bfloat16 flag get the same name only when they are the same case with the same flag |
| TestNames.GeneratedNamesUnique | tensorflow/compiler/xla/tests/conv_depthwise_test.cc:50-137 | over the generated cases of either build and both element types, two test instances with the same name are the same case with the same element type |
| TestNames.DilationNameExample | tensorflow/compiler/xla/tests/conv_depthwise_test.cc:84-88 | every case of option (256, 5, 2, 144) has a name ending in "_lhs_dilation_8x1" |
| TestNames.OuterDimNameExample | tensorflow/compiler/xla/tests/conv_depthwise_test.cc:80-83 | no case of option (256, 1, 2, 64) has a name ending in "x1" |
| HloText.ChooseWindow | tensorflow/compiler/xla/tests/conv_depthwise_test.cc:142-215 | the outer-dimension template is chosen exactly when activation_dims[1] == 1 and kernel_dims[1] == 2; otherwise the lhs-dilated template is chosen exactly when stride != -1, carrying stride and lhs_dilate; the window size is the case's window |
| HloText.TemplateLines | tensorflow/compiler/xla/tests/conv_depthwise_test.cc:144-154 | every template has eleven lines, counting the empty first line and the closing margin |
| HloText.HloLines | tensorflow/compiler/xla/tests/conv_depthwise_test.cc:139-216 | the text of a case has eleven lines |
| HloText.BuildHloTextDepthwiseConvolution2D | tensorflow/compiler/xla/tests/conv_depthwise_test.cc:139-216 | the text is non-empty and starts with the newline that opens the raw string |
| HloText.RenderWindow | tensorflow/compiler/xla/tests/conv_depthwise_test.cc:151-200 | the text inside the braces starts with "size=" and has the length of the size, printed twice with an "x" between, and the template's rest |
| HloText.WindowRest | tensorflow/compiler/xla/tests/conv_depthwise_test.cc:151-200 | after the size, the plain window has nothing, the outer-dimension window continues with "  pad=1_1x" and the lhs-dilated window with " stride=" |
| HloText.WindowAttribute | tensorflow/compiler/xla/tests/conv_depthwise_test.cc:151-200 | the attribute starts with "window={", ends with "}" and holds the rendered window in between |
| HloText.TensorType | tensorflow/compiler/xla/tests/conv_depthwise_test.cc:148-150 | a shape starts with its element type, then "[", and ends with "}" |
| HloText.ActivationType | tensorflow/compiler/xla/tests/conv_depthwise_test.cc:148-150 | the activation shape starts with the element type followed by "[" |
| HloText.KernelType | tensorflow/compiler/xla/tests/conv_depthwise_test.cc:149-150 | the kernel shape starts with the element type followed by "[" |
| HloText.OutputType | tensorflow/compiler/xla/tests/conv_depthwise_test.cc:150 | the output shape starts with the element type followed by "[" |
| HloText.ActivationParameter | tensorflow/compiler/xla/tests/conv_depthwise_test.cc:148 | the activation instruction starts with "activation = " and ends with " parameter(0)" |
| HloText.KernelParameter | tensorflow/compiler/xla/tests/conv_depthwise_test.cc:149 | the kernel instruction starts with "kernel = " and ends with " parameter(1)" |
| HloText.ConvolutionInstruction | tensorflow/compiler/xla/tests/conv_depthwise_test.cc:150 | the root instruction starts with "ROOT conv = " and ends with " kernel)," before the attribute lines |
| HloText.FeatureGroupCount | tensorflow/compiler/xla/tests/conv_depthwise_test.cc:152 | the attribute starts with "feature_group_count=" and the rest is the count in decimal numerals |
| HloText.WindowLine | tensorflow/compiler/xla/tests/conv_depthwise_test.cc:150-151 | the window line starts with the attribute indentation and ends with a blank exactly in the lhs-dilated template |
| HloText.LastAttributeLine | tensorflow/compiler/xla/tests/conv_depthwise_test.cc:152 | the last attribute line starts with the attribute indentation, ends with feature_group_count=<n>, and has more before it exactly in the lhs-dilated template |
| HloText.Margin | tensorflow/compiler/xla/tests/conv_depthwise_test.cc:144-153 | the bare-window template is indented by six blanks, the other two by four |
| HloText.LineContains | tensorflow/compiler/xla/tests/conv_depthwise_test.cc:144-154 | whatever a line holds, the joined text holds |
| HloText.TemplateContains | tensorflow/compiler/xla/tests/conv_depthwise_test.cc:144-154 | the text holds the module header, both parameters, the convolution, the window line and the last attribute line |
| HloText.HloTextDeclaresShapes | tensorflow/compiler/xla/tests/conv_depthwise_test.cc:144-165 | the text declares module TensorFlowDepthwiseConv, parameters 0 and 1 with the activation and kernel types, and a root convolution of the output type over those operands |
| HloText.WindowLineContainsWindow | tensorflow/compiler/xla/tests/conv_depthwise_test.cc:151 | the window line holds the window attribute |
| HloText.AttributeLinesContainDimLabels | tensorflow/compiler/xla/tests/conv_depthwise_test.cc:199-201 | the dimension labels are on the window line, or on the last line in the lhs-dilated template |
| HloText.LastAttributeLineContainsGroups | tensorflow/compiler/xla/tests/conv_depthwise_test.cc:152 | the last attribute line holds feature_group_count |
| HloText.HloTextAttributes | tensorflow/compiler/xla/tests/conv_depthwise_test.cc:142-215 | the text holds the chosen window attribute, dim_labels=b01f_01io->b01f and feature_group_count=<output_feature> |
| HloText.WindowOfDerivedCase | tensorflow/compiler/xla/tests/conv_depthwise_test.cc:80-95 | a case from an option gets the outer-dimension window, the lhs-dilated window (stride a-1, dilation f/32) or the plain window, by regime |
| HloText.WindowOfAdmissibleCase | tensorflow/compiler/xla/tests/conv_depthwise_test.cc:142-167 | for an admissible option the template depends only on activation size 1 and feature 256 |
| HloText.GeneratedCaseWindows | tensorflow/compiler/xla/tests/conv_depthwise_test.cc:142-167 | the dimension reads are in bounds for every generated case, and each case gets the template of its regime, the dilated ones with lhs dilation 8 |
| HloText.RenderWindowInjective | tensorflow/compiler/xla/tests/conv_depthwise_test.cc:151-200 | the window attribute text determines the window: template, size, stride and dilation |
| HloText.WindowRestInjective | tensorflow/compiler/xla/tests/conv_depthwise_test.cc:151-200 | after the size, the rest of the window text determines the window |
| HloText.WindowRestShape | tensorflow/compiler/xla/tests/conv_depthwise_test.cc:151-200 | the plain window has nothing after its size; the other two are told apart by the character after the leading space |
| HloText.LhsDilatedRestInjective | tensorflow/compiler/xla/tests/conv_depthwise_test.cc:200 | the lhs-dilated window text determines stride and lhs_dilate |
| HloText.TensorTypeInjective | tensorflow/compiler/xla/tests/conv_depthwise_test.cc:148-164 | a type "%s[%s]{%s}" determines its element type, dimensions and layout |
| HloText.ExampleWindow | tensorflow/compiler/xla/tests/conv_depthwise_test.cc:142-200 | the first case of an admissible option gets the window of its regime |
| HloText.OuterDimWindowText | tensorflow/compiler/xla/tests/conv_depthwise_test.cc:151 | the window attribute of size 2 in the outer-dimension template is "window={size=2x2  pad=1_1x2_2 rhs_dilate=1x2}", with its asymmetric padding |
| HloText.PlainHloExample | tensorflow/compiler/xla/tests/conv_depthwise_test.cc:167-190 | the text for option (128, 6, 3, 64) holds "window={size=3x3}" and "feature_group_count=128" |
| HloText.OuterDimHloExample | tensorflow/compiler/xla/tests/conv_depthwise_test.cc:142-165 | the text for option (256, 1, 2, 64) holds "window={size=2x2  pad=1_1x2_2 rhs_dilate=1x2}" and "feature_group_count=256" |
| HloText.DilatedHloExample | tensorflow/compiler/xla/tests/conv_depthwise_test.cc:191-214 | option (256, 5, 2, 144) gets the lhs-dilated window of size 2, stride 4 and dilation 8, and 256 groups |
| Text.IntToString | tensorflow/compiler/xla/tests/conv_depthwise_test.cc:131 | a decimal rendering is non-empty, made of numerals, starts with '-' exactly for a negative number, and is all digits for a non-negative one |
| Text.Join | tensorflow/compiler/xla/tests/conv_depthwise_test.cc:123-128 | the joined list is empty exactly when the list is; with a separator that is not a numeral, the separator appears exactly when there are at least two entries |
| Text.Replace | tensorflow/compiler/xla/tests/conv_depthwise_test.cc:135 | the result has the input's length and holds the replacement exactly where the input held the replaced character, the input's character elsewhere |

## Left out

- The test body `XLA_TEST_P(DepthwiseConvolution2DTest, DoIt)` is not modelled: parsing the HLO text, running it on a backend and comparing against the reference within an error bound need the XLA runtime.
- The gtest parameterisation (`INSTANTIATE_TEST_CASE_P` over the cases and the bfloat16 flag) is not modelled. The model takes the case and the flag as arguments.
- The `#ifndef XLA_TEST_BACKEND_GPU` build switch becomes the `skipOuterDimCases` parameter. No backend is modelled.
- The outer-dimension case reads indeterminate `stride`, `pad` and `lhs_dilate` in the source, because its fields are never assigned. The model gives it no value (`None`) and treats that as `stride == -1`. What an actual build prints for that case is not modelled.
- `int64` width is not modelled. Every number in the cases is small, and `feature / 32` has the same value under truncating and Euclidean division for the non-negative features used.
- `absl::StrFormat`, `absl::StrCat`, `absl::StrJoin` and `absl::c_replace` are modelled only for the arguments this file passes them: decimal integers, single-character separators, and one character replaced by another.
- HloText.ChooseWindow, HloText.HloLines, HloText.BuildHloTextDepthwiseConvolution2D: these require activation and kernel dimension lists of length at least 2, because the source reads `activation_dims[1]` and `kernel_dims[1]` without a check. HloText.GeneratedCaseWindows proves this holds for every generated case.
- The `pad` field is not rendered into the HLO text. The lhs-dilated template prints the constants 0 and 0 in its place, as the source passes them.
- HloText.DilatedHloExample: states the window as a `Window` value rather than as a literal string. The literal is what `RenderWindow` produces for that value.
