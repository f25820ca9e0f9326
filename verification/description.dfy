/** `generate_description_tool`: a fixed sentence about the content, cut to a
    maximum length with a `"..."` suffix. */
module Description {
  import opened Wrappers
  import opened Sequences
  import opened ToolResults

  /** The tool's arguments; a missing key is None. */
  datatype DescriptionArgs = DescriptionArgs(content: Option<string>, context: Option<string>, maxLength: Option<int>)

  const DefaultMaxLength: int := 400
  /** Only this many characters of the content are quoted. */
  const PreviewLength: int := 100
  const Ellipsis: string := "..."
  const Opening: string := "Analysis of content"

  /** The description before any truncation. */
  function Template(content: string, context: string): string {
    Opening
    + (if context != "" then " in context of " + context else "")
    + ": " + TakePrefix(content, PreviewLength) + Ellipsis
  }

  /** `d` when it fits in `maxLength`, otherwise `d[:maxLength-3] + "..."`,
      with Python's slice meaning for a negative bound. */
  function Truncate(d: string, maxLength: int): string {
    if |d| > maxLength then TakePrefix(d, maxLength - 3) + Ellipsis else d
  }

  /** The description text the tool returns. */
  function Describe(content: string, context: string, maxLength: int): (r: string)
    ensures EndsWith(r, Ellipsis)
  {
    Truncate(Template(content, context), maxLength)
  }

  /** `generate_description_tool`: missing arguments default to `""`, `""` and 400. */
  function GenerateDescription(args: DescriptionArgs): (result: ToolResult)
    ensures IsSingleText(result, Describe(args.content.GetOr(""), args.context.GetOr(""),
                                          args.maxLength.GetOr(DefaultMaxLength)))
    ensures EndsWith(result.content[0].text, Ellipsis)
  {
    TextResult(Describe(args.content.GetOr(""), args.context.GetOr(""), args.maxLength.GetOr(DefaultMaxLength)))
  }

  /** The template opens with "Analysis of content", names a non-empty context,
      closes with "...", and is at least 24 characters long. */
  lemma TemplateShape(content: string, context: string)
    ensures var d := Template(content, context);
            IsPrefix(Opening, d) && EndsWith(d, Ellipsis) && |d| >= 24 &&
            (context != "" ==> IsInfix(" in context of " + context, d)) &&
            (context == "" ==> d == Opening + ": " + TakePrefix(content, PreviewLength) + Ellipsis)
  {
    var d := Template(content, context);
    var clause := if context != "" then " in context of " + context else "";
    var tail := ": " + TakePrefix(content, PreviewLength) + Ellipsis;
    assert d == Opening + clause + tail;
    assert d[..|Opening|] == Opening;
    if context != "" {
      InfixOfConcat(Opening, clause, tail);
    }
  }

  /** Only the first 100 characters of the content ever reach the description. */
  lemma DescriptionUsesPreview(content: string, context: string, maxLength: int)
    ensures Describe(content, context, maxLength) == Describe(TakePrefix(content, PreviewLength), context, maxLength)
  {
    assert TakePrefix(TakePrefix(content, PreviewLength), PreviewLength) == TakePrefix(content, PreviewLength);
  }

  /** A template that fits is returned unchanged; with a limit of at least 3
      the description never exceeds it. */
  lemma DescriptionWithinLimit(content: string, context: string, maxLength: int)
    ensures var d := Template(content, context);
            var r := Describe(content, context, maxLength);
            (|d| <= maxLength ==> r == d) &&
            (maxLength >= 3 ==> |r| <= maxLength)
  {
  }

  /** When the template is cut with a limit of at least 3, the result is exactly
      `maxLength` long: the template's first `maxLength - 3` characters and "...". */
  lemma DescriptionTruncatedExactly(content: string, context: string, maxLength: int)
    requires maxLength >= 3 && |Template(content, context)| > maxLength
    ensures var d := Template(content, context);
            var r := Describe(content, context, maxLength);
            |r| == maxLength && r == d[..maxLength - 3] + Ellipsis
  {
  }

  /** A limit below 3 is always exceeded: `d[:maxLength-3]` counts from the end
      of the template, so the result keeps all but `3 - maxLength` of its
      characters (or none) before the "...". */
  lemma DescriptionSmallLimitOverrun(content: string, context: string, maxLength: int)
    requires maxLength < 3
    ensures var d := Template(content, context);
            var r := Describe(content, context, maxLength);
            |r| > maxLength &&
            |r| == (if |d| + maxLength >= 3 then |d| + maxLength else 3)
  {
    TemplateShape(content, context);
  }
}
