/** The value every tool returns: `{"content": [{"type": "text", "text": ...}]}`. */
module ToolResults {

  /** A content block; the source only ever builds blocks of type `"text"`. */
  datatype ContentBlock = TextContent(text: string)

  datatype ToolResult = ToolResult(content: seq<ContentBlock>)

  /** A result holding exactly one text block. */
  function TextResult(text: string): ToolResult {
    ToolResult([TextContent(text)])
  }

  /** The result is one text block carrying `text`. */
  predicate IsSingleText(r: ToolResult, text: string) {
    |r.content| == 1 && r.content[0].text == text
  }
}
