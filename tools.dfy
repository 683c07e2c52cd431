/**
 * The values tools are called with and answer with: the calling context, the result of a run,
 * the errors a tool raises, and a tool itself as its name, description, input schema and the
 * function its `execute` computes.
 */
module Tools {
  import opened Base
  import opened Json

  /** `ToolContext` */
  datatype ToolContext = ToolContext(callerId: int, chatId: int, source: string, requestId: Option<string>,
                                     timeoutSec: Option<int>, metadata: seq<Field>)

  /** `ToolResult` */
  datatype ToolResult = ToolResult(ok: bool, stdout: string, stderr: string, exitCode: int, meta: seq<Field>)

  /** The `ToolError` family. */
  datatype ToolError =
    | ValidationError(message: string)
    | PermissionError(message: string)
    | AuthRequiredError(message: string)
    | TimeoutError(message: string)

  /** A tool: its `execute` is a function of the input dict and the context that either returns
      a result or raises. */
  datatype Tool = Tool(name: string, description: string, inputSchema: Json,
                       execute: (seq<Field>, ToolContext) -> Result<ToolResult, ToolError>)
}
