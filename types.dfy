/** The records shared by the desktop shell, its window manager and the
    AI service (types.ts). */
module Types {

  /** An optional value: the `undefined` of the source's optional fields. */
  datatype Option<+T> = None | Some(value: T)

  /** The closed set of window kinds (types.ts:2-8). */
  datatype WindowType = Terminal | Dashboard | Explorer | AiChat | SystemLogs

  /** One logical desktop window (types.ts:10-17). */
  datatype WindowState = WindowState(
    id: string,
    kind: WindowType,
    title: string,
    isOpen: bool,
    isMinimized: bool,
    zIndex: int)

  /** Severity of a kernel-log line (types.ts:21). */
  datatype LogLevel = Info | Warn | Error | System

  /** One kernel-log line (types.ts:19-23). */
  datatype LogEntry = LogEntry(timestamp: string, level: LogLevel, message: string)

  /** One metrics sample (types.ts:25-30); the values are percentages. */
  datatype SystemMetrics = SystemMetrics(cpu: real, memory: real, disk: real, network: real)

  /** A citation returned with web-grounded text (types.ts:32-35). */
  datatype GroundingSource = GroundingSource(title: string, uri: string)

  /** What each AI call site hands back to its window (types.ts:37-40). */
  datatype AIResponse = AIResponse(text: string, sources: seq<GroundingSource>)
}
