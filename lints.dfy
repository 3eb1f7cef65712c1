/** Lint declarations and the diagnostics a lint pass reports. */
module Lints {
  import opened Spans

  /** The two default levels the passes declare their lints with. */
  datatype Level = Warn | Deny

  /** What `declare_lint!` produces: the lint's name (its identifier as
      written), its default level and its description. */
  datatype Lint = Lint(name: string, defaultLevel: Level, desc: string)

  /** One reported diagnostic: which lint, at which level, where, and its
      primary message. */
  datatype Diagnostic = Diagnostic(lint: string, level: Level, span: Span, message: string)

  /** `span_lint`: report `lint` at `span` with its default level. */
  function SpanLint(lint: Lint, span: Span, message: string): Diagnostic {
    Diagnostic(lint.name, lint.defaultLevel, span, message)
  }
}
