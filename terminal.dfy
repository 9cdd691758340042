/**
 * The lines of the progress terminal the pages write to while an agent runs.
 */
module Terminal {
  /** The kinds of line the terminal shows. */
  datatype StepKind = InfoStep | SuccessStep | WarningStep | ErrorStep | AnalysisStep | ToolStep

  /** A progress line (its random id and its timestamp are not modelled). */
  datatype LogStep = LogStep(message: string, kind: StepKind)
}
