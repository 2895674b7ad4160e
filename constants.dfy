/** The application constants the core depends on. The working directory
    (`user.dir`) is a parameter; the path separator is the Unix one. */
module Constants {
  /** `File.separator`. */
  const Sep: string := "/"

  function DataDir(baseDir: string): string { baseDir + Sep + "data" }
  function QuestionsDir(baseDir: string): string { DataDir(baseDir) + Sep + "questions" }
  function ResponsesDir(baseDir: string): string { DataDir(baseDir) + Sep + "responses" }
  function LogsDir(baseDir: string): string { DataDir(baseDir) + Sep + "logs" }

  const DefaultQuestionsFile: string := "sample_questions.csv"

  /** The bounds on the number of choice fields in the question editor. */
  const MinChoices: nat := 2
  const MaxChoices: nat := 10
  const DefaultChoices: nat := 4

  /** The action types written to the action log. */
  const LogActionChoiceSelection: string := "選択肢選択"
  const LogActionReasonStart: string := "理由入力開始"
  const LogActionReasonText: string := "理由入力内容"
  const LogActionReasonRewrite: string := "理由書き直し"
  const LogActionQuestionMove: string := "問題移動"
  const LogActionSubmit: string := "アンケート送信"

  /** How many characters of a reason the log keeps before cutting it short. */
  const LogTextPreviewLength: nat := 100
}
