/** The quiz record handed from the form to the dashboard and shown by the preview. */
module QuizData {
  import opened Wrappers
  import opened Api

  /** The names are None where the form could not look the selected id up
      (the form passes `undefined` there). */
  datatype Quiz = Quiz(name: string, grade: Option<string>, subject: Option<string>,
                       chapter: Option<string>, questions: seq<QuizQuestion>)
}
