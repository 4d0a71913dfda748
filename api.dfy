/** The record shapes exchanged with the taxonomy and question-generation service.
    Field names are those of the wire format, written in camel case. */
module Api {
  import opened Wrappers

  /** A grade (`classid`, `classname`). */
  datatype ClassData = ClassData(classId: int, className: string)

  /** A subject of a grade (`subjectid`, `subjectname`). */
  datatype SubjectData = SubjectData(subjectId: int, subjectName: string)

  /** A chapter of a grade and subject; `unitsids` may be null. */
  datatype ChapterData = ChapterData(chapterId: int, chapterName: string, chapterCode: string,
                                     classId: int, subjectId: int, unitsIds: Option<string>)

  /** An expected learning outcome of a chapter, identified only by its text. */
  datatype EloData = EloData(elo: string, chapterId: int)

  /** The outcome list endpoint wraps its list in an `elo_details` field. */
  datatype EloResponse = EloResponse(eloDetails: seq<EloData>)

  /** One generated question (`type` is a keyword here, hence `questionType`). */
  datatype QuizQuestion = QuizQuestion(id: string, text: string, questionType: string,
                                       options: seq<string>, correctAnswer: string,
                                       explanation: string, difficulty: string,
                                       elo: string, taxonomy: string)

  datatype QuizResponse = QuizResponse(questions: seq<QuizQuestion>)

  /** The body of the generation request (`selectedELOs` on the wire). */
  datatype GenerateQuizRequest = GenerateQuizRequest(grade: string, subject: string, chapter: string,
                                                     questionCount: int, selectedElos: seq<string>)
}
