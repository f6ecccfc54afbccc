/**
 The analysis flow of the upload page: upload the résumé, convert it to an
 image and upload that, store the new record with empty feedback under
 `resume:<uuid>`, read the résumé text back, ask for feedback on the
 assembled prompt, and store the record again with the feedback attached.
 The storage, conversion, identifier generator, instruction template and AI
 backend are collaborators; their answers are the fields of `Collaborators`.
 The key-value store is a map from key to record (its JSON encoding is not
 modelled).
 */
module Upload {
  import opened Types
  import Prompting
  import OpenRouter

  const KeyPrefix: string := "resume:"

  const UploadFailed: string := "错误：文件上传失败"
  const ConvertFailed: string := "错误：PDF 转图片失败"
  const ImageUploadFailed: string := "错误：图片上传失败"
  const ReadFailed: string := "错误：读取上传文件失败"
  const AnalysisFailed: string := "错误：简历分析失败"

  /** The feedback field: empty until the analysis answer has been parsed;
      `Parsed` holds the text that was parsed. */
  datatype FeedbackField = NotAnalysed | Parsed(text: string)

  datatype ResumeRecord = ResumeRecord(
    id: string,
    resumePath: string,
    imagePath: string,
    companyName: string,
    jobTitle: string,
    jobDescription: string,
    feedback: FeedbackField)

  /** The three form fields. */
  datatype Form = Form(companyName: string, jobTitle: string, jobDescription: string)

  /** What each collaborator answers, in the order the flow asks:
      the uploaded résumé's path, whether the PDF could be turned into an
      image, the uploaded image's path, the new identifier, the résumé text
      read back, the instruction template, and the feedback backend. */
  datatype Collaborators = Collaborators(
    uploadResume: Option<string>,
    convertsToImage: bool,
    uploadImage: Option<string>,
    uuid: string,
    readResume: Option<string>,
    prepare: (string, string) -> string,
    feedback: (string, string) -> Option<AIResponse>)

  /** How the flow ends: a status message, an uncaught error, or navigation
      to the result page of the given identifier. */
  datatype Outcome = Failed(status: string) | Aborted | Done(uuid: string)

  datatype Run = Run(kv: map<string, ResumeRecord>, outcome: Outcome)

  /** The store key of a record. */
  function RecordKey(uuid: string): (k: string)
    ensures |k| == |KeyPrefix| + |uuid|
    ensures k[..|KeyPrefix|] == KeyPrefix && k[|KeyPrefix|..] == uuid
  {
    KeyPrefix + uuid
  }

  /** Different identifiers never share a key. */
  lemma RecordKeyInjective(a: string, b: string)
    requires RecordKey(a) == RecordKey(b)
    ensures a == b
  {
    assert a == RecordKey(a)[|KeyPrefix|..];
  }

  /** The feedback text: the content itself when it is a string, otherwise the
      text of its first part. An empty part list or a first part that is not
      text makes the flow fail with an uncaught error (`None`). */
  function FeedbackText(response: AIResponse): (r: Option<string>)
    ensures response.message.content.Plain? ==> r == Some(response.message.content.s)
    ensures response.message.content.Parts? ==> var ps := response.message.content.parts;
      && (r.Some? <==> |ps| > 0 && ps[0].TextPart?)
      && (r.Some? ==> r.value == ps[0].text)
  {
    match response.message.content
    case Plain(s) => Some(s)
    case Parts(ps) =>
      if |ps| > 0 && ps[0].TextPart? then Some(ps[0].text) else None
  }

  /** A response from the hosted client always yields its feedback text: the
      first choice's content, or "" when that was null. */
  lemma HostedFeedbackHasText(raw: RawCompletion)
    requires |raw.choices| > 0
    ensures var response := OpenRouter.ConvertToAIResponse(raw);
      && response.Some?
      && FeedbackText(response.value) == Some(StringOr(raw.choices[0].content, ""))
  {
  }

  /** The prompt the flow sends for a given résumé text. */
  function AnalysisPrompt(c: Collaborators, form: Form, text: string): string {
    Prompting.FullPrompt(c.prepare, form.jobTitle, form.jobDescription, text)
  }

  /** The record stored right after the uploads. */
  function InitialRecord(c: Collaborators, form: Form, resumePath: string, imagePath: string): ResumeRecord {
    ResumeRecord(c.uuid, resumePath, imagePath, form.companyName, form.jobTitle, form.jobDescription, NotAnalysed)
  }

  /** `handleAnalyze`. Every outcome leaves all keys but the new record's
      untouched. A failed upload or conversion writes nothing; any later stop
      leaves the record stored with empty feedback; success stores the same
      record with the parsed feedback attached and navigates to it. */
  function Analyze(kv: map<string, ResumeRecord>, c: Collaborators, form: Form): (run: Run)
    ensures run.kv - {RecordKey(c.uuid)} == kv - {RecordKey(c.uuid)}
    ensures c.uploadResume.None? ==> run == Run(kv, Failed(UploadFailed))
    ensures c.uploadResume.Some? && !c.convertsToImage ==> run == Run(kv, Failed(ConvertFailed))
    ensures c.uploadResume.Some? && c.convertsToImage && c.uploadImage.None? ==> run == Run(kv, Failed(ImageUploadFailed))
    ensures c.uploadResume.Some? && c.convertsToImage && c.uploadImage.Some? ==>
      && RecordKey(c.uuid) in run.kv
      && run.kv[RecordKey(c.uuid)].(feedback := NotAnalysed)
         == InitialRecord(c, form, c.uploadResume.value, c.uploadImage.value)
      && (run.kv[RecordKey(c.uuid)].feedback.Parsed? <==> run.outcome.Done?)
      && (c.readResume.None? ==> run.outcome == Failed(ReadFailed))
      && (c.readResume.Some? ==>
            var answer := c.feedback(c.uploadResume.value, AnalysisPrompt(c, form, c.readResume.value));
            && (answer.None? ==> run.outcome == Failed(AnalysisFailed))
            && (answer.Some? && FeedbackText(answer.value).None? ==> run.outcome == Aborted)
            && (answer.Some? && FeedbackText(answer.value).Some? ==>
                  && run.outcome == Done(c.uuid)
                  && run.kv[RecordKey(c.uuid)].feedback == Parsed(FeedbackText(answer.value).value)))
  {
    match c.uploadResume
    case None => Run(kv, Failed(UploadFailed))
    case Some(resumePath) =>
      if !c.convertsToImage then Run(kv, Failed(ConvertFailed))
      else match c.uploadImage
      case None => Run(kv, Failed(ImageUploadFailed))
      case Some(imagePath) =>
        var key := RecordKey(c.uuid);
        var data := InitialRecord(c, form, resumePath, imagePath);
        var stored := kv[key := data];
        match c.readResume
        case None => Run(stored, Failed(ReadFailed))
        case Some(text) =>
          match c.feedback(resumePath, AnalysisPrompt(c, form, text))
          case None => Run(stored, Failed(AnalysisFailed))
          case Some(answer) =>
            match FeedbackText(answer)
            case None => Run(stored, Aborted)
            case Some(feedbackText) => Run(stored[key := data.(feedback := Parsed(feedbackText))], Done(c.uuid))
  }

  /** A finished run's record holds the uploaded résumé path, and its
      feedback is what the backend answered when asked about that path with
      the prompt built from the form and the résumé text read back. */
  lemma AnalyzeAsksAboutUploadedResume(kv: map<string, ResumeRecord>, c: Collaborators, form: Form)
    requires Analyze(kv, c, form).outcome.Done?
    ensures c.uploadResume.Some? && c.readResume.Some?
    ensures var run := Analyze(kv, c, form);
      var record := run.kv[RecordKey(c.uuid)];
      && record.resumePath == c.uploadResume.value
      && c.feedback(record.resumePath, AnalysisPrompt(c, form, c.readResume.value)).Some?
      && Some(record.feedback.text)
         == FeedbackText(c.feedback(record.resumePath, AnalysisPrompt(c, form, c.readResume.value)).value)
  {
  }
}
