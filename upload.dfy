/**
 * The upload page of the résumé analyser: `handleAnalyze`, which uploads the
 * résumé, converts it to an image, uploads the image, writes a record to the
 * key-value store, asks the analysis service for feedback and writes the
 * record again before redirecting to the results page, and the guard in
 * `handleSubmit` that only starts it when a file has been selected.
 *
 * The collaborators (file service, PDF conversion, identifier generation,
 * analysis service, `prepareInstructions`, `JSON.parse`) are not modelled;
 * what they answer in one run is an `Environment` value.  Everything the run
 * does that is visible from outside (status texts, calls to collaborators,
 * navigation) is recorded, in order, in one log of `Event`s.
 */
module UploadRoute {

  datatype Option<+T> = None | Some(value: T)

  /** A browser `File`: the selected résumé or the image made from it. */
  datatype File = File(name: string, bytes: seq<bv8>)

  /** What the file service answers for a successful upload. */
  datatype StoredItem = StoredItem(path: string)

  /** One element of a list-shaped `message.content`. */
  datatype ContentPart = ContentPart(text: string)

  /** The `message.content` of the analysis service's answer: a string or a list of parts. */
  datatype MessageContent = TextContent(text: string) | PartsContent(parts: seq<ContentPart>)

  /** The record's `feedback` field: the empty string "" until analysis, then the parsed answer. */
  datatype Feedback<F> = EmptyFeedback | Parsed(value: F)

  /** The record stored under "resume: " + id. */
  datatype ResumeRecord<F> = ResumeRecord(
    id: string,
    resumePath: string,
    imagePath: string,
    companyName: string,
    jobTitle: string,
    jobDescription: string,
    feedback: Feedback<F>)

  /** The arguments of `handleAnalyze`. */
  datatype Submission = Submission(companyName: string, jobTitle: string, jobDescription: string, file: File)

  /** The three form fields `handleSubmit` reads. */
  datatype FormFields = FormFields(companyName: string, jobTitle: string, jobDescription: string)

  /**
   * What the collaborators answer during one run.  `None` stands for a falsy
   * answer: no uploaded item, no converted file, no analysis response.
   */
  datatype Environment<F> = Environment(
    resumeUpload: Option<StoredItem>,                // fs.upload([file])
    conversion: Option<File>,                        // convertPdfToImage(file).file
    imageUpload: Option<StoredItem>,                 // fs.upload([imageFile.file])
    uuid: string,                                    // generateUUID()
    analysis: Option<MessageContent>,                // ai.feedback(...), its message.content
    prepareInstructions: (string, string) -> string, // prepareInstructions({jobTitle, jobDescription})
    parse: string -> F)                              // JSON.parse

  /** One observable step of the page. */
  datatype Event<F> =
    | Status(text: string)                           // setStatusText
    | Upload(files: seq<File>)                       // fs.upload
    | Convert(file: File)                            // convertPdfToImage
    | NewId(id: string)                              // generateUUID
    | KvSet(key: string, record: ResumeRecord<F>)    // kv.set
    | Analyze(path: string, instructions: string)    // ai.feedback
    | Navigate(to: string)                           // navigate

  /** Events are status updates, calls to collaborators, or navigation. */
  datatype Channel = StatusChannel | CallChannel | NavigationChannel

  /** Where a run of `handleAnalyze` ends. */
  datatype Stop = ResumeUploadFailed | ConversionFailed | ImageUploadFailed | AnalysisFailed | Completed

  /** The events of one run and where it ended. */
  datatype Trace<F> = Trace(events: seq<Event<F>>, stop: Stop)

  const UploadingResume := "Uploading your resume..."
  const ConvertingToImage := "Converting to image..."
  const UploadingImage := "Uploading the image..."
  const PreparingData := "Preparing Data"
  const Analyzing := "Analyzing..."
  const Redirecting := "Analysis Complete, Redirecting..."

  const UploadFileError := "Error: Failed to upload file!"
  const ConvertError := "Error: Failed to convert to image!"
  const UploadImageError := "Error: Failed to upload image!"
  const AnalyzeError := "Error: Failed to analyze resume!"

  /** The key both writes use; note the space after the colon. */
  function ResumeKey(uuid: string): (key: string)
    ensures |key| == |uuid| + 8 && key[..8] == "resume: " && key[8..] == uuid
  {
    "resume: " + uuid
  }

  /** The results page of a record. */
  function ResultsPath(uuid: string): (path: string)
    ensures |path| == |uuid| + 8 && path[..8] == "/resume/" && path[8..] == uuid
  {
    "/resume/" + uuid
  }

  /** Different identifiers give different keys and different results pages. */
  lemma KeysDistinguishIds(u1: string, u2: string)
    requires u1 != u2
    ensures ResumeKey(u1) != ResumeKey(u2) && ResultsPath(u1) != ResultsPath(u2)
  {
    assert ResumeKey(u1)[8..] == u1 && ResumeKey(u2)[8..] == u2;
    assert ResultsPath(u1)[8..] == u1 && ResultsPath(u2)[8..] == u2;
  }

  /** The kind of an event: a status text, a navigation, or a call to a collaborator. */
  function ChannelOf<F>(e: Event<F>): (ch: Channel) {
    match e
    case Status(_) => StatusChannel
    case Navigate(_) => NavigationChannel
    case _ => CallChannel
  }

  /** The event `e` if it is on channel `ch`, else nothing. */
  function Pick<F>(e: Event<F>, ch: Channel): (picked: seq<Event<F>>) {
    if ChannelOf(e) == ch then [e] else []
  }

  /**
   * The events of `es` that are on channel `ch`, in their order.  The length
   * bound is there to help the solver bound the projections; it is not a
   * property the page promises.
   */
  function On<F>(es: seq<Event<F>>, ch: Channel): (r: seq<Event<F>>)
    ensures |r| <= |es|
    decreases |es|
  {
    if |es| == 0 then [] else On(es[..|es| - 1], ch) + Pick(es[|es| - 1], ch)
  }

  function StatusUpdates<F>(es: seq<Event<F>>): (updates: seq<Event<F>>) {
    On(es, StatusChannel)
  }

  function ExternalCalls<F>(es: seq<Event<F>>): (calls: seq<Event<F>>) {
    On(es, CallChannel)
  }

  function Navigations<F>(es: seq<Event<F>>): (navs: seq<Event<F>>) {
    On(es, NavigationChannel)
  }

  /** The status text shown after `es`: the last one set, or the initial "". */
  function StatusText<F>(es: seq<Event<F>>): (text: string)
    decreases |es|
  {
    if |es| == 0 then ""
    else if es[|es| - 1].Status? then es[|es| - 1].text
    else StatusText(es[..|es| - 1])
  }

  /** Where the page has navigated after `es`, if anywhere. */
  function Location<F>(es: seq<Event<F>>): (loc: Option<string>)
    decreases |es|
  {
    if |es| == 0 then None
    else if es[|es| - 1].Navigate? then Some(es[|es| - 1].to)
    else Location(es[..|es| - 1])
  }

  /** The store after `e`: a `kv.set` replaces the value under its key, nothing else changes it. */
  function Step<F>(m: map<string, ResumeRecord<F>>, e: Event<F>): (m': map<string, ResumeRecord<F>>) {
    if e.KvSet? then m[e.key := e.record] else m
  }

  /** The key-value store after the `kv.set` calls of `es`, applied in order to `m`. */
  function Replay<F>(m: map<string, ResumeRecord<F>>, es: seq<Event<F>>): (store: map<string, ResumeRecord<F>>)
    decreases |es|
  {
    if |es| == 0 then m else Step(Replay(m, es[..|es| - 1]), es[|es| - 1])
  }

  /** Replaying a concatenation replays the first part, then the second on top. */
  lemma {:induction false} ReplayAppend<F>(m: map<string, ResumeRecord<F>>, a: seq<Event<F>>, b: seq<Event<F>>)
    ensures Replay(m, a + b) == Replay(Replay(m, a), b)
    decreases |b|
  {
    if |b| == 0 {
      assert a + b == a;
    } else {
      var b' := b[..|b| - 1];
      assert (a + b)[..|a + b| - 1] == a + b';
      ReplayAppend(m, a, b');
    }
  }

  /** Appending one event to a log appends its projections and applies its write. */
  lemma Snoc<F>(a: seq<Event<F>>, e: Event<F>, m: map<string, ResumeRecord<F>>)
    ensures StatusUpdates(a + [e]) == StatusUpdates(a) + Pick(e, StatusChannel)
    ensures ExternalCalls(a + [e]) == ExternalCalls(a) + Pick(e, CallChannel)
    ensures Navigations(a + [e]) == Navigations(a) + Pick(e, NavigationChannel)
    ensures Replay(m, a + [e]) == Step(Replay(m, a), e)
    ensures StatusText(a + [e]) == if e.Status? then e.text else StatusText(a)
    ensures Location(a + [e]) == if e.Navigate? then Some(e.to) else Location(a)
  {
    assert (a + [e])[..|a|] == a;
  }

  /** Appending a block of two events, the shape of most stages. */
  lemma Snoc2<F>(a: seq<Event<F>>, e1: Event<F>, e2: Event<F>, m: map<string, ResumeRecord<F>>)
    ensures StatusUpdates(a + [e1, e2]) == StatusUpdates(a) + Pick(e1, StatusChannel) + Pick(e2, StatusChannel)
    ensures ExternalCalls(a + [e1, e2]) == ExternalCalls(a) + Pick(e1, CallChannel) + Pick(e2, CallChannel)
    ensures Navigations(a + [e1, e2]) == Navigations(a) + Pick(e1, NavigationChannel) + Pick(e2, NavigationChannel)
    ensures Replay(m, a + [e1, e2]) == Step(Step(Replay(m, a), e1), e2)
    ensures StatusText(a + [e1, e2]) ==
              if e2.Status? then e2.text else if e1.Status? then e1.text else StatusText(a)
    ensures Location(a + [e1, e2]) ==
              if e2.Navigate? then Some(e2.to) else if e1.Navigate? then Some(e1.to) else Location(a)
  {
    assert a + [e1, e2] == (a + [e1]) + [e2];
    Snoc(a, e1, m);
    Snoc(a + [e1], e2, m);
  }

  /**
   * Only a content that is a string or a non-empty list of parts can be read:
   * `content[0].text` on an empty list throws, which the page does not handle.
   */
  predicate HasText(c: MessageContent) {
    c.TextContent? || |c.parts| > 0
  }

  /** The text to parse: the string itself, or the text of the first part. */
  function FeedbackText(c: MessageContent): (text: string)
    requires HasText(c)
  {
    if c.TextContent? then c.text else c.parts[0].text
  }

  /** A string answer "X" and a list answer whose first part is "X" give the same text. */
  lemma NormalisationAgrees(x: string, rest: seq<ContentPart>)
    ensures FeedbackText(TextContent(x)) == x
    ensures FeedbackText(PartsContent([ContentPart(x)] + rest)) == x
  {
  }

  /**
   * An analysis answer the run reaches has a text that can be read.  An answer
   * the run never reaches, after an earlier stage failed, is not constrained.
   */
  predicate Readable<F>(env: Environment<F>) {
    env.resumeUpload.Some? && env.conversion.Some? && env.imageUpload.Some? && env.analysis.Some? ==>
      HasText(env.analysis.value)
  }

  /** The record built after both uploads succeed; its feedback is still empty. */
  function InitialRecord<F>(uuid: string, input: Submission, resume: StoredItem, image: StoredItem): (record: ResumeRecord<F>)
  {
    ResumeRecord(uuid, resume.path, image.path, input.companyName, input.jobTitle, input.jobDescription, EmptyFeedback)
  }

  /**
   * The events of one run of `handleAnalyze` and where it stops: each stage
   * sets its status, calls its collaborator, and returns with an error status
   * when the answer is falsy.
   */
  function Run<F>(input: Submission, env: Environment<F>): (t: Trace<F>)
    requires Readable(env)
    ensures t.stop == ResumeUploadFailed <==> env.resumeUpload.None?
    ensures t.stop == ConversionFailed <==> env.resumeUpload.Some? && env.conversion.None?
    ensures t.stop == ImageUploadFailed <==>
              env.resumeUpload.Some? && env.conversion.Some? && env.imageUpload.None?
    ensures t.stop == AnalysisFailed <==>
              env.resumeUpload.Some? && env.conversion.Some? && env.imageUpload.Some? && env.analysis.None?
    ensures t.stop == Completed <==>
              env.resumeUpload.Some? && env.conversion.Some? && env.imageUpload.Some? && env.analysis.Some?
  {
    var uploading := [Status(UploadingResume), Upload([input.file])];
    if env.resumeUpload.None? then
      Trace(uploading + [Status(UploadFileError)], ResumeUploadFailed)
    else
      var converting := uploading + [Status(ConvertingToImage), Convert(input.file)];
      if env.conversion.None? then
        Trace(converting + [Status(ConvertError)], ConversionFailed)
      else
        var uploadingImage := converting + [Status(UploadingImage), Upload([env.conversion.value])];
        if env.imageUpload.None? then
          Trace(uploadingImage + [Status(UploadImageError)], ImageUploadFailed)
        else
          var resume := env.resumeUpload.value;
          var data := InitialRecord(env.uuid, input, resume, env.imageUpload.value);
          var instructions := env.prepareInstructions(input.jobTitle, input.jobDescription);
          var preparing := uploadingImage + [Status(PreparingData), NewId(env.uuid)];
          var stored := preparing + [KvSet(ResumeKey(env.uuid), data)];
          var analyzing := stored + [Status(Analyzing), Analyze(resume.path, instructions)];
          if env.analysis.None? then
            Trace(analyzing + [Status(AnalyzeError)], AnalysisFailed)
          else
            var parsed := data.(feedback := Parsed(env.parse(FeedbackText(env.analysis.value))));
            var restored := analyzing + [KvSet(ResumeKey(env.uuid), parsed)];
            Trace(restored + [Status(Redirecting), Navigate(ResultsPath(env.uuid))], Completed)
  }

  /** The log up to the conversion, for every submission. */
  lemma ConvertingPrefix<F>(input: Submission, m: map<string, ResumeRecord<F>>) returns (p: seq<Event<F>>)
    ensures p == [Status(UploadingResume), Upload([input.file])] + [Status(ConvertingToImage), Convert(input.file)]
    ensures StatusUpdates(p) == [Status(UploadingResume), Status(ConvertingToImage)]
    ensures ExternalCalls(p) == [Upload([input.file]), Convert(input.file)]
    ensures Navigations(p) == [] && Replay(m, p) == m
  {
    var e1: Event<F>, e2: Event<F> := Status(UploadingResume), Upload([input.file]);
    var e3: Event<F>, e4: Event<F> := Status(ConvertingToImage), Convert(input.file);
    var p1 := [e1, e2];
    p := p1 + [e3, e4];
    assert [] + [e1, e2] == p1;
    Snoc2([], e1, e2, m);
    assert StatusUpdates(p1) == [e1] && ExternalCalls(p1) == [e2];
    assert Navigations(p1) == [] && Replay(m, p1) == m;
    Snoc2(p1, e3, e4, m);
  }

  /** The log up to the image upload, when the résumé upload and the conversion succeed. */
  lemma ConvertedPrefix<F>(input: Submission, env: Environment<F>, m: map<string, ResumeRecord<F>>)
    returns (p: seq<Event<F>>)
    requires env.conversion.Some?
    ensures p == [Status(UploadingResume), Upload([input.file])]
               + [Status(ConvertingToImage), Convert(input.file)]
               + [Status(UploadingImage), Upload([env.conversion.value])]
    ensures StatusUpdates(p) == [Status(UploadingResume), Status(ConvertingToImage), Status(UploadingImage)]
    ensures ExternalCalls(p) == [Upload([input.file]), Convert(input.file), Upload([env.conversion.value])]
    ensures Navigations(p) == [] && Replay(m, p) == m
  {
    var e5: Event<F>, e6: Event<F> := Status(UploadingImage), Upload([env.conversion.value]);
    var p2 := ConvertingPrefix(input, m);
    p := p2 + [e5, e6];
    Snoc2(p2, e5, e6, m);
  }

  /** The log up to the first `kv.set`, when both uploads and the conversion succeed. */
  lemma StoredPrefix<F>(input: Submission, env: Environment<F>, m: map<string, ResumeRecord<F>>)
    returns (p: seq<Event<F>>)
    requires env.resumeUpload.Some? && env.conversion.Some? && env.imageUpload.Some?
    ensures var record := InitialRecord(env.uuid, input, env.resumeUpload.value, env.imageUpload.value);
      && p == [Status(UploadingResume), Upload([input.file])]
            + [Status(ConvertingToImage), Convert(input.file)]
            + [Status(UploadingImage), Upload([env.conversion.value])]
            + [Status(PreparingData), NewId(env.uuid)]
            + [KvSet(ResumeKey(env.uuid), record)]
      && StatusUpdates(p) == [Status(UploadingResume), Status(ConvertingToImage), Status(UploadingImage),
                              Status(PreparingData)]
      && ExternalCalls(p) == [Upload([input.file]), Convert(input.file), Upload([env.conversion.value]),
                              NewId(env.uuid), KvSet(ResumeKey(env.uuid), record)]
      && Navigations(p) == []
      && Replay(m, p) == m[ResumeKey(env.uuid) := record]
  {
    var record := InitialRecord(env.uuid, input, env.resumeUpload.value, env.imageUpload.value);
    var e7: Event<F>, e8: Event<F> := Status(PreparingData), NewId(env.uuid);
    var e9: Event<F> := KvSet(ResumeKey(env.uuid), record);
    var p3 := ConvertedPrefix(input, env, m);
    var p4 := p3 + [e7, e8];
    p := p4 + [e9];
    Snoc2(p3, e7, e8, m);
    assert StatusUpdates(p4) == StatusUpdates(p3) + [e7];
    assert ExternalCalls(p4) == ExternalCalls(p3) + [e8];
    assert Navigations(p4) == [] && Replay(m, p4) == m;
    Snoc(p4, e9, m);
  }

  /** The log up to the analysis call, when both uploads and the conversion succeed. */
  lemma AnalyzingPrefix<F>(input: Submission, env: Environment<F>, m: map<string, ResumeRecord<F>>)
    returns (p: seq<Event<F>>)
    requires env.resumeUpload.Some? && env.conversion.Some? && env.imageUpload.Some?
    ensures var record := InitialRecord(env.uuid, input, env.resumeUpload.value, env.imageUpload.value);
      var instructions := env.prepareInstructions(input.jobTitle, input.jobDescription);
      && p == [Status(UploadingResume), Upload([input.file])]
            + [Status(ConvertingToImage), Convert(input.file)]
            + [Status(UploadingImage), Upload([env.conversion.value])]
            + [Status(PreparingData), NewId(env.uuid)]
            + [KvSet(ResumeKey(env.uuid), record)]
            + [Status(Analyzing), Analyze(env.resumeUpload.value.path, instructions)]
      && StatusUpdates(p) == [Status(UploadingResume), Status(ConvertingToImage), Status(UploadingImage),
                              Status(PreparingData), Status(Analyzing)]
      && ExternalCalls(p) == [Upload([input.file]), Convert(input.file), Upload([env.conversion.value]),
                              NewId(env.uuid), KvSet(ResumeKey(env.uuid), record),
                              Analyze(env.resumeUpload.value.path, instructions)]
      && Navigations(p) == []
      && Replay(m, p) == m[ResumeKey(env.uuid) := record]
  {
    var instructions := env.prepareInstructions(input.jobTitle, input.jobDescription);
    var e10: Event<F>, e11: Event<F> := Status(Analyzing), Analyze(env.resumeUpload.value.path, instructions);
    var p5 := StoredPrefix(input, env, m);
    p := p5 + [e10, e11];
    Snoc2(p5, e10, e11, m);
  }

  /** The résumé upload answers nothing: no conversion, image upload, write, analysis or navigation. */
  lemma ResumeUploadFailure<F>(input: Submission, env: Environment<F>, m: map<string, ResumeRecord<F>>)
    requires Readable(env) && env.resumeUpload.None?
    ensures var t := Run(input, env);
      && StatusUpdates(t.events) == [Status(UploadingResume), Status(UploadFileError)]
      && StatusText(t.events) == UploadFileError
      && ExternalCalls(t.events) == [Upload([input.file])]
      && Navigations(t.events) == []
      && Replay(m, t.events) == m
  {
    var e1: Event<F>, e2: Event<F>, e3: Event<F> := Status(UploadingResume), Upload([input.file]), Status(UploadFileError);
    var p1 := [e1, e2];
    assert Run(input, env).events == p1 + [e3];
    assert [] + [e1, e2] == p1;
    Snoc2([], e1, e2, m);
    assert StatusUpdates(p1) == [e1] && ExternalCalls(p1) == [e2];
    assert Navigations(p1) == [] && Replay(m, p1) == m;
    Snoc(p1, e3, m);
  }

  /** Conversion yields no file: no image upload, no identifier, no write, no analysis, no navigation. */
  lemma ConversionFailure<F>(input: Submission, env: Environment<F>, m: map<string, ResumeRecord<F>>)
    requires Readable(env) && env.resumeUpload.Some? && env.conversion.None?
    ensures var t := Run(input, env);
      && StatusUpdates(t.events) == [Status(UploadingResume), Status(ConvertingToImage), Status(ConvertError)]
      && StatusText(t.events) == ConvertError
      && ExternalCalls(t.events) == [Upload([input.file]), Convert(input.file)]
      && Navigations(t.events) == []
      && Replay(m, t.events) == m
  {
    var e5: Event<F> := Status(ConvertError);
    var p2 := ConvertingPrefix(input, m);
    assert Run(input, env).events == p2 + [e5];
    Snoc(p2, e5, m);
  }

  /** The image upload answers nothing: no identifier, no write, no analysis, no navigation. */
  lemma ImageUploadFailure<F>(input: Submission, env: Environment<F>, m: map<string, ResumeRecord<F>>)
    requires Readable(env) && env.resumeUpload.Some? && env.conversion.Some? && env.imageUpload.None?
    ensures var t := Run(input, env);
      && StatusUpdates(t.events) == [Status(UploadingResume), Status(ConvertingToImage),
                                     Status(UploadingImage), Status(UploadImageError)]
      && StatusText(t.events) == UploadImageError
      && ExternalCalls(t.events) == [Upload([input.file]), Convert(input.file), Upload([env.conversion.value])]
      && Navigations(t.events) == []
      && Replay(m, t.events) == m
  {
    var e7: Event<F> := Status(UploadImageError);
    var p3 := ConvertedPrefix(input, env, m);
    assert Run(input, env).events == p3 + [e7];
    Snoc(p3, e7, m);
  }

  /**
   * The analysis answers nothing: the record written once, with empty feedback,
   * stays in the store; there is no second write and no navigation.
   */
  lemma AnalysisFailure<F>(input: Submission, env: Environment<F>, m: map<string, ResumeRecord<F>>)
    requires Readable(env) && env.resumeUpload.Some? && env.conversion.Some? && env.imageUpload.Some?
    requires env.analysis.None?
    ensures var t := Run(input, env);
      var record := InitialRecord(env.uuid, input, env.resumeUpload.value, env.imageUpload.value);
      && StatusUpdates(t.events) == [Status(UploadingResume), Status(ConvertingToImage), Status(UploadingImage),
                                     Status(PreparingData), Status(Analyzing), Status(AnalyzeError)]
      && StatusText(t.events) == AnalyzeError
      && ExternalCalls(t.events) == [Upload([input.file]), Convert(input.file), Upload([env.conversion.value]),
                                     NewId(env.uuid), KvSet(ResumeKey(env.uuid), record),
                                     Analyze(env.resumeUpload.value.path,
                                             env.prepareInstructions(input.jobTitle, input.jobDescription))]
      && Navigations(t.events) == []
      && Replay(m, t.events) == m[ResumeKey(env.uuid) := record]
      && record.feedback == EmptyFeedback
  {
    var e12: Event<F> := Status(AnalyzeError);
    var p6 := AnalyzingPrefix(input, env, m);
    assert Run(input, env).events == p6 + [e12];
    Snoc(p6, e12, m);
  }

  /**
   * Every stage succeeds: the six progress texts in stage order, the seven
   * calls in stage order, the record under "resume: " + uuid holding the
   * parsed feedback, and navigation to the results page.
   */
  lemma Completion<F>(input: Submission, env: Environment<F>, m: map<string, ResumeRecord<F>>)
    requires Readable(env) && env.resumeUpload.Some? && env.conversion.Some? && env.imageUpload.Some?
    requires env.analysis.Some?
    ensures var t := Run(input, env);
      var record := InitialRecord(env.uuid, input, env.resumeUpload.value, env.imageUpload.value);
      var parsed := record.(feedback := Parsed(env.parse(FeedbackText(env.analysis.value))));
      && StatusUpdates(t.events) == [Status(UploadingResume), Status(ConvertingToImage), Status(UploadingImage),
                                     Status(PreparingData), Status(Analyzing), Status(Redirecting)]
      && StatusText(t.events) == Redirecting
      && ExternalCalls(t.events) == [Upload([input.file]), Convert(input.file), Upload([env.conversion.value]),
                                     NewId(env.uuid), KvSet(ResumeKey(env.uuid), record),
                                     Analyze(env.resumeUpload.value.path,
                                             env.prepareInstructions(input.jobTitle, input.jobDescription)),
                                     KvSet(ResumeKey(env.uuid), parsed)]
      && Navigations(t.events) == [Navigate(ResultsPath(env.uuid))]
      && Replay(m, t.events) == m[ResumeKey(env.uuid) := parsed]
  {
    var record := InitialRecord(env.uuid, input, env.resumeUpload.value, env.imageUpload.value);
    var parsed := record.(feedback := Parsed(env.parse(FeedbackText(env.analysis.value))));
    var e12: Event<F> := KvSet(ResumeKey(env.uuid), parsed);
    var e13: Event<F>, e14: Event<F> := Status(Redirecting), Navigate(ResultsPath(env.uuid));
    var p6 := AnalyzingPrefix(input, env, m);
    var p7 := p6 + [e12];
    var t := Run(input, env);
    assert t.events == p7 + [e13, e14];
    assert StatusUpdates(p7) == StatusUpdates(p6) && Navigations(p7) == [] by {
      Snoc(p6, e12, m);
    }
    assert ExternalCalls(p7) == ExternalCalls(p6) + [e12] by {
      Snoc(p6, e12, m);
    }
    assert Replay(m, p7) == m[ResumeKey(env.uuid) := parsed] by {
      Snoc(p6, e12, m);
      assert m[ResumeKey(env.uuid) := record][ResumeKey(env.uuid) := parsed] == m[ResumeKey(env.uuid) := parsed];
    }
    Snoc2(p7, e13, e14, m);
    assert StatusUpdates(t.events) == StatusUpdates(p6) + [e13];
    assert ExternalCalls(t.events) == ExternalCalls(p6) + [e12];
    assert Navigations(t.events) == [e14];
    assert Replay(m, t.events) == Replay(m, p7);
  }

  /**
   * The whole log of a successful run: each stage's status comes right before
   * its call, the first write follows the identifier, the second write follows
   * the analysis, and the final status comes right before the navigation.
   */
  lemma CompletionEvents<F>(input: Submission, env: Environment<F>)
    requires Readable(env) && Run(input, env).stop == Completed
    ensures var record := InitialRecord(env.uuid, input, env.resumeUpload.value, env.imageUpload.value);
      Run(input, env).events ==
        [Status(UploadingResume), Upload([input.file]),
         Status(ConvertingToImage), Convert(input.file),
         Status(UploadingImage), Upload([env.conversion.value]),
         Status(PreparingData), NewId(env.uuid),
         KvSet(ResumeKey(env.uuid), record),
         Status(Analyzing), Analyze(env.resumeUpload.value.path, env.prepareInstructions(input.jobTitle, input.jobDescription)),
         KvSet(ResumeKey(env.uuid), record.(feedback := Parsed(env.parse(FeedbackText(env.analysis.value))))),
         Status(Redirecting), Navigate(ResultsPath(env.uuid))]
  {
  }

  /** The status each way of ending leaves on screen. */
  function FinalStatus(stop: Stop): (text: string) {
    match stop
    case ResumeUploadFailed => UploadFileError
    case ConversionFailed => ConvertError
    case ImageUploadFailed => UploadImageError
    case AnalysisFailed => AnalyzeError
    case Completed => Redirecting
  }

  /** The last status of a run names how it ended. */
  lemma StatusNamesStop<F>(input: Submission, env: Environment<F>)
    requires Readable(env)
    ensures StatusText(Run(input, env).events) == FinalStatus(Run(input, env).stop)
    ensures |StatusUpdates(Run(input, env).events)| > 0
  {
    var m: map<string, ResumeRecord<F>> := map[];
    if env.resumeUpload.None? {
      ResumeUploadFailure(input, env, m);
    } else if env.conversion.None? {
      ConversionFailure(input, env, m);
    } else if env.imageUpload.None? {
      ImageUploadFailure(input, env, m);
    } else if env.analysis.None? {
      AnalysisFailure(input, env, m);
    } else {
      Completion(input, env, m);
    }
  }

  /** The location is the target of the last navigation in the log. */
  lemma {:induction false} LocationIsLastNavigation<F>(es: seq<Event<F>>)
    ensures var n := Navigations(es);
      && (|n| == 0 ==> Location(es) == None)
      && (|n| > 0 ==> n[|n| - 1].Navigate? && Location(es) == Some(n[|n| - 1].to))
    decreases |es|
  {
    if |es| > 0 {
      LocationIsLastNavigation(es[..|es| - 1]);
    }
  }

  /** A run navigates, once and to "/resume/" + uuid, exactly when every stage succeeds. */
  lemma NavigatesOnlyOnCompletion<F>(input: Submission, env: Environment<F>)
    requires Readable(env)
    ensures var t := Run(input, env);
      && (|Navigations(t.events)| > 0 <==> t.stop == Completed)
      && Location(t.events) == if t.stop == Completed then Some(ResultsPath(env.uuid)) else None
  {
    var m: map<string, ResumeRecord<F>> := map[];
    LocationIsLastNavigation(Run(input, env).events);
    if env.resumeUpload.None? {
      ResumeUploadFailure(input, env, m);
    } else if env.conversion.None? {
      ConversionFailure(input, env, m);
    } else if env.imageUpload.None? {
      ImageUploadFailure(input, env, m);
    } else if env.analysis.None? {
      AnalysisFailure(input, env, m);
    } else {
      Completion(input, env, m);
    }
  }

  /**
   * Once both uploads have succeeded, the fifth call is the first write: under
   * "resume: " + uuid, the record with the fresh identifier, the two upload
   * paths, the three form values verbatim and empty feedback.  The identifier is
   * generated just before it, never earlier.
   */
  lemma FirstWrite<F>(input: Submission, env: Environment<F>)
    requires Readable(env) && env.resumeUpload.Some? && env.conversion.Some? && env.imageUpload.Some?
    ensures var c := ExternalCalls(Run(input, env).events);
      && |c| >= 6
      && c[3] == NewId(env.uuid)
      && c[4].KvSet?
      && c[4].key == "resume: " + env.uuid
      && c[4].record.id == env.uuid
      && c[4].record.resumePath == env.resumeUpload.value.path
      && c[4].record.imagePath == env.imageUpload.value.path
      && c[4].record.companyName == input.companyName
      && c[4].record.jobTitle == input.jobTitle
      && c[4].record.jobDescription == input.jobDescription
      && c[4].record.feedback == EmptyFeedback
      && c[5] == Analyze(env.resumeUpload.value.path, env.prepareInstructions(input.jobTitle, input.jobDescription))
      && (forall i :: 0 <= i < 4 ==> !c[i].KvSet? && !c[i].Analyze?)
  {
    var m: map<string, ResumeRecord<F>> := map[];
    if env.analysis.None? {
      AnalysisFailure(input, env, m);
    } else {
      Completion(input, env, m);
    }
  }

  /**
   * On success the second write uses the first write's key and stores the
   * first write's record with only `feedback` replaced by the parsed answer.
   */
  lemma SecondWrite<F>(input: Submission, env: Environment<F>)
    requires Readable(env) && Run(input, env).stop == Completed
    ensures var c := ExternalCalls(Run(input, env).events);
      && |c| == 7
      && c[4].KvSet? && c[6].KvSet?
      && c[6].key == c[4].key
      && c[6].record == c[4].record.(feedback := Parsed(env.parse(FeedbackText(env.analysis.value))))
  {
    Completion(input, env, map[]);
  }

  /** When the analysis answers nothing the record stays in the store with empty feedback. */
  lemma PartialRecordAfterAnalysisFailure<F>(input: Submission, env: Environment<F>, m: map<string, ResumeRecord<F>>)
    requires Readable(env) && Run(input, env).stop == AnalysisFailed
    ensures var store := Replay(m, Run(input, env).events);
      && ResumeKey(env.uuid) in store
      && store[ResumeKey(env.uuid)].feedback == EmptyFeedback
      && |ExternalCalls(Run(input, env).events)| == 6
  {
    AnalysisFailure(input, env, m);
  }

  /** The stages before `kv.set` leave the store as it was when any of them fails. */
  lemma EarlyFailureKeepsStore<F>(input: Submission, env: Environment<F>, m: map<string, ResumeRecord<F>>)
    requires Readable(env)
    requires Run(input, env).stop in {ResumeUploadFailed, ConversionFailed, ImageUploadFailed}
    ensures Replay(m, Run(input, env).events) == m
    ensures forall i :: 0 <= i < |ExternalCalls(Run(input, env).events)| ==>
              !ExternalCalls(Run(input, env).events)[i].KvSet? && !ExternalCalls(Run(input, env).events)[i].Analyze?
  {
    if env.resumeUpload.None? {
      ResumeUploadFailure(input, env, m);
    } else if env.conversion.None? {
      ConversionFailure(input, env, m);
    } else {
      ImageUploadFailure(input, env, m);
    }
  }

  /**
   * The store after a run, stated directly: unchanged if a stage before the
   * first write fails, the initial record if the analysis answers nothing,
   * the record with parsed feedback on success.
   */
  function StoreAfter<F>(m: map<string, ResumeRecord<F>>, input: Submission, env: Environment<F>): (store: map<string, ResumeRecord<F>>)
    requires Readable(env)
  {
    if env.resumeUpload.None? || env.conversion.None? || env.imageUpload.None? then m
    else
      var record := InitialRecord(env.uuid, input, env.resumeUpload.value, env.imageUpload.value);
      if env.analysis.None? then m[ResumeKey(env.uuid) := record]
      else m[ResumeKey(env.uuid) := record.(feedback := Parsed(env.parse(FeedbackText(env.analysis.value))))]
  }

  /** Replaying a run's writes gives the store `StoreAfter` describes. */
  lemma StoreAfterRun<F>(input: Submission, env: Environment<F>, m: map<string, ResumeRecord<F>>)
    requires Readable(env)
    ensures Replay(m, Run(input, env).events) == StoreAfter(m, input, env)
  {
    if env.resumeUpload.None? {
      ResumeUploadFailure(input, env, m);
    } else if env.conversion.None? {
      ConversionFailure(input, env, m);
    } else if env.imageUpload.None? {
      ImageUploadFailure(input, env, m);
    } else if env.analysis.None? {
      AnalysisFailure(input, env, m);
    } else {
      Completion(input, env, m);
    }
  }

  /** A run writes only under "resume: " + uuid: every other key keeps its value, or stays absent. */
  lemma OtherKeysUntouched<F>(input: Submission, env: Environment<F>, m: map<string, ResumeRecord<F>>, k: string)
    requires Readable(env) && k != ResumeKey(env.uuid)
    ensures var store := Replay(m, Run(input, env).events);
      && (k in store <==> k in m)
      && (k in m ==> store[k] == m[k])
  {
    if env.resumeUpload.None? {
      ResumeUploadFailure(input, env, m);
    } else if env.conversion.None? {
      ConversionFailure(input, env, m);
    } else if env.imageUpload.None? {
      ImageUploadFailure(input, env, m);
    } else if env.analysis.None? {
      AnalysisFailure(input, env, m);
    } else {
      Completion(input, env, m);
    }
  }

  /** On success each of the six progress texts is shown once: no text repeats. */
  lemma SuccessTextsOnce<F>(input: Submission, env: Environment<F>)
    requires Readable(env) && Run(input, env).stop == Completed
    ensures var s := StatusUpdates(Run(input, env).events);
      && |s| == 6
      && forall i, j :: 0 <= i < j < |s| ==> s[i] != s[j]
  {
    Completion(input, env, map[]);
  }

  /**
   * A log extended by the events `es`: the store replays the writes of `es` on
   * top, and the last status and navigation of `es`, if any, win.
   */
  lemma {:induction false} RunExtends<F>(h: seq<Event<F>>, es: seq<Event<F>>, m: map<string, ResumeRecord<F>>)
    ensures Replay(m, h + es) == Replay(Replay(m, h), es)
    ensures |StatusUpdates(es)| > 0 ==> StatusText(h + es) == StatusText(es)
    ensures Location(h + es) == if |Navigations(es)| > 0 then Location(es) else Location(h)
    decreases |es|
  {
    ReplayAppend(m, h, es);
    if |es| == 0 {
      assert h + es == h;
    } else {
      var init, last := es[..|es| - 1], es[|es| - 1];
      assert h + es == (h + init) + [last];
      assert es == init + [last];
      Snoc(h + init, last, m);
      Snoc(init, last, m);
      RunExtends(h, init, m);
    }
  }

  /**
   * A page whose log `hist` is its earlier log `h0` followed by a run, and
   * whose status, store and location are what that run leaves behind, is
   * in the state its log describes.
   */
  lemma Settle<F>(input: Submission, env: Environment<F>, init: map<string, ResumeRecord<F>>,
                  h0: seq<Event<F>>, m0: map<string, ResumeRecord<F>>, loc0: Option<string>,
                  hist: seq<Event<F>>, status: string, m: map<string, ResumeRecord<F>>, loc: Option<string>)
    requires Readable(env)
    requires m0 == Replay(init, h0) && loc0 == Location(h0)
    requires hist == h0 + Run(input, env).events
    requires status == FinalStatus(Run(input, env).stop)
    requires m == StoreAfter(m0, input, env)
    requires loc == if Run(input, env).stop == Completed then Some(ResultsPath(env.uuid)) else loc0
    ensures status == StatusText(hist) && m == Replay(init, hist) && loc == Location(hist)
    ensures m == Replay(m0, Run(input, env).events)
  {
    var t := Run(input, env);
    StatusNamesStop(input, env);
    NavigatesOnlyOnCompletion(input, env);
    StoreAfterRun(input, env, m0);
    RunExtends(h0, t.events, init);
  }

  /**
   * The upload page's state: the React state (`isProcessing`, `statusText`, the
   * selected `file`), the key-value store, the location navigated to, and the
   * log of everything the page has done since it was created.
   */
  class UploadPage<F> {
    var isProcessing: bool
    var statusText: string
    var file: Option<File>
    var kv: map<string, ResumeRecord<F>>
    var location: Option<string>
    ghost var history: seq<Event<F>>
    ghost const initialStore: map<string, ResumeRecord<F>>

    /** The state is what the log says: its last status, its writes, its last navigation. */
    ghost predicate Valid()
      reads this
    {
      && statusText == StatusText(history)
      && kv == Replay(initialStore, history)
      && location == Location(history)
    }

    /** A fresh page over the key-value store `store`. */
    constructor (store: map<string, ResumeRecord<F>>)
      ensures Valid()
      ensures !isProcessing && statusText == "" && file == None && kv == store && location == None
      ensures history == [] && initialStore == store
    {
      isProcessing := false;
      statusText := "";
      file := None;
      kv := store;
      location := None;
      history := [];
      initialStore := store;
    }

    /** `handleFileSelect`: the uploader reports the selected file, or none. */
    method HandleFileSelect(f: Option<File>)
      requires Valid()
      modifies this`file
      ensures Valid() && file == f
    {
      file := f;
    }

    /*
     * The steps of `handleAnalyze`.  Each takes the log `h0` the run started
     * from and the events `done` the run has logged so far, and extends the
     * run's events by what the step does.
     */

    /** `setStatusText(text)` followed by a call to a collaborator. */
    method Begin(ghost h0: seq<Event<F>>, ghost done: seq<Event<F>>, text: string, e: Event<F>)
      requires history == h0 + done
      requires ChannelOf(e) == CallChannel && !e.KvSet?
      modifies this`statusText, this`history
      ensures statusText == text && history == h0 + (done + [Status(text), e])
    {
      statusText := text;
      history := history + [Status(text)];
      history := history + [e];
      assert history == h0 + (done + [Status(text), e]);
    }

    /** `return setStatusText(text)`: the message a failed stage ends with. */
    method Fail(ghost h0: seq<Event<F>>, ghost done: seq<Event<F>>, text: string)
      requires history == h0 + done
      modifies this`statusText, this`history
      ensures statusText == text && history == h0 + (done + [Status(text)])
    {
      statusText := text;
      history := history + [Status(text)];
    }

    /** `kv.set(key, JSON.stringify(record))`; its answer is not looked at. */
    method KvWrite(ghost h0: seq<Event<F>>, ghost done: seq<Event<F>>, key: string, record: ResumeRecord<F>)
      requires history == h0 + done
      modifies this`kv, this`history
      ensures kv == old(kv)[key := record] && history == h0 + (done + [KvSet(key, record)])
    {
      kv := kv[key := record];
      history := history + [KvSet(key, record)];
    }

    /** `setStatusText(text)`, then `navigate(path)`. */
    method Redirect(ghost h0: seq<Event<F>>, ghost done: seq<Event<F>>, text: string, path: string)
      requires history == h0 + done
      modifies this`statusText, this`location, this`history
      ensures statusText == text && location == Some(path)
      ensures history == h0 + (done + [Status(text), Navigate(path)])
    {
      statusText := text;
      history := history + [Status(text)];
      location := Some(path);
      history := history + [Navigate(path)];
      assert history == h0 + (done + [Status(text), Navigate(path)]);
    }

    /**
     * `handleAnalyze`: one run, ending at the first falsy answer.  The page
     * logs what `Run` describes, is left processing on every path, shows the
     * status of the stage it stopped at, holds the store `StoreAfter`
     * describes, and is on the results page exactly when the run completes.
     */
    method HandleAnalyze(input: Submission, env: Environment<F>)
      requires Readable(env)
      modifies this`isProcessing, this`statusText, this`kv, this`location, this`history
      ensures isProcessing
      ensures history == old(history) + Run(input, env).events
      ensures statusText == FinalStatus(Run(input, env).stop)
      ensures kv == StoreAfter(old(kv), input, env)
      ensures location == if Run(input, env).stop == Completed then Some(ResultsPath(env.uuid)) else old(location)
    {
      ghost var h0 := history;
      assert history == h0 + [];
      isProcessing := true;

      Begin(h0, [], UploadingResume, Upload([input.file]));
      ghost var done := [Status(UploadingResume), Upload([input.file])];
      var uploadedFile := env.resumeUpload;
      if uploadedFile.None? {
        Fail(h0, done, UploadFileError);
        return;
      }

      Begin(h0, done, ConvertingToImage, Convert(input.file));
      done := done + [Status(ConvertingToImage), Convert(input.file)];
      var imageFile := env.conversion;
      if imageFile.None? {
        Fail(h0, done, ConvertError);
        return;
      }

      Begin(h0, done, UploadingImage, Upload([imageFile.value]));
      done := done + [Status(UploadingImage), Upload([imageFile.value])];
      var uploadedImage := env.imageUpload;
      if uploadedImage.None? {
        Fail(h0, done, UploadImageError);
        return;
      }

      StoreAndAnalyze(h0, done, input, env, uploadedFile.value, uploadedImage.value);
    }

    /**
     * The rest of `handleAnalyze` once the résumé is uploaded, converted and
     * its image uploaded: the record is stored with empty feedback, the
     * analysis is asked for, and on an answer the record is stored again with
     * the parsed feedback before the page moves to the results.
     */
    method StoreAndAnalyze(ghost h0: seq<Event<F>>, ghost prefix: seq<Event<F>>, input: Submission, env: Environment<F>,
                           uploadedFile: StoredItem, uploadedImage: StoredItem)
      requires Readable(env)
      requires env.resumeUpload == Some(uploadedFile) && env.conversion.Some? && env.imageUpload == Some(uploadedImage)
      requires prefix == [Status(UploadingResume), Upload([input.file])]
                       + [Status(ConvertingToImage), Convert(input.file)]
                       + [Status(UploadingImage), Upload([env.conversion.value])]
      requires history == h0 + prefix
      modifies this`statusText, this`kv, this`location, this`history
      ensures history == h0 + Run(input, env).events
      ensures statusText == FinalStatus(Run(input, env).stop)
      ensures kv == StoreAfter(old(kv), input, env)
      ensures location == if Run(input, env).stop == Completed then Some(ResultsPath(env.uuid)) else old(location)
    {
      ghost var done := prefix;
      var uuid := env.uuid;
      Begin(h0, done, PreparingData, NewId(uuid));
      done := done + [Status(PreparingData), NewId(uuid)];
      var data := ResumeRecord(uuid, uploadedFile.path, uploadedImage.path,
                               input.companyName, input.jobTitle, input.jobDescription, EmptyFeedback);
      KvWrite(h0, done, ResumeKey(uuid), data);
      done := done + [KvSet(ResumeKey(uuid), data)];

      var instructions := env.prepareInstructions(input.jobTitle, input.jobDescription);
      Begin(h0, done, Analyzing, Analyze(uploadedFile.path, instructions));
      done := done + [Status(Analyzing), Analyze(uploadedFile.path, instructions)];
      var feedback := env.analysis;
      if feedback.None? {
        Fail(h0, done, AnalyzeError);
        return;
      }

      var feedbackText := FeedbackText(feedback.value);
      data := data.(feedback := Parsed(env.parse(feedbackText)));
      KvWrite(h0, done, ResumeKey(uuid), data);
      done := done + [KvSet(ResumeKey(uuid), data)];
      Redirect(h0, done, Redirecting, ResultsPath(uuid));
    }

    /**
     * `handleSubmit`: nothing happens without a form or without a selected
     * file; otherwise the form's three values and the file go to `handleAnalyze`.
     */
    method HandleSubmit(form: Option<FormFields>, env: Environment<F>)
      requires Valid() && Readable(env)
      modifies this`isProcessing, this`statusText, this`kv, this`location, this`history
      ensures Valid()
      ensures form.None? || old(file).None? ==> unchanged(this)
      ensures form.Some? && old(file).Some? ==>
                var input := Submission(form.value.companyName, form.value.jobTitle, form.value.jobDescription,
                                        old(file).value);
                && isProcessing
                && history == old(history) + Run(input, env).events
                && statusText == FinalStatus(Run(input, env).stop)
                && kv == StoreAfter(old(kv), input, env)
                && kv == Replay(old(kv), Run(input, env).events)
                && location == if Run(input, env).stop == Completed then Some(ResultsPath(env.uuid))
                               else old(location)
    {
      if form.None? {
        return;
      }
      var companyName := form.value.companyName;
      var jobTitle := form.value.jobTitle;
      var jobDescription := form.value.jobDescription;
      if file.None? {
        return;
      }
      var input := Submission(companyName, jobTitle, jobDescription, file.value);
      HandleAnalyze(input, env);
      Settle(input, env, initialStore, old(history), old(kv), old(location), history, statusText, kv, location);
    }
  }
}
