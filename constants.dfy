/**
 * The schema of an analysis, the sample data kept for mock-ups, and the
 * instruction text sent to the inference service (constants/index.ts).
 */
module Constants {
  import opened Wrappers

  /** A tip's `type`: exactly "good" or "improve". */
  datatype TipType = Good | Improve

  /** A tip in the ATS section: its `explanation` may be absent. */
  datatype AtsTip = AtsTip(kind: TipType, tip: string, explanation: Option<string>)

  /** A tip in any other section: its `explanation` is required. */
  datatype Tip = Tip(kind: TipType, tip: string, explanation: string)

  /**
   * One scored section. The interface declares `tips` required, but a stored
   * analysis is whatever the inference service sent (nothing checks it before
   * it is saved), so the list may be absent; `None` stands for that.
   */
  datatype Section<T> = Section(score: int, tips: Option<seq<T>>)

  /** The `Feedback` interface: an overall score and five fixed sections. */
  datatype Feedback = Feedback(
    overallScore: int,
    ats: Section<AtsTip>,
    toneAndStyle: Section<Tip>,
    content: Section<Tip>,
    structure: Section<Tip>,
    skills: Section<Tip>)

  /** The `Resume` interface of the sample data. */
  datatype Resume = Resume(
    id: string,
    companyName: string,
    jobTitle: string,
    imagePath: string,
    resumePath: string,
    feedback: Feedback)

  predicate IsScore(n: int) {
    0 <= n <= 100
  }

  predicate SectionWellFormed<T>(s: Section<T>) {
    IsScore(s.score) && s.tips.Some?
  }

  /** A feedback value that meets the schema's intent: every score in 0..100, every tip list present. */
  predicate WellFormed(f: Feedback) {
    && IsScore(f.overallScore)
    && SectionWellFormed(f.ats)
    && SectionWellFormed(f.toneAndStyle)
    && SectionWellFormed(f.content)
    && SectionWellFormed(f.structure)
    && SectionWellFormed(f.skills)
  }

  function UniformFeedback(overall: int, sectionScore: int): Feedback {
    Feedback(overall,
      Section(sectionScore, Some([])), Section(sectionScore, Some([])), Section(sectionScore, Some([])),
      Section(sectionScore, Some([])), Section(sectionScore, Some([])))
  }

  /** The placeholder `resumes` list. */
  const SampleResumes: seq<Resume> := [
    Resume("1", "Google", "Frontend Developer", "/images/resume-1.png", "/resumes/resume-1.pdf",
      UniformFeedback(85, 90)),
    Resume("2", "Microsoft", "Cloud Engineer", "/images/resume-2.png", "/resumes/resume-2.pdf",
      UniformFeedback(55, 90))
  ]

  /** The sample records are well formed and their ids are distinct. */
  lemma SampleResumesAreWellFormed()
    ensures forall i :: 0 <= i < |SampleResumes| ==> WellFormed(SampleResumes[i].feedback)
    ensures forall i, j :: 0 <= i < j < |SampleResumes| ==> SampleResumes[i].id != SampleResumes[j].id
  {
  }

  /** The example payload the instructions show, as a `Feedback` value. */
  const ExampleFeedback: Feedback := Feedback(
    85,
    Section(90, Some([
      AtsTip(Good, "Well-formatted for parsers", None),
      AtsTip(Improve, "Include more keywords from the job description", None)])),
    Section(80, Some([
      Tip(Good, "Professional Tone", "The tone is professional and suitable for the role."),
      Tip(Improve, "Use More Action Verbs", "Replace passive phrases with stronger action verbs to show more impact.")])),
    Section(75, Some([
      Tip(Improve, "Quantify Achievements", "Instead of saying 'Managed projects', try 'Managed 5 projects, increasing efficiency by 15%.")])),
    Section(95, Some([
      Tip(Good, "Clear and Logical", "The resume is well-structured and easy to follow.")])),
    Section(80, Some([
      Tip(Improve, "Match Skills to Job", "Tailor the skills section to better match the key technologies listed in the job description.")])))

  /** Every score in the example payload lies in 0..100. */
  lemma ExampleFeedbackIsWellFormed()
    ensures WellFormed(ExampleFeedback)
  {
  }

  /** `JSON_EXAMPLE_FORMAT`: the example payload as the instructions spell it out. */
  const JsonExampleFormat: string := "{" + JsonExampleBody + "}"

  /** The text of `JSON_EXAMPLE_FORMAT` between its outer braces. */
  const JsonExampleBody: string := @"
  ""overallScore"": 85,
  ""ATS"": {
    ""score"": 90,
    ""tips"": [
      { ""type"": ""good"", ""tip"": ""Well-formatted for parsers"" },
      { ""type"": ""improve"", ""tip"": ""Include more keywords from the job description"" }
    ]
  },
  ""toneAndStyle"": {
    ""score"": 80,
    ""tips"": [
      { ""type"": ""good"", ""tip"": ""Professional Tone"", ""explanation"": ""The tone is professional and suitable for the role."" },
      { ""type"": ""improve"", ""tip"": ""Use More Action Verbs"", ""explanation"": ""Replace passive phrases with stronger action verbs to show more impact."" }
    ]
  },
  ""content"": {
    ""score"": 75,
    ""tips"": [
      { ""type"": ""improve"", ""tip"": ""Quantify Achievements"", ""explanation"": ""Instead of saying 'Managed projects', try 'Managed 5 projects, increasing efficiency by 15%."" }
    ]
  },
  ""structure"": {
    ""score"": 95,
    ""tips"": [
      { ""type"": ""good"", ""tip"": ""Clear and Logical"", ""explanation"": ""The resume is well-structured and easy to follow."" }
    ]
  },
  ""skills"": {
    ""score"": 80,
    ""tips"": [
      { ""type"": ""improve"", ""tip"": ""Match Skills to Job"", ""explanation"": ""Tailor the skills section to better match the key technologies listed in the job description."" }
    ]
  }
"

  /** The example payload starts with `{` and ends with `}`. */
  lemma JsonExampleIsBraced()
    ensures 2 <= |JsonExampleFormat|
    ensures JsonExampleFormat[0] == '{' && JsonExampleFormat[|JsonExampleFormat| - 1] == '}'
  {
  }

  const Preamble: string :=
    "You are an expert resume analyst. Analyze the provided resume based on the job title and description.\n" +
    "Provide a detailed, critical review with scores and actionable tips. Be strict with scoring to provide the most value.\n\n"

  const TitleLabel: string := "The job title is: "
  const DescriptionLabel: string := "The job description is: \""

  const FormatDirective: string :=
    "You MUST respond with a JSON object that follows this exact structure and format:\n"

  const Closing: string :=
    "\n\nYour response MUST be ONLY the raw JSON object, starting with { and ending with }.\n" +
    "Do NOT include the word \"json\", markdown backticks, or any other text, comments, or explanations before or after the JSON object."

  /** `needle` occurs in `hay` as a contiguous piece. */
  predicate IsInfix(needle: string, hay: string) {
    exists i :: 0 <= i <= |hay| && StartsWith(hay[i..], needle)
  }

  predicate StartsWith(s: string, prefix: string) {
    |prefix| <= |s| && s[..|prefix|] == prefix
  }

  lemma InfixOfConcat(a: string, b: string, c: string)
    ensures IsInfix(b, a + b + c)
  {
    assert (a + b + c)[|a|..][..|b|] == b;
  }

  /** The instruction template, for any example payload. */
  function Template(jobTitle: string, jobDescription: string, example: string): string {
    Preamble + TitleLabel + jobTitle + "\n" + DescriptionLabel + jobDescription + "\"" + "\n\n"
      + FormatDirective + example + Closing
  }

  /** The argument object of `prepareInstructions`. */
  datatype JobContext = JobContext(jobTitle: string, jobDescription: string)

  /** The template grows by exactly its two inputs, and opens with the preamble and the title line. */
  lemma TemplateShape(jobTitle: string, jobDescription: string, example: string)
    ensures |Template(jobTitle, jobDescription, example)| == |Template("", "", example)| + |jobTitle| + |jobDescription|
    ensures StartsWith(Template(jobTitle, jobDescription, example), Preamble + TitleLabel + jobTitle)
  {
    var head := Preamble + TitleLabel + jobTitle;
    var rest := "\n" + DescriptionLabel + jobDescription + "\"" + "\n\n" + FormatDirective + example + Closing;
    assert Template(jobTitle, jobDescription, example) == head + rest;
    assert (head + rest)[..|head|] == head;
  }

  /**
   * `prepareInstructions`: the template with the job title and description
   * interpolated as they are. Nothing is escaped or dropped: the text is
   * longer than the empty-input template by exactly the two inputs' lengths,
   * and it opens with the preamble and the job title line.
   */
  function PrepareInstructions(job: JobContext): (r: string)
    ensures |r| == |Template("", "", JsonExampleFormat)| + |job.jobTitle| + |job.jobDescription|
    ensures StartsWith(r, Preamble + TitleLabel + job.jobTitle)
  {
    TemplateShape(job.jobTitle, job.jobDescription, JsonExampleFormat);
    Template(job.jobTitle, job.jobDescription, JsonExampleFormat)
  }

  /** Where the interpolated pieces sit in a concatenation shaped like the template. */
  lemma PiecesAreInfixes(pre: string, tl: string, t: string, nl: string, dl: string, d: string,
                         q: string, bl: string, fd: string, ex: string, cl: string)
    ensures IsInfix(tl + t, pre + tl + t + nl + dl + d + q + bl + fd + ex + cl)
    ensures IsInfix(dl + d + q, pre + tl + t + nl + dl + d + q + bl + fd + ex + cl)
    ensures IsInfix(ex, pre + tl + t + nl + dl + d + q + bl + fd + ex + cl)
  {
    var p := pre + tl + t + nl + dl + d + q + bl + fd + ex + cl;
    assert p == pre + (tl + t) + (nl + dl + d + q + bl + fd + ex + cl);
    InfixOfConcat(pre, tl + t, nl + dl + d + q + bl + fd + ex + cl);
    assert p == (pre + tl + t + nl) + (dl + d + q) + (bl + fd + ex + cl);
    InfixOfConcat(pre + tl + t + nl, dl + d + q, bl + fd + ex + cl);
    assert p == (pre + tl + t + nl + dl + d + q + bl + fd) + ex + cl;
    InfixOfConcat(pre + tl + t + nl + dl + d + q + bl + fd, ex, cl);
  }

  lemma TemplateQuotesInputs(jobTitle: string, jobDescription: string, example: string)
    ensures IsInfix(TitleLabel + jobTitle, Template(jobTitle, jobDescription, example))
    ensures IsInfix(DescriptionLabel + jobDescription + "\"", Template(jobTitle, jobDescription, example))
    ensures IsInfix(example, Template(jobTitle, jobDescription, example))
  {
    PiecesAreInfixes(Preamble, TitleLabel, jobTitle, "\n", DescriptionLabel, jobDescription, "\"", "\n\n",
                     FormatDirective, example, Closing);
  }

  /**
   * The instructions quote the job title, the job description (between double
   * quotes) and the example payload verbatim, with no escaping.
   */
  lemma InstructionsQuoteInputs(jobTitle: string, jobDescription: string)
    ensures IsInfix(TitleLabel + jobTitle, PrepareInstructions(JobContext(jobTitle, jobDescription)))
    ensures IsInfix(DescriptionLabel + jobDescription + "\"", PrepareInstructions(JobContext(jobTitle, jobDescription)))
    ensures IsInfix(JsonExampleFormat, PrepareInstructions(JobContext(jobTitle, jobDescription)))
  {
    TemplateQuotesInputs(jobTitle, jobDescription, JsonExampleFormat);
  }

  /** Moving text across the description label leaves a template-shaped concatenation unchanged. */
  lemma SwapAcrossLabel(pre: string, tl: string, nl: string, dl: string, q: string, bl: string,
                        fd: string, ex: string, cl: string, a: string, b: string, c: string)
    ensures pre + tl + a + nl + dl + (b + nl + dl + c) + q + bl + fd + ex + cl
         == pre + tl + (a + nl + dl + b) + nl + dl + c + q + bl + fd + ex + cl
  {
  }

  lemma TemplateIsAmbiguous(example: string)
    ensures Template("A", "B" + "\n" + DescriptionLabel + "C", example)
         == Template("A" + "\n" + DescriptionLabel + "B", "C", example)
  {
    SwapAcrossLabel(Preamble, TitleLabel, "\n", DescriptionLabel, "\"", "\n\n", FormatDirective, example, Closing, "A", "B", "C");
  }

  /**
   * Because nothing is escaped, the instructions do not determine their
   * inputs: a title that ends with the description label and a description
   * that starts with it can trade text and give the same instructions.
   */
  lemma InstructionsAreAmbiguous()
    ensures PrepareInstructions(JobContext("A", "B" + "\n" + DescriptionLabel + "C"))
         == PrepareInstructions(JobContext("A" + "\n" + DescriptionLabel + "B", "C"))
  {
    TemplateIsAmbiguous(JsonExampleFormat);
  }
}
