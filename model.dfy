/**
 * The records the front end exchanges with the backend (the `User`,
 * `Project` and `WorkExperience` interfaces of the API service), the shapes
 * its callers send in their place (`Omit<…>` for creation, `Partial<…>` for
 * updates), the identity provider's signed-in user, and the browser's
 * selected file with the PDF check two pages share.
 *
 * Optional properties (`x?: T`) are `Option<T>`; `gpa?: number` is a `real`.
 */
module Model {
  import opened Wrappers

  // ---------------------------------------------------------------------------
  // Backend records
  // ---------------------------------------------------------------------------

  datatype ResumePdf = ResumePdf(filename: string, originalName: string, uploadDate: string)

  datatype ParsedResumeData = ParsedResumeData(
    rawText: string,
    extractedSkills: seq<string>,
    extractedEducation: seq<string>,
    extractedExperience: seq<string>)

  datatype Project = Project(
    id: Option<string>,
    projectName: string,
    skills: seq<string>,
    sampleBullets: seq<string>,
    createdAt: Option<string>,
    updatedAt: Option<string>)

  datatype WorkExperience = WorkExperience(
    id: Option<string>,
    company: string,
    position: Option<string>,
    startDate: Option<string>,
    endDate: Option<string>,
    skills: seq<string>,
    sampleBullets: seq<string>,
    createdAt: Option<string>,
    updatedAt: Option<string>)

  /** A user as the backend stores it; `id` is the backend's `_id`, absent until the record is created. */
  datatype User = User(
    id: Option<string>,
    clerkUserId: string,
    name: string,
    email: string,
    university: Option<string>,
    major: Option<string>,
    gpa: Option<real>,
    phone: Option<string>,
    linkedinUrl: Option<string>,
    githubUrl: Option<string>,
    websiteUrl: Option<string>,
    resumePdf: Option<ResumePdf>,
    parsedResumeData: Option<ParsedResumeData>,
    projects: Option<seq<Project>>,
    workExperiences: Option<seq<WorkExperience>>,
    createdAt: Option<string>,
    updatedAt: Option<string>)

  // ---------------------------------------------------------------------------
  // What callers send
  // ---------------------------------------------------------------------------

  /** The new-user record the session hook sends: the three properties it sets. */
  datatype NewUser = NewUser(clerkUserId: string, name: string, email: string)

  /** `Partial<User>`: any subset of the user's properties. */
  datatype UserPatch = UserPatch(
    id: Option<string>,
    clerkUserId: Option<string>,
    name: Option<string>,
    email: Option<string>,
    university: Option<string>,
    major: Option<string>,
    gpa: Option<real>,
    phone: Option<string>,
    linkedinUrl: Option<string>,
    githubUrl: Option<string>,
    websiteUrl: Option<string>,
    resumePdf: Option<ResumePdf>,
    parsedResumeData: Option<ParsedResumeData>,
    projects: Option<seq<Project>>,
    workExperiences: Option<seq<WorkExperience>>,
    createdAt: Option<string>,
    updatedAt: Option<string>)

  /** `Omit<Project, '_id' | 'createdAt' | 'updatedAt'>`. */
  datatype NewProject = NewProject(projectName: string, skills: seq<string>, sampleBullets: seq<string>)

  /** `Partial<Project>`. */
  datatype ProjectPatch = ProjectPatch(
    id: Option<string>,
    projectName: Option<string>,
    skills: Option<seq<string>>,
    sampleBullets: Option<seq<string>>,
    createdAt: Option<string>,
    updatedAt: Option<string>)

  /** `Omit<WorkExperience, '_id' | 'createdAt' | 'updatedAt'>`. */
  datatype NewWorkExperience = NewWorkExperience(
    company: string,
    position: Option<string>,
    startDate: Option<string>,
    endDate: Option<string>,
    skills: seq<string>,
    sampleBullets: seq<string>)

  /** `Partial<WorkExperience>`. */
  datatype WorkExperiencePatch = WorkExperiencePatch(
    id: Option<string>,
    company: Option<string>,
    position: Option<string>,
    startDate: Option<string>,
    endDate: Option<string>,
    skills: Option<seq<string>>,
    sampleBullets: Option<seq<string>>,
    createdAt: Option<string>,
    updatedAt: Option<string>)

  // ---------------------------------------------------------------------------
  // The identity provider and the browser
  // ---------------------------------------------------------------------------

  /** The signed-in user as the identity provider reports it; the name parts and the primary address may be missing. */
  datatype ClerkUser = ClerkUser(
    id: string,
    fullName: Option<string>,
    firstName: Option<string>,
    primaryEmailAddress: Option<string>)

  /** What the identity provider's hook returns: whether it has loaded, and the user if one is signed in. */
  datatype ClerkSession = ClerkSession(isLoaded: bool, user: Option<ClerkUser>)

  /** A file chosen in a file input: its name and its MIME type (`file.type`). */
  datatype File = File(name: string, mimeType: string)

  // ---------------------------------------------------------------------------
  // The PDF check of the two upload pages
  // ---------------------------------------------------------------------------

  const PdfType := "application/pdf"
  const NoFileMessage := "Please select a PDF file to upload."
  const NotPdfMessage := "Only PDF files are allowed."

  /**
   * The message an upload handler shows instead of uploading, checked in the
   * order the handlers check: first that a file is selected, then its type.
   * None means the file is accepted.
   */
  function PdfProblem(file: Option<File>): (problem: Option<string>)
    ensures problem.None? <==> file.Some? && file.value.mimeType == PdfType
    ensures file.None? ==> problem == Some(NoFileMessage)
    ensures file.Some? && file.value.mimeType != PdfType ==> problem == Some(NotPdfMessage)
  {
    if file.None? then Some(NoFileMessage)
    else if file.value.mimeType != PdfType then Some(NotPdfMessage)
    else None
  }
}
