/** The structured résumé record parsed from the language model's JSON reply.
    Every field may be missing; JavaScript truthiness of a string field
    (`if (x)`, `x || default`) is "present and non-empty". */
module Resume {

  datatype Option<+T> = None | Some(value: T)

  datatype Header = Header(name: Option<string>, contact: Option<string>)

  datatype Job = Job(
    jobTitle: Option<string>,
    company: Option<string>,
    location: Option<string>,
    duration: Option<string>,
    bulletPoints: Option<seq<string>>)

  datatype Education = Education(
    degree: Option<string>,
    institution: Option<string>,
    graduationYear: Option<string>)

  /** `Some(xs)` for a field that is an array (`Array.isArray`), `None` otherwise. */
  datatype StructuredResume = StructuredResume(
    header: Option<Header>,
    professionalSummary: Option<string>,
    workExperience: Option<seq<Job>>,
    education: Option<seq<Education>>,
    skills: Option<seq<string>>,
    references: Option<string>,
    certifications: Option<seq<string>>,
    achievements: Option<seq<string>>)

  /** A string field that is truthy in JavaScript. */
  predicate Truthy(s: Option<string>)
  {
    s.Some? && s.value != ""
  }

  /** `s || fallback` for a string field. */
  function OrElse(s: Option<string>, fallback: string): (r: string)
    ensures Truthy(s) ==> r == s.value
    ensures !Truthy(s) ==> r == fallback
  {
    if Truthy(s) then s.value else fallback
  }

  /** `Array.isArray(xs) && xs.length > 0`. */
  predicate NonEmptyArray<T>(xs: Option<seq<T>>)
  {
    xs.Some? && |xs.value| > 0
  }
}
