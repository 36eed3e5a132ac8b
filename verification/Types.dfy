/**
  The data model of the extractor: the declared shape of one extraction
  result (`ExtractedData`), the shape that actually reaches the user interface
  after an unchecked cast of parsed JSON (`Record`), and the five statuses of
  an extraction session.
 */
module Types {

  import opened Wrappers

  /** One key of an object produced by parsing JSON: the key may be missing
      (`undefined`), hold `null`, or hold a value. */
  datatype Field<+T> = Absent | Null | Present(value: T)

  /** The declared result of one extraction: six nullable strings, two
      non-null string lists and a non-null score. */
  datatype ExtractedData = ExtractedData(
    fullName: Option<string>,
    emails: seq<string>,
    phoneNumbers: seq<string>,
    jobTitle: Option<string>,
    company: Option<string>,
    location: Option<string>,
    linkedinUrl: Option<string>,
    summary: Option<string>,
    confidenceScore: real)

  /** The names of the nine fields of `ExtractedData`, in declaration order. */
  const ExtractedDataFields: seq<string> :=
    ["fullName", "emails", "phoneNumbers", "jobTitle", "company",
     "location", "linkedinUrl", "summary", "confidenceScore"]

  /** What the service really returns: the parsed JSON object, in which any
      of the nine keys may be missing or `null` whatever the declared type says. */
  datatype Record = Record(
    fullName: Field<string>,
    emails: Field<seq<string>>,
    phoneNumbers: Field<seq<string>>,
    jobTitle: Field<string>,
    company: Field<string>,
    location: Field<string>,
    linkedinUrl: Field<string>,
    summary: Field<string>,
    confidenceScore: Field<real>)

  /** The object obtained by parsing the text `{}`: every key missing. */
  const EmptyRecord: Record :=
    Record(Absent, Absent, Absent, Absent, Absent, Absent, Absent, Absent, Absent)

  datatype ExtractionStatus = Idle | Uploading | Analyzing | Success | Error

  /** The string value each status carries in the enum. */
  function StatusValue(st: ExtractionStatus): string
  {
    match st
    case Idle => "IDLE"
    case Uploading => "UPLOADING"
    case Analyzing => "ANALYZING"
    case Success => "SUCCESS"
    case Error => "ERROR"
  }

  /** Different statuses carry different enum values. */
  lemma StatusValuesDistinct(a: ExtractionStatus, b: ExtractionStatus)
    ensures a != b ==> StatusValue(a) != StatusValue(b)
  {
  }

  /** JavaScript truthiness of a string that may be missing: only a present,
      non-empty string is truthy. */
  predicate Truthy(v: Option<string>)
  {
    v.Some? && v.value != ""
  }

  /** JavaScript truthiness of a string-valued key of a parsed object. */
  predicate FieldTruthy(f: Field<string>)
  {
    f.Present? && f.value != ""
  }

  /** Reading a nullable key: a missing key and `null` both read as no value. */
  function ValueOf<T>(f: Field<T>): (v: Option<T>)
    ensures v.Some? <==> f.Present?
    ensures v.Some? ==> v.value == f.value
  {
    match f
    case Present(x) => Some(x)
    case _ => None
  }

  /** Truthiness does not depend on whether a falsy key was missing or `null`. */
  lemma FieldTruthyIsValueTruthy(f: Field<string>)
    ensures FieldTruthy(f) <==> Truthy(ValueOf(f))
  {
  }

  function FieldOf<T>(v: Option<T>): Field<T>
  {
    match v
    case Some(x) => Present(x)
    case None => Null
  }

  /** The parsed object has the declared shape: every nullable key is present
      (possibly `null`), and the lists and the score are present and not `null`. */
  predicate Conforms(r: Record)
  {
    && !r.fullName.Absent? && !r.jobTitle.Absent? && !r.company.Absent?
    && !r.location.Absent? && !r.linkedinUrl.Absent? && !r.summary.Absent?
    && r.emails.Present? && r.phoneNumbers.Present? && r.confidenceScore.Present?
  }

  /** A declared value seen as a parsed object. */
  function FromDeclared(d: ExtractedData): (r: Record)
    ensures Conforms(r)
    ensures r.emails.value == d.emails && r.phoneNumbers.value == d.phoneNumbers
    ensures r.confidenceScore.value == d.confidenceScore
  {
    Record(FieldOf(d.fullName), Present(d.emails), Present(d.phoneNumbers),
           FieldOf(d.jobTitle), FieldOf(d.company), FieldOf(d.location),
           FieldOf(d.linkedinUrl), FieldOf(d.summary), Present(d.confidenceScore))
  }

  /** A parsed object of the declared shape read back as a declared value;
      nothing is lost either way. */
  function ToDeclared(r: Record): (d: ExtractedData)
    requires Conforms(r)
    ensures FromDeclared(d) == r
  {
    ExtractedData(ValueOf(r.fullName), r.emails.value, r.phoneNumbers.value,
                  ValueOf(r.jobTitle), ValueOf(r.company), ValueOf(r.location),
                  ValueOf(r.linkedinUrl), ValueOf(r.summary), r.confidenceScore.value)
  }

  lemma DeclaredRoundTrip(d: ExtractedData)
    ensures ToDeclared(FromDeclared(d)) == d
  {
  }

  /** The object parsed from `{}` does not have the declared shape: the
      unchecked cast lets through a result without lists or score. */
  lemma EmptyRecordDoesNotConform()
    ensures !Conforms(EmptyRecord)
    ensures forall d :: FromDeclared(d) != EmptyRecord
  {
  }
}
