/**
 * The NGO's project-submission form: the `ProjectSubmission` record every
 * later verification stage works on, the required-field check, the numeric
 * defaults, and the append of a new draft to the stored submission list
 * (browser storage key `projectSubmissions`, held here in a field).
 */
module ProjectSubmissionPage {
  import opened JsRuntime
  import MockData

  /** `'none' | 'self' | 'peer'` */
  datatype VerificationLevel = NoLevel | SelfLevel | PeerLevel

  /** `'draft' | 'self-verified' | 'peer-verification' | 'verified' | 'rejected'` */
  datatype SubmissionStatus = Draft | SelfVerified | PeerVerification | Verified | Rejected

  datatype PeerReview = PeerReview(
    reviewerId: string,
    reviewerName: string,
    approved: bool,
    feedback: string,
    reviewedAt: MockData.Timestamp)

  datatype ProjectSubmission = ProjectSubmission(
    id: string,
    title: string,
    description: string,
    location: string,
    area: real,
    estimatedCredits: real,
    pricePerCredit: real,
    communityJobs: real,
    images: seq<File>,
    droneFootage: seq<File>,
    submittedAt: MockData.Timestamp,
    verificationLevel: VerificationLevel,
    status: SubmissionStatus,
    peerReviews: Option<seq<PeerReview>>)   // absent until the first peer review

  /** The form's text fields, exactly as typed. */
  datatype FormData = FormData(
    title: string,
    description: string,
    location: string,
    area: string,
    estimatedCredits: string,
    pricePerCredit: string,
    communityJobs: string)

  datatype FormField = Title | Description | Location | Area | EstimatedCredits | PricePerCredit | CommunityJobs

  datatype Upload = Images | Drone

  const EmptyForm: FormData := FormData("", "", "", "", "", "", "")

  /** The price a submission gets when its price field is empty, unparsable or zero. */
  const DefaultPricePerCredit: real := 25.0

  function SetField(f: FormData, name: FormField, value: string): FormData {
    match name
    case Title => f.(title := value)
    case Description => f.(description := value)
    case Location => f.(location := value)
    case Area => f.(area := value)
    case EstimatedCredits => f.(estimatedCredits := value)
    case PricePerCredit => f.(pricePerCredit := value)
    case CommunityJobs => f.(communityJobs := value)
  }

  function GetField(f: FormData, name: FormField): string {
    match name
    case Title => f.title
    case Description => f.description
    case Location => f.location
    case Area => f.area
    case EstimatedCredits => f.estimatedCredits
    case PricePerCredit => f.pricePerCredit
    case CommunityJobs => f.communityJobs
  }

  /** An input change sets the named field and leaves the others as they were. */
  lemma SetFieldOnlyThatField(f: FormData, name: FormField, value: string, other: FormField)
    ensures GetField(SetField(f, name, value), name) == value
    ensures other != name ==> GetField(SetField(f, name, value), other) == GetField(f, other)
  {
  }

  /** `!title || !description || !location || !area`: one of the four required fields is empty. */
  predicate MissingRequired(f: FormData) {
    f.title == "" || f.description == "" || f.location == "" || f.area == ""
  }

  /** The area field is a `type="number"` input: the browser keeps it empty or numeric. */
  predicate AreaSanitized(f: FormData) {
    f.area == "" || ParseFloat(f.area).Some?
  }

  /** The record `handleSubmit` builds from a form that passed the required-field check. */
  function NewSubmission(f: FormData, images: seq<File>, drone: seq<File>, now: nat): (p: ProjectSubmission)
    requires !MissingRequired(f) && AreaSanitized(f)
    ensures p.status == Draft && p.verificationLevel == NoLevel && p.peerReviews.None?
    ensures p.title == f.title && p.description == f.description && p.location == f.location
    ensures p.images == images && p.droneFootage == drone && p.submittedAt == now
    ensures ParseFloat(f.area) == Some(p.area)
  {
    ProjectSubmission(
      NatToString(now), f.title, f.description, f.location,
      ParseFloat(f.area).value,
      OrDefault(ParseFloat(f.estimatedCredits), 0.0),
      OrDefault(ParseFloat(f.pricePerCredit), DefaultPricePerCredit),
      OrDefault(ParseFloat(f.communityJobs), 0.0),
      images, drone, now, NoLevel, Draft, None)
  }

  /**
   * The numeric defaults: credits and jobs become 0 when their field does not
   * parse, and the price becomes 25 whenever the parse is falsy, an explicit 0
   * included; credits and jobs keep whatever number they parse to (a parsed 0
   * and the default agree), and a price that parses to a non-zero number
   * keeps it.
   */
  lemma NewSubmissionDefaults(f: FormData, images: seq<File>, drone: seq<File>, now: nat)
    requires !MissingRequired(f) && AreaSanitized(f)
    ensures ParseFloat(f.estimatedCredits).None? ==> NewSubmission(f, images, drone, now).estimatedCredits == 0.0
    ensures ParseFloat(f.communityJobs).None? ==> NewSubmission(f, images, drone, now).communityJobs == 0.0
    ensures ParseFloat(f.pricePerCredit) in {None, Some(0.0)} ==>
              NewSubmission(f, images, drone, now).pricePerCredit == DefaultPricePerCredit
    ensures ParseFloat(f.pricePerCredit) == Some(NewSubmission(f, images, drone, now).pricePerCredit)
              || NewSubmission(f, images, drone, now).pricePerCredit == DefaultPricePerCredit
    ensures NewSubmission(f, images, drone, now).pricePerCredit != 0.0
    ensures forall x :: ParseFloat(f.estimatedCredits) == Some(x) ==>
              NewSubmission(f, images, drone, now).estimatedCredits == x
    ensures forall x :: ParseFloat(f.communityJobs) == Some(x) ==>
              NewSubmission(f, images, drone, now).communityJobs == x
    ensures forall x :: ParseFloat(f.pricePerCredit) == Some(x) && x != 0.0 ==>
              NewSubmission(f, images, drone, now).pricePerCredit == x
  {
  }

  /** Whole numbers typed into the numeric fields come back as those numbers; a typed 0 price becomes 25. */
  lemma NewSubmissionOfWholeNumbers(f: FormData, images: seq<File>, drone: seq<File>, now: nat, credits: nat, price: nat, jobs: nat)
    requires !MissingRequired(f) && AreaSanitized(f)
    requires f.estimatedCredits == NatToString(credits)
    requires f.pricePerCredit == NatToString(price)
    requires f.communityJobs == NatToString(jobs)
    ensures NewSubmission(f, images, drone, now).estimatedCredits == credits as real
    ensures NewSubmission(f, images, drone, now).communityJobs == jobs as real
    ensures NewSubmission(f, images, drone, now).pricePerCredit == if price == 0 then DefaultPricePerCredit else price as real
  {
    ParseFloatOfNatToString(credits);
    ParseFloatOfNatToString(price);
    ParseFloatOfNatToString(jobs);
  }

  /** Submissions made at different instants get different ids (`Date.now().toString()`). */
  lemma NewSubmissionIdsDiffer(f: FormData, g: FormData, images: seq<File>, drone: seq<File>, t1: nat, t2: nat)
    requires !MissingRequired(f) && AreaSanitized(f)
    requires !MissingRequired(g) && AreaSanitized(g)
    requires t1 != t2
    ensures NewSubmission(f, images, drone, t1).id != NewSubmission(g, images, drone, t2).id
  {
    NatToStringInjective(t1, t2);
  }

  /**
   * The page: the form state, the chosen files, the `isSubmitting` flag, and
   * the stored submission list. `handleSubmit` is split at its one `await`:
   * `BeginSubmit` runs up to the one-second delay, `FinishSubmit` after it.
   */
  class SubmissionForm {
    var formData: FormData
    var images: seq<File>
    var droneFootage: seq<File>
    var isSubmitting: bool
    /** The list stored under `projectSubmissions`. */
    var stored: seq<ProjectSubmission>
    /** Set once the page has navigated to the verification page. */
    var navigatedAway: bool

    ghost predicate Valid()
      reads this
    {
      AreaSanitized(formData)
    }

    constructor (stored: seq<ProjectSubmission>)
      ensures Valid()
      ensures formData == EmptyForm && images == [] && droneFootage == []
      ensures !isSubmitting && !navigatedAway && this.stored == stored
    {
      formData := EmptyForm;
      images, droneFootage := [], [];
      isSubmitting, navigatedAway := false, false;
      this.stored := stored;
    }

    /** `handleInputChange`; an area edit carries what a number input can hold. */
    method HandleInputChange(name: FormField, value: string)
      requires Valid()
      requires name == Area ==> value == "" || ParseFloat(value).Some?
      modifies this`formData
      ensures Valid()
      ensures formData == SetField(old(formData), name, value)
    {
      formData := SetField(formData, name, value);
    }

    /** `handleFileChange`: the new selection replaces the previous one of that kind. */
    method HandleFileChange(files: seq<File>, kind: Upload)
      modifies this`images, this`droneFootage
      ensures kind == Images ==> images == files && droneFootage == old(droneFootage)
      ensures kind == Drone ==> droneFootage == files && images == old(images)
    {
      if kind == Images {
        images := files;
      } else {
        droneFootage := files;
      }
    }

    /**
     * `handleSubmit` up to its delay. A form missing a required field stores
     * nothing and clears `isSubmitting`; otherwise the new draft is appended
     * to the stored list, handed to `onSubmit` (returned here), and
     * `isSubmitting` stays set while the delay runs.
     */
    method BeginSubmit(now: nat) returns (created: Option<ProjectSubmission>)
      requires Valid() && !isSubmitting
      modifies this`isSubmitting, this`stored
      ensures Valid()
      ensures MissingRequired(formData) ==> created.None? && !isSubmitting && stored == old(stored)
      ensures !MissingRequired(formData) ==>
                && created == Some(NewSubmission(formData, images, droneFootage, now))
                && isSubmitting
                && stored == old(stored) + [created.value]
    {
      isSubmitting := true;
      if MissingRequired(formData) {
        isSubmitting := false;
        return None;
      }
      var submission := NewSubmission(formData, images, droneFootage, now);
      stored := stored + [submission];
      created := Some(submission);
    }

    /** `handleSubmit` after its delay: the flag clears and the page moves on. */
    method FinishSubmit()
      requires isSubmitting
      modifies this`isSubmitting, this`navigatedAway
      ensures !isSubmitting && navigatedAway
    {
      isSubmitting := false;
      navigatedAway := true;
    }
  }

  /**
   * Only the four required fields decide whether a submit is refused: the
   * numeric fields may hold anything.
   */
  lemma OnlyRequiredFieldsBlock(f: FormData, name: FormField, value: string)
    requires name in {EstimatedCredits, PricePerCredit, CommunityJobs}
    ensures MissingRequired(SetField(f, name, value)) == MissingRequired(f)
  {
  }
}
