/**
 * The community field-verification page: a member picks a project, attaches
 * geotagged photos, location and notes and submits them; on the peer-review
 * tab members approve or reject the pending submissions of others.
 */
module CommunityVerification {
  import opened JsRuntime
  import MockData

  /** `'pending' | 'approved' | 'rejected'` */
  datatype SubmissionStatus = Pending | Approved | Rejected

  function StatusName(s: SubmissionStatus): string {
    match s
    case Pending => "pending"
    case Approved => "approved"
    case Rejected => "rejected"
  }

  /** The badge text: the status name with its first letter upper-cased. */
  function StatusLabel(s: SubmissionStatus): (r: string)
    ensures |r| == |StatusName(s)| && r[1..] == StatusName(s)[1..]
    ensures 'A' <= r[0] <= 'Z' && r[0] as int == StatusName(s)[0] as int - 32
  {
    Capitalize(StatusName(s))
  }

  /** The three labels read `Pending`, `Approved` and `Rejected`, and differ from one another. */
  lemma StatusLabels(s: SubmissionStatus, t: SubmissionStatus)
    ensures StatusLabel(Pending) == "Pending"
    ensures StatusLabel(Approved) == "Approved"
    ensures StatusLabel(Rejected) == "Rejected"
    ensures s != t ==> StatusLabel(s) != StatusLabel(t)
  {
    assert StatusLabel(Pending) == "Pending";
    assert StatusLabel(Approved) == "Approved";
    assert StatusLabel(Rejected) == "Rejected";
  }

  datatype BadgeVariant = DefaultBadge | DestructiveBadge | SecondaryBadge

  /** Approved is shown as the default badge, rejected as destructive, pending as secondary. */
  function BadgeOf(s: SubmissionStatus): (v: BadgeVariant)
    ensures v == DefaultBadge <==> s == Approved
    ensures v == DestructiveBadge <==> s == Rejected
    ensures v == SecondaryBadge <==> s == Pending
  {
    match s
    case Approved => DefaultBadge
    case Rejected => DestructiveBadge
    case Pending => SecondaryBadge
  }

  datatype VerificationSubmission = VerificationSubmission(
    id: string,
    projectId: string,
    projectTitle: string,
    submittedBy: string,
    location: string,
    photos: seq<string>,
    notes: string,
    timestamp: MockData.Timestamp,
    status: SubmissionStatus)

  /** The two submissions on the peer-review tab (dates as milliseconds since 1970). */
  const MockSubmissions: seq<VerificationSubmission> := [
    VerificationSubmission("1", "1", "Pichavaram Mangrove Restoration", "Local Community Member #1",
      "Coordinates: 11.4270°N, 79.7729°E", ["photo1.jpg", "photo2.jpg", "photo3.jpg"],
      "New mangrove saplings planted as per project plan. Water levels optimal for growth.",
      1710892800000, Pending),
    VerificationSubmission("2", "2", "Sundarbans Expansion Project", "Local Community Member #2",
      "Coordinates: 21.9497°N, 89.1833°E", ["photo4.jpg", "photo5.jpg"],
      "Existing mangroves showing healthy growth. Wildlife activity increased significantly.",
      1710720000000, Approved)
  ]

  /** Approve and reject buttons are shown on pending submissions only. */
  predicate ActionsOffered(s: VerificationSubmission) {
    s.status == Pending
  }

  /** Of the fixture submissions only the first, still pending, can be approved or rejected. */
  lemma FixtureActions()
    ensures ActionsOffered(MockSubmissions[0]) && !ActionsOffered(MockSubmissions[1])
    ensures forall i :: 0 <= i < |MockSubmissions| && ActionsOffered(MockSubmissions[i]) ==> i == 0
  {
  }

  datatype Action = Approve | Reject

  /** The action's name as the buttons pass it: `'approve' | 'reject'`. */
  function ActionName(a: Action): string {
    if a == Approve then "approve" else "reject"
  }

  const AlertPrefix: string := "Verification "
  const AlertSuffix: string := "! Consensus reached."

  /** The alert as the page builds it: the action's name with a `d` appended. */
  function ActionMessageAsWritten(a: Action): (m: string)
    ensures |m| == |AlertPrefix| + |ActionName(a)| + 1 + |AlertSuffix|
    ensures m[..|AlertPrefix|] == AlertPrefix
    ensures m[|AlertPrefix|..|AlertPrefix| + |ActionName(a)|] == ActionName(a)
  {
    AlertPrefix + ActionName(a) + "d" + AlertSuffix
  }

  /**
   * Appending `d` makes a past tense of `approve` but not of `reject`: the
   * reject alert reads `rejectd`, one letter short of `rejected`.
   */
  lemma RejectAlertMisspelled()
    ensures ActionMessageAsWritten(Approve) == AlertPrefix + "approved" + AlertSuffix
    ensures ActionMessageAsWritten(Reject) == AlertPrefix + "rejectd" + AlertSuffix
    ensures ActionMessageAsWritten(Reject) != AlertPrefix + "rejected" + AlertSuffix
  {
    assert ActionName(Approve) + "d" == "approved";
    assert ActionName(Reject) + "d" == "rejectd";
    assert AlertPrefix + ActionName(Approve) + "d" + AlertSuffix == AlertPrefix + (ActionName(Approve) + "d") + AlertSuffix;
    assert AlertPrefix + ActionName(Reject) + "d" + AlertSuffix == AlertPrefix + (ActionName(Reject) + "d") + AlertSuffix;
    assert |AlertPrefix + "rejectd" + AlertSuffix| != |AlertPrefix + "rejected" + AlertSuffix|;
  }

  /** The past tense of each action, as the alert means to say it. */
  function PastTense(a: Action): (r: string)
    ensures |r| == |ActionName(a)| + (if a == Approve then 1 else 2)
    ensures r[..|ActionName(a)|] == ActionName(a) && r[|r| - 2..] == "ed"
  {
    if a == Approve then "approved" else "rejected"
  }

  /** The alert for an action, with its verb in the past tense. */
  function ActionMessage(a: Action): (m: string)
    ensures |m| == |AlertPrefix| + |PastTense(a)| + |AlertSuffix|
    ensures m[..|AlertPrefix|] == AlertPrefix
    ensures m[|AlertPrefix|..|AlertPrefix| + |PastTense(a)|] == PastTense(a)
    ensures m[|AlertPrefix| + |PastTense(a)|..] == AlertSuffix
  {
    AlertPrefix + PastTense(a) + AlertSuffix
  }

  /** The intended alert and the written one agree on approval and differ on rejection only. */
  lemma ActionMessageCorrectsReject(a: Action)
    ensures ActionMessage(a) == ActionMessageAsWritten(a) <==> a == Approve
  {
    RejectAlertMisspelled();
  }

  const SubmittedMessage: string := "Verification submitted successfully! You will receive BGT tokens as reward."

  /** The submit button is enabled exactly when a project is chosen and at least one photo is attached. */
  predicate SubmitEnabled(selectedProject: string, photos: seq<File>) {
    selectedProject != "" && |photos| > 0
  }

  /** Attaching at least one photo to a form with a chosen project enables the submit; an emptied form disables it. */
  lemma UploadEnablesSubmit(selectedProject: string, photos: seq<File>, files: seq<File>)
    requires selectedProject != "" && |files| > 0
    ensures SubmitEnabled(selectedProject, photos + files)
    ensures !SubmitEnabled("", photos + files) && !SubmitEnabled(selectedProject, [])
  {
  }

  datatype Tab = SubmitTab | VerifyTab

  /** The page's form state. */
  class VerificationForm {
    var activeTab: Tab
    var selectedProject: string
    var photos: seq<File>
    var location: string
    var notes: string

    constructor ()
      ensures activeTab == SubmitTab && selectedProject == "" && photos == []
      ensures location == "" && notes == ""
    {
      activeTab := SubmitTab;
      selectedProject, photos, location, notes := "", [], "", "";
    }

    method SetActiveTab(tab: Tab)
      modifies this`activeTab
      ensures activeTab == tab
    {
      activeTab := tab;
    }

    /** The project select: an option's id, or "" for the placeholder. */
    method SelectProject(id: string)
      modifies this`selectedProject
      ensures selectedProject == id
    {
      selectedProject := id;
    }

    method SetLocation(value: string)
      modifies this`location
      ensures location == value
    {
      location := value;
    }

    method SetNotes(value: string)
      modifies this`notes
      ensures notes == value
    {
      notes := value;
    }

    /** `handlePhotoUpload`: the chosen files go after the ones already attached, in order. */
    method HandlePhotoUpload(files: seq<File>)
      modifies this`photos
      ensures photos == old(photos) + files
      ensures |photos| == |old(photos)| + |files|
    {
      photos := photos + files;
    }

    /** `handleSubmitVerification`: returns the success alert and empties the form. */
    method HandleSubmitVerification() returns (alert: string)
      modifies this`selectedProject, this`photos, this`location, this`notes
      ensures alert == SubmittedMessage
      ensures selectedProject == "" && photos == [] && location == "" && notes == ""
      ensures !SubmitEnabled(selectedProject, photos)
    {
      alert := SubmittedMessage;
      selectedProject, photos, location, notes := "", [], "", "";
    }
  }

  /**
   * `handleVerificationAction`: an alert and nothing else, whichever
   * submission it names; the alert is the one the page builds, correct for
   * an approval and misspelled for a rejection.
   */
  method HandleVerificationAction(submissionId: string, action: Action) returns (alert: string)
    ensures alert == ActionMessageAsWritten(action)
    ensures alert == ActionMessage(action) <==> action == Approve
  {
    alert := ActionMessageAsWritten(action);
    ActionMessageCorrectsReject(action);
  }
}
