/**
 * The NGO verification page: the submission workflow
 *   draft --self-verify--> self-verified --peer review--> verified | rejected,
 * the replacement of one submission in the stored list, the review history,
 * and the promotion of an approved submission into the marketplace list
 * (browser storage key `verifiedProjects`).
 */
module VerificationManagement {
  import opened JsRuntime
  import MockData
  import opened ProjectSubmissionPage

  // ---------------------------------------------------------------------------
  // The list update and the record transitions

  /** `submissions.map(p => p.id === updated.id ? updated : p)` */
  function ReplaceById(subs: seq<ProjectSubmission>, updated: ProjectSubmission): (r: seq<ProjectSubmission>)
    ensures |r| == |subs|
    ensures forall i :: 0 <= i < |subs| && subs[i].id == updated.id ==> r[i] == updated
    ensures forall i :: 0 <= i < |subs| && subs[i].id != updated.id ==> r[i] == subs[i]
  {
    seq(|subs|, i requires 0 <= i < |subs| => if subs[i].id == updated.id then updated else subs[i])
  }

  predicate UniqueIds(subs: seq<ProjectSubmission>) {
    forall i, j :: 0 <= i < j < |subs| ==> subs[i].id != subs[j].id
  }

  /**
   * With unique ids, replacing a record whose id is at index `k` puts it
   * there, keeps every other entry, and keeps the ids unique; the record
   * then occurs once.
   */
  lemma {:induction false} ReplaceByIdExactlyOne(subs: seq<ProjectSubmission>, updated: ProjectSubmission, k: nat)
    requires UniqueIds(subs) && k < |subs| && subs[k].id == updated.id
    ensures ReplaceById(subs, updated) == subs[k := updated]
    ensures UniqueIds(ReplaceById(subs, updated))
    ensures multiset(ReplaceById(subs, updated))[updated] == multiset(subs[k := updated])[updated]
  {
    var r := ReplaceById(subs, updated);
    forall i | 0 <= i < |subs|
      ensures r[i] == subs[k := updated][i]
    {
      if i != k {
        assert subs[i].id != subs[k].id by {
          if i < k { assert subs[i].id != subs[k].id; } else { assert subs[k].id != subs[i].id; }
        }
      }
    }
  }

  /** An id that no entry carries leaves the list as it was. */
  lemma ReplaceByIdAbsent(subs: seq<ProjectSubmission>, updated: ProjectSubmission)
    requires forall i :: 0 <= i < |subs| ==> subs[i].id != updated.id
    ensures ReplaceById(subs, updated) == subs
  {
  }

  /** Replacing twice with the same record is replacing once. */
  lemma ReplaceByIdIdempotent(subs: seq<ProjectSubmission>, updated: ProjectSubmission)
    ensures ReplaceById(ReplaceById(subs, updated), updated) == ReplaceById(subs, updated)
  {
  }

  /** `{ ...project, verificationLevel: 'self', status: 'self-verified' }` */
  function SelfVerifiedOf(p: ProjectSubmission): (r: ProjectSubmission)
    ensures r.status == SelfVerified && r.verificationLevel == SelfLevel
  {
    p.(verificationLevel := SelfLevel, status := SelfVerified)
  }

  /** Self-verification changes the level and the status and no other field. */
  lemma SelfVerifiedChangesNothingElse(p: ProjectSubmission)
    ensures SelfVerifiedOf(p).(verificationLevel := p.verificationLevel, status := p.status) == p
    ensures SelfVerifiedOf(p).id == p.id && SelfVerifiedOf(p).peerReviews == p.peerReviews
  {
  }

  const ReviewerId: string := "peer-1"
  const ReviewerName: string := "Environmental Expert"

  /** The record after a peer review with (non-blank) feedback. */
  function ReviewedOf(p: ProjectSubmission, approved: bool, feedback: string, now: MockData.Timestamp): (r: ProjectSubmission)
    ensures r.verificationLevel == PeerLevel
    ensures r.status == if approved then Verified else Rejected
    ensures r.peerReviews.Some?
  {
    var review := PeerReview(ReviewerId, ReviewerName, approved, feedback, now);
    p.(verificationLevel := PeerLevel,
       status := if approved then Verified else Rejected,
       peerReviews := Some(p.peerReviews.GetOr([]) + [review]))
  }

  /**
   * A review appends exactly one entry, last, carrying the verdict and the
   * feedback, after the earlier reviews in their order; nothing but level,
   * status and reviews changes.
   */
  lemma ReviewAppendsOne(p: ProjectSubmission, approved: bool, feedback: string, now: MockData.Timestamp)
    ensures var rs := ReviewedOf(p, approved, feedback, now).peerReviews.value;
            && |rs| == |p.peerReviews.GetOr([])| + 1
            && rs[..|rs| - 1] == p.peerReviews.GetOr([])
            && rs[|rs| - 1].approved == approved && rs[|rs| - 1].feedback == feedback
    ensures ReviewedOf(p, approved, feedback, now).(verificationLevel := p.verificationLevel,
              status := p.status, peerReviews := p.peerReviews) == p
  {
  }

  const PromotedNgoName: string := "Coastal Conservation Alliance"

  /**
   * The marketplace entry an approval adds. `biodiversityDraw` is the
   * `Math.random()` draw in `88 + Math.random() * 10`; `hashTail` is
   * `Math.random().toString(16).substr(2, 40)`.
   */
  function PromotedProject(p: ProjectSubmission, biodiversityDraw: real, hashTail: string): (r: MockData.Project)
    requires 0.0 <= biodiversityDraw < 1.0 && |hashTail| <= 40
    ensures r.id == p.id && r.title == p.title && r.area == p.area && r.createdAt == p.submittedAt
    ensures r.creditsAvailable == p.estimatedCredits && r.pricePerCredit == p.pricePerCredit
    ensures r.status == MockData.Verified && r.progress == 100.0
    ensures 88.0 <= r.biodiversityScore < 98.0
    ensures r.transactionHash.Some? && 2 <= |r.transactionHash.value| <= 42
              && r.transactionHash.value[..2] == "0x"
  {
    MockData.Project(
      p.id, p.title, p.description, PromotedNgoName, p.location, p.area,
      p.estimatedCredits, p.pricePerCredit,
      Round(p.estimatedCredits * 1.5) as real,
      MockData.Verified, MockData.ProjectImage, 100.0, p.communityJobs,
      88.0 + biodiversityDraw * 10.0,
      Some("0x" + hashTail),
      p.submittedAt)
  }

  /** The listed CO2 is the estimated credits times 1.5, rounded to a whole number. */
  lemma PromotedCO2(p: ProjectSubmission, biodiversityDraw: real, hashTail: string)
    requires 0.0 <= biodiversityDraw < 1.0 && |hashTail| <= 40
    ensures var co2 := PromotedProject(p, biodiversityDraw, hashTail).totalCO2;
            && co2 == co2.Floor as real
            && 1.5 * p.estimatedCredits - 0.5 < co2 <= 1.5 * p.estimatedCredits + 0.5
  {
    var n := Round(p.estimatedCredits * 1.5);
    assert (n as real).Floor == n;
  }

  // ---------------------------------------------------------------------------
  // Status presentation

  datatype BadgeVariant = Secondary | Default | Destructive
  datatype Badge = Badge(variant: BadgeVariant, text: string)
  datatype StatusIcon = CheckIcon | AlertIcon | PendingClock | MutedClock

  /** `getStatusBadge` */
  function StatusBadge(s: SubmissionStatus): Badge {
    match s
    case Draft => Badge(Secondary, "Draft")
    case SelfVerified => Badge(Default, "Self-Verified")
    case PeerVerification => Badge(Default, "Peer Review")
    case Verified => Badge(Default, "Verified")
    case Rejected => Badge(Destructive, "Rejected")
  }

  /** `getStatusIcon` */
  function StatusIconOf(s: SubmissionStatus): StatusIcon {
    match s
    case Verified => CheckIcon
    case Rejected => AlertIcon
    case PeerVerification => PendingClock
    case SelfVerified => PendingClock
    case Draft => MutedClock
  }

  /** Every status has its own badge text; only a rejection is shown as destructive, with the alert icon. */
  lemma StatusPresentationConsistent(s: SubmissionStatus, t: SubmissionStatus)
    ensures s != t ==> StatusBadge(s).text != StatusBadge(t).text
    ensures StatusBadge(s).variant == Destructive <==> s == Rejected
    ensures StatusIconOf(s) == AlertIcon <==> s == Rejected
    ensures StatusIconOf(s) == CheckIcon <==> s == Verified
  {
  }

  /** The workflow from a draft: self-verify, then review, ends verified or rejected at peer level with one more review. */
  lemma WorkflowFromDraft(p: ProjectSubmission, approved: bool, feedback: string, now: MockData.Timestamp)
    requires p.status == Draft
    ensures var q := ReviewedOf(SelfVerifiedOf(p), approved, feedback, now);
            && q.status == (if approved then Verified else Rejected)
            && q.verificationLevel == PeerLevel
            && q.id == p.id
            && |q.peerReviews.value| == |p.peerReviews.GetOr([])| + 1
  {
  }

  // ---------------------------------------------------------------------------
  // The page

  class VerificationPage {
    var submissions: seq<ProjectSubmission>
    /** The list stored under `projectSubmissions` (an absent key reads as the empty list). */
    var storedSubmissions: seq<ProjectSubmission>
    var selectedProject: Option<ProjectSubmission>
    var peerFeedback: string
    /** The list stored under `verifiedProjects`. */
    var verifiedProjects: seq<MockData.Project>

    /** The page shows what is stored. */
    ghost predicate Valid()
      reads this
    {
      storedSubmissions == submissions
    }

    /** Mounting loads the stored submissions. */
    constructor (saved: seq<ProjectSubmission>, listed: seq<MockData.Project>)
      ensures Valid()
      ensures submissions == saved && selectedProject.None? && peerFeedback == ""
      ensures verifiedProjects == listed
    {
      submissions := saved;
      storedSubmissions := saved;
      selectedProject := None;
      peerFeedback := "";
      verifiedProjects := listed;
    }

    /** `updateSubmission`: the replaced list is both shown and stored. */
    method UpdateSubmission(updated: ProjectSubmission)
      requires Valid()
      modifies this`submissions, this`storedSubmissions
      ensures Valid()
      ensures submissions == ReplaceById(old(submissions), updated)
    {
      var list := ReplaceById(submissions, updated);
      submissions := list;
      storedSubmissions := list;
    }

    /** "Start Peer Review" and "View" select a project. */
    method SelectProject(p: ProjectSubmission)
      modifies this`selectedProject
      ensures selectedProject == Some(p)
    {
      selectedProject := Some(p);
    }

    method SetPeerFeedback(text: string)
      modifies this`peerFeedback
      ensures peerFeedback == text
    {
      peerFeedback := text;
    }

    /** `handleSelfVerification`, offered only on drafts. */
    method HandleSelfVerification(p: ProjectSubmission)
      requires Valid() && p.status == Draft
      modifies this`submissions, this`storedSubmissions
      ensures Valid()
      ensures submissions == ReplaceById(old(submissions), SelfVerifiedOf(p))
    {
      UpdateSubmission(SelfVerifiedOf(p));
    }

    /**
     * `handlePeerReview`, offered only on a selected self-verified project,
     * which both buttons pass as `p`.
     * Blank feedback (empty after `trim`) changes nothing. Otherwise the
     * reviewed record replaces the old one, the feedback is cleared, the
     * selection reset, and an approval appends one marketplace entry.
     */
    method HandlePeerReview(p: ProjectSubmission, approved: bool, now: MockData.Timestamp,
                            biodiversityDraw: real, hashTail: string) returns (reviewed: bool)
      requires Valid() && selectedProject == Some(p) && p.status == SelfVerified
      requires 0.0 <= biodiversityDraw < 1.0 && |hashTail| <= 40
      modifies this
      ensures Valid()
      ensures reviewed <==> !IsBlank(old(peerFeedback))
      ensures !reviewed ==> unchanged(this)
      ensures reviewed ==>
                && submissions == ReplaceById(old(submissions), ReviewedOf(p, approved, old(peerFeedback), now))
                && peerFeedback == "" && selectedProject.None?
                && verifiedProjects == old(verifiedProjects)
                     + (if approved then [PromotedProject(p, biodiversityDraw, hashTail)] else [])
    {
      TrimEmptyIffBlank(peerFeedback);
      reviewed := Trim(peerFeedback) != "";
      if reviewed {
        ApplyPeerReview(p, approved, now, biodiversityDraw, hashTail);
      }
    }

    /** The part of `handlePeerReview` after the feedback check. */
    method ApplyPeerReview(p: ProjectSubmission, approved: bool, now: MockData.Timestamp,
                           biodiversityDraw: real, hashTail: string)
      requires Valid()
      requires 0.0 <= biodiversityDraw < 1.0 && |hashTail| <= 40
      modifies this
      ensures Valid()
      ensures submissions == ReplaceById(old(submissions), ReviewedOf(p, approved, old(peerFeedback), now))
      ensures peerFeedback == "" && selectedProject.None?
      ensures verifiedProjects == old(verifiedProjects)
                + (if approved then [PromotedProject(p, biodiversityDraw, hashTail)] else [])
    {
      var list := ReplaceById(submissions, ReviewedOf(p, approved, peerFeedback, now));
      var listed := verifiedProjects + (if approved then [PromotedProject(p, biodiversityDraw, hashTail)] else []);
      submissions, storedSubmissions := list, list;
      peerFeedback, selectedProject := "", None;
      verifiedProjects := listed;
    }
  }
}
