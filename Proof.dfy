/** The proof-of-work page of placement-app/src/pages/Proof.jsx: three
    artifact links with URL validation, the eight project steps, and the
    shipped status that needs all steps, the full test checklist and three
    valid links. `new URL(...)` is the parameter `urlParses`. */
module Proof {
  import opened Wrappers
  import opened Text
  import opened TestChecklist

  /** The ids of `PROJECT_STEPS`, in display order. */
  const ProjectSteps: seq<string> := [
    "design-system", "landing-page", "dashboard", "analysis-logic",
    "interactive-results", "company-intel", "validation", "test-checklist"
  ]

  const ChecklistStep := "test-checklist"

  const InvalidUrlMessage := "Please enter a valid URL (must start with http:// or https://)"

  /** The three fields of the submission object. */
  datatype Field = LovableLink | GithubLink | DeployedLink

  datatype Submission = Submission(lovableLink: string, githubLink: string, deployedLink: string)
  {
    function Get(field: Field): string {
      match field
      case LovableLink => lovableLink
      case GithubLink => githubLink
      case DeployedLink => deployedLink
    }

    /** `{ ...submission, [field]: value }`. */
    function With(field: Field, value: string): (r: Submission)
      ensures r.Get(field) == value
      ensures forall f :: f != field ==> r.Get(f) == Get(f)
    {
      match field
      case LovableLink => this.(lovableLink := value)
      case GithubLink => this.(githubLink := value)
      case DeployedLink => this.(deployedLink := value)
    }
  }

  const EmptySubmission := Submission("", "", "")

  /** `validateUrl(url)`: non-empty, accepted by the URL parser, and with an
      http or https prefix. */
  function ValidateUrl(url: string, urlParses: string -> bool): (valid: bool)
    ensures url == "" ==> !valid
    ensures valid ==> urlParses(url)
    ensures valid ==> StartsWith(url, "http://") || StartsWith(url, "https://")
  {
    if url == "" then false
    else if !urlParses(url) then false
    else StartsWith(url, "http://") || StartsWith(url, "https://")
  }

  /** All three links pass `validateUrl`; the export button is enabled
      exactly then. */
  predicate AllLinksValid(s: Submission, urlParses: string -> bool) {
    ValidateUrl(s.lovableLink, urlParses)
    && ValidateUrl(s.githubLink, urlParses)
    && ValidateUrl(s.deployedLink, urlParses)
  }

  /** `!AllLinksValid`, the `disabled` condition of the export button. */
  predicate ExportDisabled(s: Submission, urlParses: string -> bool)
    ensures s.lovableLink == "" || s.githubLink == "" || s.deployedLink == "" ==> ExportDisabled(s, urlParses)
    ensures !ExportDisabled(s, urlParses) ==>
            forall f :: StartsWith(s.Get(f), "http://") || StartsWith(s.Get(f), "https://")
  {
    !ValidateUrl(s.lovableLink, urlParses)
    || !ValidateUrl(s.githubLink, urlParses)
    || !ValidateUrl(s.deployedLink, urlParses)
  }

  /** `checklist ? Object.values(...).filter(Boolean).length === 10 : false`;
      a parse failure counts as incomplete. */
  predicate ChecklistComplete(saved: Stored<map<string, bool>>)
    ensures ChecklistComplete(saved) ==> saved.Parsed? && |saved.value| >= 10
  {
    saved.Parsed? && PassedCount(saved.value) == 10
  }

  /** The step map `checkStepStatus` builds. */
  function StepStatus(checklistComplete: bool): (status: map<string, bool>)
    ensures status.Keys == set id | id in ProjectSteps
    ensures forall id :: id in status ==> status[id] == (id != ChecklistStep || checklistComplete)
  {
    map id | id in ProjectSteps :: id != ChecklistStep || checklistComplete
  }

  /** `PROJECT_STEPS.every(step => stepStatus[step.id])`. */
  predicate AllStepsComplete(status: map<string, bool>) {
    forall i :: 0 <= i < |ProjectSteps| ==> ProjectSteps[i] in status && status[ProjectSteps[i]]
  }

  /** The error text shown for `field` after an edit to `value`. */
  function ErrorFor(value: string, urlParses: string -> bool): (message: string)
    ensures message != "" <==> value != "" && !ValidateUrl(value, urlParses)
  {
    if value != "" && !ValidateUrl(value, urlParses) then InvalidUrlMessage else ""
  }

  class ProofPage {
    var submission: Submission
    /** The storage key `prp_final_submission`. */
    var savedSubmission: Stored<Submission>
    var stepStatus: map<string, bool>
    var errors: map<Field, string>
    var isShipped: bool
    /** Whether `new URL(url)` accepts `url`. */
    const urlParses: string -> bool

    /** Mounting: the initial state, then `loadSubmission`, which adopts a
        parsed submission and otherwise keeps the three empty links. */
    constructor(stored: Stored<Submission>, urlParses: string -> bool)
      ensures this.urlParses == urlParses
      ensures savedSubmission == stored
      ensures submission == if stored.Parsed? then stored.value else EmptySubmission
      ensures stepStatus == map[] && errors == map[] && !isShipped
    {
      this.urlParses := urlParses;
      savedSubmission := stored;
      submission := if stored.Parsed? then stored.value else EmptySubmission;
      stepStatus := map[];
      errors := map[];
      isShipped := false;
    }

    /** `checkStepStatus()`: every step but the checklist step is complete;
        that one follows the stored checklist. A parse failure is caught
        before `setStepStatus`, so the map is left as it was. */
    method CheckStepStatus(saved: Stored<map<string, bool>>)
      modifies this
      ensures !saved.Malformed? ==> stepStatus == StepStatus(ChecklistComplete(saved))
      ensures saved.Malformed? ==> stepStatus == old(stepStatus)
      ensures submission == old(submission) && savedSubmission == old(savedSubmission)
      ensures errors == old(errors) && isShipped == old(isShipped)
    {
      if saved.Malformed? {
        return;
      }
      var checklistComplete := ChecklistComplete(saved);
      var status: map<string, bool> := map[];
      var i := 0;
      while i < |ProjectSteps|
        invariant 0 <= i <= |ProjectSteps|
        invariant status.Keys == set j | 0 <= j < i :: ProjectSteps[j]
        invariant forall id :: id in status ==> status[id] == (id != ChecklistStep || checklistComplete)
      {
        var id := ProjectSteps[i];
        status := status[id := id != ChecklistStep || checklistComplete];
        i := i + 1;
      }
      assert status.Keys == set id | id in ProjectSteps by {
        forall id | id in ProjectSteps ensures id in status.Keys {
          var j :| 0 <= j < |ProjectSteps| && ProjectSteps[j] == id;
        }
      }
      stepStatus := status;
    }

    /** `checkShippedStatus()` against the stored checklist `saved`. */
    method CheckShippedStatus(saved: Stored<map<string, bool>>)
      modifies this
      ensures isShipped <==> AllStepsComplete(stepStatus) && ChecklistComplete(saved)
                             && AllLinksValid(submission, urlParses)
      ensures submission == old(submission) && savedSubmission == old(savedSubmission)
      ensures stepStatus == old(stepStatus) && errors == old(errors)
    {
      var allStepsComplete := true;
      var i := 0;
      while i < |ProjectSteps|
        invariant 0 <= i <= |ProjectSteps|
        invariant allStepsComplete <==>
          forall j :: 0 <= j < i ==> ProjectSteps[j] in stepStatus && stepStatus[ProjectSteps[j]]
      {
        var id := ProjectSteps[i];
        allStepsComplete := allStepsComplete && id in stepStatus && stepStatus[id];
        i := i + 1;
      }
      var checklistComplete := ChecklistComplete(saved);
      var allLinksProvided := ValidateUrl(submission.lovableLink, urlParses)
        && ValidateUrl(submission.githubLink, urlParses)
        && ValidateUrl(submission.deployedLink, urlParses);
      isShipped := allStepsComplete && checklistComplete && allLinksProvided;
    }

    /** The effects run on mount: `checkStepStatus` and then, because the
        step map changed, `checkShippedStatus`, both against the same stored
        checklist. A stored checklist that does not parse keeps the page
        unshipped. */
    method RefreshStatus(saved: Stored<map<string, bool>>)
      modifies this
      ensures isShipped <==> ChecklistComplete(saved) && AllLinksValid(submission, urlParses)
      ensures !saved.Malformed? ==> stepStatus == StepStatus(ChecklistComplete(saved))
      ensures saved.Malformed? ==> stepStatus == old(stepStatus)
      ensures submission == old(submission) && savedSubmission == old(savedSubmission)
      ensures errors == old(errors)
    {
      CheckStepStatus(saved);
      CheckShippedStatus(saved);
      StepsCompleteIff(ChecklistComplete(saved));
    }

    /** `handleInputChange(field, value)`: the submission is saved with the
        one field replaced (a failing write keeps the old one), and the
        field's error is set whether or not the write succeeded. */
    method HandleInputChange(field: Field, value: string, writeOk: bool)
      modifies this
      ensures writeOk ==> submission == old(submission).With(field, value)
                          && savedSubmission == Parsed(submission)
      ensures !writeOk ==> submission == old(submission) && savedSubmission == old(savedSubmission)
      ensures errors == old(errors)[field := ErrorFor(value, urlParses)]
      ensures stepStatus == old(stepStatus) && isShipped == old(isShipped)
    {
      var updated := submission.With(field, value);
      if writeOk {
        savedSubmission := Parsed(updated);
        submission := updated;
      }
      if value != "" && !ValidateUrl(value, urlParses) {
        errors := errors[field := InvalidUrlMessage];
      } else {
        errors := errors[field := ""];
      }
    }

    /** An edit followed by the `[submission, stepStatus]` effect: a saved
        edit replaces the submission object, so `checkShippedStatus` runs
        again; a failed write leaves the submission, and so the shipped
        flag, as it was. */
    method EditAndRecheck(field: Field, value: string, writeOk: bool, saved: Stored<map<string, bool>>)
      modifies this
      ensures submission == if writeOk then old(submission).With(field, value) else old(submission)
      ensures savedSubmission == if writeOk then Parsed(submission) else old(savedSubmission)
      ensures writeOk ==> (isShipped <==> AllStepsComplete(stepStatus) && ChecklistComplete(saved)
                                          && AllLinksValid(submission, urlParses))
      ensures !writeOk ==> isShipped == old(isShipped)
      ensures errors == old(errors)[field := ErrorFor(value, urlParses)]
      ensures stepStatus == old(stepStatus)
    {
      HandleInputChange(field, value, writeOk);
      if writeOk {
        CheckShippedStatus(saved);
      }
    }
  }

  // ----- properties -----

  /** A link with an http or https prefix that the parser accepts is valid;
      with the `ensures` of `ValidateUrl` this makes validity an exact
      characterisation. */
  lemma ValidateUrlIff(url: string, urlParses: string -> bool)
    ensures ValidateUrl(url, urlParses) <==>
            urlParses(url) && (StartsWith(url, "http://") || StartsWith(url, "https://"))
  {
    if StartsWith(url, "http://") {
      assert url != "";
    }
  }

  /** The export button is enabled exactly when all three links are valid. */
  lemma ExportEnabledIff(s: Submission, urlParses: string -> bool)
    ensures !ExportDisabled(s, urlParses) <==> forall f :: ValidateUrl(s.Get(f), urlParses)
  {
    if !ExportDisabled(s, urlParses) {
      forall f ensures ValidateUrl(s.Get(f), urlParses) {
        match f
        case LovableLink =>
        case GithubLink =>
        case DeployedLink =>
      }
    } else {
      assert !ValidateUrl(s.Get(LovableLink), urlParses)
          || !ValidateUrl(s.Get(GithubLink), urlParses)
          || !ValidateUrl(s.Get(DeployedLink), urlParses);
    }
  }

  /** The step map is complete exactly when the checklist is. */
  lemma StepsCompleteIff(checklistComplete: bool)
    ensures AllStepsComplete(StepStatus(checklistComplete)) <==> checklistComplete
  {
    assert ProjectSteps[7] == ChecklistStep;
    if checklistComplete {
      forall i | 0 <= i < |ProjectSteps|
        ensures ProjectSteps[i] in StepStatus(checklistComplete)
      {
        assert ProjectSteps[i] in ProjectSteps;
      }
    }
  }

  /** With the steps computed from the same stored checklist, the page is
      shipped exactly when the checklist is complete and all three links are
      valid; a shipped page always has the export button enabled. */
  lemma ShippedIff(saved: Stored<map<string, bool>>, s: Submission, urlParses: string -> bool)
    ensures (AllStepsComplete(StepStatus(ChecklistComplete(saved))) && ChecklistComplete(saved)
             && AllLinksValid(s, urlParses))
            <==> ChecklistComplete(saved) && !ExportDisabled(s, urlParses)
  {
    StepsCompleteIff(ChecklistComplete(saved));
  }
}
