/** The stakeholder influence mapper component: its state and the handlers
    that change it. Each handler is one atomic step, after which the
    analysis has been recomputed from the new list. */
module Mapper {
  import opened Records
  import opened Store
  import opened Analyzer

  /** The exported report: a frozen copy of the state at the moment of the
      download. */
  datatype Report = Report(date: string, stakeholders: seq<Stakeholder>, analysis: Option<Analysis>, contact: Lead)

  /** One emitted download: the file name and the report it holds. */
  datatype Download = Download(fileName: string, report: Report)

  function FileName(date: string): string {
    "stakeholder-analysis-" + date + ".json"
  }

  /** A report needs at least this many stakeholders. */
  const MinStakeholdersForReport := 3

  const TooFewStakeholdersAlert := "Please add at least 3 stakeholders to generate a meaningful report."
  const MissingContactAlert := "Please fill in your name and email"

  class InfluenceMapper {
    var stakeholders: seq<Stakeholder>
    var draft: Draft
    var analysis: Option<Analysis>
    var showLeadCapture: bool
    var leadData: Lead
    /** Every download emitted so far, oldest first. */
    var downloads: seq<Download>

    /** The analysis always belongs to the current list. */
    ghost predicate Valid()
      reads this
    {
      analysis == Analyze(stakeholders)
    }

    constructor ()
      ensures Valid()
      ensures stakeholders == [] && draft == DefaultDraft && analysis == None
      ensures !showLeadCapture && leadData == EmptyLead && downloads == []
    {
      stakeholders := [];
      draft := DefaultDraft;
      analysis := None;
      showLeadCapture := false;
      leadData := EmptyLead;
      downloads := [];
    }

    /** The effect on the stakeholder list: recompute the analysis, or clear
        it when the list is empty. */
    method RefreshAnalysis()
      modifies this`analysis
      ensures Valid()
    {
      if |stakeholders| > 0 {
        var recommendations := GenerateRecommendations(stakeholders);
        analysis := Some(Analysis(
          |stakeholders|,
          Total(stakeholders, InfluenceScore),
          Total(stakeholders, SupportScore),
          Count(stakeholders, HighInfluence),
          Count(stakeholders, Supporter),
          Count(stakeholders, HighInfluenceSkeptic),
          recommendations));
      } else {
        analysis := None;
      }
    }

    /** One input of the "Add Stakeholder" form changes one draft field. */
    method EditDraft(input: DraftInput, value: string)
      requires Valid()
      modifies this`draft
      ensures Valid()
      ensures draft == match input
        case NameInput => old(draft).(name := value)
        case TitleInput => old(draft).(title := value)
        case DepartmentInput => old(draft).(department := value)
    {
      match input
      case NameInput => draft := draft.(name := value);
      case TitleInput => draft := draft.(title := value);
      case DepartmentInput => draft := draft.(department := value);
    }

    /** `addStakeholder`, with `id` the clock reading: with a name and a
        title, append the draft under that id and reset the draft;
        otherwise do nothing. */
    method AddStakeholder(id: int)
      requires Valid()
      modifies this
      ensures Valid()
      ensures var accepted := old(draft).name != "" && old(draft).title != "";
        && stakeholders == (if accepted then old(stakeholders) + [Attach(old(draft), id)] else old(stakeholders))
        && draft == (if accepted then DefaultDraft else old(draft))
      ensures showLeadCapture == old(showLeadCapture) && leadData == old(leadData) && downloads == old(downloads)
      ensures UniqueIds(old(stakeholders)) && id !in Ids(old(stakeholders)) ==> UniqueIds(stakeholders)
    {
      if draft.name != "" && draft.title != "" {
        var added := Attach(draft, id);
        if UniqueIds(stakeholders) && id !in Ids(stakeholders) {
          AppendFreshKeepsUnique(stakeholders, added);
        }
        stakeholders := stakeholders + [added];
        draft := DefaultDraft;
        RefreshAnalysis();
      }
    }

    /** `removeStakeholder`: keep the records whose id differs. */
    method RemoveStakeholder(id: int)
      requires Valid()
      modifies this
      ensures Valid()
      ensures stakeholders == Without(old(stakeholders), id)
      ensures draft == old(draft) && showLeadCapture == old(showLeadCapture)
      ensures leadData == old(leadData) && downloads == old(downloads)
      ensures Ids(stakeholders) == Ids(old(stakeholders)) - {id}
      ensures id !in Ids(old(stakeholders)) ==> stakeholders == old(stakeholders)
      ensures UniqueIds(old(stakeholders)) && id in Ids(old(stakeholders)) ==>
        |stakeholders| == |old(stakeholders)| - 1 && UniqueIds(stakeholders)
    {
      stakeholders := Without(stakeholders, id);
      RefreshAnalysis();
      WithoutProperties(old(stakeholders), id);
    }

    /** `updateStakeholder`, with `parsed` standing for `parseInt(value)`:
        replace one field of every record with the id. */
    method UpdateStakeholder(id: int, f: Field, value: string, parsed: int)
      requires Valid()
      modifies this
      ensures Valid()
      ensures stakeholders == Updated(old(stakeholders), id, f, value, parsed)
      ensures draft == old(draft) && showLeadCapture == old(showLeadCapture)
      ensures leadData == old(leadData) && downloads == old(downloads)
    {
      stakeholders := Updated(stakeholders, id, f, value, parsed);
      RefreshAnalysis();
    }

    /** `generateReport`: with fewer than three stakeholders, alert and
        change nothing; otherwise open the lead-capture form. */
    method GenerateReport() returns (alert: Option<string>)
      requires Valid()
      modifies this`showLeadCapture
      ensures Valid()
      ensures |stakeholders| < MinStakeholdersForReport ==>
        alert == Some(TooFewStakeholdersAlert) && showLeadCapture == old(showLeadCapture)
      ensures |stakeholders| >= MinStakeholdersForReport ==> alert == None && showLeadCapture
    {
      if |stakeholders| < MinStakeholdersForReport {
        alert := Some(TooFewStakeholdersAlert);
        return;
      }
      alert := None;
      showLeadCapture := true;
    }

    /** One input of the lead-capture form changes one contact field. */
    method EditLead(input: ContactInput, value: string)
      requires Valid()
      modifies this`leadData
      ensures Valid()
      ensures leadData == match input
        case ContactName => old(leadData).(name := value)
        case ContactEmail => old(leadData).(email := value)
        case ContactCompany => old(leadData).(company := value)
        case ContactPhone => old(leadData).(phone := value)
    {
      match input
      case ContactName => leadData := leadData.(name := value);
      case ContactEmail => leadData := leadData.(email := value);
      case ContactCompany => leadData := leadData.(company := value);
      case ContactPhone => leadData := leadData.(phone := value);
    }

    /** The form's cancel button: close it, keeping what was typed. */
    method CloseLeadCapture()
      requires Valid()
      modifies this`showLeadCapture
      ensures Valid()
      ensures !showLeadCapture
    {
      showLeadCapture := false;
    }

    /** `downloadReport`, with `today` the date part of the clock: emit the
        report of the current state, close the form and clear the contact
        details. */
    method DownloadReport(today: string)
      requires Valid()
      modifies this`downloads, this`showLeadCapture, this`leadData
      ensures Valid()
      ensures downloads == old(downloads) +
        [Download(FileName(today), Report(today, stakeholders, analysis, old(leadData)))]
      ensures !showLeadCapture && leadData == EmptyLead
    {
      var report := Report(today, stakeholders, analysis, leadData);
      downloads := downloads + [Download(FileName(today), report)];
      showLeadCapture := false;
      leadData := EmptyLead;
    }

    /** `submitLeadForm`: without a name or an email, alert and change
        nothing; otherwise download the report. */
    method SubmitLeadForm(today: string) returns (alert: Option<string>)
      requires Valid()
      modifies this`downloads, this`showLeadCapture, this`leadData
      ensures Valid()
      ensures old(leadData).name == "" || old(leadData).email == "" ==>
        && alert == Some(MissingContactAlert)
        && downloads == old(downloads)
        && showLeadCapture == old(showLeadCapture)
        && leadData == old(leadData)
      ensures old(leadData).name != "" && old(leadData).email != "" ==>
        && alert == None
        && downloads == old(downloads) +
             [Download(FileName(today), Report(today, stakeholders, analysis, old(leadData)))]
        && !showLeadCapture
        && leadData == EmptyLead
    {
      if leadData.name == "" || leadData.email == "" {
        alert := Some(MissingContactAlert);
        return;
      }
      alert := None;
      DownloadReport(today);
    }
  }
}
