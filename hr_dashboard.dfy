/** The HR manager's dashboard: the manager's job postings and the analytics
    summary loaded from the service, the header cards and job cards built
    from them, and the actions that reload them. */
module HRDashboard {
  import opened Wrappers

  /** A job posting as listed for its owner; fields the service may omit
      are optional. */
  datatype Job = Job(
    id: string,
    title: string,
    status: string,
    requiredSkills: Option<seq<string>>,
    applicantCount: Option<nat>)

  datatype StatusCounts = StatusCounts(shortlisted: Option<nat>)

  /** The analytics summary as received; every field may be missing. */
  datatype Analytics = Analytics(
    totalJobs: Option<nat>,
    activeJobs: Option<nat>,
    totalApplications: Option<nat>,
    statusCounts: Option<StatusCounts>)

  datatype Tab = Overview | Candidates | AnalyticsTab

  /** The numbers on the four header cards (the average score is left out). */
  datatype HeaderCards = HeaderCards(totalJobs: nat, activeJobs: nat, totalApplications: nat, shortlisted: nat)

  /** `analytics?.field || 0` for each card. */
  function CardsOf(analytics: Option<Analytics>): (r: HeaderCards)
    ensures analytics.None? ==> r == HeaderCards(0, 0, 0, 0)
    ensures analytics.Some? ==> var a := analytics.value;
      && r.totalJobs == (if a.totalJobs.Some? then a.totalJobs.value else 0)
      && r.activeJobs == (if a.activeJobs.Some? then a.activeJobs.value else 0)
      && r.totalApplications == (if a.totalApplications.Some? then a.totalApplications.value else 0)
      && r.shortlisted == (if a.statusCounts.Some? && a.statusCounts.value.shortlisted.Some?
                           then a.statusCounts.value.shortlisted.value else 0)
  {
    match analytics
    case None => HeaderCards(0, 0, 0, 0)
    case Some(a) =>
      HeaderCards(
        OrZero(a.totalJobs),
        OrZero(a.activeJobs),
        OrZero(a.totalApplications),
        match a.statusCounts
        case None => 0
        case Some(c) => OrZero(c.shortlisted))
  }

  function OrZero(v: Option<nat>): nat {
    match v
    case None => 0
    case Some(n) => n
  }

  /** `job.applicantCount || 0`. */
  function ApplicantCountShown(job: Job): (r: nat)
    ensures job.applicantCount.None? ==> r == 0
    ensures job.applicantCount.Some? ==> r == job.applicantCount.value
  {
    OrZero(job.applicantCount)
  }

  const MaxSkillBadges: nat := 8

  /** The skill badges of a job card: the skills shown, and the N of the
      "+N more" badge when there is one. */
  datatype SkillRow = SkillRow(shown: seq<string>, more: Option<nat>)

  /** `requiredSkills?.slice(0, 8)` and `requiredSkills?.length > 8`. */
  function SkillBadges(skills: Option<seq<string>>): (r: SkillRow)
    ensures skills.None? ==> r == SkillRow([], None)
    ensures skills.Some? ==>
      && |r.shown| == (if |skills.value| < MaxSkillBadges then |skills.value| else MaxSkillBadges)
      && r.shown == skills.value[..|r.shown|]
    ensures r.more.Some? <==> skills.Some? && |skills.value| > MaxSkillBadges
    ensures r.more.Some? ==> r.more.value == |skills.value| - MaxSkillBadges
  {
    match skills
    case None => SkillRow([], None)
    case Some(s) =>
      if |s| > MaxSkillBadges then SkillRow(s[..MaxSkillBadges], Some(|s| - MaxSkillBadges))
      else SkillRow(s, None)
  }

  /** Every skill is accounted for: the shown badges followed by the hidden
      skills give back the list, and the badge counts exactly the hidden ones. */
  lemma SkillBadgesCoverAll(skills: seq<string>)
    ensures var r := SkillBadges(Some(skills));
      && r.shown + skills[|r.shown|..] == skills
      && |r.shown| + (if r.more.Some? then r.more.value else 0) == |skills|
  {
  }

  /** `selectedJob || jobs[0]`: the job the candidates tab ranks. */
  function CandidatesJob(selected: Option<Job>, jobs: seq<Job>): (r: Option<Job>)
    ensures selected.Some? ==> r == selected
    ensures selected.None? && jobs != [] ==> r == Some(jobs[0])
    ensures r.None? <==> selected.None? && jobs == []
  {
    if selected.Some? then selected
    else if jobs != [] then Some(jobs[0])
    else None
  }

  /** The dashboard component's state hooks. */
  class Dashboard {
    var jobs: seq<Job>
    var analytics: Option<Analytics>
    var loading: bool
    var showJobForm: bool
    var editingJob: Option<Job>
    var selectedJob: Option<Job>
    var activeTab: Tab

    constructor ()
      ensures jobs == [] && analytics.None? && loading
      ensures !showJobForm && editingJob.None? && selectedJob.None? && activeTab == Overview
    {
      jobs, analytics, loading := [], None, true;
      showJobForm, editingJob, selectedJob, activeTab := false, None, None, Overview;
    }

    /** `loadJobs`: a `success` reply replaces the list wholesale. */
    method LoadJobs(reply: Fetch<seq<Job>>)
      modifies this`jobs
      ensures jobs == if reply.Success? then reply.payload else old(jobs)
    {
      if reply.Success? {
        jobs := reply.payload;
      }
    }

    /** `loadAnalytics`: a `success` reply replaces the summary. */
    method LoadAnalytics(reply: Fetch<Analytics>)
      modifies this`analytics
      ensures analytics == if reply.Success? then Some(reply.payload) else old(analytics)
    {
      if reply.Success? {
        analytics := Some(reply.payload);
      }
    }

    /** `loadData`: both loads settle while `loading` is set, then it is cleared. */
    method LoadData(jobsReply: Fetch<seq<Job>>, analyticsReply: Fetch<Analytics>)
      modifies this`jobs, this`analytics, this`loading
      ensures !loading
      ensures jobs == if jobsReply.Success? then jobsReply.payload else old(jobs)
      ensures analytics == if analyticsReply.Success? then Some(analyticsReply.payload) else old(analytics)
    {
      loading := true;
      LoadJobs(jobsReply);
      LoadAnalytics(analyticsReply);
      assert loading;
      loading := false;
    }

    /** `handleDeleteJob(jobId)`. `confirmed` is the answer to the confirmation
        dialog and `ok` whether the DELETE response was `ok`; the replies are
        those of the reload that follows. Returns the id a DELETE was sent for.
        The local list is never edited: it is either kept or replaced by the
        server's list. */
    method DeleteJob(jobId: string, confirmed: bool, ok: bool,
                     jobsReply: Fetch<seq<Job>>, analyticsReply: Fetch<Analytics>)
      returns (deleteSent: Option<string>)
      modifies this`jobs, this`analytics, this`loading
      ensures deleteSent == if confirmed then Some(jobId) else None
      ensures jobs == old(jobs) || (jobsReply.Success? && jobs == jobsReply.payload)
      ensures !(confirmed && ok) ==>
        jobs == old(jobs) && analytics == old(analytics) && loading == old(loading)
      ensures confirmed && ok ==>
        && !loading
        && jobs == (if jobsReply.Success? then jobsReply.payload else old(jobs))
        && analytics == (if analyticsReply.Success? then Some(analyticsReply.payload) else old(analytics))
    {
      deleteSent := None;
      if !confirmed {
        return;
      }
      deleteSent := Some(jobId);
      if ok {
        LoadData(jobsReply, analyticsReply);
      }
    }

    /** `handleJobCreated`: close the form, forget the job being edited, reload. */
    method JobCreated(jobsReply: Fetch<seq<Job>>, analyticsReply: Fetch<Analytics>)
      modifies this`showJobForm, this`editingJob, this`jobs, this`analytics, this`loading
      ensures !showJobForm && editingJob.None? && !loading
      ensures jobs == if jobsReply.Success? then jobsReply.payload else old(jobs)
      ensures analytics == if analyticsReply.Success? then Some(analyticsReply.payload) else old(analytics)
    {
      showJobForm := false;
      editingJob := None;
      LoadData(jobsReply, analyticsReply);
    }

    /** The "Create New Job" buttons: open the form. */
    method OpenJobForm()
      modifies this`showJobForm
      ensures showJobForm
    {
      showJobForm := true;
    }

    /** The Edit button of a job card: open the form on that job. */
    method EditJob(job: Job)
      modifies this`editingJob, this`showJobForm
      ensures editingJob == Some(job) && showJobForm
    {
      editingJob := Some(job);
      showJobForm := true;
    }

    /** The form's close callback. */
    method CloseJobForm()
      modifies this`showJobForm, this`editingJob
      ensures !showJobForm && editingJob.None?
    {
      showJobForm := false;
      editingJob := None;
    }

    /** `handleViewCandidates(job)`: the candidates tab then ranks that job. */
    method ViewCandidates(job: Job)
      modifies this`selectedJob, this`activeTab
      ensures selectedJob == Some(job) && activeTab == Candidates
      ensures CandidatesJob(selectedJob, jobs) == Some(job)
    {
      selectedJob := Some(job);
      activeTab := Candidates;
    }
  }
}
