/** The applicant's dashboard: the resume and application lists loaded from
    the service, and the per-status tally shown in its header cards. */
module ApplicantDashboard {
  import opened Wrappers

  datatype Resume = Resume(id: string)

  /** An application as listed for the applicant; `status` is whatever text
      the service sent. */
  datatype Application = Application(id: string, jobId: string, status: string)

  /** The five status literals the tally looks for. */
  const Applied: string := "applied"
  const UnderReview: string := "under_review"
  const Shortlisted: string := "shortlisted"
  const Rejected: string := "rejected"
  const Hired: string := "hired"

  predicate KnownStatus(s: string) {
    s == Applied || s == UnderReview || s == Shortlisted || s == Rejected || s == Hired
  }

  /** `applications.filter(a => a.status === status).length`. */
  function CountStatus(apps: seq<Application>, status: string): (n: nat)
    ensures n <= |apps|
    ensures n > 0 <==> exists i :: 0 <= i < |apps| && apps[i].status == status
    decreases |apps|
  {
    if apps == [] then 0
    else
      var prefix := apps[..|apps| - 1];
      assert forall i :: 0 <= i < |prefix| ==> prefix[i] == apps[i];
      CountStatus(prefix, status) + (if apps[|apps| - 1].status == status then 1 else 0)
  }

  /** The statuses of the applications, in order. */
  function StatusesOf(apps: seq<Application>): (r: seq<string>)
    ensures |r| == |apps|
    ensures forall i :: 0 <= i < |apps| ==> r[i] == apps[i].status
  {
    seq(|apps|, i requires 0 <= i < |apps| => apps[i].status)
  }

  /** Each count is the number of occurrences of its status among all statuses. */
  lemma {:induction false} CountIsOccurrences(apps: seq<Application>, status: string)
    ensures CountStatus(apps, status) == multiset(StatusesOf(apps))[status]
    decreases |apps|
  {
    if apps != [] {
      var prefix := apps[..|apps| - 1];
      CountIsOccurrences(prefix, status);
      assert StatusesOf(apps) == StatusesOf(prefix) + [apps[|apps| - 1].status];
    }
  }

  /** The object `getStatusStats()` returns. */
  datatype StatusStats = StatusStats(
    total: nat, applied: nat, underReview: nat, shortlisted: nat, rejected: nat, hired: nat)

  function Tallied(st: StatusStats): nat {
    st.applied + st.underReview + st.shortlisted + st.rejected + st.hired
  }

  function GetStatusStats(apps: seq<Application>): (r: StatusStats)
    ensures r.total == |apps|
    ensures r.applied <= r.total && r.underReview <= r.total && r.shortlisted <= r.total
    ensures r.rejected <= r.total && r.hired <= r.total
  {
    StatusStats(
      |apps|,
      CountStatus(apps, Applied),
      CountStatus(apps, UnderReview),
      CountStatus(apps, Shortlisted),
      CountStatus(apps, Rejected),
      CountStatus(apps, Hired))
  }

  /** One more application raises the total and the count of its own
      status by one, and leaves the other counts alone. */
  lemma AppendOne(apps: seq<Application>, a: Application)
    ensures var before, after := GetStatusStats(apps), GetStatusStats(apps + [a]);
      && after.total == before.total + 1
      && after.applied == before.applied + (if a.status == Applied then 1 else 0)
      && after.underReview == before.underReview + (if a.status == UnderReview then 1 else 0)
      && after.shortlisted == before.shortlisted + (if a.status == Shortlisted then 1 else 0)
      && after.rejected == before.rejected + (if a.status == Rejected then 1 else 0)
      && after.hired == before.hired + (if a.status == Hired then 1 else 0)
  {
    assert (apps + [a])[..|apps|] == apps;
  }

  /** The five counts never exceed the total, and reach it exactly when every
      application carries one of the five literals. */
  lemma {:induction false} TalliedAtMostTotal(apps: seq<Application>)
    ensures Tallied(GetStatusStats(apps)) <= |apps|
    ensures Tallied(GetStatusStats(apps)) == |apps| <==>
      forall i :: 0 <= i < |apps| ==> KnownStatus(apps[i].status)
    decreases |apps|
  {
    if apps != [] {
      var prefix, last := apps[..|apps| - 1], apps[|apps| - 1];
      assert apps == prefix + [last];
      TalliedAtMostTotal(prefix);
      AppendOne(prefix, last);
      assert Tallied(GetStatusStats(apps))
          == Tallied(GetStatusStats(prefix)) + (if KnownStatus(last.status) then 1 else 0);
      if forall i :: 0 <= i < |apps| ==> KnownStatus(apps[i].status) {
        assert forall i :: 0 <= i < |prefix| ==> KnownStatus(prefix[i].status) by {
          forall i | 0 <= i < |prefix| ensures KnownStatus(prefix[i].status) {
            assert prefix[i] == apps[i];
          }
        }
      } else {
        var j :| 0 <= j < |apps| && !KnownStatus(apps[j].status);
        if j < |prefix| {
          assert prefix[j] == apps[j];
        }
      }
    }
  }

  /** The dashboard component's state hooks. */
  class Dashboard {
    var resumes: seq<Resume>
    var applications: seq<Application>
    var loading: bool

    constructor ()
      ensures resumes == [] && applications == [] && loading
    {
      resumes, applications, loading := [], [], true;
    }

    /** `getStatusStats()` over the current applications. */
    function Stats(): StatusStats
      reads this
    {
      GetStatusStats(applications)
    }

    /** `loadResumes`: a `success` reply replaces the list wholesale. */
    method LoadResumes(reply: Fetch<seq<Resume>>)
      modifies this`resumes
      ensures resumes == if reply.Success? then reply.payload else old(resumes)
    {
      if reply.Success? {
        resumes := reply.payload;
      }
    }

    /** `loadApplications`: a `success` reply replaces the list wholesale. */
    method LoadApplications(reply: Fetch<seq<Application>>)
      modifies this`applications
      ensures applications == if reply.Success? then reply.payload else old(applications)
      ensures reply.Failure? ==> Stats() == old(Stats())
    {
      if reply.Success? {
        applications := reply.payload;
      }
    }

    /** `loadData`: both loads settle while `loading` is set, then it is cleared.
        Each list is the reply's payload or, on failure, what it was before. */
    method LoadData(resumesReply: Fetch<seq<Resume>>, applicationsReply: Fetch<seq<Application>>)
      modifies this
      ensures !loading
      ensures resumes == if resumesReply.Success? then resumesReply.payload else old(resumes)
      ensures applications == if applicationsReply.Success? then applicationsReply.payload else old(applications)
    {
      loading := true;
      LoadResumes(resumesReply);
      LoadApplications(applicationsReply);
      assert loading;
      loading := false;
    }
  }
}
