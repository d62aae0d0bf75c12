/**
 * The department filter of src/pages/CareersPage.tsx over its six job
 * openings.
 */
module CareersPage {
  import Seqs

  const ALL := "all"

  datatype Job = Job(title: string, department: string)

  /** The six openings, in page order. */
  function Jobs(): (jobs: seq<Job>)
    ensures |jobs| == 6
  {
    [ Job("Senior AI Research Scientist", "Research"),
      Job("Full Stack Engineer", "Engineering"),
      Job("Product Designer", "Design"),
      Job("DevOps Engineer", "Engineering"),
      Job("Marketing Manager", "Marketing"),
      Job("AI Ethics Researcher", "Research") ]
  }

  /** The filter buttons. */
  function Departments(): (departments: seq<string>)
    ensures |departments| == 5 && departments[0] == ALL
  {
    [ALL, "Research", "Engineering", "Design", "Marketing"]
  }

  /** `filteredJobs`: every opening for "all", else those of the selected department, in page order. */
  function FilteredJobs(jobs: seq<Job>, selected: string): (shown: seq<Job>)
    ensures selected == ALL ==> shown == jobs
    ensures selected != ALL ==> forall i | 0 <= i < |shown| :: shown[i] in jobs && shown[i].department == selected
    ensures selected != ALL ==> forall i | 0 <= i < |jobs| :: jobs[i].department == selected ==> jobs[i] in shown
    ensures Seqs.IsSubsequence(shown, jobs)
    ensures forall j {:trigger multiset(shown)[j]} :: multiset(shown)[j] == if selected == ALL || j.department == selected then multiset(jobs)[j] else 0
  {
    if selected == ALL then Seqs.SubsequenceOfItself(jobs); jobs
    else
      Seqs.FilterIsSubsequence(jobs, (j: Job) => j.department == selected);
      Seqs.FilterCount(jobs, (j: Job) => j.department == selected);
      Seqs.Filter(jobs, (j: Job) => j.department == selected)
  }

  /** The "No positions found" message: shown when no opening passes the filter, which for "all" means none at all. */
  function ShowsNoPositions(jobs: seq<Job>, selected: string): (empty: bool)
    ensures empty <==> FilteredJobs(jobs, selected) == []
    ensures selected == ALL ==> (empty <==> jobs == [])
  {
    |FilteredJobs(jobs, selected)| == 0
  }

  /** Every department on the filter list has an opening, so "No positions found" never shows for one. */
  lemma DepartmentsHaveOpenings(selected: string)
    requires selected in Departments()
    ensures FilteredJobs(Jobs(), selected) != []
    ensures !ShowsNoPositions(Jobs(), selected)
  {
    var jobs := Jobs();
    if selected != ALL {
      var k := if selected == "Research" then 0
               else if selected == "Engineering" then 1
               else if selected == "Design" then 2
               else 4;
      assert jobs[k].department == selected;
      assert jobs[k] in FilteredJobs(jobs, selected);
    }
  }
}
