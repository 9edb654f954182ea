/**
 * The project list of src/components/ProjectGrid.tsx: every project is
 * copied with its `stars` replaced by a fetched count, the copies are sorted
 * by `compareStars` (most stars first) and become the component's
 * `projectData`, which starts out empty.
 *
 * `Promise.all` over the lookups is modelled as a sequential batch followed
 * by one state assignment; the network is a function from URL to response.
 */
module Projects {
  import opened Wrappers
  import Github
  import RepoLink

  /** A project record; `slug` is untyped in the source and modelled as a string. */
  datatype Project = Project(slug: string, title: string, description: Option<string>, stars: Option<int>)

  const GithubUsername: string := "noahgorstein"

  /** `stars ?? 0`. */
  function StarsOrZero(p: Project): int
  {
    p.stars.GetOr(0)
  }

  /** The comparator handed to `sort`: negative exactly when `a` has more stars. */
  function CompareStars(a: Project, b: Project): (d: int)
    ensures d < 0 <==> StarsOrZero(a) > StarsOrZero(b)
    ensures d == 0 <==> StarsOrZero(a) == StarsOrZero(b)
    ensures d > 0 <==> StarsOrZero(a) < StarsOrZero(b)
  {
    StarsOrZero(b) - StarsOrZero(a)
  }

  /** Swapping the arguments negates the comparison, as `sort` expects of a comparator. */
  lemma CompareStarsAntisymmetric(a: Project, b: Project)
    ensures CompareStars(a, b) == -CompareStars(b, a)
  {
  }

  /** The key looked up for a project: "owner/title". */
  function LookupKey(title: string): string
  {
    GithubUsername + "/" + title
  }

  /** The star lookup `fetchStars` performs against a given network. */
  function StarLookup(network: string -> Github.Response): string -> int
  {
    repo => Github.StarsOf(network, repo)
  }

  /** `{ ...p, stars }`: a copy whose only change is the fetched count. */
  function Enrich(p: Project, fetchStars: string -> int): (q: Project)
    ensures q.slug == p.slug && q.title == p.title && q.description == p.description
    ensures q.stars == Some(fetchStars(LookupKey(p.title)))
  {
    p.(stars := Some(fetchStars(LookupKey(p.title))))
  }

  /** A count the record already carries makes no difference: it is always fetched. */
  lemma EnrichIgnoresKnownStars(p: Project, fetchStars: string -> int)
    ensures Enrich(p, fetchStars) == Enrich(p.(stars := None), fetchStars)
  {
  }

  /** The enriched list, record by record in the input order. */
  function EnrichAll(projects: seq<Project>, fetchStars: string -> int): (r: seq<Project>)
    ensures |r| == |projects|
    ensures forall i :: 0 <= i < |r| ==> r[i] == Enrich(projects[i], fetchStars)
  {
    if projects == [] then []
    else [Enrich(projects[0], fetchStars)] + EnrichAll(projects[1..], fetchStars)
  }

  /** The lookups of `fetchData`, awaited one after another. */
  method EnrichBatch(projects: seq<Project>, fetchStars: string -> int) returns (data: seq<Project>)
    ensures data == EnrichAll(projects, fetchStars)
  {
    data := [];
    var i := 0;
    while i < |projects|
      invariant 0 <= i <= |projects|
      invariant |data| == i
      invariant forall k :: 0 <= k < i ==> data[k] == Enrich(projects[k], fetchStars)
    {
      data := data + [Enrich(projects[i], fetchStars)];
      i := i + 1;
    }
  }

  /** Ordered by `compareStars`: no record is ranked above one with more stars. */
  predicate SortedByStars(s: seq<Project>)
  {
    forall i, j :: 0 <= i < j < |s| ==> StarsOrZero(s[i]) >= StarsOrZero(s[j])
  }

  /** A sorted list is one in which `compareStars` never asks for a swap. */
  lemma SortedByComparator(s: seq<Project>)
    ensures SortedByStars(s) <==> forall i, j :: 0 <= i < j < |s| ==> CompareStars(s[i], s[j]) <= 0
  {
  }

  /** Sorted means the counts never increase from one record to the next. */
  lemma {:induction false} SortedByStarsAdjacent(s: seq<Project>)
    ensures SortedByStars(s) <==> forall i :: 0 <= i < |s| - 1 ==> StarsOrZero(s[i]) >= StarsOrZero(s[i + 1])
  {
    if |s| > 1 && forall i :: 0 <= i < |s| - 1 ==> StarsOrZero(s[i]) >= StarsOrZero(s[i + 1]) {
      var t := s[1..];
      assert forall i :: 0 <= i < |t| - 1 ==> StarsOrZero(t[i]) >= StarsOrZero(t[i + 1]) by {
        forall i | 0 <= i < |t| - 1 ensures StarsOrZero(t[i]) >= StarsOrZero(t[i + 1]) {
          assert t[i] == s[i + 1] && t[i + 1] == s[i + 2];
        }
      }
      SortedByStarsAdjacent(t);
      forall j | 1 < j < |s|
        ensures StarsOrZero(s[0]) >= StarsOrZero(s[j])
      {
        assert t[0] == s[1] && t[j - 1] == s[j];
      }
      forall i, j | 0 < i < j < |s|
        ensures StarsOrZero(s[i]) >= StarsOrZero(s[j])
      {
        assert t[i - 1] == s[i] && t[j - 1] == s[j];
      }
    }
  }

  /** Exchanges two neighbouring records. */
  method SwapWithPrevious(a: array<Project>, j: int)
    requires 0 < j < a.Length
    modifies a
    ensures a[..] == old(a[..])[j - 1 := old(a[j])][j := old(a[j - 1])]
    ensures multiset(a[..]) == old(multiset(a[..]))
  {
    a[j - 1], a[j] := a[j], a[j - 1];
  }

  /** Moves `a[i]` down past every record with fewer stars, so that `a[..i + 1]` is sorted. */
  method InsertDown(a: array<Project>, i: int)
    requires 0 <= i < a.Length
    requires SortedByStars(a[..i])
    modifies a
    ensures SortedByStars(a[..i + 1])
    ensures multiset(a[..]) == old(multiset(a[..]))
  {
    var j := i;
    while j > 0 && CompareStars(a[j - 1], a[j]) > 0
      invariant 0 <= j <= i
      invariant forall k, l :: 0 <= k < l <= i && k != j && l != j ==> StarsOrZero(a[k]) >= StarsOrZero(a[l])
      invariant forall l :: j < l <= i ==> StarsOrZero(a[j]) > StarsOrZero(a[l])
      invariant multiset(a[..]) == old(multiset(a[..]))
    {
      SwapWithPrevious(a, j);
      j := j - 1;
    }
  }

  /** `data.sort(compareStars)`, in place (an insertion sort; ties may land in any order). */
  method SortByStars(a: array<Project>)
    modifies a
    ensures SortedByStars(a[..])
    ensures multiset(a[..]) == old(multiset(a[..]))
  {
    var i := 0;
    while i < a.Length
      invariant 0 <= i <= a.Length
      invariant SortedByStars(a[..i])
      invariant multiset(a[..]) == old(multiset(a[..]))
    {
      InsertDown(a, i);
      i := i + 1;
    }
    assert a[..a.Length] == a[..];
  }

  /**
   * Any reordering of the enriched list has the same length, and each of its
   * records is the enriched copy of some input record, with a count.
   */
  lemma {:induction false} ReorderedEnrichment(s: seq<Project>, projects: seq<Project>, fetchStars: string -> int)
    requires multiset(s) == multiset(EnrichAll(projects, fetchStars))
    ensures |s| == |projects|
    ensures forall q :: q in s ==> q.stars.Some? && exists i :: 0 <= i < |projects| && q == Enrich(projects[i], fetchStars)
  {
    var e := EnrichAll(projects, fetchStars);
    assert |s| == |multiset(s)| == |multiset(e)| == |e|;
    forall q | q in s
      ensures q.stars.Some? && exists i :: 0 <= i < |projects| && q == Enrich(projects[i], fetchStars)
    {
      assert q in multiset(e);
      var i :| 0 <= i < |e| && e[i] == q;
    }
  }

  /** The count handed to the link component: `project.stars ?? 0`. */
  function LinkProps(p: Project): RepoLink.Props
  {
    RepoLink.Props(p.title, Some(StarsOrZero(p)), None)
  }

  /**
   * A record whose fetched count is 0 hands the link a falsy count, so the
   * link looks the same repository up a second time.
   */
  lemma ZeroCountLookedUpAgain(p: Project, fetchStars: string -> int)
    ensures RepoLink.Source(LinkProps(Enrich(p, fetchStars))).Lookup? <==> fetchStars(LookupKey(p.title)) == 0
    ensures RepoLink.Source(LinkProps(Enrich(p, fetchStars))).Lookup? ==>
              RepoLink.Source(LinkProps(Enrich(p, fetchStars))).key == LookupKey(p.title)
    ensures RepoLink.Source(LinkProps(Enrich(p, fetchStars))).Supplied? ==>
              RepoLink.Source(LinkProps(Enrich(p, fetchStars))).count == fetchStars(LookupKey(p.title))
  {
  }

  /** The component: its `projects` prop and its `projectData` state. */
  class ProjectGrid {
    const projects: seq<Project>
    var projectData: seq<Project>

    /** Mounting: nothing is shown until every lookup has settled. */
    constructor (projects: seq<Project>)
      ensures this.projects == projects
      ensures projectData == []
    {
      this.projects := projects;
      projectData := [];
    }

    /** `fetchData`: enrich every project, sort the copies, then set `projectData` once. */
    method FetchData(network: string -> Github.Response)
      modifies this
      ensures multiset(projectData) == multiset(EnrichAll(projects, StarLookup(network)))
      ensures SortedByStars(projectData)
      ensures |projectData| == |projects|
      ensures forall q :: q in projectData ==>
                exists i :: 0 <= i < |projects| && q == Enrich(projects[i], StarLookup(network))
    {
      var enriched := EnrichBatch(projects, StarLookup(network));
      var data := new Project[|enriched|](i requires 0 <= i < |enriched| => enriched[i]);
      assert data[..] == enriched;
      SortByStars(data);
      projectData := data[..];
      ReorderedEnrichment(projectData, projects, StarLookup(network));
    }
  }
}
