/** The job-match list filter of the jobs dashboard: a free-text search on
    title and company, a type and a location choice where "all" means no
    restriction, and a minimum match percentage. */
module Jobs {
  import opened Seqs
  import opened Text

  /** A job listing; `kind` is the TypeScript field `type` and `matchScore` the
      percentage field `match`. */
  datatype Job = Job(
    id: int,
    title: string,
    company: string,
    location: string,
    kind: string,
    salary: string,
    posted: string,
    matchScore: int,
    description: string,
    requirements: seq<string>)

  /** The filter panel's state; `kind` is the TypeScript field `type`. */
  datatype JobFilters = JobFilters(kind: string, location: string, minMatch: int)

  /** The select value that imposes no restriction. */
  const AnyChoice: string := "all"

  /** The filters the page starts with. */
  const InitialFilters: JobFilters := JobFilters(AnyChoice, AnyChoice, 0)

  /** Case-insensitive substring search on title or company. */
  predicate MatchesSearch(job: Job, search: string) {
    Contains(Lower(job.title), Lower(search)) || Contains(Lower(job.company), Lower(search))
  }

  /** A select filter: "all", or exact equality. */
  predicate MatchesChoice(value: string, choice: string) {
    choice == AnyChoice || value == choice
  }

  predicate Keep(job: Job, search: string, filters: JobFilters) {
    && MatchesSearch(job, search)
    && MatchesChoice(job.kind, filters.kind)
    && MatchesChoice(job.location, filters.location)
    && job.matchScore >= filters.minMatch
  }

  function Keeps(search: string, filters: JobFilters): Job -> bool {
    (job: Job) => Keep(job, search, filters)
  }

  /** `filteredJobs`: the jobs passing all four tests, in list order. */
  function FilterJobs(jobs: seq<Job>, search: string, filters: JobFilters): (r: seq<Job>)
    ensures IsSubseq(r, jobs)
    ensures forall job :: job in r <==> job in jobs && Keep(job, search, filters)
    ensures forall job :: job in r ==> job.matchScore >= filters.minMatch
    ensures forall job :: multiset(r)[job] == if Keep(job, search, filters) then multiset(jobs)[job] else 0
  {
    FilterIsSubseq(jobs, Keeps(search, filters));
    forall job
      ensures multiset(Filter(jobs, Keeps(search, filters)))[job]
              == if Keep(job, search, filters) then multiset(jobs)[job] else 0
    {
      FilterCounts(jobs, Keeps(search, filters), job);
    }
    Filter(jobs, Keeps(search, filters))
  }

  lemma LowerIdempotent(s: string)
    ensures Lower(Lower(s)) == Lower(s)
  {
  }

  /** Searching is insensitive to the case of the search text. */
  lemma SearchIgnoresCase(job: Job, search: string)
    ensures MatchesSearch(job, search) <==> MatchesSearch(job, Lower(search))
  {
    LowerIdempotent(search);
  }

  /** The empty search matches every job. */
  lemma EmptySearchMatchesAll(job: Job)
    ensures MatchesSearch(job, "")
  {
    assert Lower("") == "";
    assert IsPrefix("", Lower(job.title));
  }

  /** A job whose title contains the search text, in any case, matches. */
  lemma TitleInfixMatches(job: Job, search: string, before: string, after: string)
    requires Lower(job.title) == before + Lower(search) + after
    ensures MatchesSearch(job, search)
  {
    ContainsInfix(before, Lower(search), after);
  }

  /** "all" in both selects, an empty search and a minimum every job meets
      keep the whole list. */
  lemma NoRestrictionKeepsAll(jobs: seq<Job>, minMatch: int)
    requires forall job :: job in jobs ==> job.matchScore >= minMatch
    ensures FilterJobs(jobs, "", JobFilters(AnyChoice, AnyChoice, minMatch)) == jobs
  {
    forall job | job in jobs
      ensures Keeps("", JobFilters(AnyChoice, AnyChoice, minMatch))(job)
    {
      EmptySearchMatchesAll(job);
    }
    FilterKeepsAll(jobs, Keeps("", JobFilters(AnyChoice, AnyChoice, minMatch)));
  }

  /** Raising the minimum match never adds a job: the stricter result is a
      subsequence of the looser one. */
  lemma RaisingMinMatchNarrows(jobs: seq<Job>, search: string, filters: JobFilters, higher: int)
    requires filters.minMatch <= higher
    ensures IsSubseq(FilterJobs(jobs, search, filters.(minMatch := higher)), FilterJobs(jobs, search, filters))
  {
    FilterMonotone(jobs, Keeps(search, filters.(minMatch := higher)), Keeps(search, filters));
  }

  /** Choosing a specific type (or location) keeps a subsequence of what
      "all" keeps. */
  lemma ChoosingNarrows(jobs: seq<Job>, search: string, filters: JobFilters, kind: string, location: string)
    requires filters.kind == AnyChoice && filters.location == AnyChoice
    ensures IsSubseq(FilterJobs(jobs, search, filters.(kind := kind, location := location)), FilterJobs(jobs, search, filters))
  {
    FilterMonotone(jobs, Keeps(search, filters.(kind := kind, location := location)), Keeps(search, filters));
  }

  const SeniorFrontend: Job := Job(
    1, "Senior Frontend Developer", "TechCorp Inc.", "New York, NY", "Full-time",
    "$120,000 - $150,000", "2 days ago", 95,
    "We're looking for a Senior Frontend Developer to join our team...",
    ["5+ years of experience with React", "Strong TypeScript skills",
     "Experience with state management", "Understanding of web performance optimization"])

  const FullStack: Job := Job(
    2, "Full Stack Engineer", "StartupX", "Remote", "Full-time",
    "$100,000 - $130,000", "1 week ago", 88,
    "Join our fast-growing startup as a Full Stack Engineer...",
    ["3+ years of full stack development", "Node.js and React experience",
     "Database design skills", "AWS or similar cloud experience"])

  const ReactContract: Job := Job(
    3, "React Developer", "InnovateLabs", "San Francisco, CA", "Contract",
    "$80 - $100/hour", "3 days ago", 82,
    "Looking for a React Developer to help build our next-gen platform...",
    ["3+ years of React experience", "Experience with modern React patterns",
     "Understanding of RESTful APIs", "Strong problem-solving skills"])

  /** The listings the page starts with. */
  const MockJobs: seq<Job> := [SeniorFrontend, FullStack, ReactContract]

  /** With the initial filters every listing is shown. */
  lemma InitialFiltersShowAll()
    ensures FilterJobs(MockJobs, "", InitialFilters) == MockJobs
  {
    NoRestrictionKeepsAll(MockJobs, 0);
  }

  /** Only the React role is a contract. */
  lemma ContractFilterFindsReactDeveloper()
    ensures FilterJobs(MockJobs, "", InitialFilters.(kind := "Contract")) == [ReactContract]
  {
    var p := Keeps("", InitialFilters.(kind := "Contract"));
    EmptySearchMatchesAll(ReactContract);
    assert !p(SeniorFrontend) && !p(FullStack) && p(ReactContract);
    assert MockJobs[1..] == [FullStack, ReactContract];
    assert MockJobs[1..][1..] == [ReactContract];
    assert [ReactContract][1..] == [];
    assert Filter([ReactContract], p) == [ReactContract];
    assert Filter([FullStack, ReactContract], p) == [ReactContract];
    assert Filter(MockJobs, p) == [ReactContract];
  }

  /** A minimum match of 90 leaves only the senior frontend role. */
  lemma HighMinimumKeepsBestMatch()
    ensures FilterJobs(MockJobs, "", InitialFilters.(minMatch := 90)) == [SeniorFrontend]
  {
    var p := Keeps("", InitialFilters.(minMatch := 90));
    EmptySearchMatchesAll(SeniorFrontend);
    assert p(SeniorFrontend) && !p(FullStack) && !p(ReactContract);
    assert MockJobs[1..] == [FullStack, ReactContract];
    assert MockJobs[1..][1..] == [ReactContract];
    assert [ReactContract][1..] == [];
    assert Filter([ReactContract], p) == [];
    assert Filter([FullStack, ReactContract], p) == [];
    assert Filter(MockJobs, p) == [SeniorFrontend];
  }
}
