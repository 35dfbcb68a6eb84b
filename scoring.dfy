/**
 * The heuristic match score of a posting: a sum of whole-number points for the
 * role named in the title, the location, and how the posting's experience
 * range sits against the caller's target, clamped to [0, 100].
 */
module Scoring {
  import opened Wrappers
  import opened Text
  import opened Models

  const TIER_1_ROLES: seq<string> := [
    "data analyst", "senior data analyst", "senior analyst", "business analyst",
    "product analyst", "decision scientist", "bi developer", "analytics engineer",
    "bi analyst", "financial analyst", "marketing analyst", "operations analyst"]

  const TIER_2_ROLES: seq<string> := [
    "junior data scientist", "associate data scientist", "data scientist",
    "ml engineer", "machine learning engineer", "junior ml engineer",
    "associate ml engineer", "junior data engineer", "associate data engineer"]

  const SKILL_KEYWORDS: seq<string> := [
    "python", "sql", "tableau", "power bi", "looker", "visualization",
    "machine learning", "ml modeling", "statistics", "a/b testing",
    "experimentation", "analytics", "reporting", "dashboards", "etl",
    "data pipeline", "pandas", "numpy", "scikit-learn", "tensorflow",
    "pytorch", "r language", "excel", "spreadsheet"]

  const REMOTE_KEYWORDS: seq<string> := ["remote", "work from home", "wfh", "distributed", "anywhere"]

  const INDIA_REMOTE_KEYWORDS: seq<string> := ["remote india", "india remote", "work from india"]

  const INDIAN_CITIES: seq<string> := [
    "pune", "hyderabad", "mumbai", "thane", "navi mumbai", "bangalore",
    "chennai", "delhi", "ncr", "gurgaon", "noida"]

  /** Some keyword of the list occurs in the text. */
  predicate Mentions(text: string, kws: seq<string>) {
    exists k :: 0 <= k < |kws| && Contains(text, kws[k])
  }

  /** Role points: a Tier-1 title, else a Tier-2 title, else a skill anywhere in the posting. */
  function RolePoints(title: string, description: string, location: string): (p: int)
    ensures 0 <= p <= 40
  {
    var titleLower := Lower(title);
    var text := Lower(title + " " + description + " " + location);
    if ContainsAny(titleLower, TIER_1_ROLES) then 40
    else if ContainsAny(titleLower, TIER_2_ROLES) then 30
    else if ContainsAny(text, SKILL_KEYWORDS) then 20
    else 0
  }

  /** Location points: remote, else remote-in-India, else an Indian city, else anything. */
  function LocationPoints(location: string): (p: int)
    ensures 10 <= p <= 30
  {
    var locationLower := Lower(location);
    if ContainsAny(locationLower, REMOTE_KEYWORDS) then 30
    else if ContainsAny(locationLower, INDIA_REMOTE_KEYWORDS) then 25
    else if ContainsAny(locationLower, INDIAN_CITIES) then 20
    else 10
  }

  /** Experience points for the posting's optional bounds against the target. */
  function YoePoints(yoeMin: Option<int>, yoeMax: Option<int>, target: int): (p: int)
    ensures 0 <= p <= 30
  {
    if yoeMin.Some? || yoeMax.Some? then
      if yoeMin.Some? && yoeMax.Some? then
        var lo, hi := yoeMin.value, yoeMax.value;
        if lo <= target <= hi then 30
        else if lo <= target + 1 <= hi then 20
        else if hi >= 5 then 0
        else 10
      else if yoeMin.Some? then
        var lo := yoeMin.value;
        if lo <= target then
          if lo >= 5 then 0
          else if lo <= target + 1 then 25
          else 10
        else 0
      else
        var hi := yoeMax.value;
        if hi >= target then (if hi >= 5 then 0 else 25)
        else 0
    else 15
  }

  /** `min(100, max(0, x))`: a value in [0, 100], equal to `x` when `x` already lies there. */
  function Clamp(x: int): (r: int)
    ensures 0 <= r <= 100
    ensures 0 <= x <= 100 ==> r == x
    ensures x > 100 ==> r == 100
    ensures x < 0 ==> r == 0
  {
    if x > 100 then 100 else if x < 0 then 0 else x
  }

  /** `calculate_match_score`; the target experience defaults to 2 at its callers. */
  function MatchScore(title: string, description: string, location: string,
                      yoeMin: Option<int>, yoeMax: Option<int>, target: int): (score: int)
    ensures 0 <= score <= 100
    ensures score >= 10
  {
    Clamp(RolePoints(title, description, location) + LocationPoints(location) + YoePoints(yoeMin, yoeMax, target))
  }

  /** No component subtracts and their maxima add up to 100, so the clamp never changes the sum. */
  lemma ScoreIsSumOfComponents(title: string, description: string, location: string,
                               yoeMin: Option<int>, yoeMax: Option<int>, target: int)
    ensures MatchScore(title, description, location, yoeMin, yoeMax, target)
         == RolePoints(title, description, location) + LocationPoints(location) + YoePoints(yoeMin, yoeMax, target)
  {
  }

  /** The role tiers, in their order of precedence. */
  lemma RoleTiers(title: string, description: string, location: string)
    ensures Mentions(Lower(title), TIER_1_ROLES) ==> RolePoints(title, description, location) == 40
    ensures !Mentions(Lower(title), TIER_1_ROLES) && Mentions(Lower(title), TIER_2_ROLES)
            ==> RolePoints(title, description, location) == 30
    ensures !Mentions(Lower(title), TIER_1_ROLES) && !Mentions(Lower(title), TIER_2_ROLES)
            ==> RolePoints(title, description, location)
                == (if Mentions(Lower(title + " " + description + " " + location), SKILL_KEYWORDS) then 20 else 0)
  {
  }

  /** The location tiers, in their order of precedence. */
  lemma LocationTiers(location: string)
    ensures Mentions(Lower(location), REMOTE_KEYWORDS) ==> LocationPoints(location) == 30
    ensures !Mentions(Lower(location), REMOTE_KEYWORDS) && Mentions(Lower(location), INDIA_REMOTE_KEYWORDS)
            ==> LocationPoints(location) == 25
    ensures !Mentions(Lower(location), REMOTE_KEYWORDS) && !Mentions(Lower(location), INDIA_REMOTE_KEYWORDS)
            ==> LocationPoints(location) == (if Mentions(Lower(location), INDIAN_CITIES) then 20 else 10)
  {
  }

  /** A posting with no experience bounds gets the neutral 15 points. */
  lemma NoYoeIsNeutral(target: int)
    ensures YoePoints(None, None, target) == 15
  {
  }

  /** A target inside the posting's range gets full experience credit. */
  lemma TargetInRangeGetsFull(lo: int, hi: int, target: int)
    requires lo <= target <= hi
    ensures YoePoints(Some(lo), Some(hi), target) == 30
  {
  }

  /**
   * With only a lower bound, the 10-point branch can never be taken: the guard
   * `lo <= target + 1` is implied by the enclosing `lo <= target`.
   */
  lemma MinOnlyNeverTen(lo: int, target: int)
    ensures YoePoints(Some(lo), None, target) == (if lo <= target && lo < 5 then 25 else 0)
  {
  }

  /** A computed score fits the bounds a job record puts on its match score. */
  lemma ScoreFitsJob(j: Job, title: string, description: string, location: string,
                     yoeMin: Option<int>, yoeMax: Option<int>, target: int)
    requires ValidJob(j)
    ensures ValidJob(j.(matchScore := Some(MatchScore(title, description, location, yoeMin, yoeMax, target) as real)))
  {
  }

  /** A remote senior data analyst posting with no experience bounds scores 40 + 30 + 15. */
  lemma RemoteAnalystScore()
    ensures MatchScore("Senior Data Analyst", "", "Remote", None, None, 2) == 85
  {
    assert Lower("Senior Data Analyst") == "senior data analyst";
    assert OccursAt("senior data analyst", TIER_1_ROLES[0], 7);
    assert Lower("Remote") == "remote";
    assert OccursAt("remote", REMOTE_KEYWORDS[0], 0);
  }
}
