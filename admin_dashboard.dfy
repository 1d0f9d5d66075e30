/**
 * The admin dashboard's derived views of the patient roster: the list
 * narrowed by the search box and the status selector, and the four
 * summary counts.
 */
module AdminDashboard {
  import opened Text
  import M = MockData

  /** The status value as the selector and the status field spell it. */
  function StatusName(s: M.Status): (n: string)
    ensures n == "normal" <==> s == M.Normal
    ensures n == "warning" <==> s == M.Warning
    ensures n == "critical" <==> s == M.Critical
    ensures n != "all"
  {
    match s
    case Normal => "normal"
    case Warning => "warning"
    case Critical => "critical"
  }

  /** Case-insensitive substring test on the name, case-sensitive one on the id. */
  predicate MatchesSearch(p: M.Patient, search: string) {
    Contains(ToLower(p.name), ToLower(search)) || Contains(p.id, search)
  }

  predicate MatchesStatus(p: M.Patient, filterStatus: string) {
    filterStatus == "all" || StatusName(p.status) == filterStatus
  }

  predicate Keep(p: M.Patient, search: string, filterStatus: string) {
    MatchesSearch(p, search) && MatchesStatus(p, filterStatus)
  }

  /** `r` is obtained from `s` by deleting elements, order kept. */
  ghost predicate IsSubsequence<T>(r: seq<T>, s: seq<T>)
    decreases |s|
  {
    if |r| == 0 then true
    else if |s| == 0 then false
    else (r[0] == s[0] && IsSubsequence(r[1..], s[1..])) || IsSubsequence(r, s[1..])
  }

  /** `patients.filter(...)`: the patients that pass both tests, in roster order. */
  function Filtered(ps: seq<M.Patient>, search: string, filterStatus: string): (r: seq<M.Patient>)
    ensures |r| <= |ps|
    ensures IsSubsequence(r, ps)
    ensures forall p :: p in r <==> p in ps && Keep(p, search, filterStatus)
  {
    if |ps| == 0 then []
    else
      var rest := Filtered(ps[1..], search, filterStatus);
      assert forall p :: p in ps <==> p == ps[0] || p in ps[1..];
      if Keep(ps[0], search, filterStatus) then [ps[0]] + rest else rest
  }

  /** A kept patient appears as often as in the roster, a dropped one not at all. */
  lemma {:induction false} FilteredMultiplicity(ps: seq<M.Patient>, search: string, filterStatus: string)
    ensures forall p ::
      (multiset(Filtered(ps, search, filterStatus))[p] == if Keep(p, search, filterStatus) then multiset(ps)[p] else 0)
  {
    if |ps| > 0 {
      FilteredMultiplicity(ps[1..], search, filterStatus);
      assert ps == [ps[0]] + ps[1..];
    }
  }

  /** Every kept patient matches the search and, unless the selector says "all", has the selected status. */
  lemma FilteredMatches(ps: seq<M.Patient>, search: string, filterStatus: string)
    ensures forall p :: p in Filtered(ps, search, filterStatus) ==>
      (Contains(ToLower(p.name), ToLower(search)) || Contains(p.id, search))
    ensures filterStatus != "all" ==>
      forall p :: p in Filtered(ps, search, filterStatus) ==> StatusName(p.status) == filterStatus
  {
  }

  /** An empty search with the "all" selector leaves the roster as it is. */
  lemma {:induction false} EmptySearchKeepsAll(ps: seq<M.Patient>)
    ensures Filtered(ps, "", "all") == ps
  {
    if |ps| > 0 {
      ContainsEmpty(ToLower(ps[0].name));
      assert ToLower("") == "";
      EmptySearchKeepsAll(ps[1..]);
      assert ps == [ps[0]] + ps[1..];
    }
  }

  function CountStatus(ps: seq<M.Patient>, s: M.Status): (n: nat)
    ensures n <= |ps|
  {
    if |ps| == 0 then 0
    else (if ps[0].status == s then 1 else 0) + CountStatus(ps[1..], s)
  }

  datatype Stats = Stats(total: nat, normal: nat, warning: nat, critical: nat)

  function ComputeStats(ps: seq<M.Patient>): (st: Stats)
    ensures st.total == |ps|
    ensures st.normal == CountStatus(ps, M.Normal)
    ensures st.warning == CountStatus(ps, M.Warning)
    ensures st.critical == CountStatus(ps, M.Critical)
  {
    Stats(|ps|, CountStatus(ps, M.Normal), CountStatus(ps, M.Warning), CountStatus(ps, M.Critical))
  }

  /** The three status counts partition the roster. */
  lemma {:induction false} StatsAddUp(ps: seq<M.Patient>)
    ensures var st := ComputeStats(ps); st.normal + st.warning + st.critical == st.total
  {
    if |ps| > 0 {
      StatsAddUp(ps[1..]);
    }
  }

  /** Each status count is the length of the list the selector shows for that status with an empty search. */
  lemma {:induction false} CountMatchesFilter(ps: seq<M.Patient>, s: M.Status)
    ensures CountStatus(ps, s) == |Filtered(ps, "", StatusName(s))|
  {
    if |ps| > 0 {
      ContainsEmpty(ToLower(ps[0].name));
      assert ToLower("") == "";
      CountMatchesFilter(ps[1..], s);
    }
  }
}
