/** The coaching-cue list (src/components/sessions/IssuesPanel.tsx): issues
    shown most severe first, by a stable sort on a copy of the list. */
module IssuesPanel {
  import opened SessionTypes
  import opened StableSort

  /** The comparator's order: `high` 0, `medium` 1, `low` 2. */
  function SeverityRank(s: Severity): (r: nat)
    ensures r <= 2
    ensures s == High <==> r == 0
    ensures s == Medium <==> r == 1
    ensures s == Low <==> r == 2
  {
    match s
    case High => 0
    case Medium => 1
    case Low => 2
  }

  function RankKey(i: Issue): real {
    SeverityRank(i.severity) as real
  }

  /** `[...issues].sort((a, b) => order[a.severity] - order[b.severity])`:
      a permutation of the issues, most severe first, issues of one
      severity in their input order. */
  function SortBySeverity(issues: seq<Issue>): (r: seq<Issue>)
    ensures |r| == |issues| && multiset(r) == multiset(issues)
    ensures forall i, j :: 0 <= i < j < |r| ==> SeverityRank(r[i].severity) <= SeverityRank(r[j].severity)
    ensures forall sev :: OfSeverity(r, sev) == OfSeverity(issues, sev)
  {
    var r := SortBy(issues, RankKey);
    assert |r| == |multiset(r)|;
    SortBySorted(issues, RankKey);
    assert SortedBy(r, RankKey);
    forall sev ensures OfSeverity(r, sev) == OfSeverity(issues, sev) {
      SortByStable(issues, RankKey, SeverityRank(sev) as real);
      OfSeverityIsWithKey(r, sev);
      OfSeverityIsWithKey(issues, sev);
    }
    r
  }

  /** The issues of one severity, in input order. */
  function OfSeverity(issues: seq<Issue>, sev: Severity): (r: seq<Issue>)
    ensures forall i :: 0 <= i < |r| ==> r[i].severity == sev
  {
    if issues == [] then []
    else (if issues[0].severity == sev then [issues[0]] else []) + OfSeverity(issues[1..], sev)
  }

  lemma {:induction false} OfSeverityIsWithKey(issues: seq<Issue>, sev: Severity)
    ensures OfSeverity(issues, sev) == WithKey(issues, RankKey, SeverityRank(sev) as real)
  {
    if issues != [] {
      OfSeverityIsWithKey(issues[1..], sev);
    }
  }

  /** A list of one severity selects to itself at its own rank and to
      nothing at any other. */
  lemma {:induction false} WithKeyOfBand(s: seq<Issue>, sev: Severity, k: real)
    requires forall i :: 0 <= i < |s| ==> s[i].severity == sev
    ensures WithKey(s, RankKey, k) == if k == SeverityRank(sev) as real then s else []
  {
    if s != [] {
      WithKeyOfBand(s[1..], sev, k);
    }
  }

  lemma BandSorted(s: seq<Issue>, sev: Severity)
    requires forall i :: 0 <= i < |s| ==> s[i].severity == sev
    ensures SortedBy(s, RankKey)
  {
  }

  /** The three bands select, at every rank, what the issues select. */
  lemma BandsWithKey(issues: seq<Issue>, k: real)
    ensures WithKey(OfSeverity(issues, High) + OfSeverity(issues, Medium) + OfSeverity(issues, Low), RankKey, k)
         == WithKey(issues, RankKey, k)
  {
    var h, m, l := OfSeverity(issues, High), OfSeverity(issues, Medium), OfSeverity(issues, Low);
    WithKeyAppend(h + m, l, RankKey, k);
    WithKeyAppend(h, m, RankKey, k);
    WithKeyOfBand(h, High, k);
    WithKeyOfBand(m, Medium, k);
    WithKeyOfBand(l, Low, k);
    if k == 0.0 {
      OfSeverityIsWithKey(issues, High);
    } else if k == 1.0 {
      OfSeverityIsWithKey(issues, Medium);
    } else if k == 2.0 {
      OfSeverityIsWithKey(issues, Low);
    } else {
      WithKeyOffRank(issues, k);
    }
  }

  /** No issue has a rank other than 0, 1 or 2. */
  lemma {:induction false} WithKeyOffRank(issues: seq<Issue>, k: real)
    requires k != 0.0 && k != 1.0 && k != 2.0
    ensures WithKey(issues, RankKey, k) == []
  {
    if issues != [] {
      WithKeyOffRank(issues[1..], k);
    }
  }

  /** The sorted list is the high issues, then the medium ones, then the
      low ones, each band in input order. */
  lemma SortBySeverityIsBands(issues: seq<Issue>)
    ensures SortBySeverity(issues) == OfSeverity(issues, High) + OfSeverity(issues, Medium) + OfSeverity(issues, Low)
  {
    var h, m, l := OfSeverity(issues, High), OfSeverity(issues, Medium), OfSeverity(issues, Low);
    var bands := h + m + l;
    BandSorted(h, High);
    BandSorted(m, Medium);
    BandSorted(l, Low);
    SortedAppend(h, m, RankKey);
    SortedAppend(h + m, l, RankKey);
    forall k ensures WithKey(SortBy(issues, RankKey), RankKey, k) == WithKey(bands, RankKey, k) {
      SortByStable(issues, RankKey, k);
      BandsWithKey(issues, k);
    }
    SortBySorted(issues, RankKey);
    StableSortUnique(SortBy(issues, RankKey), bands, RankKey);
  }
}
