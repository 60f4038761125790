/**
 * The top bar: the page search over a fixed table of pages and their
 * keywords, ranked by how well each word matches, and the initials on the
 * user chip.
 */
module TopBar {
  import opened Wrappers
  import opened Strings
  import opened Lists
  import opened Sorting
  import opened Auth

  /** A page that the search can find. */
  datatype NavItem = NavItem(name: string, path: string, keywords: seq<string>)

  const NavItems: seq<NavItem> := [
    NavItem("Home", "/dashboard", ["home", "dashboard", "main", "start"]),
    NavItem("Calendar", "/calendar", ["calendar", "schedule", "dates", "events"]),
    NavItem("Notes", "/notes", ["notes", "memo", "write", "journal"]),
    NavItem("Work Hours", "/work-hours", ["work", "hours", "earnings", "income", "expenses", "salary"]),
    NavItem("Goals", "/goals", ["goals", "target", "plan", "objectives"]),
    NavItem("Habits", "/habits", ["habits", "habit", "tracker", "streak", "daily", "routine"]),
    NavItem("Focus", "/focus", ["focus", "pomodoro", "timer", "study", "deep work", "sessions"]),
    NavItem("Analytics", "/analytics", ["analytics", "stats", "statistics", "insights", "report", "charts"])
  ]

  // ---------------------------------------------------------------- normalising

  /** `normalize`: trimmed and lower-cased. */
  function Normalize(s: string): (r: string)
    ensures r == [] || (!IsSpace(r[0]) && !IsSpace(r[|r| - 1]))
    ensures forall k :: 0 <= k < |r| ==> !IsUpperAscii(r[k])
  {
    Lower(Trim(s))
  }

  /** Normalising twice is normalising once. */
  lemma NormalizeIdempotent(s: string)
    ensures Normalize(Normalize(s)) == Normalize(s)
  {
    var n := Normalize(s);
    TrimOfTrimmed(n);
    LowerIdempotent(Trim(s));
  }

  // ---------------------------------------------------------------- scoring

  /** The texts an item is matched on: its name and its keywords, normalised. */
  function Hay(item: NavItem): (r: seq<string>)
    ensures |r| == |item.keywords| + 1 && r[0] == Normalize(item.name)
    ensures forall k :: 0 <= k < |item.keywords| ==> r[k + 1] == Normalize(item.keywords[k])
  {
    [Normalize(item.name)] + seq(|item.keywords|, k requires 0 <= k < |item.keywords| => Normalize(item.keywords[k]))
  }

  /** One text's points: 100 for the whole text, else 30 for its start, else 10 for any part of it. */
  function EntryScore(h: string, query: string): (n: nat)
    ensures n == 100 <==> h == query
    ensures n == 30 <==> h != query && StartsWith(h, query)
    ensures n == 10 <==> !StartsWith(h, query) && Contains(h, query)
    ensures n == 0 <==> !Contains(h, query)
  {
    if h == query then PrefixContained(h, query); 100
    else if StartsWith(h, query) then PrefixContained(h, query); 30
    else if Contains(h, query) then 10
    else 0
  }

  /** A text starting with the query contains it. */
  lemma PrefixContained(h: string, query: string)
    requires StartsWith(h, query)
    ensures Contains(h, query)
  {
    assert OccursAt(h, query, 0);
    ContainsAt(h, query, 0);
  }

  /** The points of the first `n` texts, added up in order. */
  function Points(hay: seq<string>, n: nat, query: string): (p: nat)
    requires n <= |hay|
  {
    if n == 0 then 0 else Points(hay, n - 1, query) + EntryScore(hay[n - 1], query)
  }

  /** An item's points: those of all its texts. */
  function Score(hay: seq<string>, query: string): (p: nat)
  {
    Points(hay, |hay|, query)
  }

  /** The first `n` texts score when, and only when, one of them contains the query. */
  lemma {:induction false} PointsPositive(hay: seq<string>, n: nat, query: string)
    requires n <= |hay|
    ensures Points(hay, n, query) > 0 <==> exists k :: 0 <= k < n && Contains(hay[k], query)
  {
    if n > 0 {
      PointsPositive(hay, n - 1, query);
    }
  }

  /** An item scores when, and only when, one of its texts contains the query. */
  lemma ScorePositive(hay: seq<string>, query: string)
    ensures Score(hay, query) > 0 <==> exists k :: 0 <= k < |hay| && Contains(hay[k], query)
  {
    PointsPositive(hay, |hay|, query);
  }

  /** A text equal to the query alone gives 100 points, more than any mix of partial matches in a table this small. */
  lemma {:induction false} ExactMatchPoints(hay: seq<string>, n: nat, query: string, k: nat)
    requires k < n <= |hay| && hay[k] == query
    ensures Points(hay, n, query) >= 100
  {
    if k < n - 1 {
      ExactMatchPoints(hay, n - 1, query, k);
    }
  }

  /** `scoreItem`: the points of the item's name and keywords for the query. */
  method ItemScore(item: NavItem, query: string) returns (score: nat)
    ensures score == Score(Hay(item), query)
  {
    score := HayScore(Hay(item), query);
  }

  /** The `for (const h of hay)` loop: each text's points added up in order. */
  method HayScore(hay: seq<string>, query: string) returns (score: nat)
    ensures score == Score(hay, query)
  {
    score := 0;
    var i := 0;
    while i < |hay|
      invariant 0 <= i <= |hay|
      invariant score == Points(hay, i, query)
    {
      var h := hay[i];
      ghost var before := score;
      if h == query {
        score := score + 100;
      } else if StartsWith(h, query) {
        score := score + 30;
      } else if Contains(h, query) {
        score := score + 10;
      }
      assert score == before + EntryScore(h, query);
      i := i + 1;
    }
  }

  // ---------------------------------------------------------------- results

  /** An item with its points. */
  datatype Scored = Scored(item: NavItem, score: nat)

  function ScoreOf(x: Scored): int { x.score }

  function Positive(x: Scored): bool { x.score > 0 }

  function ItemOf(x: Scored): NavItem { x.item }

  /** Every page with its points for the query, in table order. */
  function AllScored(query: string): (r: seq<Scored>)
    ensures |r| == |NavItems|
    ensures forall k :: 0 <= k < |r| ==> r[k] == Scored(NavItems[k], Score(Hay(NavItems[k]), query))
  {
    seq(|NavItems|, k requires 0 <= k < |NavItems| => Scored(NavItems[k], Score(Hay(NavItems[k]), query)))
  }

  /** The scoring pages, best first; pages with equal points keep their table order. */
  function Ranked(query: string): (r: seq<Scored>)
  {
    SortBy(Filter(AllScored(query), Positive), ScoreOf, Descending)
  }

  /** `results`: nothing for a blank query, else the six best pages. */
  function Results(q: string): (r: seq<NavItem>)
    ensures |r| <= 6
    ensures Normalize(q) == [] ==> r == []
  {
    var query := Normalize(q);
    if query == [] then [] else Items(Take(Ranked(query), 6))
  }

  /** `.map((x) => x.item)`. */
  function Items(xs: seq<Scored>): (r: seq<NavItem>)
    ensures |r| == |xs| && forall k :: 0 <= k < |xs| ==> r[k] == xs[k].item
  {
    seq(|xs|, k requires 0 <= k < |xs| => xs[k].item)
  }

  /**
   * What the ranking promises: only pages that score, each with its true
   * points, best first, ties in table order, and every scoring page when
   * there are at most six.
   */
  lemma RankedFacts(query: string)
    ensures var r := Ranked(query);
      && (forall k :: 0 <= k < |r| ==> r[k].score > 0 && r[k] in AllScored(query))
      && SortedBy(r, ScoreOf, Descending)
      && (forall c: int :: WithKey(r, ScoreOf, c) == WithKey(Filter(AllScored(query), Positive), ScoreOf, c))
      && multiset(r) == multiset(Filter(AllScored(query), Positive))
  {
    var f := Filter(AllScored(query), Positive);
    var r := Ranked(query);
    DescendingIsStrictTotal();
    SortSorted(f, ScoreOf, Descending);
    forall c: int ensures WithKey(r, ScoreOf, c) == WithKey(f, ScoreOf, c) {
      SortStable(f, ScoreOf, Descending, c);
    }
    forall k | 0 <= k < |r| ensures r[k].score > 0 && r[k] in AllScored(query) {
      assert r[k] in multiset(r);
      assert r[k] in f;
    }
  }

  /** Each result is a page whose name or a keyword contains the query. */
  lemma ResultsMatch(q: string, k: nat)
    requires k < |Results(q)|
    ensures Results(q)[k] in NavItems
    ensures exists j :: 0 <= j < |Hay(Results(q)[k])| && Contains(Hay(Results(q)[k])[j], Normalize(q))
  {
    var query := Normalize(q);
    RankedFacts(query);
    var top := Take(Ranked(query), 6);
    var x := top[k];
    assert x == Ranked(query)[k];
    var i :| 0 <= i < |AllScored(query)| && AllScored(query)[i] == x;
    ScorePositive(Hay(x.item), query);
  }

  // ---------------------------------------------------------------- the bar

  /** The name on the chip: the user's name trimmed, or "User". */
  function EffectiveName(name: string): (r: string)
    ensures r != []
  {
    if Trim(name) == [] then "User" else Trim(name)
  }

  /** `split(/\s+/)` of a trimmed text: its runs of non-blank characters, in order. */
  function WordsOf(s: string): (r: seq<string>)
    ensures forall k :: 0 <= k < |r| ==> r[k] != []
  {
    Filter(Split(Collapse(s), ' '), (w: string) => w != [])
  }

  /** `initials`: "U" for a blank name, else the upper-cased first letters of the first two words. */
  function Initials(name: string): (r: string)
    ensures IsBlank(name) ==> r == "U"
    ensures !IsBlank(name) ==> |r| <= 2 && |r| == |Take(WordsOf(Trim(name)), 2)|
    ensures !IsBlank(name) ==> forall k :: 0 <= k < |r| ==> r[k] == UpperChar(WordsOf(Trim(name))[k][0])
  {
    if IsBlank(name) then "U" else FirstLetters(Take(WordsOf(Trim(name)), 2))
  }

  /** The search box. */
  class SearchBar {
    var q: string
    var open: bool
    var path: string

    constructor(path: string)
      ensures q == "" && !open && this.path == path
    {
      q := "";
      open := false;
      this.path := path;
    }

    method Type(text: string)
      modifies this`q, this`open
      ensures q == text && open
    {
      q := text;
      open := true;
    }

    /** `submit`: with results, go to the first one, close the list and clear the query; otherwise nothing. */
    method Submit()
      modifies this`q, this`open, this`path
      ensures Results(old(q)) == [] ==> q == old(q) && open == old(open) && path == old(path)
      ensures Results(old(q)) != [] ==> path == Results(old(q))[0].path && !open && q == ""
    {
      var results := Results(q);
      if |results| > 0 {
        path := results[0].path;
        open := false;
        q := "";
      }
    }

    /** A change of page closes the list. */
    method Navigated(to: string)
      modifies this`path, this`open
      ensures path == to && !open
    {
      path := to;
      open := false;
    }
  }
}
