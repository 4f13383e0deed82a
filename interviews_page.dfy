/**
 * The interviews page: it loads every category once and tags each result
 * with its category, filters the loaded catalogue by a search text, and
 * otherwise fetches the list of the selected category and role. The page's
 * state cells are the fields of `Page`; each effect and handler is a method.
 */
module InterviewsPage {
  import opened Wrappers
  import opened Text
  import opened Query
  import opened Catalogue

  /** `Object.keys(rolesMap)` (index.tsx lines 9-75 and 87), in declaration order. */
  const Categories: seq<string> := [
    "software", "data-science", "finance", "product", "business", "consulting", "writing",
    "design", "legal", "media", "engineering", "statistics", "marketing", "biology", "security"
  ]

  /** An interview of the loaded catalogue, with the category it was fetched for. */
  datatype Tagged = Tagged(iv: Interview, category: string)

  /** `arr.map(iv => ({ ...iv, category: cat }))` (line 95). */
  function Tag(cat: string, arr: seq<Interview>): (r: seq<Tagged>)
    ensures |r| == |arr|
    ensures forall i :: 0 <= i < |arr| ==> r[i].iv == arr[i] && r[i].category == cat
  {
    seq(|arr|, i requires 0 <= i < |arr| => Tagged(arr[i], cat))
  }

  /** `chunks.flat()` of the tagged chunks, one per category, in category order (lines 91-97). */
  function TagAll(cats: seq<string>, chunks: seq<seq<Interview>>): seq<Tagged>
    requires |cats| == |chunks|
  {
    if cats == [] then [] else Tag(cats[0], chunks[0]) + TagAll(cats[1..], chunks[1..])
  }

  /** An element of the loaded catalogue is exactly an interview of some chunk, tagged with that chunk's category. */
  lemma {:induction false} TagAllMembers(cats: seq<string>, chunks: seq<seq<Interview>>, x: Tagged)
    requires |cats| == |chunks|
    ensures x in TagAll(cats, chunks) <==> exists i :: 0 <= i < |cats| && x.category == cats[i] && x.iv in chunks[i]
  {
    if cats != [] {
      TagAllMembers(cats[1..], chunks[1..], x);
      var head := Tag(cats[0], chunks[0]);
      assert x in head <==> x.category == cats[0] && x.iv in chunks[0] by {
        if x.category == cats[0] && x.iv in chunks[0] {
          var j :| 0 <= j < |chunks[0]| && chunks[0][j] == x.iv;
          assert head[j] == x;
        }
      }
      if exists i :: 0 <= i < |cats| && x.category == cats[i] && x.iv in chunks[i] {
        var i :| 0 <= i < |cats| && x.category == cats[i] && x.iv in chunks[i];
        if i > 0 {
          assert x.category == cats[1..][i - 1] && x.iv in chunks[1..][i - 1];
        }
      }
      if x in TagAll(cats[1..], chunks[1..]) {
        var i :| 0 <= i < |cats| - 1 && x.category == cats[1..][i] && x.iv in chunks[1..][i];
        assert x.category == cats[i + 1] && x.iv in chunks[i + 1];
      }
    }
  }

  /** The total size of the chunks. */
  function TotalSize(chunks: seq<seq<Interview>>): nat {
    if chunks == [] then 0 else |chunks[0]| + TotalSize(chunks[1..])
  }

  /** Tagging loses no interview: the catalogue is as long as the chunks together. */
  lemma {:induction false} TagAllLength(cats: seq<string>, chunks: seq<seq<Interview>>)
    requires |cats| == |chunks|
    ensures |TagAll(cats, chunks)| == TotalSize(chunks)
  {
    if cats != [] {
      TagAllLength(cats[1..], chunks[1..]);
    }
  }

  /** The search test of lines 105-108: the query occurs in the lower-cased title, or in the lower-cased subtitle when there is one. */
  predicate MatchesQuery(iv: Interview, q: string) {
    Contains(Lower(iv.title), q) || (iv.subtitle.Some? && Contains(Lower(iv.subtitle.value), q))
  }

  /** `allInterviews.filter(...)`: the matching interviews, in catalogue order. */
  function Matches(all: seq<Tagged>, q: string): (ms: seq<Tagged>)
    ensures forall k :: 0 <= k < |ms| ==> ms[k] in all && MatchesQuery(ms[k].iv, q)
  {
    if all == [] then []
    else if MatchesQuery(all[0].iv, q) then [all[0]] + Matches(all[1..], q)
    else Matches(all[1..], q)
  }

  /** Every matching interview of the catalogue is among the matches. */
  lemma {:induction false} MatchesComplete(all: seq<Tagged>, q: string, x: Tagged)
    requires x in all && MatchesQuery(x.iv, q)
    ensures x in Matches(all, q)
  {
    if all[0] != x {
      MatchesComplete(all[1..], q, x);
    }
  }

  /** Filtering keeps the order: the matches of a concatenation are the concatenated matches. */
  lemma {:induction false} MatchesAppend(a: seq<Tagged>, b: seq<Tagged>, q: string)
    ensures Matches(a + b, q) == Matches(a, q) + Matches(b, q)
  {
    if a == [] {
      assert a + b == b;
    } else {
      assert (a + b)[0] == a[0] && (a + b)[1..] == a[1..] + b;
      MatchesAppend(a[1..], b, q);
    }
  }

  /** An interview without a subtitle can match by its title only. */
  lemma NoSubtitleMatchesByTitle(iv: Interview, q: string)
    requires iv.subtitle.None?
    ensures MatchesQuery(iv, q) <==> Contains(Lower(iv.title), q)
  {
  }

  /** `matches.filter(iv => iv.category === cat)`, shown as interviews (line 115). */
  function InCategory(ms: seq<Tagged>, cat: string): (r: seq<Interview>)
    ensures |r| <= |ms|
  {
    if ms == [] then []
    else if ms[0].category == cat then [ms[0].iv] + InCategory(ms[1..], cat)
    else InCategory(ms[1..], cat)
  }

  /** The shown list holds exactly the interviews of matches in that category. */
  lemma {:induction false} InCategoryMembers(ms: seq<Tagged>, cat: string, iv: Interview)
    ensures iv in InCategory(ms, cat) <==> Tagged(iv, cat) in ms
  {
    if ms != [] {
      InCategoryMembers(ms[1..], cat, iv);
      assert Tagged(iv, cat) in ms <==> ms[0] == Tagged(iv, cat) || Tagged(iv, cat) in ms[1..];
    }
  }

  /** The first match's category always has at least that match to show. */
  lemma FirstMatchShown(ms: seq<Tagged>)
    requires |ms| > 0
    ensures |InCategory(ms, ms[0].category)| >= 1
    ensures InCategory(ms, ms[0].category)[0] == ms[0].iv
  {
  }

  /** What the list area shows: the selected category and role and the shown interviews. */
  datatype View = View(category: string, role: string, shown: seq<Interview>)

  /**
   * The search effect's outcome (lines 101-119). An empty query keeps the
   * view; with matches, the view moves to the first match's category with no
   * role and shows the matches of that category; without, it shows nothing.
   */
  function Search(all: seq<Tagged>, search: string, before: View): (r: View)
    ensures r != before ==> Lower(Trim(search)) != ""
    ensures r.role == before.role || r.role == ""
    ensures r.category == before.category || (r.role == "" && |r.shown| >= 1)
  {
    var q := Lower(Trim(search));
    if q == "" then before
    else
      var ms := Matches(all, q);
      if ms == [] then before.(shown := [])
      else View(ms[0].category, "", InCategory(ms, ms[0].category))
  }

  /** A blank search box changes nothing. */
  lemma SearchBlank(all: seq<Tagged>, search: string, before: View)
    requires Trim(search) == ""
    ensures Search(all, search, before) == before
  {
  }

  /**
   * A search with matches shows exactly the catalogue entries of the first
   * match's category that match the query, and clears the role.
   */
  lemma SearchShown(all: seq<Tagged>, search: string, before: View, iv: Interview)
    requires Lower(Trim(search)) != "" && Matches(all, Lower(Trim(search))) != []
    ensures var after := Search(all, search, before);
      && after.role == ""
      && after.category == Matches(all, Lower(Trim(search)))[0].category
      && (iv in after.shown <==> Tagged(iv, after.category) in all && MatchesQuery(iv, Lower(Trim(search))))
  {
    var q := Lower(Trim(search));
    var ms := Matches(all, q);
    InCategoryMembers(ms, ms[0].category, iv);
    var x := Tagged(iv, ms[0].category);
    if x in all && MatchesQuery(iv, q) {
      MatchesComplete(all, q, x);
    }
  }

  /** A search nothing matches shows nothing and keeps the category and the role. */
  lemma SearchNothing(all: seq<Tagged>, search: string, before: View)
    requires Lower(Trim(search)) != ""
    requires forall k :: 0 <= k < |all| ==> !MatchesQuery(all[k].iv, Lower(Trim(search)))
    ensures Search(all, search, before) == before.(shown := [])
  {
    NoMatches(all, Lower(Trim(search)));
  }

  lemma {:induction false} NoMatches(all: seq<Tagged>, q: string)
    requires forall k :: 0 <= k < |all| ==> !MatchesQuery(all[k].iv, q)
    ensures Matches(all, q) == []
  {
    if all != [] {
      assert forall k :: 0 <= k < |all| - 1 ==> all[1..][k] == all[k + 1];
      NoMatches(all[1..], q);
    }
  }

  /** The parameters of the normal fetch (lines 124-125): the category, and the role when it is not empty. */
  function FetchParams(category: string, role: string): (ps: seq<Param>)
    ensures |ps| == if role == "" then 1 else 2
  {
    [Param("category", category)] + (if role != "" then [Param("role", role)] else [])
  }

  /** The query string of the normal fetch (line 126). */
  function FetchQuery(category: string, role: string): string {
    Serialize(FetchParams(category, role))
  }

  /**
   * The fetch carries the category, and a `role` parameter exactly when the
   * role is not empty (names and values free of `&` and `=` read back as
   * written; percent-encoding is not modelled).
   */
  lemma FetchQueryParams(category: string, role: string)
    requires '&' !in category && '&' !in role
    ensures Parse(FetchQuery(category, role)) == FetchParams(category, role)
    ensures Parse(FetchQuery(category, role))[0] == Param("category", category)
    ensures Has(Parse(FetchQuery(category, role)), "role") <==> role != ""
  {
    var ps := FetchParams(category, role);
    assert WellFormed(ps[0]);
    assert AllWellFormed(ps);
    ParseSerialize(ps);
    if role == "" {
      assert ps == [Param("category", category)];
      assert !Has(ps, "role") by { assert ps[0].name != "role"; }
    } else {
      assert ps[1].name == "role";
    }
  }

  /** The page header (lines 137-140): the capitalized category, then ` - ` and the capitalized role when there is one. */
  function Header(category: string, role: string): (r: string)
    ensures |r| >= |category| + 16
    ensures role != "" <==> |r| > |category| + 16
    ensures role != "" ==> OccursAt(r, " - ", |category|)
  {
    CapitalizeKeepsLetters(category);
    CapitalizeKeepsLetters(role);
    var r := Capitalize(category) + (if role != "" then " - " + Capitalize(role) else "") + " Mock Interviews";
    assert role != "" ==> r[|category|..|category| + 3] == " - ";
    r
  }

  /** The header names the category and the role up to the case of their first letter. */
  lemma HeaderNames(category: string, role: string)
    ensures var h := Header(category, role);
      |h| >= |category| + 16 && h[..|category|] == Capitalize(category) && h[|h| - 16..] == " Mock Interviews"
    ensures role != "" ==> OccursAt(Header(category, role), Capitalize(role), |category| + 3)
    ensures Lower(Capitalize(category)) == Lower(category) && Lower(Capitalize(role)) == Lower(role)
    ensures |Header(category, role)| == |category| + (if role == "" then 0 else 3 + |role|) + 16
  {
    CapitalizeKeepsLetters(category);
    CapitalizeKeepsLetters(role);
  }

  class Page {
    var category: string
    var role: string
    var search: string
    var allInterviews: seq<Tagged>
    var interviews: seq<Interview>
    /** The query strings of the normal fetches issued, in order. */
    var requests: seq<string>

    /** The initial state cells (lines 81-85). */
    constructor ()
      ensures category == "software" && role == "" && search == ""
      ensures allInterviews == [] && interviews == [] && requests == []
    {
      category, role, search := "software", "", "";
      allInterviews, interviews, requests := [], [], [];
    }

    /** The search effect (lines 101-119): the view becomes what `Search` makes of it. */
    method SearchEffect()
      modifies this`category, this`role, this`interviews
      ensures View(category, role, interviews) == Search(allInterviews, search, View(old(category), old(role), old(interviews)))
    {
      var after := Search(allInterviews, search, View(category, role, interviews));
      category, role, interviews := after.category, after.role, after.shown;
      assert View(category, role, interviews) == after;
    }

    /** The normal-fetch effect (lines 122-129): it fetches only while the trimmed search is empty. */
    method FetchEffect()
      modifies this`requests
      ensures requests == old(requests) + (if Trim(search) == "" then [FetchQuery(category, role)] else [])
    {
      if Trim(search) == "" {
        requests := requests + [FetchQuery(category, role)];
      }
    }

    /** A normal fetch answers (line 128): its list is shown. */
    method FetchResolved(data: seq<Interview>)
      modifies this`interviews
      ensures interviews == data
    {
      interviews := data;
    }

    /**
     * Every category's list has arrived (lines 91-97): the catalogue is
     * their tagged concatenation, and the search effect, which depends on
     * it, runs again.
     */
    method LoadResolved(chunks: seq<seq<Interview>>)
      requires |chunks| == |Categories|
      modifies this`allInterviews, this`category, this`role, this`interviews
      ensures allInterviews == TagAll(Categories, chunks)
      ensures View(category, role, interviews) == Search(allInterviews, search, View(old(category), old(role), old(interviews)))
    {
      allInterviews := TagAll(Categories, chunks);
      SearchEffect();
    }

    /** Both effects that depend on the search, in declaration order. */
    method SearchEffects()
      modifies this`category, this`role, this`interviews, this`requests
      ensures View(category, role, interviews) == Search(allInterviews, search, View(old(category), old(role), old(interviews)))
      ensures requests == old(requests) + (if Trim(search) == "" then [FetchQuery(category, role)] else [])
    {
      SearchEffect();
      FetchEffect();
    }

    /**
     * The search box changes (line 155). A new value re-runs the search
     * effect and then the fetch effect; the same value renders nothing. A
     * match leaves the search non-empty, so the fetch effect that its
     * category and role changes trigger once more fetches nothing.
     */
    method SearchTyped(s: string)
      modifies this`search, this`category, this`role, this`interviews, this`requests
      ensures search == s
      ensures s == old(search) ==> unchanged(this)
      ensures s != old(search) ==> View(category, role, interviews) == Search(allInterviews, s, View(old(category), old(role), old(interviews)))
      ensures s != old(search) ==> requests == old(requests) + (if Trim(s) == "" then [FetchQuery(category, role)] else [])
    {
      var same := s == search;
      search := s;
      if !same {
        SearchEffects();
      }
    }

    /**
     * A category is chosen in the navigation (line 169): the role and the
     * search are cleared. The search effect then has an empty query, and the
     * fetch effect runs when any of its inputs changed.
     */
    method CategorySelected(c: string)
      modifies this`category, this`role, this`search, this`requests
      ensures category == c && role == "" && search == ""
      ensures requests == old(requests) + (if c == old(category) && old(role) == "" && old(search) == "" then [] else [FetchQuery(c, "")])
    {
      var same := c == category && role == "" && search == "";
      category, role, search := c, "", "";
      if !same {
        FetchEffect();
      }
    }

    /** A role is chosen (line 172): the search is cleared and the fetch effect runs when an input changed. */
    method RoleSelected(r: string)
      modifies this`role, this`search, this`requests
      ensures role == r && search == ""
      ensures requests == old(requests) + (if r == old(role) && old(search) == "" then [] else [FetchQuery(category, r)])
    {
      var same := r == role && search == "";
      role, search := r, "";
      if !same {
        FetchEffect();
      }
    }
  }
}
