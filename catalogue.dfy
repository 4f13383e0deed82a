/**
 * The catalogue endpoint `/api/interviews`: a two-level table from category
 * to role to interviews, looked up by a normalized category (with a fallback
 * to software) and an exact role (with a fallback to every role of the
 * category).
 */
module Catalogue {
  import opened Wrappers
  import opened Text

  /** An interview as the card shows it. */
  datatype Interview = Interview(id: string, title: string, subtitle: Option<string>, duration: string, level: string)

  /** A record in declaration order: its keys and their values. */
  type Entries<V> = seq<(string, V)>

  /** One category: its roles and their interviews. */
  type Group = Entries<seq<Interview>>

  predicate HasKey<V>(entries: Entries<V>, key: string) {
    exists k :: 0 <= k < |entries| && entries[k].0 == key
  }

  /** `record[key]`: the value of the first entry with that key. */
  function Lookup<V>(entries: Entries<V>, key: string): (r: Option<V>)
    ensures r.Some? <==> HasKey(entries, key)
    ensures r.Some? ==> exists k :: 0 <= k < |entries| && entries[k] == (key, r.value)
  {
    if entries == [] then None
    else if entries[0].0 == key then Some(entries[0].1)
    else
      var r := Lookup(entries[1..], key);
      assert r.Some? ==> entries[1..][0..|entries| - 1] == entries[1..];
      r
  }

  /** A query parameter as the framework delivers it: absent, one value, or repeated. */
  datatype QueryValue = Absent | One(value: string) | Many(values: seq<string>)

  /** `Array.isArray(p) ? p[0] : p` (lines 326-327). */
  function First(q: QueryValue): (r: Option<string>)
    ensures q.One? ==> r == Some(q.value)
    ensures q.Many? ==> (r.Some? <==> |q.values| > 0) && (r.Some? ==> r.value == q.values[0])
    ensures q.Absent? ==> r.None?
  {
    match q
    case Absent => None
    case One(v) => Some(v)
    case Many(vs) => if |vs| > 0 then Some(vs[0]) else None
  }

  /**
   * `trim().toLowerCase().replace(/\s+/g, '-')` (line 331): never longer than
   * the parameter, and empty exactly when the parameter is blank.
   */
  function Normalize(s: string): (r: string)
    ensures |r| <= |s|
    ensures r == "" <==> Trim(s) == ""
  {
    DashSpacesLength(Lower(Trim(s)));
    DashSpaces(Lower(Trim(s)))
  }

  /** A key is lower case and has no white space left. */
  lemma NormalizeShape(s: string)
    ensures NoSpace(Normalize(s)) && AllLowered(Normalize(s))
  {
    LowerLowered(Trim(s));
    DashSpacesShape(Lower(Trim(s)));
  }

  /** The category key (lines 330-332): an absent or empty parameter means software. */
  function CategoryKey(category: Option<string>): string {
    if category.Some? && category.value != "" then Normalize(category.value) else "software"
  }

  /** A table with the software category, the one every unknown key falls back to. */
  predicate HasFallback(table: Entries<Group>) {
    HasKey(table, "software")
  }

  /** The roles group (lines 335-336), with the software group when the key is unknown. */
  function RolesGroup(table: Entries<Group>, key: string): (g: Group)
    requires HasFallback(table)
    ensures HasKey(table, key) ==> Some(g) == Lookup(table, key)
    ensures !HasKey(table, key) ==> Some(g) == Lookup(table, "software")
  {
    match Lookup(table, key)
    case Some(g) => g
    case None => Lookup(table, "software").value
  }

  /** `Object.values(group).flat()`: the role lists concatenated in declaration order. */
  function Flatten(group: Group): seq<Interview> {
    if group == [] then [] else group[0].1 + Flatten(group[1..])
  }

  /** Lines 340-346: a non-empty role that is a key of the group selects its list; otherwise all of them. */
  function Select(group: Group, role: Option<string>): (r: seq<Interview>)
    ensures forall x :: x in r ==> x in Flatten(group)
    ensures role.None? || role == Some("") ==> r == Flatten(group)
  {
    if role.Some? && role.value != "" && Lookup(group, role.value).Some? then
      var v := Lookup(group, role.value).value;
      assert forall x :: x in v ==> x in Flatten(group) by {
        forall x | x in v
          ensures x in Flatten(group)
        {
          FlattenMembers(group, x);
        }
      }
      v
    else Flatten(group)
  }

  datatype Response = Response(status: nat, body: seq<Interview>)

  /** The handler (lines 322-349) over a table; every request is answered with 200. */
  function Handler(table: Entries<Group>, category: QueryValue, role: QueryValue): (r: Response)
    requires HasFallback(table)
    ensures r.status == 200
  {
    Response(200, Select(RolesGroup(table, CategoryKey(First(category))), First(role)))
  }

  /** The group a request is answered from. */
  function GroupOf(table: Entries<Group>, category: QueryValue): Group
    requires HasFallback(table)
  {
    RolesGroup(table, CategoryKey(First(category)))
  }

  /** The total length of a group's role lists. */
  function TotalLength(group: Group): nat {
    if group == [] then 0 else |group[0].1| + TotalLength(group[1..])
  }

  /** Normalizing a key again changes nothing. */
  lemma NormalizeIdempotent(s: string)
    ensures Normalize(Normalize(s)) == Normalize(s)
  {
    var key := Normalize(s);
    NormalizeShape(s);
    TrimOfNoSpace(key);
    LowerOfLowered(key);
    DashSpacesOfNoSpace(key);
  }

  lemma LowerDataScience()
    ensures Lower(Trim("Data" + " " + "Science")) == "data" + (" " + "science")
  {
    calc {
      Lower(Trim("Data" + " " + "Science"));
      { TrimDataScience(); }
      Lower("Data" + " " + "Science");
      { assert "Data" + " " + "Science" == "Data" + (" " + "Science"); }
      Lower("Data" + (" " + "Science"));
      { LowerAppend("Data", " " + "Science"); LowerAppend(" ", "Science"); }
      Lower("Data") + (Lower(" ") + Lower("Science"));
      { LowerWords(); }
      "data" + (" " + "science");
    }
  }

  lemma LowerWords()
    ensures Lower("Data") == "data" && Lower(" ") == " " && Lower("Science") == "science"
  {
  }

  lemma TrimDataScience()
    ensures Trim("Data" + " " + "Science") == "Data" + " " + "Science"
  {
    var s := "Data" + " " + "Science";
    assert s[0] == 'D' && s[|s| - 1] == 'e';
    assert TrimStart(s) == s;
    assert TrimEnd(s) == s;
  }

  lemma DashDataScience()
    ensures DashSpaces("data" + (" " + "science")) == "data" + "-" + "science"
  {
    var word, rest := "data", " " + "science";
    assert NoSpace("science") && NoSpace(word);
    calc {
      DashSpaces(word + rest);
      { DashSpacesPrefix(word, rest); }
      word + DashSpaces(rest);
      { DashLeadingSpace("science"); }
      word + ("-" + "science");
    }
  }

  /** The example of the source's comment: "Data Science" becomes "data-science". */
  lemma NormalizeDataScience()
    ensures Normalize("Data" + " " + "Science") == "data" + "-" + "science"
  {
    LowerDataScience();
    DashDataScience();
  }

  lemma NormalizeSoftware()
    ensures Normalize("software") == "software"
  {
    assert NoSpace("software");
    TrimOfNoSpace("software");
    LowerOfLowered("software");
    DashSpacesOfNoSpace("software");
  }

  /** Requests that normalize to the same category key get the same answer. */
  lemma SameKeySameAnswer(table: Entries<Group>, c1: QueryValue, c2: QueryValue, role: QueryValue)
    requires HasFallback(table)
    requires CategoryKey(First(c1)) == CategoryKey(First(c2))
    ensures Handler(table, c1, role) == Handler(table, c2, role)
  {
  }

  /** A request without a usable category parameter, absent, empty or an empty list, is a software request. */
  lemma NoCategoryIsSoftware(table: Entries<Group>, category: QueryValue, role: QueryValue)
    requires HasFallback(table)
    requires First(category).None? || First(category) == Some("")
    ensures Handler(table, category, role) == Handler(table, One("software"), role)
  {
    SoftwareKey();
    SameKeySameAnswer(table, category, One("software"), role);
  }

  lemma SoftwareKey()
    ensures CategoryKey(First(One("software"))) == "software"
  {
    NormalizeSoftware();
  }

  /** A category whose key is not in the table is answered as software. */
  lemma UnknownCategoryFallsBack(table: Entries<Group>, category: QueryValue, role: QueryValue)
    requires HasFallback(table)
    requires !HasKey(table, CategoryKey(First(category)))
    ensures Handler(table, category, role) == Handler(table, Absent, role)
  {
  }

  /** A repeated parameter counts with its first value only. */
  lemma FirstValueCounts(table: Entries<Group>, c: string, cs: seq<string>, r: string, rs: seq<string>)
    requires HasFallback(table)
    ensures Handler(table, Many([c] + cs), Many([r] + rs)) == Handler(table, One(c), One(r))
  {
  }

  /** A role that is a key of the chosen group gets exactly its list, in table order. */
  lemma KnownRole(table: Entries<Group>, category: QueryValue, role: string)
    requires HasFallback(table)
    requires role != "" && HasKey(GroupOf(table, category), role)
    ensures exists k :: 0 <= k < |GroupOf(table, category)| && GroupOf(table, category)[k] == (role, Handler(table, category, One(role)).body)
  {
  }

  /** A missing, empty or unknown role gets every list of the group, in declaration order. */
  lemma AllRoles(table: Entries<Group>, category: QueryValue, role: QueryValue)
    requires HasFallback(table)
    requires First(role).None? || First(role) == Some("") || !HasKey(GroupOf(table, category), First(role).value)
    ensures Handler(table, category, role).body == Flatten(GroupOf(table, category))
    ensures |Handler(table, category, role).body| == TotalLength(GroupOf(table, category))
  {
    FlattenLength(GroupOf(table, category));
  }

  /** The flattened group is as long as its role lists together. */
  lemma {:induction false} FlattenLength(group: Group)
    ensures |Flatten(group)| == TotalLength(group)
  {
    if group != [] {
      FlattenLength(group[1..]);
    }
  }

  /** An interview is in the flattened group exactly when it is in one of the role lists. */
  lemma {:induction false} FlattenMembers(group: Group, x: Interview)
    ensures x in Flatten(group) <==> exists k :: 0 <= k < |group| && x in group[k].1
  {
    if group != [] {
      FlattenMembers(group[1..], x);
      if x in Flatten(group[1..]) {
        var k :| 0 <= k < |group| - 1 && x in group[1..][k].1;
        assert x in group[k + 1].1;
      }
      if exists k :: 0 <= k < |group| && x in group[k].1 {
        var k :| 0 <= k < |group| && x in group[k].1;
        if k > 0 {
          assert x in group[1..][k - 1].1;
        }
      }
    }
  }
}
