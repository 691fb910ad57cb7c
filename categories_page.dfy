/** The search box of the categories page: which categories are listed, with
    which subcategories, and which are expanded. */
module CategoriesPage {
  import opened Js
  import opened Text

  datatype Subcategory = Subcategory(id: int, name: string)

  /** A category as loaded; its subcategory list may be missing. */
  datatype Category = Category(id: int, name: string, subcategories: Option<seq<Subcategory>>)

  /** A listed category: the category with its subcategory list as shown,
      and whether it is forced open (`_forceOpen`). */
  datatype Shown = Shown(category: Category, forceOpen: bool)

  /** The search text as matched: trimmed, then lower-cased. */
  function Query(search: string): string
  {
    ToLower(Trim(search))
  }

  /** The rule for categories and subcategories alike: the lower-cased name
      contains the query, or the id's decimal form is the query. */
  predicate MatchesQuery(name: string, id: int, q: string)
  {
    Contains(ToLower(name), q) || IntToString(id) == q
  }

  /** The subcategories that match, in their order. */
  function MatchedSubs(subs: seq<Subcategory>, q: string): (r: seq<Subcategory>)
    ensures IsSubsequence(r, subs)
    ensures forall i :: 0 <= i < |r| ==> MatchesQuery(r[i].name, r[i].id, q)
    ensures forall s :: s in subs && MatchesQuery(s.name, s.id, q) ==> s in r
  {
    if subs == [] then []
    else
      var rest := MatchedSubs(subs[1..], q);
      assert subs == [subs[0]] + subs[1..];
      if MatchesQuery(subs[0].name, subs[0].id, q) then
        [subs[0]] + rest
      else
        SubsequenceConsSkip(rest, subs[0], subs[1..]);
        rest
  }

  /** The map callback: the category as listed, or null when neither it nor
      any of its subcategories matches. A missing subcategory list counts
      as empty. */
  function ShowCategory(cat: Category, q: string): (r: Option<Shown>)
    ensures r.Some? <==>
              MatchesQuery(cat.name, cat.id, q)
              || exists s :: s in OrElse(cat.subcategories, []) && MatchesQuery(s.name, s.id, q)
    ensures r.Some? ==> r.value.category.id == cat.id && r.value.category.name == cat.name
    // searching with matching subcategories: exactly those are listed, expanded
    ensures r.Some? && q != [] && MatchedSubs(OrElse(cat.subcategories, []), q) != [] ==>
              r.value.category.subcategories == Some(MatchedSubs(OrElse(cat.subcategories, []), q))
              && r.value.forceOpen
    // otherwise the category is listed as it came, collapsed
    ensures r.Some? && (q == [] || MatchedSubs(OrElse(cat.subcategories, []), q) == []) ==>
              r.value == Shown(cat, false)
  {
    var matched := MatchedSubs(OrElse(cat.subcategories, []), q);
    if MatchesQuery(cat.name, cat.id, q) || |matched| > 0 then
      var searching := |q| > 0;
      assert |matched| > 0 ==> matched[0] in OrElse(cat.subcategories, []) by {
        if |matched| > 0 { SubsequenceMembers(matched, OrElse(cat.subcategories, []), matched[0]); }
      }
      Some(Shown(cat.(subcategories := if searching && |matched| > 0 then Some(matched) else cat.subcategories),
                 searching && |matched| > 0))
    else
      assert forall s :: s in OrElse(cat.subcategories, []) ==> !MatchesQuery(s.name, s.id, q);
      None
  }

  function ShowAll(cats: seq<Category>, q: string): (r: seq<Option<Shown>>)
    ensures |r| == |cats|
    ensures forall i :: 0 <= i < |cats| ==> r[i] == ShowCategory(cats[i], q)
  {
    if cats == [] then [] else [ShowCategory(cats[0], q)] + ShowAll(cats[1..], q)
  }

  /** `filtered`: the categories listed for the search text. */
  function Filtered(cats: seq<Category>, search: string): seq<Shown>
  {
    Somes(ShowAll(cats, Query(search)))
  }

  /** The categories that are listed at all, in their order. */
  function KeptCategories(cats: seq<Category>, q: string): (r: seq<Category>)
    ensures IsSubsequence(r, cats)
    ensures forall c :: c in r <==> c in cats && ShowCategory(c, q).Some?
  {
    if cats == [] then []
    else
      var rest := KeptCategories(cats[1..], q);
      assert cats == [cats[0]] + cats[1..];
      if ShowCategory(cats[0], q).Some? then [cats[0]] + rest
      else
        SubsequenceConsSkip(rest, cats[0], cats[1..]);
        rest
  }

  /** The list shows the kept categories, in the input order, one entry each. */
  lemma {:induction false} FilteredFollowsKept(cats: seq<Category>, q: string)
    ensures |Somes(ShowAll(cats, q))| == |KeptCategories(cats, q)|
    ensures forall i :: 0 <= i < |KeptCategories(cats, q)| ==>
              Some(Somes(ShowAll(cats, q))[i]) == ShowCategory(KeptCategories(cats, q)[i], q)
  {
    if cats != [] {
      FilteredFollowsKept(cats[1..], q);
      assert ShowAll(cats, q)[1..] == ShowAll(cats[1..], q);
    }
  }

  /** With a blank search box every category is listed exactly as loaded, none expanded. */
  lemma BlankSearchListsAll(cats: seq<Category>, search: string)
    requires Query(search) == []
    ensures |Filtered(cats, search)| == |cats|
    ensures forall i :: 0 <= i < |cats| ==> Filtered(cats, search)[i] == Shown(cats[i], false)
  {
    var q := Query(search);
    forall c | c in cats
      ensures ShowCategory(c, q).Some?
    {
      ContainsEmpty(ToLower(c.name));
    }
    AllKept(cats, q);
    FilteredFollowsKept(cats, q);
  }

  lemma {:induction false} AllKept(cats: seq<Category>, q: string)
    requires forall c :: c in cats ==> ShowCategory(c, q).Some?
    ensures KeptCategories(cats, q) == cats
  {
    if cats != [] {
      AllKept(cats[1..], q);
      assert cats == [cats[0]] + cats[1..];
    }
  }
}
