/**
 * The menu page: how category and subcategory names are normalised, which
 * category tabs are drawn, which items each category section shows, and the two
 * pieces of view state (the selected category and the selected subcategory).
 */
module MenuShow {

  import opened Wrappers
  import Seqs

  // ---------------------------------------------------------------------------
  // Text normalisation
  // ---------------------------------------------------------------------------

  /** A value handed to `normalize`: a JavaScript string, or anything else (`null`, `undefined`, a number, ...). */
  datatype Text = Str(s: string) | NotString

  /** The characters JavaScript's regular-expression class `\s` matches. */
  predicate IsSpace(c: char) {
    c == ' ' || c == '\t' || c == '\n' || c == '\U{B}' || c == '\U{C}' || c == '\r'
    || c == '\U{A0}' || c == '\U{1680}' || ('\U{2000}' <= c <= '\U{200A}')
    || c == '\U{2028}' || c == '\U{2029}' || c == '\U{202F}' || c == '\U{205F}'
    || c == '\U{3000}' || c == '\U{FEFF}'
  }

  predicate IsUpper(c: char) {
    'A' <= c <= 'Z'
  }

  /** `toLowerCase` on one character (ASCII letters only, see README). */
  function LowerChar(c: char): (r: char)
    ensures !IsUpper(r)
    ensures !IsUpper(c) ==> r == c
    ensures r == '_' <==> c == '_'
    ensures IsSpace(r) <==> IsSpace(c)
  {
    if IsUpper(c) then (c as int + 32) as char else c
  }

  function NotUnderscore(c: char): bool { c != '_' }

  function NotSpace(c: char): bool { !IsSpace(c) }

  /** `text.toLowerCase()`. */
  function Lower(s: string): string {
    Seqs.Map(s, LowerChar)
  }

  /** `.replace(/_/g, "")`. */
  function StripUnderscores(s: string): string {
    Seqs.Filter(s, NotUnderscore)
  }

  /** `.replace(/\s+/g, "")`: replacing every run of white space by nothing removes every white-space character. */
  function StripSpaces(s: string): string {
    Seqs.Filter(s, NotSpace)
  }

  /** `normalize(text)`: lower-case, then drop underscores, then drop white space; "" for a non-string. */
  function Normalize(t: Text): (r: string)
    ensures t.NotString? ==> r == ""
    ensures t.Str? ==> |r| <= |t.s|
    ensures forall c :: c in r ==> c != '_' && !IsSpace(c) && !IsUpper(c)
  {
    match t
    case NotString => ""
    case Str(s) =>
      var lowered := Lower(s);
      assert forall c :: c in lowered ==> !IsUpper(c);
      StripSpaces(StripUnderscores(lowered))
  }

  /** Reference definition: one pass over the input, lower-casing each character and keeping it unless it is `_` or white space. */
  function Canonical(s: string): string {
    if s == [] then []
    else
      var c := LowerChar(s[0]);
      (if c == '_' || IsSpace(c) then [] else [c]) + Canonical(s[1..])
  }

  /** The three passes of `normalize` agree with the one-pass reference definition. */
  lemma {:induction false} NormalizeIsCanonical(s: string)
    ensures Normalize(Str(s)) == Canonical(s)
  {
    if s != [] {
      var c := LowerChar(s[0]);
      NormalizeIsCanonical(s[1..]);
      assert s == [s[0]] + s[1..];
      Seqs.MapAppend([s[0]], s[1..], LowerChar);
      assert Lower([s[0]]) == [c];
      assert Lower(s) == [c] + Lower(s[1..]);
      Seqs.FilterAppend([c], Lower(s[1..]), NotUnderscore);
      Seqs.FilterSingle(c, NotUnderscore);
      var u := Seqs.Filter([c], NotUnderscore);
      Seqs.FilterAppend(u, StripUnderscores(Lower(s[1..])), NotSpace);
      if c != '_' {
        Seqs.FilterSingle(c, NotSpace);
      }
    }
  }

  /** Normalising keeps every character that survives, in its original order: it distributes over concatenation. */
  lemma NormalizeAppend(a: string, b: string)
    ensures Normalize(Str(a + b)) == Normalize(Str(a)) + Normalize(Str(b))
  {
    Seqs.MapAppend(a, b, LowerChar);
    Seqs.FilterAppend(Lower(a), Lower(b), NotUnderscore);
    Seqs.FilterAppend(StripUnderscores(Lower(a)), StripUnderscores(Lower(b)), NotSpace);
  }

  /** Normalising a normalised name changes nothing. */
  lemma NormalizeIdempotent(t: Text)
    ensures Normalize(Str(Normalize(t))) == Normalize(t)
  {
    var n := Normalize(t);
    assert Lower(n) == n;
    Seqs.FilterAll(n, NotUnderscore);
    Seqs.FilterAll(n, NotSpace);
  }

  // ---------------------------------------------------------------------------
  // Menu data and what each section shows
  // ---------------------------------------------------------------------------

  datatype MenuItem = MenuItem(id: string, itemName: string)

  datatype Subcategory = Subcategory(subcategory: Text, items: seq<MenuItem>)

  /** A category as the menus endpoint returns it; `subcategories` and `items` may be missing. */
  datatype Category = Category(
    category: string,
    subcategories: Option<seq<Subcategory>>,
    items: Option<seq<MenuItem>>)

  datatype Menu = Menu(categories: seq<Category>)

  /** `hasSubcategories`: the field is present and the list is non-empty. */
  predicate HasSubcategories(cat: Category) {
    cat.subcategories.Some? && |cat.subcategories.value| > 0
  }

  /** A subcategory matches a selection when their normalised names are equal. */
  predicate Matches(sub: Subcategory, key: string) {
    Normalize(sub.subcategory) == key
  }

  /** `k` is the position of the first subcategory whose normalised name is `key`. */
  predicate FirstMatch(subs: seq<Subcategory>, key: string, k: int) {
    && 0 <= k < |subs|
    && Matches(subs[k], key)
    && forall j :: 0 <= j < k ==> !Matches(subs[j], key)
  }

  /** There is at most one first match. */
  lemma FirstMatchUnique(subs: seq<Subcategory>, key: string, k: int, k': int)
    requires FirstMatch(subs, key, k) && FirstMatch(subs, key, k')
    ensures k == k'
  {
  }

  /** `subcategories.find(...)`: the index of the first subcategory whose normalised name is `key`. */
  function FindSubcategory(subs: seq<Subcategory>, key: string): (r: Option<nat>)
    ensures r.Some? ==> FirstMatch(subs, key, r.value)
    ensures r.None? <==> forall j :: 0 <= j < |subs| ==> !Matches(subs[j], key)
  {
    if subs == [] then None
    else if Matches(subs[0], key) then Some(0)
    else
      var rest := subs[1..];
      assert forall j :: 0 < j < |subs| ==> subs[j] == rest[j - 1];
      match FindSubcategory(rest, key)
      case None => None
      case Some(k) => Some(k + 1)
  }

  /** A selection is in effect only when it is a non-empty string (`null` and "" are falsy). */
  predicate Selected(selection: Option<string>) {
    selection.Some? && selection.value != ""
  }

  /** `itemsToShow` for one category section, given the selected subcategory. */
  function ItemsToShow(cat: Category, selection: Option<string>): (r: seq<MenuItem>)
    ensures !HasSubcategories(cat) || !Selected(selection) ==>
      r == cat.items.GetOr([])
    ensures HasSubcategories(cat) && Selected(selection) ==>
      var subs := cat.subcategories.value;
      var key := Normalize(Str(selection.value));
      && (forall k :: FirstMatch(subs, key, k) ==> r == subs[k].items)
      && ((forall k :: 0 <= k < |subs| ==> !Matches(subs[k], key)) ==> r == [])
  {
    if HasSubcategories(cat) && Selected(selection) then
      var subs := cat.subcategories.value;
      var key := Normalize(Str(selection.value));
      match FindSubcategory(subs, key)
      case Some(k) =>
        assert forall k' :: FirstMatch(subs, key, k') ==> k' == k by {
          forall k' | FirstMatch(subs, key, k') {
            FirstMatchUnique(subs, key, k, k');
          }
        }
        subs[k].items
      case None => []
    else
      cat.items.GetOr([])
  }

  /** Choosing the placeholder option ("") shows the same items as having no selection at all. */
  lemma EmptySelectionIsNoSelection(cat: Category)
    ensures ItemsToShow(cat, Some("")) == ItemsToShow(cat, None)
  {
  }

  /** Selections that normalise alike show the same items. */
  lemma SelectionUpToNormalization(cat: Category, a: string, b: string)
    requires a != "" && b != ""
    requires Normalize(Str(a)) == Normalize(Str(b))
    ensures ItemsToShow(cat, Some(a)) == ItemsToShow(cat, Some(b))
  {
  }

  /** The category tabs: the `category` names of the first menu, in order; nothing is rendered for no menus. */
  function Tabs(menus: seq<Menu>): (r: Option<seq<string>>)
    ensures r.None? <==> |menus| == 0
    ensures r.Some? ==> |r.value| == |menus[0].categories|
    ensures r.Some? ==> forall i :: 0 <= i < |r.value| ==> r.value[i] == menus[0].categories[i].category
  {
    if |menus| == 0 then None
    else Some(Seqs.Map(menus[0].categories, (c: Category) => c.category))
  }

  /** The items of every section of the first menu, one list per category, in order; the one selection applies to all sections. */
  function Sections(menus: seq<Menu>, selection: Option<string>): (r: Option<seq<seq<MenuItem>>>)
    ensures r.None? <==> |menus| == 0
    ensures r.Some? ==> |r.value| == |menus[0].categories|
    ensures r.Some? ==> forall i :: 0 <= i < |r.value| ==> r.value[i] == ItemsToShow(menus[0].categories[i], selection)
  {
    if |menus| == 0 then None
    else Some(Seqs.Map(menus[0].categories, (c: Category) => ItemsToShow(c, selection)))
  }

  // ---------------------------------------------------------------------------
  // View state
  // ---------------------------------------------------------------------------

  /** The page's `useState` fields that the handlers update. */
  class MenuShowView {
    var selectedCategory: Option<string>
    var selectedSubcategory: Option<string>

    constructor ()
      ensures selectedCategory == None && selectedSubcategory == None
    {
      selectedCategory := None;
      selectedSubcategory := None;
    }

    /** Clicking a tab selects that category and clears the subcategory selection (scrolling is not modelled). */
    method HandleCategoryClick(category: string)
      modifies this
      ensures selectedCategory == Some(category)
      ensures selectedSubcategory == None
    {
      selectedCategory := Some(category);
      selectedSubcategory := None;
    }

    /** The dropdown's `onChange`: the chosen option's value, "" for the placeholder. */
    method SelectSubcategory(value: string)
      modifies this
      ensures selectedSubcategory == Some(value)
      ensures selectedCategory == old(selectedCategory)
    {
      selectedSubcategory := Some(value);
    }
  }
}
