/**
 * The interactive state of the JSON pop-up (`displayJsonPopup`): the text
 * leaves of the rendered tree in document order, one `active` flag per
 * collapsible button, one `highlight` flag per leaf, and the element the
 * view was last scrolled to. The browser's parse of the markup is not
 * modelled; `Leaves` lists directly the elements of `Render(v)` whose only
 * child is a text node, which are the elements `searchInJson` inspects.
 */
module JsonViewer {
  import opened Wrappers
  import opened Numbers
  import opened JsStrings
  import opened JsonRender

  /** `&#9660;`, the icon of an expanded collapsible. */
  const DownArrow := "\U{25BC}"
  /** `&#9654;`, the icon of a collapsed collapsible. */
  const RightArrow := "\U{25B6}"

  /**
   * A single-text-node element: either the toggle icon of collapsible number
   * `collapsible` (its text follows the expand/collapse state) or a span
   * with fixed text.
   */
  datatype Leaf = Icon(collapsible: nat) | Text(text: string)

  /** The text a JSON string shows once its references are decoded: the value in quotes. */
  function Quote(s: string): (r: string)
    ensures |r| == |s| + 2 && r[0] == '"' && r[|r| - 1] == '"' && r[1..|r| - 1] == s
  {
    "\"" + s + "\""
  }

  /** The number of non-empty containers in `v`, each of which renders one collapsible button. */
  function CollapsibleCount(v: JsonValue): nat
    decreases v
  {
    match v
    case Array(items) => if |items| == 0 then 0 else 1 + ItemsCount(items, |items|)
    case Object(ms) => if |ms| == 0 then 0 else 1 + MembersCount(ms, |ms|)
    case _ => 0
  }

  function ItemsCount(items: seq<JsonValue>, n: nat): nat
    requires n <= |items|
    decreases items, n
  {
    if n == 0 then 0 else ItemsCount(items, n - 1) + CollapsibleCount(items[n - 1])
  }

  function MembersCount(ms: seq<Member>, n: nat): nat
    requires n <= |ms|
    decreases ms, n
  {
    if n == 0 then 0 else MembersCount(ms, n - 1) + CollapsibleCount(ms[n - 1].value)
  }

  /**
   * The single-text-node elements of `Render(v)` in document order, where
   * `base` collapsibles come before `v` in the document.
   */
  function Leaves(v: JsonValue, base: nat): seq<Leaf>
    decreases v
  {
    match v
    case Null => [Text("null")]
    case Bool(b) => [Text(if b then "true" else "false")]
    case Number(n) => [Text(IntToString(n))]
    case String(s) => [Text(Quote(s))]
    case Array(items) =>
      if |items| == 0 then [Text("[]")]
      else [Icon(base), Text("[")] + ItemLeaves(items, |items|, base + 1) + [Text("]")]
    case Object(ms) =>
      if |ms| == 0 then [Text("{}")]
      else [Icon(base), Text("{")] + MemberLeaves(ms, |ms|, base + 1) + [Text("}")]
  }

  /**
   * The leaves of a value are never empty, and the first one is an icon
   * exactly when the value is a non-empty container; that icon is the
   * container's own button, numbered `base`.
   */
  lemma LeavesLedByOwnIcon(v: JsonValue, base: nat)
    ensures |Leaves(v, base)| >= 1
    ensures Leaves(v, base)[0].Icon? <==> CollapsibleCount(v) > 0
    ensures Leaves(v, base)[0].Icon? ==> Leaves(v, base)[0].collapsible == base
  {
  }

  /** The leaves of the first `n` array rows: index tag, element leaves, comma if not last. */
  function ItemLeaves(items: seq<JsonValue>, n: nat, base: nat): seq<Leaf>
    requires n <= |items|
    decreases items, n
  {
    if n == 0 then []
    else
      ItemLeaves(items, n - 1, base)
      + RowLeaves(NatToString(n - 1) + ":", Leaves(items[n - 1], base + ItemsCount(items, n - 1)), n < |items|)
  }

  /** The leaves of the first `n` object rows: quoted key, value leaves, comma if not last. */
  function MemberLeaves(ms: seq<Member>, n: nat, base: nat): seq<Leaf>
    requires n <= |ms|
    decreases ms, n
  {
    if n == 0 then []
    else
      MemberLeaves(ms, n - 1, base)
      + RowLeaves(Quote(ms[n - 1].key), Leaves(ms[n - 1].value, base + MembersCount(ms, n - 1)), n < |ms|)
  }

  /** One row: its tag, its value's leaves, and a comma unless it is the last row. */
  function RowLeaves(tag: string, value: seq<Leaf>, more: bool): seq<Leaf> {
    [Text(tag)] + value + (if more then [Text(",")] else [])
  }

  /** Every icon among `ls` belongs to a collapsible numbered in `[lo, hi)`. */
  predicate IconsWithin(ls: seq<Leaf>, lo: nat, hi: nat) {
    forall i :: 0 <= i < |ls| && ls[i].Icon? ==> lo <= ls[i].collapsible < hi
  }

  lemma IconsWithinAppend(a: seq<Leaf>, b: seq<Leaf>, lo: nat, hi: nat)
    requires IconsWithin(a, lo, hi) && IconsWithin(b, lo, hi)
    ensures IconsWithin(a + b, lo, hi)
  {
    forall i | 0 <= i < |a + b| && (a + b)[i].Icon?
      ensures lo <= (a + b)[i].collapsible < hi
    {
      if i >= |a| {
        assert (a + b)[i] == b[i - |a|];
      }
    }
  }

  lemma IconsWithinWiden(ls: seq<Leaf>, lo: nat, hi: nat, lo': nat, hi': nat)
    requires IconsWithin(ls, lo, hi) && lo' <= lo && hi <= hi'
    ensures IconsWithin(ls, lo', hi')
  {
  }

  /** A container's own icon, then its rows' icons, numbered after it. */
  lemma ContainerIcons(inner: seq<Leaf>, open: string, close: string, base: nat, hi: nat)
    requires IconsWithin(inner, base + 1, hi) && base < hi
    ensures IconsWithin([Icon(base), Text(open)] + inner + [Text(close)], base, hi)
  {
    IconsWithinWiden(inner, base + 1, hi, base, hi);
    IconsWithinAppend([Icon(base), Text(open)], inner, base, hi);
    IconsWithinAppend([Icon(base), Text(open)] + inner, [Text(close)], base, hi);
  }

  /** One more row: the earlier rows' icons come first, then the row value's. */
  lemma RowIcons(prev: seq<Leaf>, tag: string, value: seq<Leaf>, more: bool, base: nat, start: nat, hi: nat)
    requires IconsWithin(prev, base, start) && IconsWithin(value, start, hi) && base <= start <= hi
    ensures IconsWithin(prev + RowLeaves(tag, value, more), base, hi)
  {
    IconsWithinWiden(prev, base, start, base, hi);
    IconsWithinWiden(value, start, hi, base, hi);
    var comma: seq<Leaf> := if more then [Text(",")] else [];
    IconsWithinAppend([Text(tag)], value, base, hi);
    IconsWithinAppend([Text(tag)] + value, comma, base, hi);
    IconsWithinAppend(prev, RowLeaves(tag, value, more), base, hi);
  }

  /** The icons of `v` are numbered by the collapsibles `v` itself renders, and only those. */
  lemma {:induction false} LeavesIcons(v: JsonValue, base: nat)
    ensures IconsWithin(Leaves(v, base), base, base + CollapsibleCount(v))
    decreases v, 1
  {
    match v
    case Array(items) =>
      if |items| > 0 {
        ItemLeavesIcons(items, |items|, base + 1);
        ContainerIcons(ItemLeaves(items, |items|, base + 1), "[", "]", base, base + CollapsibleCount(v));
      }
    case Object(ms) =>
      if |ms| > 0 {
        MemberLeavesIcons(ms, |ms|, base + 1);
        ContainerIcons(MemberLeaves(ms, |ms|, base + 1), "{", "}", base, base + CollapsibleCount(v));
      }
    case _ =>
  }

  lemma {:induction false} ItemLeavesIcons(items: seq<JsonValue>, n: nat, base: nat)
    requires n <= |items|
    ensures IconsWithin(ItemLeaves(items, n, base), base, base + ItemsCount(items, n))
    decreases items, 0, n
  {
    if n > 0 {
      var start := base + ItemsCount(items, n - 1);
      ItemLeavesIcons(items, n - 1, base);
      LeavesIcons(items[n - 1], start);
      RowIcons(ItemLeaves(items, n - 1, base), NatToString(n - 1) + ":", Leaves(items[n - 1], start),
               n < |items|, base, start, base + ItemsCount(items, n));
    }
  }

  lemma {:induction false} MemberLeavesIcons(ms: seq<Member>, n: nat, base: nat)
    requires n <= |ms|
    ensures IconsWithin(MemberLeaves(ms, n, base), base, base + MembersCount(ms, n))
    decreases ms, 0, n
  {
    if n > 0 {
      var start := base + MembersCount(ms, n - 1);
      MemberLeavesIcons(ms, n - 1, base);
      LeavesIcons(ms[n - 1].value, start);
      RowIcons(MemberLeaves(ms, n - 1, base), Quote(ms[n - 1].key), Leaves(ms[n - 1].value, start),
               n < |ms|, base, start, base + MembersCount(ms, n));
    }
  }

  /** The text content of a leaf under the given expand/collapse flags. */
  function LeafText(leaf: Leaf, active: seq<bool>): (r: string)
    requires leaf.Icon? ==> leaf.collapsible < |active|
    ensures leaf.Text? ==> r == leaf.text
    ensures leaf.Icon? ==> (r == DownArrow <==> active[leaf.collapsible])
  {
    match leaf
    case Icon(k) => if active[k] then DownArrow else RightArrow
    case Text(t) => t
  }

  /** `text.toLowerCase().includes(searchText.toLowerCase())`: only a text at least as long as the query can match. */
  function Matches(text: string, query: string): (r: bool)
    ensures r ==> |query| <= |text|
  {
    Includes(Lower(text), Lower(query))
  }

  /** The search ignores case on both sides: lower-casing the text or the query first changes nothing. */
  lemma MatchesIgnoresCase(text: string, query: string)
    ensures Matches(Lower(text), query) == Matches(text, query)
    ensures Matches(text, Lower(query)) == Matches(text, query)
  {
    LowerIdempotent(text);
    LowerIdempotent(query);
  }

  /** The texts of all leaves under the given flags. */
  function Texts(leaves: seq<Leaf>, active: seq<bool>): (r: seq<string>)
    requires IconsWithin(leaves, 0, |active|)
    ensures |r| == |leaves|
    ensures forall i :: 0 <= i < |leaves| ==> r[i] == LeafText(leaves[i], active)
  {
    seq(|leaves|, i requires 0 <= i < |leaves| => LeafText(leaves[i], active))
  }

  /** The position of the first text that matches `query`, if any. */
  function FirstMatch(texts: seq<string>, query: string): (r: Option<nat>)
    ensures r.Some? ==> r.value < |texts| && Matches(texts[r.value], query)
    ensures r.Some? ==> forall j :: 0 <= j < r.value ==> !Matches(texts[j], query)
    ensures r.None? <==> forall j :: 0 <= j < |texts| ==> !Matches(texts[j], query)
  {
    if texts == [] then None
    else if Matches(texts[0], query) then Some(0)
    else
      match FirstMatch(texts[1..], query)
      case None => None
      case Some(k) =>
        assert forall j :: 1 <= j <= k ==> texts[j] == texts[1..][j - 1];
        Some(k + 1)
  }

  /** `r` is the first match among the first `n` texts, or `None` when none of them matches. */
  predicate IsFirstMatch(texts: seq<string>, query: string, n: nat, r: Option<nat>)
    requires n <= |texts|
  {
    && (r.Some? ==> r.value < n && Matches(texts[r.value], query)
                    && forall j :: 0 <= j < r.value ==> !Matches(texts[j], query))
    && (r.None? ==> forall j :: 0 <= j < n ==> !Matches(texts[j], query))
  }

  /** There is only one first match. */
  lemma FirstMatchUnique(texts: seq<string>, query: string, r: Option<nat>)
    requires IsFirstMatch(texts, query, |texts|, r)
    ensures r == FirstMatch(texts, query)
  {
  }

  /**
   * A search for text that occurs inside a JSON string value also matches
   * the leaf that shows that value in quotes, whatever the case of either.
   */
  lemma QuotedMatches(s: string, query: string)
    requires Matches(s, query)
    ensures Matches(Quote(s), query)
  {
    LowerAppend("\"", s);
    LowerAppend("\"" + s, "\"");
    IncludesWithin(Lower("\""), Lower(s), Lower("\""), Lower(query));
  }

  /** The viewer of one rendered JSON value. */
  class Viewer {
    /** The single-text-node elements of the rendered tree, in document order. */
    const leaves: seq<Leaf>
    /** The `active` class of each collapsible button, in document order. */
    const active: array<bool>
    /** The `highlight` class of each leaf. */
    const highlighted: array<bool>
    /** The leaf `scrollIntoView` was last called on. */
    var scrolledTo: Option<nat>

    ghost predicate Valid()
      reads this
    {
      highlighted.Length == |leaves| && highlighted != active
      && IconsWithin(leaves, 0, active.Length)
    }

    /** The viewer as `innerHTML = createEnhancedJson(v)` leaves it: every collapsible active, nothing highlighted. */
    constructor(v: JsonValue)
      ensures Valid()
      ensures leaves == Leaves(v, 0)
      ensures active.Length == CollapsibleCount(v) && forall k :: 0 <= k < active.Length ==> active[k]
      ensures forall i :: 0 <= i < highlighted.Length ==> !highlighted[i]
      ensures scrolledTo == None
    {
      LeavesIcons(v, 0);
      leaves := Leaves(v, 0);
      active := new bool[CollapsibleCount(v)](_ => true);
      highlighted := new bool[|Leaves(v, 0)|](_ => false);
      scrolledTo := None;
    }

    /** The texts the leaves show now. */
    function CurrentTexts(): (r: seq<string>)
      requires Valid()
      reads this, active
      ensures |r| == |leaves|
    {
      Texts(leaves, active[..])
    }

    /** Sets the `active` class of every collapsible (and its icon) to `on`. */
    method SetAllActive(on: bool)
      requires Valid()
      modifies active
      ensures Valid()
      ensures forall k :: 0 <= k < active.Length ==> active[k] == on
    {
      for k := 0 to active.Length
        invariant forall j :: 0 <= j < k ==> active[j] == on
      {
        active[k] := on;
      }
    }

    /** The deferred expansion after the pop-up is built. */
    method AutoExpand()
      requires Valid()
      modifies active
      ensures Valid()
      ensures forall k :: 0 <= k < active.Length ==> active[k]
    {
      SetAllActive(true);
    }

    /** The Expand All button. */
    method ExpandAll()
      requires Valid()
      modifies active
      ensures Valid()
      ensures forall k :: 0 <= k < active.Length ==> active[k]
    {
      SetAllActive(true);
    }

    /** The Collapse All button. */
    method CollapseAll()
      requires Valid()
      modifies active
      ensures Valid()
      ensures forall k :: 0 <= k < active.Length ==> !active[k]
    {
      SetAllActive(false);
    }

    /**
     * `searchInJson(query)`. An empty query changes nothing. Otherwise every
     * highlight is cleared, exactly the leaves whose text matches are
     * highlighted, and the view scrolls to the first of them, if any.
     */
    method Search(query: string) returns (firstMatch: Option<nat>)
      requires Valid()
      modifies highlighted, this`scrolledTo
      ensures Valid()
      ensures query == [] ==> firstMatch == None && unchanged(highlighted) && scrolledTo == old(scrolledTo)
      ensures query != [] ==> forall i :: 0 <= i < |leaves| ==>
        highlighted[i] == Matches(CurrentTexts()[i], query)
      ensures query != [] ==> firstMatch == FirstMatch(CurrentTexts(), query)
      ensures scrolledTo == (if firstMatch.Some? then firstMatch else old(scrolledTo))
    {
      firstMatch := None;
      if query == [] {
        return;
      }
      ClearHighlights();
      firstMatch := MarkMatches(Texts(leaves, active[..]), query);
      if firstMatch.Some? {
        scrolledTo := firstMatch;
      }
    }

    /** The removal of the `highlight` class from every element that has it. */
    method ClearHighlights()
      requires Valid()
      modifies highlighted
      ensures Valid()
      ensures forall i :: 0 <= i < highlighted.Length ==> !highlighted[i]
    {
      for i := 0 to highlighted.Length
        invariant forall j :: 0 <= j < i ==> !highlighted[j]
      {
        highlighted[i] := false;
      }
    }

    /**
     * The loop over the elements: each one whose text matches gets the
     * `highlight` class, and the first of them is remembered.
     */
    method MarkMatches(texts: seq<string>, query: string) returns (firstMatch: Option<nat>)
      requires Valid() && |texts| == highlighted.Length
      requires forall i :: 0 <= i < highlighted.Length ==> !highlighted[i]
      modifies highlighted
      ensures Valid()
      ensures forall i :: 0 <= i < highlighted.Length ==> highlighted[i] == Matches(texts[i], query)
      ensures firstMatch == FirstMatch(texts, query)
    {
      firstMatch := None;
      for i := 0 to |texts|
        invariant forall j :: 0 <= j < highlighted.Length ==> highlighted[j] == (j < i && Matches(texts[j], query))
        invariant IsFirstMatch(texts, query, i, firstMatch)
      {
        if Matches(texts[i], query) {
          highlighted[i] := true;
          if firstMatch.None? {
            firstMatch := Some(i);
          }
        }
      }
      FirstMatchUnique(texts, query, firstMatch);
    }
  }
}
