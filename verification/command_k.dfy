/** The quick-launcher (Ctrl/Meta+K command palette): a case-insensitive substring filter
    over a fixed list of links, and the open/closed state the key handler drives. */
module CommandK {
  import opened Strings

  /** One launcher entry: `{label, href, icon, desc}` (`label` is a Dafny keyword, hence `name`). */
  datatype Link = Link(name: string, href: string, icon: string, desc: string)

  /** A key-down event, reduced to the fields the handler reads. */
  datatype KeyEvent = KeyEvent(key: string, metaKey: bool, ctrlKey: bool)

  /** What the palette renders: nothing, the matching entries, or the single
      "Sin resultados" item. */
  datatype View = Hidden | Entries(items: seq<Link>) | NoResults

  // ---------------------------------------------------------------- the filter

  /** The entry is listed for query `q`: its lower-cased label contains the lower-cased query. */
  predicate Matches(l: Link, q: string)
  {
    Includes(Lower(l.name), Lower(q))
  }

  /** `links.filter(l => l.name.toLowerCase().includes(q.toLowerCase()))`. */
  function Filter(links: seq<Link>, q: string): (r: seq<Link>)
    ensures |r| <= |links|
    ensures forall l :: l in r ==> l in links && Matches(l, q)
  {
    if links == [] then []
    else if Matches(links[0], q) then [links[0]] + Filter(links[1..], q)
    else Filter(links[1..], q)
  }

  /** `r` is obtained from `s` by deleting elements, keeping the order of the rest. */
  ghost predicate SubsequenceOf<T>(r: seq<T>, s: seq<T>)
    decreases |s|
  {
    if s == [] then r == []
    else (r != [] && r[0] == s[0] && SubsequenceOf(r[1..], s[1..])) || SubsequenceOf(r, s[1..])
  }

  /** The empty query lists every entry, in the original order. */
  lemma {:induction false} FilterEmptyQuery(links: seq<Link>)
    ensures Filter(links, "") == links
  {
    if links != [] {
      IncludesEmpty(Lower(links[0].name));
      FilterEmptyQuery(links[1..]);
    }
  }

  /** The listed entries keep their original relative order. */
  lemma {:induction false} FilterIsSubsequence(links: seq<Link>, q: string)
    ensures SubsequenceOf(Filter(links, q), links)
  {
    if links != [] {
      FilterIsSubsequence(links[1..], q);
      if Matches(links[0], q) {
        assert Filter(links, q)[1..] == Filter(links[1..], q);
      }
    }
  }

  /** Each entry appears in the result exactly as often as in the input when it matches,
      and not at all otherwise: membership is "in the list and matching", both ways. */
  lemma {:induction false} FilterCount(links: seq<Link>, q: string, l: Link)
    ensures multiset(Filter(links, q))[l] == if Matches(l, q) then multiset(links)[l] else 0
  {
    if links != [] {
      FilterCount(links[1..], q, l);
      assert links == [links[0]] + links[1..];
    }
  }

  /** An entry is listed exactly when it is one of the links and its label matches. */
  lemma FilterMembership(links: seq<Link>, q: string, l: Link)
    ensures l in Filter(links, q) <==> l in links && Matches(l, q)
  {
    FilterCount(links, q, l);
    assert l in Filter(links, q) <==> multiset(Filter(links, q))[l] > 0;
    assert l in links <==> multiset(links)[l] > 0;
  }

  /** Filtering an already filtered list with the same query changes nothing. */
  lemma {:induction false} FilterIdempotent(links: seq<Link>, q: string)
    ensures Filter(Filter(links, q), q) == Filter(links, q)
  {
    if links != [] {
      FilterIdempotent(links[1..], q);
    }
  }

  /** The case of the query is irrelevant. */
  lemma {:induction false} FilterIgnoresQueryCase(links: seq<Link>, q: string)
    ensures Filter(links, q) == Filter(links, Lower(q))
  {
    LowerIdempotent(q);
    if links != [] {
      FilterIgnoresQueryCase(links[1..], q);
    }
  }

  /** The three suite entries the page passes in: "field" picks the last, "RB" all three. */
  lemma SuiteExample(snap: Link, fuel: Link, field: Link)
    requires snap.name == "RB SnapLog 360"
    requires fuel.name == "RB FuelTrack 360"
    requires field.name == "RB Field360"
    ensures Filter([snap, fuel, field], "field") == [field]
    ensures Filter([snap, fuel, field], "RB") == [snap, fuel, field]
  {
    SnapLogEntry(snap);
    FuelTrackEntry(fuel);
    Field360Entry(field);
    SuiteFilter(snap, fuel, field);
  }

  /** The filter over three entries, given which of them match. */
  lemma SuiteFilter(snap: Link, fuel: Link, field: Link)
    requires !Matches(snap, "field") && !Matches(fuel, "field") && Matches(field, "field")
    requires Matches(snap, "RB") && Matches(fuel, "RB") && Matches(field, "RB")
    ensures Filter([snap, fuel, field], "field") == [field]
    ensures Filter([snap, fuel, field], "RB") == [snap, fuel, field]
  {
    FilterCons(snap, [fuel, field], "field");
    FilterCons(fuel, [field], "field");
    FilterCons(field, [], "field");
    FilterCons(snap, [fuel, field], "RB");
    FilterCons(fuel, [field], "RB");
    FilterCons(field, [], "RB");
  }

  /** One step of the filter: the head is kept exactly when it matches. */
  lemma FilterCons(l: Link, rest: seq<Link>, q: string)
    ensures Filter([l] + rest, q) == (if Matches(l, q) then [l] else []) + Filter(rest, q)
  {
    assert ([l] + rest)[1..] == rest;
  }

  /** "RB SnapLog 360" has no "f" at all, and starts with "RB". */
  lemma SnapLogEntry(l: Link)
    requires l.name == "RB SnapLog 360"
    ensures !Matches(l, "field") && Matches(l, "RB")
  {
    var s := l.name;
    LowerCharIs('f', 'f');
    assert Lower("field")[0] == 'f';
    forall i | 0 <= i < |s| ensures Lower(s)[i] != 'f' {
      LowerCharIs(s[i], 'f');
    }
    NoOccurrence(Lower(s), Lower("field"));
    RbPrefix(s);
  }

  /** In "RB FuelTrack 360" the only "f" is followed by "u", so "field" does not occur. */
  lemma FuelTrackEntry(l: Link)
    requires l.name == "RB FuelTrack 360"
    ensures !Matches(l, "field") && Matches(l, "RB")
  {
    var s := l.name;
    LowerCharIs('f', 'f');
    LowerCharIs('i', 'i');
    assert Lower("field")[0] == 'f' && Lower("field")[1] == 'i';
    forall i | 0 <= i < |s| - 1 ensures !(Lower(s)[i] == 'f' && Lower(s)[i + 1] == 'i') {
      LowerCharIs(s[i], 'f');
      LowerCharIs(s[i + 1], 'i');
    }
    NoOccurrence(Lower(s), Lower("field"));
    RbPrefix(s);
  }

  /** `t` occurs nowhere in `s` when no position of `s` holds the pair `t` starts with. */
  lemma NoOccurrence(s: string, t: string)
    requires |t| >= 2
    requires forall i :: 0 <= i < |s| - 1 ==> !(s[i] == t[0] && s[i + 1] == t[1])
    ensures !Includes(s, t)
  {
    forall i: nat ensures !OccursAt(s, t, i) {
      if i + |t| <= |s| {
        if s[i] != t[0] {
          assert s[i..i + |t|][0] != t[0];
        } else {
          assert s[i..i + |t|][1] != t[1];
        }
      }
    }
  }

  /** "RB Field360" contains "field" at index 3, once lower-cased. */
  lemma Field360Entry(l: Link)
    requires l.name == "RB Field360"
    ensures Matches(l, "field") && Matches(l, "RB")
  {
    var s := l.name;
    assert Lower(s)[3..8] == Lower("field");
    assert OccursAt(Lower(s), Lower("field"), 3);
    RbPrefix(s);
  }

  /** Which characters lower-case to the lower-case letter `d`. */
  lemma LowerCharIs(c: char, d: char)
    requires 'a' <= d <= 'z'
    ensures LowerChar(c) == d <==> c == d || c as int == d as int - 32
  {
  }

  /** A string beginning with "RB" matches the query "RB". */
  lemma RbPrefix(s: string)
    requires |s| >= 2 && s[0] == 'R' && s[1] == 'B'
    ensures Includes(Lower(s), Lower("RB"))
  {
    assert Lower(s)[0..2] == Lower("RB");
    assert OccursAt(Lower(s), Lower("RB"), 0);
  }

  // ---------------------------------------------------------------- rendering

  /** What the palette shows for the given state. */
  function Render(open: bool, links: seq<Link>, q: string): (v: View)
    ensures v == Hidden <==> !open
    ensures v == NoResults <==> open && forall l :: l in links ==> !Matches(l, q)
    ensures v.Entries? ==> v.items == Filter(links, q) && v.items != []
  {
    var list := Filter(links, q);
    assert list == [] <==> forall l :: l in links ==> !Matches(l, q) by {
      forall l | l in links ensures l in list <==> Matches(l, q) {
        FilterMembership(links, q, l);
      }
      if list != [] { FilterMembership(links, q, list[0]); }
    }
    if !open then Hidden
    else if list == [] then NoResults
    else Entries(list)
  }

  // ---------------------------------------------------------------- the key handler

  /** Ctrl or Meta held with a key whose lower-cased name is "k". */
  predicate IsHotkey(e: KeyEvent)
  {
    (e.metaKey || e.ctrlKey) && Lower(e.key) == "k"
  }

  /** The hotkey is Ctrl/Meta with "k" or "K", and never the Escape key. */
  lemma HotkeyKeys(e: KeyEvent)
    ensures IsHotkey(e) <==> (e.metaKey || e.ctrlKey) && (e.key == "k" || e.key == "K")
    ensures IsHotkey(e) ==> e.key != "Escape"
  {
    LowerIsK(e.key);
  }

  /** The value of `open` after the key-down handler runs: the hotkey toggles it, then
      Escape clears it; any other key leaves it. */
  function NextOpen(open: bool, e: KeyEvent): (r: bool)
    ensures e.key == "Escape" ==> !r
    ensures e.key == "k" && (e.metaKey || e.ctrlKey) ==> r == !open
    ensures e.key == "K" && (e.metaKey || e.ctrlKey) ==> r == !open
    ensures e.key != "Escape" && !IsHotkey(e) ==> r == open
  {
    HotkeyKeys(e);
    var toggled := if IsHotkey(e) then !open else open;
    if e.key == "Escape" then false else toggled
  }

  /** Pressing the hotkey twice restores the previous state. */
  lemma HotkeyTwice(open: bool, e: KeyEvent)
    requires IsHotkey(e)
    ensures NextOpen(NextOpen(open, e), e) == open
  {
    HotkeyKeys(e);
  }

  /** Escape closes from either state, so pressing it again changes nothing. */
  lemma EscapeIdempotent(open: bool, e: KeyEvent)
    requires e.key == "Escape"
    ensures NextOpen(open, e) == false
    ensures NextOpen(NextOpen(open, e), e) == NextOpen(open, e)
  {
  }

  // ---------------------------------------------------------------- the component state

  /** The palette's state cells `open` and `q`, and the `links` prop it was last given. */
  class Palette {
    var open: bool
    var q: string
    var links: seq<Link>

    /** Mounted closed, with an empty query. */
    constructor (links: seq<Link>)
      ensures !open && q == "" && this.links == links
      ensures Current() == Hidden
    {
      open := false;
      q := "";
      this.links := links;
    }

    /** The `list` memo: the entries matching the current query. */
    function List(): seq<Link>
      reads this
    {
      Filter(links, q)
    }

    /** What the component currently renders. */
    function Current(): View
      reads this
    {
      Render(open, links, q)
    }

    /** The window key-down handler; `prevented` says whether the browser's default
        handling was suppressed. */
    method OnKey(e: KeyEvent) returns (prevented: bool)
      modifies this
      ensures open == NextOpen(old(open), e)
      ensures prevented <==> IsHotkey(e)
      ensures q == old(q) && links == old(links)
    {
      prevented := false;
      if (e.metaKey || e.ctrlKey) && Lower(e.key) == "k" {
        prevented := true;
        open := !open;
      }
      if e.key == "Escape" {
        open := false;
      }
    }

    /** The query input's change handler. */
    method OnInput(value: string)
      modifies this
      ensures q == value
      ensures open == old(open) && links == old(links)
    {
      q := value;
    }

    /** A click on the `i`-th listed entry: the link opens `href` in a new browsing context
        and the palette closes. Entries are only on screen while the palette is open. */
    method Pick(i: nat) returns (href: string)
      requires open && i < |List()|
      modifies this
      ensures href == old(List())[i].href
      ensures !open && q == old(q) && links == old(links)
      ensures Current() == Hidden
    {
      href := Filter(links, q)[i].href;
      open := false;
    }

    /** The page re-renders the palette with a new `links` prop (its descriptions follow
        the language); the palette's own state survives. */
    method SetLinks(newLinks: seq<Link>)
      modifies this
      ensures links == newLinks
      ensures open == old(open) && q == old(q)
    {
      links := newLinks;
    }
  }
}
