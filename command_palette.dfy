/**
 * The command palette (components/CommandPalette.tsx): eleven commands,
 * filtered by a case-insensitive substring search and listed in three
 * category sections.
 */
module CommandPalette {
  import opened Basics

  datatype Category = Actions | Navigation | Tools

  datatype Command = Command(id: string, icon: string, title: string, shortcut: string, category: Category)

  /** The command table, grouped by category in section order. */
  function Commands(): seq<Command>
  { [
    Command("docs", "\U{1F4CB}", "Request Documents", "\U{2318}\U{21E7}D", Actions),
    Command("call", "\U{1F4DE}", "Call Claimant", "\U{2318}\U{21E7}C", Actions),
    Command("siu", "\U{26A0}\U{FE0F}", "Flag for SIU", "\U{2318}\U{21E7}F", Actions),
    Command("step1", "1\U{FE0F}\U{20E3}", "Go to FNOL Intake", "\U{2318}1", Navigation),
    Command("step2", "2\U{FE0F}\U{20E3}", "Go to AI Triage", "\U{2318}2", Navigation),
    Command("step3", "3\U{FE0F}\U{20E3}", "Go to Pre-Investigation", "\U{2318}3", Navigation),
    Command("step4", "4\U{FE0F}\U{20E3}", "Go to Settlement", "\U{2318}4", Navigation),
    Command("chat", "\U{1F4AC}", "Open AI Chat", "\U{2318}J", Tools),
    Command("theme", "\U{1F319}", "Toggle Dark Mode", "\U{2318}D", Tools),
    Command("compare", "\U{1F4CA}", "Compare Similar Claims", "\U{2318}I", Tools),
    Command("timeline", "\U{1F4CD}", "View Timeline", "\U{2318}T", Tools)
  ]
  }

  /** The sections, in the order they are drawn. */
  const SectionOrder: seq<Category> := [Actions, Navigation, Tools]

  /** A command matches when its lower-cased title (the `label` field) includes the lower-cased search. */
  predicate Matches(search: string, c: Command)
  {
    Contains(Lower(c.title), Lower(search))
  }

  /** `commands.filter(...)`: the matching commands in table order. */
  function FilteredCommands(search: string): (r: seq<Command>)
    ensures |r| <= |Commands()|
    ensures forall i :: 0 <= i < |r| ==> r[i] in Commands() && Matches(search, r[i])
    ensures forall i :: 0 <= i < |Commands()| && Matches(search, Commands()[i]) ==> Commands()[i] in r
  {
    var p := (c: Command) => Matches(search, c);
    FilterMembers(Commands(), p);
    Filter(Commands(), p)
  }

  /** With an empty search every command is listed, in table order. */
  lemma {:induction false} EmptySearchListsAll()
    ensures FilteredCommands("") == Commands()
    ensures |FilteredCommands("")| == 11
  {
    forall i | 0 <= i < |Commands()|
      ensures Matches("", Commands()[i])
    {
      ContainsEmpty(Lower(Commands()[i].title));
    }
  }

  /**
   * Typing more only narrows the list: the commands matching a search that
   * includes `search` are those of `FilteredCommands(search)` that match it, in
   * the same order.
   */
  lemma {:induction false} LongerSearchNarrows(search: string, longer: string)
    requires Contains(longer, search)
    ensures FilteredCommands(longer) == Filter(FilteredCommands(search), (c: Command) => Matches(longer, c))
    ensures forall c :: c in FilteredCommands(longer) ==> c in FilteredCommands(search)
  {
    ContainsLower(longer, search);
    forall c: Command | Matches(longer, c)
      ensures Matches(search, c)
    {
      ContainsTransitive(Lower(c.title), Lower(longer), Lower(search));
    }
    FilterNarrow(Commands(), (c: Command) => Matches(search, c), (c: Command) => Matches(longer, c));
  }

  // ---------------------------------------------------------------------------
  // Sections

  datatype Section = Section(category: Category, commands: seq<Command>)

  /** The commands of one category, in their order. */
  function InCategory(s: seq<Command>, category: Category): (r: seq<Command>)
    ensures forall i :: 0 <= i < |r| ==> r[i].category == category
  {
    Filter(s, (c: Command) => c.category == category)
  }

  /** A section is drawn only when it has commands (`return null` otherwise). */
  function Drawn(section: Section): (r: seq<Section>)
    ensures r == [] <==> section.commands == []
  {
    if section.commands == [] then [] else [section]
  }

  /** The sections drawn for a filtered list, in actions/navigation/tools order. */
  function SectionsOf(f: seq<Command>): seq<Section>
  {
    Drawn(Section(Actions, InCategory(f, Actions)))
    + Drawn(Section(Navigation, InCategory(f, Navigation)))
    + Drawn(Section(Tools, InCategory(f, Tools)))
  }

  /** The sections drawn for a search. */
  function Sections(search: string): seq<Section>
  {
    SectionsOf(FilteredCommands(search))
  }

  /** The commands of a list of sections, read top to bottom. */
  function Flatten(sections: seq<Section>): seq<Command>
  {
    if sections == [] then [] else sections[0].commands + Flatten(sections[1..])
  }

  lemma {:induction false} FlattenAppend(a: seq<Section>, b: seq<Section>)
    ensures Flatten(a + b) == Flatten(a) + Flatten(b)
  {
    if a == [] {
      assert a + b == b;
    } else {
      assert (a + b)[1..] == a[1..] + b;
      FlattenAppend(a[1..], b);
    }
  }

  /** Every command of `block` belongs to `category`. */
  predicate AllIn(block: seq<Command>, category: Category)
  {
    forall k :: 0 <= k < |block| ==> block[k].category == category
  }

  /** The command table is grouped by category: three actions, four navigation commands, four tools. */
  lemma TableGrouped()
    ensures Commands() == Commands()[..3] + Commands()[3..7] + Commands()[7..]
    ensures AllIn(Commands()[..3], Actions)
    ensures AllIn(Commands()[3..7], Navigation)
    ensures AllIn(Commands()[7..], Tools)
  {
  }

  /** Filtering one block of a single category by that category keeps it; by another, drops it. */
  lemma BlockInCategory(block: seq<Command>, own: Category, other: Category, m: Command -> bool)
    requires AllIn(block, own) && own != other
    ensures InCategory(Filter(block, m), own) == Filter(block, m)
    ensures InCategory(Filter(block, m), other) == []
  {
    FilterMembers(block, m);
  }

  /** Taking one category of three concatenated lists takes it from each. */
  lemma InCategoryAppend(a: seq<Command>, b: seq<Command>, c: seq<Command>, category: Category)
    ensures InCategory(a + b + c, category) == InCategory(a, category) + InCategory(b, category) + InCategory(c, category)
  {
    var p := (x: Command) => x.category == category;
    FilterAppend(a + b, c, p);
    FilterAppend(a, b, p);
  }

  /** For a table grouped by category, each category's part of a filtered list is the filtered block of that category. */
  lemma CategoryParts(a: seq<Command>, n: seq<Command>, t: seq<Command>, m: Command -> bool)
    requires AllIn(a, Actions) && AllIn(n, Navigation) && AllIn(t, Tools)
    ensures InCategory(Filter(a, m) + Filter(n, m) + Filter(t, m), Actions) == Filter(a, m)
    ensures InCategory(Filter(a, m) + Filter(n, m) + Filter(t, m), Navigation) == Filter(n, m)
    ensures InCategory(Filter(a, m) + Filter(n, m) + Filter(t, m), Tools) == Filter(t, m)
  {
    var fa, fn, ft := Filter(a, m), Filter(n, m), Filter(t, m);
    BlockInCategory(a, Actions, Navigation, m);
    BlockInCategory(a, Actions, Tools, m);
    BlockInCategory(n, Navigation, Actions, m);
    BlockInCategory(n, Navigation, Tools, m);
    BlockInCategory(t, Tools, Actions, m);
    BlockInCategory(t, Tools, Navigation, m);
    InCategoryAppend(fa, fn, ft, Actions);
    InCategoryAppend(fa, fn, ft, Navigation);
    InCategoryAppend(fa, fn, ft, Tools);
  }

  /** Reading the three possibly-drawn sections top to bottom gives their commands in order. */
  lemma FlattenDrawn(sa: Section, sn: Section, st: Section)
    ensures Flatten(Drawn(sa) + Drawn(sn) + Drawn(st)) == sa.commands + sn.commands + st.commands
  {
    FlattenAppend(Drawn(sa) + Drawn(sn), Drawn(st));
    FlattenAppend(Drawn(sa), Drawn(sn));
    assert Flatten(Drawn(sa)) == sa.commands;
    assert Flatten(Drawn(sn)) == sn.commands;
    assert Flatten(Drawn(st)) == st.commands;
  }

  /** Over a filtered table grouped by category, the drawn sections list the filtered commands in order, none empty. */
  lemma SectionsOfGrouped(a: seq<Command>, n: seq<Command>, t: seq<Command>, m: Command -> bool)
    requires AllIn(a, Actions) && AllIn(n, Navigation) && AllIn(t, Tools)
    ensures Flatten(SectionsOf(Filter(a + n + t, m))) == Filter(a + n + t, m)
    ensures forall k :: 0 <= k < |SectionsOf(Filter(a + n + t, m))| ==> SectionsOf(Filter(a + n + t, m))[k].commands != []
  {
    FilterAppend(a + n, t, m);
    FilterAppend(a, n, m);
    var f := Filter(a, m) + Filter(n, m) + Filter(t, m);
    CategoryParts(a, n, t, m);
    FlattenDrawn(Section(Actions, InCategory(f, Actions)),
                 Section(Navigation, InCategory(f, Navigation)),
                 Section(Tools, InCategory(f, Tools)));
  }

  /**
   * The drawn sections list exactly the filtered commands, in order, with no
   * empty section; so nothing is drawn exactly when no command matches, which
   * is when "No commands found." appears.
   */
  lemma SectionsCoverFiltered(search: string)
    ensures Flatten(Sections(search)) == FilteredCommands(search)
    ensures forall i :: 0 <= i < |Sections(search)| ==> Sections(search)[i].commands != []
    ensures Sections(search) == [] <==> FilteredCommands(search) == []
  {
    TableGrouped();
    SectionsOfGrouped(Commands()[..3], Commands()[3..7], Commands()[7..], (c: Command) => Matches(search, c));
  }

  /** Every drawn section lists only its own category, and sections follow the fixed order. */
  lemma SectionsOrdered(f: seq<Command>)
    ensures |SectionsOf(f)| <= |SectionOrder|
    ensures forall i, j :: 0 <= i < j < |SectionsOf(f)| ==>
              Rank(SectionsOf(f)[i].category) < Rank(SectionsOf(f)[j].category)
    ensures forall i, k :: 0 <= i < |SectionsOf(f)| && 0 <= k < |SectionsOf(f)[i].commands| ==>
              SectionsOf(f)[i].commands[k].category == SectionsOf(f)[i].category
  {
    var sa, sn, st := Section(Actions, InCategory(f, Actions)),
                      Section(Navigation, InCategory(f, Navigation)),
                      Section(Tools, InCategory(f, Tools));
    var r := SectionsOf(f);
    assert r == Drawn(sa) + Drawn(sn) + Drawn(st);
    assert forall i :: 0 <= i < |r| ==> r[i] == sa || r[i] == sn || r[i] == st;
  }

  /** The position of a category's section in SectionOrder. */
  function Rank(category: Category): (n: nat)
    ensures n < |SectionOrder| && SectionOrder[n] == category
  {
    match category
    case Actions => 0
    case Navigation => 1
    case Tools => 2
  }

  // ---------------------------------------------------------------------------
  // The component

  datatype Effect = RunAction(id: string) | Close

  class Palette {
    var isOpen: bool
    var search: string

    constructor (isOpen: bool)
      ensures this.isOpen == isOpen && search == ""
    {
      this.isOpen := isOpen;
      search := "";
    }

    /** The `isOpen` prop changes; the effect clears the search when the palette opens. */
    method SetOpen(open: bool)
      modifies this
      ensures isOpen == open
      ensures search == if open && !old(isOpen) then "" else old(search)
    {
      if open != isOpen {
        isOpen := open;
        if open {
          search := "";
        }
      }
    }

    method Type(text: string)
      modifies this
      ensures search == text && isOpen == old(isOpen)
    {
      search := text;
    }

    /** Clicking a command runs its action and then closes the palette. */
    method Select(c: Command) returns (effects: seq<Effect>)
      ensures effects == [RunAction(c.id), Close]
    {
      effects := [RunAction(c.id), Close];
    }

    /** What is drawn: nothing while closed, otherwise the sections for the current search. */
    function Shown(): (r: Option<seq<Section>>)
      reads this
      ensures r.Some? <==> isOpen
    {
      if isOpen then Some(Sections(search)) else None
    }

    /** "No commands found." appears exactly when the palette is open and nothing matches. */
    predicate ShowsNoCommands()
      reads this
    {
      isOpen && FilteredCommands(search) == []
    }
  }
}
