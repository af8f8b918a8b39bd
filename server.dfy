/**
 * The three formatting tools of the server: the grouped listing of the
 * catalog, the characteristics report of one breed, and the structured
 * enhancement record handed to a prompt writer.
 */
module Server {
  import opened Wrappers
  import opened Text
  import opened BreedData

  // ---------------------------------------------------------------- list_available_breeds

  /** The prefix of every bullet line. */
  const Bullet: string := "  • "

  const ListingHeader: string := "Available Dog Breeds for Aesthetic Enhancement:\n"

  /**
   * The order in which the listing presents the groups. It is the tool's own
   * constant; `CatalogLayout` proves that the catalog's blocks follow it.
   */
  const GroupOrder: seq<string> := ["Sporting", "Hound", "Working", "Terrier", "Toy", "Non-Sporting", "Herding"]

  const UsageLine: string := "\n\nUsage: Call enhance_with_breed_aesthetic() with a breed name and your base prompt."

  function GroupHeading(g: string): string {
    "\n" + g + " Group:"
  }

  /** One `"  • name"` line per name, in the given order. */
  function Bullets(names: seq<string>): (r: seq<string>)
    ensures |r| == |names|
    ensures forall i :: 0 <= i < |names| ==> r[i] == Bullet + names[i]
  {
    seq(|names|, i requires 0 <= i < |names| => Bullet + names[i])
  }

  /**
   * `breeds_by_group` as `list_available_breeds` fills it from the entries
   * `es`: each group that occurs, mapped to its members' names in table order.
   */
  ghost function GroupsOf(es: seq<Entry>): map<string, seq<string>> {
    map g | g in Groups(es) :: NamesInGroup(es, g)
  }

  /**
   * The lines one group contributes to the listing: its heading and one
   * bullet per member in sorted order, or nothing when the group is absent.
   */
  function GroupSection(byGroup: map<string, seq<string>>, g: string): seq<string> {
    if g in byGroup then [GroupHeading(g)] + Bullets(SortStrings(byGroup[g])) else []
  }

  /** The sections of the groups `gs`, in that order. */
  function Sections(byGroup: map<string, seq<string>>, gs: seq<string>): seq<string> {
    Concat(SectionList(byGroup, gs))
  }

  /** The section of each group of `gs`, in that order. */
  function SectionList(byGroup: map<string, seq<string>>, gs: seq<string>): (r: seq<seq<string>>)
    ensures |r| == |gs|
    ensures forall k :: 0 <= k < |gs| ==> r[k] == GroupSection(byGroup, gs[k])
  {
    seq(|gs|, k requires 0 <= k < |gs| => GroupSection(byGroup, gs[k]))
  }

  /** The lines of the listing: the header, the group sections in canonical order, the usage line. */
  function ListingLines(byGroup: map<string, seq<string>>): seq<string> {
    [ListingHeader] + Sections(byGroup, GroupOrder) + [UsageLine]
  }

  /** The text `list_available_breeds` returns: the catalog's listing lines joined with newlines. */
  ghost function Listing(): string {
    Join(ListingLines(GroupsOf(BreedTable)), "\n")
  }

  /** Appending one more entry to a prefix of the table extends each group's names by at most that entry's name. */
  lemma NamesInGroupSnoc(es: seq<Entry>, i: nat, g: string)
    requires i < |es|
    ensures NamesInGroup(es[..i + 1], g) ==
      NamesInGroup(es[..i], g) + (if es[i].record.group == g then [es[i].record.name] else [])
  {
    assert es[..i + 1][..i] == es[..i];
  }

  /** A group occurs among the entries exactly when it has names there. */
  lemma GroupsNames(es: seq<Entry>, g: string)
    ensures g in Groups(es) <==> NamesInGroup(es, g) != []
  {
    if es != [] {
      var init := es[..|es| - 1];
      GroupsNames(init, g);
      assert Groups(es) == Groups(init) + {es[|es| - 1].record.group};
    }
  }

  /** The first loop of `list_available_breeds`: `breeds_by_group`, filled entry by entry. */
  method GroupBreeds(es: seq<Entry>) returns (byGroup: map<string, seq<string>>)
    ensures byGroup == GroupsOf(es)
  {
    byGroup := map[];
    var i := 0;
    while i < |es|
      invariant 0 <= i <= |es|
      invariant byGroup == GroupsOf(es[..i])
    {
      var rec := es[i].record;
      ghost var prefix := es[..i];
      if rec.group !in byGroup {
        byGroup := byGroup[rec.group := []];
      }
      byGroup := byGroup[rec.group := byGroup[rec.group] + [rec.name]];
      forall g ensures g in byGroup <==> g in GroupsOf(es[..i + 1])
        ensures g in byGroup ==> byGroup[g] == GroupsOf(es[..i + 1])[g]
      {
        NamesInGroupSnoc(es, i, g);
        GroupsNames(prefix, g);
        GroupsNames(es[..i + 1], g);
      }
      i := i + 1;
    }
    assert es[..i] == es;
  }

  /** The innermost loop of `list_available_breeds`: one bullet line per name. */
  method AppendBullets(output: seq<string>, names: seq<string>) returns (out: seq<string>)
    ensures out == output + Bullets(names)
  {
    out := output;
    var j := 0;
    while j < |names|
      invariant 0 <= j <= |names|
      invariant out == output + Bullets(names[..j])
    {
      assert Bullets(names[..j + 1]) == Bullets(names[..j]) + [Bullet + names[j]];
      out := out + [Bullet + names[j]];
      j := j + 1;
    }
    assert names[..j] == names;
  }

  /** The body of the loop over the groups: a group's heading and sorted bullets, when it has members. */
  method AppendSection(output: seq<string>, byGroup: map<string, seq<string>>, g: string) returns (out: seq<string>)
    ensures out == output + GroupSection(byGroup, g)
  {
    out := output;
    if g in byGroup {
      out := out + [GroupHeading(g)];
      out := AppendBullets(out, SortStrings(byGroup[g]));
    }
  }

  /** One more group extends the sections by that group's section. */
  lemma SectionsSnoc(byGroup: map<string, seq<string>>, gs: seq<string>, k: nat)
    requires k < |gs|
    ensures Sections(byGroup, gs[..k + 1]) == Sections(byGroup, gs[..k]) + GroupSection(byGroup, gs[k])
  {
    assert SectionList(byGroup, gs[..k + 1]) == SectionList(byGroup, gs[..k]) + [GroupSection(byGroup, gs[k])];
    ConcatSnoc(SectionList(byGroup, gs[..k]), GroupSection(byGroup, gs[k]));
  }

  lemma ConcatAssoc(a: seq<string>, b: seq<string>, c: seq<string>)
    ensures a + b + c == a + (b + c)
  {
  }

  /** The loop over the canonical group order: the sections of the groups `gs`. */
  method RenderSections(output: seq<string>, byGroup: map<string, seq<string>>, gs: seq<string>)
    returns (out: seq<string>)
    ensures out == output + Sections(byGroup, gs)
  {
    out := output;
    var k := 0;
    while k < |gs|
      invariant 0 <= k <= |gs|
      invariant out == output + Sections(byGroup, gs[..k])
    {
      SectionsSnoc(byGroup, gs, k);
      ghost var done := Sections(byGroup, gs[..k]);
      out := AppendSection(out, byGroup, gs[k]);
      ConcatAssoc(output, done, GroupSection(byGroup, gs[k]));
      k := k + 1;
    }
    assert gs[..k] == gs;
  }

  /** The second part of `list_available_breeds`: the output lines. */
  method RenderListing(byGroup: map<string, seq<string>>) returns (output: seq<string>)
    ensures output == ListingLines(byGroup)
  {
    output := RenderSections([ListingHeader], byGroup, GroupOrder);
    output := output + [UsageLine];
  }

  /**
   * `list_available_breeds`: the header, each non-empty group of the
   * canonical order with its names sorted, and the usage line, joined by
   * newlines. The catalog is read in its insertion order.
   */
  method ListAvailableBreeds() returns (r: string)
    ensures r == Listing()
  {
    var byGroup := GroupBreeds(BreedTable);
    var output := RenderListing(byGroup);
    r := Join(output, "\n");
  }

  // ---------------------------------------------------------------- the listing of the catalog

  /**
   * The entries `es` come in consecutive blocks of three, one block per
   * label of `gs`, in the order of `gs`, and the labels are all different.
   */
  ghost predicate BlockLayout(es: seq<Entry>, gs: seq<string>) {
    |es| == 3 * |gs| &&
    (forall i :: 0 <= i < |es| ==> es[i].record.group == gs[i / 3]) &&
    (forall a, b :: 0 <= a < b < |gs| ==> gs[a] != gs[b])
  }

  /** The catalog is laid out in blocks of three in the canonical group order. */
  lemma CatalogLayout()
    ensures BlockLayout(BreedTable, GroupOrder)
  {
    TableSize();
    TableLayout();
    assert GroupOrder == TableGroupLabels;
  }

  /** In a block layout, group `gs[k]` has exactly the names of the k-th block. */
  lemma LayoutGroup(es: seq<Entry>, gs: seq<string>, k: nat)
    requires BlockLayout(es, gs) && k < |gs|
    ensures gs[k] in GroupsOf(es)
    ensures GroupsOf(es)[gs[k]] == Names(es[3 * k..3 * k + 3])
  {
    var g := gs[k];
    forall i | 0 <= i < |es| ensures es[i].record.group == g <==> 3 * k <= i < 3 * k + 3 {
      assert es[i].record.group == gs[i / 3];
      assert gs[i / 3] == g <==> i / 3 == k;
    }
    NamesInGroupBlock(es, g, 3 * k, 3 * k + 3, |es|);
    assert es[..|es|] == es;
    GroupsNames(es, g);
  }

  /** In a block layout, the section of group `gs[k]` is its heading and the sorted names of the k-th block. */
  lemma LayoutSection(es: seq<Entry>, gs: seq<string>, k: nat)
    requires BlockLayout(es, gs) && k < |gs|
    ensures GroupSection(GroupsOf(es), gs[k]) == [GroupHeading(gs[k])] + Bullets(SortStrings(Names(es[3 * k..3 * k + 3])))
    ensures |GroupSection(GroupsOf(es), gs[k])| == 4
  {
    LayoutGroup(es, gs, k);
    SortStringsLength(Names(es[3 * k..3 * k + 3]));
  }

  /**
   * The listing of a table laid out in blocks: the header, then for each
   * group in canonical order its heading followed by the bullets of its
   * three members in sorted order, then the usage line.
   */
  lemma LayoutListing(es: seq<Entry>)
    requires BlockLayout(es, GroupOrder)
    ensures |ListingLines(GroupsOf(es))| == 30
    ensures ListingLines(GroupsOf(es))[0] == ListingHeader
    ensures ListingLines(GroupsOf(es))[29] == UsageLine
    ensures forall k :: 0 <= k < |GroupOrder| ==>
      ListingLines(GroupsOf(es))[1 + 4 * k] == GroupHeading(GroupOrder[k]) &&
      ListingLines(GroupsOf(es))[2 + 4 * k..5 + 4 * k] == Bullets(SortStrings(Names(es[3 * k..3 * k + 3])))
  {
    var m := GroupsOf(es);
    var parts := SectionList(m, GroupOrder);
    forall k | 0 <= k < |GroupOrder|
      ensures |parts[k]| == 4
      ensures parts[k][0] == GroupHeading(GroupOrder[k])
      ensures parts[k][1..] == Bullets(SortStrings(Names(es[3 * k..3 * k + 3])))
    {
      LayoutSection(es, GroupOrder, k);
    }
    FramedFours(ListingHeader, parts, UsageLine);
  }

  /** Lines that start with the header and hold each group's heading at every fourth place name every group. */
  lemma HeadingsInText(lines: seq<string>)
    requires |lines| == 30 && lines[0] == ListingHeader
    requires forall k :: 0 <= k < |GroupOrder| ==> lines[1 + 4 * k] == GroupHeading(GroupOrder[k])
    ensures Contains(Join(lines, "\n"), "Available Dog Breeds")
    ensures forall g :: g in GroupOrder ==> Contains(Join(lines, "\n"), g + " Group:")
  {
    var text := Join(lines, "\n");
    JoinContainsPart(lines, "\n", 0);
    HeaderMentionsCatalog();
    ContainsTransitive(text, ListingHeader, "Available Dog Breeds");
    forall g | g in GroupOrder ensures Contains(text, g + " Group:") {
      var k :| 0 <= k < |GroupOrder| && GroupOrder[k] == g;
      JoinContainsPart(lines, "\n", 1 + 4 * k);
      HeadingMentionsGroup(g);
      ContainsTransitive(text, GroupHeading(g), g + " Group:");
    }
  }

  lemma HeaderMentionsCatalog()
    ensures Contains(ListingHeader, "Available Dog Breeds")
  {
    assert ListingHeader[..20] == "Available Dog Breeds";
    assert OccursAt(ListingHeader, "Available Dog Breeds", 0);
  }

  lemma HeadingMentionsGroup(g: string)
    ensures Contains(GroupHeading(g), g + " Group:")
  {
    assert GroupHeading(g) == "\n" + (g + " Group:") + "";
    ContainsInfix("\n", g + " Group:", "");
  }

  /** When some lines are the bullets of a sorted list of names, each of those names has its bullet in the text. */
  lemma BulletInText(lines: seq<string>, start: nat, names: seq<string>, name: string)
    requires start + |names| <= |lines|
    requires lines[start..start + |names|] == Bullets(SortStrings(names))
    requires name in names
    ensures Contains(Join(lines, "\n"), Bullet + name)
  {
    var sorted := SortStrings(names);
    SortStringsLength(names);
    assert name in multiset(names);
    var j :| 0 <= j < |sorted| && sorted[j] == name;
    assert lines[start + j] == lines[start..start + |names|][j];
    JoinContainsPart(lines, "\n", start + j);
  }

  /** In the listing of a block layout, `"{group} Group:"` occurs for every group of the canonical order. */
  lemma LayoutListingGroups(es: seq<Entry>)
    requires BlockLayout(es, GroupOrder)
    ensures Contains(Join(ListingLines(GroupsOf(es)), "\n"), "Available Dog Breeds")
    ensures forall g :: g in GroupOrder ==> Contains(Join(ListingLines(GroupsOf(es)), "\n"), g + " Group:")
  {
    LayoutListing(es);
    HeadingsInText(ListingLines(GroupsOf(es)));
  }

  /** Entry `i` belongs to the block of three that starts at `3 * (i / 3)`. */
  lemma BlockOfEntry(es: seq<Entry>, i: nat)
    requires BlockLayout(es, GroupOrder) && i < |es|
    ensures i / 3 < |GroupOrder|
    ensures es[i].record.name in Names(es[3 * (i / 3)..3 * (i / 3) + 3])
  {
    var k := i / 3;
    assert Names(es[3 * k..3 * k + 3])[i - 3 * k] == es[i].record.name;
  }

  /** In the listing of a block layout, every entry has its bullet line `"  • {name}"`. */
  lemma LayoutListingBreeds(es: seq<Entry>)
    requires BlockLayout(es, GroupOrder)
    ensures forall i :: 0 <= i < |es| ==> Contains(Join(ListingLines(GroupsOf(es)), "\n"), Bullet + es[i].record.name)
  {
    var lines := ListingLines(GroupsOf(es));
    LayoutListing(es);
    forall i | 0 <= i < |es| ensures Contains(Join(lines, "\n"), Bullet + es[i].record.name) {
      BlockOfEntry(es, i);
      BulletInText(lines, 2 + 4 * (i / 3), Names(es[3 * (i / 3)..3 * (i / 3) + 3]), es[i].record.name);
    }
  }

  /**
   * The catalog's listing has 30 lines: the header, then for each of the
   * seven groups in canonical order its heading followed by the bullets of
   * its three members in sorted order, then the usage line.
   */
  lemma ListingShape()
    ensures |ListingLines(GroupsOf(BreedTable))| == 30
    ensures ListingLines(GroupsOf(BreedTable))[0] == ListingHeader
    ensures ListingLines(GroupsOf(BreedTable))[29] == UsageLine
    ensures forall k :: 0 <= k < |GroupOrder| ==>
      ListingLines(GroupsOf(BreedTable))[1 + 4 * k] == GroupHeading(GroupOrder[k]) &&
      ListingLines(GroupsOf(BreedTable))[2 + 4 * k..5 + 4 * k] == Bullets(SortStrings(Names(BreedTable[3 * k..3 * k + 3])))
  {
    CatalogLayout();
    LayoutListing(BreedTable);
  }

  /** The listing names every one of the seven groups: `"{group} Group:"` occurs in it. */
  lemma ListingHasAllGroups()
    ensures Contains(Listing(), "Available Dog Breeds")
    ensures forall g :: g in GroupOrder ==> Contains(Listing(), g + " Group:")
  {
    CatalogLayout();
    LayoutListingGroups(BreedTable);
  }

  /** Every record of the catalog has its bullet line `"  • {name}"` in the listing. */
  lemma ListingHasEveryBreed()
    ensures forall i :: 0 <= i < |BreedTable| ==> Contains(Listing(), Bullet + BreedTable[i].record.name)
  {
    CatalogLayout();
    LayoutListingBreeds(BreedTable);
  }

  // ---------------------------------------------------------------- get_breed_characteristics

  /** `key.replace('_', ' ').title()`: the label a report shows for a sub-mapping key. */
  function Label(key: string): string {
    Title(ReplaceChar(key, '_', ' '))
  }

  /** The report line of one key and value of a sub-mapping. */
  function ItemLine(item: Item): string {
    Bullet + Label(item.0) + ": " + item.1
  }

  /** One report line per item, in the sub-mapping's key order. */
  function ItemLines(items: seq<Item>): (r: seq<string>)
    ensures |r| == |items|
    ensures forall i :: 0 <= i < |items| ==> r[i] == ItemLine(items[i])
  {
    seq(|items|, i requires 0 <= i < |items| => ItemLine(items[i]))
  }

  /** The opening lines of a report: name, group, scale and visual essence. */
  function ReportHead(rec: BreedRecord): seq<string> {
    [
      "=== " + rec.name + " ===",
      "Group: " + rec.group,
      "Scale: " + rec.scale,
      "",
      "Visual Essence:",
      "  " + rec.visualEssence,
      "",
      "Proportions:"
    ]
  }

  /** The closing line of a report: the palette joined with commas. */
  function PaletteLine(rec: BreedRecord): string {
    "  " + Join(rec.colorPalette, ", ")
  }

  /** The lines of the report on one record, in their fixed order. */
  function ReportLines(rec: BreedRecord): seq<string> {
    ReportHead(rec) + ItemLines(ProportionsItems(rec.proportions))
    + ["\nCoat:"] + ItemLines(CoatItems(rec.coat))
    + ["\nMovement:"] + ItemLines(MovementItems(rec.movement))
    + ["\nTemperament Aesthetic:"] + ItemLines(TemperamentItems(rec.temperamentAesthetic))
    + ["\nColor Palette:", PaletteLine(rec)]
  }

  /** The first line of the text for an unknown breed, quoting the input as given. */
  function NotFoundPreamble(raw: string): string {
    "Breed '" + raw + "' not found. Available breeds:\n"
  }

  /** The preamble followed by one bullet per name, one per line. */
  function NotFoundText(raw: string, names: seq<string>): string {
    NotFoundPreamble(raw) + Join(Bullets(names), "\n")
  }

  /** The text for an unknown breed: the preamble, then one bullet per display name in sorted order. */
  function NotFoundReport(raw: string): string {
    NotFoundText(raw, GetBreedNames())
  }

  /** What `get_breed_characteristics` returns for the input `raw`. */
  function BreedReport(raw: string): string {
    match GetBreedData(NormalizeBreedName(raw))
    case None => NotFoundReport(raw)
    case Some(rec) => Join(ReportLines(rec), "\n")
  }

  /** One of the four append loops of `get_breed_characteristics`. */
  method AppendItems(output: seq<string>, items: seq<Item>) returns (out: seq<string>)
    ensures out == output + ItemLines(items)
  {
    out := output;
    var j := 0;
    while j < |items|
      invariant 0 <= j <= |items|
      invariant out == output + ItemLines(items[..j])
    {
      assert ItemLines(items[..j + 1]) == ItemLines(items[..j]) + [ItemLine(items[j])];
      out := out + [ItemLine(items[j])];
      j := j + 1;
    }
    assert items[..j] == items;
  }

  /**
   * `get_breed_characteristics`: normalises the input and looks it up; an
   * unknown breed gets the not-found text, a known one its report.
   */
  method GetBreedCharacteristics(breedName: string) returns (r: string)
    ensures r == BreedReport(breedName)
  {
    var key := NormalizeBreedName(breedName);
    var data := GetBreedData(key);
    if data.None? {
      var available := GetBreedNames();
      r := NotFoundText(breedName, available);
      return;
    }
    var output := RenderReport(data.value);
    r := Join(output, "\n");
  }

  /** The success path of `get_breed_characteristics`: the report's lines, section by section. */
  method RenderReport(rec: BreedRecord) returns (output: seq<string>)
    ensures output == ReportLines(rec)
  {
    output := ReportHead(rec);
    output := AppendItems(output, ProportionsItems(rec.proportions));
    output := output + ["\nCoat:"];
    output := AppendItems(output, CoatItems(rec.coat));
    output := output + ["\nMovement:"];
    output := AppendItems(output, MovementItems(rec.movement));
    output := output + ["\nTemperament Aesthetic:"];
    output := AppendItems(output, TemperamentItems(rec.temperamentAesthetic));
    output := output + ["\nColor Palette:"];
    output := output + [PaletteLine(rec)];
  }


  // ---------------------------------------------------------------- properties of the report

  /** A line of the form `pre + t + post` puts `t` into the joined text. */
  lemma LineInText(lines: seq<string>, k: nat, pre: string, t: string, post: string)
    requires k < |lines| && lines[k] == pre + t + post
    ensures Contains(Join(lines, "\n"), t)
  {
    JoinContainsPart(lines, "\n", k);
    ContainsInfix(pre, t, post);
    ContainsTransitive(Join(lines, "\n"), lines[k], t);
  }

  /**
   * The report's 26 lines in their fixed order: name, group and scale, the
   * visual essence, the four sub-mappings each under its heading with its
   * keys in declared order, and the palette last.
   */
  lemma ReportShape(rec: BreedRecord)
    ensures |ReportLines(rec)| == 26
    ensures ReportLines(rec)[0] == "=== " + rec.name + " ==="
    ensures ReportLines(rec)[1] == "Group: " + rec.group
    ensures ReportLines(rec)[2] == "Scale: " + rec.scale
    ensures ReportLines(rec)[3] == ""
    ensures ReportLines(rec)[4] == "Visual Essence:" && ReportLines(rec)[5] == "  " + rec.visualEssence
    ensures ReportLines(rec)[6] == ""
    ensures ReportLines(rec)[7] == "Proportions:"
    ensures ReportLines(rec)[8..12] == ItemLines(ProportionsItems(rec.proportions))
    ensures ReportLines(rec)[12] == "\nCoat:"
    ensures ReportLines(rec)[13..16] == ItemLines(CoatItems(rec.coat))
    ensures ReportLines(rec)[16] == "\nMovement:"
    ensures ReportLines(rec)[17..20] == ItemLines(MovementItems(rec.movement))
    ensures ReportLines(rec)[20] == "\nTemperament Aesthetic:"
    ensures ReportLines(rec)[21..24] == ItemLines(TemperamentItems(rec.temperamentAesthetic))
    ensures ReportLines(rec)[24] == "\nColor Palette:"
    ensures ReportLines(rec)[25] == "  " + Join(rec.colorPalette, ", ")
  {
    var p := ItemLines(ProportionsItems(rec.proportions));
    var c := ItemLines(CoatItems(rec.coat));
    var m := ItemLines(MovementItems(rec.movement));
    var t := ItemLines(TemperamentItems(rec.temperamentAesthetic));
    assert |p| == 4 && |c| == 3 && |m| == 3 && |t| == 3;
    var lines := ReportHead(rec) + p + ["\nCoat:"] + c + ["\nMovement:"] + m
      + ["\nTemperament Aesthetic:"] + t + ["\nColor Palette:", PaletteLine(rec)];
    assert lines == ReportLines(rec);
    assert lines[8..12] == p;
    assert lines[13..16] == c;
    assert lines[17..20] == m;
    assert lines[21..24] == t;
  }

  /** The report names the breed and its group and has every section heading. */
  lemma ReportMentions(rec: BreedRecord)
    ensures Contains(Join(ReportLines(rec), "\n"), rec.name)
    ensures Contains(Join(ReportLines(rec), "\n"), "Group: " + rec.group)
    ensures Contains(Join(ReportLines(rec), "\n"), "Visual Essence:")
    ensures Contains(Join(ReportLines(rec), "\n"), "Proportions:")
    ensures Contains(Join(ReportLines(rec), "\n"), "Coat:")
    ensures Contains(Join(ReportLines(rec), "\n"), "Movement:")
    ensures Contains(Join(ReportLines(rec), "\n"), "Temperament Aesthetic:")
    ensures Contains(Join(ReportLines(rec), "\n"), "Color Palette:")
  {
    var lines := ReportLines(rec);
    ReportShape(rec);
    LineInText(lines, 0, "=== ", rec.name, " ===");
    LineInText(lines, 1, "", "Group: " + rec.group, "");
    LineInText(lines, 4, "", "Visual Essence:", "");
    LineInText(lines, 7, "", "Proportions:", "");
    LineInText(lines, 12, "\n", "Coat:", "");
    LineInText(lines, 16, "\n", "Movement:", "");
    LineInText(lines, 20, "\n", "Temperament Aesthetic:", "");
    LineInText(lines, 24, "\n", "Color Palette:", "");
  }

  lemma BodyRatioLabel()
    ensures Label("body_ratio") == "Body Ratio"
  {
  }

  lemma BuildLabel()
    ensures Label("build") == "Build"
  {
  }

  lemma HeadLabel()
    ensures Label("head") == "Head"
  {
  }

  lemma LegsLabel()
    ensures Label("legs") == "Legs"
  {
  }

  lemma TextureLabel()
    ensures Label("texture") == "Texture"
  {
  }

  lemma LengthLabel()
    ensures Label("length") == "Length"
  {
  }

  lemma QualitiesLabel()
    ensures Label("qualities") == "Qualities"
  {
  }

  lemma GaitLabel()
    ensures Label("gait") == "Gait"
  {
  }

  lemma EnergyLabel()
    ensures Label("energy") == "Energy"
  {
  }

  lemma MoodLabel()
    ensures Label("mood") == "Mood"
  {
  }

  lemma PresenceLabel()
    ensures Label("presence") == "Presence"
  {
  }

  lemma CharacterLabel()
    ensures Label("character") == "Character"
  {
    ReplaceUnchanged("character", '_', ' ');
    TitleWord("character");
  }

  /** Each sub-mapping is rendered key by key, in declared order, under its title-cased label. */
  lemma ReportItemLines(rec: BreedRecord)
    ensures ItemLines(ProportionsItems(rec.proportions)) == [
      Bullet + "Body Ratio" + ": " + rec.proportions.bodyRatio, Bullet + "Build" + ": " + rec.proportions.build,
      Bullet + "Head" + ": " + rec.proportions.head, Bullet + "Legs" + ": " + rec.proportions.legs]
    ensures ItemLines(CoatItems(rec.coat)) == [
      Bullet + "Texture" + ": " + rec.coat.texture, Bullet + "Length" + ": " + rec.coat.length,
      Bullet + "Qualities" + ": " + rec.coat.qualities]
    ensures ItemLines(MovementItems(rec.movement)) == [
      Bullet + "Gait" + ": " + rec.movement.gait, Bullet + "Energy" + ": " + rec.movement.energy,
      Bullet + "Qualities" + ": " + rec.movement.qualities]
    ensures ItemLines(TemperamentItems(rec.temperamentAesthetic)) == [
      Bullet + "Mood" + ": " + rec.temperamentAesthetic.mood,
      Bullet + "Presence" + ": " + rec.temperamentAesthetic.presence,
      Bullet + "Character" + ": " + rec.temperamentAesthetic.character]
  {
    BodyRatioLabel();
    BuildLabel();
    HeadLabel();
    LegsLabel();
    TextureLabel();
    LengthLabel();
    QualitiesLabel();
    GaitLabel();
    EnergyLabel();
    MoodLabel();
    PresenceLabel();
    CharacterLabel();
  }

  /** The preamble quotes the raw input. */
  lemma PreambleQuotesInput(raw: string, list: string)
    ensures Contains(NotFoundPreamble(raw) + list, "Breed '" + raw + "' not found")
  {
    assert NotFoundPreamble(raw) + list
      == "" + ("Breed '" + raw + "' not found") + (". Available breeds:\n" + list);
    ContainsInfix("", "Breed '" + raw + "' not found", ". Available breeds:\n" + list);
  }

  /** The preamble says "not found". */
  lemma PreambleSaysNotFound(raw: string, list: string)
    ensures Contains(NotFoundPreamble(raw) + list, "not found")
  {
    assert NotFoundPreamble(raw) + list
      == ("Breed '" + raw + "' ") + "not found" + (". Available breeds:\n" + list);
    ContainsInfix("Breed '" + raw + "' ", "not found", ". Available breeds:\n" + list);
  }

  /** The preamble announces the list with "Available breeds:". */
  lemma PreambleAnnouncesList(raw: string, list: string)
    ensures Contains(NotFoundPreamble(raw) + list, "Available breeds:")
  {
    assert NotFoundPreamble(raw) + list
      == ("Breed '" + raw + "' not found. ") + "Available breeds:" + ("\n" + list);
    ContainsInfix("Breed '" + raw + "' not found. ", "Available breeds:", "\n" + list);
  }

  /** "not found" has no upper-case letter, so it survives lower-casing. */
  lemma NotFoundLower(text: string)
    requires Contains(text, "not found")
    ensures Contains(Lower(text), "not found")
  {
    ContainsLower(text, "not found");
  }

  /**
   * The text for an unknown breed quotes the raw input, says "not found"
   * (also once lower-cased) and "Available breeds:", and has a bullet for
   * every name it is given.
   */
  lemma NotFoundTextFacts(raw: string, names: seq<string>)
    ensures Contains(NotFoundText(raw, names), "Breed '" + raw + "' not found")
    ensures Contains(Lower(NotFoundText(raw, names)), "not found")
    ensures Contains(NotFoundText(raw, names), "Available breeds:")
    ensures forall k :: 0 <= k < |names| ==> Contains(NotFoundText(raw, names), Bullet + names[k])
  {
    var list := Join(Bullets(names), "\n");
    PreambleQuotesInput(raw, list);
    PreambleSaysNotFound(raw, list);
    PreambleAnnouncesList(raw, list);
    NotFoundLower(NotFoundText(raw, names));
    forall k | 0 <= k < |names| ensures Contains(NotFoundText(raw, names), Bullet + names[k]) {
      JoinContainsPart(Bullets(names), "\n", k);
      ContainsExtend(list, Bullet + names[k], NotFoundPreamble(raw));
    }
  }
  /** The not-found text lists every display name of the catalog, in sorted order. */
  lemma NotFoundReportFacts(raw: string)
    ensures Contains(NotFoundReport(raw), "Breed '" + raw + "' not found")
    ensures Contains(Lower(NotFoundReport(raw)), "not found")
    ensures Contains(NotFoundReport(raw), "Available breeds:")
    ensures forall i :: 0 <= i < |BreedTable| ==> Contains(NotFoundReport(raw), Bullet + BreedTable[i].record.name)
  {
    var names := GetBreedNames();
    NotFoundTextFacts(raw, names);
    forall i | 0 <= i < |BreedTable| ensures Contains(NotFoundReport(raw), Bullet + BreedTable[i].record.name) {
      assert BreedTable[i].record.name == Names(BreedTable)[i];
      assert BreedTable[i].record.name in multiset(names);
      var k :| 0 <= k < |names| && names[k] == BreedTable[i].record.name;
    }
  }

  /** A name that normalizes to a catalog key gets the report on that key's record. */
  lemma ReportOfKnown(raw: string, rec: BreedRecord)
    requires GetBreedData(NormalizeBreedName(raw)) == Some(rec)
    ensures BreedReport(raw) == Join(ReportLines(rec), "\n")
  {
  }

  /** On the success path the report depends only on the normalized name. */
  lemma ReportDependsOnKey(a: string, b: string)
    requires NormalizeBreedName(a) == NormalizeBreedName(b)
    requires GetBreedData(NormalizeBreedName(a)).Some?
    ensures BreedReport(a) == BreedReport(b)
  {
  }

  /** A name that normalizes to no catalog key gets the not-found text. */
  lemma ReportOfUnknown(raw: string)
    requires GetBreedData(NormalizeBreedName(raw)) == None
    ensures BreedReport(raw) == NotFoundReport(raw)
  {
  }

  /**
   * "Greyhound", "greyhound" and "GREYHOUND" get the same report, the
   * Greyhound record's.
   */
  lemma GreyhoundReports()
    ensures BreedReport("Greyhound") == Join(ReportLines(Greyhound), "\n")
    ensures BreedReport("greyhound") == Join(ReportLines(Greyhound), "\n")
    ensures BreedReport("GREYHOUND") == Join(ReportLines(Greyhound), "\n")
  {
    NormalizeGreyhoundVariants();
    GreyhoundLookup();
    ReportOfKnown("Greyhound", Greyhound);
    ReportOfKnown("greyhound", Greyhound);
    ReportOfKnown("GREYHOUND", Greyhound);
  }

  /** The report on a catalog breed names the breed and its group. */
  lemma KnownReportMentions(raw: string, rec: BreedRecord)
    requires GetBreedData(NormalizeBreedName(raw)) == Some(rec)
    ensures Contains(BreedReport(raw), rec.name)
    ensures Contains(BreedReport(raw), "Group: " + rec.group)
  {
    ReportOfKnown(raw, rec);
    ReportMentions(rec);
  }

  lemma HoundGroupLine()
    ensures "Group: " + "Hound" == "Group: Hound"
  {
  }

  /** The Greyhound report names the breed and its group. */
  lemma GreyhoundReportMentions()
    ensures Contains(BreedReport("Greyhound"), "Greyhound")
    ensures Contains(BreedReport("Greyhound"), "Group: Hound")
  {
    NormalizeGreyhoundVariants();
    GreyhoundLookup();
    GreyhoundFields();
    HoundGroupLine();
    KnownReportMentions("Greyhound", Greyhound);
  }

  /** An unknown name gets the not-found text. */
  lemma UnknownBreedReport()
    ensures BreedReport("Invalid Breed Name") == NotFoundReport("Invalid Breed Name")
    ensures Contains(Lower(BreedReport("Invalid Breed Name")), "not found")
    ensures Contains(BreedReport("Invalid Breed Name"), "Available breeds:")
  {
    NormalizeOtherExamples();
    InvalidBreedNameLookup();
    ReportOfUnknown("Invalid Breed Name");
    NotFoundTextFacts("Invalid Breed Name", GetBreedNames());
  }


  // ---------------------------------------------------------------- enhance_with_breed_aesthetic

  /** The `characteristics` mapping of an enhancement: the record's detail, by category. */
  datatype Characteristics = Characteristics(
    proportions: Proportions,
    coat: Coat,
    movement: Movement,
    temperamentAesthetic: Temperament,
    colorPalette: seq<string>,
    scale: string)

  /** The mapping the tool returns: the enhancement data, or the error mapping for an unknown breed. */
  datatype Enhancement =
    | Enhanced(
        breedName: string,
        breedGroup: string,
        basePrompt: string,
        emphasisLevel: string,
        visualEssence: string,
        characteristics: Characteristics,
        synthesisInstruction: string)
    | BreedNotFound(error: string, availableBreeds: seq<string>, suggestion: string)

  const Suggestion: string := "Use list_available_breeds() to see all options"

  const InstructionOpening: string := "\nCreate an enhanced image generation prompt by weaving "

  const InstructionTask: string := " aesthetic characteristics into the base prompt.\n\n"

  const InstructionLevels: string :=
    "\n- subtle: Gentle influence, mostly preserve original tone"
    + "\n- moderate: Balanced integration of breed aesthetics"
    + "\n- strong: Pronounced breed characteristics throughout"
    + "\n\nKey aesthetic qualities to integrate:\n"

  /** The fixed tail of the instruction; "- Coat texture and qualities" keeps its two trailing spaces. */
  const InstructionClosing: string :=
    "\n\nDraw from these breed characteristics as appropriate:"
    + "\n- Physical proportions and build"
    + "\n- Coat texture and qualities  "
    + "\n- Movement and energy"
    + "\n- Temperament and mood"
    + "\n- Color palette suggestions"
    + "\n\nRequirements:"
    + "\n1. Preserve the core intent and subject of the base prompt"
    + "\n2. Weave in breed aesthetics naturally, not literally (don't add actual dogs)"
    + "\n3. Match the emphasis level - subtle should be light touch, strong should be pronounced"
    + "\n4. Focus on translating breed qualities into visual/compositional/tonal elements"
    + "\n5. Keep the enhanced prompt concise and coherent (2-4 sentences typically)"
    + "\n\nReturn only the enhanced prompt text, ready to use for image generation.\n"

  function BasePromptLine(base: string): string {
    "Base prompt: \"" + base + "\""
  }

  function EmphasisLine(level: string): string {
    "Emphasis level: " + level
  }

  /** The `synthesis_instruction` template with the breed's name, the prompt, the level and the essence filled in. */
  function SynthesisInstruction(name: string, base: string, level: string, essence: string): string {
    InstructionOpening + name + InstructionTask + BasePromptLine(base) + "\n\n" + EmphasisLine(level)
    + InstructionLevels + essence + InstructionClosing
  }

  function CharacteristicsOf(rec: BreedRecord): Characteristics {
    Characteristics(rec.proportions, rec.coat, rec.movement, rec.temperamentAesthetic, rec.colorPalette, rec.scale)
  }

  /** The record an enhancement carries, reassembled from its fields. */
  function RecordOf(r: Enhancement): BreedRecord
    requires r.Enhanced?
  {
    var c := r.characteristics;
    BreedRecord(r.breedName, r.breedGroup, c.proportions, c.coat, c.movement, c.temperamentAesthetic,
      c.colorPalette, c.scale, r.visualEssence)
  }

  /**
   * `enhance_with_breed_aesthetic`: the error mapping when the normalized name
   * is not a catalog key, otherwise the whole record (all but its key) with
   * the prompt, the level and the filled-in instruction.
   */
  function EnhanceWithBreedAesthetic(breedName: string, basePrompt: string, emphasisLevel: string := "moderate")
    : (r: Enhancement)
    ensures r.BreedNotFound? <==> GetBreedData(NormalizeBreedName(breedName)) == None
    ensures r.BreedNotFound? ==>
      r.error == "Breed '" + breedName + "' not found" && r.availableBreeds == GetBreedNames()
      && r.suggestion == Suggestion
    ensures r.Enhanced? ==>
      GetBreedData(NormalizeBreedName(breedName)) == Some(RecordOf(r))
      && r.basePrompt == basePrompt && r.emphasisLevel == emphasisLevel
      && r.synthesisInstruction == SynthesisInstruction(r.breedName, basePrompt, r.emphasisLevel, r.visualEssence)
  {
    match GetBreedData(NormalizeBreedName(breedName))
    case None =>
      BreedNotFound("Breed '" + breedName + "' not found", GetBreedNames(), Suggestion)
    case Some(rec) =>
      Enhanced(rec.name, rec.group, basePrompt, emphasisLevel, rec.visualEssence, CharacteristicsOf(rec),
        SynthesisInstruction(rec.name, basePrompt, emphasisLevel, rec.visualEssence))
  }

  // ---------------------------------------------------------------- properties of the enhancement

  /** The pieces at odd positions of a nine-piece concatenation occur in it. */
  lemma {:induction false} NinePieces(a: string, b: string, c: string, d: string, e: string, f: string,
                                       g: string, h: string, i: string)
    ensures Contains(a + b + c + d + e + f + g + h + i, b)
    ensures Contains(a + b + c + d + e + f + g + h + i, d)
    ensures Contains(a + b + c + d + e + f + g + h + i, f)
    ensures Contains(a + b + c + d + e + f + g + h + i, h)
  {
    var s := a + b + c + d + e + f + g + h + i;
    assert s == a + b + (c + d + e + f + g + h + i);
    ContainsInfix(a, b, c + d + e + f + g + h + i);
    assert s == (a + b + c) + d + (e + f + g + h + i);
    ContainsInfix(a + b + c, d, e + f + g + h + i);
    assert s == (a + b + c + d + e) + f + (g + h + i);
    ContainsInfix(a + b + c + d + e, f, g + h + i);
    assert s == (a + b + c + d + e + f + g) + h + i;
    ContainsInfix(a + b + c + d + e + f + g, h, i);
  }

  lemma EmphasisLineLower(level: string)
    ensures Lower(EmphasisLine(level)) == "emphasis level: " + Lower(level)
  {
    LowerConcat("Emphasis level: ", level);
    assert Lower("Emphasis level: ") == "emphasis level: ";
  }

  /** Lower-casing a text lower-cases each piece in place, so a piece's lower-case form occurs in it. */
  lemma ContainsLowered(s: string, t: string)
    requires Contains(s, t)
    ensures Contains(Lower(s), Lower(t))
  {
    var k :| OccursAt(s, t, k);
    assert s == s[..k] + t + s[k + |t|..];
    LowerConcat(s[..k] + t, s[k + |t|..]);
    LowerConcat(s[..k], t);
    ContainsInfix(Lower(s[..k]), Lower(t), Lower(s[k + |t|..]));
  }

  lemma InstructionClosingLength()
    ensures |InstructionClosing| > 100
  {
  }

  /** The instruction names the breed and carries the prompt line, the level line and the essence. */
  lemma InstructionPieces(name: string, base: string, level: string, essence: string)
    ensures Contains(SynthesisInstruction(name, base, level, essence), name)
    ensures Contains(SynthesisInstruction(name, base, level, essence), BasePromptLine(base))
    ensures Contains(SynthesisInstruction(name, base, level, essence), EmphasisLine(level))
    ensures Contains(SynthesisInstruction(name, base, level, essence), essence)
  {
    NinePieces(InstructionOpening, name, InstructionTask, BasePromptLine(base), "\n\n", EmphasisLine(level),
      InstructionLevels, essence, InstructionClosing);
  }

  /** A text holding the prompt line holds the prompt. */
  lemma BasePromptInText(text: string, base: string)
    requires Contains(text, BasePromptLine(base))
    ensures Contains(text, base)
  {
    ContainsInfix("Base prompt: \"", base, "\"");
    ContainsTransitive(text, BasePromptLine(base), base);
  }

  /** A text holding the level line holds the level, and its lower-cased form says "emphasis level". */
  lemma EmphasisInText(text: string, level: string)
    requires Contains(text, EmphasisLine(level))
    ensures Contains(text, level)
    ensures Contains(Lower(text), "emphasis level")
  {
    assert EmphasisLine(level) == "Emphasis level: " + level + "";
    ContainsInfix("Emphasis level: ", level, "");
    ContainsTransitive(text, EmphasisLine(level), level);
    ContainsLowered(text, EmphasisLine(level));
    EmphasisLineLower(level);
    assert "emphasis level: " + Lower(level) == "" + "emphasis level" + (": " + Lower(level));
    ContainsInfix("", "emphasis level", ": " + Lower(level));
    ContainsTransitive(Lower(text), Lower(EmphasisLine(level)), "emphasis level");
  }

  lemma InstructionLength(name: string, base: string, level: string, essence: string)
    ensures |SynthesisInstruction(name, base, level, essence)| > 100
  {
    InstructionClosingLength();
  }

  /**
   * The instruction names the breed, quotes the base prompt, states the
   * emphasis level (also once lower-cased), carries the visual essence and
   * is more than 100 characters long.
   */
  lemma InstructionMentions(name: string, base: string, level: string, essence: string)
    ensures Contains(SynthesisInstruction(name, base, level, essence), name)
    ensures Contains(SynthesisInstruction(name, base, level, essence), BasePromptLine(base))
    ensures Contains(SynthesisInstruction(name, base, level, essence), EmphasisLine(level))
    ensures Contains(SynthesisInstruction(name, base, level, essence), essence)
    ensures Contains(SynthesisInstruction(name, base, level, essence), base)
    ensures Contains(SynthesisInstruction(name, base, level, essence), level)
    ensures Contains(Lower(SynthesisInstruction(name, base, level, essence)), "emphasis level")
    ensures |SynthesisInstruction(name, base, level, essence)| > 100
  {
    InstructionPieces(name, base, level, essence);
    BasePromptInText(SynthesisInstruction(name, base, level, essence), base);
    EmphasisInText(SynthesisInstruction(name, base, level, essence), level);
    InstructionLength(name, base, level, essence);
  }

  /**
   * The enhancement of a catalog breed carries its record whole: reassembling
   * the result's fields gives back exactly the record looked up.
   */
  lemma EnhancementCarriesRecord(breedName: string, basePrompt: string, emphasisLevel: string, rec: BreedRecord)
    requires GetBreedData(NormalizeBreedName(breedName)) == Some(rec)
    ensures EnhanceWithBreedAesthetic(breedName, basePrompt, emphasisLevel).Enhanced?
    ensures RecordOf(EnhanceWithBreedAesthetic(breedName, basePrompt, emphasisLevel)) == rec
  {
  }

  /** Two names that normalize alike get the same enhancement of a catalog breed. */
  lemma EnhancementDependsOnKey(a: string, b: string, basePrompt: string, emphasisLevel: string)
    requires NormalizeBreedName(a) == NormalizeBreedName(b)
    requires GetBreedData(NormalizeBreedName(a)).Some?
    ensures EnhanceWithBreedAesthetic(a, basePrompt, emphasisLevel) == EnhanceWithBreedAesthetic(b, basePrompt, emphasisLevel)
  {
  }

  /** The emphasis level, whatever string it is, is echoed and appears in the instruction, as does the prompt. */
  lemma EnhancementEchoesEmphasis(breedName: string, basePrompt: string, emphasisLevel: string)
    requires EnhanceWithBreedAesthetic(breedName, basePrompt, emphasisLevel).Enhanced?
    ensures EnhanceWithBreedAesthetic(breedName, basePrompt, emphasisLevel).emphasisLevel == emphasisLevel
    ensures Contains(EnhanceWithBreedAesthetic(breedName, basePrompt, emphasisLevel).synthesisInstruction,
                     emphasisLevel)
    ensures Contains(EnhanceWithBreedAesthetic(breedName, basePrompt, emphasisLevel).synthesisInstruction, basePrompt)
  {
    var r := EnhanceWithBreedAesthetic(breedName, basePrompt, emphasisLevel);
    InstructionMentions(r.breedName, basePrompt, r.emphasisLevel, r.visualEssence);
  }

  /** Left unspecified, the emphasis level is "moderate". */
  lemma DefaultEmphasisIsModerate(breedName: string, basePrompt: string)
    requires EnhanceWithBreedAesthetic(breedName, basePrompt).Enhanced?
    ensures EnhanceWithBreedAesthetic(breedName, basePrompt).emphasisLevel == "moderate"
  {
  }

  /** The error message names the input as given and says "not found", in any case. */
  lemma ErrorMessageFacts(breedName: string)
    ensures Contains("Breed '" + breedName + "' not found", breedName)
    ensures Contains(Lower("Breed '" + breedName + "' not found"), "not found")
  {
    var err := "Breed '" + breedName + "' not found";
    ContainsInfix("Breed '", breedName, "' not found");
    assert err == ("Breed '" + breedName + "' ") + "not found" + "";
    ContainsInfix("Breed '" + breedName + "' ", "not found", "");
    NotFoundLower(err);
  }

  /** The error of an enhancement names the input as given and says "not found", in any case. */
  lemma EnhancementErrorFacts(breedName: string, basePrompt: string, emphasisLevel: string)
    requires EnhanceWithBreedAesthetic(breedName, basePrompt, emphasisLevel).BreedNotFound?
    ensures Contains(EnhanceWithBreedAesthetic(breedName, basePrompt, emphasisLevel).error, breedName)
    ensures Contains(Lower(EnhanceWithBreedAesthetic(breedName, basePrompt, emphasisLevel).error), "not found")
  {
    ErrorMessageFacts(breedName);
  }


  /** "Greyhound" with a prompt and the moderate level: the Greyhound data, the prompt and the level echoed. */
  lemma GreyhoundEnhancement()
    ensures EnhanceWithBreedAesthetic("Greyhound", "portrait of a dancer", "moderate").Enhanced?
    ensures EnhanceWithBreedAesthetic("Greyhound", "portrait of a dancer", "moderate").breedName == "Greyhound"
    ensures EnhanceWithBreedAesthetic("Greyhound", "portrait of a dancer", "moderate").breedGroup == "Hound"
    ensures EnhanceWithBreedAesthetic("Greyhound", "portrait of a dancer", "moderate").basePrompt == "portrait of a dancer"
    ensures EnhanceWithBreedAesthetic("Greyhound", "portrait of a dancer", "moderate").emphasisLevel == "moderate"
  {
    NormalizeGreyhoundVariants();
    GreyhoundLookup();
    GreyhoundFields();
    EnhancementCarriesRecord("Greyhound", "portrait of a dancer", "moderate", Greyhound);
  }

  /** An unknown breed gets the error mapping with every display name and the suggestion. */
  lemma InvalidBreedEnhancement()
    ensures EnhanceWithBreedAesthetic("Invalid Breed", "test prompt", "moderate").BreedNotFound?
    ensures Contains(Lower(EnhanceWithBreedAesthetic("Invalid Breed", "test prompt", "moderate").error), "not found")
    ensures EnhanceWithBreedAesthetic("Invalid Breed", "test prompt", "moderate").availableBreeds == GetBreedNames()
    ensures EnhanceWithBreedAesthetic("Invalid Breed", "test prompt", "moderate").suggestion == Suggestion
  {
    NormalizeOtherExamples();
    GetBreedDataExamples();
    EnhancementErrorFacts("Invalid Breed", "test prompt", "moderate");
  }

  /** The Great Dane instruction names the breed, the prompt and the level, and is substantial. */
  lemma GreatDaneInstruction()
    ensures EnhanceWithBreedAesthetic("Great Dane", "city skyline", "moderate").Enhanced?
    ensures Contains(EnhanceWithBreedAesthetic("Great Dane", "city skyline", "moderate").synthesisInstruction, "Great Dane")
    ensures Contains(EnhanceWithBreedAesthetic("Great Dane", "city skyline", "moderate").synthesisInstruction, "city skyline")
    ensures Contains(EnhanceWithBreedAesthetic("Great Dane", "city skyline", "moderate").synthesisInstruction, "moderate")
    ensures Contains(Lower(EnhanceWithBreedAesthetic("Great Dane", "city skyline", "moderate").synthesisInstruction),
                     "emphasis level")
    ensures |EnhanceWithBreedAesthetic("Great Dane", "city skyline", "moderate").synthesisInstruction| > 100
  {
    NormalizeOtherExamples();
    GreatDaneLookup();
    GreatDaneFields();
    var r := EnhanceWithBreedAesthetic("Great Dane", "city skyline", "moderate");
    EnhancementCarriesRecord("Great Dane", "city skyline", "moderate", GreatDane);
    InstructionMentions(r.breedName, "city skyline", r.emphasisLevel, r.visualEssence);
  }

}
