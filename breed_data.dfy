/**
 * The breed knowledge base: a constant table from canonical snake_case key to
 * a fixed-schema record, the normalisation of free-text breed names to keys,
 * the exact-key lookup and the sorted list of display names.
 */
module BreedData {
  import opened Wrappers
  import opened Text

  // ---------------------------------------------------------------- schema

  /** The `proportions` sub-mapping; its keys are exactly these four. */
  datatype Proportions = Proportions(bodyRatio: string, build: string, head: string, legs: string)

  /** The `coat` sub-mapping. */
  datatype Coat = Coat(texture: string, length: string, qualities: string)

  /** The `movement` sub-mapping. */
  datatype Movement = Movement(gait: string, energy: string, qualities: string)

  /** The `temperament_aesthetic` sub-mapping. */
  datatype Temperament = Temperament(mood: string, presence: string, character: string)

  /** One breed's record: every key of the source's record dictionary is a field. */
  datatype BreedRecord = BreedRecord(
    name: string,
    group: string,
    proportions: Proportions,
    coat: Coat,
    movement: Movement,
    temperamentAesthetic: Temperament,
    colorPalette: seq<string>,
    scale: string,
    visualEssence: string)

  /** One `key: record` pair of the table literal. */
  datatype Entry = Entry(key: string, record: BreedRecord)

  /** A `(key, value)` pair as a sub-mapping's `.items()` yields it. */
  type Item = (string, string)

  /** `proportions.items()`: the keys in their declared order. */
  function ProportionsItems(p: Proportions): seq<Item> {
    [("body_ratio", p.bodyRatio), ("build", p.build), ("head", p.head), ("legs", p.legs)]
  }

  /** `coat.items()`. */
  function CoatItems(c: Coat): seq<Item> {
    [("texture", c.texture), ("length", c.length), ("qualities", c.qualities)]
  }

  /** `movement.items()`. */
  function MovementItems(m: Movement): seq<Item> {
    [("gait", m.gait), ("energy", m.energy), ("qualities", m.qualities)]
  }

  /** `temperament_aesthetic.items()`. */
  function TemperamentItems(t: Temperament): seq<Item> {
    [("mood", t.mood), ("presence", t.presence), ("character", t.character)]
  }

  /** The keys of a sub-mapping in iteration order, as `list(d.keys())`. */
  function ItemKeys(items: seq<Item>): seq<string> {
    seq(|items|, i requires 0 <= i < |items| => items[i].0)
  }

  /** The key set of a sub-mapping, as `set(d.keys())`. */
  ghost function KeySet(items: seq<Item>): set<string> {
    set k | k in ItemKeys(items)
  }

  /** What the table's tests demand of every record. */
  ghost predicate WellFormedRecord(r: BreedRecord) {
    && KeySet(ProportionsItems(r.proportions)) == {"body_ratio", "build", "head", "legs"}
    && KeySet(CoatItems(r.coat)) == {"texture", "length", "qualities"}
    && KeySet(MovementItems(r.movement)) == {"gait", "energy", "qualities"}
    && KeySet(TemperamentItems(r.temperamentAesthetic)) == {"mood", "presence", "character"}
    && |r.colorPalette| > 0
    && |r.visualEssence| > 0
  }

  // ---------------------------------------------------------------- the table
  // BREED_DATABASE, entry by entry, in the literal's insertion order.


  // golden_retriever: breed_data.py:7
  const GoldenRetriever := BreedRecord(
    "Golden Retriever", "Sporting",
    Proportions("balanced, slightly longer than tall", "medium, athletic, well-proportioned", "broad skull, friendly expression", "moderate length, sturdy"),
    Coat("dense, water-repellent, wavy", "medium to long", "lustrous, flowing, feathering"),
    Movement("smooth, powerful, ground-covering", "moderate to high, fluid", "effortless, balanced, purposeful"),
    Temperament("warm, friendly, approachable", "confident yet gentle, reliable", "harmonious, inviting, soft power"),
    ["golden", "cream", "rich amber", "warm honey"],
    "medium-large",
    "warm harmony, approachable elegance, soft flowing textures, reliable grace")

  // pointer: breed_data.py:36
  const Pointer := BreedRecord(
    "Pointer", "Sporting",
    Proportions("square to slightly longer, lean", "athletic, clean lines, muscular without bulk", "chiseled, alert expression", "long, straight, powerful"),
    Coat("short, smooth, dense", "short", "sleek, clean, minimal"),
    Movement("smooth, effortless, far-reaching", "high, focused, purposeful", "suspended tension, directional emphasis, poised alertness"),
    Temperament("intense focus, eager alertness", "aristocratic, athletic, purposeful", "pointed intention, suspended readiness"),
    ["white with liver", "white with lemon", "white with black", "tri-color"],
    "medium-large",
    "suspended tension, directional emphasis, lean athletic lines, focused intensity")

  // cocker_spaniel: breed_data.py:65
  const CockerSpaniel := BreedRecord(
    "Cocker Spaniel", "Sporting",
    Proportions("compact, balanced", "sturdy but refined, well-proportioned", "rounded skull, gentle expression", "moderate length, sturdy"),
    Coat("silky, flat or wavy", "medium, feathering on ears/chest/legs", "flowing, luxurious, soft"),
    Movement("smooth, coordinated, effortless", "moderate, cheerful", "flowing grace, gentle rhythm"),
    Temperament("merry, gentle, affectionate", "refined sweetness, approachable charm", "soft elegance, cheerful grace"),
    ["black", "buff", "parti-color", "rich browns", "golden"],
    "small-medium",
    "flowing curves, luxurious texture, compact grace, gentle refinement")

  // greyhound: breed_data.py:95
  const Greyhound := BreedRecord(
    "Greyhound", "Hound",
    Proportions("distinctly long, streamlined", "lean, aerodynamic, deep-chested", "long, narrow, refined", "very long, straight, elegant"),
    Coat("short, smooth, fine", "very short", "sleek, minimal, close-fitting"),
    Movement("low, free-swinging, enormous stride", "explosive speed capability, calm reserve", "aerodynamic flow, effortless speed, liquid motion"),
    Temperament("gentle dignity, quiet presence", "aristocratic grace, elegant restraint", "refined minimalism, serene power"),
    ["any color", "often brindle", "fawn", "white", "black"],
    "large",
    "aerodynamic minimalism, extreme streamlining, elegant speed, liquid grace")

  // basset_hound: breed_data.py:124
  const BassetHound := BreedRecord(
    "Basset Hound", "Hound",
    Proportions("very long, low-slung", "heavy-boned, substantial, elongated", "large, domed, long ears", "very short, heavy-boned, powerful"),
    Coat("smooth, short, dense", "short", "clean, easy-care, loose skin"),
    Movement("deliberate, powerful, ground-hugging", "low to moderate, unhurried", "heavy-footed dignity, leisurely pace"),
    Temperament("mild, patient, melancholic charm", "clownish dignity, humble nobility", "sorrowful sweetness, grounded wisdom"),
    ["tri-color", "red and white", "lemon and white"],
    "medium (but low)",
    "elongated horizontals, grounded weight, melancholic warmth, patient dignity")

  // afghan_hound: breed_data.py:153
  const AfghanHound := BreedRecord(
    "Afghan Hound", "Hound",
    Proportions("square, tall, elegant", "aristocratic, refined, powerful beneath coat", "long, refined, proud expression", "very long, straight"),
    Coat("long, fine, silky", "very long, flowing", "luxurious, dramatic, high-maintenance"),
    Movement("elastic, powerful, smooth", "moderate, dignified", "floating stride, majestic flow"),
    Temperament("aloof dignity, regal distance", "aristocratic, exotic, independent", "dramatic elegance, mysterious refinement"),
    ["cream", "red", "black", "brindle", "often masked face"],
    "large",
    "dramatic verticality, flowing luxury, exotic refinement, aristocratic aloofness")

  // siberian_husky: breed_data.py:183
  const SiberianHusky := BreedRecord(
    "Siberian Husky", "Working",
    Proportions("slightly longer than tall, balanced", "medium, athletic, efficient", "fox-like, alert expression", "moderate length, powerful"),
    Coat("double coat, medium length", "medium", "thick, plush, insulating, natural layers"),
    Movement("smooth, effortless, light on feet", "high, tireless, playful", "efficient power, joyful athleticism"),
    Temperament("friendly mischief, alert playfulness", "pack-oriented, energetic, expressive", "wild beauty, natural harmony"),
    ["gray and white", "black and white", "red and white", "blue eyes common"],
    "medium",
    "layered complexity, natural gradients, alert intensity, wild elegance")

  // great_dane: breed_data.py:212
  const GreatDane := BreedRecord(
    "Great Dane", "Working",
    Proportions("square, massive scale", "giant, powerful, elegant despite size", "large, rectangular, noble", "very long, straight, strong"),
    Coat("short, smooth, dense", "short", "sleek, glossy, minimal"),
    Movement("powerful, ground-covering, surprisingly graceful", "moderate, dignified", "gentle giant, imposing yet elegant"),
    Temperament("gentle dignity, quiet confidence", "commanding, noble, approachable despite size", "monumental grace, friendly power"),
    ["fawn", "brindle", "black", "blue", "harlequin", "mantle"],
    "giant",
    "monumental scale, dignified restraint, vertical emphasis, gentle power")

  // boxer: breed_data.py:241
  const Boxer := BreedRecord(
    "Boxer", "Working",
    Proportions("square, compact", "muscular, powerful, athletic", "distinctive broad, blunt", "moderate length, sturdy"),
    Coat("short, smooth, tight-fitting", "short", "sleek, shiny, minimal"),
    Movement("springy, powerful, energetic", "high, playful, athletic", "muscular grace, bouncing energy"),
    Temperament("playful intensity, alert curiosity", "confident, energetic, protective", "clownish power, joyful strength"),
    ["fawn", "brindle", "white markings"],
    "medium-large",
    "muscular geometry, compact power, dynamic readiness, playful strength")

  // jack_russell_terrier: breed_data.py:271
  const JackRussellTerrier := BreedRecord(
    "Jack Russell Terrier", "Terrier",
    Proportions("slightly longer than tall, compact", "small but athletic, sturdy", "flat skull, keen expression", "moderate length, sturdy"),
    Coat("smooth or rough, dense", "short to medium", "weather-resistant, practical"),
    Movement("quick, agile, energetic", "very high, intense, tireless", "explosive bursts, determined drive"),
    Temperament("fearless intensity, bold confidence", "feisty, determined, high-spirited", "compact dynamite, relentless energy"),
    ["white with black", "white with tan", "tri-color"],
    "small",
    "explosive intensity, chaotic energy, compact determination, fearless spirit")

  // scottish_terrier: breed_data.py:300
  const ScottishTerrier := BreedRecord(
    "Scottish Terrier", "Terrier",
    Proportions("short-legged, compact body", "sturdy, thick-set, low to ground", "long, rectangular, bearded", "short, heavy-boned"),
    Coat("hard, wiry, dense undercoat", "medium, distinctive furnishings", "textured, sculptural, dense"),
    Movement("smooth, deliberate, powerful", "moderate, determined", "dignified march, purposeful stride"),
    Temperament("dignified independence, serious demeanor", "confident, aloof, self-assured", "architectural solidity, scottish pride"),
    ["black", "wheaten", "brindle"],
    "small",
    "architectural solidity, dignified angles, textured density, compact nobility")

  // bull_terrier: breed_data.py:329
  const BullTerrier := BreedRecord(
    "Bull Terrier", "Terrier",
    Proportions("square, sturdy, muscular", "powerful, thick-set, athletic", "distinctive egg-shaped, unique profile", "moderate length, sturdy, parallel"),
    Coat("short, smooth, harsh to touch", "short", "glossy, flat, minimal"),
    Movement("smooth, jaunty, powerful", "high, playful, determined", "muscular flow, clownish confidence"),
    Temperament("playful mischief, good-natured determination", "unique character, confident individualism", "quirky charm, powerful playfulness"),
    ["white", "colored (various)", "brindle"],
    "medium",
    "egg-shaped uniqueness, muscular curves, playful geometry, distinctive character")

  // pomeranian: breed_data.py:359
  const Pomeranian := BreedRecord(
    "Pomeranian", "Toy",
    Proportions("compact, square, small", "sturdy beneath coat, well-balanced", "fox-like, alert expression", "short, fine-boned"),
    Coat("double coat, harsh outer, soft undercoat", "long, abundant, standing off body", "fluffy, cloud-like, profuse"),
    Movement("smooth, free, lively", "high, spirited, bold", "bouncy confidence, animated spirit"),
    Temperament("extroverted boldness, vivacious charm", "confident despite size, commanding attention", "fluffy exuberance, big personality"),
    ["orange", "red", "cream", "black", "brown", "many colors possible"],
    "toy",
    "fluffy abundance, spherical form, bright exuberance, outsized personality")

  // italian_greyhound: breed_data.py:388
  const ItalianGreyhound := BreedRecord(
    "Italian Greyhound", "Toy",
    Proportions("square to slightly longer, miniature", "slender, elegant, refined bone structure", "narrow, long, refined", "very long for size, slender"),
    Coat("short, smooth, soft", "very short", "satin-like, glossy, minimal"),
    Movement("high-stepping, free, elegant", "moderate, graceful", "prancing delicacy, miniature elegance"),
    Temperament("gentle sensitivity, sweet affection", "delicate refinement, shy grace", "miniature aristocracy, fragile elegance"),
    ["gray", "fawn", "red", "cream", "black", "blue"],
    "toy",
    "delicate refinement, miniature elegance, fragile grace, satin smoothness")

  // pug: breed_data.py:417
  const Pug := BreedRecord(
    "Pug", "Toy",
    Proportions("square, compact, cobby", "sturdy, thick-set, solid", "large, round, wrinkled", "short, strong, straight"),
    Coat("short, smooth, soft", "short", "fine, glossy, minimal"),
    Movement("slight roll, jaunty, confident", "moderate, playful", "charming waddle, dignified swagger"),
    Temperament("charming mischief, even temperament", "comical dignity, lovable character", "wrinkled wisdom, clownish charm"),
    ["fawn", "black", "silver fawn", "apricot fawn"],
    "toy",
    "compressed features, wrinkled character, compact charm, dignified comedy")

  // poodle: breed_data.py:447
  const Poodle := BreedRecord(
    "Poodle (Standard)", "Non-Sporting",
    Proportions("square, well-proportioned", "elegant, athletic, refined", "long, refined, intelligent expression", "long, straight, elegant"),
    Coat("dense, curly, harsh texture", "medium to long, styled", "sculptural, geometric when groomed, cloud-like"),
    Movement("light, springy, effortless", "high, animated, athletic", "elegant bounce, refined athleticism"),
    Temperament("intelligent alertness, dignified playfulness", "aristocratic bearing, confident elegance", "sculptural refinement, intellectual grace"),
    ["black", "white", "apricot", "gray", "brown", "solid colors"],
    "medium (Standard), also toy and miniature varieties",
    "sculptural precision, geometric artifice, intelligent composition, refined elegance")

  // bulldog: breed_data.py:476
  const Bulldog := BreedRecord(
    "Bulldog", "Non-Sporting",
    Proportions("low-slung, wide, compact", "heavy, thick-set, muscular", "massive, broad, short-faced", "short, very stout, wide-set"),
    Coat("short, smooth, fine", "short", "glossy, minimal, loose skin"),
    Movement("loose-jointed, shuffling, rolling", "low to moderate, deliberate", "determined waddle, dignified shuffle"),
    Temperament("dignified stubbornness, gentle determination", "courageous despite appearance, kind demeanor", "wrinkled wisdom, steadfast loyalty"),
    ["red brindle", "fawn", "white", "brindle", "piebald"],
    "medium",
    "horizontal compression, sturdy grounding, dignified wrinkles, steadfast presence")

  // dalmatian: breed_data.py:505
  const Dalmatian := BreedRecord(
    "Dalmatian", "Non-Sporting",
    Proportions("square, balanced, athletic", "medium, muscular, elegant", "moderate length, alert expression", "moderate length, straight, powerful"),
    Coat("short, smooth, dense", "short", "sleek, glossy, distinctive spotted pattern"),
    Movement("smooth, powerful, effortless", "high, tireless, athletic", "steady rhythm, endurance, balanced flow"),
    Temperament("outgoing energy, friendly alertness", "dignified poise, athletic confidence", "graphic distinctiveness, rhythmic pattern"),
    ["white with black spots", "white with liver spots"],
    "medium-large",
    "rhythmic pattern, athletic balance, graphic contrast, distinctive repetition")

  // border_collie: breed_data.py:535
  const BorderCollie := BreedRecord(
    "Border Collie", "Herding",
    Proportions("slightly longer than tall, athletic", "medium, athletic, agile", "moderate width, keen expression", "moderate length, sturdy, agile"),
    Coat("double coat, moderately long", "medium to moderately long", "weather-resistant, may be rough or smooth"),
    Movement("smooth, free, tireless", "very high, intense, focused", "effortless speed, agile precision"),
    Temperament("intense focus, intelligent alertness", "energetic determination, laser-like attention", "workaholic intensity, brilliant concentration"),
    ["black and white", "red and white", "tricolor", "merle patterns"],
    "medium",
    "intense focus, dynamic motion, high-contrast energy, intelligent alertness")

  // german_shepherd: breed_data.py:564
  const GermanShepherd := BreedRecord(
    "German Shepherd", "Herding",
    Proportions("longer than tall, substantial", "large, athletic, powerful", "wedge-shaped, noble, intelligent", "moderate length, powerful, angulated"),
    Coat("double coat, medium length", "medium", "dense, straight, weather-resistant"),
    Movement("smooth, far-reaching, effortless trot", "high, controlled, purposeful", "powerful efficiency, noble carriage"),
    Temperament("confident alertness, noble bearing", "commanding authority, intelligent presence", "powerful grace, steadfast loyalty"),
    ["black and tan", "sable", "black", "bi-color"],
    "large",
    "angular alertness, powerful diagonals, noble bearing, intelligent strength")

  // corgi: breed_data.py:593
  const Corgi := BreedRecord(
    "Pembroke Welsh Corgi", "Herding",
    Proportions("low-set, long body on short legs", "sturdy, compact, powerful", "fox-like, intelligent expression", "very short, strong, straight"),
    Coat("medium length, double coat", "medium", "weather-resistant, thick, straight"),
    Movement("smooth, free, active", "high, cheerful, determined", "efficient despite short legs, jaunty confidence"),
    Temperament("bold friendliness, cheerful outlook", "confident despite size, intelligent charm", "elongated cuteness, determined spirit"),
    ["red", "sable", "fawn", "black and tan", "with white markings"],
    "small-medium (but low)",
    "low-slung perspective, cheerful determination, elongated compactness, fox-like charm")

  const BreedTable: seq<Entry> := [
    Entry("golden_retriever", GoldenRetriever),
    Entry("pointer", Pointer),
    Entry("cocker_spaniel", CockerSpaniel),
    Entry("greyhound", Greyhound),
    Entry("basset_hound", BassetHound),
    Entry("afghan_hound", AfghanHound),
    Entry("siberian_husky", SiberianHusky),
    Entry("great_dane", GreatDane),
    Entry("boxer", Boxer),
    Entry("jack_russell_terrier", JackRussellTerrier),
    Entry("scottish_terrier", ScottishTerrier),
    Entry("bull_terrier", BullTerrier),
    Entry("pomeranian", Pomeranian),
    Entry("italian_greyhound", ItalianGreyhound),
    Entry("pug", Pug),
    Entry("poodle", Poodle),
    Entry("bulldog", Bulldog),
    Entry("dalmatian", Dalmatian),
    Entry("border_collie", BorderCollie),
    Entry("german_shepherd", GermanShepherd),
    Entry("corgi", Corgi)
  ]

  /** `BREED_DATABASE` as a dictionary: a later entry overwrites an earlier one with the same key. */
  function TableToMap(es: seq<Entry>): map<string, BreedRecord>
  {
    if es == [] then map[]
    else TableToMap(es[..|es| - 1])[es[|es| - 1].key := es[|es| - 1].record]
  }

  const BreedDatabase: map<string, BreedRecord> := TableToMap(BreedTable)

  /** The keys of the entries, in table order. */
  function Keys(es: seq<Entry>): (r: seq<string>)
    ensures |r| == |es|
    ensures forall i :: 0 <= i < |es| ==> r[i] == es[i].key
  {
    seq(|es|, i requires 0 <= i < |es| => es[i].key)
  }

  /** The display names of the entries, in table order (`[d["name"] for d in BREED_DATABASE.values()]`). */
  function Names(es: seq<Entry>): (r: seq<string>)
    ensures |r| == |es|
    ensures forall i :: 0 <= i < |es| ==> r[i] == es[i].record.name
  {
    seq(|es|, i requires 0 <= i < |es| => es[i].record.name)
  }

  /** The display names of the entries of group `g`, in table order. */
  function NamesInGroup(es: seq<Entry>, g: string): seq<string>
  {
    if es == [] then []
    else
      var last := es[|es| - 1];
      NamesInGroup(es[..|es| - 1], g) + (if last.record.group == g then [last.record.name] else [])
  }

  /** The group labels that occur in the entries. */
  ghost function Groups(es: seq<Entry>): set<string> {
    set i | 0 <= i < |es| :: es[i].record.group
  }

  predicate DistinctKeys(es: seq<Entry>) {
    forall i, j :: 0 <= i < j < |es| ==> es[i].key != es[j].key
  }

  // ---------------------------------------------------------------- the dictionary view

  /** The dictionary holds exactly the table's keys. */
  lemma {:induction false} TableToMapKeys(es: seq<Entry>)
    ensures forall k :: k in TableToMap(es) <==> k in Keys(es)
  {
    if es != [] {
      var init := es[..|es| - 1];
      TableToMapKeys(init);
      assert Keys(es) == Keys(init) + [es[|es| - 1].key];
    }
  }

  /** With distinct keys, every entry's key maps to that entry's record. */
  lemma {:induction false} TableToMapAt(es: seq<Entry>, i: nat)
    requires DistinctKeys(es) && i < |es|
    ensures es[i].key in TableToMap(es) && TableToMap(es)[es[i].key] == es[i].record
  {
    if i < |es| - 1 {
      var init := es[..|es| - 1];
      assert DistinctKeys(init);
      TableToMapAt(init, i);
      assert init[i] == es[i];
    }
  }

  /** With distinct keys, the dictionary has one item per entry. */
  lemma {:induction false} TableToMapSize(es: seq<Entry>)
    requires DistinctKeys(es)
    ensures |TableToMap(es)| == |es|
  {
    if es != [] {
      var init := es[..|es| - 1];
      var last := es[|es| - 1];
      assert DistinctKeys(init);
      TableToMapSize(init);
      TableToMapKeys(init);
      assert last.key !in Keys(init) by {
        forall j | 0 <= j < |init| ensures Keys(init)[j] != last.key {
          assert init[j] == es[j];
        }
      }
      assert TableToMap(es).Keys == TableToMap(init).Keys + {last.key};
    }
  }

  // ---------------------------------------------------------------- the catalog's shape

  /**
   * The taxonomy labels in the order the table lists its groups, three
   * entries each. This describes the layout of the data; the listing's own
   * `group_order` is a separate constant of the server, proved equal to it.
   */
  ghost const TableGroupLabels: seq<string> := ["Sporting", "Hound", "Working", "Terrier", "Toy", "Non-Sporting", "Herding"]

  lemma TableSize()
    ensures |BreedTable| == 21
  {
  }

  lemma TableKeysDistinct()
    ensures DistinctKeys(BreedTable)
  {
  }

  lemma TableLayout()
    ensures forall i :: 0 <= i < |BreedTable| ==> BreedTable[i].record.group == TableGroupLabels[i / 3]
  {
  }

  /**
   * When the entries of group `g` are exactly those at indices `lo` to `hi`,
   * the names of group `g` among the first `n` entries are the names of that
   * block cut at `n`.
   */
  lemma {:induction false} NamesInGroupBlock(es: seq<Entry>, g: string, lo: nat, hi: nat, n: nat)
    requires lo <= hi <= |es| && n <= |es|
    requires forall i :: 0 <= i < |es| ==> (es[i].record.group == g <==> lo <= i < hi)
    ensures NamesInGroup(es[..n], g) == Names(es[Min(lo, n)..Min(hi, n)])
  {
    if n > 0 {
      assert es[..n][..n - 1] == es[..n - 1];
      NamesInGroupBlock(es, g, lo, hi, n - 1);
      if lo <= n - 1 < hi {
        assert Names(es[lo..n]) == Names(es[lo..n - 1]) + [es[n - 1].record.name];
      }
    }
  }

  function Min(a: int, b: int): int { if a < b then a else b }

  /** The records of the k-th group of the table are the table's k-th block of three. */
  lemma GroupIsBlock(k: nat)
    requires k < |TableGroupLabels|
    ensures NamesInGroup(BreedTable, TableGroupLabels[k]) == Names(BreedTable[3 * k..3 * k + 3])
  {
    TableSize();
    TableLayout();
    var g := TableGroupLabels[k];
    forall i | 0 <= i < |BreedTable|
      ensures BreedTable[i].record.group == g <==> 3 * k <= i < 3 * k + 3
    {
      assert TableGroupLabels[i / 3] == g <==> i / 3 == k;
    }
    NamesInGroupBlock(BreedTable, g, 3 * k, 3 * k + 3, |BreedTable|);
    assert BreedTable[..|BreedTable|] == BreedTable;
  }

  /** The dictionary has one item per table entry: 21. */
  lemma DatabaseSize()
    ensures |BreedDatabase| == 21
  {
    TableSize();
    TableKeysDistinct();
    TableToMapSize(BreedTable);
  }

  /** The seven labels of the catalog, as a set. */
  ghost const CatalogGroupLabels: set<string> := set g | g in TableGroupLabels

  lemma CatalogGroupLabelsCount()
    ensures |CatalogGroupLabels| == 7
  {
    assert CatalogGroupLabels == {"Sporting", "Hound", "Working", "Terrier", "Toy", "Non-Sporting", "Herding"};
  }

  /** The catalog's groups are exactly those seven labels. */
  lemma CatalogGroups()
    ensures Groups(BreedTable) == CatalogGroupLabels
    ensures |Groups(BreedTable)| == 7
  {
    TableSize();
    TableLayout();
    forall k | 0 <= k < |TableGroupLabels| ensures TableGroupLabels[k] in Groups(BreedTable) {
      assert BreedTable[3 * k].record.group == TableGroupLabels[k];
    }
    CatalogGroupLabelsCount();
  }

  /** Each of the 7 groups has exactly 3 records. */
  lemma ThreePerGroup()
    ensures forall g :: g in Groups(BreedTable) ==> |NamesInGroup(BreedTable, g)| == 3
  {
    TableSize();
    TableLayout();
    forall g | g in Groups(BreedTable) ensures |NamesInGroup(BreedTable, g)| == 3 {
      var i :| 0 <= i < |BreedTable| && BreedTable[i].record.group == g;
      GroupIsBlock(i / 3);
    }
  }

  /**
   * Every record's sub-mappings have their schema's keys, in declared order
   * and as sets: the datatypes fix them.
   */
  lemma SchemaKeys(r: BreedRecord)
    ensures ItemKeys(ProportionsItems(r.proportions)) == ["body_ratio", "build", "head", "legs"]
    ensures ItemKeys(CoatItems(r.coat)) == ["texture", "length", "qualities"]
    ensures ItemKeys(MovementItems(r.movement)) == ["gait", "energy", "qualities"]
    ensures ItemKeys(TemperamentItems(r.temperamentAesthetic)) == ["mood", "presence", "character"]
  {
  }

  lemma SchemaKeySets(r: BreedRecord)
    ensures KeySet(ProportionsItems(r.proportions)) == {"body_ratio", "build", "head", "legs"}
    ensures KeySet(CoatItems(r.coat)) == {"texture", "length", "qualities"}
    ensures KeySet(MovementItems(r.movement)) == {"gait", "energy", "qualities"}
    ensures KeySet(TemperamentItems(r.temperamentAesthetic)) == {"mood", "presence", "character"}
  {
    SchemaKeys(r);
  }

  /** Every record of the catalog has a non-empty palette and a non-empty visual essence. */
  lemma CatalogNonEmptyFields()
    ensures forall i :: 0 <= i < |BreedTable| ==>
      |BreedTable[i].record.colorPalette| > 0 && |BreedTable[i].record.visualEssence| > 0
  {
  }

  /** Every record of the catalog satisfies what the table's tests demand. */
  lemma CatalogWellFormed()
    ensures forall i :: 0 <= i < |BreedTable| ==> WellFormedRecord(BreedTable[i].record)
  {
    CatalogNonEmptyFields();
    forall i | 0 <= i < |BreedTable| ensures WellFormedRecord(BreedTable[i].record) {
      SchemaKeySets(BreedTable[i].record);
    }
  }

  // ---------------------------------------------------------------- get_breed_data

  /**
   * `BREED_DATABASE.get(key)`: the record of the entry with exactly this key,
   * or `None` when no entry has it.
   */
  function GetBreedData(key: string): (r: Option<BreedRecord>)
    ensures r.Some? <==> key in Keys(BreedTable)
    ensures forall i :: 0 <= i < |BreedTable| && BreedTable[i].key == key ==> r == Some(BreedTable[i].record)
  {
    TableToMapKeys(BreedTable);
    TableKeysDistinct();
    assert forall i :: 0 <= i < |BreedTable| ==> BreedDatabase[BreedTable[i].key] == BreedTable[i].record by {
      forall i | 0 <= i < |BreedTable| ensures BreedDatabase[BreedTable[i].key] == BreedTable[i].record {
        TableToMapAt(BreedTable, i);
      }
    }
    if key in BreedDatabase then Some(BreedDatabase[key]) else None
  }

  /** Looking up "greyhound" finds the Hound "Greyhound"; "invalid_breed" finds nothing. */
  lemma GetBreedDataExamples()
    ensures GetBreedData("greyhound").Some?
    ensures GetBreedData("greyhound").value.name == "Greyhound"
    ensures GetBreedData("greyhound").value.group == "Hound"
    ensures GetBreedData("invalid_breed") == None
  {
    assert BreedTable[3].key == "greyhound";
    assert "invalid_breed" !in Keys(BreedTable);
  }

  /** The key "greyhound" looks up the Greyhound record itself. */
  lemma GreyhoundLookup()
    ensures GetBreedData("greyhound") == Some(Greyhound)
  {
    assert BreedTable[3].key == "greyhound" && BreedTable[3].record == Greyhound;
  }

  lemma GreyhoundFields()
    ensures Greyhound.name == "Greyhound" && Greyhound.group == "Hound"
  {
  }

  /** The key "great_dane" looks up the Great Dane record itself. */
  lemma GreatDaneLookup()
    ensures GetBreedData("great_dane") == Some(GreatDane)
  {
    assert BreedTable[7].key == "great_dane" && BreedTable[7].record == GreatDane;
  }

  lemma GreatDaneFields()
    ensures GreatDane.name == "Great Dane"
  {
  }

  /** The key "invalid_breed_name" is not in the catalog. */
  lemma InvalidBreedNameLookup()
    ensures GetBreedData("invalid_breed_name") == None
  {
    assert "invalid_breed_name" !in Keys(BreedTable);
  }

  // ---------------------------------------------------------------- get_breed_names

  /** `sorted(name for every record)`: the display names, sorted. */
  function GetBreedNames(): (r: seq<string>)
    ensures Sorted(r)
    ensures multiset(r) == multiset(Names(BreedTable))
  {
    SortStrings(Names(BreedTable))
  }

  /** The sorted names number 21 and include "Greyhound" and "Border Collie". */
  lemma GetBreedNamesFacts()
    ensures |GetBreedNames()| == 21
    ensures "Greyhound" in GetBreedNames()
    ensures "Border Collie" in GetBreedNames()
  {
    var names := Names(BreedTable);
    TableSize();
    assert |GetBreedNames()| == |multiset(GetBreedNames())| == |multiset(names)| == |names|;
    assert names[3] == "Greyhound" && names[18] == "Border Collie";
    assert "Greyhound" in multiset(GetBreedNames()) && "Border Collie" in multiset(GetBreedNames());
  }

  // ---------------------------------------------------------------- normalize_breed_name

  /** Free of the characters normalisation removes: spaces, hyphens, upper-case letters. */
  predicate IsCleanToken(t: string) {
    forall i :: 0 <= i < |t| ==> t[i] != ' ' && t[i] != '-' && !IsUpper(t[i])
  }

  /**
   * `s.lower().strip().replace(" ", "_").replace("-", "_")`: the result is
   * clean and, like any stripped string, neither starts nor ends with
   * whitespace.
   */
  function CleanToken(s: string): (r: string)
    ensures IsCleanToken(r)
    ensures r == [] || (!IsSpace(r[0]) && !IsSpace(r[|r| - 1]))
    ensures |r| <= |s|
  {
    var stripped := Strip(Lower(s));
    StripNoUpper(Lower(s));
    UnderscoresClean(stripped);
    ReplaceChar(ReplaceChar(stripped, ' ', '_'), '-', '_')
  }

  /** Replacing spaces and hyphens in a lower-case stripped string gives a clean stripped token. */
  lemma UnderscoresClean(t: string)
    requires forall i :: 0 <= i < |t| ==> !IsUpper(t[i])
    requires t == [] || (!IsSpace(t[0]) && !IsSpace(t[|t| - 1]))
    ensures var r := ReplaceChar(ReplaceChar(t, ' ', '_'), '-', '_');
      IsCleanToken(r) && (r == [] || (!IsSpace(r[0]) && !IsSpace(r[|r| - 1])))
  {
  }

  /** Cleaning a cleaned token changes nothing. */
  lemma CleanTokenIdempotent(s: string)
    ensures CleanToken(CleanToken(s)) == CleanToken(s)
  {
    CleanTokenFixesClean(CleanToken(s));
  }

  /** The alias table of `normalize_breed_name`. */
  const Aliases: map<string, string> := map[
    "pembroke_welsh_corgi" := "corgi",
    "welsh_corgi" := "corgi",
    "standard_poodle" := "poodle"
  ]

  /**
   * `normalize_breed_name`: the cleaned token, replaced by its alias target
   * when it is one of the three alias sources and returned unchanged
   * otherwise. Total: it never fails.
   */
  function NormalizeBreedName(s: string): (r: string)
    ensures IsCleanToken(r)
    ensures r == [] || (!IsSpace(r[0]) && !IsSpace(r[|r| - 1]))
    ensures r != CleanToken(s) <==> CleanToken(s) in Aliases
    ensures CleanToken(s) in Aliases ==> r == Aliases[CleanToken(s)]
  {
    var t := CleanToken(s);
    if t in Aliases then AliasTargetsClean(t); Aliases[t] else t
  }

  /** The alias table maps exactly these three tokens, to "corgi" and "poodle". */
  lemma AliasTable()
    ensures Aliases.Keys == {"pembroke_welsh_corgi", "welsh_corgi", "standard_poodle"}
    ensures |Aliases| == 3
    ensures Aliases["pembroke_welsh_corgi"] == "corgi" && Aliases["welsh_corgi"] == "corgi"
    ensures Aliases["standard_poodle"] == "poodle"
    ensures forall k :: k in Aliases ==> Aliases[k] !in Aliases
  {
  }

  /** Every alias target is itself a clean token without surrounding whitespace. */
  lemma AliasTargetsClean(k: string)
    requires k in Aliases
    ensures IsCleanToken(Aliases[k])
    ensures Aliases[k] == [] || (!IsSpace(Aliases[k][0]) && !IsSpace(Aliases[k][|Aliases[k]| - 1]))
  {
    assert Aliases[k] == "corgi" || Aliases[k] == "poodle";
  }

  /** Normalising twice is normalising once. */
  lemma NormalizeIdempotent(s: string)
    ensures NormalizeBreedName(NormalizeBreedName(s)) == NormalizeBreedName(s)
  {
    var r := NormalizeBreedName(s);
    CleanTokenFixesClean(r);
    AliasTable();
  }

  /** A clean token that neither starts nor ends with whitespace is its own cleaned form. */
  lemma CleanTokenFixesClean(t: string)
    requires IsCleanToken(t)
    requires t == [] || (!IsSpace(t[0]) && !IsSpace(t[|t| - 1]))
    ensures CleanToken(t) == t
  {
    LowerUnchanged(t);
    StripUnchanged(t);
    assert ReplaceChar(t, ' ', '_') == t;
    assert ReplaceChar(t, '-', '_') == t;
  }

  /** A cleaned token computed step by step, for a lower-cased input without surrounding whitespace. */
  lemma CleanTokenSteps(s: string, lowered: string, token: string)
    requires Lower(s) == lowered
    requires lowered != [] && !IsSpace(lowered[0]) && !IsSpace(lowered[|lowered| - 1])
    requires ReplaceChar(ReplaceChar(lowered, ' ', '_'), '-', '_') == token
    ensures CleanToken(s) == token
  {
    StripUnchanged(lowered);
  }

  /** Spelling, case and hyphen variants of a name normalise to the same key. */
  lemma NormalizeExamples()
    ensures NormalizeBreedName("Golden Retriever") == "golden_retriever"
    ensures NormalizeBreedName("GOLDEN RETRIEVER") == "golden_retriever"
    ensures NormalizeBreedName("golden retriever") == "golden_retriever"
    ensures NormalizeBreedName("golden-retriever") == "golden_retriever"
    ensures NormalizeBreedName("Greyhound") == "greyhound"
  {
    GoldenRetrieverTitleToken();
    GoldenRetrieverUpperToken();
    GoldenRetrieverLowerToken();
    GoldenRetrieverHyphenToken();
    GreyhoundToken();
    assert "golden_retriever" !in Aliases && "greyhound" !in Aliases;
  }

  /** The alias variants of the corgi and the poodle. */
  lemma NormalizeAliasExamples()
    ensures NormalizeBreedName("Pembroke Welsh Corgi") == "corgi"
    ensures NormalizeBreedName("Welsh Corgi") == "corgi"
    ensures NormalizeBreedName("Standard Poodle") == "poodle"
  {
    PembrokeToken();
    WelshToken();
    StandardPoodleToken();
  }

  lemma GoldenRetrieverTitleLowered()
    ensures Lower("Golden Retriever") == "golden retriever"
  {
  }

  lemma GoldenRetrieverTitleToken()
    ensures CleanToken("Golden Retriever") == "golden_retriever"
  {
    GoldenRetrieverTitleLowered();
    assert ReplaceChar(ReplaceChar("golden retriever", ' ', '_'), '-', '_') == "golden_retriever";
    CleanTokenSteps("Golden Retriever", "golden retriever", "golden_retriever");
  }

  lemma GoldenRetrieverUpperLowered()
    ensures Lower("GOLDEN RETRIEVER") == "golden retriever"
  {
  }

  lemma GoldenRetrieverUpperToken()
    ensures CleanToken("GOLDEN RETRIEVER") == "golden_retriever"
  {
    GoldenRetrieverUpperLowered();
    assert ReplaceChar(ReplaceChar("golden retriever", ' ', '_'), '-', '_') == "golden_retriever";
    CleanTokenSteps("GOLDEN RETRIEVER", "golden retriever", "golden_retriever");
  }

  lemma GoldenRetrieverLowerToken()
    ensures CleanToken("golden retriever") == "golden_retriever"
  {
    LowerUnchanged("golden retriever");
    assert ReplaceChar(ReplaceChar("golden retriever", ' ', '_'), '-', '_') == "golden_retriever";
    CleanTokenSteps("golden retriever", "golden retriever", "golden_retriever");
  }

  lemma GoldenRetrieverHyphenToken()
    ensures CleanToken("golden-retriever") == "golden_retriever"
  {
    LowerUnchanged("golden-retriever");
    assert ReplaceChar(ReplaceChar("golden-retriever", ' ', '_'), '-', '_') == "golden_retriever";
    CleanTokenSteps("golden-retriever", "golden-retriever", "golden_retriever");
  }

  lemma GreyhoundLowered()
    ensures Lower("Greyhound") == "greyhound"
  {
  }

  lemma GreyhoundToken()
    ensures CleanToken("Greyhound") == "greyhound"
  {
    GreyhoundLowered();
    assert ReplaceChar(ReplaceChar("greyhound", ' ', '_'), '-', '_') == "greyhound";
    CleanTokenSteps("Greyhound", "greyhound", "greyhound");
  }

  lemma PembrokeLowered()
    ensures Lower("Pembroke Welsh Corgi") == "pembroke welsh corgi"
  {
  }

  lemma PembrokeToken()
    ensures CleanToken("Pembroke Welsh Corgi") == "pembroke_welsh_corgi"
  {
    PembrokeLowered();
    assert ReplaceChar(ReplaceChar("pembroke welsh corgi", ' ', '_'), '-', '_') == "pembroke_welsh_corgi";
    CleanTokenSteps("Pembroke Welsh Corgi", "pembroke welsh corgi", "pembroke_welsh_corgi");
  }

  lemma WelshLowered()
    ensures Lower("Welsh Corgi") == "welsh corgi"
  {
  }

  lemma WelshToken()
    ensures CleanToken("Welsh Corgi") == "welsh_corgi"
  {
    WelshLowered();
    assert ReplaceChar(ReplaceChar("welsh corgi", ' ', '_'), '-', '_') == "welsh_corgi";
    CleanTokenSteps("Welsh Corgi", "welsh corgi", "welsh_corgi");
  }

  lemma StandardPoodleLowered()
    ensures Lower("Standard Poodle") == "standard poodle"
  {
  }

  lemma StandardPoodleToken()
    ensures CleanToken("Standard Poodle") == "standard_poodle"
  {
    StandardPoodleLowered();
    assert ReplaceChar(ReplaceChar("standard poodle", ' ', '_'), '-', '_') == "standard_poodle";
    CleanTokenSteps("Standard Poodle", "standard poodle", "standard_poodle");
  }

  /** The case variants of "Greyhound" all normalise to its key. */
  lemma NormalizeGreyhoundVariants()
    ensures NormalizeBreedName("Greyhound") == "greyhound"
    ensures NormalizeBreedName("greyhound") == "greyhound"
    ensures NormalizeBreedName("GREYHOUND") == "greyhound"
  {
    GreyhoundToken();
    GreyhoundLowerToken();
    GreyhoundUpperToken();
    assert "greyhound" !in Aliases;
  }

  /** Two names that are not breeds of the catalog, and "Great Dane". */
  lemma NormalizeOtherExamples()
    ensures NormalizeBreedName("Invalid Breed Name") == "invalid_breed_name"
    ensures NormalizeBreedName("Invalid Breed") == "invalid_breed"
    ensures NormalizeBreedName("Great Dane") == "great_dane"
  {
    InvalidBreedNameToken();
    InvalidBreedToken();
    GreatDaneToken();
    assert "invalid_breed_name" !in Aliases && "invalid_breed" !in Aliases && "great_dane" !in Aliases;
  }

  lemma GreyhoundLowerToken()
    ensures CleanToken("greyhound") == "greyhound"
  {
    LowerUnchanged("greyhound");
    assert ReplaceChar(ReplaceChar("greyhound", ' ', '_'), '-', '_') == "greyhound";
    CleanTokenSteps("greyhound", "greyhound", "greyhound");
  }

  lemma GreyhoundUpperLowered()
    ensures Lower("GREYHOUND") == "greyhound"
  {
  }

  lemma GreyhoundUpperToken()
    ensures CleanToken("GREYHOUND") == "greyhound"
  {
    GreyhoundUpperLowered();
    assert ReplaceChar(ReplaceChar("greyhound", ' ', '_'), '-', '_') == "greyhound";
    CleanTokenSteps("GREYHOUND", "greyhound", "greyhound");
  }

  lemma InvalidBreedNameLowered()
    ensures Lower("Invalid Breed Name") == "invalid breed name"
  {
  }

  lemma InvalidBreedNameToken()
    ensures CleanToken("Invalid Breed Name") == "invalid_breed_name"
  {
    InvalidBreedNameLowered();
    assert ReplaceChar(ReplaceChar("invalid breed name", ' ', '_'), '-', '_') == "invalid_breed_name";
    CleanTokenSteps("Invalid Breed Name", "invalid breed name", "invalid_breed_name");
  }

  lemma InvalidBreedLowered()
    ensures Lower("Invalid Breed") == "invalid breed"
  {
  }

  lemma InvalidBreedToken()
    ensures CleanToken("Invalid Breed") == "invalid_breed"
  {
    InvalidBreedLowered();
    assert ReplaceChar(ReplaceChar("invalid breed", ' ', '_'), '-', '_') == "invalid_breed";
    CleanTokenSteps("Invalid Breed", "invalid breed", "invalid_breed");
  }

  lemma GreatDaneLowered()
    ensures Lower("Great Dane") == "great dane"
  {
  }

  lemma GreatDaneToken()
    ensures CleanToken("Great Dane") == "great_dane"
  {
    GreatDaneLowered();
    assert ReplaceChar(ReplaceChar("great dane", ' ', '_'), '-', '_') == "great_dane";
    CleanTokenSteps("Great Dane", "great dane", "great_dane");
  }
}
