/**
 * The read-only projections of the wizard: the header title and progress dots
 * of a step, the memorial preview built on entering step 10, the tone
 * passages, the final summary of step 12 and the signup email check.
 */
module Composer {
  import opened Wrappers
  import opened Strings
  import opened Lists
  import opened Records

  const TotalSteps: int := 12

  const CalculatorTitle := "Your Digital Death Calculator"
  const BuilderTitle := "Your Digital Memorial Builder"
  const LegacyTitle := "Your Complete Digital Legacy"

  /** The header title: steps up to 4 frame the calculator, up to 11 the memorial
      builder, and the last step the complete legacy. */
  function Title(step: int): (r: string)
    ensures r == CalculatorTitle <==> step <= 4
    ensures r == BuilderTitle <==> 5 <= step <= 11
    ensures r == LegacyTitle <==> step >= 12
  {
    assert CalculatorTitle[13] != BuilderTitle[13];
    assert |BuilderTitle| != |LegacyTitle| && |CalculatorTitle| != |LegacyTitle|;
    if step <= 4 then CalculatorTitle
    else if step <= 11 then BuilderTitle
    else LegacyTitle
  }

  /** Moving one step forward changes the title exactly when crossing from step 4 to 5 or
      from step 11 to 12. */
  lemma TitleChangesAtSectionBorders(step: int)
    requires 1 <= step < TotalSteps
    ensures Title(step + 1) != Title(step) <==> step == 4 || step == 11
  {
    assert CalculatorTitle[13] != BuilderTitle[13];
    assert |BuilderTitle| != |LegacyTitle|;
  }

  /** The progress dots: dot `i` (counted from 0) is active exactly when `i < step`. */
  function Dots(step: int, count: nat): (r: seq<bool>)
    ensures |r| == count
    ensures forall i :: 0 <= i < count ==> (r[i] <==> i < step)
  {
    if count == 0 then [] else Dots(step, count - 1) + [count - 1 < step]
  }

  function CountActive(dots: seq<bool>): nat {
    if dots == [] then 0 else CountActive(dots[..|dots| - 1]) + (if dots[|dots| - 1] then 1 else 0)
  }

  /** On step `step` of twelve dots, exactly `step` dots are active. */
  lemma {:induction false} ActiveDotsCount(step: int, count: nat)
    requires 0 <= step
    ensures CountActive(Dots(step, count)) == if step < count then step else count
  {
    if count > 0 {
      ActiveDotsCount(step, count - 1);
      var d := Dots(step, count);
      assert d[..count - 1] == Dots(step, count - 1);
    }
  }

  /** The memorial's display name: the visitor's name with the fixed surname " Doe". */
  function MemorialName(name: string): (r: string)
    ensures |r| == |name| + 4 && r[..|name|] == name && r[|name|..] == " Doe"
  {
    name + " Doe"
  }

  /** The memorial address: the lower-cased name with each whitespace run made one '-',
      then "-doe". */
  function Slug(name: string): (r: string)
    ensures NoSpace(r)
    ensures |r| >= 4 && r[|r| - 4..] == "-doe"
  {
    var body := DashRuns(Lower(name));
    var r := body + "-doe";
    assert r[|body|..] == "-doe";
    r
  }

  /** The address keeps every letter of the lower-cased name, in order, and adds only
      dashes and the final "doe". */
  lemma SlugKeepsLetters(name: string)
    ensures Letters(Slug(name)) == Letters(Lower(name)) + "doe"
  {
    var body := DashRuns(Lower(name));
    DashRunsKeepsLetters(Lower(name));
    LettersAppend(body, "-doe");
    LettersOfDoe();
  }

  lemma LettersOfDoe()
    ensures Letters("-doe") == "doe"
  {
    assert "-doe"[1..] == "doe" && "doe"[1..] == "oe" && "oe"[1..] == "e" && "e"[1..] == [];
  }

  /** A whitespace run of any length inside the name becomes one '-' in the address. */
  lemma SlugCollapsesRuns(a: string, w: string, b: string)
    requires NoSpace(a) && w != [] && AllSpace(w)
    requires b == [] || !IsSpace(b[0])
    ensures Slug(a + w + b) == Lower(a) + "-" + DashRuns(Lower(b)) + "-doe"
  {
    LowerAppend(a + w, b);
    LowerAppend(a, w);
    var la, lw, lb := Lower(a), Lower(w), Lower(b);
    assert NoSpace(la);
    assert lw != [] && AllSpace(lw);
    assert lb == [] || !IsSpace(lb[0]);
    DashRunsOfRun(la, lw, lb);
  }

  /** A name without whitespace only gets lower-cased and suffixed. */
  lemma SlugOfOneWord(name: string)
    requires NoSpace(name)
    ensures Slug(name) == Lower(name) + "-doe"
  {
    DashRunsOfSpaceless(Lower(name));
  }

  lemma SlugOfMaryAnn()
    ensures Slug("Mary Ann") == "mary-ann-doe"
  {
    assert "mary-ann" + "-doe" == "mary-ann-doe";
    SlugOfMaryAnnParts();
  }

  lemma SlugOfMaryAnnParts()
    ensures Slug("Mary Ann") == "mary-ann" + "-doe"
  {
    LowerOfMaryAnn();
    DashRunsOfMaryAnn();
  }

  lemma LowerOfMaryAnn()
    ensures Lower("Mary Ann") == "mary ann"
  {
    var s, t := "Mary Ann", "mary ann";
    var l := Lower(s);
    assert |l| == 8;
    assert l[0] == LowerChar('M') == 'm';
    assert l[5] == LowerChar('A') == 'a';
    forall i | 0 <= i < 8 ensures l[i] == t[i] {
      if i != 0 && i != 5 {
        assert !('A' <= s[i] <= 'Z');
      }
    }
  }

  lemma DashRunsOfMaryAnn()
    ensures DashRuns("mary ann") == "mary-ann"
  {
    assert NoSpace("mary") && NoSpace("ann");
    DashRunsOfTwoWords("mary", "ann");
    assert "mary" + " " + "ann" == "mary ann";
    assert "mary" + "-" + "ann" == "mary-ann";
  }

  const MessagePlaceholder := "To everyone who visits this memorial..."

  /** The memorial message: the saved message, or a fixed placeholder when it is empty. */
  function PreviewMessage(message: string): (r: string)
    ensures r != ""
    ensures message != "" ==> r == message
  {
    if message != "" then message else MessagePlaceholder
  }

  /** The six canned passages, keyed by tone. */
  const ToneMessages: map<string, string> := map[
    "warm" := "To everyone who visits this memorial, thank you for being part of my journey. Life has been an incredible adventure, filled with love, laughter, and countless precious moments...",
    "inspirational" := "Let my life be a testament to chasing dreams and never giving up. Every challenge was an opportunity, every setback a lesson...",
    "humorous" := "Well, looks like I finally found a way to get the last word in! If you're reading this, I've gone to the great beyond (hopefully they have WiFi)...",
    "formal" := "To all who have gathered here in remembrance, I extend my deepest gratitude for your presence in my life...",
    "spiritual" := "As my spirit transitions to the next realm, I leave you with this message of hope and faith. Death is not an ending but a transformation...",
    "poetic" := "Like autumn leaves that dance and fall, my time has come to heed the call. But in your hearts, I'll always stay..."
  ]

  /** The passage for a tone; an unknown tone gets the warm passage. */
  function ToneMessage(tone: string): (r: string)
    ensures tone in ToneMessages ==> r == ToneMessages[tone]
    ensures tone !in ToneMessages ==> r == ToneMessages["warm"]
    ensures r != ""
  {
    if tone in ToneMessages then ToneMessages[tone] else ToneMessages["warm"]
  }

  /** An unknown tone reads exactly like the warm one. */
  lemma UnknownToneIsWarm(tone: string)
    requires tone !in ToneMessages
    ensures ToneMessage(tone) == ToneMessage("warm")
  {
  }

  const PhotoIcons: map<string, string> := map[
    "Wedding Day" := "\U{1F4F8}",
    "Family Vacation" := "\U{1F3D6}\U{FE0F}",
    "Kids' Birth" := "\U{1F476}",
    "Adventures" := "\U{1F3D4}\U{FE0F}",
    "Holidays" := "\U{1F384}",
    "Achievements" := "\U{1F3C6}",
    "Friends" := "\U{1F465}",
    "Home" := "\U{1F3E0}",
    "Hobbies" := "\U{1F3A8}",
    "Travel" := "\U{1F305}",
    "Celebrations" := "\U{1F382}",
    "Graduation" := "\U{1F393}"
  ]

  const DefaultPhotoIcon := "\U{1F4F7}"

  /** The glyph of a photo label; a label outside the table gets the camera glyph. */
  function PhotoIcon(photo: string): (r: string)
    ensures photo in PhotoIcons ==> r == PhotoIcons[photo]
    ensures photo !in PhotoIcons ==> r == DefaultPhotoIcon
    ensures r != ""
  {
    if photo in PhotoIcons then PhotoIcons[photo] else DefaultPhotoIcon
  }

  datatype PhotoCard = PhotoCard(icon: string, photo: string)

  const MaxPreviewPhotos: int := 8

  /** The preview's photo cards: the first eight selected photos, each with its glyph. */
  function PreviewPhotos(photos: seq<string>): (r: seq<PhotoCard>)
    ensures |r| == if |photos| < MaxPreviewPhotos then |photos| else MaxPreviewPhotos
    ensures forall i :: 0 <= i < |r| ==> r[i] == PhotoCard(PhotoIcon(photos[i]), photos[i])
  {
    var n := if |photos| < MaxPreviewPhotos then |photos| else MaxPreviewPhotos;
    seq(n, i requires 0 <= i < n => PhotoCard(PhotoIcon(photos[i]), photos[i]))
  }

  function CategoryIcon(c: Category): string {
    match c
    case Education => "\U{1F393}"
    case Hobbies => "\U{1F3A8}"
    case Family => "\U{1F468}\U{200D}\U{1F469}\U{200D}\U{1F467}\U{200D}\U{1F466}"
    case Legacy => "\U{1F31F}"
  }

  function CategoryTitle(c: Category): string {
    match c
    case Education => "Education & Career"
    case Hobbies => "Passions"
    case Family => "Family & Community"
    case Legacy => "Values & Legacy"
  }

  /** The position of a category in the record. */
  function Rank(c: Category): nat {
    match c
    case Education => 0
    case Hobbies => 1
    case Family => 2
    case Legacy => 3
  }

  /** One titled group of the preview's achievements. */
  datatype Group = Group(category: Category, icon: string, title: string, items: seq<string>)

  function GroupOf(a: Achievements, c: Category): Group {
    Group(c, CategoryIcon(c), CategoryTitle(c), a.Of(c))
  }

  /** The groups for `cats`, in that order, leaving out the empty categories. */
  function GroupsFor(a: Achievements, cats: seq<Category>): (gs: seq<Group>)
    ensures |gs| <= |cats|
    ensures forall g :: g in gs ==> g.category in cats && g == GroupOf(a, g.category) && g.items != []
  {
    if cats == [] then []
    else (if a.Of(cats[0]) != [] then [GroupOf(a, cats[0])] else []) + GroupsFor(a, cats[1..])
  }

  /** The preview's achievement groups, in the record's category order. */
  function AchievementGroups(a: Achievements): (gs: seq<Group>)
    ensures forall c :: GroupOf(a, c) in gs <==> a.Of(c) != []
    ensures forall i, j :: 0 <= i < j < |gs| ==> Rank(gs[i].category) < Rank(gs[j].category)
  {
    CategoryGroups(a);
    GroupsFor(a, Categories)
  }

  /** Over the four categories, in record order: a group per non-empty category, in order. */
  lemma CategoryGroups(a: Achievements)
    ensures forall c :: GroupOf(a, c) in GroupsFor(a, Categories) <==> a.Of(c) != []
    ensures forall i, j :: 0 <= i < j < |GroupsFor(a, Categories)| ==>
              Rank(GroupsFor(a, Categories)[i].category) < Rank(GroupsFor(a, Categories)[j].category)
  {
    forall c ensures GroupOf(a, c) in GroupsFor(a, Categories) <==> a.Of(c) != [] {
      assert c == Categories[Rank(c)];
      GroupIffEntries(a, Categories, c);
    }
    assert Ascending(Categories);
    GroupsInOrder(a, Categories);
  }

  /** A category has a group exactly when it has entries. */
  lemma {:induction false} GroupIffEntries(a: Achievements, cats: seq<Category>, c: Category)
    requires c in cats
    ensures GroupOf(a, c) in GroupsFor(a, cats) <==> a.Of(c) != []
  {
    if cats[0] != c {
      GroupIffEntries(a, cats[1..], c);
    }
  }

  predicate Ascending(cats: seq<Category>) {
    forall i, j :: 0 <= i < j < |cats| ==> Rank(cats[i]) < Rank(cats[j])
  }

  /** The groups come out in the order of their categories. */
  lemma {:induction false} GroupsInOrder(a: Achievements, cats: seq<Category>)
    requires Ascending(cats)
    ensures forall i, j :: 0 <= i < j < |GroupsFor(a, cats)| ==>
              Rank(GroupsFor(a, cats)[i].category) < Rank(GroupsFor(a, cats)[j].category)
  {
    if cats != [] {
      var rest := GroupsFor(a, cats[1..]);
      GroupsInOrder(a, cats[1..]);
      forall g | g in rest ensures Rank(cats[0]) < Rank(g.category) {
        var k :| 0 <= k < |cats[1..]| && cats[1..][k] == g.category;
        assert cats[k + 1] == g.category;
      }
    }
  }

  /** What updateMemorialPreview fills in on entering step 10. */
  datatype Memorial = Memorial(
    name: string, motto: string, url: string, message: string,
    photos: seq<PhotoCard>, groups: seq<Group>)

  function Compose(r: Record): (m: Memorial)
    ensures m.name == MemorialName(r.name) && m.motto == r.motto
    ensures NoSpace(m.url) && m.message != ""
    ensures |m.photos| <= MaxPreviewPhotos
    ensures forall g :: g in m.groups ==> g.items == r.achievements.Of(g.category) && g.items != []
  {
    Memorial(MemorialName(r.name), r.motto, Slug(r.name), PreviewMessage(r.message),
             PreviewPhotos(r.photos), AchievementGroups(r.achievements))
  }

  /** What updateFinalSummary fills in on entering step 12; `yearly` is in cents. */
  datatype Summary = Summary(name: string, yearly: nat, accounts: nat)

  function Summarize(r: Record): (s: Summary)
    ensures s.name == r.name && s.yearly == 12 * r.monthlyTotal
    ensures s.accounts == |r.subscriptions|
  {
    Summary(r.name, r.monthlyTotal * 12, |r.subscriptions|)
  }

  /** While the subscription list holds no duplicates, the account count is the number of
      distinct subscriptions. */
  lemma AccountsAreDistinct(r: Record)
    requires NoDup(r.subscriptions)
    ensures Summarize(r).accounts == |set s | s in r.subscriptions|
  {
    DistinctCount(r.subscriptions);
  }

  /** How processModalSignup ends: no email field, a valid address but no modal to show
      the welcome in, a welcome for the address, or the red border for an address without
      '@'. */
  datatype Signup = NoField | NoModal | Welcome(email: string) | Rejected

  function SignupOutcome(emailField: Option<string>, modalPresent: bool): (o: Signup)
    ensures o.Welcome? <==> emailField.Some? && '@' in emailField.value && modalPresent
    ensures o.Welcome? ==> o.email == emailField.value && o.email != ""
    ensures o == Rejected <==> emailField.Some? && '@' !in emailField.value
    ensures o == NoField <==> emailField.None?
    ensures o == NoModal <==> emailField.Some? && '@' in emailField.value && !modalPresent
  {
    match emailField
    case None => NoField
    case Some(email) =>
      if email != "" && '@' in email then (if modalPresent then Welcome(email) else NoModal)
      else Rejected
  }
}
