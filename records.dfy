/**
 * The visitor's record (`userData`): identity fields, the subscription lists,
 * the template, photos, achievements, message and tone; its initial value; and
 * what leaving a step saves into it.
 */
module Records {
  import opened Wrappers
  import opened Strings
  import opened Lists
  import opened Ledger

  datatype Category = Education | Hobbies | Family | Legacy

  /** The four achievement categories, in the order the record declares them. */
  const Categories: seq<Category> := [Education, Hobbies, Family, Legacy]

  datatype Achievements = Achievements(
    education: seq<string>, hobbies: seq<string>, family: seq<string>, legacy: seq<string>)
  {
    function Of(c: Category): seq<string> {
      match c
      case Education => education
      case Hobbies => hobbies
      case Family => family
      case Legacy => legacy
    }

    /** `achievements[c] = items`: that category replaced, the others kept. */
    function Put(c: Category, items: seq<string>): (r: Achievements)
      ensures r.Of(c) == items
      ensures forall d :: d != c ==> r.Of(d) == Of(d)
    {
      match c
      case Education => this.(education := items)
      case Hobbies => this.(hobbies := items)
      case Family => this.(family := items)
      case Legacy => this.(legacy := items)
    }
  }

  /** `userData`; `monthlyTotal` is in cents. */
  datatype Record = Record(
    name: string,
    spouse: string,
    motto: string,
    monthlyTotal: nat,
    subscriptions: seq<string>,
    customSubscriptions: seq<Custom>,
    template: string,
    photos: seq<string>,
    achievements: Achievements,
    message: string,
    tone: string)

  /** The record as the page script declares it, before the first calculateTotal. */
  function Initial(): (r: Record)
    ensures r.monthlyTotal == 4097 && r.subscriptions == DefaultSubscriptions
    ensures NoDup(r.subscriptions) && NoDup(r.photos)
    ensures r.customSubscriptions == [] && r.message == "" && r.tone == "warm"
  {
    assert "Netflix"[0] != "Spotify"[0] && |"Amazon Prime"| != |"Netflix"|;
    assert "Wedding Day"[0] != "Family Vacation"[0];
    assert "Kids' Birth"[0] != "Wedding Day"[0] && "Kids' Birth"[0] != "Family Vacation"[0];
    Record(
      "John",
      "Sarah",
      "Living one adventure at a time",
      4097,
      DefaultSubscriptions,
      [],
      "classic",
      ["Wedding Day", "Family Vacation", "Kids' Birth"],
      Achievements(
        ["MBA from Harvard Business School", "Founded two successful startups",
         "30 years in technology leadership"],
        ["Climbed 14 mountain peaks", "Jazz pianist for 20 years", "Published 3 novels",
         "Traveled to 47 countries"],
        ["Married 25 wonderful years", "Raised 3 amazing children",
         "Coached little league for 10 years", "Volunteered at food bank weekly"],
        ["Always put family first", "Mentored dozens of young professionals"]),
      "",
      "warm")
  }

  /** `input ? input.value || fallback : fallback`: an absent or empty input gives the
      fallback; any other value, whitespace included, is kept as typed. */
  function OrDefault(field: Option<string>, fallback: string): (r: string)
    ensures field.Some? && field.value != "" ==> r == field.value
    ensures field.None? || field.value == "" ==> r == fallback
    ensures fallback != "" ==> r != ""
  {
    if field.Some? && field.value != "" then field.value else fallback
  }

  /** The entries saveAchievements keeps from one category's inputs: each value trimmed,
      the blank ones dropped, in input order. */
  function Kept(inputs: seq<string>): (r: seq<string>)
    ensures |r| <= |inputs|
    ensures forall k :: 0 <= k < |r| ==> r[k] != "" && Trim(r[k]) == r[k]
  {
    if inputs == [] then []
    else
      var n := |inputs| - 1;
      var t := Trim(inputs[n]);
      TrimIdempotent(inputs[n]);
      Kept(inputs[..n]) + (if t != "" then [t] else [])
  }

  /** One more input adds its trimmed value when that is not blank. */
  lemma KeptSnoc(front: seq<string>, x: string)
    ensures Kept(front + [x]) == Kept(front) + (if Trim(x) != "" then [Trim(x)] else [])
  {
    assert (front + [x])[..|front|] == front;
  }

  /** Inputs that are already trimmed and non-empty are kept exactly, in order. */
  lemma {:induction false} KeptOfClean(inputs: seq<string>)
    requires forall k :: 0 <= k < |inputs| ==> inputs[k] != "" && Trim(inputs[k]) == inputs[k]
    ensures Kept(inputs) == inputs
  {
    if inputs != [] {
      var n := |inputs| - 1;
      var front, last := inputs[..n], inputs[n];
      KeptOfClean(front);
      KeptSnoc(front, last);
      LastSplit(inputs);
    }
  }

  /** Saving the saved entries again keeps them all. */
  lemma KeptIdempotent(inputs: seq<string>)
    ensures Kept(Kept(inputs)) == Kept(inputs)
  {
    KeptOfClean(Kept(inputs));
  }

  /** An input that is only whitespace contributes nothing. */
  lemma KeptDropsBlank(inputs: seq<string>, blank: string)
    requires AllSpace(blank)
    ensures Kept(inputs + [blank]) == Kept(inputs)
  {
    TrimEmptyIffAllSpace(blank);
    assert (inputs + [blank])[..|inputs|] == inputs;
  }

  /** What saveAchievements stores for one category: the kept entries of its inputs, or
      nothing when the category's element is absent (no key in `fields`). */
  function SavedCategory(fields: map<Category, seq<string>>, c: Category): seq<string> {
    if c in fields then Kept(fields[c]) else []
  }

  /** The achievements saveAchievements rebuilds from the category inputs on the page. */
  function SavedAchievements(fields: map<Category, seq<string>>): (a: Achievements)
    ensures forall c :: c !in fields ==> a.Of(c) == []
    ensures forall c :: c in fields ==> a.Of(c) == Kept(fields[c]) && |a.Of(c)| <= |fields[c]|
  {
    var a := Achievements(
      SavedCategory(fields, Education), SavedCategory(fields, Hobbies),
      SavedCategory(fields, Family), SavedCategory(fields, Legacy));
    SavedBounds(fields, a);
    a
  }

  /** Category by category, the rebuilt achievements are what was saved for it. */
  lemma SavedBounds(fields: map<Category, seq<string>>, a: Achievements)
    requires a == Achievements(
      SavedCategory(fields, Education), SavedCategory(fields, Hobbies),
      SavedCategory(fields, Family), SavedCategory(fields, Legacy))
    ensures forall c :: c !in fields ==> a.Of(c) == []
    ensures forall c :: c in fields ==> a.Of(c) == Kept(fields[c]) && |a.Of(c)| <= |fields[c]|
  {
    forall c
      ensures a.Of(c) == SavedCategory(fields, c)
    {
      match c
      case Education =>
      case Hobbies =>
      case Family =>
      case Legacy =>
    }
  }

  /** Each category of the rebuilt achievements holds what was saved for it. */
  lemma SavedAchievementsOf(fields: map<Category, seq<string>>, c: Category)
    ensures SavedAchievements(fields).Of(c) == SavedCategory(fields, c)
  {
  }

  /** Two achievement records that agree on every category are the same. */
  lemma AchievementsEqual(a: Achievements, b: Achievements)
    requires forall c :: a.Of(c) == b.Of(c)
    ensures a == b
  {
    assert a.Of(Education) == b.Of(Education) && a.Of(Hobbies) == b.Of(Hobbies);
    assert a.Of(Family) == b.Of(Family) && a.Of(Legacy) == b.Of(Legacy);
  }
}
