/**
 * The wizard page: the step controller with its save-on-leave and on-entry
 * hooks, the two interval timers, the subscription grid, the photo tiles and
 * the form inputs, and the handlers the page wires to its controls.
 */
module Wizard {
  import opened Wrappers
  import opened Strings
  import opened Lists
  import opened Ledger
  import opened Records
  import opened Timers
  import opened Composer

  /** A photo tile: the text of its second span (None when missing) and whether it is
      selected. */
  datatype PhotoTile = PhotoTile(caption: Option<string>, selected: bool)

  /** The page, as far as the handlers read and write it. An Option field is an element
      that may be absent, holding the element's current value when present. */
  datatype Page = Page(
    nameField: Option<string>,
    spouseField: Option<string>,
    mottoField: Option<string>,
    achievementFields: map<Category, seq<string>>,  // the values of each category element's inputs
    messageField: Option<string>,
    customized: bool,                                // the message field's `customized` mark
    tonePreview: Option<string>,
    customNameField: Option<string>,
    customPriceField: Option<ParsedPrice>,
    grid: seq<Item>,
    gridPresent: bool,                               // the grid and its custom-entry card
    photoTiles: seq<PhotoTile>,
    offerTimerPresent: bool,
    memorial: Option<Memorial>,
    summary: Option<Summary>)

  /** The paragraph enhanceMessage appends to the message. */
  const PostScript := "\n\nP.S. Remember that love transcends time and space. Though I may not be physically present, my love for you remains eternal. Live fully, laugh often, and know that you carry a piece of my heart with you always."

  /** What saveCurrentStepData stores when leaving `step`: the identity fields on step 2,
      the achievements on step 8, the message on step 9, nothing elsewhere. The ledger and
      the photos are never touched, and a saved name is never empty. */
  function SaveForStep(r: Record, p: Page, step: int): (s: Record)
    ensures s.monthlyTotal == r.monthlyTotal && s.subscriptions == r.subscriptions
    ensures s.customSubscriptions == r.customSubscriptions && s.photos == r.photos
    ensures step != 2 && step != 8 && step != 9 ==> s == r
    ensures step == 2 ==> s.name != "" && s.spouse != "" && s.motto != ""
  {
    if step == 2 then
      r.(name := OrDefault(p.nameField, "Friend"),
         spouse := OrDefault(p.spouseField, "Your loved one"),
         motto := OrDefault(p.mottoField, "A life well lived"))
    else if step == 8 then r.(achievements := SavedAchievements(p.achievementFields))
    else if step == 9 then r.(message := p.messageField.GetOr(""))
    else r
  }

  /** What the on-entry hook of `step` renders: the memorial preview on step 10 and the
      summary on step 12. */
  function EnterPage(p: Page, step: int, r: Record): (q: Page)
    ensures q.(memorial := p.memorial, summary := p.summary) == p
    ensures step != 10 && step != TotalSteps ==> q == p
    ensures step == 10 ==> q.memorial.Some? && q.memorial.value.name == MemorialName(r.name) && q.summary == p.summary
    ensures step == TotalSteps ==> q.summary.Some? && q.summary.value.yearly == 12 * r.monthlyTotal && q.memorial == p.memorial
  {
    if step == 10 then p.(memorial := Some(Compose(r)))
    else if step == TotalSteps then p.(summary := Some(Summarize(r)))
    else p
  }

  /** An input that restartDemo refills when it is present. */
  function Refill(field: Option<string>, value: string): Option<string> {
    if field.Some? then Some(value) else None
  }

  /** The inner loop of saveAchievements: walk one category's inputs in order and keep
      each trimmed value that is not blank. */
  method KeepFilled(inputs: seq<string>) returns (kept: seq<string>)
    ensures kept == Kept(inputs)
  {
    kept := [];
    for m := 0 to |inputs|
      invariant kept == Kept(inputs[..m])
    {
      var v := Trim(inputs[m]);
      if v != "" {
        kept := kept + [v];
      }
      assert inputs[..m + 1][..m] == inputs[..m];
    }
    assert inputs[..|inputs|] == inputs;
  }

  class Demo {
    var currentStep: int
    var userData: Record
    var page: Page
    var impactRunning: bool   // impactAnimationInterval is set
    var days: int             // the days counted by the impact run
    var offerRunning: bool    // offerCountdownInterval is set
    var seconds: int          // the seconds left on the offer countdown
    var offerDisplay: OfferDisplay

    /** Everything the handlers keep, except that the cached total is current. */
    ghost predicate WellFormed()
      reads this
    {
      && 1 <= currentStep <= TotalSteps
      && (impactRunning ==> currentStep == 4 && 0 <= days < ImpactDays)
      && (offerRunning ==> currentStep == TotalSteps && 0 <= seconds <= OfferSeconds && page.offerTimerPresent)
      && NoDup(userData.subscriptions)
      && NoDup(userData.photos)
    }

    /** The object invariant: the step is in range, the impact timer runs only on step 4
        and the offer timer only on step 12, no name is listed twice, and monthlyTotal is
        the total of the checked cards. */
    ghost predicate Valid()
      reads this
    {
      WellFormed() && userData.monthlyTotal == CheckedTotal(page.grid)
    }

    function Impact(): ImpactTimer
      reads this
    {
      ImpactTimer(impactRunning, days)
    }

    function Offer(): OfferTimer
      reads this
    {
      OfferTimer(offerRunning, seconds, offerDisplay)
    }

    /** The script's initial state on a loaded page, after the load handler's
        calculateTotal. */
    constructor (p: Page)
      ensures Valid()
      ensures currentStep == 1 && page == p
      ensures userData == Initial().(monthlyTotal := CheckedTotal(p.grid))
      ensures !impactRunning && !offerRunning && offerDisplay == Untouched
    {
      currentStep := 1;
      userData := Initial();
      page := p;
      impactRunning, days := false, 0;
      offerRunning, seconds := false, OfferSeconds;
      offerDisplay := Untouched;
      new;
      CalculateTotal();
    }

    /** calculateTotal: add up the prices of the checked cards whose label parses. */
    method CalculateTotal()
      requires WellFormed()
      modifies this`userData
      ensures Valid()
      ensures userData == old(userData).(monthlyTotal := CheckedTotal(page.grid))
      ensures old(Valid()) ==> userData == old(userData)
    {
      var grid := page.grid;
      var total := 0;
      for i := 0 to |grid|
        invariant total == CheckedTotal(grid[..i])
      {
        var it := grid[i];
        if it.hasBox && it.checked && it.price.Some? {
          total := total + it.price.value;
        }
        assert grid[..i + 1][..i] == grid[..i];
      }
      assert grid[..|grid|] == grid;
      userData := userData.(monthlyTotal := total);
    }

    /** nextStep: on the last step nothing happens; otherwise save the current step's
        inputs, stop the impact timer when leaving step 4, move forward one step and run
        the new step's entry hook (start the impact timer on 4, build the preview on 10,
        build the summary and start the offer countdown on 12). */
    method NextStep()
      requires Valid()
      modifies this
      ensures Valid()
      ensures old(currentStep) == TotalSteps ==> unchanged(this)
      ensures old(currentStep) < TotalSteps ==>
        && currentStep == old(currentStep) + 1
        && userData == SaveForStep(old(userData), old(page), old(currentStep))
        && page == EnterPage(old(page), currentStep, userData)
        && (currentStep == 4 ==> impactRunning == (userData.monthlyTotal > 0))
        && (currentStep == 4 && impactRunning ==> days == 0)
        && (currentStep != 4 ==> !impactRunning)
        && (!impactRunning ==> days == old(days))
        && (currentStep == TotalSteps ==> offerRunning == page.offerTimerPresent)
        && (currentStep == TotalSteps && offerRunning ==> seconds == OfferSeconds)
        && (currentStep != TotalSteps ==> !offerRunning)
        && (!offerRunning ==> seconds == old(seconds))
        && offerDisplay == old(offerDisplay)
    {
      if currentStep < TotalSteps {
        SaveCurrentStepData();
        if currentStep == 4 && impactRunning {
          impactRunning := false;
        }
        currentStep := currentStep + 1;
        UpdateStepSpecificContent();
        if currentStep == TotalSteps {
          StartOfferCountdown();
        }
      }
    }

    /** previousStep: on the first step nothing happens; otherwise stop the impact timer
        when leaving step 4 and the offer timer when leaving step 12, and move back one
        step. No input is saved and no entry hook runs, so no timer is left running. */
    method PreviousStep()
      requires Valid()
      modifies this`currentStep, this`impactRunning, this`offerRunning
      ensures Valid()
      ensures old(currentStep) == 1 ==> unchanged(this)
      ensures old(currentStep) > 1 ==> currentStep == old(currentStep) - 1 && !impactRunning && !offerRunning
    {
      if currentStep > 1 {
        if currentStep == 4 && impactRunning {
          impactRunning := false;
        }
        if currentStep == TotalSteps && offerRunning {
          offerRunning := false;
        }
        currentStep := currentStep - 1;
      }
    }

    /** saveCurrentStepData. */
    method SaveCurrentStepData()
      requires Valid()
      modifies this`userData
      ensures Valid()
      ensures userData == SaveForStep(old(userData), page, currentStep)
    {
      if currentStep == 2 {
        userData := userData.(
          name := OrDefault(page.nameField, "Friend"),
          spouse := OrDefault(page.spouseField, "Your loved one"),
          motto := OrDefault(page.mottoField, "A life well lived"));
      } else if currentStep == 8 {
        SaveAchievements();
      } else if currentStep == 9 {
        userData := userData.(message := if page.messageField.Some? then page.messageField.value else "");
      }
    }

    /** updateStepSpecificContent, run on entering the current step. */
    method UpdateStepSpecificContent()
      requires Valid()
      modifies this`impactRunning, this`days, this`page
      ensures Valid()
      ensures page == EnterPage(old(page), currentStep, userData)
      ensures currentStep == 4 ==> impactRunning == (userData.monthlyTotal > 0)
      ensures currentStep == 4 && impactRunning ==> days == 0
      ensures currentStep != 4 ==> impactRunning == old(impactRunning)
      ensures !impactRunning ==> days == old(days)
    {
      if currentStep == 4 {
        StartImpactAnimation();
      } else if currentStep == 10 {
        page := page.(memorial := Some(Compose(userData)));
      } else if currentStep == TotalSteps {
        page := page.(summary := Some(Summarize(userData)));
      }
    }

    /** startImpactAnimation: clear any running impact interval, then start a fresh
        thirty-day run when there is a monthly total to dramatise. */
    method StartImpactAnimation()
      requires Valid() && currentStep == 4
      modifies this`impactRunning, this`days
      ensures Valid()
      ensures impactRunning == (userData.monthlyTotal > 0)
      ensures impactRunning ==> days == 0
      ensures !impactRunning ==> days == old(days)
    {
      if impactRunning {
        impactRunning := false;
      }
      if userData.monthlyTotal > 0 {
        days := 0;
        impactRunning := true;
      }
    }

    /** One firing of the impact interval. */
    method ImpactTick()
      requires Valid()
      modifies this`impactRunning, this`days
      ensures Valid()
      ensures Impact() == NextImpact(old(Impact()), currentStep == 4)
    {
      if impactRunning {
        days := days + 1;
        if days >= ImpactDays || currentStep != 4 {
          impactRunning := false;
        }
      }
    }

    /** startOfferCountdown: clear a running countdown, then, when the timer element is
        on the page, start a fresh one at 600 seconds. */
    method StartOfferCountdown()
      requires Valid() && currentStep == TotalSteps
      modifies this`offerRunning, this`seconds
      ensures Valid()
      ensures offerRunning == page.offerTimerPresent
      ensures offerRunning ==> seconds == OfferSeconds
      ensures !offerRunning ==> seconds == old(seconds)
    {
      if page.offerTimerPresent && offerRunning {
        offerRunning := false;
      }
      if !page.offerTimerPresent {
        return;
      }
      seconds := OfferSeconds;
      offerRunning := true;
    }

    /** One firing of the offer interval. */
    method OfferTick()
      requires Valid()
      modifies this`offerRunning, this`seconds, this`offerDisplay
      ensures Valid()
      ensures Offer() == NextOffer(old(Offer()))
    {
      if offerRunning {
        var shown := Countdown(Clock(seconds), seconds < 60);
        seconds := seconds - 1;
        if seconds < 0 {
          offerRunning := false;
          offerDisplay := Expired;
        } else {
          offerDisplay := shown;
        }
      }
    }

    /** restartDemo: stop both timers, go back to step 1, refill the three identity inputs,
        re-check exactly the three default cards, forget the custom subscriptions and
        recompute the total. The rest of the record (subscription names, identity fields,
        photos, achievements, message) is kept as it was. */
    method RestartDemo()
      requires Valid()
      modifies this
      ensures Valid()
      ensures currentStep == 1 && !impactRunning && !offerRunning
      ensures days == old(days) && seconds == old(seconds) && offerDisplay == old(offerDisplay)
      ensures page == old(page).(
                nameField := Refill(old(page.nameField), "John"),
                spouseField := Refill(old(page.spouseField), "Sarah"),
                mottoField := Refill(old(page.mottoField), "Living one adventure at a time"),
                grid := ResetGrid(old(page.grid)))
      ensures userData == old(userData).(customSubscriptions := [], monthlyTotal := CheckedTotal(page.grid))
    {
      impactRunning := false;
      offerRunning := false;
      currentStep := 1;
      page := page.(
        nameField := Refill(page.nameField, "John"),
        spouseField := Refill(page.spouseField, "Sarah"),
        mottoField := Refill(page.mottoField, "Living one adventure at a time"));
      var grid := page.grid;
      var reset: seq<Item> := [];
      for i := 0 to |grid|
        invariant reset == ResetGrid(grid[..i])
      {
        var it := grid[i];
        if it.hasBox {
          it := it.(checked := it.name in DefaultSubscriptions);
        }
        reset := reset + [it];
      }
      assert grid[..|grid|] == grid;
      page := page.(grid := reset);
      userData := userData.(customSubscriptions := []);
      CalculateTotal();
    }

    /** toggleSubscription on card `i`, whose handler passes `name`: nothing without a
        checkbox; otherwise flip the box, list the name if it is now checked and not yet
        listed, drop every copy of it if it is now unchecked, and recompute the total. */
    method ToggleSubscription(i: nat, name: string)
      requires Valid() && i < |page.grid|
      modifies this`page, this`userData
      ensures Valid()
      ensures !old(page.grid[i].hasBox) ==> page == old(page) && userData == old(userData)
      ensures old(page.grid[i].hasBox) ==>
        && page == old(page).(grid := old(page.grid)[i := old(page.grid[i]).(checked := !old(page.grid[i].checked))])
        && userData == old(userData).(
             subscriptions := if page.grid[i].checked then AddIfAbsent(old(userData.subscriptions), name)
                              else RemoveAll(old(userData.subscriptions), name),
             monthlyTotal := CheckedTotal(page.grid))
        && (name in userData.subscriptions <==> page.grid[i].checked)
    {
      var it := page.grid[i];
      if !it.hasBox {
        return;
      }
      it := it.(checked := !it.checked);
      page := page.(grid := page.grid[i := it]);
      if it.checked {
        if name !in userData.subscriptions {
          userData := userData.(subscriptions := userData.subscriptions + [name]);
        }
      } else {
        RemoveAllKeepsNoDup(userData.subscriptions, name);
        userData := userData.(subscriptions := RemoveAll(userData.subscriptions, name));
      }
      CalculateTotal();
    }

    /** addCustomSubscription: validate the trimmed name and the price, reject a name that
        is already listed, stop silently when the grid is missing; on success append a
        checked card, append the entry to both lists, clear the inputs and recompute the
        total. Every other outcome leaves page and record as they were. */
    method AddCustomSubscription() returns (outcome: AddOutcome)
      requires Valid()
      modifies this`page, this`userData
      ensures Valid()
      ensures outcome == AddVerdict(old(page.customNameField), old(page.customPriceField),
                                    old(userData.subscriptions), old(page.gridPresent))
      ensures outcome != Added ==> page == old(page) && userData == old(userData)
      ensures outcome == Added ==>
        var name := Trim(old(page.customNameField).value);
        var price := old(page.customPriceField).value.amount;
        && price > 0
        && page == old(page).(
             grid := old(page.grid) + [Item(name, Some(price), true, true)],
             customNameField := Some(""),
             customPriceField := Some(NotANumber))
        && userData == old(userData).(
             customSubscriptions := old(userData.customSubscriptions) + [Custom(name, price)],
             subscriptions := old(userData.subscriptions) + [name],
             monthlyTotal := old(userData.monthlyTotal) + price)
    {
      outcome := AddVerdict(page.customNameField, page.customPriceField, userData.subscriptions, page.gridPresent);
      if outcome != Added {
        return;
      }
      var name := Trim(page.customNameField.value);
      var price: nat := page.customPriceField.value.amount;
      CheckedTotalAppend(page.grid, Item(name, Some(price), true, true));
      page := page.(grid := page.grid + [Item(name, Some(price), true, true)]);
      userData := userData.(
        customSubscriptions := userData.customSubscriptions + [Custom(name, price)],
        subscriptions := userData.subscriptions + [name]);
      page := page.(customNameField := Some(""), customPriceField := Some(NotANumber));
      CalculateTotal();
    }

    /** selectTemplate. */
    method SelectTemplate(template: string)
      requires Valid()
      modifies this`userData
      ensures Valid()
      ensures userData == old(userData).(template := template)
    {
      userData := userData.(template := template);
    }

    /** togglePhoto on tile `i`: flip its selection, list its caption ("Photo" when the
        caption span is missing) if now selected and not yet listed, drop every copy of it
        if now unselected. */
    method TogglePhoto(i: nat)
      requires Valid() && i < |page.photoTiles|
      modifies this`page, this`userData
      ensures Valid()
      ensures var tile := old(page.photoTiles[i]);
              var photo := tile.caption.GetOr("Photo");
              && page == old(page).(photoTiles := old(page.photoTiles)[i := tile.(selected := !tile.selected)])
              && userData == old(userData).(
                   photos := if !tile.selected then AddIfAbsent(old(userData.photos), photo)
                             else RemoveAll(old(userData.photos), photo))
              && (photo in userData.photos <==> !tile.selected)
    {
      var tile := page.photoTiles[i];
      tile := tile.(selected := !tile.selected);
      page := page.(photoTiles := page.photoTiles[i := tile]);
      var photo := if tile.caption.Some? then tile.caption.value else "Photo";
      if tile.selected {
        if photo !in userData.photos {
          userData := userData.(photos := userData.photos + [photo]);
        }
      } else {
        RemoveAllKeepsNoDup(userData.photos, photo);
        userData := userData.(photos := RemoveAll(userData.photos, photo));
      }
    }

    /** saveAchievements: rebuild each category, in order, from the trimmed non-blank
        values of its inputs; a category whose element is missing becomes empty. */
    method SaveAchievements()
      requires Valid()
      modifies this`userData
      ensures Valid()
      ensures userData == old(userData).(achievements := SavedAchievements(page.achievementFields))
    {
      var fields := page.achievementFields;
      var a := userData.achievements;
      for k := 0 to |Categories|
        invariant userData == old(userData)
        invariant forall j :: 0 <= j < k ==> a.Of(Categories[j]) == SavedCategory(fields, Categories[j])
      {
        var c := Categories[k];
        var kept := [];
        if c in fields {
          kept := KeepFilled(fields[c]);
        }
        a := a.Put(c, kept);
      }
      forall c ensures a.Of(c) == SavedAchievements(fields).Of(c) {
        SavedAchievementsOf(fields, c);
        assert c == Categories[Rank(c)];
      }
      AchievementsEqual(a, SavedAchievements(fields));
      userData := userData.(achievements := a);
    }

    /** selectTone: record the tone; when the preview element is present, show the tone's
        passage and copy it into the message field unless that field was customised. */
    method SelectTone(tone: string)
      requires Valid()
      modifies this`userData, this`page
      ensures Valid()
      ensures userData == old(userData).(tone := tone)
      ensures old(page.tonePreview).None? ==> page == old(page)
      ensures old(page.tonePreview).Some? ==>
        page == old(page).(
          tonePreview := Some(ToneMessage(tone)),
          messageField := if old(page.messageField).Some? && !old(page.customized)
                          then Some(ToneMessage(tone)) else old(page.messageField))
    {
      userData := userData.(tone := tone);
      if page.tonePreview.Some? {
        var message := ToneMessage(tone);
        page := page.(tonePreview := Some(message));
        if page.messageField.Some? && !page.customized {
          page := page.(messageField := Some(message));
        }
      }
    }

    /** enhanceMessage: mark the message field customised and append the fixed
        postscript to its text. */
    method EnhanceMessage()
      requires Valid()
      modifies this`page
      ensures Valid()
      ensures old(page.messageField).None? ==> page == old(page)
      ensures old(page.messageField).Some? ==>
        page == old(page).(customized := true, messageField := Some(old(page.messageField).value + PostScript))
    {
      if page.messageField.None? {
        return;
      }
      var original := page.messageField.value;
      page := page.(customized := true);
      page := page.(messageField := Some(original + PostScript));
    }
  }
}
