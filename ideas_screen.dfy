/**
 * The idea list (src/screens/IdeasScreen.tsx): the predefined activities
 * followed by the custom ones the user adds during the session.
 */
module Ideas {
  import opened Types
  import opened JsText

  /** The id of a custom activity added at time `now` (milliseconds): `c` followed by `now` in decimal. */
  function CustomId(now: nat): (id: string)
    ensures HasCustomPrefix(id)
  {
    "c" + DecimalString(now)
  }

  /** Custom ids made at different times differ, and ids made at the same time coincide. */
  lemma CustomIdInjective(now: nat, later: nat)
    ensures CustomId(now) == CustomId(later) <==> now == later
  {
    if CustomId(now) == CustomId(later) {
      assert CustomId(now)[1..] == DecimalString(now);
      assert CustomId(later)[1..] == DecimalString(later);
      DecimalStringInjective(now, later);
    }
  }

  /** A custom activity as the add button makes it: a `c` id, the name as typed (not trimmed), a non-blank name, category `custom`. */
  predicate IsCustomActivity(a: Activity) {
    HasCustomPrefix(a.id) && !IsBlank(a.name) && a.category == "custom"
  }

  /** `allActivities`: the predefined catalogue first, then the custom entries in the order they were added. */
  function AllActivities(custom: seq<Activity>): (r: seq<Activity>)
    ensures |r| == |PredefinedActivities()| + |custom|
    ensures r[..|PredefinedActivities()|] == PredefinedActivities()
    ensures r[|PredefinedActivities()|..] == custom
  {
    PredefinedActivities() + custom
  }

  /**
   * The list keys stay unique: when the custom entries have distinct ids that
   * all start with `c`, no id of the whole list occurs twice, because no
   * predefined id starts with `c`.
   */
  lemma AllActivitiesKeysDistinct(custom: seq<Activity>)
    requires DistinctIds(custom)
    requires forall i :: 0 <= i < |custom| ==> HasCustomPrefix(custom[i].id)
    ensures DistinctIds(AllActivities(custom))
  {
    PredefinedIdsDistinct();
  }

  /**
   * Appending an entry made at time `now` keeps the ids distinct exactly when
   * no earlier entry was made at that same time (equivalently, carries the id
   * `CustomId(now)`).
   */
  lemma AppendKeepsIdsDistinct(custom: seq<Activity>, name: string, now: nat)
    requires DistinctIds(custom)
    ensures DistinctIds(custom + [Activity(CustomId(now), name, "custom")])
        <==> forall i :: 0 <= i < |custom| ==> custom[i].id != CustomId(now)
  {
    var added := custom + [Activity(CustomId(now), name, "custom")];
    if DistinctIds(added) {
      forall i | 0 <= i < |custom| ensures custom[i].id != CustomId(now) {
        assert added[i] == custom[i] && added[|custom|].id == CustomId(now);
      }
    }
  }

  /** The screen's state: the text of the input and the custom activities added so far. */
  class IdeasScreen {
    /** The heading shown above the list (a prop of the component). */
    const title: string
    var customActivity: string
    var customActivities: seq<Activity>

    /** Every custom entry was made by the add button. */
    ghost predicate Valid()
      reads this
    {
      forall i :: 0 <= i < |customActivities| ==> IsCustomActivity(customActivities[i])
    }

    constructor (title: string)
      ensures Valid()
      ensures this.title == title && customActivity == "" && customActivities == []
    {
      this.title := title;
      customActivity := "";
      customActivities := [];
    }

    /** Typing into the input. */
    method SetCustomActivity(text: string)
      modifies this`customActivity
      ensures customActivity == text
    {
      customActivity := text;
    }

    /**
     * `addCustomActivity` at time `now`: a blank input changes nothing;
     * otherwise exactly one entry, named by the input as typed, is appended
     * after the earlier ones and the input is cleared.
     */
    method AddCustomActivity(now: nat)
      requires Valid()
      modifies this`customActivity, this`customActivities
      ensures Valid()
      ensures IsBlank(old(customActivity)) ==>
        customActivities == old(customActivities) && customActivity == old(customActivity)
      ensures !IsBlank(old(customActivity)) ==>
        customActivities == old(customActivities) + [Activity(CustomId(now), old(customActivity), "custom")]
        && customActivity == ""
      ensures DistinctIds(old(customActivities))
        && (forall i :: 0 <= i < |old(customActivities)| ==> old(customActivities)[i].id != CustomId(now))
        ==> DistinctIds(customActivities)
    {
      TrimEmptyIffBlank(customActivity);
      if Trim(customActivity) != "" {
        var newActivity := Activity(CustomId(now), customActivity, "custom");
        customActivities := customActivities + [newActivity];
        customActivity := "";
      }
    }
  }

  /**
   * Two adds that read the same `Date.now()` (the clock set back, say) give
   * two rows the same list key.
   */
  method RepeatedTimeDuplicatesKey() returns (screen: IdeasScreen)
    ensures |screen.customActivities| == 2
    ensures screen.customActivities[0].id == screen.customActivities[1].id
    ensures !DistinctIds(AllActivities(screen.customActivities))
  {
    screen := new IdeasScreen("Ideas");
    screen.SetCustomActivity("Picnic");
    assert !IsBlank(screen.customActivity) by { assert !IsWhiteSpace(screen.customActivity[0]); }
    screen.AddCustomActivity(7);
    screen.SetCustomActivity("Museum");
    assert !IsBlank(screen.customActivity) by { assert !IsWhiteSpace(screen.customActivity[0]); }
    screen.AddCustomActivity(7);
    var all := AllActivities(screen.customActivities);
    assert all[10] == screen.customActivities[0] && all[11] == screen.customActivities[1];
  }
}
