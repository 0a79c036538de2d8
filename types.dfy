/**
 * The data model of the app (src/types.ts): activities, anniversaries,
 * preferences and partners, with the two constant catalogues.
 */
module Types {
  import opened Wrappers

  /** An entry of the date-idea list. */
  datatype Activity = Activity(id: string, name: string, category: string)

  /** Ids of custom activities start with the letter `c`. */
  predicate HasCustomPrefix(id: string) {
    |id| > 0 && id[0] == 'c'
  }

  /** The ids of `acts` are pairwise distinct, so each can key a list row. */
  predicate DistinctIds(acts: seq<Activity>) {
    forall i, j :: 0 <= i < j < |acts| ==> acts[i].id != acts[j].id
  }

  /**
   * The predefined activity catalogue, in display order. None of its ids
   * starts with `c`, the prefix of custom ids, and none of its entries is in
   * the `custom` category.
   */
  function PredefinedActivities(): (r: seq<Activity>)
    ensures |r| == 10
    ensures forall i :: 0 <= i < |r| ==> !HasCustomPrefix(r[i].id)
    ensures forall i :: 0 <= i < |r| ==> r[i].category != "custom"
  {
    [ Activity("h1", "Hiking", "hobbies"),
      Activity("h2", "Board Games", "hobbies"),
      Activity("s1", "Massage", "sex"),
      Activity("s2", "Role Play", "sex"),
      Activity("d1", "Meditation", "de-stress"),
      Activity("d2", "Bubble Bath", "de-stress"),
      Activity("r1", "Candlelit Dinner", "romantic"),
      Activity("r2", "Stargazing", "romantic"),
      Activity("p1", "Tickle Fight", "playful"),
      Activity("p2", "Pillow Fort", "playful") ]
  }

  /** The predefined ids are pairwise distinct, so each keys one row of the idea list. */
  lemma PredefinedIdsDistinct()
    ensures DistinctIds(PredefinedActivities())
  {
  }

  /**
   * A calendar date. A JavaScript `Date` is an instant; the app only ever
   * shows its calendar day, so the time of day is not modelled.
   */
  datatype Date = Date(year: int, month: nat, day: nat)

  /** A named yearly event. */
  datatype Anniversary = Anniversary(name: string, date: Date)

  /** A liked (`isLike`) or disliked topic. */
  datatype Preference = Preference(name: string, isLike: bool)

  /** The four values of `preferredName`, each naming one name field of a partner. */
  datatype NameField = FirstName | LastName | NickName | IntimateName

  /** The string literal TypeScript uses for each name field. */
  function NameFieldKey(f: NameField): string {
    match f
    case FirstName => "firstName"
    case LastName => "lastName"
    case NickName => "nickName"
    case IntimateName => "intimateName"
  }

  /** Reads one of the four string literals back; any other string is not a name field. */
  function ParseNameField(key: string): (r: Option<NameField>)
    ensures r.Some? <==> key in {"firstName", "lastName", "nickName", "intimateName"}
    ensures r.Some? ==> NameFieldKey(r.value) == key
  {
    if key == "firstName" then Some(FirstName)
    else if key == "lastName" then Some(LastName)
    else if key == "nickName" then Some(NickName)
    else if key == "intimateName" then Some(IntimateName)
    else None
  }

  /** Every name field is named by its own key, and by no other field's. */
  lemma NameFieldKeyRoundTrip(f: NameField, g: NameField)
    ensures ParseNameField(NameFieldKey(f)) == Some(f)
    ensures NameFieldKey(f) == NameFieldKey(g) ==> f == g
  {
  }

  /** A partner profile; anniversaries and preferences are ordered sequences, never absent. */
  datatype Partner = Partner(
    id: string,
    firstName: string,
    lastName: string,
    nickName: string,
    intimateName: string,
    preferredName: NameField,
    anniversaries: seq<Anniversary>,
    preferences: seq<Preference>,
    email: string,
    phone: string,
    address: string,
    notes: string)
  {
    /** The name stored in field `f` (`partner[f]`). */
    function Name(f: NameField): string {
      match f
      case FirstName => firstName
      case LastName => lastName
      case NickName => nickName
      case IntimateName => intimateName
    }
  }

  /** The preference names offered by the preference picker; they key its items, so they are distinct. */
  function CommonPreferences(): (r: seq<string>)
    ensures |r| == 8
    ensures forall i, j :: 0 <= i < j < |r| ==> r[i] != r[j]
  {
    ["Coffee", "Chocolate", "Flowers", "Movies", "Spicy Food", "Books", "Wine", "Loud Music"]
  }
}
