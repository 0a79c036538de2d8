/**
 * The partner editor (src/screens/PartnerModal.tsx): a modal that holds a
 * partner draft and the pending anniversary and preference inputs, and
 * hands the draft back on save or its id on delete.
 */
module PartnerModal {
  import opened Wrappers
  import opened Types
  import PhoneFormat

  /**
   * A partner being edited (`Partial<Partner>`): every field may be absent.
   * An absent list counts as empty.
   */
  datatype Draft = Draft(
    id: Option<string>,
    firstName: Option<string>,
    lastName: Option<string>,
    nickName: Option<string>,
    intimateName: Option<string>,
    preferredName: Option<NameField>,
    anniversaries: Option<seq<Anniversary>>,
    preferences: Option<seq<Preference>>,
    email: Option<string>,
    phone: Option<string>,
    address: Option<string>,
    notes: Option<string>)
  {
    /** `anniversaries || []` */
    function AnniversaryList(): seq<Anniversary> {
      anniversaries.GetOr([])
    }

    /** `preferences || []` */
    function PreferenceList(): seq<Preference> {
      preferences.GetOr([])
    }
  }

  /** The free-text inputs whose change handler stores the typed text unchanged. */
  datatype TextInput = FirstNameInput | LastNameInput | NickNameInput | IntimateNameInput
                     | EmailInput | AddressInput | NotesInput

  /** The draft field a text input edits. */
  function TextOf(d: Draft, input: TextInput): Option<string> {
    match input
    case FirstNameInput => d.firstName
    case LastNameInput => d.lastName
    case NickNameInput => d.nickName
    case IntimateNameInput => d.intimateName
    case EmailInput => d.email
    case AddressInput => d.address
    case NotesInput => d.notes
  }

  /** `{ ...d, [field]: text }`: the edited field holds the text; every other text field and the rest of the draft are as before. */
  function WithText(d: Draft, input: TextInput, text: string): (r: Draft)
    ensures TextOf(r, input) == Some(text)
    ensures forall other :: other != input ==> TextOf(r, other) == TextOf(d, other)
    ensures r.id == d.id && r.preferredName == d.preferredName && r.phone == d.phone
    ensures r.anniversaries == d.anniversaries && r.preferences == d.preferences
  {
    match input
    case FirstNameInput => d.(firstName := Some(text))
    case LastNameInput => d.(lastName := Some(text))
    case NickNameInput => d.(nickName := Some(text))
    case IntimateNameInput => d.(intimateName := Some(text))
    case EmailInput => d.(email := Some(text))
    case AddressInput => d.(address := Some(text))
    case NotesInput => d.(notes := Some(text))
  }

  /**
   * The draft with `a` appended to its anniversaries: one entry more, the
   * earlier ones unchanged and in order, `a` last, and no other field touched.
   */
  function WithAnniversary(d: Draft, a: Anniversary): (r: Draft)
    ensures r.anniversaries.Some?
    ensures |r.AnniversaryList()| == |d.AnniversaryList()| + 1
    ensures r.AnniversaryList()[..|d.AnniversaryList()|] == d.AnniversaryList()
    ensures r.AnniversaryList()[|d.AnniversaryList()|] == a
    ensures r.(anniversaries := d.anniversaries) == d
  {
    d.(anniversaries := Some(d.AnniversaryList() + [a]))
  }

  /**
   * The draft with `p` appended to its preferences: one entry more, the
   * earlier ones unchanged and in order, `p` last, and no other field touched.
   */
  function WithPreference(d: Draft, p: Preference): (r: Draft)
    ensures r.preferences.Some?
    ensures |r.PreferenceList()| == |d.PreferenceList()| + 1
    ensures r.PreferenceList()[..|d.PreferenceList()|] == d.PreferenceList()
    ensures r.PreferenceList()[|d.PreferenceList()|] == p
    ensures r.(preferences := d.preferences) == d
  {
    d.(preferences := Some(d.PreferenceList() + [p]))
  }

  /**
   * The id handed to the save and delete callbacks (`isEditing ? id || null : null`):
   * the draft's id when editing and the id is present and non-empty, otherwise none.
   */
  function ForwardedId(isEditing: bool, id: Option<string>): (r: Option<string>)
    ensures r.Some? <==> isEditing && id.Some? && id.value != ""
    ensures r.Some? ==> r == id
  {
    if isEditing && id.Some? && id.value != "" then id else None
  }

  /** The editor's state: the draft and the pending inputs, each one `useState` of the component. */
  class PartnerModal {
    /** Whether an existing partner is edited (a prop of the component). */
    const isEditing: bool
    var modalPartner: Draft
    var showDatePicker: bool
    var newAnniversaryName: string
    var newAnniversaryDate: Date
    var selectedDate: Option<Date>
    var newPreference: string
    var isLike: bool

    /** The editor opened on `partner`; `today` stands for `new Date()`. */
    constructor (partner: Draft, isEditing: bool, today: Date)
      ensures this.isEditing == isEditing && modalPartner == partner
      ensures !showDatePicker && newAnniversaryName == "" && newAnniversaryDate == today
      ensures selectedDate == None && newPreference == "" && isLike
    {
      this.isEditing := isEditing;
      modalPartner := partner;
      showDatePicker := false;
      newAnniversaryName := "";
      newAnniversaryDate := today;
      selectedDate := None;
      newPreference := "";
      isLike := true;
    }

    /** The effect that copies a new `partner` prop into the draft; the pending inputs stay. */
    method SyncPartner(partner: Draft)
      modifies this`modalPartner
      ensures modalPartner == partner
    {
      modalPartner := partner;
    }

    /** Typing into one of the plain text inputs. */
    method SetText(input: TextInput, text: string)
      modifies this`modalPartner
      ensures modalPartner == WithText(old(modalPartner), input, text)
    {
      modalPartner := WithText(modalPartner, input, text);
    }

    /** Choosing which name field is the display name. */
    method SetPreferredName(f: NameField)
      modifies this`modalPartner
      ensures modalPartner == old(modalPartner).(preferredName := Some(f))
    {
      modalPartner := modalPartner.(preferredName := Some(f));
    }

    /** Picking or typing the name of the next anniversary. */
    method SetNewAnniversaryName(name: string)
      modifies this`newAnniversaryName
      ensures newAnniversaryName == name
    {
      newAnniversaryName := name;
    }

    /** The "Pick Date" button. */
    method OpenDatePicker()
      modifies this`showDatePicker
      ensures showDatePicker
    {
      showDatePicker := true;
    }

    /**
     * The date picker closing: it always hides; a chosen date becomes both
     * the pending anniversary date and the shown selection, while a dismissal
     * (no date) keeps both.
     */
    method PickDate(date: Option<Date>)
      modifies this`showDatePicker, this`newAnniversaryDate, this`selectedDate
      ensures !showDatePicker
      ensures date.Some? ==> newAnniversaryDate == date.value && selectedDate == date
      ensures date.None? ==> newAnniversaryDate == old(newAnniversaryDate) && selectedDate == old(selectedDate)
    {
      showDatePicker := false;
      if date.Some? {
        newAnniversaryDate := date.value;
        selectedDate := date;
      }
    }

    /**
     * `addAnniversary`: appends the pending name and date to the draft's
     * anniversaries, then clears the name and the shown selection and hides
     * the picker. The pending date itself is kept, and an empty name is not
     * refused.
     */
    method AddAnniversary()
      modifies this`modalPartner, this`newAnniversaryName, this`selectedDate, this`showDatePicker
      ensures modalPartner == WithAnniversary(old(modalPartner), Anniversary(old(newAnniversaryName), newAnniversaryDate))
      ensures newAnniversaryName == "" && selectedDate == None && !showDatePicker
    {
      var anniversary := Anniversary(newAnniversaryName, newAnniversaryDate);
      modalPartner := WithAnniversary(modalPartner, anniversary);
      newAnniversaryName := "";
      selectedDate := None;
      showDatePicker := false;
    }

    /** Picking or typing the name of the next preference. */
    method SetNewPreference(name: string)
      modifies this`newPreference
      ensures newPreference == name
    {
      newPreference := name;
    }

    /** The Likes/Hates button flips the pending preference's polarity. */
    method ToggleLike()
      modifies this`isLike
      ensures isLike == !old(isLike)
    {
      isLike := !isLike;
    }

    /**
     * `addPreference`: appends the pending preference to the draft and clears
     * its name; the Likes/Hates choice is kept, and an empty name is not refused.
     */
    method AddPreference()
      modifies this`modalPartner, this`newPreference
      ensures modalPartner == WithPreference(old(modalPartner), Preference(old(newPreference), isLike))
      ensures newPreference == ""
    {
      var preference := Preference(newPreference, isLike);
      modalPartner := WithPreference(modalPartner, preference);
      newPreference := "";
    }

    /** `handlePhoneChange`: the draft's phone becomes the formatted text; nothing else changes. */
    method HandlePhoneChange(text: string)
      modifies this`modalPartner
      ensures modalPartner == old(modalPartner).(phone := Some(PhoneFormat.FormatPhoneNumber(text)))
    {
      var formatted := PhoneFormat.FormatPhoneNumber(text);
      modalPartner := modalPartner.(phone := Some(formatted));
    }

    /**
     * `handleSave`: what `onSave` receives: the draft as it stands, and the
     * id to update, present only when editing a partner whose id is non-empty.
     */
    method HandleSave() returns (saved: Draft, editId: Option<string>)
      ensures saved == modalPartner
      ensures editId.Some? <==> isEditing && modalPartner.id.Some? && modalPartner.id.value != ""
      ensures editId.Some? ==> editId == modalPartner.id
    {
      saved := modalPartner;
      editId := ForwardedId(isEditing, modalPartner.id);
    }

    /**
     * `handleDelete`: the id `onDelete` is called with, or none when it is not
     * called; it is called exactly when `handleSave` would pass an id, and with that id.
     */
    method HandleDelete() returns (deleted: Option<string>)
      ensures deleted.Some? <==> isEditing && modalPartner.id.Some? && modalPartner.id.value != ""
      ensures deleted == ForwardedId(isEditing, modalPartner.id)
    {
      if isEditing && modalPartner.id.Some? && modalPartner.id.value != "" {
        deleted := modalPartner.id;
      } else {
        deleted := None;
      }
    }
  }
}
