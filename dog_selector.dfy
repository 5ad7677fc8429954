/** DogSelector.tsx: the profile form. `formData`, `editingDog` and `showAdd` are state the
    handlers change; the record merges and the avatar rule are functions. */
module DogSelector {
  import opened Wrappers
  import opened Text
  import opened Types

  const DefaultBreed: string := "通用型"
  const AvatarService: string := "https://api.dicebear.com/7.x/bottts/svg?seed="

  /** `formData`. Every input is a string; only the avatar may be `undefined` (`None`). */
  datatype FormData = FormData(
    name: string,
    birthDate: string,
    weight: string,
    breed: string,
    customAvatarUrl: Option<string>)

  /** The form as first rendered (DogSelector.tsx:19-25). */
  const InitialForm: FormData := FormData("", "", "", DefaultBreed, Some(""))

  /** The form after `resetForm` (DogSelector.tsx:28): the avatar is `undefined`, not "". */
  const BlankForm: FormData := FormData("", "", "", DefaultBreed, None)

  /** What a submit hands to the app: nothing, `onAdd(draft)` or `onUpdate(profile)`. */
  datatype SubmitAction = NoChange | AddDraft(draft: DogDraft) | UpdateProfile(profile: DogProfile)

  /** `x || ''` on an optional string. */
  function TextOrEmpty(s: Option<string>): (r: string)
    ensures s.Some? ==> r == s.value
    ensures s.None? ==> r == ""
  {
    if s.Some? then s.value else ""
  }

  /** The form `startEdit` fills in (DogSelector.tsx:65-71): a missing birth date or weight
      becomes '', an empty breed becomes '通用型', the avatar is copied as it is. */
  function FormOf(dog: DogProfile): (f: FormData)
    ensures f.name == dog.name && f.customAvatarUrl == dog.customAvatarUrl
    ensures f.birthDate == TextOrEmpty(dog.birthDate) && f.weight == TextOrEmpty(dog.weight)
    ensures dog.breed != "" ==> f.breed == dog.breed
    ensures dog.breed == "" ==> f.breed == DefaultBreed
  {
    FormData(dog.name, TextOrEmpty(dog.birthDate), TextOrEmpty(dog.weight),
             if dog.breed != "" then dog.breed else DefaultBreed, dog.customAvatarUrl)
  }

  /** `{...formData, avatarSeed: formData.name}` (DogSelector.tsx:55-58). */
  function DraftOf(f: FormData): (d: DogDraft)
    ensures d.name == f.name && d.avatarSeed == f.name && d.breed == f.breed
    ensures d.birthDate == Some(f.birthDate) && d.weight == Some(f.weight)
    ensures d.customAvatarUrl == f.customAvatarUrl
  {
    DogDraft(f.name, f.breed, f.name, Some(f.birthDate), Some(f.weight), f.customAvatarUrl)
  }

  /** `{...editingDog, ...formData, avatarSeed: formData.name}` (DogSelector.tsx:49-53): only
      the id survives from the edited dog; every form field overrides, the avatar too, even
      when it is `undefined`. */
  function Merged(dog: DogProfile, f: FormData): (p: DogProfile)
    ensures p.id == dog.id
    ensures p.name == f.name && p.avatarSeed == f.name && p.breed == f.breed
    ensures p.birthDate == Some(f.birthDate) && p.weight == Some(f.weight)
    ensures p.customAvatarUrl == f.customAvatarUrl
  {
    DogProfile(dog.id, f.name, f.breed, f.name, Some(f.birthDate), Some(f.weight), f.customAvatarUrl)
  }

  /** Editing differs from adding only by the id kept. */
  lemma MergedIsDraftWithId(dog: DogProfile, f: FormData)
    ensures Merged(dog, f) == WithId(DraftOf(f), dog.id)
  {
  }

  /** `renderAvatar` (DogSelector.tsx:75-80, and App.tsx:129-134 for the header): the uploaded
      picture when there is a non-empty one, otherwise the generated avatar for the seed. */
  function AvatarUrl(customAvatarUrl: Option<string>, avatarSeed: string): (url: string)
    ensures customAvatarUrl.Some? && customAvatarUrl.value != "" ==> url == customAvatarUrl.value
    ensures customAvatarUrl.None? || customAvatarUrl.value == "" ==> url == AvatarService + avatarSeed
  {
    if customAvatarUrl.Some? && customAvatarUrl.value != "" then customAvatarUrl.value
    else AvatarService + avatarSeed
  }

  /** Opening a dog for editing and saving it untouched gives that dog back, provided it has a
      non-blank name, its seed is its name, its breed is set and its birth date and weight are
      present. (A dog whose seed differs from its name gets the name as its new seed.) */
  lemma EditRoundTrip(dog: DogProfile)
    requires Trim(dog.name) != ""
    requires dog.avatarSeed == dog.name && dog.breed != ""
    requires dog.birthDate.Some? && dog.weight.Some?
    ensures Merged(dog, FormOf(dog)) == dog
  {
  }

  /** The dog list's form state. */
  class Selector {
    var showAdd: bool
    var editing: Option<DogProfile>
    var form: FormData

    constructor ()
      ensures !showAdd && editing == None && form == InitialForm
    {
      showAdd := false;
      editing := None;
      form := InitialForm;
    }

    /** `resetForm` (DogSelector.tsx:27-31): back to the list with a blank form. */
    method ResetForm()
      modifies this
      ensures form == BlankForm && !showAdd && editing == None
    {
      form := BlankForm;
      showAdd := false;
      editing := None;
    }

    /** The "add" button (DogSelector.tsx:123): the form opens as it was left. */
    method OpenAdd()
      modifies this`showAdd
      ensures showAdd
    {
      showAdd := true;
    }

    /** `startEdit` (DogSelector.tsx:63-73). */
    method StartEdit(dog: DogProfile)
      modifies this
      ensures editing == Some(dog) && form == FormOf(dog) && showAdd
    {
      editing := Some(dog);
      form := FormOf(dog);
      showAdd := true;
    }

    /** The text inputs' `onChange` handlers (DogSelector.tsx:165-199): the avatar is kept. */
    method EditFields(name: string, birthDate: string, weight: string, breed: string)
      modifies this`form
      ensures form == FormData(name, birthDate, weight, breed, old(form).customAvatarUrl)
    {
      form := FormData(name, birthDate, weight, breed, form.customAvatarUrl);
    }

    /** The uploaded picture, once read as a data URL (DogSelector.tsx:37-39). */
    method ChooseAvatar(dataUrl: string)
      modifies this`form
      ensures form == old(form).(customAvatarUrl := Some(dataUrl))
    {
      form := form.(customAvatarUrl := Some(dataUrl));
    }

    /** `handleSubmit` (DogSelector.tsx:44-61). A blank name changes nothing at all; otherwise
        the edited dog is updated (or a new one added) from the form, and the form is reset. */
    method Submit() returns (action: SubmitAction)
      modifies this
      ensures Trim(old(form).name) == "" ==>
        action == NoChange && form == old(form) && showAdd == old(showAdd) && editing == old(editing)
      ensures Trim(old(form).name) != "" && old(editing).Some? ==>
        action == UpdateProfile(Merged(old(editing).value, old(form)))
      ensures Trim(old(form).name) != "" && old(editing).None? ==> action == AddDraft(DraftOf(old(form)))
      ensures Trim(old(form).name) != "" ==> form == BlankForm && !showAdd && editing == None
    {
      if Trim(form.name) == "" {
        return NoChange;
      }
      if editing.Some? {
        action := UpdateProfile(Merged(editing.value, form));
      } else {
        action := AddDraft(DraftOf(form));
      }
      ResetForm();
    }
  }
}
