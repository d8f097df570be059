/**
 * The profile manager: deleting and saving profiles as operations on the list,
 * and the form state (modal, draft, mode) as an object whose handlers update it.
 */
module ProfileManager {
  import opened Wrappers
  import opened Text
  import opened Types
  import opened Lists

  /** The profile being edited: a profile whose `id` is absent while adding. */
  datatype Draft = Draft(
    id: Option<string>, name: string, age: int, gender: Gender, activityLevel: ActivityLevel, notes: Option<string>)

  /** The form's blank profile: no id, empty name and notes, age 0, gender other, moderate activity. */
  const EmptyDraft := Draft(None, "", 0, Other, Moderate, Some(""))

  function DraftOf(p: Profile): Draft
  {
    Draft(Some(p.id), p.name, p.age, p.gender, p.activityLevel, p.notes)
  }

  function WithId(d: Draft, id: string): Profile
  {
    Profile(id, d.name, d.age, d.gender, d.activityLevel, d.notes)
  }

  /** The list without every profile carrying `id`. */
  function WithoutProfile(ps: seq<Profile>, id: string): seq<Profile>
  {
    Filter(ps, (p: Profile) => p.id != id)
  }

  /** The list with every profile whose id is the draft's replaced by the draft. */
  function Replaced(ps: seq<Profile>, d: Draft): (r: seq<Profile>)
    ensures |r| == |ps|
  {
    seq(|ps|, i requires 0 <= i < |ps| => if d.id == Some(ps[i].id) then WithId(d, ps[i].id) else ps[i])
  }

  /** The list with the draft appended under a fresh id; an id the draft carries is overridden. */
  function Appended(ps: seq<Profile>, d: Draft, freshId: string): (r: seq<Profile>)
    ensures |r| == |ps| + 1 && r[..|ps|] == ps
  {
    ps + [WithId(d, freshId)]
  }

  /** A form field and the value typed or selected in it. */
  datatype Input =
    | NameInput(text: string)
    | AgeInput(text: string)
    | GenderInput(gender: Gender)
    | ActivityInput(level: ActivityLevel)
    | NotesInput(text: string)

  /** `parseInt(value) || 0`. */
  function AgeOf(text: string): (r: int)
    ensures ParseInt(text).None? ==> r == 0
    ensures ParseInt(text).Some? ==> r == ParseInt(text).value
  {
    var n := ParseInt(text);
    if n.Some? && n.value != 0 then n.value else 0
  }

  /** The draft with the one field of the input set. */
  function Applied(d: Draft, input: Input): Draft
  {
    match input
    case NameInput(s) => d.(name := s)
    case AgeInput(s) => d.(age := AgeOf(s))
    case GenderInput(g) => d.(gender := g)
    case ActivityInput(a) => d.(activityLevel := a)
    case NotesInput(s) => d.(notes := Some(s))
  }

  // ---------------------------------------------------------------------
  // Properties of the list operations

  /** Delete removes exactly the profiles with the id; the others stay, in their order. */
  lemma DeleteRemovesExactly(ps: seq<Profile>, id: string)
    ensures forall p :: p in WithoutProfile(ps, id) <==> p in ps && p.id != id
    ensures forall i :: 0 <= i < |WithoutProfile(ps, id)| ==> WithoutProfile(ps, id)[i].id != id
    ensures forall k :: 0 <= k <= |ps| ==>
      WithoutProfile(ps, id) == WithoutProfile(ps[..k], id) + WithoutProfile(ps[k..], id)
    ensures forall k :: 0 <= k < |ps| ==>
      WithoutProfile([ps[k]], id) == (if ps[k].id != id then [ps[k]] else [])
  {
    FilterOrder(ps, (q: Profile) => q.id != id);
    forall p
      ensures p in WithoutProfile(ps, id) <==> p in ps && p.id != id
    {
      FilterMembership(ps, (q: Profile) => q.id != id, p);
    }
  }

  /** Deleting twice is deleting once. */
  lemma DeleteIdempotent(ps: seq<Profile>, id: string)
    ensures WithoutProfile(WithoutProfile(ps, id), id) == WithoutProfile(ps, id)
  {
    FilterIdempotent(ps, (p: Profile) => p.id != id);
  }

  /** Deleting an id no profile has changes nothing. */
  lemma DeleteAbsent(ps: seq<Profile>, id: string)
    requires forall i :: 0 <= i < |ps| ==> ps[i].id != id
    ensures WithoutProfile(ps, id) == ps
  {
    FilterKeepsAll(ps, (p: Profile) => p.id != id);
  }

  /** Deleting a just-added profile by its fresh id undoes the add. */
  lemma DeleteUndoesAdd(ps: seq<Profile>, d: Draft, freshId: string)
    requires forall i :: 0 <= i < |ps| ==> ps[i].id != freshId
    ensures WithoutProfile(Appended(ps, d, freshId), freshId) == ps
  {
    var keep := (p: Profile) => p.id != freshId;
    FilterConcat(ps, [WithId(d, freshId)], keep);
    FilterKeepsAll(ps, keep);
    assert Filter([WithId(d, freshId)], keep) == [];
  }

  /** Saving an edit keeps length and order: each profile is the draft when ids match, else itself. */
  lemma SaveEditReplaces(ps: seq<Profile>, d: Draft)
    requires d.id.Some?
    ensures forall i :: 0 <= i < |ps| ==> Replaced(ps, d)[i].id == ps[i].id
    ensures forall i :: 0 <= i < |ps| && ps[i].id == d.id.value ==> Replaced(ps, d)[i] == WithId(d, d.id.value)
    ensures forall i :: 0 <= i < |ps| && ps[i].id != d.id.value ==> Replaced(ps, d)[i] == ps[i]
  {
  }

  /** Saving the same edit twice is saving it once. */
  lemma SaveEditIdempotent(ps: seq<Profile>, d: Draft)
    ensures Replaced(Replaced(ps, d), d) == Replaced(ps, d)
  {
  }

  /** Editing a profile and saving it unchanged gives back the list (for unique ids). */
  lemma SaveUnchangedEdit(ps: seq<Profile>, k: nat)
    requires k < |ps|
    requires forall i, j :: 0 <= i < j < |ps| ==> ps[i].id != ps[j].id
    ensures Replaced(ps, DraftOf(ps[k])) == ps
  {
    assert forall i :: 0 <= i < |ps| ==> Replaced(ps, DraftOf(ps[k]))[i] == ps[i];
  }

  /** Saving a draft without an id in edit mode matches no profile. */
  lemma SaveEditWithoutId(ps: seq<Profile>, d: Draft)
    requires d.id.None?
    ensures Replaced(ps, d) == ps
  {
  }

  /** The age typed as a number's decimal text is stored as that number. */
  lemma AgeOfNumberText(n: int)
    ensures AgeOf(IntToString(n)) == n
  {
    ParseIntOfIntToString(n);
  }

  /** An input changes its own field and no other. */
  lemma InputChangesOneField(d: Draft, input: Input)
    ensures var r := Applied(d, input);
      r.id == d.id &&
      (r.name != d.name ==> input.NameInput?) &&
      (r.age != d.age ==> input.AgeInput?) &&
      (r.gender != d.gender ==> input.GenderInput?) &&
      (r.activityLevel != d.activityLevel ==> input.ActivityInput?) &&
      (r.notes != d.notes ==> input.NotesInput?)
  {
  }

  // ---------------------------------------------------------------------
  // The component state

  class ProfileEditor {
    var profiles: seq<Profile>
    var isModalOpen: bool
    var editingProfile: Draft
    var isEditing: bool

    constructor (profiles: seq<Profile>)
      ensures this.profiles == profiles && !isModalOpen && editingProfile == EmptyDraft && !isEditing
    {
      this.profiles := profiles;
      isModalOpen := false;
      editingProfile := EmptyDraft;
      isEditing := false;
    }

    /** `handleAddProfile`: a blank form in add mode, shown. */
    method AddProfile()
      modifies this
      ensures editingProfile == EmptyDraft && !isEditing && isModalOpen && profiles == old(profiles)
    {
      editingProfile := EmptyDraft;
      isEditing := false;
      isModalOpen := true;
    }

    /** `handleEditProfile`: the chosen profile in the form, in edit mode, shown. */
    method EditProfile(p: Profile)
      modifies this
      ensures editingProfile == DraftOf(p) && isEditing && isModalOpen && profiles == old(profiles)
    {
      editingProfile := DraftOf(p);
      isEditing := true;
      isModalOpen := true;
    }

    /** `handleDeleteProfile`. */
    method DeleteProfile(id: string)
      modifies this
      ensures profiles == WithoutProfile(old(profiles), id)
      ensures isModalOpen == old(isModalOpen) && editingProfile == old(editingProfile) && isEditing == old(isEditing)
    {
      profiles := WithoutProfile(profiles, id);
    }

    /** `handleSaveProfile`: replace in edit mode, append under `freshId` in add mode; the modal closes. */
    method SaveProfile(freshId: string)
      modifies this
      ensures old(isEditing) ==> profiles == Replaced(old(profiles), old(editingProfile))
      ensures !old(isEditing) ==> profiles == Appended(old(profiles), old(editingProfile), freshId)
      ensures !isModalOpen && editingProfile == old(editingProfile) && isEditing == old(isEditing)
    {
      if isEditing {
        profiles := Replaced(profiles, editingProfile);
      } else {
        profiles := Appended(profiles, editingProfile, freshId);
      }
      isModalOpen := false;
    }

    /** `handleInputChange`. */
    method InputChange(input: Input)
      modifies this
      ensures editingProfile == Applied(old(editingProfile), input)
      ensures profiles == old(profiles) && isModalOpen == old(isModalOpen) && isEditing == old(isEditing)
    {
      editingProfile := Applied(editingProfile, input);
    }
  }
}
