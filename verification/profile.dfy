/** The profile page's account editor: a form initialised from the user,
    an avatar preview, and the save that writes the form back, parsing the
    comma-separated specialisations. */
module Profile {
  import opened Types
  import opened Text

  // ---------------------------------------------------------------------
  // Specialisations as text
  // ---------------------------------------------------------------------

  /** Each piece trimmed, and the pieces that trim to "" dropped
      (`.map(s => s.trim()).filter(Boolean)`). */
  function CleanPieces(pieces: seq<string>): (r: seq<string>)
    ensures |r| <= |pieces|
    ensures forall k :: 0 <= k < |r| ==> r[k] != "" && IsTrimmed(r[k])
  {
    if pieces == [] then []
    else
      var t := Trim(pieces[0]);
      if t == "" then CleanPieces(pieces[1..]) else [t] + CleanPieces(pieces[1..])
  }

  /** Cleaning comma-free pieces leaves comma-free entries. */
  lemma {:induction false} CleanPiecesCommaFree(pieces: seq<string>)
    requires forall k :: 0 <= k < |pieces| ==> ',' !in pieces[k]
    ensures forall k :: 0 <= k < |CleanPieces(pieces)| ==> ',' !in CleanPieces(pieces)[k]
  {
    if pieces != [] {
      var rest := pieces[1..];
      assert forall k :: 0 <= k < |rest| ==> rest[k] == pieces[k + 1];
      CleanPiecesCommaFree(rest);
      var t := Trim(pieces[0]);
      TrimKeepsOut(pieces[0], ',');
      var tail := CleanPieces(rest);
      if t != "" {
        assert CleanPieces(pieces) == [t] + tail;
        forall k | 0 <= k < |[t] + tail| ensures ',' !in ([t] + tail)[k] {
          if k > 0 { assert ([t] + tail)[k] == tail[k - 1]; }
        }
      }
    }
  }

  /** Trimming adds no character: one absent before is absent after. */
  lemma TrimKeepsOut(s: string, c: char)
    ensures c !in s ==> c !in Trim(s)
  {
    var t := Trim(s);
    var i :| CutAt(s, t, i);
    forall k | 0 <= k < |t| ensures t[k] == s[i + k] {
      assert t[k] == s[i..i + |t|][k];
    }
  }

  /** A usable specialisation: non-empty, no white space at its ends, no comma. */
  predicate WellFormedSpecialization(s: string) {
    s != "" && IsTrimmed(s) && ',' !in s
  }

  /** The list saved from the specialisations field: every entry is
      non-empty, trimmed and free of commas. */
  function ParseSpecializations(text: string): (r: seq<string>)
    ensures forall k :: 0 <= k < |r| ==> WellFormedSpecialization(r[k])
  {
    CleanPiecesCommaFree(Split(text, ','));
    CleanPieces(Split(text, ','))
  }

  /** Each entry with a blank in front: the pieces after a `", "` separator. */
  function Spaced(xs: seq<string>): (r: seq<string>)
    ensures |r| == |xs|
  {
    if xs == [] then [] else [" " + xs[0]] + Spaced(xs[1..])
  }

  /** Splitting a blank followed by the joined list gives the spaced entries. */
  lemma {:induction false} SplitSpacedJoin(specs: seq<string>)
    requires |specs| >= 1
    requires forall k :: 0 <= k < |specs| ==> ',' !in specs[k]
    ensures Split(" " + Join(specs, ", "), ',') == Spaced(specs)
  {
    var head := " " + specs[0];
    assert ',' !in head by {
      forall k | 0 <= k < |head| ensures head[k] != ',' {
        if k > 0 { assert head[k] == specs[0][k - 1]; }
      }
    }
    if |specs| == 1 {
      SplitNoSeparator(head, ',');
    } else {
      var rest := specs[1..];
      assert forall k :: 0 <= k < |rest| ==> rest[k] == specs[k + 1];
      SplitSpacedJoin(rest);
      assert " " + Join(specs, ", ") == head + [','] + (" " + Join(rest, ", "));
      SplitCons(head, " " + Join(rest, ", "), ',');
    }
  }

  /** Splitting the joined list gives the first entry and the spaced rest. */
  lemma {:induction false} SplitJoin(specs: seq<string>)
    requires |specs| >= 1
    requires forall k :: 0 <= k < |specs| ==> ',' !in specs[k]
    ensures Split(Join(specs, ", "), ',') == [specs[0]] + Spaced(specs[1..])
  {
    if |specs| == 1 {
      SplitNoSeparator(specs[0], ',');
    } else {
      var rest := specs[1..];
      assert forall k :: 0 <= k < |rest| ==> rest[k] == specs[k + 1];
      SplitSpacedJoin(rest);
      assert Join(specs, ", ") == specs[0] + [','] + (" " + Join(rest, ", "));
      SplitCons(specs[0], " " + Join(rest, ", "), ',');
    }
  }

  /** Trimming spaced entries gives the entries back. */
  lemma {:induction false} CleanSpaced(xs: seq<string>)
    requires forall k :: 0 <= k < |xs| ==> xs[k] != "" && IsTrimmed(xs[k])
    ensures CleanPieces(Spaced(xs)) == xs
  {
    if xs != [] {
      var spaced := Spaced(xs);
      assert spaced[0] == " " + xs[0] && spaced[1..] == Spaced(xs[1..]);
      TrimLeadingSpace(xs[0]);
      assert forall k :: 0 <= k < |xs[1..]| ==> xs[1..][k] == xs[k + 1];
      CleanSpaced(xs[1..]);
      assert CleanPieces(spaced) == [xs[0]] + CleanPieces(spaced[1..]);
      assert xs == [xs[0]] + xs[1..];
    }
  }

  /** Saving the form as it was filled in gives back the same list, when
      every entry is non-empty, trimmed and free of commas. */
  lemma {:induction false} ParseJoinRoundTrip(specs: seq<string>)
    requires forall k :: 0 <= k < |specs| ==> WellFormedSpecialization(specs[k])
    ensures ParseSpecializations(Join(specs, ", ")) == specs
  {
    if specs == [] {
      assert Split("", ',') == [""];
    } else {
      SplitJoin(specs);
      CleanJoinedPieces(specs);
    }
  }

  /** Cleaning the pieces of a joined list gives the list back. */
  lemma CleanJoinedPieces(specs: seq<string>)
    requires |specs| >= 1
    requires forall k :: 0 <= k < |specs| ==> WellFormedSpecialization(specs[k])
    ensures CleanPieces([specs[0]] + Spaced(specs[1..])) == specs
  {
    var pieces := [specs[0]] + Spaced(specs[1..]);
    TrimTrimmed(specs[0]);
    assert pieces[1..] == Spaced(specs[1..]);
    assert forall k :: 0 <= k < |specs[1..]| ==> specs[1..][k] == specs[k + 1];
    CleanSpaced(specs[1..]);
    assert specs == [specs[0]] + specs[1..];
  }

  /** Saving, reopening the form and saving again gives the same list. */
  lemma ParseIdempotent(text: string)
    ensures ParseSpecializations(Join(ParseSpecializations(text), ", ")) == ParseSpecializations(text)
  {
    ParseJoinRoundTrip(ParseSpecializations(text));
  }

  // ---------------------------------------------------------------------
  // The form and the save
  // ---------------------------------------------------------------------

  datatype ProfileForm = ProfileForm(
    firstName: string,
    lastName: string,
    email: string,
    bio: string,
    specializations: string)

  /** The form starts from the user: a missing bio shows as "", the
      specialisations joined by ", ". */
  function InitialForm(u: User): (f: ProfileForm)
    ensures f.firstName == u.firstName && f.lastName == u.lastName && f.email == u.email
    ensures u.bio.None? ==> f.bio == ""
    ensures u.bio.Some? ==> f.bio == u.bio.value
    ensures f.specializations == Join(u.specializations, ", ")
  {
    ProfileForm(u.firstName, u.lastName, u.email,
                if u.bio.Some? then u.bio.value else "",
                Join(u.specializations, ", "))
  }

  datatype Field = FirstNameField | LastNameField | EmailField | BioField | SpecializationsField

  /** `setFormData({...formData, <field>: value})`: that field set, the others kept. */
  function WithField(f: ProfileForm, field: Field, value: string): (r: ProfileForm)
    ensures field == FirstNameField ==> r == f.(firstName := value)
    ensures field == LastNameField ==> r == f.(lastName := value)
    ensures field == EmailField ==> r == f.(email := value)
    ensures field == BioField ==> r == f.(bio := value)
    ensures field == SpecializationsField ==> r == f.(specializations := value)
  {
    match field
    case FirstNameField => f.(firstName := value)
    case LastNameField => f.(lastName := value)
    case EmailField => f.(email := value)
    case BioField => f.(bio := value)
    case SpecializationsField => f.(specializations := value)
  }

  /** `avatarPreview || prev.avatarUrl`: the preview when there is a
      non-empty one, the current picture otherwise. */
  function ChosenAvatar(preview: Option<string>, current: string): (r: string)
    ensures preview.Some? && preview.value != "" ==> r == preview.value
    ensures preview.None? || preview.value == "" ==> r == current
  {
    if preview.Some? && preview.value != "" then preview.value else current
  }

  /** The user after a save: names, email and bio from the form, the
      parsed specialisations, the chosen avatar; id, level, XP, status and
      team unchanged. */
  function SavedUser(prev: User, f: ProfileForm, preview: Option<string>): (u: User)
    ensures u.firstName == f.firstName && u.lastName == f.lastName && u.email == f.email
    ensures u.bio == Some(f.bio)
    ensures u.specializations == ParseSpecializations(f.specializations)
    ensures u.avatarUrl == ChosenAvatar(preview, prev.avatarUrl)
    ensures u.id == prev.id && u.level == prev.level && u.xp == prev.xp
    ensures u.status == prev.status && u.teamId == prev.teamId
  {
    prev.(firstName := f.firstName, lastName := f.lastName, email := f.email, bio := Some(f.bio),
          specializations := ParseSpecializations(f.specializations),
          avatarUrl := ChosenAvatar(preview, prev.avatarUrl))
  }

  /** Saving the untouched form without a new picture changes nothing but
      a missing bio, which becomes the empty one, provided the
      specialisations are well formed. */
  lemma SaveUnchangedForm(u: User)
    requires forall k :: 0 <= k < |u.specializations| ==> WellFormedSpecialization(u.specializations[k])
    ensures SavedUser(u, InitialForm(u), None) == u.(bio := Some(if u.bio.Some? then u.bio.value else ""))
  {
    ParseJoinRoundTrip(u.specializations);
  }

  /** The editor's state: the shown user, the editing flag, the picture
      preview and the form. */
  class ProfileEditor {
    var user: User
    var isEditing: bool
    var avatarPreview: Option<string>
    var form: ProfileForm

    constructor (u: User)
      ensures user == u && !isEditing && avatarPreview.None? && form == InitialForm(u)
    {
      user := u;
      isEditing := false;
      avatarPreview := None;
      form := InitialForm(u);
    }

    method StartEditing()
      modifies this`isEditing
      ensures isEditing
    {
      isEditing := true;
    }

    /** Typing into one field of the form. */
    method Edit(field: Field, value: string)
      modifies this`form
      ensures form == WithField(old(form), field, value)
    {
      form := WithField(form, field, value);
    }

    /** Choosing a picture: when a file was chosen its data URL becomes the
        preview; otherwise nothing changes. */
    method ChangeAvatar(file: Option<string>)
      modifies this`avatarPreview
      ensures file.Some? ==> avatarPreview == file
      ensures file.None? ==> avatarPreview == old(avatarPreview)
    {
      if file.Some? {
        avatarPreview := file;
      }
    }

    /** The remove button drops the preview. */
    method RemovePreview()
      modifies this`avatarPreview
      ensures avatarPreview.None?
    {
      avatarPreview := None;
    }

    /** Cancel leaves editing and drops the preview; the user is untouched
        and the form keeps what was typed. */
    method Cancel()
      modifies this`isEditing, this`avatarPreview
      ensures !isEditing && avatarPreview.None?
    {
      isEditing := false;
      avatarPreview := None;
    }

    /** `handleSave`: the form is written into the user, editing ends and
        the preview is dropped. */
    method Save()
      modifies this`user, this`isEditing, this`avatarPreview
      ensures user == SavedUser(old(user), old(form), old(avatarPreview))
      ensures !isEditing && avatarPreview.None?
    {
      var saved := SavedUser(user, form, avatarPreview);
      Commit(saved);
    }

    /** The three state updates of a save: the new user, editing off, no preview. */
    method Commit(u: User)
      modifies this`user, this`isEditing, this`avatarPreview
      ensures user == u && !isEditing && avatarPreview.None?
    {
      user := u;
      isEditing := false;
      avatarPreview := None;
    }
  }
}
