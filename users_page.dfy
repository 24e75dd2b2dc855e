/**
 * The users page (src/pages/UsersPage.tsx): the colour of a user-type chip,
 * the edit form's prefill, and the add/edit dialog's state.
 */
module UsersPage {
  import opened Types

  /** A row of the users table, as the page reads it. */
  datatype UserListItem = UserListItem(id: int, first_name: string, last_name: string, email: string, userType: string)

  /** The add/edit form's values. */
  datatype FormValues = FormValues(firstName: string, lastName: string, email: string, password: string, userType: string)

  /** The form's initial values, which `resetForm` restores: empty, with user type "CLIENT". */
  const InitialForm := FormValues("", "", "", "", "CLIENT")

  /** `handleEdit`'s prefill: the user's names, email and type, and never a password. */
  function Prefill(u: UserListItem): (v: FormValues)
    ensures v.password == ""
    ensures v.firstName == u.first_name && v.lastName == u.last_name
    ensures v.email == u.email && v.userType == u.userType
  {
    FormValues(u.first_name, u.last_name, u.email, "", u.userType)
  }

  // ---------------------------------------------------------------------------
  // userType.toUpperCase()
  // ---------------------------------------------------------------------------

  /**
   * The upper-case form of one character, as far as it matters when the
   * result is compared with ASCII words: ASCII letters, and the characters
   * whose upper case is made of ASCII letters (ß, dotless ı, long ſ and the
   * Latin ligatures ﬀ–ﬆ). Every other character is kept, which is exact for
   * such a comparison: the upper case of any other character either has no
   * ASCII letter or also has a non-ASCII one (as ŉ, ǰ or ẖ do), so it can
   * never be part of an all-ASCII word.
   */
  function UpperChar(c: char): string {
    if 'a' <= c <= 'z' then [(c as int - 32) as char]
    else if c == '\U{00DF}' then "SS"
    else if c == '\U{0131}' then "I"
    else if c == '\U{017F}' then "S"
    else if c == '\U{FB00}' then "FF"
    else if c == '\U{FB01}' then "FI"
    else if c == '\U{FB02}' then "FL"
    else if c == '\U{FB03}' then "FFI"
    else if c == '\U{FB04}' then "FFL"
    else if c == '\U{FB05}' || c == '\U{FB06}' then "ST"
    else [c]
  }

  function Upper(s: string): (r: string)
    ensures |r| >= |s|
    ensures s == [] <==> r == []
  {
    if s == [] then [] else UpperChar(s[0]) + Upper(s[1..])
  }

  /** The ASCII upper case of a character. */
  function AsciiUpper(c: char): char {
    if 'a' <= c <= 'z' then (c as int - 32) as char else c
  }

  /** `s` spells `word` in some mix of ASCII upper and lower case. */
  predicate SpellsIgnoringCase(s: string, word: string) {
    |s| == |word| && forall i :: 0 <= i < |s| ==> AsciiUpper(s[i]) == word[i]
  }

  predicate IsUpperWord(word: string) {
    forall i :: 0 <= i < |word| ==> 'A' <= word[i] <= 'Z'
  }

  /** Any ASCII casing of an upper-case word upper-cases to that word. */
  lemma {:induction false} UpperOfCasing(s: string, word: string)
    requires IsUpperWord(word) && SpellsIgnoringCase(s, word)
    ensures Upper(s) == word
  {
    if s != [] {
      assert UpperChar(s[0]) == [word[0]];
      UpperOfCasing(s[1..], word[1..]);
      assert word == [word[0]] + word[1..];
    }
  }

  /** `getUserTypeColor`: the chip colour of a user type, compared after `toUpperCase()`. */
  function UserTypeColor(userType: string): (color: string)
    ensures color == "error" <==> Upper(userType) == "ADMIN"
    ensures color == "primary" <==> Upper(userType) == "CLIENT"
    ensures color == "secondary" <==> Upper(userType) == "STAFF"
    ensures color == "default" <==> Upper(userType) !in {"ADMIN", "CLIENT", "STAFF"}
  {
    var key := Upper(userType);
    if key == "ADMIN" then "error"
    else if key == "CLIENT" then "primary"
    else if key == "STAFF" then "secondary"
    else "default"
  }

  /** The colour of a user type ignores its ASCII casing. */
  lemma ColorIgnoresCase(s: string)
    ensures SpellsIgnoringCase(s, "ADMIN") ==> UserTypeColor(s) == "error"
    ensures SpellsIgnoringCase(s, "CLIENT") ==> UserTypeColor(s) == "primary"
    ensures SpellsIgnoringCase(s, "STAFF") ==> UserTypeColor(s) == "secondary"
  {
    if SpellsIgnoringCase(s, "ADMIN") { UpperOfCasing(s, "ADMIN"); }
    if SpellsIgnoringCase(s, "CLIENT") { UpperOfCasing(s, "CLIENT"); }
    if SpellsIgnoringCase(s, "STAFF") { UpperOfCasing(s, "STAFF"); }
  }

  /** `toUpperCase` also maps the dotless ı to I, so "admın" is an admin too; "manager" is not a known type. */
  lemma NonAsciiAndUnknownTypes()
    ensures UserTypeColor("adm\U{0131}n") == "error"
    ensures UserTypeColor("manager") == "default"
  {
    DotlessAdminUpper();
    assert |Upper("manager")| >= 7;
  }

  lemma DotlessAdminUpper()
    ensures Upper("adm\U{0131}n") == "ADMIN"
  {
    var admin := "adm\U{0131}n";
    assert Upper(admin[4..]) == "N";
    assert Upper(admin[3..]) == "I" + Upper(admin[4..]);
    assert Upper(admin[2..]) == "M" + Upper(admin[3..]);
    assert Upper(admin[1..]) == "D" + Upper(admin[2..]);
    assert Upper(admin) == "A" + Upper(admin[1..]);
  }

  // ---------------------------------------------------------------------------
  // The add/edit dialog
  // ---------------------------------------------------------------------------

  /** The service call a submit makes. */
  datatype Submission = Update(id: int, values: FormValues) | Create(values: FormValues)

  class UsersDialog {
    var dialogOpen: bool
    var editingUser: Option<UserListItem>
    var form: FormValues

    /** A user is only ever being edited inside an open dialog. */
    predicate Valid()
      reads this
    {
      editingUser.Some? ==> dialogOpen
    }

    constructor ()
      ensures !dialogOpen && editingUser == None && form == InitialForm
      ensures Valid()
    {
      dialogOpen, editingUser, form := false, None, InitialForm;
    }

    method HandleEdit(u: UserListItem)
      modifies this
      ensures dialogOpen && editingUser == Some(u) && form == Prefill(u)
      ensures Valid()
    {
      editingUser := Some(u);
      form := FormValues(u.first_name, u.last_name, u.email, "", u.userType);
      dialogOpen := true;
    }

    method HandleAdd()
      modifies this
      ensures dialogOpen && editingUser == None && form == InitialForm
      ensures Valid()
    {
      editingUser := None;
      form := InitialForm;
      dialogOpen := true;
    }

    method HandleCloseDialog()
      modifies this
      ensures !dialogOpen && editingUser == None && form == InitialForm
      ensures Valid()
    {
      dialogOpen := false;
      editingUser := None;
      form := InitialForm;
    }

    /**
     * `onSubmit(values)`, with the service call's outcome given as `outcome`:
     * an update of the user being edited, else a create. Success closes and
     * resets the dialog; failure changes nothing. `values` is the form as
     * the user left it after editing, which the model does not track. An
     * update is only ever submitted from an open dialog, which `Valid` keeps.
     */
    method OnSubmit(values: FormValues, outcome: Outcome<Thrown>) returns (call: Submission)
      requires Valid()
      modifies this
      ensures Valid()
      ensures call == (if old(editingUser).Some? then Update(old(editingUser).value.id, values) else Create(values))
      ensures call.Update? ==> old(dialogOpen)
      ensures outcome.Pass? ==> !dialogOpen && editingUser == None && form == InitialForm
      ensures outcome.Fail? ==> dialogOpen == old(dialogOpen) && editingUser == old(editingUser) && form == old(form)
    {
      if editingUser.Some? {
        call := Update(editingUser.value.id, values);
      } else {
        call := Create(values);
      }
      if outcome.Pass? {
        dialogOpen := false;
        editingUser := None;
        form := InitialForm;
      }
    }
  }
}
