/**
 * The registration page: a three-field form, its validator, and the
 * state cells that gate and reset a submission.
 */
module Registration {

  import opened Wrappers
  import opened Utf16

  // ------------------------------------------------------------ whitespace

  /** The characters that JavaScript's `String.prototype.trim` removes and that `\s` matches in a pattern. */
  predicate IsSpace(c: char) {
    c == '\t' || c == '\n' || c == '\U{000B}' || c == '\U{000C}' || c == '\r' || c == ' '
    || c == '\U{00A0}' || c == '\U{1680}' || ('\U{2000}' <= c <= '\U{200A}')
    || c == '\U{2028}' || c == '\U{2029}' || c == '\U{202F}' || c == '\U{205F}'
    || c == '\U{3000}' || c == '\U{FEFF}'
  }

  predicate AllSpace(s: string) {
    forall k :: 0 <= k < |s| ==> IsSpace(s[k])
  }

  /** The index of the first non-space at or after `i`, or `|s|` when there is none. */
  function FirstKept(s: string, i: nat): (r: nat)
    requires i <= |s|
    ensures i <= r <= |s|
    ensures forall k :: i <= k < r ==> IsSpace(s[k])
    ensures r < |s| ==> !IsSpace(s[r])
    decreases |s| - i
  {
    if i < |s| && IsSpace(s[i]) then FirstKept(s, i + 1) else i
  }

  /** One past the last non-space in `s[lo..m]`, or `lo` when there is none. */
  function LastKept(s: string, lo: nat, m: nat): (r: nat)
    requires lo <= m <= |s|
    ensures lo <= r <= m
    ensures forall k :: r <= k < m ==> IsSpace(s[k])
    ensures r > lo ==> !IsSpace(s[r - 1])
    decreases m
  {
    if m > lo && IsSpace(s[m - 1]) then LastKept(s, lo, m - 1) else m
  }

  /** `String.prototype.trim`: the slice between the leading and the trailing whitespace. */
  function Trim(s: string): string {
    var lo := FirstKept(s, 0);
    s[lo..LastKept(s, lo, |s|)]
  }

  /** Trimming leaves nothing exactly when the string is all whitespace. */
  lemma TrimEmpty(s: string)
    ensures |Trim(s)| == 0 <==> AllSpace(s)
  {
    var lo := FirstKept(s, 0);
    var hi := LastKept(s, lo, |s|);
    assert |Trim(s)| == hi - lo;
    if hi == lo {
      forall k | 0 <= k < |s| ensures IsSpace(s[k]) {
        if k < lo {} else {}
      }
    } else {
      assert !IsSpace(s[hi - 1]);
    }
  }

  /** Trimming keeps at least two characters exactly when the string holds two non-space characters. */
  lemma TrimKeepsTwo(s: string)
    ensures |Trim(s)| >= 2 <==> exists i, j :: 0 <= i < j < |s| && !IsSpace(s[i]) && !IsSpace(s[j])
  {
    var lo := FirstKept(s, 0);
    var hi := LastKept(s, lo, |s|);
    assert |Trim(s)| == hi - lo;
    if hi - lo >= 2 {
      assert !IsSpace(s[lo]) && !IsSpace(s[hi - 1]);
    } else {
      forall i, j | 0 <= i < j < |s| && !IsSpace(s[i])
        ensures IsSpace(s[j])
      {
        assert lo <= i;
      }
    }
  }

  /**
   * The trimmed length (in code units) is at least 2 exactly when two
   * characters are not whitespace, or one of them is an astral character.
   */
  lemma TrimAtLeastTwo(s: string)
    ensures Length(Trim(s)) >= 2 <==>
      (exists i, j :: 0 <= i < j < |s| && !IsSpace(s[i]) && !IsSpace(s[j]))
      || (exists i :: 0 <= i < |s| && !IsSpace(s[i]) && Astral(s[i]))
  {
    var lo := FirstKept(s, 0);
    var hi := LastKept(s, lo, |s|);
    var t := Trim(s);
    assert t == s[lo..hi];
    TrimKeepsTwo(s);
    if hi - lo >= 2 {
    } else if hi - lo == 1 {
      assert t[0] == s[lo];
      assert Length(t) == Units(s[lo]) + Length(t[1..]);
      forall i | 0 <= i < |s| && !IsSpace(s[i]) ensures i == lo {
        assert lo <= i < hi;
      }
    } else {
      forall i | 0 <= i < |s| ensures IsSpace(s[i]) {
        if i < lo {} else {}
      }
    }
  }

  // ------------------------------------------------------------ the email pattern

  /** A character that `[^\s@]` accepts. */
  predicate Plain(c: char) {
    !IsSpace(c) && c != '@'
  }

  /** A non-empty run of `[^\s@]`. */
  predicate Segment(t: string) {
    |t| > 0 && forall k :: 0 <= k < |t| ==> Plain(t[k])
  }

  /** `s` splits as `local @ domain . top` at the `@` at index i and the `.` at index j, each part a `[^\s@]+` run. */
  predicate EmailSplit(s: string, i: nat, j: nat) {
    i < j < |s| && s[i] == '@' && s[j] == '.'
    && Segment(s[..i]) && Segment(s[i + 1..j]) && Segment(s[j + 1..])
  }

  /** The whole string matches `^[^\s@]+@[^\s@]+\.[^\s@]+$`. */
  predicate EmailPattern(s: string) {
    exists i: nat, j: nat | i < j < |s| :: EmailSplit(s, i, j)
  }

  /** A matching address holds no whitespace at all, so leading and trailing spaces make it fail, and it holds exactly one `@`. */
  lemma EmailPatternShape(s: string)
    requires EmailPattern(s)
    ensures forall k :: 0 <= k < |s| ==> !IsSpace(s[k])
    ensures exists i :: 0 < i < |s| - 1 && s[i] == '@' && forall k :: 0 <= k < |s| && k != i ==> s[k] != '@'
  {
    var i: nat, j: nat :| i < j < |s| && EmailSplit(s, i, j);
    assert Segment(s[..i]) && Segment(s[i + 1..j]) && Segment(s[j + 1..]);
    forall k | 0 <= k < |s| && k != i ensures Plain(s[k]) {
      if k < i {
        assert s[k] == s[..i][k];
      } else if k < j {
        assert s[k] == s[i + 1..j][k - i - 1];
      } else if k > j {
        assert s[k] == s[j + 1..][k - j - 1];
      }
    }
  }

  /** Any three `[^\s@]+` runs joined by `@` and `.` match. */
  lemma EmailPatternJoin(local: string, domain: string, top: string)
    requires Segment(local) && Segment(domain) && Segment(top)
    ensures EmailPattern(local + "@" + domain + "." + top)
  {
    var s := local + "@" + domain + "." + top;
    var i, j := |local|, |local| + 1 + |domain|;
    assert s[..i] == local;
    assert s[i + 1..j] == domain;
    assert s[j + 1..] == top;
    assert EmailSplit(s, i, j);
  }

  // ------------------------------------------------------------ the form

  datatype Field = Name | Email | Password

  datatype Form = Form(name: string, email: string, password: string) {
    function Get(f: Field): string {
      match f
      case Name => name
      case Email => email
      case Password => password
    }

    /** The form with field `f` replaced by `v`. */
    function Set(f: Field, v: string): (r: Form)
      ensures r.Get(f) == v
      ensures forall g :: g != f ==> r.Get(g) == Get(g)
    {
      match f
      case Name => this.(name := v)
      case Email => this.(email := v)
      case Password => this.(password := v)
    }
  }

  const EmptyForm := Form("", "", "")

  const NameRequired := "Name is required"
  const NameTooShort := "Name must be at least 2 characters"
  const EmailRequired := "Email is required"
  const EmailInvalid := "Please enter a valid email address"
  const PasswordRequired := "Password is required"
  const PasswordTooShort := "Password must be at least 8 characters"

  /** The name rule, on the trimmed name. */
  function NameError(name: string): Option<string> {
    if |Trim(name)| == 0 then Some(NameRequired)
    else if Length(Trim(name)) < 2 then Some(NameTooShort)
    else None
  }

  /** The email rule: emptiness on the trimmed email, the pattern on the email as typed. */
  function EmailError(email: string): Option<string> {
    if |Trim(email)| == 0 then Some(EmailRequired)
    else if !EmailPattern(email) then Some(EmailInvalid)
    else None
  }

  /** The password rule, on the password as typed. */
  function PasswordError(password: string): Option<string> {
    if |password| == 0 then Some(PasswordRequired)
    else if Length(password) < 8 then Some(PasswordTooShort)
    else None
  }

  function FieldError(f: Field, v: string): Option<string> {
    match f
    case Name => NameError(v)
    case Email => EmailError(v)
    case Password => PasswordError(v)
  }

  /** The error map that `validate` builds: one entry per field that breaks its rule. */
  function Errors(form: Form): map<Field, string> {
    var n := FieldError(Name, form.Get(Name));
    var m := FieldError(Email, form.Get(Email));
    var p := FieldError(Password, form.Get(Password));
    var e1: map<Field, string> := if n.Some? then map[Name := n.value] else map[];
    var e2 := if m.Some? then e1[Email := m.value] else e1;
    if p.Some? then e2[Password := p.value] else e2
  }

  /** Field `f` has an entry exactly when it breaks its rule, and the entry is that rule's message. */
  lemma ErrorsEntries(form: Form, f: Field)
    ensures f in Errors(form) <==> FieldError(f, form.Get(f)).Some?
    ensures f in Errors(form) ==> Errors(form)[f] == FieldError(f, form.Get(f)).value
  {
    var n := FieldError(Name, form.Get(Name));
    var m := FieldError(Email, form.Get(Email));
    var p := FieldError(Password, form.Get(Password));
    match f
    case Name =>
    case Email =>
    case Password =>
  }

  /** What `validate` returns. */
  predicate IsValid(form: Form) {
    |Errors(form)| == 0
  }

  /** The name error, stated on the characters typed. */
  lemma NameRule(name: string)
    ensures NameError(name) == Some(NameRequired) <==> AllSpace(name)
    ensures NameError(name) == None <==>
      (exists i, j :: 0 <= i < j < |name| && !IsSpace(name[i]) && !IsSpace(name[j]))
      || (exists i :: 0 <= i < |name| && !IsSpace(name[i]) && Astral(name[i]))
  {
    TrimEmpty(name);
    TrimAtLeastTwo(name);
  }

  /** An email with a leading or trailing space is rejected, but not as missing unless it is all space. */
  lemma EmailPadded(email: string)
    requires |email| > 0 && (IsSpace(email[0]) || IsSpace(email[|email| - 1]))
    ensures EmailError(email).Some?
    ensures EmailError(email) == Some(EmailRequired) <==> AllSpace(email)
  {
    TrimEmpty(email);
    if EmailPattern(email) {
      EmailPatternShape(email);
    }
  }

  /** The password rule reads the password untrimmed: eight spaces pass. */
  lemma PasswordUntrimmed()
    ensures PasswordError("        ") == None
    ensures NameError("        ") == Some(NameRequired)
  {
    TrimEmpty("        ");
  }

  /** Lengths are code units: one emoji is a long enough name, and four make a long enough password. */
  lemma AstralLengths()
    ensures NameError("\U{1F600}") == None
    ensures PasswordError("\U{1F600}\U{1F600}\U{1F600}\U{1F600}") == None
    ensures PasswordError("\U{1F600}\U{1F600}\U{1F600}") == Some(PasswordTooShort)
  {
    NameRule("\U{1F600}");
    assert !IsSpace("\U{1F600}"[0]) && Astral("\U{1F600}"[0]);
  }

  /** `validate` succeeds exactly when no field breaks its rule. */
  lemma ValidIff(form: Form)
    ensures IsValid(form) <==> NameError(form.name).None? && EmailError(form.email).None? && PasswordError(form.password).None?
  {
    var e := Errors(form);
    if !IsValid(form) {
      var f :| f in e;
      assert FieldError(f, form.Get(f)).Some?;
    } else {
      assert e.Keys == {};
      assert Name !in e && Email !in e && Password !in e;
    }
  }

  /** A field's entry in the error map is decided by that field alone: editing another field leaves it as it was. */
  lemma ErrorsFieldwise(form: Form, g: Field, v: string)
    ensures forall f :: f != g ==> (f in Errors(form.Set(g, v)) <==> f in Errors(form))
    ensures forall f :: f != g && f in Errors(form) ==> Errors(form.Set(g, v))[f] == Errors(form)[f]
  {
    forall f | f != g
      ensures f in Errors(form.Set(g, v)) <==> f in Errors(form)
      ensures f in Errors(form) ==> Errors(form.Set(g, v))[f] == Errors(form)[f]
    {
      ErrorsEntries(form, f);
      ErrorsEntries(form.Set(g, v), f);
    }
  }

  /** A complete example: a well-formed entry validates. */
  lemma ValidExample()
    ensures IsValid(Form("Jo", "a@b.c", "12345678"))
  {
    TrimAtLeastTwo("Jo");
    assert !IsSpace('J') && !IsSpace('o');
    assert "a@b.c" == "a" + "@" + "b" + "." + "c";
    EmailPatternJoin("a", "b", "c");
    ValidIff(Form("Jo", "a@b.c", "12345678"));
  }

  // ------------------------------------------------------------ the page

  class RegisterPage {
    var form: Form
    var errors: map<Field, string>
    var isSubmitting: bool
    var showSuccess: bool
    /** Submissions whose simulated request has not resolved yet. */
    var pendingRequests: nat
    /** Form resets scheduled after a success that have not fired yet. */
    var pendingResets: nat

    /** A submission is in flight while the button says so, and a success message always has a reset coming. */
    ghost predicate Valid()
      reads this
    {
      (isSubmitting ==> pendingRequests > 0) && (showSuccess ==> pendingResets > 0)
    }

    /** An error line is rendered for `f` when its entry is present and not the empty string. */
    predicate ErrorShown(f: Field)
      reads this
    {
      f in errors && errors[f] != ""
    }

    /** The inputs and the submit button are disabled while a submission is in flight. */
    predicate Disabled()
      reads this
    {
      isSubmitting
    }

    constructor ()
      ensures Valid()
      ensures form == EmptyForm && errors == map[] && !isSubmitting && !showSuccess
      ensures pendingRequests == 0 && pendingResets == 0
    {
      form := EmptyForm;
      errors := map[];
      isSubmitting := false;
      showSuccess := false;
      pendingRequests := 0;
      pendingResets := 0;
    }

    /** Typing into field `f`: replaces that field, and blanks its error entry only when one is shown. */
    method Change(f: Field, value: string)
      requires Valid()
      modifies this
      ensures Valid()
      ensures form == old(form).Set(f, value)
      ensures errors == if old(ErrorShown(f)) then old(errors)[f := ""] else old(errors)
      ensures !ErrorShown(f)
      ensures forall g :: g != f ==> (g in errors <==> g in old(errors)) && (g in errors ==> errors[g] == old(errors)[g])
      ensures isSubmitting == old(isSubmitting) && showSuccess == old(showSuccess)
      ensures pendingRequests == old(pendingRequests) && pendingResets == old(pendingResets)
    {
      form := form.Set(f, value);
      if ErrorShown(f) {
        errors := errors[f := ""];
      }
    }

    /** Submitting: the errors are replaced by `validate`'s map, and only a valid form starts a request. */
    method Submit() returns (accepted: bool)
      requires Valid()
      modifies this
      ensures Valid()
      ensures accepted == IsValid(old(form))
      ensures errors == Errors(old(form)) && form == old(form)
      ensures accepted ==> isSubmitting && pendingRequests == old(pendingRequests) + 1
      ensures !accepted ==> isSubmitting == old(isSubmitting) && pendingRequests == old(pendingRequests)
      ensures showSuccess == old(showSuccess) && pendingResets == old(pendingResets)
    {
      errors := Errors(form);
      accepted := |errors| == 0;
      if accepted {
        isSubmitting := true;
        pendingRequests := pendingRequests + 1;
      }
    }

    /** A simulated request resolves: the success message shows, a reset is scheduled, and `finally` clears the flag. */
    method RequestResolves()
      requires Valid() && pendingRequests > 0
      modifies this
      ensures Valid()
      ensures showSuccess && !isSubmitting
      ensures pendingRequests == old(pendingRequests) - 1 && pendingResets == old(pendingResets) + 1
      ensures form == old(form) && errors == old(errors)
    {
      showSuccess := true;
      pendingResets := pendingResets + 1;
      isSubmitting := false;
      pendingRequests := pendingRequests - 1;
    }

    /** The reset timer fires: all three fields become empty and the success message goes away. */
    method ResetFires()
      requires Valid() && pendingResets > 0
      modifies this
      ensures Valid()
      ensures form == EmptyForm && !showSuccess
      ensures pendingResets == old(pendingResets) - 1
      ensures errors == old(errors) && isSubmitting == old(isSubmitting) && pendingRequests == old(pendingRequests)
    {
      form := EmptyForm;
      showSuccess := false;
      pendingResets := pendingResets - 1;
    }
  }
}
