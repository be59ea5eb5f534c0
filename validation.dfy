/** The client-side validators and classifiers of frontend/js/main.js: password strength,
    the e-mail and phone patterns, required fields, whole-form validation and the colour of
    the description's character counter. */
module Validation {
  import opened Wrappers
  import opened Text

  // ---------------------------------------------------------------------------------------
  // Password strength
  // ---------------------------------------------------------------------------------------

  /** The object `{class, message}` that `checkPasswordStrength` returns. */
  datatype Strength = Strength(cls: string, message: string)

  datatype Level = Weak | Medium | Strong

  function Rank(level: Level): nat
  {
    match level
    case Weak => 0
    case Medium => 1
    case Strong => 2
  }

  /** What is shown for an empty password. */
  const NoPassword := Strength("", "Enter password")

  function Describe(level: Level): Strength
  {
    match level
    case Weak => Strength("weak", "Weak password")
    case Medium => Strength("medium", "Medium password")
    case Strong => Strength("strong", "Strong password")
  }

  predicate IsAsciiAlnum(c: char)
  {
    IsAsciiLower(c) || IsAsciiUpper(c) || IsAsciiDigit(c)
  }

  /** `/[a-z]/.test(s)` */
  predicate HasLower(s: string) { exists i :: 0 <= i < |s| && IsAsciiLower(s[i]) }
  /** `/[A-Z]/.test(s)` */
  predicate HasUpper(s: string) { exists i :: 0 <= i < |s| && IsAsciiUpper(s[i]) }
  /** `/[0-9]/.test(s)` */
  predicate HasDigit(s: string) { exists i :: 0 <= i < |s| && IsAsciiDigit(s[i]) }
  /** `/[^a-zA-Z0-9]/.test(s)` */
  predicate HasOther(s: string) { exists i :: 0 <= i < |s| && !IsAsciiAlnum(s[i]) }

  function Point(b: bool): nat { if b then 1 else 0 }

  /** The number of satisfied conditions among: at least 8 code units, at least 12 code
      units, a lower-case letter, an upper-case letter, a digit, any other character. */
  function Score(password: string): (n: nat)
    ensures n <= 6
  {
    var len := Utf16Length(password);
    Point(len >= 8) + Point(len >= 12) +
    Point(HasLower(password)) + Point(HasUpper(password)) +
    Point(HasDigit(password)) + Point(HasOther(password))
  }

  /** The score bands: at most 2 is weak, 3 or 4 is medium, 5 or 6 is strong. */
  function LevelOf(score: nat): Level
  {
    if score <= 2 then Weak else if score <= 4 then Medium else Strong
  }

  /** What `checkPasswordStrength` returns for `password`. */
  function StrengthOf(password: string): Strength
  {
    if password == [] then NoPassword else Describe(LevelOf(Score(password)))
  }

  /** `checkPasswordStrength(password)`: counts the satisfied conditions one by one and
      classifies the count. */
  method CheckPasswordStrength(password: string) returns (r: Strength)
    ensures r == StrengthOf(password)
  {
    var score := 0;
    if password == [] {
      return NoPassword;
    }
    var len := Utf16Length(password);
    if len >= 8 { score := score + 1; }
    if len >= 12 { score := score + 1; }
    if HasLower(password) { score := score + 1; }
    if HasUpper(password) { score := score + 1; }
    if HasDigit(password) { score := score + 1; }
    if HasOther(password) { score := score + 1; }
    if score <= 2 {
      r := Strength("weak", "Weak password");
    } else if score <= 4 {
      r := Strength("medium", "Medium password");
    } else {
      r := Strength("strong", "Strong password");
    }
  }

  /** An empty password gets the empty class and the prompt; any other gets exactly one of
      the three levels, chosen by the score band. */
  lemma StrengthCases(password: string)
    ensures password == [] <==> StrengthOf(password) == NoPassword
    ensures password != [] ==>
      (StrengthOf(password).cls == "weak" <==> Score(password) <= 2) &&
      (StrengthOf(password).cls == "medium" <==> 3 <= Score(password) <= 4) &&
      (StrengthOf(password).cls == "strong" <==> 5 <= Score(password)) &&
      StrengthOf(password) in {Describe(Weak), Describe(Medium), Describe(Strong)}
  {
  }

  /** Every condition of the score survives appending a character. */
  lemma {:induction false} ScoreAppendMonotone(password: string, c: char)
    ensures Score(password) <= Score(password + [c])
  {
    var longer := password + [c];
    Utf16LengthAppend(password, c);
    if HasLower(password) {
      var i :| 0 <= i < |password| && IsAsciiLower(password[i]);
      assert longer[i] == password[i];
    }
    if HasUpper(password) {
      var i :| 0 <= i < |password| && IsAsciiUpper(password[i]);
      assert longer[i] == password[i];
    }
    if HasDigit(password) {
      var i :| 0 <= i < |password| && IsAsciiDigit(password[i]);
      assert longer[i] == password[i];
    }
    if HasOther(password) {
      var i :| 0 <= i < |password| && !IsAsciiAlnum(password[i]);
      assert longer[i] == password[i];
    }
  }

  /** Appending a character to a non-empty password never lowers its strength level. */
  lemma StrengthMonotone(password: string, c: char)
    requires password != []
    ensures StrengthOf(password) == Describe(LevelOf(Score(password)))
    ensures StrengthOf(password + [c]) == Describe(LevelOf(Score(password + [c])))
    ensures Rank(LevelOf(Score(password))) <= Rank(LevelOf(Score(password + [c])))
  {
    ScoreAppendMonotone(password, c);
  }

  /** The three sample passwords: weak, medium and strong. */
  lemma StrengthExamples()
    ensures StrengthOf("abc") == Strength("weak", "Weak password")
    ensures StrengthOf("Abc12345") == Strength("medium", "Medium password")
    ensures StrengthOf("Abc123!@#xyz") == Strength("strong", "Strong password")
  {
    var weak, medium, strong := "abc", "Abc12345", "Abc123!@#xyz";
    Utf16LengthBmp(weak);
    Utf16LengthBmp(medium);
    Utf16LengthBmp(strong);
    assert Utf16Length(weak) == 3;
    assert IsAsciiLower(weak[0]);
    assert Score(weak) == 1;
    assert Utf16Length(medium) == 8;
    assert IsAsciiUpper(medium[0]) && IsAsciiLower(medium[1]) && IsAsciiDigit(medium[3]);
    assert forall k :: 0 <= k < |medium| ==> IsAsciiAlnum(medium[k]);
    assert Score(medium) == 4;
    assert Utf16Length(strong) == 12;
    assert IsAsciiUpper(strong[0]) && IsAsciiLower(strong[1]) && IsAsciiDigit(strong[3]);
    assert !IsAsciiAlnum(strong[6]);
    assert Score(strong) == 6;
  }

  // ---------------------------------------------------------------------------------------
  // E-mail and phone patterns
  // ---------------------------------------------------------------------------------------

  /** A match of `[^\s@]+`. */
  predicate EmailPart(s: string)
  {
    |s| > 0 && forall k :: 0 <= k < |s| ==> !IsJsWhitespace(s[k]) && s[k] != '@'
  }

  /** `/^[^\s@]+@[^\s@]+\.[^\s@]+$/.test(email)`: the string splits at an '@' (index i)
      and a later '.' (index j) into three non-empty parts free of whitespace and '@'. */
  predicate IsValidEmail(email: string)
  {
    exists i, j :: 0 <= i < j < |email| && email[i] == '@' && email[j] == '.' &&
      EmailPart(email[..i]) && EmailPart(email[i + 1..j]) && EmailPart(email[j + 1..])
  }

  predicate NoAt(s: string)
  {
    forall k :: 0 <= k < |s| ==> s[k] != '@'
  }

  /** `s` holds a '.' that is neither its first nor its last character. */
  predicate DotInside(s: string)
  {
    exists j :: 0 < j < |s| - 1 && s[j] == '.'
  }

  /** The e-mail rule in plain words: no whitespace; exactly one '@', with something before
      it; after it, a '.' that is neither first nor last. */
  ghost predicate EmailShape(email: string)
  {
    NoWhitespace(email) &&
    exists i :: 0 < i < |email| && email[i] == '@' &&
      NoAt(email[..i]) && NoAt(email[i + 1..]) && DotInside(email[i + 1..])
  }

  lemma EmailMatchHasShape(email: string, i: int, j: int)
    requires 0 <= i < j < |email| && email[i] == '@' && email[j] == '.'
    requires EmailPart(email[..i]) && EmailPart(email[i + 1..j]) && EmailPart(email[j + 1..])
    ensures EmailShape(email)
  {
    forall k | 0 <= k < |email| ensures !IsJsWhitespace(email[k]) {
      if k < i { assert email[k] == email[..i][k]; }
      else if i < k < j { assert email[k] == email[i + 1..j][k - i - 1]; }
      else if j < k { assert email[k] == email[j + 1..][k - j - 1]; }
    }
    var after := email[i + 1..];
    forall k | 0 <= k < |after| ensures after[k] != '@' {
      if k < j - i - 1 { assert after[k] == email[i + 1..j][k]; }
      else if k > j - i - 1 { assert after[k] == email[j + 1..][k - (j - i)]; }
    }
    assert after[j - i - 1] == '.';
    assert DotInside(after);
    assert NoAt(email[..i]);
  }

  lemma EmailShapeMatches(email: string, i: int)
    requires NoWhitespace(email)
    requires 0 < i < |email| && email[i] == '@'
    requires NoAt(email[..i]) && NoAt(email[i + 1..]) && DotInside(email[i + 1..])
    ensures IsValidEmail(email)
  {
    var after := email[i + 1..];
    var d :| 0 < d < |after| - 1 && after[d] == '.';
    var j := i + 1 + d;
    assert email[j] == '.';
    forall k | 0 <= k < i ensures !IsJsWhitespace(email[..i][k]) && email[..i][k] != '@' {
      assert email[..i][k] == email[k];
    }
    var mid, last := email[i + 1..j], email[j + 1..];
    forall k | 0 <= k < |mid| ensures !IsJsWhitespace(mid[k]) && mid[k] != '@' {
      assert mid[k] == after[k];
    }
    forall k | 0 <= k < |last| ensures !IsJsWhitespace(last[k]) && last[k] != '@' {
      assert last[k] == after[d + 1 + k];
    }
    assert EmailPart(email[..i]) && EmailPart(email[i + 1..j]) && EmailPart(email[j + 1..]);
  }

  /** The pattern accepts exactly the strings of the plain-words rule. */
  lemma EmailPatternIff(email: string)
    ensures IsValidEmail(email) <==> EmailShape(email)
  {
    if IsValidEmail(email) {
      var i, j :| 0 <= i < j < |email| && email[i] == '@' && email[j] == '.' &&
        EmailPart(email[..i]) && EmailPart(email[i + 1..j]) && EmailPart(email[j + 1..]);
      EmailMatchHasShape(email, i, j);
    }
    if EmailShape(email) {
      var i :| 0 < i < |email| && email[i] == '@' &&
        NoAt(email[..i]) && NoAt(email[i + 1..]) && DotInside(email[i + 1..]);
      EmailShapeMatches(email, i);
    }
  }

  lemma EmailAccepts()
    ensures IsValidEmail("a@b.com")
  {
    var good := "a@b.com";
    assert good[..1] == "a" && good[2..3] == "b" && good[4..] == "com";
    assert 0 <= 1 < 3 < |good| && good[1] == '@' && good[3] == '.' &&
      EmailPart(good[..1]) && EmailPart(good[2..3]) && EmailPart(good[4..]);
  }

  lemma EmailRejects()
    ensures !IsValidEmail("bad")
    ensures !IsValidEmail("a@b.")
    ensures !IsValidEmail("@b.com")
    ensures !IsValidEmail("a@b@c.com")
  {
    EmailPatternIff("bad");
    EmailPatternIff("a@b.");
    EmailPatternIff("@b.com");
    EmailPatternIff("a@b@c.com");
    var twoAts := "a@b@c.com";
    assert !EmailShape(twoAts) by {
      forall i | 0 < i < |twoAts| && twoAts[i] == '@'
        ensures !(NoAt(twoAts[..i]) && NoAt(twoAts[i + 1..]))
      {
        if i == 1 { assert twoAts[i + 1..][1] == '@'; }
        else { assert i == 3; assert twoAts[..i][1] == '@'; }
      }
    }
  }

  /** `/^[0-9]{10}$/.test(phone)` */
  predicate IsValidPhone(phone: string)
  {
    |phone| == 10 && forall k :: 0 <= k < |phone| ==> IsAsciiDigit(phone[k])
  }

  lemma PhoneExamples()
    ensures IsValidPhone("9876543210")
    ensures !IsValidPhone("12345")
    ensures !IsValidPhone("98765 4321")
  {
    assert "98765 4321"[5] == ' ';
  }

  // ---------------------------------------------------------------------------------------
  // Required fields and whole-form validation
  // ---------------------------------------------------------------------------------------

  /** `validateField`'s test: `field.value.trim()` is not empty. */
  function ValidateField(value: string): bool
  {
    Trim(value) != []
  }

  /** A field is accepted exactly when its value has a character that is not whitespace. */
  lemma ValidateFieldIff(value: string)
    ensures ValidateField(value) <==> exists k :: 0 <= k < |value| && !IsJsWhitespace(value[k])
  {
    TrimEmptyIff(value);
  }

  /** A form control: its `id`, its `value` and whether it carries `required`. */
  datatype Field = Field(id: string, value: string, required: bool)

  /** An inline error placed next to the field at index `field` of the form. */
  datatype FieldError = FieldError(field: nat, message: string)

  const RequiredMessage := "This field is required"
  const MismatchMessage := "Passwords do not match"
  const EmailMessage := "Please enter a valid email address"
  const PhoneMessage := "Please enter a valid phone number"

  /** `form.querySelector('#' + id)`: the first field, in document order, with that id. */
  function FindById(form: seq<Field>, id: string): (r: Option<nat>)
    ensures r.Some? ==> r.value < |form| && form[r.value].id == id
  {
    if form == [] then None
    else if form[0].id == id then Some(0)
    else match FindById(form[1..], id)
      case None => None
      case Some(k) => Some(k + 1)
  }

  /** The field found is the first with that id, and none is found only when no field has it. */
  lemma {:induction false} FindByIdFirst(form: seq<Field>, id: string)
    ensures FindById(form, id).Some? ==> forall k :: 0 <= k < FindById(form, id).value ==> form[k].id != id
    ensures FindById(form, id).None? ==> forall k :: 0 <= k < |form| ==> form[k].id != id
  {
    if form != [] && form[0].id != id {
      FindByIdFirst(form[1..], id);
      forall k | 0 < k < |form| ensures form[k].id == form[1..][k - 1].id {
      }
    }
  }

  predicate BlankRequired(f: Field)
  {
    f.required && !ValidateField(f.value)
  }

  /** The "required" errors after visiting the first `n` fields. */
  function RequiredErrors(form: seq<Field>, n: nat): seq<FieldError>
    requires n <= |form|
  {
    if n == 0 then []
    else RequiredErrors(form, n - 1) +
         (if BlankRequired(form[n - 1]) then [FieldError(n - 1, RequiredMessage)] else [])
  }

  /** Every "required" error is about a blank required field among the first `n`. */
  lemma {:induction false} RequiredErrorsSound(form: seq<Field>, n: nat)
    requires n <= |form|
    ensures forall e :: e in RequiredErrors(form, n) ==>
      e.field < n && e.message == RequiredMessage && BlankRequired(form[e.field])
  {
    if n > 0 {
      RequiredErrorsSound(form, n - 1);
    }
  }

  /** The field at index `k` gets a "required" error exactly when it is a blank required
      field. */
  lemma {:induction false} RequiredErrorAt(form: seq<Field>, n: nat, k: nat)
    requires k < n <= |form|
    ensures FieldError(k, RequiredMessage) in RequiredErrors(form, n) <==> BlankRequired(form[k])
  {
    var prev := RequiredErrors(form, n - 1);
    var last := if BlankRequired(form[n - 1]) then [FieldError(n - 1, RequiredMessage)] else [];
    assert RequiredErrors(form, n) == prev + last;
    var e := FieldError(k, RequiredMessage);
    if k < n - 1 {
      RequiredErrorAt(form, n - 1, k);
      assert e !in last;
    } else {
      RequiredErrorsSound(form, n - 1);
      assert e !in prev;
    }
  }

  /** Every required field is visited: each blank required field among the first `n` gets
      its own "required" error, and no other field does. */
  lemma RequiredErrorsComplete(form: seq<Field>, n: nat)
    requires n <= |form|
    ensures forall k :: 0 <= k < n ==>
      (FieldError(k, RequiredMessage) in RequiredErrors(form, n) <==> BlankRequired(form[k]))
  {
    forall k | 0 <= k < n {
      RequiredErrorAt(form, n, k);
    }
  }

  /** No "required" error is placed exactly when none of the first `n` fields is a blank
      required field. */
  lemma RequiredErrorsEmptyIff(form: seq<Field>, n: nat)
    requires n <= |form|
    ensures RequiredErrors(form, n) == [] <==> forall k :: 0 <= k < n ==> !BlankRequired(form[k])
  {
    RequiredErrorsComplete(form, n);
    if RequiredErrors(form, n) != [] {
      RequiredErrorsSound(form, n);
      assert RequiredErrors(form, n)[0] in RequiredErrors(form, n);
    }
  }

  function ConfirmErrors(form: seq<Field>): seq<FieldError>
  {
    match (FindById(form, "password"), FindById(form, "confirmPassword"))
    case (Some(p), Some(c)) =>
      if form[p].value != form[c].value then [FieldError(c, MismatchMessage)] else []
    case _ => []
  }

  function EmailErrors(form: seq<Field>): seq<FieldError>
  {
    match FindById(form, "email")
    case Some(e) =>
      if form[e].value != [] && !IsValidEmail(form[e].value) then [FieldError(e, EmailMessage)] else []
    case None => []
  }

  function PhoneErrors(form: seq<Field>): seq<FieldError>
  {
    match FindById(form, "phone")
    case Some(p) =>
      if form[p].value != [] && !IsValidPhone(form[p].value) then [FieldError(p, PhoneMessage)] else []
    case None => []
  }

  /** Every inline error `validateForm` places, in the order it places them. */
  function FormErrors(form: seq<Field>): seq<FieldError>
  {
    RequiredErrors(form, |form|) + ConfirmErrors(form) + EmailErrors(form) + PhoneErrors(form)
  }

  /** The acceptance rule of the whole form in plain words. */
  ghost predicate FormValid(form: seq<Field>)
  {
    (forall k :: 0 <= k < |form| && form[k].required ==>
       exists i :: 0 <= i < |form[k].value| && !IsJsWhitespace(form[k].value[i])) &&
    (forall p, c ::
       (FindById(form, "password") == Some(p) && FindById(form, "confirmPassword") == Some(c)) ==>
       form[p].value == form[c].value) &&
    (forall e :: FindById(form, "email") == Some(e) && form[e].value != [] ==>
       IsValidEmail(form[e].value)) &&
    (forall p :: FindById(form, "phone") == Some(p) && form[p].value != [] ==>
       IsValidPhone(form[p].value))
  }

  /** The form is reported valid exactly when no inline error is placed. */
  lemma FormErrorsEmptyIff(form: seq<Field>)
    ensures FormErrors(form) == [] <==> FormValid(form)
  {
    RequiredErrorsEmptyIff(form, |form|);
    forall k | 0 <= k < |form| {
      ValidateFieldIff(form[k].value);
    }
  }

  /** `validateForm(form)`: visits every required field (no short-circuit), then checks the
      password confirmation, the e-mail and the phone. */
  method ValidateForm(form: seq<Field>) returns (valid: bool, errors: seq<FieldError>)
    ensures errors == FormErrors(form)
    ensures valid <==> errors == []
    ensures valid <==> FormValid(form)
  {
    valid := true;
    errors := [];
    for i := 0 to |form|
      invariant errors == RequiredErrors(form, i)
      invariant valid <==> errors == []
    {
      if form[i].required {
        var ok := ValidateField(form[i].value);
        if !ok {
          errors := errors + [FieldError(i, RequiredMessage)];
          valid := false;
        }
      }
    }
    var password := FindById(form, "password");
    var confirm := FindById(form, "confirmPassword");
    if password.Some? && confirm.Some? && form[password.value].value != form[confirm.value].value {
      errors := errors + [FieldError(confirm.value, MismatchMessage)];
      valid := false;
    }
    assert errors == RequiredErrors(form, |form|) + ConfirmErrors(form);
    var email := FindById(form, "email");
    if email.Some? && form[email.value].value != [] && !IsValidEmail(form[email.value].value) {
      errors := errors + [FieldError(email.value, EmailMessage)];
      valid := false;
    }
    assert errors == RequiredErrors(form, |form|) + ConfirmErrors(form) + EmailErrors(form);
    var phone := FindById(form, "phone");
    if phone.Some? && form[phone.value].value != [] && !IsValidPhone(form[phone.value].value) {
      errors := errors + [FieldError(phone.value, PhoneMessage)];
      valid := false;
    }
    FormErrorsEmptyIff(form);
  }

  // ---------------------------------------------------------------------------------------
  // Character counter of the complaint description
  // ---------------------------------------------------------------------------------------

  /** `var(--gray)`, `var(--warning)`, `var(--danger)`. */
  datatype CounterColor = Gray | Warning | Danger

  /** The counter's colour for a description of `count` code units. */
  function CounterColorOf(count: nat): (c: CounterColor)
    ensures c == Gray <==> count <= 900
    ensures c == Warning <==> 900 < count <= 1000
    ensures c == Danger <==> 1000 < count
  {
    if count > 900 then (if count > 1000 then Danger else Warning) else Gray
  }

  /** The colour shown while the description holds `description`. */
  function CounterColorFor(description: string): (c: CounterColor)
    ensures |description| > 1000 ==> c == Danger
    ensures Utf16Length(description) <= 900 ==> c == Gray
  {
    CounterColorOf(Utf16Length(description))
  }
}
