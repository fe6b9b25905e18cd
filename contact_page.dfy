/**
 * The contact form of the contact page: its field values, the error map its
 * validator builds, and the submit handler.
 */
module ContactPage {
  import opened JsStrings
  import opened JsObjects

  // ---------------------------------------------------------------------
  // The e-mail pattern  ^[^\s@]+@[^\s@]+\.[^\s@]+$
  // ---------------------------------------------------------------------

  /** `[^\s@]+`: a non-empty run of characters that are neither white space nor '@'. */
  predicate Run(s: string) {
    |s| > 0 && forall i | 0 <= i < |s| :: !IsWhitespace(s[i]) && s[i] != '@'
  }

  /** `s` is `[^\s@]+@[^\s@]+\.[^\s@]+` with the '@' at `at` and the '.' at `dot`. */
  predicate SplitsAt(s: string, at: int, dot: int) {
    0 <= at < dot < |s| && s[at] == '@' && s[dot] == '.'
    && Run(s[..at]) && Run(s[at + 1..dot]) && Run(s[dot + 1..])
  }

  /** The regular expression as it reads: the whole value splits at an '@'
      and a later '.' into three runs. */
  function EmailRegex(s: string): (r: bool)
    ensures r ==> |s| >= 5 && '@' in s
    ensures r ==> !IsWhitespace(s[0]) && s[0] != '@'
  {
    exists at, dot | 0 <= at < dot < |s| :: SplitsAt(s, at, dot)
  }

  /** Number of occurrences of `c` in `s`. */
  function Count(s: string, c: char): (n: nat)
    ensures n == 0 <==> c !in s
  {
    if s == [] then 0 else (if s[0] == c then 1 else 0) + Count(s[1..], c)
  }

  /** Index of the first `c` in `s`, or |s| when there is none. */
  function FirstIndex(s: string, c: char): (i: nat)
    ensures i <= |s|
    ensures i < |s| ==> s[i] == c
    ensures forall j | 0 <= j < i :: s[j] != c
  {
    if s == [] then 0 else if s[0] == c then 0 else 1 + FirstIndex(s[1..], c)
  }

  lemma {:induction false} CountSplit(s: string, k: nat, c: char)
    requires k <= |s|
    ensures Count(s, c) == Count(s[..k], c) + Count(s[k..], c)
  {
    if k > 0 {
      CountSplit(s[1..], k - 1, c);
      assert s[1..][..k - 1] == s[..k][1..];
      assert s[1..][k - 1..] == s[k..];
    }
  }

  /** The same language described character by character: no white space,
      exactly one '@', something before it, and after it a '.' that is
      neither the first nor the last character of the domain. */
  predicate EmailShape(s: string) {
    NoWhitespace(s) && Count(s, '@') == 1 &&
    var at := FirstIndex(s, '@');
    0 < at && exists k | at + 1 < k < |s| - 1 :: s[k] == '.'
  }

  /** `c` occurs nowhere in `s` from index `lo` on. */
  lemma AbsentFrom(s: string, lo: nat, c: char)
    requires lo <= |s|
    requires forall i | lo <= i < |s| :: s[i] != c
    ensures c !in s[lo..]
  {
  }

  lemma RegexHasShape(s: string, at: nat, dot: nat)
    requires at < dot < |s| && s[at] == '@' && s[dot] == '.'
    requires Run(s[..at]) && Run(s[at + 1..dot]) && Run(s[dot + 1..])
    ensures EmailShape(s)
  {
    forall i | 0 <= i < |s| ensures !IsWhitespace(s[i]) && (at < i ==> s[i] != '@') {
      if i < at { assert s[i] == s[..at][i]; }
      else if at < i < dot { assert s[i] == s[at + 1..dot][i - at - 1]; }
      else if dot < i { assert s[i] == s[dot + 1..][i - dot - 1]; }
    }
    forall j | 0 <= j < at ensures s[j] != '@' {
      assert s[j] == s[..at][j];
    }
    AbsentFrom(s[..at], 0, '@');
    assert s[..at][0..] == s[..at];
    AbsentFrom(s, at + 1, '@');
    CountSplit(s, at, '@');
    assert s[at..][1..] == s[at + 1..];
    assert FirstIndex(s, '@') == at;
    assert |s[at + 1..dot]| > 0 && |s[dot + 1..]| > 0;
    assert at + 1 < dot < |s| - 1 && s[dot] == '.';
  }

  lemma ShapeHasRegex(s: string)
    requires EmailShape(s)
    ensures EmailRegex(s)
  {
    var at := FirstIndex(s, '@');
    var dot :| at + 1 < dot < |s| - 1 && s[dot] == '.';
    CountSplit(s, at, '@');
    AbsentFrom(s[..at], 0, '@');
    assert s[..at][0..] == s[..at];
    assert s[at..] == [s[at]] + s[at + 1..];
    assert Count(s[at + 1..], '@') == 0;
    forall i | at < i < |s| ensures s[i] != '@' {
      assert s[i] == s[at + 1..][i - at - 1];
    }
    assert Run(s[..at]);
    assert Run(s[at + 1..dot]);
    assert Run(s[dot + 1..]);
    assert SplitsAt(s, at, dot);
  }

  /** The pattern accepts exactly the values of `EmailShape`. */
  lemma EmailRegexIff(s: string)
    ensures EmailRegex(s) <==> EmailShape(s)
  {
    if EmailRegex(s) {
      var at, dot :| 0 <= at < dot < |s| && SplitsAt(s, at, dot);
      RegexHasShape(s, at, dot);
    }
    if EmailShape(s) {
      ShapeHasRegex(s);
    }
  }

  // ---------------------------------------------------------------------
  // Validation
  // ---------------------------------------------------------------------

  /** The form's values (`formData`). */
  datatype ContactFields = ContactFields(
    name: string, email: string, company: string, topic: string, message: string)

  /** The fields a change handler can edit. */
  datatype Field = Name | Email | Company | Topic | Message

  /** The keys `validateForm` may write. */
  const ContactKeys: set<string> := {"name", "email", "topic", "message"}

  /** Values that pass every rule of `validateForm`. */
  predicate ContactValid(f: ContactFields) {
    !AllWhitespace(f.name) && EmailShape(f.email) && f.topic != "" && !AllWhitespace(f.message)
  }

  /** The rules of `validateForm`, each adding its key to the map built so far. */
  function NameRule(f: ContactFields, e: map<string, string>): map<string, string> {
    if Trim(f.name) == "" then e["name" := "Name is required"] else e
  }

  function EmailRule(f: ContactFields, e: map<string, string>): map<string, string> {
    if Trim(f.email) == "" then e["email" := "Email is required"]
    else if !EmailRegex(f.email) then e["email" := "Please enter a valid email"]
    else e
  }

  function TopicRule(f: ContactFields, e: map<string, string>): map<string, string> {
    if f.topic == "" then e["topic" := "Please select a topic"] else e
  }

  function MessageRule(f: ContactFields, e: map<string, string>): map<string, string> {
    if Trim(f.message) == "" then e["message" := "Message is required"] else e
  }

  /** The error map `validateForm` builds, starting from an empty one. */
  function ContactErrors(f: ContactFields): (e: map<string, string>)
    ensures e.Keys <= ContactKeys
  {
    MessageRule(f, TopicRule(f, EmailRule(f, NameRule(f, map[]))))
  }

  /** The rules a value breaks, as keys of the error map: a blank name, an
      e-mail without the accepted shape, no topic, a blank message. */
  function FailedRules(f: ContactFields): (keys: set<string>)
    ensures keys <= ContactKeys
  {
    (if AllWhitespace(f.name) then {"name"} else {})
    + (if EmailShape(f.email) then {} else {"email"})
    + (if f.topic == "" then {"topic"} else {})
    + (if AllWhitespace(f.message) then {"message"} else {})
  }

  /** The fixed message each rule reports; a blank e-mail is reported as
      missing, never also as malformed. */
  function RuleMessage(f: ContactFields, key: string): string {
    if key == "name" then "Name is required"
    else if key == "email" then
      (if AllWhitespace(f.email) then "Email is required" else "Please enter a valid email")
    else if key == "topic" then "Please select a topic"
    else "Message is required"
  }

  /** The error map holds exactly one key per broken rule, and no other key
      (`company` is never checked). */
  lemma ContactErrorsKeys(f: ContactFields)
    ensures ContactErrors(f).Keys == FailedRules(f)
  {
    var e1 := NameRule(f, map[]);
    BlankRuleKeys(f.name, map[], "name", "Name is required");
    var e2 := EmailRule(f, e1);
    EmailRuleEffect(f, e1);
    var e3 := TopicRule(f, e2);
    TopicRuleKeys(f, e2);
    BlankRuleKeys(f.message, e3, "message", "Message is required");
  }

  lemma TopicRuleKeys(f: ContactFields, e: map<string, string>)
    ensures TopicRule(f, e).Keys == e.Keys + (if f.topic == "" then {"topic"} else {})
  {
  }

  /** A rule that reports `key` for a blank `value` adds that key exactly
      when the value is all white space. */
  lemma BlankRuleKeys(value: string, e: map<string, string>, key: string, msg: string)
    ensures (if Trim(value) == "" then e[key := msg] else e).Keys
      == e.Keys + (if AllWhitespace(value) then {key} else {})
  {
  }

  /** Each key of the error map carries its rule's fixed message. */
  lemma ContactErrorsMessages(f: ContactFields)
    ensures forall key | key in ContactErrors(f) :: ContactErrors(f)[key] == RuleMessage(f, key)
  {
  }

  /** `validateForm` succeeds exactly on values that break no rule. */
  lemma ContactErrorsEmptyIff(f: ContactFields)
    ensures ContactErrors(f) == map[] <==> ContactValid(f)
  {
    ContactErrorsKeys(f);
    var e := ContactErrors(f);
    assert e == map[] <==> e.Keys == {};
  }

  /** The e-mail rule adds the "email" key exactly when the value does not
      have the accepted shape, and leaves every other key alone. */
  lemma EmailRuleEffect(f: ContactFields, e: map<string, string>)
    ensures EmailRule(f, e).Keys == if EmailShape(f.email) then e.Keys else e.Keys + {"email"}
    ensures forall k | k in e && k != "email" :: EmailRule(f, e)[k] == e[k]
    ensures !EmailShape(f.email) ==>
      EmailRule(f, e)["email"] == (if AllWhitespace(f.email) then "Email is required" else "Please enter a valid email")
  {
    EmailRegexIff(f.email);
    assert AllWhitespace(f.email) ==> !EmailShape(f.email) by {
      if AllWhitespace(f.email) && |f.email| > 0 { assert IsWhitespace(f.email[0]); }
    }
  }


  /** The contact page's form state. */
  class ContactForm {
    var fields: ContactFields
    var submitted: bool
    var errors: map<string, string>

    constructor ()
      ensures fields == ContactFields("", "", "", "", "")
      ensures !submitted && errors == map[]
    {
      fields := ContactFields("", "", "", "", "");
      submitted := false;
      errors := map[];
    }

    /** A field's change handler: only that field takes the new value. */
    method SetField(field: Field, value: string)
      modifies this`fields
      ensures fields == match field
        case Name => old(fields).(name := value)
        case Email => old(fields).(email := value)
        case Company => old(fields).(company := value)
        case Topic => old(fields).(topic := value)
        case Message => old(fields).(message := value)
    {
      match field
      case Name => fields := fields.(name := value);
      case Email => fields := fields.(email := value);
      case Company => fields := fields.(company := value);
      case Topic => fields := fields.(topic := value);
      case Message => fields := fields.(message := value);
    }

    /** `validateForm`: fills a fresh error map rule by rule, stores it, and
        reports whether it stayed empty. */
    method ValidateForm() returns (ok: bool)
      modifies this`errors
      ensures fields == old(fields) && submitted == old(submitted)
      ensures errors == ContactErrors(fields)
      ensures ok <==> errors == map[]
    {
      var newErrors: map<string, string> := map[];
      if Trim(fields.name) == "" {
        newErrors := newErrors["name" := "Name is required"];
      }
      ghost var e1 := NameRule(fields, map[]);
      assert newErrors == e1;
      if Trim(fields.email) == "" {
        newErrors := newErrors["email" := "Email is required"];
      } else if !EmailRegex(fields.email) {
        newErrors := newErrors["email" := "Please enter a valid email"];
      }
      ghost var e2 := EmailRule(fields, e1);
      assert newErrors == e2;
      if fields.topic == "" {
        newErrors := newErrors["topic" := "Please select a topic"];
      }
      ghost var e3 := TopicRule(fields, e2);
      assert newErrors == e3;
      if Trim(fields.message) == "" {
        newErrors := newErrors["message" := "Message is required"];
      }
      assert newErrors == MessageRule(fields, e3) == ContactErrors(fields);
      errors := newErrors;
      ok := |newErrors.Keys| == 0;
      EmptyMapIff(newErrors);
    }

    /** `handleSubmit`: marks the form submitted and clears the errors only
        when validation passes; otherwise the new error map stays. */
    method HandleSubmit()
      modifies this`errors, this`submitted
      ensures errors == ContactErrors(fields)
      ensures submitted == (old(submitted) || errors == map[])
    {
      var ok := ValidateForm();
      if ok {
        submitted := true;
        errors := map[];
      }
    }
  }
}
