/**
 * The landing page of the application: the newsletter form's validator and
 * submit handler, and the dark-mode preference with its initial value and
 * its persistence.
 */
module LandingPage {
  import opened Wrappers
  import opened JsObjects

  /** The newsletter form's values. */
  datatype Newsletter = Newsletter(email: string, interest: string, termsAccepted: bool)

  /** The keys `validateForm` may write. */
  const NewsletterKeys: set<string> := {"email", "interest", "terms"}

  /** Values that pass `validateForm`: any non-empty e-mail (neither trimmed
      nor checked for shape), a chosen interest, accepted terms. */
  predicate NewsletterValid(n: Newsletter) {
    n.email != "" && n.interest != "" && n.termsAccepted
  }

  /** The rules of `validateForm`, each adding its key to the map built so far. */
  function EmailRule(n: Newsletter, e: map<string, string>): map<string, string> {
    if n.email == "" then e["email" := "Email is required"] else e
  }

  function InterestRule(n: Newsletter, e: map<string, string>): map<string, string> {
    if n.interest == "" then e["interest" := "Please select an interest"] else e
  }

  function TermsRule(n: Newsletter, e: map<string, string>): map<string, string> {
    if !n.termsAccepted then e["terms" := "You must accept the terms and conditions"] else e
  }

  /** The error map `validateForm` builds, starting from an empty one. */
  function NewsletterErrors(n: Newsletter): (e: map<string, string>)
    ensures e.Keys <= NewsletterKeys
  {
    TermsRule(n, InterestRule(n, EmailRule(n, map[])))
  }

  /** The conditions a value fails, as keys of the error map. */
  function FailedConditions(n: Newsletter): (keys: set<string>)
    ensures keys <= NewsletterKeys
  {
    (if n.email == "" then {"email"} else {})
    + (if n.interest == "" then {"interest"} else {})
    + (if n.termsAccepted then {} else {"terms"})
  }

  /** The fixed message of each key. */
  function ConditionMessage(key: string): string {
    if key == "email" then "Email is required"
    else if key == "interest" then "Please select an interest"
    else "You must accept the terms and conditions"
  }

  /** Each failed condition adds exactly its own key, and no other key is added. */
  lemma NewsletterErrorsKeys(n: Newsletter)
    ensures NewsletterErrors(n).Keys == FailedConditions(n)
  {
  }

  /** Each key of the error map carries its fixed message. */
  lemma NewsletterErrorsMessages(n: Newsletter)
    ensures forall key | key in NewsletterErrors(n) :: NewsletterErrors(n)[key] == ConditionMessage(key)
  {
  }

  /** `validateForm` succeeds exactly on values that fail no condition. */
  lemma NewsletterErrorsEmptyIff(n: Newsletter)
    ensures NewsletterErrors(n) == map[] <==> NewsletterValid(n)
  {
    NewsletterErrorsKeys(n);
    var e := NewsletterErrors(n);
    assert e == map[] <==> e.Keys == {};
  }

  /** The e-mail is not trimmed: a single space passes. */
  lemma BlankEmailPasses()
    ensures NewsletterErrors(Newsletter(" ", "react", true)) == map[]
  {
  }


  // ---------------------------------------------------------------------
  // Dark mode
  // ---------------------------------------------------------------------

  /** `String(darkMode)`, the value written under the "darkMode" key. */
  function StoredDarkMode(dark: bool): (s: string)
    ensures s == "true" <==> dark
  {
    if dark then "true" else "false"
  }

  /** The initial dark-mode flag: outside a browser it is off; otherwise a
      saved value decides (on exactly when it is "true") and without one the
      system preference does. */
  function InitialDarkMode(inBrowser: bool, saved: Option<string>, prefersDark: bool): (dark: bool)
    ensures !inBrowser ==> !dark
    ensures inBrowser && saved.Some? ==> (dark <==> saved.value == "true")
    ensures inBrowser && saved.None? ==> dark == prefersDark
  {
    if inBrowser then
      (if saved.Some? then saved.value == "true" else prefersDark)
    else false
  }

  /** A saved value takes precedence over the system preference, and any
      saved value other than "true" (such as "TRUE" or "1") means off. */
  lemma SavedValueDecides(saved: string, prefers1: bool, prefers2: bool)
    ensures InitialDarkMode(true, Some(saved), prefers1) == InitialDarkMode(true, Some(saved), prefers2)
    ensures InitialDarkMode(true, Some(saved), prefers1) <==> saved == "true"
  {
  }

  /** What the page persists is what it restores on the next load, whatever
      the system preference is then. */
  lemma DarkModeRoundTrip(dark: bool, prefersDark: bool)
    ensures InitialDarkMode(true, Some(StoredDarkMode(dark)), prefersDark) == dark
  {
  }

  /** The landing page's state. `storage` is the "darkMode" entry of local
      storage. */
  class Landing {
    var form: Newsletter
    var errors: map<string, string>
    var subscribed: bool
    var darkMode: bool
    var storage: Option<string>

    /** Mounting the page: the dark-mode flag is initialised from `saved`
        and the preference, and in a browser the persistence effect then
        writes it back. */
    constructor (inBrowser: bool, saved: Option<string>, prefersDark: bool)
      ensures form == Newsletter("", "", false)
      ensures errors == map[] && !subscribed
      ensures darkMode == InitialDarkMode(inBrowser, saved, prefersDark)
      ensures storage == if inBrowser then Some(StoredDarkMode(darkMode)) else saved
    {
      form := Newsletter("", "", false);
      errors := map[];
      subscribed := false;
      var dark := InitialDarkMode(inBrowser, saved, prefersDark);
      darkMode := dark;
      storage := if inBrowser then Some(StoredDarkMode(dark)) else saved;
    }

    method SetEmail(email: string)
      modifies this`form
      ensures form == old(form).(email := email)
    {
      form := form.(email := email);
    }

    method SetInterest(interest: string)
      modifies this`form
      ensures form == old(form).(interest := interest)
    {
      form := form.(interest := interest);
    }

    method SetTermsAccepted(accepted: bool)
      modifies this`form
      ensures form == old(form).(termsAccepted := accepted)
    {
      form := form.(termsAccepted := accepted);
    }

    /** The dark-mode switch's change handler, followed by the persistence
        effect. */
    method SetDarkMode(dark: bool)
      modifies this`darkMode, this`storage
      ensures darkMode == dark && storage == Some(StoredDarkMode(dark))
    {
      darkMode := dark;
      storage := Some(StoredDarkMode(dark));
    }

    /** `validateForm`: fills a fresh error map condition by condition,
        stores it, and reports whether it stayed empty. */
    method ValidateForm() returns (ok: bool)
      modifies this`errors
      ensures form == old(form) && subscribed == old(subscribed)
      ensures errors == NewsletterErrors(form)
      ensures ok <==> errors == map[]
    {
      var newErrors: map<string, string> := map[];
      if form.email == "" {
        newErrors := newErrors["email" := "Email is required"];
      }
      if form.interest == "" {
        newErrors := newErrors["interest" := "Please select an interest"];
      }
      if !form.termsAccepted {
        newErrors := newErrors["terms" := "You must accept the terms and conditions"];
      }
      errors := newErrors;
      ok := |newErrors.Keys| == 0;
      EmptyMapIff(newErrors);
    }

    /** The form's submit handler: subscribes and clears the errors only when
        validation passes; otherwise the new error map stays. */
    method Submit()
      modifies this`errors, this`subscribed
      ensures errors == NewsletterErrors(form)
      ensures subscribed == (old(subscribed) || errors == map[])
    {
      var ok := ValidateForm();
      if ok {
        subscribed := true;
        errors := map[];
      }
    }
  }
}
