/**
 * The account model and its serializers: a user's display name, the chatbot quota, e-mail
 * normalisation on save, the phone-number pattern, the registration checks and the profile update.
 */
module Accounts {
  import opened Wrappers
  import opened Text

  datatype Plan = Free | Pro | Enterprise

  function PlanCode(p: Plan): string {
    match p
    case Free => "free"
    case Pro => "pro"
    case Enterprise => "enterprise"
  }

  /** A row of the users table (the fields the application reads or writes). */
  datatype User = User(
    id: nat,
    email: string,
    username: string,
    firstName: string,
    lastName: string,
    organization: string,
    phone: string,
    openaiApiKey: Option<string>,
    plan: Plan,
    maxChatbots: int,
    maxDocumentsPerChatbot: int,
    maxQueriesPerMonth: int)

  const DefaultMaxChatbots: int := 3
  const DefaultMaxDocumentsPerChatbot: int := 10
  const DefaultMaxQueriesPerMonth: int := 100

  /** A user as the registration path creates it: the given fields, the plan defaults, no API key. */
  function NewUser(id: nat, email: string, username: string, firstName: string, lastName: string,
                   organization: string, phone: string): (u: User)
    ensures u.plan == Free && u.openaiApiKey == None
    ensures u.maxChatbots == 3 && u.maxDocumentsPerChatbot == 10 && u.maxQueriesPerMonth == 100
    ensures u.id == id && u.email == email && u.username == username
  {
    User(id, email, username, firstName, lastName, organization, phone, None, Free,
         DefaultMaxChatbots, DefaultMaxDocumentsPerChatbot, DefaultMaxQueriesPerMonth)
  }

  // ---------------------------------------------------------------------------
  // get_full_name, chatbot_count, can_create_chatbot

  /** `get_full_name()`: first and last name joined by a space and stripped, or the username if that is empty. */
  function FullName(u: User): string {
    var full := Strip(u.firstName + " " + u.lastName);
    if full == "" then u.username else full
  }

  lemma AllSpaceJoined(a: string, b: string)
    ensures AllSpace(a + " " + b) <==> AllSpace(a) && AllSpace(b)
  {
    var s := a + " " + b;
    if AllSpace(s) {
      assert forall i :: 0 <= i < |a| ==> a[i] == s[i];
      assert forall i :: 0 <= i < |b| ==> b[i] == s[|a| + 1 + i];
    }
    if AllSpace(a) && AllSpace(b) {
      assert forall i :: 0 <= i < |s| ==> s[i] == if i < |a| then a[i] else if i == |a| then ' ' else b[i - |a| - 1];
    }
  }

  /**
   * The display name falls back to the username exactly when both name parts are blank;
   * otherwise it is a non-empty name without surrounding whitespace.
   */
  lemma FullNameFallback(u: User)
    ensures AllSpace(u.firstName) && AllSpace(u.lastName) ==> FullName(u) == u.username
    ensures !(AllSpace(u.firstName) && AllSpace(u.lastName)) ==>
              FullName(u) != "" && !IsSpace(FullName(u)[0]) && !IsSpace(FullName(u)[|FullName(u)| - 1])
  {
    StripEmptyIff(u.firstName + " " + u.lastName);
    AllSpaceJoined(u.firstName, u.lastName);
  }

  /** `chatbot_count`: the size of the reverse relation, or 0 when the relation is absent. */
  function ChatbotCount(related: Option<nat>): (n: nat)
    ensures related.None? ==> n == 0
    ensures related.Some? ==> n == related.value
  {
    related.GetOr(0)
  }

  /** `can_create_chatbot`: the user still has room under the chatbot quota. */
  predicate CanCreateChatbot(u: User, chatbotCount: nat) {
    chatbotCount < u.maxChatbots
  }

  /** With the default quota, a user can create a chatbot exactly while owning fewer than three. */
  lemma DefaultQuota(u: User, count: nat)
    requires u.maxChatbots == DefaultMaxChatbots
    ensures CanCreateChatbot(u, count) <==> count <= 2
  {
  }

  // ---------------------------------------------------------------------------
  // save()

  /** `save()`: the row as written, with the e-mail lower-cased and nothing else changed. */
  function Saved(u: User): (r: User)
    ensures NoAsciiUpper(r.email) && |r.email| == |u.email|
    ensures r.email == Lower(u.email)
    ensures r.(email := u.email) == u
  {
    u.(email := Lower(u.email))
  }

  /** Saving twice writes the same row as saving once. */
  lemma SaveIdempotent(u: User)
    ensures Saved(Saved(u)) == Saved(u)
  {
    LowerIdempotent(u.email);
  }

  /** Two e-mail addresses that differ only in letter case are stored identically. */
  lemma SaveIgnoresCase(u: User, other: string)
    requires Lower(other) == Lower(u.email)
    ensures Saved(u.(email := other)) == Saved(u)
  {
  }

  // ---------------------------------------------------------------------------
  // The phone pattern ^\+?1?\d{9,15}$

  /**
   * The reference reading of the pattern `\+?1?\d{9,15}` matched against the whole of `s`:
   * an optional `+`, an optional `1`, then between 9 and 15 decimal digits of any script.
   */
  ghost predicate PhoneShape(s: string) {
    exists a: nat, b: nat {:trigger s[a..b]} ::
      && a <= 1 && a <= b <= a + 1 && b <= |s|
      && (a == 1 ==> s[0] == '+')
      && (b == a + 1 ==> s[a] == '1')
      && AllDecimal(s[b..]) && 9 <= |s| - b <= 15
  }

  /** The pattern checked directly: after an optional `+`, 9 to 15 digits, or 16 digits starting with `1`. */
  predicate PhoneFullMatch(s: string) {
    var d := if |s| > 0 && s[0] == '+' then s[1..] else s;
    AllDecimal(d) && (9 <= |d| <= 15 || (|d| == 16 && d[0] == '1'))
  }

  lemma PhoneFullMatchIsShape(s: string)
    ensures PhoneFullMatch(s) <==> PhoneShape(s)
  {
    if PhoneFullMatch(s) {
      FullMatchGivesShape(s);
    }
    if PhoneShape(s) {
      var a: nat, b: nat :| && a <= 1 && a <= b <= a + 1 && b <= |s|
                           && (a == 1 ==> s[0] == '+') && (b == a + 1 ==> s[a] == '1')
                           && AllDecimal(s[b..]) && 9 <= |s| - b <= 15;
      ShapeGivesFullMatch(s, a, b);
    }
  }

  lemma FullMatchGivesShape(s: string)
    requires PhoneFullMatch(s)
    ensures PhoneShape(s)
  {
    var a: nat := if |s| > 0 && s[0] == '+' then 1 else 0;
    var d := s[a..];
    var b: nat := if |d| <= 15 then a else a + 1;
    assert s[b..] == d[b - a..];
    assert s[a..b] == s[a..b];
  }

  lemma ShapeGivesFullMatch(s: string, a: nat, b: nat)
    requires a <= 1 && a <= b <= a + 1 && b <= |s|
    requires a == 1 ==> s[0] == '+'
    requires b == a + 1 ==> s[a] == '1'
    requires AllDecimal(s[b..]) && 9 <= |s| - b <= 15
    ensures PhoneFullMatch(s)
  {
    var d := s[a..];
    assert AllDecimal(d) by {
      forall i | 0 <= i < |d|
        ensures IsDecimal(d[i])
      {
        if i < b - a {
          assert d[i] == '1';
        } else {
          assert d[i] == s[b..][i - (b - a)];
        }
      }
    }
    if a == 0 && |s| > 0 {
      assert s[0] == d[0];
    }
  }

  /**
   * What `RegexValidator(r'^\+?1?\d{9,15}$')` accepts: Python's `re.search` lets `$` match
   * just before a final newline, so the full match may be followed by one `"\n"`.
   */
  predicate PhoneRegexMatches(s: string) {
    PhoneFullMatch(s) || (|s| > 0 && s[|s| - 1] == '\n' && PhoneFullMatch(s[..|s| - 1]))
  }

  /** The pattern by itself accepts a trailing newline, which the reference shape does not allow. */
  lemma PhoneRegexAcceptsTrailingNewline()
    ensures PhoneRegexMatches("+123456789\n") && !PhoneShape("+123456789\n")
  {
    var s := "+123456789\n";
    assert s[..|s| - 1] == "+123456789";
    assert PhoneFullMatch("+123456789");
    assert !AllDecimal(s[1..]) by { assert s[1..][9] == '\n'; }
    PhoneFullMatchIsShape(s);
  }

  /** Nine Arabic-Indic digits are a phone number as far as the pattern is concerned. */
  lemma PhoneAcceptsOtherScripts()
    ensures PhoneShape("\U{661}\U{662}\U{663}\U{664}\U{665}\U{666}\U{667}\U{668}\U{669}")
  {
    var s := "\U{661}\U{662}\U{663}\U{664}\U{665}\U{666}\U{667}\U{668}\U{669}";
    assert PhoneFullMatch(s);
    PhoneFullMatchIsShape(s);
  }

  const PhoneMessage := "Phone must be: '+999999999'. Up to 15 digits."
  const PhoneMaxLength: nat := 17
  const PhoneMaxLengthMessage := "Ensure this field has no more than 17 characters."

  /**
   * The `phone` field as a serializer validates it: the value is stripped; a blank value is
   * accepted as the empty string without running validators; otherwise the pattern and the
   * 17-character limit are both checked and every failing check contributes its message.
   */
  function ValidatePhone(value: string): (r: Result<string, seq<string>>)
    ensures r.Ok? ==> r.value == Strip(value)
    ensures r.Ok? ==> r.value == "" || (PhoneShape(r.value) && |r.value| <= PhoneMaxLength)
    ensures r.Ok? <==> AllSpace(value) || (PhoneShape(Strip(value)) && |Strip(value)| <= PhoneMaxLength)
    ensures r.Err? ==> r.error != [] && (PhoneMessage in r.error <==> !PhoneShape(Strip(value)))
  {
    var t := Strip(value);
    StripEmptyIff(value);
    if t == "" then Ok("")
    else
      var errors := PhoneErrors(t);
      if errors == [] then Ok(t) else Err(errors)
  }

  /** The messages of the phone field's validators that reject a stripped, non-blank value, in order. */
  function PhoneErrors(t: string): (errors: seq<string>)
    requires t != "" && !IsSpace(t[|t| - 1])
    ensures errors == [] <==> PhoneShape(t) && |t| <= PhoneMaxLength
    ensures PhoneMessage in errors <==> !PhoneShape(t)
  {
    PhoneFullMatchIsShape(t);
    assert PhoneRegexMatches(t) == PhoneFullMatch(t);
    (if PhoneRegexMatches(t) then [] else [PhoneMessage])
    + (if |t| > PhoneMaxLength then [PhoneMaxLengthMessage] else [])
  }

  // ---------------------------------------------------------------------------
  // The registration serializer

  const PasswordMismatch := "Passwords didn't match."

  /** `validate(attrs)`: rejects differing passwords with an error keyed `password`; otherwise returns `attrs` as they are. */
  function ValidateRegistration(attrs: map<string, string>): (r: Result<map<string, string>, map<string, string>>)
    requires "password" in attrs && "password_confirm" in attrs
    ensures r.Ok? <==> attrs["password"] == attrs["password_confirm"]
    ensures r.Ok? ==> r.value == attrs
    ensures r.Err? ==> r.error.Keys == {"password"}
  {
    if attrs["password"] != attrs["password_confirm"] then Err(map["password" := PasswordMismatch])
    else Ok(attrs)
  }

  /** `create(validated_data)`: the keyword arguments passed on to user creation, `password_confirm` popped. */
  function RegistrationKwargs(validated: map<string, string>): (kwargs: map<string, string>)
    requires "password_confirm" in validated
    ensures kwargs.Keys == validated.Keys - {"password_confirm"}
    ensures forall k :: k in kwargs ==> kwargs[k] == validated[k]
  {
    validated - {"password_confirm"}
  }

  /** A registration that passed validation never hands the confirmation field to user creation. */
  lemma RegistrationDropsConfirmation(attrs: map<string, string>)
    requires "password" in attrs && "password_confirm" in attrs
    requires ValidateRegistration(attrs).Ok?
    ensures "password_confirm" !in RegistrationKwargs(ValidateRegistration(attrs).value)
    ensures RegistrationKwargs(ValidateRegistration(attrs).value)["password"] == attrs["password_confirm"]
  {
  }

  // ---------------------------------------------------------------------------
  // The profile serializers

  /** The fields the profile update serializer accepts. */
  const UpdatableFields: set<string> := {"first_name", "last_name", "organization", "phone", "openai_api_key"}
  /** The fields the profile serializer shows but never writes. */
  const ProfileReadOnlyFields: set<string> := {"id", "email", "plan", "created_at"}

  function FieldOr(data: map<string, string>, key: string, current: string): string {
    if key in data then Strip(data[key]) else current
  }

  /**
   * A (partial) profile update: only the updatable fields are read from the request, every text
   * field is stripped, and the phone is validated; the other columns keep their values.
   */
  function ApplyProfileUpdate(u: User, data: map<string, string>): (r: Result<User, seq<string>>)
    ensures r.Ok? ==> r.value.(firstName := u.firstName, lastName := u.lastName, organization := u.organization,
                               phone := u.phone, openaiApiKey := u.openaiApiKey) == u
    ensures r.Ok? ==> && r.value.firstName == FieldOr(data, "first_name", u.firstName)
                      && r.value.lastName == FieldOr(data, "last_name", u.lastName)
                      && r.value.organization == FieldOr(data, "organization", u.organization)
    ensures r.Ok? ==> r.value.openaiApiKey == if "openai_api_key" in data then Some(Strip(data["openai_api_key"])) else u.openaiApiKey
    ensures "phone" in data ==> (r.Ok? <==> ValidatePhone(data["phone"]).Ok?)
    ensures "phone" in data && r.Ok? ==> r.value.phone == ValidatePhone(data["phone"]).value
    ensures "phone" in data && r.Err? ==> r.error == ValidatePhone(data["phone"]).error
    ensures "phone" !in data ==> r.Ok? && r.value.phone == u.phone
  {
    var phone := if "phone" in data then ValidatePhone(data["phone"]) else Ok(u.phone);
    match phone
    case Err(e) => Err(e)
    case Ok(p) =>
      Ok(u.(firstName := FieldOr(data, "first_name", u.firstName),
            lastName := FieldOr(data, "last_name", u.lastName),
            organization := FieldOr(data, "organization", u.organization),
            phone := p,
            openaiApiKey := if "openai_api_key" in data then Some(Strip(data["openai_api_key"])) else u.openaiApiKey))
  }

  /** Keys outside the updatable set, such as `email` or `plan`, have no effect on a profile update. */
  lemma ProfileUpdateIgnoresOtherKeys(u: User, data: map<string, string>)
    ensures ApplyProfileUpdate(u, data) == ApplyProfileUpdate(u, map k | k in data && k in UpdatableFields :: data[k])
  {
    var kept := map k | k in data && k in UpdatableFields :: data[k];
    assert forall k :: k in UpdatableFields ==> (k in kept <==> k in data);
    assert forall k :: k in UpdatableFields && k in data ==> kept[k] == data[k];
    assert FieldOr(kept, "first_name", u.firstName) == FieldOr(data, "first_name", u.firstName);
    assert FieldOr(kept, "last_name", u.lastName) == FieldOr(data, "last_name", u.lastName);
    assert FieldOr(kept, "organization", u.organization) == FieldOr(data, "organization", u.organization);
  }

  lemma ReadOnlyAndUpdatableDisjoint()
    ensures UpdatableFields * ProfileReadOnlyFields == {}
  {
  }
}
