/** Company creation and update: the role gates, the request-map setters,
    the logo size cap, the field validator with its two patterns, and the
    duplicate-email check against the store. */
module CompanyResource {
  import opened Wrappers
  import opened JavaText
  import opened Accounts

  datatype Company = Company(
    id: int,
    companyName: Option<string>,
    registrationNumber: Option<string>,
    industryId: int,
    companySize: Option<string>,
    businessAddress: Option<string>,
    phoneNumber: Option<string>,
    companyEmail: Option<string>,
    website: Option<string>,
    timeZone: Option<string>,
    logo: Option<string>)

  /** `new Company()`: every reference null, every number 0. */
  const NewCompany := Company(0, None, None, 0, None, None, None, None, None, None, None)

  /** A value of the request's JSON map. */
  datatype JValue = JStr(s: string) | JInt(i: int) | JReal(r: real) | JBool(b: bool) | JNull

  type RequestData = map<string, JValue>

  /** The request members an error can be reported under. */
  datatype Field = CompanyName | BusinessAddress | IndustryId | TimeZone | CompanyEmail | PhoneNumber | Logo

  /** The member name the error map uses as its key. */
  function Key(f: Field): string
  {
    match f
    case CompanyName => "companyName"
    case BusinessAddress => "businessAddress"
    case IndustryId => "industryId"
    case TimeZone => "timeZone"
    case CompanyEmail => "companyEmail"
    case PhoneNumber => "phoneNumber"
    case Logo => "logo"
  }

  /** The error map, keyed by field. */
  type Errors = map<Field, string>

  /** An exception that escapes the resource method. */
  datatype Exception = ClassCast | NullPointer

  datatype Reply =
    | Created(company: Company)          // 201 with the stored company
    | Updated(company: Company)          // 200 with the stored company
    | Forbidden(error: string)           // 403
    | NotFound(error: string)            // 404
    | BadRequest(errors: Errors)         // 400 with every collected error
    | ServerError(error: string)         // 500
    | Thrown(exception: Exception)       // the method did not return

  /** The store as the resource sees it: its companies, whether a read or a
      write fails with a StorageException, and the id the next insert gets. */
  datatype CompanyStore = CompanyStore(
    companies: seq<Company>,
    readFails: bool,
    writeFails: bool,
    nextId: int)

  // -----------------------------------------------------------------------
  // The two patterns

  predicate LocalChar(c: char)
  {
    IsAsciiLetter(c) || IsDigit(c) || c == '.' || c == '_' || c == '%' || c == '+' || c == '-'
  }

  predicate DomainChar(c: char)
  {
    IsAsciiLetter(c) || IsDigit(c) || c == '.' || c == '-'
  }

  predicate LocalPart(s: string)
  {
    |s| >= 1 && forall k :: 0 <= k < |s| ==> LocalChar(s[k])
  }

  predicate DomainPart(s: string)
  {
    |s| >= 1 && forall k :: 0 <= k < |s| ==> DomainChar(s[k])
  }

  predicate TopLevelPart(s: string)
  {
    |s| >= 2 && forall k :: 0 <= k < |s| ==> IsAsciiLetter(s[k])
  }

  /** The email pattern read as written: a local part, '@', a domain part,
      '.', and a top-level part of at least two letters, spanning the whole
      input. */
  ghost predicate EmailPattern(s: string)
  {
    exists i, j :: 0 <= i < j < |s| && s[i] == '@' && s[j] == '.'
      && LocalPart(s[..i]) && DomainPart(s[i + 1..j]) && TopLevelPart(s[j + 1..])
  }

  /** `s.indexOf(c)`, or None for -1. */
  function IndexOf(s: string, c: char): (r: Option<nat>)
    ensures r.Some? ==> r.value < |s|
  {
    if s == [] then None
    else if s[0] == c then Some(0)
    else match IndexOf(s[1..], c)
      case None => None
      case Some(k) => Some(k + 1)
  }

  /** `s.lastIndexOf(c)`, or None for -1. */
  function LastIndexOf(s: string, c: char): (r: Option<nat>)
    ensures r.Some? ==> r.value < |s|
  {
    if s == [] then None
    else if s[|s| - 1] == c then Some(|s| - 1)
    else LastIndexOf(s[..|s| - 1], c)
  }

  lemma {:induction false} IndexOfFindsFirst(s: string, c: char)
    ensures IndexOf(s, c).Some? ==> s[IndexOf(s, c).value] == c && c !in s[..IndexOf(s, c).value]
    ensures IndexOf(s, c).None? <==> c !in s
  {
    if s != [] && s[0] != c {
      IndexOfFindsFirst(s[1..], c);
      if IndexOf(s[1..], c).Some? {
        var k := IndexOf(s[1..], c).value;
        assert s[..k + 1] == [s[0]] + s[1..][..k];
      } else {
        assert s == [s[0]] + s[1..];
      }
    }
  }

  lemma {:induction false} LastIndexOfFindsLast(s: string, c: char)
    ensures LastIndexOf(s, c).Some? ==>
      s[LastIndexOf(s, c).value] == c && c !in s[LastIndexOf(s, c).value + 1..]
    ensures LastIndexOf(s, c).None? <==> c !in s
  {
    if s != [] && s[|s| - 1] != c {
      var init := s[..|s| - 1];
      LastIndexOfFindsLast(init, c);
      assert s == init + [s[|s| - 1]];
      if LastIndexOf(init, c).Some? {
        var k := LastIndexOf(init, c).value;
        assert s[k + 1..] == init[k + 1..] + [s[|s| - 1]];
      }
    }
  }

  /** The email pattern, decided without search: the only '@' the pattern
      admits is the first, and the only '.' it can split at is the last. */
  predicate MatchesEmail(s: string)
  {
    match IndexOf(s, '@')
    case None => false
    case Some(i) =>
      var rest := s[i + 1..];
      match LastIndexOf(rest, '.')
      case None => false
      case Some(k) => LocalPart(s[..i]) && DomainPart(rest[..k]) && TopLevelPart(rest[k + 1..])
  }

  lemma LocalPartHasNoAt(s: string)
    requires LocalPart(s)
    ensures '@' !in s
  {
    forall k | 0 <= k < |s| ensures s[k] != '@' {
      assert LocalChar(s[k]);
    }
  }

  lemma TopLevelPartHasNoDot(s: string)
    requires TopLevelPart(s)
    ensures '.' !in s
  {
    forall k | 0 <= k < |s| ensures s[k] != '.' {
      assert IsAsciiLetter(s[k]);
    }
  }

  /** Every input the search-free matcher accepts fits the pattern. */
  lemma MatchesEmailFitsPattern(s: string)
    requires MatchesEmail(s)
    ensures EmailPattern(s)
  {
    IndexOfFindsFirst(s, '@');
    var i := IndexOf(s, '@').value;
    var rest := s[i + 1..];
    LastIndexOfFindsLast(rest, '.');
    var k := LastIndexOf(rest, '.').value;
    var j := i + 1 + k;
    assert s[i + 1..j] == rest[..k];
    assert s[j + 1..] == rest[k + 1..];
    assert s[j] == rest[k];
  }

  /** Every input that fits the pattern is accepted: the pattern's '@' is the
      first one and its '.' the last one after it. */
  lemma PatternMatchesEmail(s: string, i: nat, j: nat)
    requires 0 <= i < j < |s| && s[i] == '@' && s[j] == '.'
    requires LocalPart(s[..i]) && DomainPart(s[i + 1..j]) && TopLevelPart(s[j + 1..])
    ensures MatchesEmail(s)
  {
    LocalPartHasNoAt(s[..i]);
    IndexOfFindsFirst(s, '@');
    var i0 := IndexOf(s, '@').value;
    assert i0 == i;
    var rest := s[i + 1..];
    var k := j - i - 1;
    assert rest[k] == '.';
    assert rest[k + 1..] == s[j + 1..];
    TopLevelPartHasNoDot(s[j + 1..]);
    LastIndexOfFindsLast(rest, '.');
    var k0 := LastIndexOf(rest, '.').value;
    assert k0 == k;
    assert rest[..k] == s[i + 1..j];
  }

  lemma MatchesEmailIffPattern(s: string)
    ensures MatchesEmail(s) <==> EmailPattern(s)
  {
    if MatchesEmail(s) {
      MatchesEmailFitsPattern(s);
    }
    if EmailPattern(s) {
      var i: nat, j: nat :| 0 <= i < j < |s| && s[i] == '@' && s[j] == '.'
        && LocalPart(s[..i]) && DomainPart(s[i + 1..j]) && TopLevelPart(s[j + 1..]);
      PatternMatchesEmail(s, i, j);
    }
  }

  lemma EmailAccepted()
    ensures MatchesEmail("info@acme.com")
  {
    var s := "info@acme.com";
    assert s[..4] == "info" && s[5..9] == "acme" && s[10..] == "com";
    PatternMatchesEmail(s, 4, 9);
  }

  lemma EmailShortTopLevelRefused()
    ensures !MatchesEmail("info@acme.c")
  {
    assert IndexOf("info@acme.c", '@') == Some(4);
    assert "info@acme.c"[5..] == "acme.c";
    assert LastIndexOf("acme.c", '.') == Some(4);
    assert "acme.c"[5..] == "c";
  }

  lemma EmailEmptyDomainRefused()
    ensures !MatchesEmail("a@.com")
  {
    assert IndexOf("a@.com", '@') == Some(1);
    assert "a@.com"[2..] == ".com";
    assert ".com"[..3] == ".co" && ".co"[..2] == ".c" && ".c"[..1] == ".";
    assert LastIndexOf(".com", '.') == Some(0);
  }

  lemma EmailSecondAtRefused()
    ensures !MatchesEmail("a@b@c.com")
  {
    assert IndexOf("a@b@c.com", '@') == Some(1);
    assert "a@b@c.com"[2..] == "b@c.com";
    assert "b@c.com"[..6] == "b@c.co" && "b@c.co"[..5] == "b@c.c" && "b@c.c"[..4] == "b@c.";
    assert LastIndexOf("b@c.com", '.') == Some(3);
    assert "b@c.com"[..3] == "b@c";
    assert !DomainChar("b@c"[1]);
  }

  predicate DigitRun(s: string)
  {
    10 <= |s| <= 15 && AllDigits(s)
  }

  /** The phone pattern read as written: an optional '+', then 10 to 15
      digits, spanning the whole input. */
  predicate MatchesPhone(s: string)
  {
    DigitRun(s) || (|s| > 0 && s[0] == '+' && DigitRun(s[1..]))
  }

  lemma PhoneExamples()
    ensures MatchesPhone("+250788123456") && MatchesPhone("0788123456") && MatchesPhone("123456789012345")
    ensures !MatchesPhone("123456789") && !MatchesPhone("+1234567890123456") && !MatchesPhone("0788-123456")
    ensures !MatchesPhone("++250788123456") && !MatchesPhone("")
  {
    assert !IsDigit("0788-123456"[4]);
    assert !IsDigit("++250788123456"[0]);
    assert !IsDigit("++250788123456"[1..][0]);
  }

  // -----------------------------------------------------------------------
  // validateCompany

  /** Null, or empty once trimmed. */
  predicate Blank(s: Option<string>)
  {
    s.None? || IsBlank(s.value)
  }

  /** Everything validateCompany checks holds. */
  predicate Valid(c: Company)
  {
    && !Blank(c.companyName)
    && !Blank(c.businessAddress)
    && c.industryId > 0
    && !Blank(c.timeZone)
    && !Blank(c.companyEmail) && MatchesEmail(c.companyEmail.value)
    && !Blank(c.phoneNumber) && MatchesPhone(c.phoneNumber.value)
  }

  const ValidatedFields: set<Field> :=
    {CompanyName, BusinessAddress, IndustryId, TimeZone, CompanyEmail, PhoneNumber}

  /** The message for a required text field. */
  function RequiredMessage(value: Option<string>, message: string): Option<string>
  {
    if Blank(value) then Some(message) else None
  }

  function IndustryMessage(industryId: int): Option<string>
  {
    if industryId <= 0 then Some("Industry is required") else None
  }

  function EmailMessage(email: Option<string>): Option<string>
  {
    if Blank(email) then Some("Company email is required")
    else if !MatchesEmail(email.value) then Some("Please enter a valid email address")
    else None
  }

  function PhoneMessage(phone: Option<string>): Option<string>
  {
    if Blank(phone) then Some("Phone number is required")
    else if !MatchesPhone(phone.value) then Some("Please enter a valid phone number")
    else None
  }

  /** The message validateCompany puts under `f`, if any. */
  function ValidationMessage(c: Company, f: Field): Option<string>
  {
    match f
    case CompanyName => RequiredMessage(c.companyName, "Company name is required")
    case BusinessAddress => RequiredMessage(c.businessAddress, "Business address is required")
    case IndustryId => IndustryMessage(c.industryId)
    case TimeZone => RequiredMessage(c.timeZone, "Time zone is required")
    case CompanyEmail => EmailMessage(c.companyEmail)
    case PhoneNumber => PhoneMessage(c.phoneNumber)
    case Logo => None
  }

  lemma ValidIffNoMessage(c: Company)
    ensures Valid(c) <==> forall f :: ValidationMessage(c, f).None?
  {
    if !Valid(c) {
      if Blank(c.companyName) { assert ValidationMessage(c, CompanyName).Some?; }
      else if Blank(c.businessAddress) { assert ValidationMessage(c, BusinessAddress).Some?; }
      else if c.industryId <= 0 { assert ValidationMessage(c, IndustryId).Some?; }
      else if Blank(c.timeZone) { assert ValidationMessage(c, TimeZone).Some?; }
      else if Blank(c.companyEmail) || !MatchesEmail(c.companyEmail.value) {
        assert ValidationMessage(c, CompanyEmail).Some?;
      } else { assert ValidationMessage(c, PhoneNumber).Some?; }
    }
  }

  /** The messages the checks on `fields` produce. */
  function MessagesFor(c: Company, fields: set<Field>): Errors
  {
    map f | f in fields && ValidationMessage(c, f).Some? :: ValidationMessage(c, f).value
  }

  /** The messages all the checks produce, one per failed check. */
  function Messages(c: Company): Errors
  {
    MessagesFor(c, ValidatedFields)
  }

  lemma NoMessagesIffValid(c: Company)
    ensures MessagesFor(c, ValidatedFields) == map[] <==> Valid(c)
  {
    ValidIffNoMessage(c);
    var m := MessagesFor(c, ValidatedFields);
    if Valid(c) {
      assert forall f :: f !in m;
    } else {
      var f :| ValidationMessage(c, f).Some?;
      assert f in m;
    }
  }

  /** Running one more check adds at most its own message. */
  lemma CheckOneMore(c: Company, errors: Errors, fields: set<Field>, f: Field)
    ensures errors + MessagesFor(c, fields + {f}) ==
      if ValidationMessage(c, f).Some? then (errors + MessagesFor(c, fields))[f := ValidationMessage(c, f).value]
      else errors + MessagesFor(c, fields)
  {
  }

  /** One check's effect on the error map. */
  function Note(errors: Errors, f: Field, message: Option<string>): Errors
  {
    if message.Some? then errors[f := message.value] else errors
  }

  lemma FirstChecks(c: Company, errors: Errors)
    ensures
      Note(Note(Note(errors,
        CompanyName, ValidationMessage(c, CompanyName)),
        BusinessAddress, ValidationMessage(c, BusinessAddress)),
        IndustryId, ValidationMessage(c, IndustryId))
      == errors + MessagesFor(c, {CompanyName, BusinessAddress, IndustryId})
  {
    var partial := errors;
    var checked: set<Field> := {};
    assert Note(partial, CompanyName, ValidationMessage(c, CompanyName)) == errors + MessagesFor(c, checked + {CompanyName}) by {
      CheckOneMore(c, errors, checked, CompanyName);
    }
    partial := Note(partial, CompanyName, ValidationMessage(c, CompanyName));
    checked := checked + {CompanyName};
    assert Note(partial, BusinessAddress, ValidationMessage(c, BusinessAddress)) == errors + MessagesFor(c, checked + {BusinessAddress}) by {
      CheckOneMore(c, errors, checked, BusinessAddress);
    }
    partial := Note(partial, BusinessAddress, ValidationMessage(c, BusinessAddress));
    checked := checked + {BusinessAddress};
    assert Note(partial, IndustryId, ValidationMessage(c, IndustryId)) == errors + MessagesFor(c, checked + {IndustryId}) by {
      CheckOneMore(c, errors, checked, IndustryId);
    }
    partial := Note(partial, IndustryId, ValidationMessage(c, IndustryId));
    checked := checked + {IndustryId};
    assert checked == {CompanyName, BusinessAddress, IndustryId};
  }

  lemma LastChecks(c: Company, errors: Errors)
    ensures
      Note(Note(Note(errors + MessagesFor(c, {CompanyName, BusinessAddress, IndustryId}),
        TimeZone, ValidationMessage(c, TimeZone)),
        CompanyEmail, ValidationMessage(c, CompanyEmail)),
        PhoneNumber, ValidationMessage(c, PhoneNumber))
      == errors + MessagesFor(c, ValidatedFields)
  {
    var partial := errors + MessagesFor(c, {CompanyName, BusinessAddress, IndustryId});
    var checked: set<Field> := {CompanyName, BusinessAddress, IndustryId};
    assert Note(partial, TimeZone, ValidationMessage(c, TimeZone)) == errors + MessagesFor(c, checked + {TimeZone}) by {
      CheckOneMore(c, errors, checked, TimeZone);
    }
    partial := Note(partial, TimeZone, ValidationMessage(c, TimeZone));
    checked := checked + {TimeZone};
    assert Note(partial, CompanyEmail, ValidationMessage(c, CompanyEmail)) == errors + MessagesFor(c, checked + {CompanyEmail}) by {
      CheckOneMore(c, errors, checked, CompanyEmail);
    }
    partial := Note(partial, CompanyEmail, ValidationMessage(c, CompanyEmail));
    checked := checked + {CompanyEmail};
    assert Note(partial, PhoneNumber, ValidationMessage(c, PhoneNumber)) == errors + MessagesFor(c, checked + {PhoneNumber}) by {
      CheckOneMore(c, errors, checked, PhoneNumber);
    }
    partial := Note(partial, PhoneNumber, ValidationMessage(c, PhoneNumber));
    checked := checked + {PhoneNumber};
    assert checked == ValidatedFields;
  }

  /** The checks run one after another amount to merging all their messages
      over the incoming map. */
  lemma NotesAreMessages(c: Company, errors: Errors, noted: Errors)
    requires noted ==
      Note(Note(Note(Note(Note(Note(errors,
        CompanyName, ValidationMessage(c, CompanyName)),
        BusinessAddress, ValidationMessage(c, BusinessAddress)),
        IndustryId, ValidationMessage(c, IndustryId)),
        TimeZone, ValidationMessage(c, TimeZone)),
        CompanyEmail, ValidationMessage(c, CompanyEmail)),
        PhoneNumber, ValidationMessage(c, PhoneNumber))
    ensures noted == errors + Messages(c)
  {
    FirstChecks(c, errors);
    LastChecks(c, errors);
  }

  lemma MergedEmpty(c: Company, errors: Errors)
    ensures errors + Messages(c) == map[] <==> errors == map[] && Valid(c)
  {
    NoMessagesIffValid(c);
    if errors != map[] {
      var f :| f in errors;
      assert f in errors + Messages(c);
    }
  }

  /** A required text check: the message goes in when the value is blank. */
  method RequireText(errors: Errors, f: Field, value: Option<string>, message: string) returns (result: Errors)
    ensures result == Note(errors, f, RequiredMessage(value, message))
  {
    result := errors;
    if Blank(value) {
      result := result[f := message];
    }
  }

  method RequireIndustry(errors: Errors, industryId: int) returns (result: Errors)
    ensures result == Note(errors, IndustryId, IndustryMessage(industryId))
  {
    result := errors;
    if industryId <= 0 {
      result := result[IndustryId := "Industry is required"];
    }
  }

  method CheckEmail(errors: Errors, email: Option<string>) returns (result: Errors)
    ensures result == Note(errors, CompanyEmail, EmailMessage(email))
  {
    result := errors;
    if Blank(email) {
      result := result[CompanyEmail := "Company email is required"];
    } else if !MatchesEmail(email.value) {
      result := result[CompanyEmail := "Please enter a valid email address"];
    }
  }

  method CheckPhone(errors: Errors, phone: Option<string>) returns (result: Errors)
    ensures result == Note(errors, PhoneNumber, PhoneMessage(phone))
  {
    result := errors;
    if Blank(phone) {
      result := result[PhoneNumber := "Phone number is required"];
    } else if !MatchesPhone(phone.value) {
      result := result[PhoneNumber := "Please enter a valid phone number"];
    }
  }

  /** validateCompany: each failed check puts its message under its own key,
      replacing what was there; every other entry is left as it was. */
  method ValidateCompany(company: Company, errors: Errors) returns (result: Errors)
    ensures result == errors + Messages(company)
    ensures result == map[] <==> errors == map[] && Valid(company)
  {
    result := RequireText(errors, CompanyName, company.companyName, "Company name is required");
    result := RequireText(result, BusinessAddress, company.businessAddress, "Business address is required");
    result := RequireIndustry(result, company.industryId);
    result := RequireText(result, TimeZone, company.timeZone, "Time zone is required");
    result := CheckEmail(result, company.companyEmail);
    result := CheckPhone(result, company.phoneNumber);
    NotesAreMessages(company, errors, result);
    MergedEmpty(company, errors);
  }

  // -----------------------------------------------------------------------
  // The setter block shared by create and update

  /** `(String) data.get(key)` for a present key. */
  function CastString(v: JValue): Result<Option<string>, Exception>
  {
    match v
    case JStr(s) => Success(Some(s))
    case JNull => Success(None)
    case _ => Failure(ClassCast)
  }

  /** What a string setter leaves in the field: the cast value when the key
      is present, the current value otherwise. */
  function Assigned(data: RequestData, key: string, current: Option<string>): Result<Option<string>, Exception>
  {
    if key in data then CastString(data[key]) else Success(current)
  }

  /** `((Number) data.get("industryId")).intValue()`: a number narrowed to
      int (an integer keeps its low 32 bits, a fraction is truncated and
      saturated); None when the value is not a number. */
  function IndustryNumber(v: JValue): Result<Option<int>, Exception>
  {
    match v
    case JInt(i) => Success(Some(Wrap32(i)))
    case JReal(r) => Success(Some(DoubleToInt(r)))
    case JNull => Failure(NullPointer)
    case _ => Success(None)
  }

  const MAX_LOGO_SIZE := 2 * 1024 * 1024

  /** The logo check: longer than MAX_LOGO_SIZE * 1.33 characters. */
  predicate LogoTooLarge(logo: string)
  {
    (|logo| as real) > (MAX_LOGO_SIZE as real) * 1.33
  }

  lemma LogoLimit(logo: string)
    ensures LogoTooLarge(logo) <==> |logo| > 2789212
  {
  }

  /** Some present member among `keys` holds a value that is neither a
      string nor null, so its cast throws. */
  predicate TextCastFails(data: RequestData, keys: set<string>)
  {
    exists k :: k in keys && k in data && CastString(data[k]).Failure?
  }

  /** The string members set before industryId, and those set after it. */
  const LeadingKeys: set<string> := {"companyName", "registrationNumber"}
  const TrailingKeys: set<string> :=
    {"companySize", "businessAddress", "phoneNumber", "companyEmail", "website", "timeZone"}

  method AssignLeading(company: Company, data: RequestData) returns (r: Result<Company, Exception>)
    ensures r.Failure? <==> TextCastFails(data, LeadingKeys)
    ensures r.Success? ==>
      && Success(r.value.companyName) == Assigned(data, "companyName", company.companyName)
      && Success(r.value.registrationNumber) == Assigned(data, "registrationNumber", company.registrationNumber)
      && r.value == company.(companyName := r.value.companyName, registrationNumber := r.value.registrationNumber)
  {
    var name := Assigned(data, "companyName", company.companyName);
    if name.Failure? { return Failure(ClassCast); }
    var registration := Assigned(data, "registrationNumber", company.registrationNumber);
    if registration.Failure? { return Failure(ClassCast); }
    return Success(company.(companyName := name.value, registrationNumber := registration.value));
  }

  method AssignTrailing(company: Company, data: RequestData) returns (r: Result<Company, Exception>)
    ensures r.Failure? <==> TextCastFails(data, TrailingKeys)
    ensures r.Success? ==>
      && Success(r.value.companySize) == Assigned(data, "companySize", company.companySize)
      && Success(r.value.businessAddress) == Assigned(data, "businessAddress", company.businessAddress)
      && Success(r.value.phoneNumber) == Assigned(data, "phoneNumber", company.phoneNumber)
      && Success(r.value.companyEmail) == Assigned(data, "companyEmail", company.companyEmail)
      && Success(r.value.website) == Assigned(data, "website", company.website)
      && Success(r.value.timeZone) == Assigned(data, "timeZone", company.timeZone)
      && r.value == company.(companySize := r.value.companySize, businessAddress := r.value.businessAddress,
                             phoneNumber := r.value.phoneNumber, companyEmail := r.value.companyEmail,
                             website := r.value.website, timeZone := r.value.timeZone)
  {
    var size := Assigned(data, "companySize", company.companySize);
    if size.Failure? { return Failure(ClassCast); }
    var address := Assigned(data, "businessAddress", company.businessAddress);
    if address.Failure? { return Failure(ClassCast); }
    var phone := Assigned(data, "phoneNumber", company.phoneNumber);
    if phone.Failure? { return Failure(ClassCast); }
    var email := Assigned(data, "companyEmail", company.companyEmail);
    if email.Failure? { return Failure(ClassCast); }
    var website := Assigned(data, "website", company.website);
    if website.Failure? { return Failure(ClassCast); }
    var zone := Assigned(data, "timeZone", company.timeZone);
    if zone.Failure? { return Failure(ClassCast); }
    return Success(company.(companySize := size.value, businessAddress := address.value, phoneNumber := phone.value,
                            companyEmail := email.value, website := website.value, timeZone := zone.value));
  }

  /** The logo member is present, not null, and not a string. */
  predicate LogoCastFails(data: RequestData)
  {
    "logo" in data && data["logo"] != JNull && !data["logo"].JStr?
  }

  /** Some setter's cast throws, so the resource method does not return. */
  predicate SettersThrow(data: RequestData)
  {
    || TextCastFails(data, LeadingKeys)
    || ("industryId" in data && data["industryId"] == JNull)
    || TextCastFails(data, TrailingKeys)
    || LogoCastFails(data)
  }

  /** `c` is `base` with every member the request carries applied: the
      strings as given, a numeric industryId narrowed to int, and a logo
      within the size cap. */
  predicate FromRequest(base: Company, data: RequestData, c: Company)
  {
    && c.id == base.id
    && Success(c.companyName) == Assigned(data, "companyName", base.companyName)
    && Success(c.registrationNumber) == Assigned(data, "registrationNumber", base.registrationNumber)
    && Success(c.companySize) == Assigned(data, "companySize", base.companySize)
    && Success(c.businessAddress) == Assigned(data, "businessAddress", base.businessAddress)
    && Success(c.phoneNumber) == Assigned(data, "phoneNumber", base.phoneNumber)
    && Success(c.companyEmail) == Assigned(data, "companyEmail", base.companyEmail)
    && Success(c.website) == Assigned(data, "website", base.website)
    && Success(c.timeZone) == Assigned(data, "timeZone", base.timeZone)
    && c.industryId == (if "industryId" in data && IndustryNumber(data["industryId"]).Success? && IndustryNumber(data["industryId"]).value.Some?
                        then IndustryNumber(data["industryId"]).value.value else base.industryId)
    && c.logo == (if "logo" in data && data["logo"].JStr? && !LogoTooLarge(data["logo"].s)
                  then Some(data["logo"].s) else base.logo)
  }

  /** The request's industryId is present but not a number. */
  predicate IndustryNotNumber(data: RequestData)
  {
    "industryId" in data && IndustryNumber(data["industryId"]) == Success(None)
  }

  /** The request's logo is a string over the size cap. */
  predicate LogoOversize(data: RequestData)
  {
    "logo" in data && data["logo"].JStr? && LogoTooLarge(data["logo"].s)
  }

  /** The setters report a non-numeric industryId and an oversized logo, and nothing else. */
  predicate SetterErrors(data: RequestData, errors: Errors)
  {
    && errors.Keys <= {IndustryId, Logo}
    && (IndustryId in errors <==> IndustryNotNumber(data))
    && (IndustryId in errors ==> errors[IndustryId] == "Industry ID must be a number")
    && (Logo in errors <==> LogoOversize(data))
    && (Logo in errors ==> errors[Logo] == "Logo file size exceeds the maximum allowed (2MB)")
  }

  /** The exception the first failing setter throws. */
  function ThrownBy(data: RequestData): Exception
  {
    if TextCastFails(data, LeadingKeys) then ClassCast
    else if "industryId" in data && data["industryId"] == JNull then NullPointer
    else ClassCast
  }

  /** A string member's value after its setter, when the cast succeeds. */
  function TextAfter(data: RequestData, key: string, current: Option<string>): Option<string>
  {
    match Assigned(data, key, current)
    case Success(v) => v
    case Failure(_) => current
  }

  /** The company the setters leave behind when none of them throws. */
  function Applied(base: Company, data: RequestData): Company
  {
    base.(
      companyName := TextAfter(data, "companyName", base.companyName),
      registrationNumber := TextAfter(data, "registrationNumber", base.registrationNumber),
      industryId :=
        if "industryId" in data && IndustryNumber(data["industryId"]).Success? && IndustryNumber(data["industryId"]).value.Some?
        then IndustryNumber(data["industryId"]).value.value else base.industryId,
      companySize := TextAfter(data, "companySize", base.companySize),
      businessAddress := TextAfter(data, "businessAddress", base.businessAddress),
      phoneNumber := TextAfter(data, "phoneNumber", base.phoneNumber),
      companyEmail := TextAfter(data, "companyEmail", base.companyEmail),
      website := TextAfter(data, "website", base.website),
      timeZone := TextAfter(data, "timeZone", base.timeZone),
      logo := if LogoStored(data) then Some(data["logo"].s) else base.logo)
  }

  /** The request's logo is a string within the size cap. */
  predicate LogoStored(data: RequestData)
  {
    "logo" in data && data["logo"].JStr? && !LogoTooLarge(data["logo"].s)
  }

  /** The errors the setters report. */
  function SetterErrorsOf(data: RequestData): Errors
  {
    var industry: Errors := if IndustryNotNumber(data) then map[IndustryId := "Industry ID must be a number"] else map[];
    if LogoOversize(data) then industry[Logo := "Logo file size exceeds the maximum allowed (2MB)"] else industry
  }

  /** The company the setters build is the one the request describes, and the
      only one. */
  lemma AppliedFromRequest(base: Company, data: RequestData, c: Company)
    requires !SettersThrow(data)
    ensures FromRequest(base, data, c) <==> c == Applied(base, data)
  {
  }

  lemma SetterErrorsOfData(data: RequestData)
    ensures SetterErrors(data, SetterErrorsOf(data))
    ensures SetterErrorsOf(data) == map[] <==> !IndustryNotNumber(data) && !LogoOversize(data)
  {
    if IndustryNotNumber(data) {
      assert IndustryId in SetterErrorsOf(data);
    }
  }

  /** The setters' effect on a company and the error map, or the exception
      one of the casts throws. */
  method ApplyData(company: Company, data: RequestData) returns (r: Result<(Company, Errors), Exception>)
    ensures r.Failure? <==> SettersThrow(data)
    ensures r.Failure? ==> r.error == ThrownBy(data)
    ensures r.Success? ==> r.value == (Applied(company, data), SetterErrorsOf(data))
  {
    var errors: Errors := map[];
    var leading := AssignLeading(company, data);
    if leading.Failure? { return Failure(ClassCast); }
    var c := leading.value;
    if "industryId" in data {
      var industry := IndustryNumber(data["industryId"]);
      if industry.Failure? { return Failure(NullPointer); }
      if industry.value.Some? {
        c := c.(industryId := industry.value.value);
      } else {
        errors := errors[IndustryId := "Industry ID must be a number"];
      }
    }
    var trailing := AssignTrailing(c, data);
    if trailing.Failure? { return Failure(ClassCast); }
    c := trailing.value;
    if "logo" in data && data["logo"] != JNull {
      if !data["logo"].JStr? { return Failure(ClassCast); }
      var logoData := data["logo"].s;
      if LogoTooLarge(logoData) {
        errors := errors[Logo := "Logo file size exceeds the maximum allowed (2MB)"];
      } else {
        c := c.(logo := Some(logoData));
      }
    }
    r := Success((c, errors));
  }

  // -----------------------------------------------------------------------
  // The store

  /** A row that the duplicate query returns: same email, and a different
      id when `except` names one. */
  predicate Clashes(row: Company, email: string, except: Option<int>)
  {
    row.companyEmail == Some(email) && (except.None? || row.id != except.value)
  }

  /** The rows the duplicate-email query returns, in store order. */
  function WithEmail(companies: seq<Company>, email: string, except: Option<int>): (r: seq<Company>)
    ensures |r| <= |companies|
    ensures forall row :: row in r <==> row in companies && Clashes(row, email, except)
  {
    if companies == [] then []
    else
      var rest := WithEmail(companies[1..], email, except);
      assert companies == [companies[0]] + companies[1..];
      if Clashes(companies[0], email, except) then [companies[0]] + rest else rest
  }

  /** Some other row already holds the email. */
  predicate EmailTaken(companies: seq<Company>, email: string, except: Option<int>)
  {
    exists row :: row in companies && Clashes(row, email, except)
  }

  /** `getObject` by id: the first row with that id. */
  function FindCompany(companies: seq<Company>, id: int): (r: Option<Company>)
    ensures r.Some? ==> r.value in companies && r.value.id == id
    ensures r.None? <==> forall row :: row in companies ==> row.id != id
  {
    if companies == [] then None
    else if companies[0].id == id then Some(companies[0])
    else
      assert companies == [companies[0]] + companies[1..];
      FindCompany(companies[1..], id)
  }

  /** `updateObject`: every row with the company's id takes its values. */
  function ReplaceRow(companies: seq<Company>, c: Company): (r: seq<Company>)
    ensures |r| == |companies|
    ensures forall i :: 0 <= i < |r| ==> r[i] == if companies[i].id == c.id then c else companies[i]
  {
    seq(|companies|, i requires 0 <= i < |companies| => if companies[i].id == c.id then c else companies[i])
  }

  // -----------------------------------------------------------------------
  // Creating and updating

  predicate CanCreate(user: User)
  {
    user.role == SuperUser || user.role == Admin
  }

  predicate CanUpdate(user: User, id: int)
  {
    user.role == SuperUser || (user.role == Admin && user.companyId == id)
  }

  /** The setter errors, the validator's messages, and the duplicate-email
      message when `taken`, merged in that order. */
  function RequestErrors(c: Company, setterErrors: Errors, taken: bool): Errors
  {
    var validated := setterErrors + Messages(c);
    if taken then validated[CompanyEmail := "This email address is already in use"] else validated
  }

  /** The duplicate check runs only for a non-null, non-empty email; it is
      not trimmed. */
  predicate ChecksDuplicate(c: Company)
  {
    c.companyEmail.Some? && c.companyEmail.value != []
  }

  /** The check finds another row holding the email. */
  predicate Duplicate(store: CompanyStore, c: Company, except: Option<int>)
  {
    ChecksDuplicate(c) && EmailTaken(store.companies, c.companyEmail.value, except)
  }

  /** Validation followed by the duplicate-email query, shared by create
      and update; None when the query throws. */
  method CheckRequest(store: CompanyStore, c: Company, setterErrors: Errors, except: Option<int>)
    returns (r: Option<Errors>)
    ensures r.None? <==> ChecksDuplicate(c) && store.readFails
    ensures r.Some? ==> r.value == RequestErrors(c, setterErrors, Duplicate(store, c, except))
  {
    var errors := ValidateCompany(c, setterErrors);
    if c.companyEmail.Some? && c.companyEmail.value != [] {
      if store.readFails {
        return None;
      }
      var existing := WithEmail(store.companies, c.companyEmail.value, except);
      if existing != [] {
        assert existing[0] in existing;
        errors := errors[CompanyEmail := "This email address is already in use"];
      }
    }
    return Some(errors);
  }

  /** No error of any kind: the setters, the validator and the duplicate
      check all pass. */
  lemma RequestErrorsEmpty(c: Company, setterErrors: Errors, taken: bool)
    ensures RequestErrors(c, setterErrors, taken) == map[] <==> setterErrors == map[] && Valid(c) && !taken
  {
    MergedEmpty(c, setterErrors);
    if taken {
      assert CompanyEmail in RequestErrors(c, setterErrors, taken);
    }
  }

  /** A valid company's email is not blank, so the duplicate check runs. */
  lemma ValidChecksDuplicate(c: Company)
    requires Valid(c)
    ensures ChecksDuplicate(c)
  {
  }

  /** The steps create and update share once the caller is allowed and the
      base company is known: the setters, validation, the duplicate query,
      the error reply and the write. Success carries the company to write. */
  function SubmitSpec(base: Company, data: RequestData, store: CompanyStore, except: Option<int>, writeError: string)
    : Result<Company, Reply>
  {
    if SettersThrow(data) then Failure(Thrown(ThrownBy(data)))
    else
      var c := Applied(base, data);
      if ChecksDuplicate(c) && store.readFails then Failure(ServerError("Database error"))
      else
        var errors := RequestErrors(c, SetterErrorsOf(data), Duplicate(store, c, except));
        if errors != map[] then Failure(BadRequest(errors))
        else if store.writeFails then Failure(ServerError(writeError))
        else Success(c)
  }

  method Submit(base: Company, data: RequestData, store: CompanyStore, except: Option<int>, writeError: string)
    returns (r: Result<Company, Reply>)
    ensures r == SubmitSpec(base, data, store, except, writeError)
  {
    var applied := ApplyData(base, data);
    if applied.Failure? {
      return Failure(Thrown(applied.error));
    }
    var (company, setterErrors) := applied.value;
    var checked := CheckRequest(store, company, setterErrors, except);
    if checked.None? {
      return Failure(ServerError("Database error"));
    }
    var errors := checked.value;
    if errors != map[] {
      return Failure(BadRequest(errors));
    }
    if store.writeFails {
      return Failure(ServerError(writeError));
    }
    return Success(company);
  }

  /** The reply and the store after createCompany. */
  function CreateSpec(user: User, data: RequestData, store: CompanyStore): (Reply, CompanyStore)
  {
    if !CanCreate(user) then (Forbidden("Administrator access required"), store)
    else match SubmitSpec(NewCompany, data, store, None, "Failed to create company")
      case Failure(reply) => (reply, store)
      case Success(c) =>
        var stored := c.(id := store.nextId);
        (Created(stored), store.(companies := store.companies + [stored], nextId := store.nextId + 1))
  }

  /** createCompany. */
  method CreateCompany(user: User, data: RequestData, store: CompanyStore) returns (reply: Reply, after: CompanyStore)
    ensures (reply, after) == CreateSpec(user, data, store)
  {
    after := store;
    if user.role != SuperUser && user.role != Admin {
      return Forbidden("Administrator access required"), after;
    }
    var submitted := Submit(NewCompany, data, store, None, "Failed to create company");
    if submitted.Failure? {
      return submitted.error, after;
    }
    var company := submitted.value.(id := store.nextId);
    after := store.(companies := store.companies + [company], nextId := store.nextId + 1);
    reply := Created(company);
  }

  /** Only a super user or an administrator gets past the gate. */
  lemma CreateForbidden(user: User, data: RequestData, store: CompanyStore)
    ensures CreateSpec(user, data, store).0.Forbidden? <==> user.role != SuperUser && user.role != Admin
  {
  }

  /** A company is created exactly when the caller may create, no setter
      throws or reports an error, the result is valid, its email is unused,
      and the store does not fail; the stored row is the request's company
      under the id the store assigns, appended to the table. */
  lemma {:induction false} CreatedIffAcceptable(user: User, data: RequestData, store: CompanyStore)
    ensures
      var (reply, after) := CreateSpec(user, data, store);
      && (reply.Created? <==>
          CanCreate(user) && !SettersThrow(data) && !store.readFails && !store.writeFails
          && SetterErrorsOf(data) == map[] && Valid(Applied(NewCompany, data))
          && !EmailTaken(store.companies, Applied(NewCompany, data).companyEmail.value, None))
      && (reply.Created? ==>
          && reply.company == Applied(NewCompany, data).(id := store.nextId)
          && FromRequest(NewCompany, data, reply.company.(id := 0))
          && Valid(reply.company)
          && after.companies == store.companies + [reply.company])
      && (!reply.Created? ==> after == store)
  {
    if CanCreate(user) && !SettersThrow(data) {
      var c := Applied(NewCompany, data);
      AppliedFromRequest(NewCompany, data, c);
      RequestErrorsEmpty(c, SetterErrorsOf(data), Duplicate(store, c, None));
      if Valid(c) {
        ValidChecksDuplicate(c);
      }
      assert c.(id := store.nextId).(id := 0) == c;
    }
  }

  /** A rejected request reports at least one error, and nothing passes
      with an error recorded. */
  lemma SubmitBadRequest(base: Company, data: RequestData, store: CompanyStore, except: Option<int>, writeError: string)
    ensures
      var r := SubmitSpec(base, data, store, except, writeError);
      && (r.Failure? && r.error.BadRequest? ==> r.error.errors != map[])
      && (r.Success? ==> !IndustryNotNumber(data) && !LogoOversize(data))
  {
    SetterErrorsOfData(data);
    if !SettersThrow(data) {
      var c := Applied(base, data);
      RequestErrorsEmpty(c, SetterErrorsOf(data), Duplicate(store, c, except));
    }
  }

  /** A non-numeric industryId leaves the base value in place, so its
      message survives only when that value is positive; otherwise the
      validator's "Industry is required" replaces it. */
  lemma {:induction false} SubmitIndustryMessage(base: Company, data: RequestData, store: CompanyStore, except: Option<int>, writeError: string)
    ensures
      var r := SubmitSpec(base, data, store, except, writeError);
      r.Failure? && r.error.BadRequest? && IndustryNotNumber(data) ==>
        IndustryId in r.error.errors
        && r.error.errors[IndustryId] == if base.industryId <= 0 then "Industry is required" else "Industry ID must be a number"
  {
    if !SettersThrow(data) && IndustryNotNumber(data) {
      var c := Applied(base, data);
      assert c.industryId == base.industryId;
      RequestErrorsIndustry(c, SetterErrorsOf(data), Duplicate(store, c, except));
    }
  }

  /** An oversized logo is always reported, and never stored. */
  lemma {:induction false} SubmitLogoMessage(base: Company, data: RequestData, store: CompanyStore, except: Option<int>, writeError: string)
    ensures
      var r := SubmitSpec(base, data, store, except, writeError);
      r.Failure? && r.error.BadRequest? && LogoOversize(data) ==>
        Logo in r.error.errors && r.error.errors[Logo] == "Logo file size exceeds the maximum allowed (2MB)"
  {
    if !SettersThrow(data) {
      assert Logo !in Messages(Applied(base, data));
    }
  }

  /** A setter error on industryId survives validation only when the
      company's industryId is positive. */
  lemma RequestErrorsIndustry(c: Company, setterErrors: Errors, taken: bool)
    requires IndustryId in setterErrors
    ensures IndustryId in RequestErrors(c, setterErrors, taken)
    ensures RequestErrors(c, setterErrors, taken)[IndustryId] ==
      if c.industryId <= 0 then "Industry is required" else setterErrors[IndustryId]
  {
    assert IndustryMessage(c.industryId).Some? ==> IndustryId in Messages(c);
  }

  /** On create the base industryId is 0, so a non-numeric industryId is
      always reported as "Industry is required". */
  lemma CreateIndustryRequired(user: User, data: RequestData, store: CompanyStore)
    ensures
      var reply := CreateSpec(user, data, store).0;
      reply.BadRequest? && IndustryNotNumber(data) ==>
        IndustryId in reply.errors && reply.errors[IndustryId] == "Industry is required"
  {
    SubmitIndustryMessage(NewCompany, data, store, None, "Failed to create company");
  }

  /** The reply and the store after updateCompany. */
  function UpdateSpec(user: User, id: int, data: RequestData, store: CompanyStore): (Reply, CompanyStore)
  {
    if !CanUpdate(user, id) then (Forbidden("Company access denied"), store)
    else if store.readFails then (ServerError("Database error"), store)
    else match FindCompany(store.companies, id)
      case None => (NotFound("Company not found"), store)
      case Some(existing) =>
        match SubmitSpec(existing, data, store, Some(id), "Failed to update company")
        case Failure(reply) => (reply, store)
        case Success(c) => (Updated(c), store.(companies := ReplaceRow(store.companies, c)))
  }

  /** updateCompany. */
  method UpdateCompany(user: User, id: int, data: RequestData, store: CompanyStore)
    returns (reply: Reply, after: CompanyStore)
    ensures (reply, after) == UpdateSpec(user, id, data, store)
  {
    after := store;
    if user.role != SuperUser && (user.role != Admin || user.companyId != id) {
      return Forbidden("Company access denied"), after;
    }
    if store.readFails {
      return ServerError("Database error"), after;
    }
    var found := FindCompany(store.companies, id);
    if found.None? {
      return NotFound("Company not found"), after;
    }
    var submitted := Submit(found.value, data, store, Some(id), "Failed to update company");
    if submitted.Failure? {
      return submitted.error, after;
    }
    after := store.(companies := ReplaceRow(store.companies, submitted.value));
    reply := Updated(submitted.value);
  }

  /** A super user may update any company; an administrator only their own. */
  lemma UpdateForbidden(user: User, id: int, data: RequestData, store: CompanyStore)
    ensures UpdateSpec(user, id, data, store).0.Forbidden? <==>
      user.role != SuperUser && (user.role != Admin || user.companyId != id)
  {
  }

  /** The update succeeds exactly when the caller may update, the company
      exists, no setter throws or reports an error, the result is valid, no
      other company holds its email, and the store does not fail; the row
      with that id then takes the request's members. */
  lemma {:induction false} UpdatedIffAcceptable(user: User, id: int, data: RequestData, store: CompanyStore)
    ensures
      var (reply, after) := UpdateSpec(user, id, data, store);
      var existing := FindCompany(store.companies, id);
      && (reply.NotFound? <==> CanUpdate(user, id) && !store.readFails && existing.None?)
      && (reply.Updated? <==>
          CanUpdate(user, id) && !store.readFails && !store.writeFails && existing.Some? && !SettersThrow(data)
          && SetterErrorsOf(data) == map[] && Valid(Applied(existing.value, data))
          && !EmailTaken(store.companies, Applied(existing.value, data).companyEmail.value, Some(id)))
      && (reply.Updated? ==>
          && reply.company.id == id
          && FromRequest(existing.value, data, reply.company)
          && Valid(reply.company)
          && after.companies == ReplaceRow(store.companies, reply.company))
      && (!reply.Updated? ==> after == store)
  {
    var existing := FindCompany(store.companies, id);
    if CanUpdate(user, id) && !store.readFails && existing.Some? && !SettersThrow(data) {
      var c := Applied(existing.value, data);
      AppliedFromRequest(existing.value, data, c);
      RequestErrorsEmpty(c, SetterErrorsOf(data), Duplicate(store, c, Some(id)));
      if Valid(c) {
        ValidChecksDuplicate(c);
      }
    }
  }
}
