/** The request objects `CreateMessageDTO` and `RegisterUserDTO`: how
    `fromArray` builds them from a decoded JSON body, and the validation
    constraints on their fields as predicates. A request is valid when
    every constraint holds. */
module Dtos {
  import opened Wrappers
  import opened Text

  /** A value of the decoded request body. */
  datatype JsonValue = JNull | JString(s: string) | JOther

  datatype CreateMessageDto = CreateMessageDto(message: string)
  datatype RegisterUserDto = RegisterUserDto(email: string, password: string, name: string)

  /** The TypeError a constructor under strict types raises for a
      parameter that is given a value that is not a string. */
  function TypeError(parameter: string): string {
    "Argument ($" + parameter + ") must be of type string"
  }

  /** `$data[key] ?? ''`, passed to a `string` parameter: a missing key or
      a null gives the empty string, a string is copied, anything else is
      refused. */
  function Field(data: map<string, JsonValue>, key: string): (r: Call<string>)
    ensures key !in data || data[key] == JNull ==> r == Returns("")
    ensures key in data && data[key].JString? ==> r == Returns(data[key].s)
    ensures r.Throws? <==> key in data && data[key] == JOther
  {
    if key !in data then Returns("")
    else match data[key]
      case JNull => Returns("")
      case JString(s) => Returns(s)
      case JOther => Throws(TypeError(key))
  }

  /** `CreateMessageDTO::fromArray`. */
  function CreateMessageFromArray(data: map<string, JsonValue>): (r: Call<CreateMessageDto>)
    ensures r.Returns? <==> Field(data, "message").Returns?
    ensures r.Returns? ==> r.value.message == Field(data, "message").value
  {
    match Field(data, "message")
    case Returns(m) => Returns(CreateMessageDto(m))
    case Throws(e) => Throws(e)
  }

  /** `RegisterUserDTO::fromArray`: the first field, in parameter order,
      that is not a string is the one refused. */
  function RegisterUserFromArray(data: map<string, JsonValue>): (r: Call<RegisterUserDto>)
    ensures r.Returns? <==>
      Field(data, "email").Returns? && Field(data, "password").Returns? && Field(data, "name").Returns?
    ensures r.Returns? ==> r.value == RegisterUserDto(
      Field(data, "email").value, Field(data, "password").value, Field(data, "name").value)
  {
    match (Field(data, "email"), Field(data, "password"), Field(data, "name"))
    case (Returns(e), Returns(p), Returns(n)) => Returns(RegisterUserDto(e, p, n))
    case (Throws(err), _, _) => Throws(err)
    case (_, Throws(err), _) => Throws(err)
    case (_, _, Throws(err)) => Throws(err)
  }

  /** A request as the frontend sends it. */
  function CreateMessageBody(dto: CreateMessageDto): map<string, JsonValue> {
    map["message" := JString(dto.message)]
  }

  function RegisterUserBody(dto: RegisterUserDto): map<string, JsonValue> {
    map["email" := JString(dto.email), "password" := JString(dto.password), "name" := JString(dto.name)]
  }

  /** Reading back a body built from a request gives the request. */
  lemma CreateMessageRoundTrip(dto: CreateMessageDto)
    ensures CreateMessageFromArray(CreateMessageBody(dto)) == Returns(dto)
  {
  }

  lemma RegisterUserRoundTrip(dto: RegisterUserDto)
    ensures RegisterUserFromArray(RegisterUserBody(dto)) == Returns(dto)
  {
    var body := RegisterUserBody(dto);
    assert body["email"] == JString(dto.email);
    assert body["password"] == JString(dto.password);
    assert body["name"] == JString(dto.name);
  }

  /** An empty body gives empty fields. */
  lemma EmptyBody()
    ensures CreateMessageFromArray(map[]) == Returns(CreateMessageDto(""))
    ensures RegisterUserFromArray(map[]) == Returns(RegisterUserDto("", "", ""))
  {
  }

  // ---------------------------------------------------------------------
  // Constraints

  /** `NotBlank` on a string: anything but the empty string. Whitespace
      alone is not blank, since no normalizer is configured. */
  predicate NotBlank(s: string) {
    s != ""
  }

  /** `Length(min: lo, max: hi)`, counting characters. */
  predicate LengthBetween(s: string, lo: nat, hi: nat) {
    lo <= |s| <= hi
  }

  /** The characters of the class `[@$!%*?&]`. */
  const Specials: set<char> := {'@', '$', '!', '%', '*', '?', '&'}

  predicate PasswordChar(c: char) {
    IsLower(c) || IsUpper(c) || IsDigit(c) || c in Specials
  }

  /** The pattern `^(?=.*[a-z])(?=.*[A-Z])(?=.*\d)(?=.*[@$!%*?&])[A-Za-z\d@$!%*?&]{8,}`
      matched against all of `t`. */
  predicate PasswordBody(t: string) {
    && |t| >= 8
    && (forall i :: 0 <= i < |t| ==> PasswordChar(t[i]))
    && (exists i :: 0 <= i < |t| && IsLower(t[i]))
    && (exists i :: 0 <= i < |t| && IsUpper(t[i]))
    && (exists i :: 0 <= i < |t| && IsDigit(t[i]))
    && (exists i :: 0 <= i < |t| && t[i] in Specials)
  }

  /** The password `Regex` constraint. PCRE's `$` without the `D` modifier
      also matches before a final newline, so one trailing `\n` is
      accepted after the pattern. */
  predicate PasswordPattern(s: string) {
    PasswordBody(s) || (|s| > 0 && s[|s| - 1] == '\n' && PasswordBody(s[..|s| - 1]))
  }

  /** The three constraints on `password`. */
  predicate PasswordValid(s: string) {
    NotBlank(s) && |s| >= 8 && PasswordPattern(s)
  }

  /** The constraints on `name`. */
  predicate NameValid(s: string) {
    NotBlank(s) && LengthBetween(s, 2, 255)
  }

  /** The constraints on `message`. */
  predicate MessageValid(s: string) {
    NotBlank(s) && LengthBetween(s, 1, 5000)
  }

  /** `Email` skips the empty string, which `NotBlank` reports; any other
      value is judged by the email check `isEmail`, which is not part of
      this model. */
  predicate EmailValid(s: string, isEmail: string -> bool) {
    NotBlank(s) && (s == "" || isEmail(s))
  }

  predicate RegisterValid(dto: RegisterUserDto, isEmail: string -> bool) {
    EmailValid(dto.email, isEmail) && PasswordValid(dto.password) && NameValid(dto.name)
  }

  predicate CreateMessageValid(dto: CreateMessageDto) {
    MessageValid(dto.message)
  }

  // ---------------------------------------------------------------------
  // The password pattern, scanned once

  /** Which of the four required kinds of character occur, and whether
      every character is allowed: what one left-to-right scan finds. */
  datatype Seen = Seen(lower: bool, upper: bool, digit: bool, special: bool, allAllowed: bool)

  function Scan(t: string): Seen {
    if t == [] then Seen(false, false, false, false, true)
    else
      var s := Scan(t[..|t| - 1]);
      var c := t[|t| - 1];
      Seen(s.lower || IsLower(c), s.upper || IsUpper(c), s.digit || IsDigit(c),
           s.special || c in Specials, s.allAllowed && PasswordChar(c))
  }

  lemma {:induction false} ScanFinds(t: string)
    ensures Scan(t).lower <==> exists i :: 0 <= i < |t| && IsLower(t[i])
    ensures Scan(t).upper <==> exists i :: 0 <= i < |t| && IsUpper(t[i])
    ensures Scan(t).digit <==> exists i :: 0 <= i < |t| && IsDigit(t[i])
    ensures Scan(t).special <==> exists i :: 0 <= i < |t| && t[i] in Specials
    ensures Scan(t).allAllowed <==> forall i :: 0 <= i < |t| ==> PasswordChar(t[i])
  {
    if t != [] {
      var u := t[..|t| - 1];
      ScanFinds(u);
      assert forall i :: 0 <= i < |u| ==> u[i] == t[i];
    }
  }

  /** The pattern body holds exactly when the scan sees every kind of
      required character, no disallowed one, and at least 8 characters. */
  lemma PasswordBodyByScan(t: string)
    ensures PasswordBody(t) <==> var s := Scan(t);
      |t| >= 8 && s.lower && s.upper && s.digit && s.special && s.allAllowed
  {
    ScanFinds(t);
  }

  /** The regex alone decides: a password that matches it is non-blank and
      at least 8 characters long, so `NotBlank` and `Length` add nothing. */
  lemma PasswordValidIffPattern(s: string)
    ensures PasswordValid(s) <==> PasswordPattern(s)
  {
  }

  /** A password is valid exactly when, apart from one optional final
      newline, it has at least 8 characters, all from `[A-Za-z0-9@$!%*?&]`,
      including a lower-case letter, an upper-case letter, a digit and one
      of `@$!%*?&`. */
  lemma PasswordValidIff(s: string)
    ensures PasswordValid(s) <==>
      var t := if |s| > 0 && s[|s| - 1] == '\n' then s[..|s| - 1] else s;
      && |t| >= 8
      && (forall i :: 0 <= i < |t| ==> PasswordChar(t[i]))
      && (exists i :: 0 <= i < |t| && IsLower(t[i]))
      && (exists i :: 0 <= i < |t| && IsUpper(t[i]))
      && (exists i :: 0 <= i < |t| && IsDigit(t[i]))
      && (exists i :: 0 <= i < |t| && t[i] in Specials)
  {
    if |s| > 0 && s[|s| - 1] == '\n' {
      assert !PasswordChar(s[|s| - 1]);
      assert !PasswordBody(s);
    }
  }

  /** The final-newline quirk: `"Password1!\n"` passes the backend rules. */
  lemma TrailingNewlineAccepted()
    ensures PasswordValid("Password1!\n")
  {
    var t := "Password1!";
    assert "Password1!\n"[..10] == t;
    assert IsUpper(t[0]) && IsLower(t[1]) && IsDigit(t[8]) && t[9] in Specials;
    assert forall i :: 0 <= i < |t| ==> PasswordChar(t[i]);
  }

  /** The registration form's pattern, a JavaScript regular expression
      whose classes also allow `#` and `~` and whose `$` is the end. */
  const FormSpecials: set<char> := {'#', '~', '@', '$', '!', '%', '*', '?', '&'}

  predicate FormPasswordChar(c: char) {
    IsLower(c) || IsUpper(c) || IsDigit(c) || c in FormSpecials
  }

  /** `Validators.required`, `Validators.minLength(8)` and the form's
      `Validators.pattern`. */
  predicate FormPasswordValid(s: string) {
    && s != "" && |s| >= 8
    && (forall i :: 0 <= i < |s| ==> FormPasswordChar(s[i]))
    && (exists i :: 0 <= i < |s| && IsLower(s[i]))
    && (exists i :: 0 <= i < |s| && IsUpper(s[i]))
    && (exists i :: 0 <= i < |s| && IsDigit(s[i]))
    && (exists i :: 0 <= i < |s| && s[i] in FormSpecials)
  }

  /** Every password the backend accepts without a final newline the form
      accepts too. */
  lemma BackendStricterThanForm(s: string)
    requires PasswordBody(s)
    ensures FormPasswordValid(s)
  {
    var i :| 0 <= i < |s| && s[i] in Specials;
    assert s[i] in FormSpecials;
  }

  /** The form lets `#` through where the backend refuses it. */
  lemma HashOnlyFormAccepts()
    ensures FormPasswordValid("Password1#") && !PasswordValid("Password1#")
  {
    var s := "Password1#";
    assert IsUpper(s[0]) && IsLower(s[1]) && IsDigit(s[8]) && s[9] in FormSpecials;
    assert !PasswordChar(s[9]);
    assert s[|s| - 1] != '\n';
  }

  /** The form refuses the trailing newline the backend accepts. */
  lemma TrailingNewlineOnlyBackendAccepts()
    ensures PasswordValid("Password1!\n") && !FormPasswordValid("Password1!\n")
  {
    TrailingNewlineAccepted();
    assert !FormPasswordChar("Password1!\n"[10]);
  }

  /** The empty string fails `NotBlank` in every field. */
  lemma EmptyFieldsInvalid(isEmail: string -> bool)
    ensures !EmailValid("", isEmail) && !PasswordValid("") && !NameValid("")
    ensures !RegisterValid(RegisterUserDto("", "", ""), isEmail)
    ensures !MessageValid("")
  {
  }

  /** `NotBlank` adds nothing to the length bounds on names and messages. */
  lemma LengthDecides(s: string)
    ensures NameValid(s) <==> 2 <= |s| <= 255
    ensures MessageValid(s) <==> 1 <= |s| <= 5000
  {
  }

  /** The message bound is inclusive: 5000 characters pass, 5001 do not. */
  lemma MessageBound(s: string)
    ensures |s| == 5000 ==> MessageValid(s)
    ensures |s| == 5001 ==> !MessageValid(s)
  {
  }
}
