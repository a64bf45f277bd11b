/** The user and product edit forms: field edits, validation, submission,
    and the reset when the form is given new initial data. Both forms keep
    their data and their error messages as records keyed by field name. */
module Forms {
  import opened Js
  import opened Text

  /** A field's value: text (every edit through an input yields text, even
      in a number input) or a number (the product form's initial price and
      stock). */
  datatype Value = Str(s: string) | Num(n: real)

  type FormData = map<string, Value>

  /** The form's data and its error record (field name to message). */
  datatype FormState = FormState(data: FormData, errors: map<string, string>)

  /** The form state after validation, and the data handed to `onSubmit`
      when validation passed. */
  datatype Submission = Submission(form: FormState, submitted: Option<FormData>)

  const NameRequired: string := "Name is required"
  const EmailRequired: string := "Email is required"
  const EmailInvalid: string := "Email is invalid"
  const ProductNameRequired: string := "Product name is required"

  /** `errors[name]` is truthy: present and not the empty string. */
  predicate HasError(errors: map<string, string>, name: string) {
    name in errors && errors[name] != ""
  }

  /** `handleInputChange` (the same in both forms): the named field takes the
      input's text; that field's error, if set, is reset to the empty string. */
  function InputChange(f: FormState, name: string, value: string): (r: FormState)
    ensures r.data.Keys == f.data.Keys + {name} && r.data[name] == Str(value)
    ensures forall k :: k in f.data && k != name ==> r.data[k] == f.data[k]
    ensures r.errors.Keys == f.errors.Keys
    ensures forall k :: k in f.errors && k != name ==> r.errors[k] == f.errors[k]
    ensures name in f.errors ==> r.errors[name] == if HasError(f.errors, name) then "" else f.errors[name]
    ensures !HasError(r.errors, name)
  {
    FormState(
      f.data[name := Str(value)],
      if HasError(f.errors, name) then f.errors[name := ""] else f.errors)
  }

  // ---------------------------------------------------------------------
  // The e-mail pattern `\S+@\S+\.\S+`, tested without anchors

  /** None of `s[i..j]` is white space. */
  predicate NoSpaceIn(s: string, i: nat, j: nat)
    requires i <= j <= |s|
  {
    forall k :: i <= k < j ==> !IsSpace(s[k])
  }

  /** `s[i..j]` is a non-empty run without white space: it matches `\S+`. */
  ghost predicate NonSpaceRun(s: string, i: int, j: int) {
    0 <= i < j <= |s| && NoSpaceIn(s, i, j)
  }

  /** `\S+@\S+\.\S+` matches `s[i..e]`, with the `@` at `a` and the `.` at `d`. */
  ghost predicate PatternMatchesAt(s: string, i: int, a: int, d: int, e: int) {
    && NonSpaceRun(s, i, a)
    && a < |s| && s[a] == '@'
    && NonSpaceRun(s, a + 1, d)
    && d < |s| && s[d] == '.'
    && NonSpaceRun(s, d + 1, e)
  }

  /** The regular expression's `test`: some substring of `s` matches. */
  ghost predicate EmailPatternMatches(s: string) {
    exists i, a, d, e :: PatternMatchesAt(s, i, a, d, e)
  }

  /** `s[a]` is an `@` preceded by a non-space, `s[d]` a `.` followed by a
      non-space, with at least one character between them and none of those
      white space. */
  predicate EmailShapeAt(s: string, a: int, d: int) {
    && 1 <= a && a + 2 <= d < |s| - 1
    && s[a] == '@' && s[d] == '.'
    && !IsSpace(s[a - 1]) && !IsSpace(s[d + 1])
    && NoSpaceIn(s, a + 1, d)
  }

  /** The regular expression's test, computed as a check over positions: it
      accepts exactly the strings the pattern matches somewhere in. */
  predicate LooksLikeEmail(s: string): (r: bool)
    ensures r <==> EmailPatternMatches(s)
  {
    EmailCheckIsPattern(s);
    exists a, d | 0 <= a < d < |s| :: EmailShapeAt(s, a, d)
  }

  /** The position check is exactly the regular expression's test. */
  lemma EmailCheckIsPattern(s: string)
    ensures (exists a, d | 0 <= a < d < |s| :: EmailShapeAt(s, a, d)) <==> EmailPatternMatches(s)
  {
    if exists a, d | 0 <= a < d < |s| :: EmailShapeAt(s, a, d) {
      EmailCheckFindsMatch(s);
    }
    if EmailPatternMatches(s) {
      var i, a, d, e :| PatternMatchesAt(s, i, a, d, e);
      MatchPassesCheck(s, i, a, d, e);
    }
  }

  /** A position the check accepts gives a match of the pattern. */
  lemma EmailCheckFindsMatch(s: string)
    requires exists a, d | 0 <= a < d < |s| :: EmailShapeAt(s, a, d)
    ensures EmailPatternMatches(s)
  {
    var a, d :| 0 <= a < d < |s| && EmailShapeAt(s, a, d);
    assert NoSpaceIn(s, a - 1, a);
    assert NoSpaceIn(s, d + 1, d + 2);
    assert PatternMatchesAt(s, a - 1, a, d, d + 2);
  }

  /** A match of the pattern passes the check at its `@` and its `.`. */
  lemma MatchPassesCheck(s: string, i: int, a: int, d: int, e: int)
    requires PatternMatchesAt(s, i, a, d, e)
    ensures exists x, y | 0 <= x < y < |s| :: EmailShapeAt(s, x, y)
  {
    assert !IsSpace(s[a - 1]);
    assert !IsSpace(s[d + 1]);
    assert EmailShapeAt(s, a, d);
  }

  // ---------------------------------------------------------------------
  // The user form

  /** The form holds text under `key`. */
  predicate HasText(data: FormData, key: string) {
    key in data && data[key].Str?
  }

  /** `validateForm` of the user form: a name error when the name is blank;
      an e-mail error "required" when the e-mail is blank, otherwise
      "invalid" when the pattern does not match it. */
  function ValidateUser(data: FormData): (errors: map<string, string>)
    requires HasText(data, "name") && HasText(data, "email")
    ensures errors.Keys <= {"name", "email"}
    ensures "name" in errors <==> IsBlank(data["name"].s)
    ensures "name" in errors ==> errors["name"] == NameRequired
    ensures IsBlank(data["email"].s) ==> "email" in errors && errors["email"] == EmailRequired
    ensures !IsBlank(data["email"].s) ==>
      ("email" in errors <==> !EmailPatternMatches(data["email"].s))
      && ("email" in errors ==> errors["email"] == EmailInvalid)
    ensures errors == map[] <==>
      !IsBlank(data["name"].s) && !IsBlank(data["email"].s) && EmailPatternMatches(data["email"].s)
  {
    var name := data["name"].s;
    var email := data["email"].s;
    var nameErrors: map<string, string> := if Trim(name) == "" then map["name" := NameRequired] else map[];
    if Trim(email) == "" then nameErrors["email" := EmailRequired]
    else if !LooksLikeEmail(email) then nameErrors["email" := EmailInvalid]
    else nameErrors
  }

  /** `handleSubmit` of the user form: the errors are replaced by the
      validation's, and `onSubmit` receives the data only when there are none. */
  function SubmitUser(f: FormState): (r: Submission)
    requires HasText(f.data, "name") && HasText(f.data, "email")
    ensures r.form.data == f.data
    ensures r.form.errors == ValidateUser(f.data)
    ensures r.submitted.Some? <==> r.form.errors == map[]
    ensures r.submitted.Some? ==> r.submitted.value == f.data
  {
    var errors := ValidateUser(f.data);
    Submission(FormState(f.data, errors), if errors == map[] then Some(f.data) else None)
  }

  /** The effect on new initial data: the data is replaced only when initial
      data is given; the errors are always cleared. */
  function UserFormReset(f: FormState, initialData: Option<FormData>): (r: FormState)
    ensures r.errors == map[]
    ensures initialData.Some? ==> r.data == initialData.value
    ensures initialData.None? ==> r.data == f.data
  {
    FormState(if initialData.Some? then initialData.value else f.data, map[])
  }

  /** Typing a non-blank name removes the name from what the next
      validation reports, and leaves its verdict on the e-mail unchanged. */
  lemma EditingNameFixesNameOnly(f: FormState, value: string)
    requires HasText(f.data, "name") && HasText(f.data, "email")
    requires !IsBlank(value)
    ensures
      var r := InputChange(f, "name", value);
      && HasText(r.data, "name") && HasText(r.data, "email")
      && "name" !in ValidateUser(r.data)
      && ("email" in ValidateUser(r.data) <==> "email" in ValidateUser(f.data))
  {
  }

  // ---------------------------------------------------------------------
  // The product form

  /** The product form's data when it is opened without initial data. */
  function EmptyProduct(): FormData {
    map["name" := Str(""), "description" := Str(""), "price" := Num(0.0), "stock" := Num(0.0), "category" := Str("")]
  }

  /** `validateForm` of the product form: only the name is checked. */
  function ValidateProduct(data: FormData): (errors: map<string, string>)
    requires HasText(data, "name")
    ensures errors.Keys <= {"name"}
    ensures "name" in errors <==> IsBlank(data["name"].s)
    ensures "name" in errors ==> errors["name"] == ProductNameRequired
  {
    if Trim(data["name"].s) == "" then map["name" := ProductNameRequired] else map[]
  }

  /** `handleSubmit` of the product form. */
  function SubmitProduct(f: FormState): (r: Submission)
    requires HasText(f.data, "name")
    ensures r.form.data == f.data
    ensures r.form.errors == ValidateProduct(f.data)
    ensures r.submitted.Some? <==> !IsBlank(f.data["name"].s)
    ensures r.submitted.Some? ==> r.submitted.value == f.data
  {
    var errors := ValidateProduct(f.data);
    Submission(FormState(f.data, errors), if errors == map[] then Some(f.data) else None)
  }

  /** The effect on new initial data: the given data, or the empty product
      (blank texts, price and stock 0); the errors are always cleared. */
  function ProductFormReset(f: FormState, initialData: Option<FormData>): (r: FormState)
    ensures r.errors == map[]
    ensures initialData.Some? ==> r.data == initialData.value
    ensures initialData.None? ==>
      && r.data.Keys == {"name", "description", "price", "stock", "category"}
      && r.data["name"] == Str("") && r.data["description"] == Str("") && r.data["category"] == Str("")
      && r.data["price"] == Num(0.0) && r.data["stock"] == Num(0.0)
  {
    FormState(if initialData.Some? then initialData.value else EmptyProduct(), map[])
  }

  /** A product form freshly reset without initial data cannot be submitted:
      its name is blank. */
  lemma EmptyProductIsRejected(f: FormState)
    ensures
      var r := SubmitProduct(ProductFormReset(f, None));
      r.submitted.None? && r.form.errors == map["name" := ProductNameRequired]
  {
    var reset := ProductFormReset(f, None);
    assert IsBlank(reset.data["name"].s);
  }
}
