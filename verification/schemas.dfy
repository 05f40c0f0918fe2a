/** The validation schemas guarding the store: field-by-field checks that
    yield either the typed value or a map from field name to issues
    (zod's `safeParse` followed by `error.flatten().fieldErrors`).

    Form fields arrive as `FormData.get` results: a string, or `null` when
    the field is missing (`None`). String lengths are JavaScript lengths,
    in UTF-16 code units. */
module Schemas {
  import opened Wrappers
  import opened Seqs
  import opened JsText
  import opened Definitions

  /** One complaint about a field. Messages written in the schemas are kept
      verbatim; the validation library's built-in messages are represented
      by their kind. */
  datatype Issue =
    | Says(message: string)
    | WrongType   // the value is not a string (a missing form field is `null`)
    | NotInEnum   // a string outside the enumeration

  /** Field name to the issues found in it, for fields with at least one. */
  type FieldErrors = map<string, seq<Issue>>

  datatype Parsed<T> = Valid(value: T) | Invalid(errors: FieldErrors)

  const NameTooShortMessage := "Name must be at least 2 characters."
  const InvalidEmailMessage := "Please enter a valid email."
  const PasswordTooShortMessage := "Password must be at least 8 characters."
  const PasswordsDontMatchMessage := "Passwords don't match."
  const PasswordRequiredMessage := "Password is required."
  const ProjectNameTooShortMessage := "Project name must be at least 3 characters."
  const CommentTooShortMessage := "Comment must be at least 10 characters."
  const LabelEmptyMessage := "Label cannot be empty."
  const LabelTooLongMessage := "Label is too long."

  /** An issue together with the field (the first element of its path) it
      is reported against. */
  type FieldIssue = (string, Issue)

  /** The issues of one field, reported against that field. */
  function Tag(field: string, issues: seq<Issue>): seq<FieldIssue>
  {
    Map(issues, (i: Issue) => (field, i))
  }

  function Names(k: string): FieldIssue -> bool
  {
    (p: FieldIssue) => p.0 == k
  }

  /** The issues reported against `k`, in reported order. */
  function IssuesAt(issues: seq<FieldIssue>, k: string): seq<Issue>
  {
    Map(Filter(issues, Names(k)), (p: FieldIssue) => p.1)
  }

  /** Some issue is reported against `k`. */
  predicate Reported(issues: seq<FieldIssue>, k: string)
  {
    exists i :: 0 <= i < |issues| && issues[i].0 == k
  }

  /** `error.flatten().fieldErrors`: walk the issues in the order the
      validation reported them and append each to its field's list. A field
      is present exactly when some issue names it, and then lists the issues
      naming it, in order. */
  function Flatten(issues: seq<FieldIssue>): (e: FieldErrors)
    ensures forall k :: k in e <==> Reported(issues, k)
    ensures forall k :: k in e ==> e[k] == IssuesAt(issues, k)
    decreases |issues|
  {
    if issues == [] then map[]
    else
      var front := issues[..|issues| - 1];
      var last := issues[|issues| - 1];
      var e := Flatten(front);
      FlattenStep(front, last, e);
      assert issues == front + [last];
      Push(e, last)
  }

  /** File one more issue: append it to its field's list, starting the
      list if the field had none. */
  function Push(e: FieldErrors, x: FieldIssue): FieldErrors
  {
    e[x.0 := (if x.0 in e then e[x.0] else []) + [x.1]]
  }

  /** Appending one issue to the walk keeps `Flatten`'s two promises. */
  lemma FlattenStep(s: seq<FieldIssue>, x: FieldIssue, e: FieldErrors)
    requires forall k :: k in e <==> Reported(s, k)
    requires forall k :: k in e ==> e[k] == IssuesAt(s, k)
    ensures forall k :: k in Push(e, x) <==> Reported(s + [x], k)
    ensures forall k :: k in Push(e, x) ==> Push(e, x)[k] == IssuesAt(s + [x], k)
  {
    forall k
      ensures k in Push(e, x) <==> Reported(s + [x], k)
      ensures k in Push(e, x) ==> Push(e, x)[k] == IssuesAt(s + [x], k)
    {
      ReportedConcat(s, [x], k);
      IssuesAtConcat(s, [x], k);
      IssuesAtTag(x.0, [x.1], k);
      assert Tag(x.0, [x.1]) == [x];
      ReportedIffIssuesAt(s, k);
    }
  }

  /** The reference reading agrees with presence: `k` is reported exactly
      when it has issues. */
  lemma ReportedIffIssuesAt(issues: seq<FieldIssue>, k: string)
    ensures Reported(issues, k) <==> IssuesAt(issues, k) != []
  {
    var kept := Filter(issues, Names(k));
    if Reported(issues, k) {
      var i :| 0 <= i < |issues| && issues[i].0 == k;
      FilterMembership(issues, Names(k), issues[i]);
      assert issues[i] in kept;
    }
    if kept != [] {
      assert kept[0] in kept;
      FilterMembership(issues, Names(k), kept[0]);
    }
  }

  lemma ReportedConcat(a: seq<FieldIssue>, b: seq<FieldIssue>, k: string)
    ensures Reported(a + b, k) <==> Reported(a, k) || Reported(b, k)
  {
    if Reported(a, k) {
      var i :| 0 <= i < |a| && a[i].0 == k;
      assert (a + b)[i] == a[i];
    }
    if Reported(b, k) {
      var i :| 0 <= i < |b| && b[i].0 == k;
      assert (a + b)[|a| + i] == b[i];
    }
  }

  lemma IssuesAtConcat(a: seq<FieldIssue>, b: seq<FieldIssue>, k: string)
    ensures IssuesAt(a + b, k) == IssuesAt(a, k) + IssuesAt(b, k)
  {
    FilterConcat(a, b, Names(k));
    MapConcat(Filter(a, Names(k)), Filter(b, Names(k)), (p: FieldIssue) => p.1);
  }

  /** A field's own issues are all its issues, and nobody else's. */
  lemma IssuesAtTag(field: string, xs: seq<Issue>, k: string)
    ensures IssuesAt(Tag(field, xs), k) == (if field == k then xs else [])
    ensures Reported(Tag(field, xs), k) <==> field == k && xs != []
  {
    var t := Tag(field, xs);
    if field == k {
      FilterKeepsAll(t, Names(k));
      assert Map(t, (p: FieldIssue) => p.1) == xs;
    } else {
      FilterKeepsNone(t, Names(k));
    }
    if field == k && xs != [] {
      assert t[0].0 == k;
    }
  }

  /** The issues of an object schema's fields, checked one field after
      the other in the order the schema declares them. */
  function Report(fields: seq<(string, seq<Issue>)>): seq<FieldIssue>
    decreases |fields|
  {
    if fields == [] then [] else Tag(fields[0].0, fields[0].1) + Report(fields[1..])
  }

  predicate DistinctFields(fields: seq<(string, seq<Issue>)>)
  {
    forall i, j :: 0 <= i < j < |fields| ==> fields[i].0 != fields[j].0
  }

  /** Each declared field collects exactly its own issues; an undeclared
      name collects none. */
  lemma {:induction false} IssuesAtReport(fields: seq<(string, seq<Issue>)>, k: string)
    requires DistinctFields(fields)
    ensures forall j :: 0 <= j < |fields| && fields[j].0 == k ==> IssuesAt(Report(fields), k) == fields[j].1
    ensures (forall j :: 0 <= j < |fields| ==> fields[j].0 != k) ==> IssuesAt(Report(fields), k) == []
    decreases |fields|
  {
    if fields == [] {
      assert Report(fields) == [];
      FilterKeepsNone(Report(fields), Names(k));
    } else {
      IssuesAtReport(fields[1..], k);
      IssuesAtConcat(Tag(fields[0].0, fields[0].1), Report(fields[1..]), k);
      IssuesAtTag(fields[0].0, fields[0].1, k);
      forall j | 0 <= j < |fields| && fields[j].0 == k
        ensures IssuesAt(Report(fields), k) == fields[j].1
      {
        if j > 0 {
          assert fields[1..][j - 1] == fields[j];
        }
      }
      if forall j :: 0 <= j < |fields| ==> fields[j].0 != k {
        assert fields[0].0 != k;
        forall j | 0 <= j < |fields| - 1 ensures fields[1..][j].0 != k {
          assert fields[1..][j] == fields[j + 1];
        }
      }
    }
  }

  /** Flattening an object schema's report, one declared field at a time:
      the field is present exactly when it has issues, and then lists
      exactly those. */
  lemma FlattenReportAt(fields: seq<(string, seq<Issue>)>, j: nat)
    requires DistinctFields(fields)
    requires j < |fields|
    ensures fields[j].0 in Flatten(Report(fields)) <==> fields[j].1 != []
    ensures fields[j].0 in Flatten(Report(fields)) ==> Flatten(Report(fields))[fields[j].0] == fields[j].1
  {
    IssuesAtReport(fields, fields[j].0);
    ReportedIffIssuesAt(Report(fields), fields[j].0);
  }

  /** No name outside the declared fields is present. */
  lemma FlattenReportKeys(fields: seq<(string, seq<Issue>)>)
    requires DistinctFields(fields)
    ensures forall k :: k in Flatten(Report(fields)) ==> exists j :: 0 <= j < |fields| && fields[j].0 == k
  {
    var e := Flatten(Report(fields));
    forall k | k in e
      ensures exists j :: 0 <= j < |fields| && fields[j].0 == k
    {
      IssuesAtReport(fields, k);
      ReportedIffIssuesAt(Report(fields), k);
    }
  }

  /** The field errors of an object schema, field by field: each declared
      field is present exactly when it has issues, with exactly those, and
      nothing else is present. `ObjectErrorsIsFlatten` shows this is what
      flattening the schema's report gives. */
  function ObjectErrors(fields: seq<(string, seq<Issue>)>): (e: FieldErrors)
    requires DistinctFields(fields)
    ensures forall j :: 0 <= j < |fields| ==> (fields[j].0 in e <==> fields[j].1 != [])
    ensures forall j :: 0 <= j < |fields| && fields[j].0 in e ==> e[fields[j].0] == fields[j].1
    ensures forall k :: k in e ==> exists j :: 0 <= j < |fields| && fields[j].0 == k
    decreases |fields|
  {
    if fields == [] then map[]
    else
      var rest := ObjectErrors(fields[1..]);
      assert forall j :: 1 <= j < |fields| ==> fields[1..][j - 1] == fields[j];
      if fields[0].1 == [] then rest else rest[fields[0].0 := fields[0].1]
  }

  /** `safeParse` of an object schema followed by `flatten().fieldErrors`
      is the field-by-field reading. */
  lemma ObjectErrorsIsFlatten(fields: seq<(string, seq<Issue>)>)
    requires DistinctFields(fields)
    ensures ObjectErrors(fields) == Flatten(Report(fields))
  {
    var e, f := ObjectErrors(fields), Flatten(Report(fields));
    FlattenReportKeys(fields);
    forall j | 0 <= j < |fields|
      ensures fields[j].0 in f <==> fields[j].1 != []
      ensures fields[j].0 in f ==> f[fields[j].0] == fields[j].1
    {
      FlattenReportAt(fields, j);
    }
    assert e.Keys == f.Keys;
  }

  /** `.min(n, { message })` on a string. */
  function AtLeast(s: string, n: nat, message: string): seq<Issue>
  {
    if Utf16Length(s) < n then [Says(message)] else []
  }

  /** `.max(n, { message })` on a string. */
  function AtMost(s: string, n: nat, message: string): seq<Issue>
  {
    if Utf16Length(s) > n then [Says(message)] else []
  }

  /** `z.string()` with no further check. */
  function AnyStringIssues(v: Option<string>): seq<Issue>
  {
    if v.None? then [WrongType] else []
  }

  // ---------------------------------------------------------------------
  // The accepted values, stated independently of how issues are gathered.

  predicate ValidProjectName(s: string) { Utf16Length(s) >= 3 }

  predicate ValidComment(s: string) { Utf16Length(s) >= 10 }

  predicate ValidLabel(s: string) { 1 <= Utf16Length(s) <= 20 }

  predicate ValidSignupName(s: string) { Utf16Length(s) >= 2 }

  predicate ValidPassword(s: string) { Utf16Length(s) >= 8 }

  // ---------------------------------------------------------------------
  // projectSchema

  function ProjectNameIssues(name: Option<string>): seq<Issue>
  {
    match name
    case None => [WrongType]
    case Some(s) => AtLeast(s, 3, ProjectNameTooShortMessage)
  }

  /** `projectSchema.safeParse({ name })`. */
  function ParseProject(name: Option<string>): (r: Parsed<string>)
    ensures r.Valid? <==> name.Some? && ValidProjectName(name.value)
    ensures r.Valid? ==> r.value == name.value
    ensures r.Invalid? ==> r.errors.Keys == {"name"}
    ensures r.Invalid? && name.Some? ==> r.errors["name"] == [Says(ProjectNameTooShortMessage)]
    ensures name.None? ==> r.Invalid? && r.errors["name"] == [WrongType]
  {
    var fields := [("name", ProjectNameIssues(name))];
    var e := ObjectErrors(fields);
    assert fields[0].0 == "name";
    if name.Some? && ValidProjectName(name.value) then Valid(name.value) else Invalid(e)
  }

  // ---------------------------------------------------------------------
  // feedbackSchema

  datatype FeedbackInput = FeedbackInput(kind: FeedbackType, comment: string, projectId: string)

  /** `z.enum(['bug', 'feature', 'other'])`. A `null` (missing) value is a
      type error: the schema's `required_error` text is used only for
      `undefined`, which a form field never is. */
  function TypeIssues(v: Option<string>): seq<Issue>
  {
    match v
    case None => [WrongType]
    case Some(s) => if ParseType(s).Some? then [] else [NotInEnum]
  }

  function CommentIssues(v: Option<string>): seq<Issue>
  {
    match v
    case None => [WrongType]
    case Some(s) => AtLeast(s, 10, CommentTooShortMessage)
  }

  /** The submission is accepted: a known type, a long enough comment, and
      any string at all as project id. */
  predicate AcceptsFeedback(kind: Option<string>, comment: Option<string>, projectId: Option<string>)
  {
    && kind.Some? && ParseType(kind.value).Some?
    && comment.Some? && ValidComment(comment.value)
    && projectId.Some?
  }

  /** The field errors of `feedbackSchema`: every bad field, and only
      those, each with the issue its check raises. */
  function FeedbackErrors(kind: Option<string>, comment: Option<string>, projectId: Option<string>)
    : (e: FieldErrors)
    ensures e.Keys <= {"type", "comment", "projectId"}
    ensures "type" in e <==> kind.None? || ParseType(kind.value).None?
    ensures "comment" in e <==> comment.None? || !ValidComment(comment.value)
    ensures "projectId" in e <==> projectId.None?
    ensures "type" in e ==> e["type"] == (if kind.None? then [WrongType] else [NotInEnum])
    ensures "comment" in e ==>
      e["comment"] == (if comment.None? then [WrongType] else [Says(CommentTooShortMessage)])
    ensures "projectId" in e ==> e["projectId"] == [WrongType]
  {
    var fields := [
      ("type", TypeIssues(kind)),
      ("comment", CommentIssues(comment)),
      ("projectId", AnyStringIssues(projectId))];
    var e := ObjectErrors(fields);
    assert fields[0].0 == "type";
    assert fields[1].0 == "comment";
    assert fields[2].0 == "projectId";
    e
  }

  /** `feedbackSchema.safeParse({ type, comment, projectId })`. No partial
      success: one bad field rejects the submission, and every bad field,
      and only those, is reported. */
  function ParseFeedback(kind: Option<string>, comment: Option<string>, projectId: Option<string>)
    : (r: Parsed<FeedbackInput>)
    ensures r.Valid? <==> AcceptsFeedback(kind, comment, projectId)
    ensures r.Valid? ==> r.value == FeedbackInput(ParseType(kind.value).value, comment.value, projectId.value)
    ensures r.Invalid? ==> r.errors.Keys <= {"type", "comment", "projectId"}
    ensures r.Invalid? ==> ("type" in r.errors <==> kind.None? || ParseType(kind.value).None?)
    ensures r.Invalid? ==> ("comment" in r.errors <==> comment.None? || !ValidComment(comment.value))
    ensures r.Invalid? ==> ("projectId" in r.errors <==> projectId.None?)
    ensures comment.Some? && !ValidComment(comment.value) ==>
      r.Invalid? && r.errors["comment"] == [Says(CommentTooShortMessage)]
    ensures kind.Some? && ParseType(kind.value).None? ==> r.Invalid? && r.errors["type"] == [NotInEnum]
    ensures kind.None? ==> r.Invalid? && r.errors["type"] == [WrongType]
    ensures comment.None? ==> r.Invalid? && r.errors["comment"] == [WrongType]
    ensures projectId.None? ==> r.Invalid? && r.errors["projectId"] == [WrongType]
  {
    if AcceptsFeedback(kind, comment, projectId) then
      Valid(FeedbackInput(ParseType(kind.value).value, comment.value, projectId.value))
    else
      Invalid(FeedbackErrors(kind, comment, projectId))
  }

  // ---------------------------------------------------------------------
  // labelSchema

  datatype LabelInput = LabelInput(text: string, feedbackId: string)

  function LabelIssues(v: Option<string>): seq<Issue>
  {
    match v
    case None => [WrongType]
    case Some(s) => AtLeast(s, 1, LabelEmptyMessage) + AtMost(s, 20, LabelTooLongMessage)
  }

  /** `labelSchema.safeParse({ label, feedbackId })`. */
  function ParseLabel(text: Option<string>, feedbackId: Option<string>): (r: Parsed<LabelInput>)
    ensures r.Valid? <==> text.Some? && ValidLabel(text.value) && feedbackId.Some?
    ensures r.Valid? ==> r.value == LabelInput(text.value, feedbackId.value)
    ensures r.Invalid? ==> r.errors.Keys <= {"label", "feedbackId"}
    ensures r.Invalid? ==> ("label" in r.errors <==> text.None? || !ValidLabel(text.value))
    ensures r.Invalid? ==> ("feedbackId" in r.errors <==> feedbackId.None?)
    ensures text == Some("") ==> r.Invalid? && r.errors["label"] == [Says(LabelEmptyMessage)]
    ensures text.Some? && Utf16Length(text.value) > 20 ==>
      r.Invalid? && r.errors["label"] == [Says(LabelTooLongMessage)]
    ensures text.None? ==> r.Invalid? && r.errors["label"] == [WrongType]
    ensures feedbackId.None? ==> r.Invalid? && r.errors["feedbackId"] == [WrongType]
  {
    var fields := [("label", LabelIssues(text)), ("feedbackId", AnyStringIssues(feedbackId))];
    var e := ObjectErrors(fields);
    assert fields[0].0 == "label";
    assert fields[1].0 == "feedbackId";
    if text.Some? && ValidLabel(text.value) && feedbackId.Some? then
      Valid(LabelInput(text.value, feedbackId.value))
    else
      Invalid(e)
  }

  // ---------------------------------------------------------------------
  // signupSchema and loginSchema. The fields are taken to be strings; the
  // email check is the library's and is passed in as `isEmail`.

  datatype Signup = Signup(name: string, email: string, password: string, confirmPassword: string)

  /** The field errors of `signupSchema`. The password-equality refinement
      runs after the field checks (none of which aborts on a string) and
      files its complaint under `confirmPassword`. */
  function SignupErrors(s: Signup, isEmail: string -> bool): (e: FieldErrors)
    ensures "confirmPassword" in e <==> s.password != s.confirmPassword
    ensures "confirmPassword" in e ==> e["confirmPassword"] == [Says(PasswordsDontMatchMessage)]
    ensures "password" in e <==> !ValidPassword(s.password)
    ensures "name" in e <==> !ValidSignupName(s.name)
    ensures "email" in e <==> !isEmail(s.email)
    ensures e.Keys <= {"name", "email", "password", "confirmPassword"}
    ensures "name" in e ==> e["name"] == [Says(NameTooShortMessage)]
    ensures "email" in e ==> e["email"] == [Says(InvalidEmailMessage)]
    ensures "password" in e ==> e["password"] == [Says(PasswordTooShortMessage)]
    ensures e == map[] <==>
      ValidSignupName(s.name) && isEmail(s.email) && ValidPassword(s.password) && s.password == s.confirmPassword
  {
    var name := AtLeast(s.name, 2, NameTooShortMessage);
    var email := if isEmail(s.email) then [] else [Says(InvalidEmailMessage)];
    var password := AtLeast(s.password, 8, PasswordTooShortMessage);
    var refinement := if s.password == s.confirmPassword then [] else [Says(PasswordsDontMatchMessage)];
    var fields := [("name", name), ("email", email), ("password", password), ("confirmPassword", refinement)];
    var e := ObjectErrors(fields);
    assert fields[0].0 == "name";
    assert fields[1].0 == "email";
    assert fields[2].0 == "password";
    assert fields[3].0 == "confirmPassword";
    assert "name" in e <==> !ValidSignupName(s.name);
    assert "email" in e <==> !isEmail(s.email);
    assert "password" in e <==> !ValidPassword(s.password);
    e
  }

  /** The field errors of `loginSchema`. */
  function LoginErrors(email: string, password: string, isEmail: string -> bool): (e: FieldErrors)
    ensures "password" in e <==> password == []
    ensures "password" in e ==> e["password"] == [Says(PasswordRequiredMessage)]
    ensures "email" in e <==> !isEmail(email)
    ensures "email" in e ==> e["email"] == [Says(InvalidEmailMessage)]
    ensures e.Keys <= {"email", "password"}
  {
    var emailIssues := if isEmail(email) then [] else [Says(InvalidEmailMessage)];
    var passwordIssues := AtLeast(password, 1, PasswordRequiredMessage);
    var fields := [("email", emailIssues), ("password", passwordIssues)];
    var e := ObjectErrors(fields);
    assert fields[0].0 == "email";
    assert fields[1].0 == "password";
    assert "password" in e <==> Utf16Length(password) < 1;
    e
  }
}
