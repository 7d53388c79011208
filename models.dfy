/**
 * Input validation (`rana.models`): the custom cerberus types of
 * `RanaValidator`, the three outcomes of `validate`, and the presence rules
 * of the heartbeat schema. Cerberus itself is an oracle whose verdict is an
 * input to `validate`.
 */
module Models {
  import opened Common

  const UsernameMinLength := 2
  const UsernameMaxLength := 30
  const PasswordMaxLength := 2048

  /** A character of the class `[a-zA-Z0-9_ ]`, ASCII only (`re.A`). */
  predicate IsUsernameChar(c: char) {
    ('a' <= c <= 'z') || ('A' <= c <= 'Z') || ('0' <= c <= '9') || c == '_' || c == ' '
  }

  /** How many characters of the class `s` starts with. */
  function UsernameRun(s: string): (n: nat)
    ensures n <= |s|
    ensures forall i :: 0 <= i < n ==> IsUsernameChar(s[i])
    ensures n < |s| ==> !IsUsernameChar(s[n])
  {
    if s != [] && IsUsernameChar(s[0]) then 1 + UsernameRun(s[1..]) else 0
  }

  /** Python's `$` without MULTILINE at position `k`: the end, or just before a final newline. */
  predicate AtEnd(s: string, k: nat) {
    k == |s| || (k == |s| - 1 && s[k] == '\n')
  }

  /**
   * The regex engine's backtracking over `{2,30}`: after taking `k`
   * characters of the class it tries `$`, and on failure gives one back,
   * down to the minimum of 2.
   */
  function TryRepetitions(s: string, k: nat): bool
    decreases k
  {
    if k < UsernameMinLength then false
    else if AtEnd(s, k) then true
    else TryRepetitions(s, k - 1)
  }

  /** `_validate_type_username`: `USERNAME_REGEX.match(value)` for `^[a-zA-Z0-9_ ]{2,30}$`. */
  function ValidateTypeUsername(value: string): bool {
    var run := UsernameRun(value);
    TryRepetitions(value, if run < UsernameMaxLength then run else UsernameMaxLength)
  }

  /** 2 to 30 characters, each an ASCII letter, a digit, `_` or a space. */
  ghost predicate UsernameShape(t: string) {
    UsernameMinLength <= |t| <= UsernameMaxLength && forall i :: 0 <= i < |t| ==> IsUsernameChar(t[i])
  }

  /** `_validate_type_password`: 1 to 2048 characters. */
  function ValidateTypePassword(value: string): (ok: bool)
    ensures ok <==> 0 < |value| && |value| <= PasswordMaxLength
  {
    1 <= |value| <= PasswordMaxLength
  }

  const EntityTypes: seq<string> := ["app", "file", "domain"]

  const ActivityTypes: seq<string> := [
    "coding", "building", "indexing",
    "debugging", "browsing", "running tests",
    "writing tests", "manual testing",
    "code reviewing", "designing"
  ]

  /** `_validate_type_entity_type`: membership in the tuple of entity types. */
  function ValidateTypeEntityType(value: string): (ok: bool)
    ensures ok <==> value == "app" || value == "file" || value == "domain"
  {
    value in EntityTypes
  }

  /** `_validate_type_activity_type`: membership in the tuple of ten categories. */
  function ValidateTypeActivityType(value: string): (ok: bool)
    ensures ok <==>
      value == "coding" || value == "building" || value == "indexing" ||
      value == "debugging" || value == "browsing" || value == "running tests" ||
      value == "writing tests" || value == "manual testing" ||
      value == "code reviewing" || value == "designing"
  {
    value in ActivityTypes
  }

  // ---------------------------------------------------------------------
  // validate

  /** What cerberus' `validator.validate(reqjson)` did. */
  datatype Verdict<D> =
    | Crashed                  // it raised
    | Invalid(errors: string)  // it returned False; `errors` is the repr of `validator.errors`
    | Valid(document: D)       // it returned True; `document` is `validator.document`

  /** What `validate` gives its caller: a document, `None`, or an exception. */
  datatype Validated<D> = Document(document: D) | NoDocument | Raised(error: Error)

  /**
   * `validate(reqjson, schema, raise_err)` given the validator's verdict:
   * the normalised document when valid; when invalid a BadRequest if
   * `raise_err` and `None` otherwise; a crash inside the validator becomes a
   * generic exception.
   */
  function Validate<D>(verdict: Verdict<D>, raiseErr: bool): (r: Validated<D>)
    ensures r.Document? <==> verdict.Valid?
    ensures r.Document? ==> r.document == verdict.document
    ensures r.NoDocument? <==> verdict.Invalid? && !raiseErr
    ensures (r.Raised? && r.error.BadRequest?) <==> verdict.Invalid? && raiseErr
    ensures (r.Raised? && r.error == ValidationCrash) <==> verdict.Crashed?
  {
    match verdict
    case Crashed => Raised(ValidationCrash)
    case Invalid(errors) =>
      if raiseErr then Raised(BadRequest("bad payload: " + errors)) else NoDocument
    case Valid(document) => Document(document)
  }

  // ---------------------------------------------------------------------
  // The heartbeat schema

  datatype FieldType = StringType | EntityType | ActivityType | StringList | NoType
  datatype Coercion = NoCoercion | ToFloat | ToInt | ToBool

  /** One field's rules; cerberus defaults `required` and `nullable` to False. */
  datatype Rule = Rule(
    fieldType: FieldType,
    coerce: Coercion,
    required: bool,
    nullable: bool,
    dependencies: seq<string>)

  const HeartbeatModel: map<string, Rule> := map[
    "entity" := Rule(StringType, NoCoercion, true, false, []),
    "type" := Rule(EntityType, NoCoercion, true, false, []),
    "category" := Rule(ActivityType, NoCoercion, false, true, []),
    "time" := Rule(NoType, ToFloat, false, false, []),
    "project" := Rule(StringType, NoCoercion, false, false, []),
    "branch" := Rule(StringType, NoCoercion, false, false, []),
    "language" := Rule(StringType, NoCoercion, false, true, []),
    "dependencies" := Rule(StringList, NoCoercion, false, false, []),
    "lines" := Rule(NoType, ToInt, false, false, ["type"]),
    "lineno" := Rule(NoType, ToInt, false, true, ["type"]),
    "cursorpos" := Rule(NoType, ToInt, false, true, ["type"]),
    "is_write" := Rule(NoType, ToBool, false, false, ["type"]),
    "user_agent" := Rule(StringType, NoCoercion, false, false, [])
  ]

  /** A field's value as far as presence rules see it. */
  datatype Value = Null | NonNull

  /**
   * The part of cerberus' verdict that `required` and `nullable` decide:
   * every required field is present and no non-nullable field is null.
   */
  predicate PresenceOk(schema: map<string, Rule>, doc: map<string, Value>) {
    forall f :: f in schema ==>
      (schema[f].required ==> f in doc) &&
      (f in doc && doc[f] == Null ==> schema[f].nullable)
  }

  /**
   * In the heartbeat schema only `entity` and `type` are required, and only
   * category, language, lineno and cursorpos may be null.
   */
  lemma HeartbeatRules()
    ensures forall f :: f in HeartbeatModel && HeartbeatModel[f].required ==> f == "entity" || f == "type"
    ensures forall f :: f in HeartbeatModel && HeartbeatModel[f].nullable ==>
      f == "category" || f == "language" || f == "lineno" || f == "cursorpos"
    ensures "entity" in HeartbeatModel && HeartbeatModel["entity"].required && !HeartbeatModel["entity"].nullable
    ensures "type" in HeartbeatModel && HeartbeatModel["type"].required && !HeartbeatModel["type"].nullable
    ensures forall f :: f in HeartbeatModel && (f == "category" || f == "language" || f == "lineno" || f == "cursorpos") ==>
      HeartbeatModel[f].nullable
  {
  }

  /**
   * A heartbeat passes the presence rules exactly when `entity` and `type`
   * are present and not null and every null field is one of category,
   * language, lineno and cursorpos.
   */
  lemma HeartbeatPresence(doc: map<string, Value>)
    ensures PresenceOk(HeartbeatModel, doc) <==>
      && "entity" in doc && doc["entity"] == NonNull
      && "type" in doc && doc["type"] == NonNull
      && (forall f :: f in HeartbeatModel && f in doc && doc[f] == Null ==>
            f == "category" || f == "language" || f == "lineno" || f == "cursorpos")
  {
    HeartbeatRules();
  }

  // ---------------------------------------------------------------------
  // The username type

  lemma {:induction false} TryRepetitionsSpec(s: string, k: nat)
    ensures TryRepetitions(s, k) <==> exists j :: UsernameMinLength <= j <= k && AtEnd(s, j)
    decreases k
  {
    if k >= UsernameMinLength && !AtEnd(s, k) {
      TryRepetitionsSpec(s, k - 1);
      assert forall j :: UsernameMinLength <= j <= k && AtEnd(s, j) ==> j <= k - 1;
    }
  }

  /**
   * A username is accepted exactly when it is 2 to 30 characters from
   * `[a-zA-Z0-9_ ]`, optionally followed by one newline, which `$` admits.
   */
  lemma UsernameAccepted(s: string)
    ensures ValidateTypeUsername(s) <==>
      UsernameShape(s) || (s != [] && s[|s| - 1] == '\n' && UsernameShape(s[..|s| - 1]))
  {
    var run := UsernameRun(s);
    var m := if run < UsernameMaxLength then run else UsernameMaxLength;
    TryRepetitionsSpec(s, m);
    if UsernameShape(s) {
      assert run == |s| && AtEnd(s, m);
    }
    if s != [] && s[|s| - 1] == '\n' && UsernameShape(s[..|s| - 1]) {
      assert forall i :: 0 <= i < |s| - 1 ==> s[..|s| - 1][i] == s[i];
      assert run == |s| - 1 && AtEnd(s, m);
    }
    if ValidateTypeUsername(s) {
      var j :| UsernameMinLength <= j <= m && AtEnd(s, j);
      if j < |s| {
        assert !IsUsernameChar(s[j]);
        assert j == run;
      }
    }
  }
}
