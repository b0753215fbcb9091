/** Password hashing guard and localisation of validation errors
    (utils/utils.js). */
module Utils {
  import opened Base
  import opened Strings
  import opened Errors

  const PassMinLength: nat := 8
  const SaltRounds: nat := 10

  /** The message of a call to something that is not a function. */
  const NotAFunction: string := "t is not a function"

  /** `bcrypt.hash(password, rounds)`: a one-way function of its inputs here
      (the random salt is not modelled). */
  type Hasher = (string, nat) -> string

  /** `passwordToHash(password, t)`. A password shorter than eight
      UTF-16 code units is refused with an AuthenticationError on field
      `password`; the message is built by calling `t`, so when the caller
      passed no translator that call raises a TypeError instead. */
  function PasswordToHash(password: string, t: Option<Translator>, hash: Hasher): (r: Result<string, AppError>)
    ensures r.Ok? <==> Utf16Length(password) >= PassMinLength
    ensures r.Ok? ==> r.value == hash(password, SaltRounds)
    ensures r.Err? && t.Some? ==>
              r.error.AuthenticationError? && r.error.field == Some("password") &&
              r.error.message == t.value("users-error-form-password-minlength", map["minlength" := PNum(PassMinLength)])
    ensures r.Err? && t.None? ==> r.error.TypeError?
  {
    if Utf16Length(password) < PassMinLength then
      match t
      case Some(tr) =>
        Err(AuthenticationError(tr("users-error-form-password-minlength", map["minlength" := PNum(PassMinLength)]), Some("password")))
      case None => Err(TypeError(NotAFunction))
    else
      Ok(hash(password, SaltRounds))
  }

  /** Four emoji are eight UTF-16 code units, so the guard lets them through. */
  lemma FourEmojiPasswordHashed(t: Option<Translator>, hash: Hasher)
    ensures PasswordToHash("\U{1F600}\U{1F600}\U{1F600}\U{1F600}", t, hash).Ok?
  {
    FourEmojiAreEightUnits();
  }

  /** One `{ field, message }` entry of a localised validation error. */
  datatype LocalizedError = LocalizedError(field: string, message: string)

  /** `error._message.split(' ')[0].toLowerCase()`: the model the error
      belongs to, e.g. "user" for "User validation failed". */
  function ErrorModel(modelMessage: string): (m: string)
    ensures |m| <= |modelMessage| && ' ' !in modelMessage[..|m|]
    ensures |m| == |modelMessage| || modelMessage[|m|] == ' '
    ensures m == ToLower(modelMessage[..|m|])
  {
    ToLower(FirstWord(modelMessage))
  }

  /** The catalogue key for one field error, if its kind has one. */
  function MessageKey(errorModel: string, field: string, kind: string): (k: Option<string>)
    ensures (kind == "unique" || kind == "required" || kind == "minlength") ==>
              k == Some(errorModel + "s-error-form-" + field + "-" + kind)
    ensures kind == "user defined" ==> (k.Some? <==> field == "email")
    ensures kind == "user defined" && field == "email" ==> k == Some("users-error-form-email-valid")
    ensures kind != "unique" && kind != "required" && kind != "minlength" && kind != "user defined" ==> k.None?
  {
    if kind == "unique" || kind == "required" || kind == "minlength" then
      Some(errorModel + "s-error-form-" + field + "-" + kind)
    else if kind == "user defined" && field == "email" then Some("users-error-form-email-valid")
    else None
  }

  /** The message of one entry: the translated key, with the minimum length
      as parameter for `minlength`, or "" when the kind has no key. */
  function LocalizeOne(errorModel: string, field: string, fe: FieldError, t: Translator): string
  {
    match MessageKey(errorModel, field, fe.kind)
    case None => ""
    case Some(key) =>
      if fe.kind == "minlength" then
        t(key, match fe.minlength case Some(n) => map["minlength" := PNum(n)] case None => map[])
      else t(key, map[])
  }

  /** `localizeValidationErrors(error, t)`: one entry per key of
      `error.errors`, in the same order, field unchanged. */
  function LocalizeValidationErrors(modelMessage: string, errors: seq<(string, FieldError)>, t: Translator)
    : (r: seq<LocalizedError>)
    ensures |r| == |errors|
    ensures forall i :: 0 <= i < |r| ==> r[i].field == errors[i].0
    ensures forall i :: 0 <= i < |r| ==>
              (MessageKey(ErrorModel(modelMessage), errors[i].0, errors[i].1.kind).None? ==> r[i].message == "")
    ensures forall i :: 0 <= i < |r| && errors[i].1.kind in {"unique", "required"} ==>
              r[i].message == t(ErrorModel(modelMessage) + "s-error-form-" + errors[i].0 + "-" + errors[i].1.kind, map[])
    ensures forall i :: 0 <= i < |r| && errors[i].1.kind == "minlength" && errors[i].1.minlength.Some? ==>
              r[i].message == t(ErrorModel(modelMessage) + "s-error-form-" + errors[i].0 + "-" + errors[i].1.kind,
                                map["minlength" := PNum(errors[i].1.minlength.value)])
    ensures forall i :: 0 <= i < |r| && errors[i].1.kind == "minlength" && errors[i].1.minlength.None? ==>
              r[i].message == t(ErrorModel(modelMessage) + "s-error-form-" + errors[i].0 + "-" + errors[i].1.kind, map[])
    ensures forall i :: 0 <= i < |r| && errors[i].1.kind == "user defined" && errors[i].0 == "email" ==>
              r[i].message == t("users-error-form-email-valid", map[])
  {
    var errorModel := ErrorModel(modelMessage);
    seq(|errors|, i requires 0 <= i < |errors| =>
      LocalizedError(errors[i].0, LocalizeOne(errorModel, errors[i].0, errors[i].1, t)))
  }

  /** `ErrorModel` of the user model's validation message. */
  lemma UserErrorModel()
    ensures ErrorModel("User validation failed") == "user"
  {
    assert "User validation failed" == "User" + " " + "validation failed";
    FirstWordOfWordAndSpace("User", "validation failed");
    var w := "User";
    assert w[0] == 'U' && w[1] == 's' && w[2] == 'e' && w[3] == 'r';
    var l := ToLower(w);
    assert l[0] == 'u' && l[1] == 's' && l[2] == 'e' && l[3] == 'r';
    assert l == "user";
  }

  /** A validation error of the user model localises its keys under
      "users-error-form-". */
  lemma UserModelPrefix(field: string, kind: string)
    requires kind == "unique" || kind == "required" || kind == "minlength"
    ensures MessageKey(ErrorModel("User validation failed"), field, kind)
            == Some("users-error-form-" + field + "-" + kind)
  {
    UserErrorModel();
    var prefix := "user" + "s-error-form-";
    assert prefix == "users-error-form-";
    assert prefix + field + "-" + kind == "users-error-form-" + field + "-" + kind;
  }
}
