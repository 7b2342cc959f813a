/**
 * The registration form's submit handler: client-side validation, the
 * registration request, and the state updates the component makes along the
 * way (loading flag, error text, success flag, redirect). The server's reply
 * and the outcome of the automatic sign-in are inputs.
 */
module RegisterPage {
  import opened Wrappers
  import JsText

  const MinPasswordLength: nat := 6
  const MismatchError := "Passwords do not match"
  const TooShortError := "Password must be at least 6 characters long"
  const RegistrationFailed := "Registration failed"
  const GenericError := "An error occurred. Please try again."
  const DashboardPath := "/dashboard"
  const SignInPath := "/auth/signin"

  /** The JSON body of the registration request; `name` is left out when None. */
  datatype Payload = Payload(name: Option<string>, email: string, password: string)

  /** The reply's body: `response.json()` either rejects with a parse error or
      yields an object whose `error` member may be absent. */
  datatype ReplyBody = NotJson(parseError: string) | JsonObject(error: Option<string>)

  /** What `fetch` settles to. */
  datatype FetchResult = NetworkError(message: string) | Reply(ok: bool, body: ReplyBody)

  /** What `signIn("credentials", ...)` settles to. */
  datatype SignInResult = SignInOk | SignInNotOk | SignInThrew(message: string)

  /** One observable step of the handler, in the order it happens. */
  datatype Effect =
    | SetLoading(on: bool)
    | SetError(message: string)
    | SetSuccess(on: bool)
    | SendRequest(payload: Payload)
    | SignIn(email: string, password: string)
    | Redirect(path: string)

  /** The component's state that the handler writes, plus where the window was sent. */
  datatype View = View(isLoading: bool, error: string, success: bool, location: Option<string>)

  /** `name.trim() || undefined`: the trimmed name, or None when it is blank. */
  function NormalizedName(name: string): (n: Option<string>)
    ensures n.None? <==> JsText.AllSpace(name)
    ensures n.Some? ==> n.value == JsText.Trim(name) && n.value != []
  {
    var t := JsText.Trim(name);
    if t == [] then None else Some(t)
  }

  /** The validation message, if any: a mismatch is reported before a short
      password, and matching passwords of at least six characters pass. */
  function ValidationError(password: string, confirmPassword: string): (e: Option<string>)
    ensures password != confirmPassword ==> e == Some(MismatchError)
    ensures password == confirmPassword && |password| < MinPasswordLength ==> e == Some(TooShortError)
    ensures e.None? <==> password == confirmPassword && |password| >= MinPasswordLength
  {
    if password != confirmPassword then Some(MismatchError)
    else if |password| < MinPasswordLength then Some(TooShortError)
    else None
  }

  /** `(error as Error)?.message || "An error occurred. Please try again."`. */
  function CaughtMessage(message: string): (m: string)
    ensures m != []
    ensures message != [] ==> m == message
    ensures message == [] ==> m == GenericError
  {
    if message == "" then GenericError else message
  }

  /** The message of the error thrown for a non-ok reply: `data.error || "Registration failed"`. */
  function ReplyError(error: Option<string>): (m: string)
    ensures m != []
    ensures error.Some? && error.value != [] ==> m == error.value
    ensures !(error.Some? && error.value != []) ==> m == RegistrationFailed
  {
    if error.Some? && error.value != "" then error.value else RegistrationFailed
  }

  /** The steps after the request was sent, up to (not including) the final
      `finally`: never a loading change or a second request; success is set
      exactly when the reply is ok and parses, and is then followed by the
      sign-in with the form's credentials and one more step. */
  function AfterRequest(email: string, password: string, fetch: FetchResult, signIn: SignInResult): (r: seq<Effect>)
    ensures r != []
    ensures forall i :: 0 <= i < |r| ==> !r[i].SetLoading? && !r[i].SendRequest?
    ensures r[0] == SetSuccess(true) <==> fetch.Reply? && fetch.ok && fetch.body.JsonObject?
    ensures r[0] != SetSuccess(true) ==> |r| == 1 && r[0].SetError?
    ensures r[0] == SetSuccess(true) ==> |r| == 3 && r[1] == SignIn(email, password)
  {
    match fetch
    case NetworkError(m) => [SetError(CaughtMessage(m))]
    case Reply(ok, NotJson(m)) => [SetError(CaughtMessage(m))]
    case Reply(ok, JsonObject(err)) =>
      if !ok then [SetError(CaughtMessage(ReplyError(err)))]
      else
        [SetSuccess(true), SignIn(email, password)] +
        match signIn
        case SignInOk => [Redirect(DashboardPath)]
        case SignInNotOk => [Redirect(SignInPath)]
        case SignInThrew(m) => [SetError(CaughtMessage(m))]
  }

  /** Every step one submission takes, given the form's fields and the outcomes
      of the two asynchronous calls: loading is switched on first and off last
      and nowhere in between, and the request, carrying the normalised name,
      is the third step exactly when validation passes, and is sent once. */
  function SubmitEffects(name: string, email: string, password: string, confirmPassword: string,
                         fetch: FetchResult, signIn: SignInResult): (r: seq<Effect>)
    ensures |r| >= 4 && r[0] == SetLoading(true) && r[1] == SetError("") && r[|r| - 1] == SetLoading(false)
    ensures forall i :: 1 < i < |r| - 1 ==> !r[i].SetLoading?
    ensures r[2] == SendRequest(Payload(NormalizedName(name), email, password)) <==>
      ValidationError(password, confirmPassword).None?
    ensures forall i :: 0 <= i < |r| && i != 2 ==> !r[i].SendRequest?
  {
    OutcomeShape(name, email, password, confirmPassword, fetch, signIn);
    [SetLoading(true), SetError("")] + Outcome(name, email, password, confirmPassword, fetch, signIn)
  }

  /** The steps after loading is switched on and the error cleared: the
      validation message and the explicit clearing of loading before the early
      return, or the request and what follows it, closed by the `finally` that
      clears loading. */
  function Outcome(name: string, email: string, password: string, confirmPassword: string,
                   fetch: FetchResult, signIn: SignInResult): seq<Effect> {
    match ValidationError(password, confirmPassword)
    case Some(msg) => [SetError(msg), SetLoading(false)]
    case None =>
      [SendRequest(Payload(NormalizedName(name), email, password))]
      + AfterRequest(email, password, fetch, signIn) + [SetLoading(false)]
  }

  lemma AppendAssoc(a: seq<Effect>, b: seq<Effect>, c: seq<Effect>)
    ensures a + b + c == a + (b + c)
  {
  }

  lemma OutcomeShape(name: string, email: string, password: string, confirmPassword: string,
                     fetch: FetchResult, signIn: SignInResult)
    ensures var out := Outcome(name, email, password, confirmPassword, fetch, signIn);
      |out| >= 2 && out[|out| - 1] == SetLoading(false) &&
      (forall j :: 0 <= j < |out| - 1 ==> !out[j].SetLoading?) &&
      (out[0] == SendRequest(Payload(NormalizedName(name), email, password)) <==>
        ValidationError(password, confirmPassword).None?) &&
      (forall j :: 0 < j < |out| ==> !out[j].SendRequest?)
  {
    var out := Outcome(name, email, password, confirmPassword, fetch, signIn);
    if ValidationError(password, confirmPassword).None? {
      var after := AfterRequest(email, password, fetch, signIn);
      assert out == [SendRequest(Payload(NormalizedName(name), email, password))] + after + [SetLoading(false)];
      forall j | 1 <= j < |out| - 1 ensures out[j] == after[j - 1] {
      }
    }
  }

  function Apply(v: View, e: Effect): View {
    match e
    case SetLoading(on) => v.(isLoading := on)
    case SetError(m) => v.(error := m)
    case SetSuccess(on) => v.(success := on)
    case Redirect(path) => v.(location := Some(path))
    case _ => v
  }

  function ApplyAll(v: View, effects: seq<Effect>): View
    decreases |effects|
  {
    if effects == [] then v else ApplyAll(Apply(v, effects[0]), effects[1..])
  }

  lemma {:induction false} ApplyAllAppend(v: View, e1: seq<Effect>, e2: seq<Effect>)
    ensures ApplyAll(v, e1 + e2) == ApplyAll(ApplyAll(v, e1), e2)
    decreases |e1|
  {
    if e1 != [] {
      assert (e1 + e2)[1..] == e1[1..] + e2;
      ApplyAllAppend(Apply(v, e1[0]), e1[1..], e2);
    } else {
      assert e1 + e2 == e2;
    }
  }

  lemma ApplyAllCons(v: View, e: Effect, rest: seq<Effect>)
    ensures ApplyAll(v, [e] + rest) == ApplyAll(Apply(v, e), rest)
  {
    assert ([e] + rest)[1..] == rest;
  }

  /** The view after the steps that follow the request. */
  lemma AfterRequestReplay(v: View, email: string, password: string, fetch: FetchResult, signIn: SignInResult)
    ensures ApplyAll(v, AfterRequest(email, password, fetch, signIn)) ==
      match fetch
      case NetworkError(m) => v.(error := CaughtMessage(m))
      case Reply(ok, NotJson(m)) => v.(error := CaughtMessage(m))
      case Reply(ok, JsonObject(err)) =>
        if !ok then v.(error := ReplyError(err))
        else match signIn
          case SignInOk => v.(success := true, location := Some(DashboardPath))
          case SignInNotOk => v.(success := true, location := Some(SignInPath))
          case SignInThrew(m) => v.(success := true, error := CaughtMessage(m))
  {
    var after := AfterRequest(email, password, fetch, signIn);
    if fetch.Reply? && fetch.body.JsonObject? && fetch.ok {
      var last := after[2];
      assert after == [SetSuccess(true)] + ([SignIn(email, password)] + [last]);
      ApplyAllCons(v, SetSuccess(true), [SignIn(email, password)] + [last]);
      ApplyAllCons(Apply(v, SetSuccess(true)), SignIn(email, password), [last]);
    }
  }

  /** The view after a whole submission. */
  lemma SubmitReplay(before: View, name: string, email: string, password: string, confirmPassword: string,
                     fetch: FetchResult, signIn: SignInResult)
    ensures ApplyAll(before, SubmitEffects(name, email, password, confirmPassword, fetch, signIn)) ==
      match ValidationError(password, confirmPassword)
      case Some(msg) => before.(isLoading := false, error := msg)
      case None =>
        ApplyAll(before.(isLoading := true, error := ""), AfterRequest(email, password, fetch, signIn)).(isLoading := false)
  {
    var out := Outcome(name, email, password, confirmPassword, fetch, signIn);
    assert SubmitEffects(name, email, password, confirmPassword, fetch, signIn) == [SetLoading(true)] + ([SetError("")] + out);
    ApplyAllCons(before, SetLoading(true), [SetError("")] + out);
    ApplyAllCons(before.(isLoading := true), SetError(""), out);
    OutcomeReplay(before.(isLoading := true, error := ""), name, email, password, confirmPassword, fetch, signIn);
  }

  lemma OutcomeReplay(v: View, name: string, email: string, password: string, confirmPassword: string,
                      fetch: FetchResult, signIn: SignInResult)
    ensures ApplyAll(v, Outcome(name, email, password, confirmPassword, fetch, signIn)) ==
      match ValidationError(password, confirmPassword)
      case Some(msg) => v.(isLoading := false, error := msg)
      case None => ApplyAll(v, AfterRequest(email, password, fetch, signIn)).(isLoading := false)
  {
    var out := Outcome(name, email, password, confirmPassword, fetch, signIn);
    match ValidationError(password, confirmPassword)
    case Some(msg) =>
      assert out == [SetError(msg)] + [SetLoading(false)];
      ApplyAllCons(v, SetError(msg), [SetLoading(false)]);
    case None =>
      var after := AfterRequest(email, password, fetch, signIn);
      var request := SendRequest(Payload(NormalizedName(name), email, password));
      assert out == [request] + (after + [SetLoading(false)]);
      ApplyAllCons(v, request, after + [SetLoading(false)]);
      ApplyAllAppend(v, after, [SetLoading(false)]);
  }

  /** Every submission starts by setting the loading flag and clearing the
      error, and ends by clearing the loading flag, whatever path it takes. */
  lemma LoadingDiscipline(name: string, email: string, password: string, confirmPassword: string,
                          fetch: FetchResult, signIn: SignInResult, before: View)
    ensures var effects := SubmitEffects(name, email, password, confirmPassword, fetch, signIn);
      |effects| >= 3 && effects[0] == SetLoading(true) && effects[1] == SetError("") &&
      effects[|effects| - 1] == SetLoading(false) &&
      !ApplyAll(before, effects).isLoading
  {
    var effects := SubmitEffects(name, email, password, confirmPassword, fetch, signIn);
    ApplyAllAppend(before, effects[..|effects| - 1], [SetLoading(false)]);
    assert effects[..|effects| - 1] + [SetLoading(false)] == effects;
  }

  /** Validation failures: the request is never sent, the mismatch message wins
      over the length message, and the error shown is the validation message. */
  lemma ValidationBlocksRequest(name: string, email: string, password: string, confirmPassword: string,
                                fetch: FetchResult, signIn: SignInResult, before: View)
    requires ValidationError(password, confirmPassword).Some?
    ensures var effects := SubmitEffects(name, email, password, confirmPassword, fetch, signIn);
      (forall i :: 0 <= i < |effects| ==> !effects[i].SendRequest? && !effects[i].SetSuccess?) &&
      ApplyAll(before, effects) ==
        before.(isLoading := false, error := ValidationError(password, confirmPassword).value)
  {
    var msg := ValidationError(password, confirmPassword).value;
    var effects := SubmitEffects(name, email, password, confirmPassword, fetch, signIn);
    assert effects == [SetLoading(true), SetError(""), SetError(msg), SetLoading(false)];
    SubmitReplay(before, name, email, password, confirmPassword, fetch, signIn);
  }

  /** Passing validation sends exactly one request, carrying the normalised
      name and the email and password as typed. */
  lemma ValidInputSendsRequest(name: string, email: string, password: string, confirmPassword: string,
                               fetch: FetchResult, signIn: SignInResult)
    requires password == confirmPassword && |password| >= MinPasswordLength
    ensures var effects := SubmitEffects(name, email, password, confirmPassword, fetch, signIn);
      effects[2] == SendRequest(Payload(NormalizedName(name), email, password)) &&
      forall i :: 0 <= i < |effects| && i != 2 ==> !effects[i].SendRequest?
  {
    var after := AfterRequest(email, password, fetch, signIn);
    var effects := SubmitEffects(name, email, password, confirmPassword, fetch, signIn);
    assert effects == [SetLoading(true), SetError(""), SendRequest(Payload(NormalizedName(name), email, password))]
      + after + [SetLoading(false)];
    forall i | 0 <= i < |effects| && i != 2 ensures !effects[i].SendRequest? {
      if 3 <= i < 3 + |after| {
        assert effects[i] == after[i - 3];
      }
    }
  }

  /** A non-ok reply shows the server's `error` text (or "Registration
      failed") and never marks success or redirects. */
  lemma RejectedReply(name: string, email: string, password: string, error: Option<string>,
                      signIn: SignInResult, before: View)
    requires |password| >= MinPasswordLength
    ensures var effects := SubmitEffects(name, email, password, password, Reply(false, JsonObject(error)), signIn);
      var after := ApplyAll(before, effects);
      after == before.(isLoading := false, error := ReplyError(error)) &&
      (error.Some? && error.value != "" ==> after.error == error.value) &&
      (error.None? ==> after.error == RegistrationFailed)
  {
    SubmitReplay(before, name, email, password, password, Reply(false, JsonObject(error)), signIn);
    AfterRequestReplay(before.(isLoading := true, error := ""), email, password, Reply(false, JsonObject(error)), signIn);
  }

  /** Success is set only after an ok JSON reply; the window then goes to the
      dashboard when the sign-in succeeds and to the sign-in page when it does
      not; a sign-in that throws leaves success set and shows its message. */
  lemma AcceptedReply(name: string, email: string, password: string, error: Option<string>,
                      signIn: SignInResult, before: View)
    requires |password| >= MinPasswordLength
    ensures var effects := SubmitEffects(name, email, password, password, Reply(true, JsonObject(error)), signIn);
      var after := ApplyAll(before, effects);
      after.success && !after.isLoading &&
      (signIn.SignInOk? ==> after.location == Some(DashboardPath) && after.error == "") &&
      (signIn.SignInNotOk? ==> after.location == Some(SignInPath) && after.error == "") &&
      (signIn.SignInThrew? ==> after.location == before.location && after.error == CaughtMessage(signIn.message))
  {
    SubmitReplay(before, name, email, password, password, Reply(true, JsonObject(error)), signIn);
    AfterRequestReplay(before.(isLoading := true, error := ""), email, password, Reply(true, JsonObject(error)), signIn);
  }

  /** Without an ok JSON reply nothing marks success. */
  lemma SuccessNeedsOkReply(name: string, email: string, password: string, confirmPassword: string,
                            fetch: FetchResult, signIn: SignInResult)
    requires !(fetch.Reply? && fetch.ok && fetch.body.JsonObject?)
    ensures var effects := SubmitEffects(name, email, password, confirmPassword, fetch, signIn);
      forall i :: 0 <= i < |effects| ==> !effects[i].SetSuccess? && !effects[i].Redirect?
  {
    var out := Outcome(name, email, password, confirmPassword, fetch, signIn);
    OutcomeNeedsOkReply(name, email, password, confirmPassword, fetch, signIn);
    var effects := SubmitEffects(name, email, password, confirmPassword, fetch, signIn);
    forall i | 2 <= i < |effects| ensures !effects[i].SetSuccess? && !effects[i].Redirect? {
      assert effects[i] == out[i - 2];
    }
  }

  lemma OutcomeNeedsOkReply(name: string, email: string, password: string, confirmPassword: string,
                            fetch: FetchResult, signIn: SignInResult)
    requires !(fetch.Reply? && fetch.ok && fetch.body.JsonObject?)
    ensures var out := Outcome(name, email, password, confirmPassword, fetch, signIn);
      forall i :: 0 <= i < |out| ==> !out[i].SetSuccess? && !out[i].Redirect?
  {
    if ValidationError(password, confirmPassword).None? {
      var after := AfterRequest(email, password, fetch, signIn);
      assert after == [after[0]] && after[0].SetError?;
      assert Outcome(name, email, password, confirmPassword, fetch, signIn)
        == [SendRequest(Payload(NormalizedName(name), email, password)), after[0], SetLoading(false)];
    }
  }

  datatype Field = NameField | EmailField | PasswordField | ConfirmPasswordField

  /** The register page component: its input fields, the state the submit
      handler writes, and the log of every step the handler has taken. */
  class RegisterForm {
    var name: string
    var email: string
    var password: string
    var confirmPassword: string
    var isLoading: bool
    var error: string
    var success: bool
    var location: Option<string>
    var effects: seq<Effect>

    function CurrentView(): View
      reads this
    {
      View(isLoading, error, success, location)
    }

    constructor ()
      ensures name == "" && email == "" && password == "" && confirmPassword == ""
      ensures CurrentView() == View(false, "", false, None) && effects == []
    {
      name, email, password, confirmPassword := "", "", "", "";
      isLoading, error, success, location := false, "", false, None;
      effects := [];
    }

    /** An input's `onChange`. */
    method Edit(field: Field, value: string)
      modifies this
      ensures name == (if field == NameField then value else old(name))
      ensures email == (if field == EmailField then value else old(email))
      ensures password == (if field == PasswordField then value else old(password))
      ensures confirmPassword == (if field == ConfirmPasswordField then value else old(confirmPassword))
      ensures CurrentView() == old(CurrentView()) && effects == old(effects)
    {
      match field
      case NameField => name := value;
      case EmailField => email := value;
      case PasswordField => password := value;
      case ConfirmPasswordField => confirmPassword := value;
    }

    /** The view is the replay, from `v0`, of the steps logged after `log0`. */
    ghost predicate Replays(v0: View, log0: seq<Effect>)
      reads this
    {
      |log0| <= |effects| && effects[..|log0|] == log0 && CurrentView() == ApplyAll(v0, effects[|log0|..])
    }

    /** Takes one step: records it and applies it to the view. */
    method Step(e: Effect, ghost v0: View, ghost log0: seq<Effect>)
      requires Replays(v0, log0)
      modifies this`isLoading, this`error, this`success, this`location, this`effects
      ensures effects == old(effects) + [e]
      ensures CurrentView() == Apply(old(CurrentView()), e)
      ensures Replays(v0, log0)
    {
      ghost var done := effects[|log0|..];
      effects := effects + [e];
      match e {
        case SetLoading(on) => isLoading := on;
        case SetError(m) => error := m;
        case SetSuccess(on) => success := on;
        case Redirect(path) => location := Some(path);
        case _ =>
      }
      ApplyAllAppend(v0, done, [e]);
      assert effects[|log0|..] == done + [e];
      assert effects[..|log0|] == old(effects)[..|log0|];
    }

    /** `handleSubmit`, with the settled outcomes of `fetch` and `signIn`. */
    method HandleSubmit(fetch: FetchResult, signIn: SignInResult)
      modifies this`isLoading, this`error, this`success, this`location, this`effects
      ensures name == old(name) && email == old(email)
      ensures password == old(password) && confirmPassword == old(confirmPassword)
      ensures effects == old(effects) + SubmitEffects(name, email, password, confirmPassword, fetch, signIn)
      ensures CurrentView() ==
        ApplyAll(old(CurrentView()), SubmitEffects(name, email, password, confirmPassword, fetch, signIn))
    {
      ghost var v0 := CurrentView();
      ghost var log0 := effects;
      assert effects[|log0|..] == [];
      Step(SetLoading(true), v0, log0);
      Step(SetError(""), v0, log0);
      assert effects == log0 + [SetLoading(true), SetError("")];
      Proceed(fetch, signIn, v0, log0);
      AppendAssoc(log0, [SetLoading(true), SetError("")], Outcome(name, email, password, confirmPassword, fetch, signIn));
      assert effects[|log0|..] == SubmitEffects(name, email, password, confirmPassword, fetch, signIn);
    }

    /** The `if` chain of `handleSubmit` and the `try`/`finally` after it. */
    method Proceed(fetch: FetchResult, signIn: SignInResult, ghost v0: View, ghost log0: seq<Effect>)
      requires Replays(v0, log0)
      modifies this`isLoading, this`error, this`success, this`location, this`effects
      ensures effects == old(effects) + Outcome(name, email, password, confirmPassword, fetch, signIn)
      ensures Replays(v0, log0)
    {
      if password != confirmPassword {
        assert ValidationError(password, confirmPassword) == Some(MismatchError);
        Reject(MismatchError, v0, log0);
      } else if |password| < MinPasswordLength {
        assert ValidationError(password, confirmPassword) == Some(TooShortError);
        Reject(TooShortError, v0, log0);
      } else {
        assert ValidationError(password, confirmPassword) == None;
        Send(fetch, signIn, v0, log0);
      }
    }

    /** A validation failure: show the message and clear the loading flag. */
    method Reject(message: string, ghost v0: View, ghost log0: seq<Effect>)
      requires Replays(v0, log0)
      modifies this`isLoading, this`error, this`success, this`location, this`effects
      ensures effects == old(effects) + [SetError(message), SetLoading(false)]
      ensures Replays(v0, log0)
    {
      Step(SetError(message), v0, log0);
      Step(SetLoading(false), v0, log0);
    }

    /** Validation passed: send the request, await the outcome, and clear the
        loading flag in `finally`. */
    method Send(fetch: FetchResult, signIn: SignInResult, ghost v0: View, ghost log0: seq<Effect>)
      requires Replays(v0, log0)
      modifies this`isLoading, this`error, this`success, this`location, this`effects
      ensures effects == old(effects) + ([SendRequest(Payload(NormalizedName(name), email, password))]
        + AfterRequest(email, password, fetch, signIn) + [SetLoading(false)])
      ensures Replays(v0, log0)
    {
      ghost var before := effects;
      var request := SendRequest(Payload(NormalizedName(name), email, password));
      Step(request, v0, log0);
      AwaitReply(fetch, signIn, v0, log0);
      ghost var reply := AfterRequest(email, password, fetch, signIn);
      AppendAssoc(before, [request], reply);
      Step(SetLoading(false), v0, log0);
      AppendAssoc(before, [request] + reply, [SetLoading(false)]);
    }

    /** The `try` block after the request is sent, and its `catch`. */
    method AwaitReply(fetch: FetchResult, signIn: SignInResult, ghost v0: View, ghost log0: seq<Effect>)
      requires Replays(v0, log0)
      modifies this`isLoading, this`error, this`success, this`location, this`effects
      ensures effects == old(effects) + AfterRequest(email, password, fetch, signIn)
      ensures Replays(v0, log0)
    {
      match fetch {
        case NetworkError(m) =>
          Step(SetError(CaughtMessage(m)), v0, log0);
        case Reply(ok, NotJson(m)) =>
          Step(SetError(CaughtMessage(m)), v0, log0);
        case Reply(ok, JsonObject(err)) =>
          if !ok {
            Step(SetError(CaughtMessage(ReplyError(err))), v0, log0);
          } else {
            Step(SetSuccess(true), v0, log0);
            Step(SignIn(email, password), v0, log0);
            match signIn {
              case SignInOk => Step(Redirect(DashboardPath), v0, log0);
              case SignInNotOk => Step(Redirect(SignInPath), v0, log0);
              case SignInThrew(m) => Step(SetError(CaughtMessage(m)), v0, log0);
            }
          }
      }
    }
  }
}
