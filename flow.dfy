/** The setup flow (custom_components/findmy/config_flow.py): four step
    handlers that log in, optionally negotiate an SMS second factor, load the
    accessory's property list and create the configuration entry.

    Each handler is a method of `ConfigFlow` that updates the flow's fields
    and its hub; it is specified by a function of the same step on values
    (`OnUser`, `OnTwoFaMethod`, `OnTwoFaCode`, `OnPlist`) that gives the new
    fields, the result shown to the host and the account-library calls made.
    What the library answers is passed in. */
module Flow {
  import opened Builtins
  import opened Hub

  /** The four steps: `user`, `2fa_method`, `2fa_code` and `plist`. */
  datatype StepId = User | TwoFaMethod | TwoFaCode | Plist

  /** The user step's form: anisette URL, account email and password. */
  datatype UserInput = UserInput(url: string, email: string, password: string)

  datatype SelectOption = SelectOption(display: string, value: string)

  /** The configuration entry's data: the URL, the exported account session
      and the raw property-list text. */
  datatype EntryData = EntryData(url: Option<string>, account: Credentials, plist: string)

  /** What a step hands back to the host. `Form` carries the options of the
      method selector (empty for the other forms) and the error map (empty
      where the source passes none). `Raised` is an exception the step does
      not catch. */
  datatype FlowResult =
    | Form(step: StepId, options: seq<SelectOption>, errors: map<string, string>)
    | Abort(reason: string)
    | CreateEntry(title: string, data: EntryData)
    | Raised(exc: PyException)

  /** The flow's fields, with the hub as its value. */
  datatype FlowState = FlowState(
    url: Option<string>, email: Option<string>, hub: Option<HubState>, twoFactorMethod: Option<int>)
  {
    /** The hub is only ever created together with the URL and email it was
        made for, and a method is only ever chosen once a hub exists. */
    ghost predicate Valid() {
      (hub.Some? ==> url == Some(hub.value.url) && email.Some?) &&
      (twoFactorMethod.Some? ==> hub.Some?)
    }
  }

  const Initial := FlowState(None, None, None, None)

  /** A step's effect: the new fields, the result and the library calls made. */
  datatype Outcome = Outcome(state: FlowState, result: FlowResult, remote: seq<RemoteCall>)

  const ErrorKey := "base"
  const InvalidInput := "invalid input"

  /** The user step's error code for an exception raised while logging in or
      listing methods. */
  function UserErrorCode(e: PyException): string {
    match e
    case ClientConnectorError => "cannot_connect"
    case InvalidCredentialsError => "invalid_auth"
    case UnauthorizedError => "invalid_auth"
    case _ => "unknown"
  }

  /** The hub's `(value, label)` pairs as selector options. */
  function SelectOptions(pairs: seq<(string, string)>): (options: seq<SelectOption>)
    ensures |options| == |pairs|
    ensures forall k | 0 <= k < |pairs| ::
      options[k].value == pairs[k].0 && options[k].display == pairs[k].1
  {
    seq(|pairs|, k requires 0 <= k < |pairs| => SelectOption(pairs[k].1, pairs[k].0))
  }

  function InvalidLiteral(text: string): PyException {
    ValueError("invalid literal for int() with base 10: '" + text + "'")
  }

  function Succeeded(state: LoginState): bool {
    state == LoggedIn || state == Authenticated
  }

  // ------------------------------------------------------------ steps as functions

  function OnUser(s: FlowState, input: Option<UserInput>, login: Attempt<LoginState>,
                  offered: Attempt<seq<TwoFactorMethod>>): Outcome
  {
    match input
    case None => Outcome(s, Form(User, [], map[]), [])
    case Some(u) =>
      var hub := NewHubState(u.url);
      var s1 := s.(url := Some(u.url), email := Some(u.email), hub := Some(hub));
      var tried := [Login(u.email, u.password)];
      match login
      case Err(e) => Outcome(s1, Form(User, [], map[ErrorKey := UserErrorCode(e)]), tried)
      case Ok(state) =>
        if state == Require2fa then
          match offered
          case Err(e) =>
            Outcome(s1, Form(User, [], map[ErrorKey := UserErrorCode(e)]), tried + [ListMethods])
          case Ok(ms) =>
            var kept := SmsOnly(ms);
            Outcome(s1.(hub := Some(hub.(methods := Some(kept)))),
                    Form(TwoFaMethod, SelectOptions(MethodOptions(kept)), map[]),
                    tried + [ListMethods])
        else if state == LoggedIn then Outcome(s1, Form(Plist, [], map[]), tried)
        else Outcome(s1, Form(User, [], map[ErrorKey := "invalid_auth"]), tried)
  }

  function OnTwoFaMethod(s: FlowState, input: Option<string>, delivery: Attempt<()>): Outcome {
    if input.None? || s.hub.None? then Outcome(s, Abort(InvalidInput), [])
    else
      match ParseInt(input.value)
      case None => Outcome(s, Raised(InvalidLiteral(input.value)), [])
      case Some(i) =>
        var s1 := s.(twoFactorMethod := Some(i));
        match Resolve(s.hub.value.methods, i)
        case Err(e) => Outcome(s1, Raised(e), [])
        case Ok(m) =>
          match delivery
          case Ok(_) => Outcome(s1, Form(TwoFaCode, [], map[]), [Request(m)])
          case Err(e) =>
            if e == UnhandledProtocolError then Outcome(s1, Abort("unknown"), [Request(m)])
            else Outcome(s1, Raised(e), [Request(m)])
  }

  function OnTwoFaCode(s: FlowState, input: Option<string>, verdict: Attempt<LoginState>): Outcome {
    if input.None? || s.hub.None? || s.twoFactorMethod.None? then Outcome(s, Abort(InvalidInput), [])
    else
      match Resolve(s.hub.value.methods, s.twoFactorMethod.value)
      case Err(e) => Outcome(s, Raised(e), [])
      case Ok(m) =>
        var sent := [Submit(m, input.value)];
        match verdict
        case Err(e) => Outcome(s, Raised(e), sent)
        case Ok(state) =>
          if Succeeded(state) then Outcome(s, Form(Plist, [], map[]), sent)
          else Outcome(s, Abort("invalid_2fa_code"), sent)
  }

  /** What the plist step returns for an exception inside its `try`: only an
      invalid file is caught, and re-shows the form with `invalid_file`. */
  function PlistFailure(e: PyException): (r: FlowResult)
    ensures r.Form? <==> e == InvalidFileException
    ensures r.Form? ==> r == Form(Plist, [], map[ErrorKey := "invalid_file"])
    ensures !r.Form? ==> r == Raised(e)
  {
    if e == InvalidFileException then Form(Plist, [], map[ErrorKey := "invalid_file"]) else Raised(e)
  }

  /** `exported` is what exporting the account session answers; it is asked
      for only after the property list has loaded. */
  function OnPlist(s: FlowState, input: Option<string>, parse: string -> Attempt<Accessory>,
                   exported: Attempt<Credentials>): Outcome
  {
    if input.None? || s.hub.None? || s.email.None? || s.email.value == "" then
      Outcome(s, Abort(InvalidInput), [])
    else
      match parse(input.value)
      case Err(e) => Outcome(s, PlistFailure(e), [])
      case Ok(a) =>
        var s1 := s.(hub := Some(s.hub.value.(accessory := Some(a))));
        match exported
        case Err(e) => Outcome(s1, PlistFailure(e), [])
        case Ok(account) => Outcome(s1, CreateEntry(s.email.value, EntryData(s.url, account, input.value)), [])
  }

  // ------------------------------------------------------------ properties of the steps

  /** Without input the user step shows its form with no error and touches
      nothing. */
  lemma UserWithoutInput(s: FlowState, login: Attempt<LoginState>, offered: Attempt<seq<TwoFactorMethod>>)
    ensures OnUser(s, None, login, offered) == Outcome(s, Form(User, [], map[]), [])
  {
  }

  /** URL and email are recorded, and a fresh hub built for the URL, whatever
      the login then answers; the first library call is the login with the
      entered credentials. */
  lemma UserRecordsAccountFirst(s: FlowState, u: UserInput, login: Attempt<LoginState>,
                                offered: Attempt<seq<TwoFactorMethod>>)
    ensures var o := OnUser(s, Some(u), login, offered);
      o.state.url == Some(u.url) && o.state.email == Some(u.email) &&
      o.state.hub.Some? && o.state.hub.value.url == u.url && o.state.hub.value.accessory.None? &&
      o.state.twoFactorMethod == s.twoFactorMethod &&
      |o.remote| > 0 && o.remote[0] == Login(u.email, u.password)
  {
  }

  /** The login state decides the next step: a second factor leads to the
      method form (one option per SMS method offered), a completed login to
      the property-list form, anything else back to the user form with
      `invalid_auth`. */
  lemma UserLoginRouting(s: FlowState, u: UserInput, state: LoginState,
                         offered: Attempt<seq<TwoFactorMethod>>)
    ensures var r := OnUser(s, Some(u), Ok(state), offered).result;
      (state == Require2fa && offered.Ok? ==>
         r.Form? && r.step == TwoFaMethod && r.errors == map[] &&
         |r.options| == |SmsOnly(offered.value)| &&
         forall k | 0 <= k < |r.options| ::
           ParseInt(r.options[k].value) == Some(k) &&
           r.options[k].display == "SMS " + SmsOnly(offered.value)[k].phoneNumber) &&
      (state == LoggedIn ==> r == Form(Plist, [], map[])) &&
      (state != Require2fa && state != LoggedIn ==> r == Form(User, [], map[ErrorKey := "invalid_auth"]))
  {
    if state == Require2fa && offered.Ok? {
      var kept := SmsOnly(offered.value);
      forall k | 0 <= k < |kept| ensures ParseInt(MethodOptions(kept)[k].0) == Some(k) {
        ChosenOptionResolves(kept, k);
      }
    }
  }

  /** An exception while logging in or listing methods re-shows the user form
      with exactly one error, under `base`: `cannot_connect` for a connection
      failure, `invalid_auth` for rejected credentials, `unknown` otherwise. */
  lemma UserErrorMapping(s: FlowState, u: UserInput, login: Attempt<LoginState>,
                         offered: Attempt<seq<TwoFactorMethod>>, e: PyException)
    requires login == Err(e) || (login == Ok(Require2fa) && offered == Err(e))
    ensures var r := OnUser(s, Some(u), login, offered).result;
      r.Form? && r.step == User && r.errors.Keys == {ErrorKey} &&
      (r.errors[ErrorKey] == "cannot_connect" <==> e == ClientConnectorError) &&
      (r.errors[ErrorKey] == "invalid_auth" <==> e == InvalidCredentialsError || e == UnauthorizedError) &&
      (r.errors[ErrorKey] == "unknown" <==>
         !(e == ClientConnectorError || e == InvalidCredentialsError || e == UnauthorizedError))
  {
  }

  /** The user step's error map never holds more than the one `base` entry. */
  lemma UserErrorsAtMostOne(s: FlowState, input: Option<UserInput>, login: Attempt<LoginState>,
                            offered: Attempt<seq<TwoFactorMethod>>)
    ensures var r := OnUser(s, input, login, offered).result;
      r.Form? && r.errors.Keys <= {ErrorKey} &&
      (r.step != User ==> r.errors == map[]) &&
      (input.Some? && r.step == User ==> ErrorKey in r.errors) &&
      forall k | k in r.errors :: r.errors[k] in {"cannot_connect", "invalid_auth", "unknown"}
  {
  }

  /** Picking the option labelled `k` on the method form stores `k` as the
      chosen method and requests a code from the `k`-th SMS method offered. */
  lemma MethodChoiceRoundTrip(s: FlowState, u: UserInput, offered: seq<TwoFactorMethod>,
                              k: nat, delivery: Attempt<()>)
    requires k < |SmsOnly(offered)|
    ensures var o1 := OnUser(s, Some(u), Ok(Require2fa), Ok(offered));
      var choice := o1.result.options[k].value;
      var o2 := OnTwoFaMethod(o1.state, Some(choice), delivery);
      o2.state.twoFactorMethod == Some(k) && o2.remote == [Request(SmsOnly(offered)[k])]
  {
    ChosenOptionResolves(SmsOnly(offered), k);
  }

  /** The method step aborts with `invalid input` without input or hub and
      with `unknown` on a protocol error; a delivered code leads to the code
      form. */
  lemma MethodStepOutcomes(s: FlowState, input: Option<string>, delivery: Attempt<()>)
    ensures var o := OnTwoFaMethod(s, input, delivery);
      ((input.None? || s.hub.None?) ==> o == Outcome(s, Abort(InvalidInput), [])) &&
      (input.Some? && s.hub.Some? && ParseInt(input.value).Some? &&
       Resolve(s.hub.value.methods, ParseInt(input.value).value).Ok? ==>
         o.state == s.(twoFactorMethod := ParseInt(input.value)) &&
         o.remote == [Request(Resolve(s.hub.value.methods, ParseInt(input.value).value).value)] &&
         (delivery == Err(UnhandledProtocolError) ==> o.result == Abort("unknown")) &&
         (delivery.Ok? ==> o.result == Form(TwoFaCode, [], map[])))
  {
  }

  /** The code step leads to the property-list form exactly when the library
      reports the login complete; any other answer ends the flow with
      `invalid_2fa_code`. */
  lemma CodeStepOutcomes(s: FlowState, code: string, state: LoginState)
    requires s.hub.Some? && s.twoFactorMethod.Some?
    requires Resolve(s.hub.value.methods, s.twoFactorMethod.value).Ok?
    ensures var o := OnTwoFaCode(s, Some(code), Ok(state));
      o.state == s &&
      o.remote == [Submit(Resolve(s.hub.value.methods, s.twoFactorMethod.value).value, code)] &&
      (o.result == Form(Plist, [], map[]) <==> state == LoggedIn || state == Authenticated) &&
      (o.result == Abort("invalid_2fa_code") <==> state == LoggedOut || state == Require2fa)
  {
  }

  /** Only the property-list step creates an entry, and only from a property
      list that parses and a session that exports: titled with the recorded
      email, holding the URL, the exported session and the raw text. Once the
      list parses the accessory stays loaded, even if the export then fails.
      An invalid file re-shows the form with `invalid_file` and changes
      nothing. */
  lemma EntryOnlyFromPlist(s: FlowState, input: Option<string>, parse: string -> Attempt<Accessory>,
                           exported: Attempt<Credentials>)
    ensures var o := OnPlist(s, input, parse, exported);
      (o.result.CreateEntry? <==>
         input.Some? && s.hub.Some? && s.email.Some? && s.email.value != "" &&
         parse(input.value).Ok? && exported.Ok?) &&
      (o.result.CreateEntry? ==>
         o.result.title == s.email.value &&
         o.result.data == EntryData(s.url, exported.value, input.value)) &&
      (input.Some? && s.hub.Some? && s.email.Some? && s.email.value != "" && parse(input.value).Ok? ==>
         o.state == s.(hub := Some(s.hub.value.(accessory := Some(parse(input.value).value)))) &&
         (exported.Err? ==> o.result == PlistFailure(exported.exc))) &&
      (input.Some? && s.hub.Some? && s.email.Some? && s.email.value != "" &&
       parse(input.value) == Err(InvalidFileException) ==>
         o == Outcome(s, Form(Plist, [], map[ErrorKey := "invalid_file"]), [])) &&
      o.remote == []
  {
  }

  /** No other step creates an entry. */
  lemma OtherStepsCreateNoEntry(s: FlowState, input: Option<UserInput>, login: Attempt<LoginState>,
                                offered: Attempt<seq<TwoFactorMethod>>, choice: Option<string>,
                                delivery: Attempt<()>, code: Option<string>, verdict: Attempt<LoginState>)
    ensures !OnUser(s, input, login, offered).result.CreateEntry?
    ensures !OnTwoFaMethod(s, choice, delivery).result.CreateEntry?
    ensures !OnTwoFaCode(s, code, verdict).result.CreateEntry?
  {
  }

  /** Every step keeps the flow's fields consistent. */
  lemma StepsKeepValid(s: FlowState, input: Option<UserInput>, login: Attempt<LoginState>,
                       offered: Attempt<seq<TwoFactorMethod>>, choice: Option<string>,
                       delivery: Attempt<()>, code: Option<string>, verdict: Attempt<LoginState>,
                       plist: Option<string>, parse: string -> Attempt<Accessory>,
                       exported: Attempt<Credentials>)
    requires s.Valid()
    ensures OnUser(s, input, login, offered).state.Valid()
    ensures OnTwoFaMethod(s, choice, delivery).state.Valid()
    ensures OnTwoFaCode(s, code, verdict).state.Valid()
    ensures OnPlist(s, plist, parse, exported).state.Valid()
  {
  }

  // ------------------------------------------------------------ the flow object

  class ConfigFlow {
    var url: Option<string>
    var email: Option<string>
    var hub: FindMyHub?
    var twoFactorMethod: Option<int>

    function State(): FlowState
      reads this, hub
    {
      FlowState(url, email, if hub == null then None else Some(hub.State()), twoFactorMethod)
    }

    constructor ()
      ensures State() == Initial && hub == null
    {
      url := None;
      email := None;
      hub := null;
      twoFactorMethod := None;
    }

    method StepUser(input: Option<UserInput>, login: Attempt<LoginState>,
                    offered: Attempt<seq<TwoFactorMethod>>) returns (r: FlowResult)
      modifies this
      ensures var o := OnUser(old(State()), input, login, offered);
        State() == o.state && r == o.result
      ensures input.None? ==> hub == old(hub)
      ensures input.Some? ==>
        hub != null && fresh(hub) && hub.calls == OnUser(old(State()), input, login, offered).remote
    {
      var errors: map<string, string> := map[];
      if input.Some? {
        var u := input.value;
        url := Some(u.url);
        email := Some(u.email);
        var h := new FindMyHub(u.url);
        hub := h;
        var state := h.Authenticate(u.email, u.password, login);
        if state.Err? {
          errors := errors[ErrorKey := UserErrorCode(state.exc)];
        } else if state.value == Require2fa {
          var listed := h.GetTwoFactorMethods(offered);
          if listed.Ok? {
            return Form(TwoFaMethod, SelectOptions(listed.value), map[]);
          }
          errors := errors[ErrorKey := UserErrorCode(listed.exc)];
        } else if state.value == LoggedIn {
          return Form(Plist, [], map[]);
        } else {
          errors := errors[ErrorKey := "invalid_auth"];
        }
      }
      r := Form(User, [], errors);
    }

    method StepTwoFaMethod(input: Option<string>, delivery: Attempt<()>) returns (r: FlowResult)
      modifies this, hub
      ensures var o := OnTwoFaMethod(old(State()), input, delivery);
        State() == o.state && r == o.result
      ensures hub == old(hub)
      ensures hub != null ==>
        hub.calls == old(hub.calls) + OnTwoFaMethod(old(State()), input, delivery).remote
    {
      if input.None? || hub == null {
        return Abort(InvalidInput);
      }
      var index := ParseInt(input.value);
      if index.None? {
        return Raised(InvalidLiteral(input.value));
      }
      twoFactorMethod := index;
      var requested := hub.RequestTwoFactor(index.value, delivery);
      if requested.Err? {
        if requested.exc == UnhandledProtocolError {
          return Abort("unknown");
        }
        return Raised(requested.exc);
      }
      r := Form(TwoFaCode, [], map[]);
    }

    method StepTwoFaCode(input: Option<string>, verdict: Attempt<LoginState>) returns (r: FlowResult)
      modifies hub
      ensures var o := OnTwoFaCode(old(State()), input, verdict);
        State() == o.state && r == o.result
      ensures hub != null ==>
        hub.calls == old(hub.calls) + OnTwoFaCode(old(State()), input, verdict).remote
    {
      if input.None? || hub == null || twoFactorMethod.None? {
        return Abort(InvalidInput);
      }
      var state := hub.SubmitTwoFactor(twoFactorMethod.value, input.value, verdict);
      if state.Err? {
        return Raised(state.exc);
      }
      if !Succeeded(state.value) {
        return Abort("invalid_2fa_code");
      }
      r := Form(Plist, [], map[]);
    }

    method StepPlist(input: Option<string>, parse: string -> Attempt<Accessory>,
                     exported: Attempt<Credentials>) returns (r: FlowResult)
      modifies hub
      ensures var o := OnPlist(old(State()), input, parse, exported);
        State() == o.state && r == o.result
      ensures hub != null ==> hub.calls == old(hub.calls)
    {
      var errors: map<string, string> := map[];
      if input.None? || hub == null || email.None? || email.value == "" {
        return Abort(InvalidInput);
      }
      var failure: PyException;
      var loaded := hub.LoadPlist(input.value, parse);
      if loaded.Err? {
        failure := loaded.exc;
      } else if exported.Err? {
        failure := exported.exc;
      } else {
        return CreateEntry(email.value, EntryData(url, exported.value, input.value));
      }
      if failure == InvalidFileException {
        errors := errors[ErrorKey := "invalid_file"];
        return Form(Plist, [], errors);
      }
      r := Raised(failure);
    }
  }
}
