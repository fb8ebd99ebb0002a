/** Whole runs of the setup flow as the host drives it: the host calls the
    step that the last form named, calls the same step again after an
    exception, and ends the flow on an abort or a created entry. Along every
    such run the flow follows an authentication state machine
    (unauthenticated, awaiting a second factor, signed in), and an
    entry is only ever created once the account is signed in, titled with
    the email that signed in. */
module FlowRuns {
  import opened Builtins
  import opened Hub
  import opened Flow

  /** One call of a step handler together with what the account library
      answers during it. */
  datatype Call =
    | UserCall(input: Option<UserInput>, login: Attempt<LoginState>, offered: Attempt<seq<TwoFactorMethod>>)
    | MethodCall(choice: Option<string>, delivery: Attempt<()>)
    | CodeCall(code: Option<string>, verdict: Attempt<LoginState>)
    | PlistCall(plist: Option<string>, parse: string -> Attempt<Accessory>, exported: Attempt<Credentials>)

  function Target(c: Call): StepId {
    match c
    case UserCall(_, _, _) => User
    case MethodCall(_, _) => TwoFaMethod
    case CodeCall(_, _) => TwoFaCode
    case PlistCall(_, _, _) => Plist
  }

  function Handle(s: FlowState, c: Call): Outcome {
    match c
    case UserCall(input, login, offered) => OnUser(s, input, login, offered)
    case MethodCall(choice, delivery) => OnTwoFaMethod(s, choice, delivery)
    case CodeCall(code, verdict) => OnTwoFaCode(s, code, verdict)
    case PlistCall(plist, parse, exported) => OnPlist(s, plist, parse, exported)
  }

  /** The step the host calls after `current` returned `r`, if any. */
  function NextStep(current: StepId, r: FlowResult): Option<StepId> {
    match r
    case Form(step, _, _) => Some(step)
    case Raised(_) => Some(current)
    case Abort(_) => None
    case CreateEntry(_, _) => None
  }

  /** The results the host sees when it feeds `calls` to a flow in state `s`
      waiting at step `at`. The run stops at the first call for another
      step, and once the flow has ended. */
  function Run(s: FlowState, at: StepId, calls: seq<Call>): (results: seq<FlowResult>)
    ensures |results| <= |calls|
    ensures forall k | 0 <= k < |results| - 1 :: results[k].Form? || results[k].Raised?
    decreases |calls|
  {
    if calls == [] || Target(calls[0]) != at then []
    else
      var o := Handle(s, calls[0]);
      [o.result] + match NextStep(at, o.result)
                   case None => []
                   case Some(next) => Run(o.state, next, calls[1..])
  }

  /** The authentication state machine, driven only by the library's answers. */
  datatype Phase = Unauthenticated | AwaitingSecondFactor(email: string) | SignedIn(email: string)

  function Advance(p: Phase, c: Call): Phase {
    match c
    case UserCall(Some(u), Ok(Require2fa), _) => AwaitingSecondFactor(u.email)
    case UserCall(Some(u), Ok(LoggedIn), _) => SignedIn(u.email)
    case UserCall(Some(_), _, _) => Unauthenticated
    case CodeCall(Some(_), Ok(state)) =>
      if p.AwaitingSecondFactor? && Succeeded(state) then SignedIn(p.email) else Unauthenticated
    case _ => p
  }

  function PhaseAfter(p: Phase, calls: seq<Call>): Phase
    decreases |calls|
  {
    if calls == [] then p else PhaseAfter(Advance(p, calls[0]), calls[1..])
  }

  /** What holds of the fields whenever the host is about to call step `at`
      in phase `p`. */
  ghost predicate Inv(s: FlowState, at: StepId, p: Phase) {
    s.Valid() &&
    match at
    case User => true
    case TwoFaMethod =>
      p.AwaitingSecondFactor? && s.email == Some(p.email) && s.hub.Some?
    case TwoFaCode =>
      p.AwaitingSecondFactor? && s.email == Some(p.email) && s.hub.Some? &&
      s.twoFactorMethod.Some? && Resolve(s.hub.value.methods, s.twoFactorMethod.value).Ok?
    case Plist =>
      p.SignedIn? && s.email == Some(p.email) && s.hub.Some?
  }

  lemma InitialInv()
    ensures Inv(Initial, User, Unauthenticated)
  {
  }

  /** One call for the expected step keeps the invariant, and creates an entry
      only when signed in, under the signed-in email. */
  lemma StepKeepsInv(s: FlowState, at: StepId, p: Phase, c: Call)
    requires Inv(s, at, p) && Target(c) == at
    ensures var o := Handle(s, c);
      (o.result.CreateEntry? ==> p == SignedIn(o.result.title)) &&
      (NextStep(at, o.result).Some? ==> Inv(o.state, NextStep(at, o.result).value, Advance(p, c)))
  {
  }

  lemma {:induction false} RunInv(s: FlowState, at: StepId, p: Phase, calls: seq<Call>, k: nat)
    requires Inv(s, at, p)
    requires k < |Run(s, at, calls)|
    ensures Run(s, at, calls)[k].CreateEntry? ==>
      PhaseAfter(p, calls[..k]) == SignedIn(Run(s, at, calls)[k].title)
    ensures Run(s, at, calls)[k].CreateEntry? || Run(s, at, calls)[k].Abort? ==>
      k == |Run(s, at, calls)| - 1
    decreases k
  {
    var o := Handle(s, calls[0]);
    StepKeepsInv(s, at, p, calls[0]);
    if k == 0 {
      assert calls[..0] == [];
    } else {
      var next := NextStep(at, o.result).value;
      assert Run(s, at, calls)[k] == Run(o.state, next, calls[1..])[k - 1];
      RunInv(o.state, next, Advance(p, calls[0]), calls[1..], k - 1);
      assert calls[..k][1..] == calls[1..][..k - 1];
      assert calls[..k][0] == calls[0];
    }
  }

  /** In every run the host drives from a new flow, a created entry is the
      last result, and the account is then signed in under the entry's
      title. */
  lemma EntryOnlyWhenSignedIn(calls: seq<Call>, k: nat)
    requires k < |Run(Initial, User, calls)|
    requires Run(Initial, User, calls)[k].CreateEntry?
    ensures PhaseAfter(Unauthenticated, calls[..k]) == SignedIn(Run(Initial, User, calls)[k].title)
    ensures k == |Run(Initial, User, calls)| - 1
  {
    InitialInv();
    RunInv(Initial, User, Unauthenticated, calls, k);
  }

  /** A rejected code ends the run: nothing follows `invalid_2fa_code`. */
  lemma RejectedCodeEndsRun(calls: seq<Call>, k: nat)
    requires k < |Run(Initial, User, calls)|
    requires Run(Initial, User, calls)[k] == Abort("invalid_2fa_code")
    ensures k == |Run(Initial, User, calls)| - 1
  {
    InitialInv();
    RunInv(Initial, User, Unauthenticated, calls, k);
  }

  /** Of the two methods offered in the example only the SMS one is kept,
      and it is offered as option "0". */
  lemma ExampleOptions()
    ensures SmsOnly([Sms("+15550100"), Other]) == [Sms("+15550100")]
    ensures SelectOptions(MethodOptions([Sms("+15550100")])) == [SelectOption("SMS +15550100", "0")]
    ensures ParseInt("0") == Some(0)
  {
    var offered := [Sms("+15550100"), Other];
    assert offered[1..] == [Other];
    assert offered[1..][1..] == [];
    assert StrOfNat(0) == "0";
    assert "0"[..0] == [];
    var pairs := MethodOptions([Sms("+15550100")]);
    assert |pairs| == 1 && pairs[0] == (StrOfNat(0), "SMS " + "+15550100");
    assert "SMS " + "+15550100" == "SMS +15550100";
    var options := SelectOptions(pairs);
    assert |options| == 1 && options[0] == SelectOption("SMS +15550100", "0");
  }

  /** A complete sign-in with one SMS method among two offered: the method
      form lists one option, valued "0"; choosing it, entering the code and
      a valid property list creates the entry. */
  lemma SmsSignInExample(parse: string -> Attempt<Accessory>, exported: Credentials, a: Accessory)
    requires parse("<plist/>") == Ok(a)
    ensures var url := "http://localhost:6969";
      var calls := [
        UserCall(Some(UserInput(url, "a@b.com", "pw")), Ok(Require2fa), Ok([Sms("+15550100"), Other])),
        MethodCall(Some("0"), Ok(())),
        CodeCall(Some("123456"), Ok(Authenticated)),
        PlistCall(Some("<plist/>"), parse, Ok(exported))];
      Run(Initial, User, calls) == [
        Form(TwoFaMethod, [SelectOption("SMS +15550100", "0")], map[]),
        Form(TwoFaCode, [], map[]),
        Form(Plist, [], map[]),
        CreateEntry("a@b.com", EntryData(Some(url), exported, "<plist/>"))]
  {
    ExampleOptions();
    var url := "http://localhost:6969";
    var kept := [Sms("+15550100")];
    var c0 := UserCall(Some(UserInput(url, "a@b.com", "pw")), Ok(Require2fa), Ok([Sms("+15550100"), Other]));
    var c1 := MethodCall(Some("0"), Ok(()));
    var c2 := CodeCall(Some("123456"), Ok(Authenticated));
    var c3 := PlistCall(Some("<plist/>"), parse, Ok(exported));
    var calls := [c0, c1, c2, c3];
    var o0 := OnUser(Initial, c0.input, c0.login, c0.offered);
    assert o0.state.hub.value.methods == Some(kept);
    var o1 := OnTwoFaMethod(o0.state, c1.choice, c1.delivery);
    assert o1.result == Form(TwoFaCode, [], map[]);
    var o2 := OnTwoFaCode(o1.state, c2.code, c2.verdict);
    assert o2.result == Form(Plist, [], map[]);
    var o3 := OnPlist(o2.state, c3.plist, c3.parse, c3.exported);
    assert o3.result == CreateEntry("a@b.com", EntryData(Some(url), exported, "<plist/>"));
    assert calls[1..] == [c1, c2, c3] && calls[1..][1..] == [c2, c3] && calls[1..][1..][1..] == [c3];
    assert Run(o2.state, Plist, [c3]) == [o3.result];
    assert Run(o1.state, TwoFaCode, [c2, c3]) == [o2.result, o3.result];
    assert Run(o0.state, TwoFaMethod, [c1, c2, c3]) == [o1.result, o2.result, o3.result];
  }
}
