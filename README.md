# Find My integration for Home Assistant: setup flow and polling hub

This project is a Dafny model of the core of the `findmy` custom integration. The integration tracks an Apple Find My accessory through an
anisette server and the `findmy` account library. The model covers two parts:

- **The setup flow** (`ConfigFlow`). It has four step handlers: `user`, `2fa_method`, `2fa_code` and `plist`.
  - The user step records the anisette URL and the email, builds a hub and logs in.
  - When the account asks for a second factor, the flow offers the SMS methods, requests a code and submits it.
  - The plist step loads the accessory's property list. It then creates the configuration entry: titled with the email, holding the URL, the exported
    account session and the raw property-list text.
  - Every outcome is a form (with its error map), an abort, a created entry, or an exception that the step does not catch.
- **The hub** (`FindMyHub`).
  - It filters the offered second-factor methods down to SMS ones and numbers them by position.
  - It resolves a chosen position back to a method when requesting and submitting a code.
  - It keeps the accessory parsed from the property list.
  - It answers "latest position" with `sorted(reports, reverse=True)[0]`, copied into a `FindMyReport`.

Files:

- `builtins.dfy` (module `Builtins`) holds the Python pieces the code relies on:
  - `str(i)` and `int(s)` with their round trip;
  - list indexing, including negative positions;
  - the exceptions the code distinguishes;
  - `Attempt`, a value or a raised exception.
- `hub.dfy` (module `Hub`) holds the hub:
  - the pure selection functions and their lemmas;
  - the class `FindMyHub`, whose methods update `methods` and `accessory` in place.
- `flow.dfy` (module `Flow`) holds the setup flow:
  - each step as a function on the flow's fields (`OnUser`, `OnTwoFaMethod`, `OnTwoFaCode`, `OnPlist`), giving the new fields, the result and
    the account-library calls made;
  - the class `ConfigFlow`, whose step methods update its fields and its hub and are proved equal to those functions.
- `runs.dfy` (module `FlowRuns`) models whole runs as Home Assistant drives them:
  - the host calls the step named by the last form;
  - it calls the same step again after an exception;
  - it stops on an abort or a created entry.

  Along every run the flow follows an authentication state machine: unauthenticated, awaiting a second factor, signed in. An entry is created only
  once signed in, titled with the signed-in email.

The account library is foreign code. Its answers are inputs to the step methods and to the hub's methods: the login state, the offered methods,
the result of a code request or submission, and the fetched reports. The property-list parser is a function parameter. The hub keeps a ghost log
`calls` of the library calls it made: login, listing, request, submission and fetch, each with its arguments. This log is how the model states
that a request goes to the method at the chosen position, and that no fetch happens without an accessory.

Places where the code behaves differently from what a reader might expect:

- A login that answers `AUTHENTICATED` in the user step re-shows the user form with `invalid_auth`. Only the `2fa_code` step accepts `AUTHENTICATED`.
- An empty report list raises `IndexError`, from `[0]`. No dedicated empty-history error exists.
- Fetching without an accessory raises `ValueError("Accessory not loaded")`.
- The `2fa_method` step catches only an unhandled-protocol error from the code request (`config_flow.py:127-130`), and aborts with `unknown`.
  Every other exception from the request, a connection failure included, propagates out of the step (`Raised`). So do an `int()` failure and
  an out-of-range index.
- The `2fa_code` step has no `try` at all (`config_flow.py:143-146`). Every exception from the submission, an unhandled-protocol error
  included, propagates out of the step, and so does an out-of-range index.
- The plist step's `try` also covers the session export (`config_flow.py:164-179`). If the export raises after the property list has loaded,
  the accessory stays loaded and the exception propagates, unless it is an invalid-file error.
- A rejected code aborts the flow with `invalid_2fa_code`. It is not retried in place.
- Option values are the strings `str(i)`, not integers.

## Model

| member | source | states |
|---|---|---|
| Flow.ConfigFlow.constructor | custom_components/findmy/config_flow.py:60-65 | the four fields `url`, `email`, `hub` and `two_factor_method` start unset |
| Flow.ConfigFlow.StepUser | custom_components/findmy/config_flow.py:67-117 | new fields and result equal `OnUser`; with input, the hub is a new object whose library calls are the login and, for a second factor, the listing |
| Flow.ConfigFlow.StepTwoFaMethod | custom_components/findmy/config_flow.py:119-136 | new fields and result equal `OnTwoFaMethod`; the hub stays the same object, and its library calls grow by the one request made |
| Flow.ConfigFlow.StepTwoFaCode | custom_components/findmy/config_flow.py:138-155 | new fields and result equal `OnTwoFaCode`; the hub's library calls grow by the one submission made |
| Flow.ConfigFlow.StepPlist | custom_components/findmy/config_flow.py:157-182 | new fields and result equal `OnPlist`; none of the logged account calls (login, listing, request, submission, fetch) is made |
| Flow.SelectOptions | custom_components/findmy/config_flow.py:85-88 | each `(value, label)` pair becomes an option with the same value and label, in the same order |
| Flow.UserWithoutInput | custom_components/findmy/config_flow.py:71-117 | without input the user form is shown with an empty error map, and nothing changes |
| Flow.UserRecordsAccountFirst | custom_components/findmy/config_flow.py:75-80 | URL and email are recorded and a fresh hub is built for the URL whatever the login answers; the first library call is the login with the entered email and password |
| Flow.UserLoginRouting | custom_components/findmy/config_flow.py:84-106 | `REQUIRE_2FA` leads to the method form, with one option per SMS method whose value reads back as its position; `LOGGED_IN` leads to the plist form; any other state re-shows the user form with `base: invalid_auth` |
| Flow.UserErrorMapping | custom_components/findmy/config_flow.py:107-113 | an exception from login or listing re-shows the user form with exactly one error under `base`: `cannot_connect` iff it is a connection failure, `invalid_auth` iff it is invalid credentials or unauthorized, else `unknown` |
| Flow.UserErrorsAtMostOne | custom_components/findmy/config_flow.py:71-117 | the user step always returns a form; its error map holds at most the key `base`, with one of the three codes; forms of other steps carry no error; a user form shown for an input carries an error |
| Flow.MethodChoiceRoundTrip | custom_components/findmy/config_flow.py:84-128 | choosing the `k`-th option of the method form stores `k` as `two_factor_method` and requests a code from the `k`-th SMS method offered |
| Flow.MethodStepOutcomes | custom_components/findmy/config_flow.py:124-136 | missing input or missing hub aborts with `invalid input`; otherwise the parsed index is stored, the request goes to that method, a protocol error aborts with `unknown`, and a delivered request leads to the code form |
| Flow.CodeStepOutcomes | custom_components/findmy/config_flow.py:143-155 | the code is submitted to the chosen method; the plist form follows iff the answer is `LOGGED_IN` or `AUTHENTICATED`; otherwise the flow aborts with `invalid_2fa_code`; the fields do not change |
| Flow.EntryOnlyFromPlist | custom_components/findmy/config_flow.py:163-182 | an entry is created iff there is input, a hub and a non-empty email, the property list parses and the session exports; its title is the email and its data is URL, exported session and raw text; once the list parses the accessory is loaded, and a failed export is handled like a failed parse; an invalid file re-shows the plist form with `base: invalid_file` and changes nothing |
| Flow.PlistFailure | custom_components/findmy/config_flow.py:175-179 | in the plist step only `InvalidFileException` is caught, giving the plist form with `base: invalid_file`; any other exception propagates unchanged |
| Flow.OtherStepsCreateNoEntry | custom_components/findmy/config_flow.py:67-155 | the user, method and code steps never create an entry |
| Flow.StepsKeepValid | custom_components/findmy/config_flow.py:60-182 | every step keeps the hub paired with the URL and email it was built for, and never holds a method choice without a hub |
| FlowRuns.Run | custom_components/findmy/config_flow.py:67-182 | a run yields at most one result per call, and every result but the last is a form or an exception: an abort or an entry ends the flow |
| FlowRuns.StepKeepsInv | custom_components/findmy/config_flow.py:67-182 | a call for the step the host expects keeps the run invariant, advancing the authentication phase; it creates an entry only in phase signed-in with the entry's title |
| FlowRuns.RunInv | custom_components/findmy/config_flow.py:67-182 | along a run from any state satisfying the invariant, a created entry follows sign-in under its title, and an entry or abort is the last result |
| FlowRuns.EntryOnlyWhenSignedIn | custom_components/findmy/config_flow.py:98-174 | in every run from a new flow, a created entry is the last result, and the calls before it end in phase signed-in under the entry's title (login `LOGGED_IN`, or `REQUIRE_2FA` followed by an accepted code) |
| FlowRuns.RejectedCodeEndsRun | custom_components/findmy/config_flow.py:148-149 | after `invalid_2fa_code` nothing more happens in the run |
| FlowRuns.ExampleOptions | custom_components/findmy/findmy_hub.py:45-52 | of one SMS and one other method offered, only the SMS one is kept, offered as option `"0"` with label `SMS <phone>`, and `int("0") == 0` |
| FlowRuns.SmsSignInExample | custom_components/findmy/config_flow.py:84-174 | user with `REQUIRE_2FA`, choosing option `"0"`, an accepted code and a parsing property list yield the method form, the code form, the plist form and the entry, in that order |
| Hub.FindMyHub.constructor | custom_components/findmy/findmy_hub.py:27-32 | a new hub has the given URL, no method list, no accessory and no library call |
| Hub.FindMyHub.Authenticate | custom_components/findmy/findmy_hub.py:34-37 | returns the library's login answer, after one login call with the given email and password |
| Hub.FindMyHub.GetTwoFactorMethods | custom_components/findmy/findmy_hub.py:43-52 | one listing call; on success the method list is replaced by the SMS methods offered and their options are returned; a failed listing raises and keeps the old list |
| Hub.FindMyHub.RequestTwoFactor | custom_components/findmy/findmy_hub.py:54-58 | the request goes to `methods[index]` and returns the library's answer; without a list or out of range, it raises and makes no call |
| Hub.FindMyHub.SubmitTwoFactor | custom_components/findmy/findmy_hub.py:60-64 | the code is submitted to `methods[index]` and the library's answer is returned; without a list or out of range, it raises and makes no call |
| Hub.FindMyHub.LoadPlist | custom_components/findmy/findmy_hub.py:71-74 | the accessory becomes the parsed one exactly when parsing succeeds; otherwise it raises the parse error and keeps the old accessory |
| Hub.FindMyHub.GetPosition | custom_components/findmy/findmy_hub.py:76-89 | without an accessory it raises `ValueError` and fetches nothing; otherwise it fetches for the loaded accessory, propagates a fetch error, and returns `SelectLatest` of the reports |
| Hub.SmsOnly | custom_components/findmy/findmy_hub.py:45-47 | keeps exactly the SMS methods (a method is kept iff it was offered and is SMS), never lengthens the list |
| Hub.SmsOnlyAppend | custom_components/findmy/findmy_hub.py:47 | filtering distributes over concatenation, so the kept methods keep their relative order |
| Hub.SmsOnlyExtremes | custom_components/findmy/findmy_hub.py:47 | an all-SMS list is kept whole; a list with no SMS method becomes empty |
| Hub.MethodOptions | custom_components/findmy/findmy_hub.py:49-52 | one option per retained method |
| Hub.ChosenOptionResolves | custom_components/findmy/findmy_hub.py:49-64 | option `k` has value `str(k)`, which `int` reads back as `k`, and label `SMS <phone of method k>`; index `k` resolves to method `k` |
| Hub.OptionValuesDistinct | custom_components/findmy/findmy_hub.py:49-52 | different positions get different option values |
| Hub.LatestIndex | custom_components/findmy/findmy_hub.py:82 | the position of a report whose timestamp is at least every other's, and later than every report before it (the first latest) |
| Hub.SortedByTimeDescIsSort | custom_components/findmy/findmy_hub.py:82 | the reference for `sorted(reports, reverse=True)` is ordered latest first and is a permutation of the reports |
| Hub.SortedHeadIsLatest | custom_components/findmy/findmy_hub.py:82 | the head of the stable descending sort is the first report with the latest timestamp |
| Hub.SelectLatest | custom_components/findmy/findmy_hub.py:82-89 | `IndexError` iff there are no reports; otherwise the copy of the first latest report, whose timestamp bounds every report's, with latitude, longitude, accuracy (from `horizontal_accuracy`) and timestamp unchanged; a single report is returned as it is |
| Builtins.StrOfNat | custom_components/findmy/findmy_hub.py:50 | `str(i)` is a non-empty string of decimal digits without a leading zero |
| Builtins.DigitsValueOfStr | custom_components/findmy/findmy_hub.py:50 | the digits of `str(i)` have the value `i` |
| Builtins.ParseIntOfStr | custom_components/findmy/config_flow.py:125 | `int(str(i)) == i` |
| Builtins.StrOfNatInjective | custom_components/findmy/findmy_hub.py:50 | `str` gives different numbers different strings |
| Builtins.ListIndex | custom_components/findmy/findmy_hub.py:57 | Python list indexing succeeds exactly for `-len <= i < len`, and then reaches position `i mod len`: `i` itself for `0 <= i`, counting from the end for a negative `i` |

## Left out

- Update scheduling (`coordinator.py`) is not part of this model. The coordinator only calls `get_position`. The interval, the no-overlap rule and
  keeping the last good value belong to Home Assistant's `DataUpdateCoordinator`, whose code is not part of this model.
- Entry setup and unloading (`__init__.py`) and the device tracker entity (`device_tracker.py`) are host wiring and are not modelled. The string keys in
  `const.py` appear only where a step uses them. The 1800-second update interval is not modelled.
- The `findmy` library is foreign code. This covers login, method listing, code request and submission, `to_json`/`from_json`,
  `fetch_last_reports`, `FindMyAccessory.from_plist` and the anisette provider. Its answers are inputs or parameters.
  - The export/restore round trip of the session happens inside the library, so it cannot be stated here.
  - `restore_account` and `get_account_credentials` are one-line delegations to that library and are not modelled as members. The export's outcome,
    a session or an exception, reaches the plist step as its `exported` argument.
- The hub's `url` stands for the anisette provider built from it. The source keeps the provider and the account object, not the string.
- Report ordering: the model assumes the library's reports compare by timestamp. Timestamps are modelled as integers. A `TypeError` from comparing
  incomparable datetimes is not modelled.
- Latitude, longitude and accuracy are floats that are only copied. They are kept as 64-bit patterns, and no float arithmetic is modelled.
- Python's `int()` is modelled for an optional sign followed by ASCII digits. Surrounding whitespace, underscores and non-ASCII digits are not
  modelled.
- Async execution, aiohttp, logging, the voluptuous schemas and the selector UI are not modelled. A form is reduced to its step, its selector
  options and its error map. Where the source passes no error map, the model uses an empty one.
- Form input is modelled as present or absent, with the required keys present. The voluptuous schemas guarantee those keys, so a `KeyError` from a
  missing key is not modelled.
- `self.hub` is truthy exactly when it is not `None`: the class defines neither `__bool__` nor `__len__`.
