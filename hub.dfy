/** The polling hub (custom_components/findmy/findmy_hub.py): it holds the
    account session, the second-factor methods offered for the current login
    attempt and the loaded accessory, and picks the latest location report.

    The account library is foreign: what it answers (login state, offered
    methods, fetched reports, the result of a request or a submission) is
    passed in, and the hub records in the ghost log `calls` which library
    calls it made and with which arguments. */
module Hub {
  import opened Builtins

  /** A float that the integration only copies, never computes with: its
      IEEE-754 bit pattern. */
  datatype Float = Float(bits: bv64)

  /** The login states of the account library. */
  datatype LoginState = LoggedOut | Require2fa | Authenticated | LoggedIn

  /** A second-factor channel offered by the account library. Only SMS is
      supported by the integration. */
  datatype TwoFactorMethod = Sms(phoneNumber: string) | Other

  /** One location report as the library returns it. */
  datatype LocationReport = LocationReport(
    latitude: Float, longitude: Float, horizontalAccuracy: Float, timestamp: int)

  /** The position the hub hands to its consumers. */
  datatype FindMyReport = FindMyReport(
    latitude: Float, longitude: Float, accuracy: Float, timestamp: int)

  /** The accessory parsed from its property list: identity and key material. */
  datatype Accessory = Accessory(identifier: string, name: string, privateKey: seq<bv8>)

  /** The account session as exported by the library, as key/value pairs. */
  datatype Credentials = Credentials(fields: map<string, string>)

  /** A call into the account library. */
  datatype RemoteCall =
    | Login(email: string, password: string)
    | ListMethods
    | Request(channel: TwoFactorMethod)
    | Submit(channel: TwoFactorMethod, code: string)
    | FetchReports(accessory: Accessory)

  /** The hub's own fields: the anisette URL it was built with, the filtered
      method list (`None` until the first listing: the attribute does not
      exist before) and the loaded accessory. */
  datatype HubState = HubState(
    url: string, methods: Option<seq<TwoFactorMethod>>, accessory: Option<Accessory>)

  function NewHubState(url: string): HubState {
    HubState(url, None, None)
  }

  const AccessoryNotLoaded := "Accessory not loaded"

  // ---------------------------------------------------------------- methods

  /** The SMS methods among those offered, in their original order. */
  function SmsOnly(offered: seq<TwoFactorMethod>): (kept: seq<TwoFactorMethod>)
    ensures |kept| <= |offered|
    ensures forall k | 0 <= k < |kept| :: kept[k].Sms?
    ensures forall m :: m in kept <==> m in offered && m.Sms?
  {
    if offered == [] then []
    else (if offered[0].Sms? then [offered[0]] else []) + SmsOnly(offered[1..])
  }

  /** Filtering distributes over concatenation, so each kept method keeps its
      place relative to the others. */
  lemma {:induction false} SmsOnlyAppend(a: seq<TwoFactorMethod>, b: seq<TwoFactorMethod>)
    ensures SmsOnly(a + b) == SmsOnly(a) + SmsOnly(b)
  {
    if a == [] {
      assert a + b == b;
    } else {
      assert (a + b)[0] == a[0];
      assert (a + b)[1..] == a[1..] + b;
      SmsOnlyAppend(a[1..], b);
    }
  }

  /** A list of SMS methods is kept whole; a list without one is dropped. */
  lemma {:induction false} SmsOnlyExtremes(offered: seq<TwoFactorMethod>)
    ensures (forall k | 0 <= k < |offered| :: offered[k].Sms?) ==> SmsOnly(offered) == offered
    ensures (forall k | 0 <= k < |offered| :: offered[k].Other?) ==> SmsOnly(offered) == []
  {
    if offered != [] {
      SmsOnlyExtremes(offered[1..]);
    }
  }

  /** The selector options: value `str(i)` and label "SMS <phone>" for the
      method at position `i`. */
  function MethodOptions(methods: seq<TwoFactorMethod>): (options: seq<(string, string)>)
    requires forall k | 0 <= k < |methods| :: methods[k].Sms?
    ensures |options| == |methods|
  {
    seq(|methods|, k requires 0 <= k < |methods| =>
      (StrOfNat(k), "SMS " + methods[k].phoneNumber))
  }

  /** `self.methods[index]`: an `AttributeError` before any listing, an
      `IndexError` outside the list. */
  function Resolve(methods: Option<seq<TwoFactorMethod>>, index: int): Attempt<TwoFactorMethod> {
    match methods
    case None => Err(AttributeError)
    case Some(ms) =>
      match ListIndex(|ms|, index)
      case None => Err(IndexError)
      case Some(k) => Ok(ms[k])
  }

  /** Choosing the option labelled with position `k` and converting its value
      back with `int` reaches the very method that option describes. */
  lemma ChosenOptionResolves(methods: seq<TwoFactorMethod>, k: nat)
    requires forall j | 0 <= j < |methods| :: methods[j].Sms?
    requires k < |methods|
    ensures ParseInt(MethodOptions(methods)[k].0) == Some(k)
    ensures MethodOptions(methods)[k].1 == "SMS " + methods[k].phoneNumber
    ensures Resolve(Some(methods), k) == Ok(methods[k])
  {
    ParseIntOfStr(k);
  }

  /** Options carry pairwise distinct values. */
  lemma OptionValuesDistinct(methods: seq<TwoFactorMethod>, i: nat, j: nat)
    requires forall k | 0 <= k < |methods| :: methods[k].Sms?
    requires i < j < |methods|
    ensures MethodOptions(methods)[i].0 != MethodOptions(methods)[j].0
  {
    StrOfNatInjective(i, j);
  }

  // ---------------------------------------------------------------- reports

  /** The position of the first report that carries the latest timestamp. */
  function LatestIndex(reports: seq<LocationReport>): (k: nat)
    requires |reports| > 0
    ensures k < |reports|
    ensures forall j | 0 <= j < |reports| :: reports[j].timestamp <= reports[k].timestamp
    ensures forall j | 0 <= j < k :: reports[j].timestamp < reports[k].timestamp
  {
    if |reports| == 1 then 0
    else
      var k := 1 + LatestIndex(reports[1..]);
      if reports[0].timestamp >= reports[k].timestamp then 0 else k
  }

  /** Inserts a report in front of every report that is not later than it. */
  function InsertByTime(r: LocationReport, sorted: seq<LocationReport>): (s: seq<LocationReport>)
    ensures |s| == |sorted| + 1
  {
    if sorted == [] || r.timestamp >= sorted[0].timestamp then [r] + sorted
    else [sorted[0]] + InsertByTime(r, sorted[1..])
  }

  /** Python's `sorted(reports, reverse=True)` with reports ordered by
      timestamp: latest first, and reports with equal timestamps in their
      input order (the sort is stable). */
  function SortedByTimeDesc(reports: seq<LocationReport>): (s: seq<LocationReport>)
    ensures |s| == |reports|
  {
    if reports == [] then [] else InsertByTime(reports[0], SortedByTimeDesc(reports[1..]))
  }

  ghost predicate NonIncreasing(s: seq<LocationReport>) {
    forall i, j | 0 <= i < j < |s| :: s[i].timestamp >= s[j].timestamp
  }

  lemma {:induction false} InsertByTimeKeepsReports(r: LocationReport, sorted: seq<LocationReport>)
    ensures multiset(InsertByTime(r, sorted)) == multiset(sorted) + multiset{r}
  {
    if sorted != [] && r.timestamp >= sorted[0].timestamp {
    } else if sorted != [] {
      InsertByTimeKeepsReports(r, sorted[1..]);
      assert sorted == [sorted[0]] + sorted[1..];
    }
  }

  lemma {:induction false} InsertByTimeSorted(r: LocationReport, sorted: seq<LocationReport>)
    requires NonIncreasing(sorted)
    ensures NonIncreasing(InsertByTime(r, sorted))
  {
    if sorted != [] && r.timestamp < sorted[0].timestamp {
      var rest := InsertByTime(r, sorted[1..]);
      InsertByTimeSorted(r, sorted[1..]);
      InsertByTimeKeepsReports(r, sorted[1..]);
      forall x | x in rest
        ensures x.timestamp <= sorted[0].timestamp
      {
        assert x in multiset(rest);
        if x != r {
          assert x in multiset(sorted[1..]);
          var j :| 0 <= j < |sorted[1..]| && sorted[1..][j] == x;
          assert sorted[j + 1] == x;
        }
      }
      var s := InsertByTime(r, sorted);
      assert s == [sorted[0]] + rest;
      forall i, j | 0 <= i < j < |s|
        ensures s[i].timestamp >= s[j].timestamp
      {
        if i == 0 {
          assert s[j] == rest[j - 1];
          assert s[j] in rest;
        } else {
          assert s[i] == rest[i - 1] && s[j] == rest[j - 1];
        }
      }
    }
  }

  /** The reference sort is a sort: ordered latest first and a permutation of
      its input. */
  lemma {:induction false} SortedByTimeDescIsSort(reports: seq<LocationReport>)
    ensures NonIncreasing(SortedByTimeDesc(reports))
    ensures multiset(SortedByTimeDesc(reports)) == multiset(reports)
  {
    if reports != [] {
      SortedByTimeDescIsSort(reports[1..]);
      InsertByTimeSorted(reports[0], SortedByTimeDesc(reports[1..]));
      InsertByTimeKeepsReports(reports[0], SortedByTimeDesc(reports[1..]));
      assert reports == [reports[0]] + reports[1..];
    }
  }

  /** The head of the descending sort is the first report with the latest
      timestamp: the tie-break is input order. */
  lemma {:induction false} SortedHeadIsLatest(reports: seq<LocationReport>)
    requires |reports| > 0
    ensures SortedByTimeDesc(reports)[0] == reports[LatestIndex(reports)]
  {
    if |reports| > 1 {
      SortedHeadIsLatest(reports[1..]);
    }
  }

  function ToFindMyReport(r: LocationReport): FindMyReport {
    FindMyReport(r.latitude, r.longitude, r.horizontalAccuracy, r.timestamp)
  }

  /** `sorted(reports, reverse=True)[0]` copied into a `FindMyReport`: an
      `IndexError` for no report, otherwise the first latest report with its
      fields unchanged. */
  function SelectLatest(reports: seq<LocationReport>): (r: Attempt<FindMyReport>)
    ensures r.Ok? <==> |reports| > 0
    ensures r.Err? ==> r.exc == IndexError
    ensures r.Ok? ==> exists k | 0 <= k < |reports| ::
      r.value == ToFindMyReport(reports[k]) && k == LatestIndex(reports)
    ensures r.Ok? ==> forall j | 0 <= j < |reports| :: reports[j].timestamp <= r.value.timestamp
    ensures |reports| == 1 ==> r == Ok(ToFindMyReport(reports[0]))
  {
    if |reports| == 0 then Err(IndexError)
    else
      SortedHeadIsLatest(reports);
      Ok(ToFindMyReport(SortedByTimeDesc(reports)[0]))
  }

  // ---------------------------------------------------------------- the hub

  class FindMyHub {
    const url: string
    var methods: Option<seq<TwoFactorMethod>>
    var accessory: Option<Accessory>
    /** The calls this hub made into the account library, oldest first. */
    ghost var calls: seq<RemoteCall>

    function State(): HubState
      reads this
    {
      HubState(url, methods, accessory)
    }

    constructor (url: string)
      ensures State() == NewHubState(url) && calls == []
    {
      this.url := url;
      methods := None;
      accessory := None;
      calls := [];
    }

    /** Logs in with the given credentials; `login` is the library's answer. */
    method Authenticate(email: string, password: string, login: Attempt<LoginState>)
      returns (r: Attempt<LoginState>)
      modifies this`calls
      ensures r == login
      ensures calls == old(calls) + [Login(email, password)]
    {
      calls := calls + [Login(email, password)];
      r := login;
    }

    /** Lists the offered methods (`offered` is the library's answer), keeps
        the SMS ones as the new method list and returns their options. A
        failed listing raises and leaves the list as it was. */
    method GetTwoFactorMethods(offered: Attempt<seq<TwoFactorMethod>>)
      returns (r: Attempt<seq<(string, string)>>)
      modifies this`methods, this`calls
      ensures calls == old(calls) + [ListMethods]
      ensures offered.Err? ==> r == Err(offered.exc) && methods == old(methods)
      ensures offered.Ok? ==>
        methods == Some(SmsOnly(offered.value)) && r == Ok(MethodOptions(SmsOnly(offered.value)))
    {
      calls := calls + [ListMethods];
      if offered.Err? {
        return Err(offered.exc);
      }
      methods := Some(SmsOnly(offered.value));
      r := Ok(MethodOptions(methods.value));
    }

    /** Asks the library to send a code through the method at `index`;
        `delivery` is the library's answer. */
    method RequestTwoFactor(index: int, delivery: Attempt<()>) returns (r: Attempt<()>)
      modifies this`calls
      ensures Resolve(methods, index).Err? ==>
        r == Err(Resolve(methods, index).exc) && calls == old(calls)
      ensures Resolve(methods, index).Ok? ==>
        r == delivery && calls == old(calls) + [Request(Resolve(methods, index).value)]
    {
      var chosen := Resolve(methods, index);
      if chosen.Err? {
        return Err(chosen.exc);
      }
      calls := calls + [Request(chosen.value)];
      r := delivery;
    }

    /** Submits `code` for the method at `index`; `verdict` is the library's
        answer. */
    method SubmitTwoFactor(index: int, code: string, verdict: Attempt<LoginState>)
      returns (r: Attempt<LoginState>)
      modifies this`calls
      ensures Resolve(methods, index).Err? ==>
        r == Err(Resolve(methods, index).exc) && calls == old(calls)
      ensures Resolve(methods, index).Ok? ==>
        r == verdict && calls == old(calls) + [Submit(Resolve(methods, index).value, code)]
    {
      var chosen := Resolve(methods, index);
      if chosen.Err? {
        return Err(chosen.exc);
      }
      calls := calls + [Submit(chosen.value, code)];
      r := verdict;
    }

    /** Parses the property list with `parse` and keeps the accessory; a parse
        error raises and leaves the accessory as it was. */
    method LoadPlist(plist: string, parse: string -> Attempt<Accessory>) returns (r: Attempt<()>)
      modifies this`accessory
      ensures parse(plist).Err? ==> r == Err(parse(plist).exc) && accessory == old(accessory)
      ensures parse(plist).Ok? ==> r == Ok(()) && accessory == Some(parse(plist).value)
    {
      var parsed := parse(plist);
      if parsed.Err? {
        return Err(parsed.exc);
      }
      accessory := Some(parsed.value);
      r := Ok(());
    }

    /** The latest position of the loaded accessory; `fetched` is the
        library's answer to the fetch. Without an accessory it raises
        `ValueError` and fetches nothing. */
    method GetPosition(fetched: Attempt<seq<LocationReport>>) returns (r: Attempt<FindMyReport>)
      modifies this`calls
      ensures accessory.None? ==> r == Err(ValueError(AccessoryNotLoaded)) && calls == old(calls)
      ensures accessory.Some? ==> calls == old(calls) + [FetchReports(accessory.value)]
      ensures accessory.Some? && fetched.Err? ==> r == Err(fetched.exc)
      ensures accessory.Some? && fetched.Ok? ==> r == SelectLatest(fetched.value)
    {
      if accessory.None? {
        return Err(ValueError(AccessoryNotLoaded));
      }
      calls := calls + [FetchReports(accessory.value)];
      if fetched.Err? {
        return Err(fetched.exc);
      }
      r := SelectLatest(fetched.value);
    }
  }
}
