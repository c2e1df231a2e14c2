/** `APIManager`: the five services, their priorities, the stored keys and
    the ordered list of services a transcription run tries. */
module Registry {
  import opened Wrappers

  datatype ServiceType = AppleIntelligence | OpenAI | OpenRouter | Gemini | WhisperLocal

  /** `ServiceType.allCases`, in declaration order. */
  const AllCases: seq<ServiceType> := [AppleIntelligence, OpenAI, OpenRouter, Gemini, WhisperLocal]

  /** The raw value each case is stored under. */
  function RawValue(s: ServiceType): string {
    match s
    case AppleIntelligence => "Apple Intelligence"
    case OpenAI => "OpenAI Whisper"
    case OpenRouter => "OpenRouter"
    case Gemini => "Google Gemini"
    case WhisperLocal => "Local Whisper"
  }

  /** `ServiceType(rawValue:)`: only the five raw values parse. */
  function FromRawValue(raw: string): (r: Option<ServiceType>)
    ensures r.Some? ==> RawValue(r.value) == raw
  {
    if raw == "Apple Intelligence" then Some(AppleIntelligence)
    else if raw == "OpenAI Whisper" then Some(OpenAI)
    else if raw == "OpenRouter" then Some(OpenRouter)
    else if raw == "Google Gemini" then Some(Gemini)
    else if raw == "Local Whisper" then Some(WhisperLocal)
    else None
  }

  /** Every case survives the trip through its raw value, which is how a
      stored selection is read back. */
  lemma RawValueRoundTrip(s: ServiceType)
    ensures FromRawValue(RawValue(s)) == Some(s)
  {
  }

  /** No two cases share a raw value, so the stored selection names one
      service. */
  lemma RawValueInjective(a: ServiceType, b: ServiceType)
    ensures RawValue(a) == RawValue(b) ==> a == b
  {
    RawValueRoundTrip(a);
    RawValueRoundTrip(b);
  }

  /** A string parses exactly when it is the raw value of some case. */
  lemma FromRawValueExact(raw: string)
    ensures FromRawValue(raw).None? <==> forall s: ServiceType :: RawValue(s) != raw
  {
    if FromRawValue(raw).None? {
      forall s: ServiceType ensures RawValue(s) != raw {
        RawValueRoundTrip(s);
      }
    }
  }

  function Priority(s: ServiceType): (p: int)
    ensures 1 <= p <= 5
  {
    match s
    case AppleIntelligence => 1
    case OpenAI => 2
    case OpenRouter => 3
    case Gemini => 4
    case WhisperLocal => 5
  }

  /** No two services share a priority, so sorting by it is deterministic;
      `whisperLocal` has the largest. */
  lemma PriorityInjective(a: ServiceType, b: ServiceType)
    ensures Priority(a) == Priority(b) ==> a == b
    ensures Priority(a) <= Priority(WhisperLocal)
  {
  }

  function Description(s: ServiceType): string {
    match s
    case AppleIntelligence => "Apple's built-in AI (Recommended - No API key required)"
    case OpenAI => "OpenAI Whisper API (High accuracy, requires API key)"
    case OpenRouter => "OpenRouter API (Multiple models, requires API key)"
    case Gemini => "Google Gemini API (Fast, requires API key)"
    case WhisperLocal => "Local Whisper.cpp (Offline, no API key required)"
  }

  /** The services the loop of `getAvailableServices` looks up in `apiKeys`:
      all but `appleIntelligence` and `whisperLocal`. */
  predicate IsCloud(s: ServiceType) {
    s != AppleIntelligence && s != WhisperLocal
  }

  /** Whether a service belongs in the list: Apple Intelligence when the
      probe says so, a cloud service when any key (even "") is stored for it,
      Local Whisper always. */
  predicate Listed(appleAvailable: bool, keys: map<ServiceType, string>, s: ServiceType) {
    match s
    case AppleIntelligence => appleAvailable
    case WhisperLocal => true
    case _ => s in keys
  }

  /** The elements of `cases` that belong in the list, in order. */
  function ListedIn(cases: seq<ServiceType>, appleAvailable: bool, keys: map<ServiceType, string>): (r: seq<ServiceType>)
    ensures |r| <= |cases|
    ensures forall s :: s in r <==> s in cases && Listed(appleAvailable, keys, s)
  {
    if cases == [] then []
    else
      var last := cases[|cases| - 1];
      ListedIn(cases[..|cases| - 1], appleAvailable, keys) + (if Listed(appleAvailable, keys, last) then [last] else [])
  }

  /** The cloud services of `cases` that have a stored key, in order: what
      the loop of `getAvailableServices` appends. */
  function CloudWithKeyIn(cases: seq<ServiceType>, keys: map<ServiceType, string>): seq<ServiceType> {
    if cases == [] then []
    else
      var last := cases[|cases| - 1];
      CloudWithKeyIn(cases[..|cases| - 1], keys) + (if IsCloud(last) && last in keys then [last] else [])
  }

  /** Reference definition of `getAvailableServices`: the listed services in
      `allCases` order. */
  function AvailableServices(appleAvailable: bool, keys: map<ServiceType, string>): seq<ServiceType> {
    ListedIn(AllCases, appleAvailable, keys)
  }

  lemma AllCasesComplete(s: ServiceType)
    ensures s in AllCases
  {
    match s
    case AppleIntelligence => assert AllCases[0] == s;
    case OpenAI => assert AllCases[1] == s;
    case OpenRouter => assert AllCases[2] == s;
    case Gemini => assert AllCases[3] == s;
    case WhisperLocal => assert AllCases[4] == s;
  }

  ghost predicate StrictlyAscending(xs: seq<ServiceType>) {
    forall i, j :: 0 <= i < j < |xs| ==> Priority(xs[i]) < Priority(xs[j])
  }

  /** Each service's priority is at most the next one's. */
  ghost predicate SortedByPriority(xs: seq<ServiceType>) {
    forall i :: 0 < i < |xs| ==> Priority(xs[i - 1]) <= Priority(xs[i])
  }

  function InsertByPriority(x: ServiceType, xs: seq<ServiceType>): (r: seq<ServiceType>)
    requires SortedByPriority(xs)
    ensures SortedByPriority(r)
    ensures |r| == |xs| + 1
    ensures r[0] == x || (xs != [] && r[0] == xs[0])
  {
    if xs == [] || Priority(x) <= Priority(xs[0]) then [x] + xs
    else
      var rest := InsertByPriority(x, xs[1..]);
      assert Priority(xs[0]) <= Priority(rest[0]);
      var r := [xs[0]] + rest;
      assert forall k :: 1 <= k < |r| ==> r[k] == rest[k - 1];
      r
  }

  /** Insertion adds exactly the one element. */
  lemma {:induction false} InsertIsPermutation(x: ServiceType, xs: seq<ServiceType>)
    requires SortedByPriority(xs)
    ensures multiset(InsertByPriority(x, xs)) == multiset(xs) + multiset{x}
  {
    if xs != [] && Priority(x) > Priority(xs[0]) {
      InsertIsPermutation(x, xs[1..]);
      assert xs == [xs[0]] + xs[1..];
    }
  }

  /** `sorted { $0.priority < $1.priority }`: a permutation of its input in
      ascending priority. */
  function SortByPriority(xs: seq<ServiceType>): (r: seq<ServiceType>)
    ensures SortedByPriority(r)
    ensures multiset(r) == multiset(xs)
  {
    if xs == [] then []
    else
      assert xs == [xs[0]] + xs[1..];
      InsertIsPermutation(xs[0], SortByPriority(xs[1..]));
      InsertByPriority(xs[0], SortByPriority(xs[1..]))
  }

  /** Sorting a list that is already strictly ascending leaves it as it is. */
  lemma {:induction false} SortKeepsAscending(xs: seq<ServiceType>)
    requires StrictlyAscending(xs)
    ensures SortByPriority(xs) == xs
  {
    if xs != [] {
      assert StrictlyAscending(xs[1..]);
      SortKeepsAscending(xs[1..]);
    }
  }

  /** Keeping some elements of a strictly ascending list keeps it strictly
      ascending. */
  lemma {:induction false} ListedInKeepsAscending(cases: seq<ServiceType>, appleAvailable: bool, keys: map<ServiceType, string>)
    requires StrictlyAscending(cases)
    ensures StrictlyAscending(ListedIn(cases, appleAvailable, keys))
  {
    if cases != [] {
      var init := cases[..|cases| - 1];
      var last := cases[|cases| - 1];
      assert StrictlyAscending(init);
      ListedInKeepsAscending(init, appleAvailable, keys);
      var si := ListedIn(init, appleAvailable, keys);
      forall i | 0 <= i < |si| ensures Priority(si[i]) < Priority(last) {
        assert si[i] in init;
      }
    }
  }

  /** What the source promises of `getAvailableServices`. */
  lemma AvailableServicesProperties(appleAvailable: bool, keys: map<ServiceType, string>)
    ensures var r := AvailableServices(appleAvailable, keys);
      && StrictlyAscending(r)
      && (forall i, j :: 0 <= i < j < |r| ==> r[i] != r[j])
      && 1 <= |r| <= 5
      && r[|r| - 1] == WhisperLocal
      && (AppleIntelligence in r <==> appleAvailable)
      && (forall s :: IsCloud(s) ==> (s in r <==> s in keys))
  {
    assert StrictlyAscending(AllCases);
    ListedInKeepsAscending(AllCases, appleAvailable, keys);
    var r := AvailableServices(appleAvailable, keys);
    forall i, j | 0 <= i < j < |r| ensures r[i] != r[j] {
      assert Priority(r[i]) < Priority(r[j]);
    }
    forall s | IsCloud(s) ensures s in r <==> s in keys {
      AllCasesComplete(s);
    }
    AllCasesComplete(AppleIntelligence);
  }

  /** Only which services have a key matters, not what the keys are (an
      empty string counts as a key). */
  lemma {:induction false} KeyValuesIrrelevant(cases: seq<ServiceType>, appleAvailable: bool, keys1: map<ServiceType, string>, keys2: map<ServiceType, string>)
    requires keys1.Keys == keys2.Keys
    ensures ListedIn(cases, appleAvailable, keys1) == ListedIn(cases, appleAvailable, keys2)
  {
    if cases != [] {
      KeyValuesIrrelevant(cases[..|cases| - 1], appleAvailable, keys1, keys2);
    }
  }

  /** Filtering works element by element. */
  lemma {:induction false} ListedInAppend(a: seq<ServiceType>, b: seq<ServiceType>, appleAvailable: bool, keys: map<ServiceType, string>)
    ensures ListedIn(a + b, appleAvailable, keys) == ListedIn(a, appleAvailable, keys) + ListedIn(b, appleAvailable, keys)
    decreases |b|
  {
    if b == [] {
      assert a + b == a;
    } else {
      var init := b[..|b| - 1];
      var last := b[|b| - 1];
      var tail := if Listed(appleAvailable, keys, last) then [last] else [];
      assert (a + b)[..|a + b| - 1] == a + init;
      assert (a + b)[|a + b| - 1] == last;
      ListedInAppend(a, init, appleAvailable, keys);
      calc {
        ListedIn(a + b, appleAvailable, keys);
        ListedIn(a + init, appleAvailable, keys) + tail;
        (ListedIn(a, appleAvailable, keys) + ListedIn(init, appleAvailable, keys)) + tail;
        ListedIn(a, appleAvailable, keys) + (ListedIn(init, appleAvailable, keys) + tail);
        ListedIn(a, appleAvailable, keys) + ListedIn(b, appleAvailable, keys);
      }
    }
  }

  lemma {:induction false} CloudWithKeyInAppend(a: seq<ServiceType>, b: seq<ServiceType>, keys: map<ServiceType, string>)
    ensures CloudWithKeyIn(a + b, keys) == CloudWithKeyIn(a, keys) + CloudWithKeyIn(b, keys)
    decreases |b|
  {
    if b == [] {
      assert a + b == a;
    } else {
      var init := b[..|b| - 1];
      var last := b[|b| - 1];
      var tail := if IsCloud(last) && last in keys then [last] else [];
      assert (a + b)[..|a + b| - 1] == a + init;
      assert (a + b)[|a + b| - 1] == last;
      CloudWithKeyInAppend(a, init, keys);
      calc {
        CloudWithKeyIn(a + b, keys);
        CloudWithKeyIn(a + init, keys) + tail;
        (CloudWithKeyIn(a, keys) + CloudWithKeyIn(init, keys)) + tail;
        CloudWithKeyIn(a, keys) + (CloudWithKeyIn(init, keys) + tail);
        CloudWithKeyIn(a, keys) + CloudWithKeyIn(b, keys);
      }
    }
  }

  /** On cloud services alone, the filter keeps those with a key. */
  lemma {:induction false} ListedInCloud(cases: seq<ServiceType>, appleAvailable: bool, keys: map<ServiceType, string>)
    requires forall i :: 0 <= i < |cases| ==> IsCloud(cases[i])
    ensures ListedIn(cases, appleAvailable, keys) == CloudWithKeyIn(cases, keys)
  {
    if cases != [] {
      ListedInCloud(cases[..|cases| - 1], appleAvailable, keys);
    }
  }

  /** The list the source assembles (Apple Intelligence, then the cloud
      services with keys in `allCases` order, then Local Whisper) is the
      reference list. */
  lemma {:induction false} AssembledListIsAvailable(appleAvailable: bool, keys: map<ServiceType, string>)
    ensures (if appleAvailable then [AppleIntelligence] else []) + CloudWithKeyIn(AllCases, keys) + [WhisperLocal]
         == AvailableServices(appleAvailable, keys)
  {
    var apple := if appleAvailable then [AppleIntelligence] else [];
    var cloud := [OpenAI, OpenRouter, Gemini];
    assert AllCases[..|AllCases| - 1] == [AppleIntelligence] + cloud;
    assert [AppleIntelligence][..0] == [];
    ListedInAppend([AppleIntelligence], cloud, appleAvailable, keys);
    CloudWithKeyInAppend([AppleIntelligence], cloud, keys);
    ListedInCloud(cloud, appleAvailable, keys);
    assert ListedIn([AppleIntelligence], appleAvailable, keys) == apple;
    assert CloudWithKeyIn([AppleIntelligence], keys) == [];
    assert CloudWithKeyIn(AllCases, keys) == CloudWithKeyIn(cloud, keys);
  }

  /** Sorting the assembled list by priority gives the reference list. */
  lemma SortingAssembledList(appleAvailable: bool, keys: map<ServiceType, string>)
    ensures SortByPriority((if appleAvailable then [AppleIntelligence] else []) + CloudWithKeyIn(AllCases, keys) + [WhisperLocal])
         == AvailableServices(appleAvailable, keys)
  {
    AssembledListIsAvailable(appleAvailable, keys);
    AvailableServicesProperties(appleAvailable, keys);
    SortKeepsAscending(AvailableServices(appleAvailable, keys));
  }

  class APIManager {
    var selectedService: ServiceType
    var apiKeys: map<ServiceType, string>

    /** `init()`: every service with a key in the keychain (looked up by raw
        value) gets it, and a stored selection is used when it parses;
        otherwise the selection stays `appleIntelligence`. */
    constructor (keychain: string -> Option<string>, storedSelection: Option<string>)
      ensures forall s :: s in apiKeys <==> keychain(RawValue(s)).Some?
      ensures forall s :: s in apiKeys ==> apiKeys[s] == keychain(RawValue(s)).value
      ensures selectedService ==
        if storedSelection.Some? && FromRawValue(storedSelection.value).Some?
        then FromRawValue(storedSelection.value).value else AppleIntelligence
    {
      selectedService := AppleIntelligence;
      apiKeys := map[];
      new;
      var i := 0;
      while i < |AllCases|
        invariant 0 <= i <= |AllCases|
        invariant selectedService == AppleIntelligence
        invariant forall s :: s in apiKeys <==> s in AllCases[..i] && keychain(RawValue(s)).Some?
        invariant forall s :: s in apiKeys ==> apiKeys[s] == keychain(RawValue(s)).value
      {
        var service := AllCases[i];
        var stored := keychain(RawValue(service));
        if stored.Some? {
          apiKeys := apiKeys[service := stored.value];
        }
        i := i + 1;
      }
      assert AllCases[..i] == AllCases;
      forall s ensures s in AllCases {
        AllCasesComplete(s);
      }
      if storedSelection.Some? {
        var parsed := FromRawValue(storedSelection.value);
        if parsed.Some? {
          selectedService := parsed.value;
        }
      }
    }

    function GetAPIKey(service: ServiceType): (r: Option<string>)
      reads this
      ensures r.Some? <==> service in apiKeys
      ensures r.Some? ==> r.value == apiKeys[service]
    {
      if service in apiKeys then Some(apiKeys[service]) else None
    }

    /** After `setAPIKey(s, k)`, `getAPIKey(s)` is `k` and no other key or
        the selection changes. */
    method SetAPIKey(service: ServiceType, key: string)
      modifies this
      ensures GetAPIKey(service) == Some(key)
      ensures forall other :: other != service ==> GetAPIKey(other) == old(GetAPIKey(other))
      ensures apiKeys == old(apiKeys)[service := key]
      ensures selectedService == old(selectedService)
    {
      apiKeys := apiKeys[service := key];
    }

    method SetSelectedService(service: ServiceType)
      modifies this
      ensures selectedService == service
      ensures apiKeys == old(apiKeys)
    {
      selectedService := service;
    }

    /** `getAvailableServices()`, with the `#available` probe as a parameter:
        collects the services in a local list, then sorts it by priority. The
        result is the reference list, whose properties are
        `AvailableServicesProperties`; the selected service plays no part. */
    method GetAvailableServices(appleAvailable: bool) returns (services: seq<ServiceType>)
      ensures services == AvailableServices(appleAvailable, apiKeys)
    {
      services := [];
      if appleAvailable {
        services := services + [AppleIntelligence];
      }
      var i := 0;
      while i < |AllCases|
        invariant 0 <= i <= |AllCases|
        invariant services == (if appleAvailable then [AppleIntelligence] else []) + CloudWithKeyIn(AllCases[..i], apiKeys)
      {
        var service := AllCases[i];
        ghost var done := AllCases[..i + 1];
        assert done[..|done| - 1] == AllCases[..i] && done[|done| - 1] == service;
        assert CloudWithKeyIn(done, apiKeys)
            == CloudWithKeyIn(AllCases[..i], apiKeys) + (if IsCloud(service) && service in apiKeys then [service] else []);
        if service != AppleIntelligence && service != WhisperLocal {
          if service in apiKeys {
            services := services + [service];
          }
        }
        i := i + 1;
      }
      assert AllCases[..i] == AllCases;
      services := services + [WhisperLocal];
      SortingAssembledList(appleAvailable, apiKeys);
      services := SortByPriority(services);
    }
  }
}
