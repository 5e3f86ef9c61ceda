// The lifecycle of provider and model entries, and what holds over every run
// of errors, successes, admin resets, cleanups and disabled-probe stamps.
module HealthEntries {
  import opened Sequences
  import opened Text
  import opened Cooldown
  import opened Clock

  const PROBING_WINDOW := 600 * SECOND

  datatype Status = Healthy | Cooling | Probing | Disabled

  datatype Entry = Entry(
    status: Status,
    until: Option<int>,
    reason: Option<string>,
    failures: nat,
    updatedAt: Option<int>,
    lastProbeAt: Option<int>)

  type Table = map<string, Entry>

  datatype Tables = Tables(providers: Table, models: Table)

  const HEALTHY_ENTRY := Entry(Healthy, None, None, 0, None, None)

  // ---- Provider names ----------------------------------------------------------

  // normalize_provider, for a given alias table.
  function Normalize(aliases: map<string, string>, name: string): string {
    var n := Lower(Strip(name));
    if name == "" then "" else if n in aliases then aliases[n] else n
  }

  // Every alias target is already in canonical form.
  ghost predicate CanonicalTargets(aliases: map<string, string>) {
    forall k :: k in aliases ==> Normalize(aliases, aliases[k]) == aliases[k]
  }

  // Normalising twice is normalising once.
  lemma {:induction false} NormalizeIdempotent(aliases: map<string, string>, name: string)
    requires CanonicalTargets(aliases)
    ensures Normalize(aliases, Normalize(aliases, name)) == Normalize(aliases, name)
  {
    LowerStripIdempotent(name);
  }

  // White space around a name and its letter case do not matter; an alias stands for its
  // target, and any other spelling for itself.
  lemma {:induction false} SpellingIgnored(aliases: map<string, string>, name: string, other: string)
    ensures name != "" && other != "" && Lower(Strip(name)) == Lower(Strip(other)) ==>
              Normalize(aliases, name) == Normalize(aliases, other)
    ensures name != "" && Lower(Strip(name)) == name ==>
              Normalize(aliases, name) == if name in aliases then aliases[name] else name
    ensures Normalize(aliases, "") == ""
  {
  }

  // PROVIDER_DENYLIST.match, case-insensitive and anchored at the start; `$` also matches
  // before a line break that ends the name.
  predicate Denied(name: string) {
    var n := Lower(name);
    || ((|n| == 7 || (|n| == 8 && n[7] == '\n')) && "model-" <= n && 'a' <= n[6] <= 'z')
    || "mock" <= n
    || (|n| >= 5 && "test" <= n && (n[4] == '-' || n[4] == '_' || n[4] == ':'))
    || "fixture" <= n
  }

  lemma {:induction false} DenyIgnoresCase(name: string)
    ensures Denied(Lower(name)) <==> Denied(name)
  {
    LowerTwice(name);
  }

  // What follows decides, once a name opens with one of the four words.
  lemma {:induction false} DenyList(rest: string, c: char)
    ensures Denied("mock" + rest) && Denied("fixture" + rest)
    ensures Denied("test" + ([c] + rest)) <==> c == '-' || c == '_' || c == ':'
  {
    LowerStarts("mock", rest);
    LowerStarts("fixture", rest);
    DenyTest([c] + rest);
  }

  lemma {:induction false} DenyTest(tail: string)
    requires tail != ""
    ensures Denied("test" + tail) <==> tail[0] == '-' || tail[0] == '_' || tail[0] == ':'
  {
    LowerStarts("test", tail);
    var n := Lower("test" + tail);
    assert n[0] == 't' && n[|"test"| + 0] == LowerChar(tail[0]);
  }

  lemma {:induction false} DeniedInitials(name: string)
    requires Denied(name)
    ensures name != "" && name[0] in "mMtTfF"
  {
    LowerAt(name, 0);
  }

  // After "model-" comes one letter, and at most a line break after that.
  lemma {:induction false} DenyModel(rest: string, c: char)
    ensures Denied("model-" + ([c] + rest)) <==> (rest == "" || rest == "\n") && ('a' <= c <= 'z' || 'A' <= c <= 'Z')
  {
    var tail := [c] + rest;
    LowerStarts("model-", tail);
    var n := Lower("model-" + tail);
    assert n[0] == 'm' && n[1] == 'o' && n[2] == 'd';
    assert n[|"model-"| + 0] == LowerChar(tail[0]);
    assert 'a' <= LowerChar(c) <= 'z' <==> 'a' <= c <= 'z' || 'A' <= c <= 'Z';
    if |rest| == 1 {
      assert rest == [rest[0]] && rest[0] == tail[1];
      assert n[|"model-"| + 1] == LowerChar(tail[1]);
      assert LowerChar(rest[0]) == '\n' <==> rest[0] == '\n';
    }
  }

  predicate Phantom(aliases: map<string, string>, name: string) {
    || name == ""
    || ':' in name
    || '/' in name
    || ("openai-compatible-chat-" <= name && name !in aliases)
  }

  // ---- One entry ------------------------------------------------------------------

  // The stored deadline is parsed into a datetime before it is handed to the
  // calculator, which expects text: it is never compared.
  function CurrentOf(t: Table, key: string): Current {
    if key in t && t[key].until.Some? then Other else Absent
  }

  function FailuresOf(t: Table, key: string): nat {
    if key in t then t[key].failures else 0
  }

  function ErrorEntry(t: Table, key: string, info: ErrorInfo, jitter: real, now: int): Entry {
    var v := Calculate(info, FailuresOf(t, key), CurrentOf(t, key), jitter, now);
    Entry(if v.permanent then Disabled else Cooling, v.until, Some(v.reason), v.failures, Some(now), None)
  }

  function ReasonText(e: Entry): string {
    if e.reason.Some? then e.reason.value else ""
  }

  predicate Garbage(e: Entry) {
    e.until.None? && e.status != Healthy && e.status != Disabled
  }

  // cleanup_expired on one entry: None when it is removed.
  function Clean(e: Entry, now: int): Option<Entry> {
    if Garbage(e) then None
    else if e.status == Cooling && IsExpired(e.until, now) then
      var base := BaseErrorType(ReasonText(e));
      if e.failures >= MAX_FAILURES && base !in RATE_LIMIT_TYPES then
        Some(e.(status := Disabled, reason := Some(base + MAX_FAILURES_SUFFIX), until := None))
      else
        Some(e.(status := Probing, reason := Some(base + PROBING_SUFFIX),
                until := Some(now + PROBING_WINDOW), updatedAt := Some(now)))
    else if e.status == Probing && IsExpired(e.until, now) then None
    else Some(e)
  }

  // Whether cleanup_expired counts the entry.
  predicate Counts(e: Entry, now: int) {
    !Garbage(e) && (e.status == Cooling || e.status == Probing) && IsExpired(e.until, now)
  }

  function CleanTable(t: Table, now: int): Table {
    map k | k in t && Clean(t[k], now).Some? :: Clean(t[k], now).value
  }

  function CountTable(t: Table, now: int): nat {
    |set k | k in t && Counts(t[k], now)|
  }

  // ---- Steps -------------------------------------------------------------------------

  // Provider names are normalised; an empty model means none was given.
  datatype Event =
    | Error(at: int, provider: string, info: ErrorInfo, model: string, jitter: real)
    | Success(at: int, provider: string, model: string)
    | Force(at: int, provider: string, model: string)
    | Cleanup(at: int)
    | ProbeDisabled(at: int, provider: string)

  predicate ModelError(e: Event)
    requires e.Error?
  {
    e.info.modelSpecific && e.model != ""
  }

  predicate HitsModel(e: Event, model: string) {
    e.Error? && !Denied(e.provider) && !e.info.global && ModelError(e) && e.model == model
  }

  predicate HitsProvider(aliases: map<string, string>, e: Event, provider: string) {
    e.Error? && !Denied(e.provider) && !e.info.global && !ModelError(e)
    && !Phantom(aliases, e.provider) && e.provider == provider
  }

  function OnSuccess(s: Tables, provider: string, model: string): Tables {
    if Denied(provider) then s
    else Tables(s.providers[provider := HEALTHY_ENTRY],
                if model != "" then s.models[model := HEALTHY_ENTRY] else s.models)
  }

  function Step(aliases: map<string, string>, s: Tables, e: Event): Tables {
    match e
    case Error(at, provider, info, model, jitter) =>
      if HitsModel(e, model) then
        s.(models := s.models[model := ErrorEntry(s.models, model, info, jitter, at)])
      else if HitsProvider(aliases, e, provider) then
        s.(providers := s.providers[provider := ErrorEntry(s.providers, provider, info, jitter, at)])
      else s
    case Success(_, provider, model) => OnSuccess(s, provider, model)
    case Force(_, provider, model) =>
      OnSuccess(Tables(s.providers - {provider}, if model != "" then s.models - {model} else s.models), provider, model)
    case Cleanup(at) => Tables(CleanTable(s.providers, at), CleanTable(s.models, at))
    case ProbeDisabled(at, provider) =>
      if !Denied(provider) && provider in s.providers && s.providers[provider].status == Disabled then
        s.(providers := s.providers[provider := s.providers[provider].(lastProbeAt := Some(at))])
      else s
  }

  function Run(aliases: map<string, string>, events: seq<Event>): Tables {
    if events == [] then Tables(map[], map[])
    else Step(aliases, Run(aliases, Front(events)), Last(events))
  }

  // ---- Entry coherence ------------------------------------------------------------------

  ghost predicate CoherentEntry(e: Entry) {
    match e.status
    case Healthy => e.until.None? && e.failures == 0
    case Cooling => e.until.Some? && e.updatedAt.Some?
    case Probing => e.until.Some? && e.updatedAt.Some?
    case Disabled => e.until.None? && e.updatedAt.Some?
  }

  ghost predicate Coherent(t: Table) {
    forall k :: k in t ==> CoherentEntry(t[k])
  }

  // Without a deadline an entry goes exactly when it is garbage, and is never counted.
  lemma {:induction false} GarbageGoes(e: Entry, now: int)
    requires e.until == None
    ensures Clean(e, now) == if e.status == Cooling || e.status == Probing then None else Some(e)
    ensures !Counts(e, now)
  {
  }

  lemma {:induction false} CleanKeepsCoherent(t: Table, now: int)
    requires Coherent(t)
    ensures Coherent(CleanTable(t, now))
  {
    forall k | k in CleanTable(t, now) ensures CoherentEntry(CleanTable(t, now)[k]) {
      assert CoherentEntry(t[k]);
    }
  }

  ghost predicate CoherentTables(s: Tables) {
    Coherent(s.providers) && Coherent(s.models)
  }

  lemma {:induction false} StepKeepsCoherent(aliases: map<string, string>, s: Tables, e: Event)
    requires CoherentTables(s)
    ensures CoherentTables(Step(aliases, s, e))
  {
    if e.Cleanup? {
      CleanKeepsCoherent(s.providers, e.at);
      CleanKeepsCoherent(s.models, e.at);
    }
  }

  lemma {:induction false} RunIsCoherent(aliases: map<string, string>, events: seq<Event>)
    ensures CoherentTables(Run(aliases, events))
  {
    if events == [] {
    } else {
      RunIsCoherent(aliases, Front(events));
      StepKeepsCoherent(aliases, Run(aliases, Front(events)), Last(events));
    }
  }

  // From an empty registry, every reachable entry is coherent: healthy means no
  // deadline and no failures, cooling and probing have a deadline, disabled has
  // none.  So nothing is ever garbage.
  lemma {:induction false} AlwaysCoherent(aliases: map<string, string>, events: seq<Event>)
    ensures var s := Run(aliases, events);
      && Coherent(s.providers) && Coherent(s.models)
      && (forall k :: k in s.providers ==> !Garbage(s.providers[k]))
      && (forall k :: k in s.models ==> !Garbage(s.models[k]))
  {
    RunIsCoherent(aliases, events);
    NoGarbage(Run(aliases, events).providers);
    NoGarbage(Run(aliases, events).models);
  }

  lemma {:induction false} NoGarbage(t: Table)
    requires Coherent(t)
    ensures forall k :: k in t ==> !Garbage(t[k])
  {
    assert forall k :: k in t ==> CoherentEntry(t[k]);
  }

  predicate ClockInRange(now: int) {
    0 <= now + PROBING_WINDOW < YEAR_2101
  }

  lemma {:induction false} CleanTwice(t: Table, now: int)
    requires Coherent(t) && ClockInRange(now)
    ensures CleanTable(CleanTable(t, now), now) == CleanTable(t, now)
    ensures CountTable(CleanTable(t, now), now) == 0
  {
    var once := CleanTable(t, now);
    forall k | k in once ensures Clean(once[k], now) == Some(once[k]) && !Counts(once[k], now) {
      assert CoherentEntry(t[k]);
      assert Clean(t[k], now) == Some(once[k]);
    }
    assert (set k | k in once && Counts(once[k], now)) == {};
  }

  // A second cleanup at the same instant does nothing and counts nothing, for
  // every coherent table, exactly when the probing deadline it grants lies in
  // the years the expiry test accepts.
  lemma {:induction false} CleanupIdempotentIffClockInRange(now: int)
    ensures (forall t: Table :: Coherent(t) ==>
               CleanTable(CleanTable(t, now), now) == CleanTable(t, now) && CountTable(CleanTable(t, now), now) == 0)
            <==> ClockInRange(now)
  {
    if ClockInRange(now) {
      forall t: Table | Coherent(t)
        ensures CleanTable(CleanTable(t, now), now) == CleanTable(t, now) && CountTable(CleanTable(t, now), now) == 0
      {
        CleanTwice(t, now);
      }
    } else {
      var t: Table := map["p" := Entry(Cooling, Some(-1), None, 1, Some(0), None)];
      assert Coherent(t);
      var once := CleanTable(t, now);
      assert once["p"].status == Probing && once["p"].until == Some(now + PROBING_WINDOW);
      assert "p" !in CleanTable(once, now);
    }
  }

  // ---- Transient errors never disable ------------------------------------------------------

  predicate Transient(info: ErrorInfo) {
    info.errorType in TRANSPORT_TYPES || (info.errorType in RATE_LIMIT_TYPES && !info.permanent)
  }

  // Not disabled, and safe from the lock that 30 failures bring.
  ghost predicate SafeEntry(e: Entry) {
    e.status != Disabled && (e.failures >= MAX_FAILURES ==> BaseErrorType(ReasonText(e)) in RATE_LIMIT_TYPES)
  }

  lemma {:induction false} ErrorKeepsSafe(t: Table, key: string, info: ErrorInfo, jitter: real, now: int)
    requires Transient(info)
    ensures SafeEntry(ErrorEntry(t, key, info, jitter, now))
  {
    if info.errorType in RATE_LIMIT_TYPES {
      BaseOfRateLimit(info.errorType);
    }
  }

  lemma {:induction false} BaseOfProbing(base: string)
    ensures BaseErrorType(base + PROBING_SUFFIX) == base
  {
    var r := base + PROBING_SUFFIX;
    assert r[|base|..] == PROBING_SUFFIX;
    assert r[|r| - 2] == 'g';
    assert MAX_FAILURES_SUFFIX[|MAX_FAILURES_SUFFIX| - 2] == 's';
  }

  lemma {:induction false} CleanKeepsSafe(e: Entry, now: int)
    requires SafeEntry(e) && Clean(e, now).Some?
    ensures SafeEntry(Clean(e, now).value)
  {
    BaseOfProbing(BaseErrorType(ReasonText(e)));
  }

  // A provider all of whose errors are transient is never disabled, however
  // many of them there are and whatever else happens to it.
  lemma {:induction false} TransientErrorsNeverDisableProvider(aliases: map<string, string>, events: seq<Event>,
                                                               p: string)
    requires forall i :: 0 <= i < |events| && HitsProvider(aliases, events[i], p) ==> Transient(events[i].info)
    ensures var t := Run(aliases, events).providers; p in t ==> SafeEntry(t[p]) && t[p].status != Disabled
  {
    if events == [] {
    } else {
      var before, e := Run(aliases, Front(events)), Last(events);
      assert forall i :: 0 <= i < |events| - 1 ==> Front(events)[i] == events[i];
      TransientErrorsNeverDisableProvider(aliases, Front(events), p);
      assert HitsProvider(aliases, e, p) ==> Transient(e.info);
      if HitsProvider(aliases, e, p) {
        ErrorKeepsSafe(before.providers, p, e.info, e.jitter, e.at);
      } else if e.Cleanup? && p in before.providers && Clean(before.providers[p], e.at).Some? {
        CleanKeepsSafe(before.providers[p], e.at);
      }
    }
  }

  lemma {:induction false} TransientErrorsNeverDisableModel(aliases: map<string, string>, events: seq<Event>, m: string)
    requires forall i :: 0 <= i < |events| && HitsModel(events[i], m) ==> Transient(events[i].info)
    ensures var t := Run(aliases, events).models; m in t ==> SafeEntry(t[m]) && t[m].status != Disabled
  {
    if events == [] {
    } else {
      var before, e := Run(aliases, Front(events)), Last(events);
      assert forall i :: 0 <= i < |events| - 1 ==> Front(events)[i] == events[i];
      TransientErrorsNeverDisableModel(aliases, Front(events), m);
      assert HitsModel(e, m) ==> Transient(e.info);
      if HitsModel(e, m) {
        ErrorKeepsSafe(before.models, m, e.info, e.jitter, e.at);
      } else if e.Cleanup? && m in before.models && Clean(before.models[m], e.at).Some? {
        CleanKeepsSafe(before.models[m], e.at);
      }
    }
  }

  // ---- Every change of status -------------------------------------------------------------------

  function StatusOf(t: Table, key: string): Option<Status> {
    if key in t then Some(t[key].status) else None
  }

  // The error counts against the provider, or against the model: never for a denied name
  // or a gateway-wide error, and against one of the two only.
  predicate StrikesProvider(aliases: map<string, string>, e: Event, p: string) {
    && e.Error? && e.provider == p && !Denied(p) && !e.info.global && !(e.info.modelSpecific && e.model != "")
    && p != "" && ':' !in p && '/' !in p && !("openai-compatible-chat-" <= p && p !in aliases)
  }

  predicate StrikesModel(e: Event, m: string) {
    e.Error? && !Denied(e.provider) && !e.info.global && e.info.modelSpecific && m != "" && e.model == m
  }

  predicate HealsProvider(e: Event, p: string) {
    (e.Success? || e.Force?) && e.provider == p && !Denied(p)
  }

  predicate HealsModel(e: Event, m: string) {
    (e.Success? || e.Force?) && e.model == m && m != "" && !Denied(e.provider)
  }

  // The deadline has come, or lies outside the years 1970 to 2100.
  predicate Over(e: Entry, at: int) {
    e.until.Some? && !(0 <= e.until.value < 4_133_980_800_000_000 && at < e.until.value)
  }

  // Thirty failures, and not of a rate limit.
  predicate Spent(e: Entry) {
    e.failures >= 30 && !RateLimited(BaseErrorType(ReasonText(e)))
  }

  // What turned this entry's status into another, given whether the event strikes it,
  // heals it or forgets it.
  ghost predicate Explained(t: Table, after: Table, key: string, e: Event, strikes: bool, heals: bool, forgets: bool)
    requires strikes ==> e.Error?
  {
    var was, now := StatusOf(t, key), StatusOf(after, key);
    var over := key in t && e.Cleanup? && Over(t[key], e.at);
    && (was != now && now == Some(Healthy) <==> was != Some(Healthy) && heals)
    && (was != now && now == Some(Cooling) <==>
          was != Some(Cooling) && strikes && !Locks(e.info, FailuresOf(t, key)))
    && (was != now && now == Some(Probing) <==> was == Some(Cooling) && over && !Spent(t[key]))
    && (was != now && now == Some(Disabled) <==>
          || (was != Some(Disabled) && strikes && Locks(e.info, FailuresOf(t, key)))
          || (was == Some(Cooling) && over && Spent(t[key])))
    && (was != now && now == None <==> was != None && (forgets || (was == Some(Probing) && over)))
  }

  // What is stored, given the same.
  ghost predicate Stored(t: Table, after: Table, key: string, e: Event, strikes: bool, heals: bool, forgets: bool,
                         stamps: bool)
    requires strikes ==> e.Error?
  {
    if strikes then
      var n := FailuresOf(t, key);
      && key in after
      && after[key].failures == (if !Transport(e.info.errorType) then n + 1 else if n == 0 then 1 else 2)
      && after[key].updatedAt == Some(e.at) && after[key].lastProbeAt == None
      && after[key].reason == Some(e.info.errorType +
                                   if n >= 29 && !Transport(e.info.errorType) then " (max_failures)" else "")
    else if heals then key in after && after[key] == Entry(Healthy, None, None, 0, None, None)
    else if forgets then key !in after
    else if key !in t then key !in after
    else if e.Cleanup? && Over(t[key], e.at) then
      match t[key].status
      case Cooling => key in after && after[key] == SweptUp(t[key], e.at)
      case Probing => key !in after
      case _ => key in after && after[key] == t[key]
    else if stamps && t[key].status == Disabled then
      key in after && after[key] == t[key].(lastProbeAt := Some(e.at))
    else key in after && after[key] == t[key]
  }

  // A cooldown found over: probed for ten minutes, or locked.
  function SweptUp(e: Entry, at: int): Entry {
    var base := BaseErrorType(ReasonText(e));
    if Spent(e) then e.(status := Disabled, until := None, reason := Some(base + " (max_failures)"))
    else e.(status := Probing, until := Some(at + 10 * 60 * SECOND), reason := Some(base + " (probing)"),
            updatedAt := Some(at))
  }

  lemma {:induction false} StrikeExplained(t: Table, key: string, e: Event)
    requires e.Error?
    ensures var after := t[key := ErrorEntry(t, key, e.info, e.jitter, e.at)];
            Explained(t, after, key, e, true, false, false) && Stored(t, after, key, e, true, false, false, false)
  {
    LocksIff(e.info, FailuresOf(t, key), CurrentOf(t, key), e.jitter, e.at);
  }

  lemma {:induction false} CleanedIs(e: Entry, at: int)
    requires CoherentEntry(e)
    ensures Clean(e, at) == CleanedUp(e, at)
  {
    var base := BaseErrorType(ReasonText(e));
    ExpiresIff(e.until, at);
    assert base in RATE_LIMIT_TYPES <==> RateLimited(base);
  }

  function CleanedUp(e: Entry, at: int): Option<Entry> {
    if e.status == Cooling && Over(e, at) then Some(SweptUp(e, at))
    else if e.status == Probing && Over(e, at) then None
    else Some(e)
  }

  lemma {:induction false} CleanupExplained(t: Table, key: string, e: Event)
    requires e.Cleanup? && Coherent(t)
    ensures var after := CleanTable(t, e.at);
            Explained(t, after, key, e, false, false, false) && Stored(t, after, key, e, false, false, false, false)
  {
    var after := CleanTable(t, e.at);
    if key in t {
      assert CoherentEntry(t[key]);
      CleanedIs(t[key], e.at);
      CleanedExplained(t, after, key, e, Clean(t[key], e.at));
    }
  }

  lemma {:induction false} CleanedExplained(t: Table, after: Table, key: string, e: Event, kept: Option<Entry>)
    requires e.Cleanup? && key in t && CoherentEntry(t[key]) && kept == CleanedUp(t[key], e.at)
    requires if kept.Some? then key in after && after[key] == kept.value else key !in after
    ensures Explained(t, after, key, e, false, false, false) && Stored(t, after, key, e, false, false, false, false)
  {
  }

  ghost predicate ProviderChange(aliases: map<string, string>, before: Table, after: Table, e: Event, p: string) {
    var strikes, heals := StrikesProvider(aliases, e, p), HealsProvider(e, p);
    var forgets, stamps := e.Force? && e.provider == p && Denied(p), e.ProbeDisabled? && e.provider == p && !Denied(p);
    && Explained(before, after, p, e, strikes, heals, forgets)
    && Stored(before, after, p, e, strikes, heals, forgets, stamps)
  }

  ghost predicate ModelChange(before: Table, after: Table, e: Event, m: string) {
    var strikes, heals := StrikesModel(e, m), HealsModel(e, m);
    var forgets := e.Force? && e.model == m && m != "" && Denied(e.provider);
    && Explained(before, after, m, e, strikes, heals, forgets)
    && Stored(before, after, m, e, strikes, heals, forgets, false)
  }

  lemma {:induction false} ProviderStep(aliases: map<string, string>, s: Tables, e: Event, p: string)
    requires CoherentTables(s)
    ensures ProviderChange(aliases, s.providers, Step(aliases, s, e).providers, e, p)
  {
    if StrikesProvider(aliases, e, p) {
      StrikeExplained(s.providers, p, e);
    } else if e.Cleanup? {
      CleanupExplained(s.providers, p, e);
    }
  }

  lemma {:induction false} ModelStep(aliases: map<string, string>, s: Tables, e: Event, m: string)
    requires CoherentTables(s)
    ensures ModelChange(s.models, Step(aliases, s, e).models, e, m)
  {
    if StrikesModel(e, m) {
      StrikeExplained(s.models, m, e);
    } else if e.Cleanup? {
      CleanupExplained(s.models, m, e);
    }
  }

  // Over every run, a provider's status changes exactly so: a success or an admin reset
  // makes it healthy; an error that strikes it makes it cool down, or locks it; a cleanup
  // that finds the cooldown over has it probed, or locks it after thirty failures; one that
  // finds the probe over forgets it, as does an admin reset of a denied name.
  lemma {:induction false} ProviderChangesIff(aliases: map<string, string>, events: seq<Event>, p: string)
    requires events != []
    ensures ProviderChange(aliases, Run(aliases, Front(events)).providers, Run(aliases, events).providers,
                           Last(events), p)
  {
    RunIsCoherent(aliases, Front(events));
    ProviderStep(aliases, Run(aliases, Front(events)), Last(events), p);
  }

  lemma {:induction false} ModelChangesIff(aliases: map<string, string>, events: seq<Event>, m: string)
    requires events != []
    ensures ModelChange(Run(aliases, Front(events)).models, Run(aliases, events).models, Last(events), m)
  {
    RunIsCoherent(aliases, Front(events));
    ModelStep(aliases, Run(aliases, Front(events)), Last(events), m);
  }

  // ---- Consecutive errors ---------------------------------------------------------------------

  // An error whose wait is drawn from the exponential backoff.
  predicate Backing(e: Event)
    requires e.Error?
  {
    && e.info.errorType !in TRANSPORT_TYPES && !e.info.permanent && 0.85 <= e.jitter <= 1.15
    && BaseSeconds(e.info) >= 0.0
  }

  // Only such errors, all of them hitting the provider.
  ghost predicate BackingRun(aliases: map<string, string>, events: seq<Event>, p: string) {
    forall i :: 0 <= i < |events| ==> HitsProvider(aliases, events[i], p) && Backing(events[i])
  }

  ghost predicate BackingModelRun(events: seq<Event>, m: string) {
    forall i :: 0 <= i < |events| ==> HitsModel(events[i], m) && Backing(events[i])
  }

  // Cooling down after the k-th error in a row, `last`, for its base doubled k - 1 times,
  // up to a day, give or take 15 percent and rounded down.
  ghost predicate BackedOff(e: Entry, k: nat, last: Event)
    requires last.Error? && k >= 1
  {
    && e.status == Cooling && e.failures == k && e.reason == Some(last.info.errorType)
    && exists seconds :: DeadlineAfter(e, last.at, Wait(BaseSeconds(last.info), k), seconds)
  }

  ghost predicate DeadlineAfter(e: Entry, at: int, wait: real, seconds: int) {
    e.until == Some(at + seconds * SECOND) && 0.85 * wait - 1.0 < seconds as real <= 1.15 * wait
  }

  lemma {:induction false} ErrorBacksOff(t: Table, key: string, last: Event, k: nat)
    requires last.Error? && Backing(last) && FailuresOf(t, key) == k - 1 && 1 <= k < MAX_FAILURES
    ensures BackedOff(ErrorEntry(t, key, last.info, last.jitter, last.at), k, last)
  {
    var e := ErrorEntry(t, key, last.info, last.jitter, last.at);
    var seconds := JitterBand(last.info, k - 1, CurrentOf(t, key), last.jitter, last.at);
    BackoffIsWait(BaseSeconds(last.info), k);
    assert DeadlineAfter(e, last.at, Wait(BaseSeconds(last.info), k), seconds);
  }

  // Fewer than 30 errors in a row, and nothing else: the stored count is their number and
  // the deadline lies in the jitter band of the doubled base.
  lemma {:induction false} ErrorsInARowDouble(aliases: map<string, string>, events: seq<Event>, p: string)
    requires BackingRun(aliases, events, p) && 1 <= |events| < MAX_FAILURES
    ensures var t := Run(aliases, events).providers;
            p in t && BackedOff(t[p], |events|, Last(events))
  {
    var front, e := Front(events), Last(events);
    assert HitsProvider(aliases, events[|events| - 1], p);
    var before := Run(aliases, front).providers;
    assert BackingRun(aliases, front, p) by {
      assert forall i :: 0 <= i < |front| ==> front[i] == events[i];
    }
    if front != [] {
      ErrorsInARowDouble(aliases, front, p);
    }
    ErrorBacksOff(before, p, e, |events|);
  }

  lemma {:induction false} ModelErrorsInARowDouble(aliases: map<string, string>, events: seq<Event>, m: string)
    requires BackingModelRun(events, m) && 1 <= |events| < MAX_FAILURES
    ensures var t := Run(aliases, events).models;
            m in t && BackedOff(t[m], |events|, Last(events))
  {
    var front, e := Front(events), Last(events);
    assert HitsModel(events[|events| - 1], m);
    var before := Run(aliases, front).models;
    assert BackingModelRun(front, m) by {
      assert forall i :: 0 <= i < |front| ==> front[i] == events[i];
    }
    if front != [] {
      ModelErrorsInARowDouble(aliases, front, m);
    }
    ErrorBacksOff(before, m, e, |events|);
  }

  // ---- Oversized prompts lock after all ------------------------------------------------------

  predicate Oversized(info: ErrorInfo) {
    RequestScoped(info.errorType) && !info.permanent
  }

  // Errors that hit the model since its last success, reset or removal.
  function HitsSince(aliases: map<string, string>, events: seq<Event>, m: string): nat {
    if events == [] then 0
    else
      var before, e := HitsSince(aliases, Front(events), m), Last(events);
      match e
      case Error(_, _, _, _, _) => before + if HitsModel(e, m) then 1 else 0
      case Success(_, provider, model) => if model == m != "" && !Denied(provider) then 0 else before
      case Force(_, _, model) => if model == m != "" then 0 else before
      case Cleanup(_) => if m in Run(aliases, events).models then before else 0
      case ProbeDisabled(_, _) => before
  }

  // The stored count is the one read off the history, and the stored reason still
  // names an oversized prompt.
  ghost predicate Tracks(t: Table, m: string, hits: nat) {
    if m in t then
      t[m].failures == hits && (t[m].status != Healthy ==> RequestScoped(BaseErrorType(ReasonText(t[m]))))
    else hits == 0
  }

  lemma {:induction false} CutKeepsScope(errorType: string)
    requires RequestScoped(errorType)
    ensures RequestScoped(BaseErrorType(errorType))
  {
    if EndsWith(errorType, MAX_FAILURES_SUFFIX) {
      SuffixAfterScope(errorType, MAX_FAILURES_SUFFIX);
    } else if EndsWith(errorType, PROBING_SUFFIX) {
      SuffixAfterScope(errorType, PROBING_SUFFIX);
    }
  }

  // A suffix that opens with a blank starts after any of the three type names.
  lemma {:induction false} SuffixAfterScope(errorType: string, suffix: string)
    requires RequestScoped(errorType) && EndsWith(errorType, suffix) && suffix != "" && suffix[0] == ' '
    ensures RequestScoped(errorType[..|errorType| - |suffix|])
  {
    var n := |errorType| - |suffix|;
    assert errorType[n] == errorType[n..][0] == ' ';
    if "context_length" <= errorType {
      ScopeHasNoBlank("context_length", errorType, n);
    } else if "max_tokens_exceeded" <= errorType {
      ScopeHasNoBlank("max_tokens_exceeded", errorType, n);
    } else {
      ScopeHasNoBlank("input_too_long", errorType, n);
    }
  }

  lemma {:induction false} ScopeHasNoBlank(name: string, errorType: string, n: nat)
    requires name <= errorType && ' ' !in name && n < |errorType| && errorType[n] == ' '
    ensures name <= errorType[..n]
  {
    assert forall i :: 0 <= i < |name| ==> errorType[i] == name[i] && name[i] != ' ';
  }

  lemma {:induction false} ErrorTracks(t: Table, m: string, hits: nat, info: ErrorInfo, jitter: real, now: int)
    requires Tracks(t, m, hits) && Oversized(info)
    ensures var e := ErrorEntry(t, m, info, jitter, now);
            && Tracks(t[m := e], m, hits + 1) && e.status == Cooling
            && (hits + 1 >= MAX_FAILURES ==> e.until == Some(now + 120 * SECOND))
  {
    ScopedIsNoLimit(info.errorType);
    BaseOfMaxed(info.errorType);
    CutKeepsScope(info.errorType);
  }

  lemma {:induction false} CleanTracks(t: Table, m: string, hits: nat, now: int)
    requires Tracks(t, m, hits)
    ensures Tracks(CleanTable(t, now), m, if m in CleanTable(t, now) then hits else 0)
    ensures m in t && t[m].status != Healthy ==> BaseErrorType(ReasonText(t[m])) !in RATE_LIMIT_TYPES
  {
    if m in t && t[m].status != Healthy {
      var base := BaseErrorType(ReasonText(t[m]));
      ScopedIsNoLimit(base);
      BaseOfMaxed(base);
      BaseOfProbing(base);
    }
  }

  // Steps other than a hit or a cleanup.
  lemma {:induction false} OtherTracks(aliases: map<string, string>, s: Tables, e: Event, m: string, hits: nat)
    requires Tracks(s.models, m, hits) && !HitsModel(e, m) && !e.Cleanup?
    ensures Tracks(Step(aliases, s, e).models, m,
                   if m != "" && ((e.Success? && e.model == m && !Denied(e.provider)) || (e.Force? && e.model == m))
                   then 0 else hits)
  {
  }

  lemma {:induction false} HitsAreTracked(aliases: map<string, string>, events: seq<Event>, m: string)
    requires forall i :: 0 <= i < |events| && HitsModel(events[i], m) ==> Oversized(events[i].info)
    ensures Tracks(Run(aliases, events).models, m, HitsSince(aliases, events, m))
  {
    if events == [] {
    } else {
      var front, e := Front(events), Last(events);
      assert forall i :: 0 <= i < |front| ==> front[i] == events[i];
      HitsAreTracked(aliases, front, m);
      var before, hits := Run(aliases, front).models, HitsSince(aliases, front, m);
      if HitsModel(e, m) {
        ErrorTracks(before, m, hits, e.info, e.jitter, e.at);
      } else if e.Cleanup? {
        CleanTracks(before, m, hits, e.at);
      } else {
        OtherTracks(aliases, Run(aliases, front), e, m, hits);
      }
    }
  }

  // What turns a model off: a cleanup that finds its cooldown over after 30 hits.
  ghost predicate LocksNow(aliases: map<string, string>, events: seq<Event>, m: string)
    requires events != []
  {
    var before := Run(aliases, Front(events)).models;
    && Last(events).Cleanup? && m in before
    && before[m].status == Cooling && IsExpired(before[m].until, Last(events).at)
    && HitsSince(aliases, Front(events), m) >= MAX_FAILURES
  }

  ghost predicate Off(t: Table, m: string) {
    m in t && t[m].status == Disabled
  }

  // An oversized prompt is meant to be transient.  Over every run whose errors on the
  // model are all of that kind, a step turns the model off exactly when it is a cleanup
  // that finds the cooldown expired after at least 30 of them.
  lemma {:induction false} OversizedPromptsLockIff(aliases: map<string, string>, events: seq<Event>, m: string)
    requires forall i :: 0 <= i < |events| && HitsModel(events[i], m) ==> Oversized(events[i].info)
    requires events != []
    ensures !Off(Run(aliases, Front(events)).models, m) && Off(Run(aliases, events).models, m)
            <==> LocksNow(aliases, events, m)
  {
    var front, e := Front(events), Last(events);
    assert forall i :: 0 <= i < |front| ==> front[i] == events[i];
    HitsAreTracked(aliases, front, m);
    var before, hits := Run(aliases, front).models, HitsSince(aliases, front, m);
    if HitsModel(e, m) {
      ErrorTracks(before, m, hits, e.info, e.jitter, e.at);
    } else if e.Cleanup? {
      CleanTracks(before, m, hits, e.at);
    }
  }

  // Nothing but oversized prompts for the model.
  ghost predicate OnlyPrompts(events: seq<Event>, m: string) {
    forall i :: 0 <= i < |events| ==> HitsModel(events[i], m) && Oversized(events[i].info)
  }

  lemma {:induction false} PromptsCool(aliases: map<string, string>, events: seq<Event>, m: string)
    requires OnlyPrompts(events, m)
    ensures HitsSince(aliases, events, m) == |events|
    ensures events != [] ==> CoolingSince(Run(aliases, events).models, m, |events|, Last(events).at)
  {
    if events == [] {
    } else {
      var front, e := Front(events), Last(events);
      assert forall i :: 0 <= i < |front| ==> front[i] == events[i];
      PromptsCool(aliases, front, m);
      HitsAreTracked(aliases, front, m);
      ErrorTracks(Run(aliases, front).models, m, |front|, e.info, e.jitter, e.at);
    }
  }

  ghost predicate CoolingSince(t: Table, m: string, hits: nat, last: int) {
    m in t && t[m].status == Cooling && (hits >= MAX_FAILURES ==> t[m].until == Some(last + 120 * SECOND))
  }

  // Reachable from the empty registry: oversized prompts in a row and a cleanup once
  // the cooldown is over turn the model off exactly when there were at least 30; after
  // 30 the cooldown is two minutes.
  lemma {:induction false} PromptsThenCleanup(aliases: map<string, string>, prompts: seq<Event>, m: string, later: int)
    requires OnlyPrompts(prompts, m) && prompts != []
    ensures var t := Run(aliases, prompts).models;
            && CoolingSince(t, m, |prompts|, Last(prompts).at)
            && (IsExpired(t[m].until, later) ==>
                  (Off(Run(aliases, prompts + [Cleanup(later)]).models, m) <==> |prompts| >= MAX_FAILURES))
  {
    var events := prompts + [Cleanup(later)];
    PromptsCool(aliases, prompts, m);
    assert Front(events) == prompts;
    OversizedPromptsLockIff(aliases, events, m);
  }

  // ---- The longer cooldown is not kept ---------------------------------------------------------

  // A new error's deadline does not depend on the one already there ...
  lemma {:induction false} OldDeadlineIgnored(t: Table, key: string, until: Option<int>, info: ErrorInfo,
                                              jitter: real, now: int)
    requires key in t
    ensures ErrorEntry(t, key, info, jitter, now)
         == ErrorEntry(t[key := t[key].(until := until)], key, info, jitter, now)
  {
  }

  // The earliest deadline an error can set, whatever the jitter; None locks.
  function EarliestDeadline(info: ErrorInfo, failures: nat, now: int): Option<int> {
    if info.errorType in TRANSPORT_TYPES then Some(now + (if failures == 0 then 30 else 60) * SECOND)
    else if failures + 1 >= MAX_FAILURES then
      if info.errorType in RATE_LIMIT_TYPES then Some(now + 86400 * SECOND)
      else if RequestScoped(info.errorType) then Some(now + 120 * SECOND)
      else None
    else if info.permanent then None
    else Some(now + LeastSeconds(BaseSeconds(info), failures + 1) * SECOND)
  }

  predicate AtLeast(until: Option<int>, stored: int) {
    until.None? || until.value >= stored
  }

  // ... so the longer cooldown is kept, for every jitter, exactly when the earliest
  // deadline the new error can set is no earlier than the stored one.
  lemma {:induction false} KeepsLongerIff(t: Table, key: string, info: ErrorInfo, stored: int, now: int)
    requires key in t && t[key].until == Some(stored)
    ensures (forall jitter: real | 0.85 <= jitter <= 1.15 ::
               AtLeast(ErrorEntry(t, key, info, jitter, now).until, stored))
            <==> AtLeast(EarliestDeadline(info, t[key].failures, now), stored)
  {
    forall jitter: real | 0.85 <= jitter <= 1.15
      ensures EarliestDeadline(info, t[key].failures, now).None? <==> ErrorEntry(t, key, info, jitter, now).until.None?
      ensures AtLeast(EarliestDeadline(info, t[key].failures, now), stored)
              ==> AtLeast(ErrorEntry(t, key, info, jitter, now).until, stored)
    {
      JitterOrder(BaseSeconds(info), t[key].failures + 1, jitter);
    }
    EarliestIsDrawn(t, key, info, now);
  }

  lemma {:induction false} EarliestIsDrawn(t: Table, key: string, info: ErrorInfo, now: int)
    requires key in t
    ensures var earliest := EarliestDeadline(info, t[key].failures, now);
            || ErrorEntry(t, key, info, 0.85, now).until == earliest
            || ErrorEntry(t, key, info, 1.15, now).until == earliest
  {
  }

  // A reachable case: a timeout right after a weekly limit leaves a minute where a
  // week was left.
  lemma {:induction false} CooldownShrinksInARun(aliases: map<string, string>, p: string, now: int)
    requires !Denied(p) && !Phantom(aliases, p)
    ensures var weekly := Error(now, p, ErrorInfo("weekly_limit", 168.0, 0.0, false, false, false), "", 1.0);
            var slow := Error(now + SECOND, p, ErrorInfo("timeout", 0.0, 5.0, false, false, false), "", 1.0);
            var first, second := Run(aliases, [weekly]).providers, Run(aliases, [weekly, slow]).providers;
            && p in first && first[p].until == Some(now + 604800 * SECOND)
            && p in second && second[p].until == Some(now + 61 * SECOND)
  {
    var weekly := Error(now, p, ErrorInfo("weekly_limit", 168.0, 0.0, false, false, false), "", 1.0);
    var slow := Error(now + SECOND, p, ErrorInfo("timeout", 0.0, 5.0, false, false, false), "", 1.0);
    RunSnoc(aliases, [], weekly);
    RunSnoc(aliases, [weekly], slow);
    assert JitteredSeconds(604800.0, 1, 1.0) == 604800;
  }

  lemma {:induction false} RunSnoc(aliases: map<string, string>, events: seq<Event>, e: Event)
    ensures Run(aliases, events + [e]) == Step(aliases, Run(aliases, events), e)
  {
    assert Front(events + [e]) == events;
  }

  // ---- Probe tokens ------------------------------------------------------------------------------

  datatype Token = Token(status: Option<Status>, until: Option<int>, failures: nat, reason: Option<string>,
                         updatedAt: Option<int>, lastProbeAt: Option<int>)

  function TokenOf(t: Table, p: string): Token {
    if p in t then
      var e := t[p];
      Token(Some(e.status), e.until, e.failures, e.reason, e.updatedAt, e.lastProbeAt)
    else Token(None, None, 0, None, None, None)
  }

  predicate Later(a: Option<int>, b: Option<int>) {
    a.Some? && (b.None? || a.value > b.value)
  }

  // The provider's entry has moved on from e and can never look like e again.
  ghost predicate MovedOn(e: Entry, t: Table, p: string) {
    || p !in t
    || t[p].status == Healthy
    || Later(t[p].updatedAt, e.updatedAt)
    || (t[p].updatedAt == e.updatedAt && t[p].status == Disabled
        && (e.status == Cooling || (e.status == Disabled && Later(t[p].lastProbeAt, e.lastProbeAt))))
  }

  ghost predicate StampedBefore(e: Entry, now: int) {
    && (e.updatedAt.Some? ==> e.updatedAt.value < now)
    && (e.lastProbeAt.Some? ==> e.lastProbeAt.value < now)
  }

  lemma {:induction false} ChangeMovesOn(aliases: map<string, string>, s: Tables, ev: Event, p: string)
    requires p in s.providers && s.providers[p].status != Healthy
    requires CoherentEntry(s.providers[p]) && StampedBefore(s.providers[p], ev.at)
    ensures var t := Step(aliases, s, ev).providers;
            (p in t && t[p] == s.providers[p]) || MovedOn(s.providers[p], t, p)
  {
  }

  lemma {:induction false} MovedOnStays(aliases: map<string, string>, s: Tables, ev: Event, e: Entry, p: string)
    requires e.status != Healthy && CoherentEntry(e) && StampedBefore(e, ev.at) && MovedOn(e, s.providers, p)
    requires Coherent(s.providers)
    ensures MovedOn(e, Step(aliases, s, ev).providers, p)
  {
  }

  ghost predicate StrictClock(events: seq<Event>) {
    forall i, j :: 0 <= i < j < |events| ==> events[i].at < events[j].at
  }

  function At(aliases: map<string, string>, events: seq<Event>, k: nat): Table
    requires k <= |events|
  {
    Run(aliases, events[..k]).providers
  }

  lemma {:induction false} AtStep(aliases: map<string, string>, events: seq<Event>, k: nat)
    requires k < |events|
    ensures At(aliases, events, k + 1) == Step(aliases, Run(aliases, events[..k]), events[k]).providers
  {
    assert Front(events[..k + 1]) == events[..k];
  }

  lemma {:induction false} StampStep(aliases: map<string, string>, s: Tables, ev: Event, now: int, p: string)
    requires ev.at < now
    requires p in s.providers ==> StampedBefore(s.providers[p], now)
    ensures var t := Step(aliases, s, ev).providers; p in t ==> StampedBefore(t[p], now)
  {
  }

  // Every stamp in the registry is older than the next step.
  lemma {:induction false} StampsAreOld(aliases: map<string, string>, events: seq<Event>, k: nat, now: int, p: string)
    requires k <= |events| && (forall i :: 0 <= i < k ==> events[i].at < now)
    ensures p in At(aliases, events, k) ==> StampedBefore(At(aliases, events, k)[p], now)
  {
    if k == 0 {
    } else {
      StampsAreOld(aliases, events, k - 1, now, p);
      AtStep(aliases, events, k - 1);
      StampStep(aliases, Run(aliases, events[..k - 1]), events[k - 1], now, p);
    }
  }

  lemma {:induction false} MovedOnAt(aliases: map<string, string>, events: seq<Event>, k: nat, e: Entry, p: string)
    requires k < |events|
    requires e.status != Healthy && CoherentEntry(e) && StampedBefore(e, events[k].at)
    requires MovedOn(e, At(aliases, events, k), p)
    ensures MovedOn(e, At(aliases, events, k + 1), p)
  {
    AlwaysCoherent(aliases, events[..k]);
    AtStep(aliases, events, k);
    MovedOnStays(aliases, Run(aliases, events[..k]), events[k], e, p);
  }

  lemma {:induction false} ChangeAt(aliases: map<string, string>, events: seq<Event>, k: nat, e: Entry, p: string)
    requires k < |events|
    requires p in At(aliases, events, k) && At(aliases, events, k)[p] == e
    requires e.status != Healthy && CoherentEntry(e) && StampedBefore(e, events[k].at)
    ensures var t := At(aliases, events, k + 1); (p in t && t[p] == e) || MovedOn(e, t, p)
  {
    AtStep(aliases, events, k);
    ChangeMovesOn(aliases, Run(aliases, events[..k]), events[k], p);
  }

  ghost predicate Unchanged(aliases: map<string, string>, events: seq<Event>, i: nat, j: nat, p: string)
    requires i <= j <= |events| && p in At(aliases, events, i)
  {
    forall k :: i <= k <= j ==> Shows(At(aliases, events, k), p, At(aliases, events, i)[p])
  }

  ghost predicate Shows(t: Table, p: string, e: Entry) {
    p in t && t[p] == e
  }

  // From one table to the next the entry stays or moves on, and once moved on it stays so.
  ghost predicate Moves(e: Entry, before: Table, after: Table, p: string) {
    && (MovedOn(e, before, p) ==> MovedOn(e, after, p))
    && (Shows(before, p, e) ==> Shows(after, p, e) || MovedOn(e, after, p))
  }

  lemma {:induction false} StaysOrMovesOn(ts: seq<Table>, j: nat, p: string, e: Entry)
    requires j < |ts| && Shows(ts[0], p, e)
    requires forall k :: 0 <= k < j ==> Moves(e, ts[k], ts[k + 1], p)
    ensures (forall k :: 0 <= k <= j ==> Shows(ts[k], p, e)) || MovedOn(e, ts[j], p)
  {
    if j == 0 {
    } else {
      StaysOrMovesOn(ts, j - 1, p, e);
      assert Moves(e, ts[j - 1], ts[j - 1 + 1], p);
    }
  }

  lemma {:induction false} NextStep(aliases: map<string, string>, events: seq<Event>, i: nat, k: nat, p: string,
                                    e: Entry)
    requires StrictClock(events) && i <= k < |events|
    requires p in At(aliases, events, i) && At(aliases, events, i)[p] == e && e.status != Healthy && CoherentEntry(e)
    ensures Moves(e, At(aliases, events, k), At(aliases, events, k + 1), p)
  {
    StampsAreOld(aliases, events, i, events[k].at, p);
    if MovedOn(e, At(aliases, events, k), p) {
      MovedOnAt(aliases, events, k, e, p);
    } else if p in At(aliases, events, k) && At(aliases, events, k)[p] == e {
      ChangeAt(aliases, events, k, e, p);
    }
  }

  lemma {:induction false} UnchangedOrMovedOn(aliases: map<string, string>, events: seq<Event>, i: nat, j: nat,
                                              p: string, e: Entry)
    requires StrictClock(events) && i <= j <= |events|
    requires p in At(aliases, events, i) && At(aliases, events, i)[p] == e && e.status != Healthy && CoherentEntry(e)
    ensures Unchanged(aliases, events, i, j, p) || MovedOn(e, At(aliases, events, j), p)
  {
    var ts := History(aliases, events, i, j);
    HistoryMoves(aliases, events, i, j, p, e);
    StaysOrMovesOn(ts, j - i, p, e);
    if !MovedOn(e, ts[j - i], p) {
      HistoryShows(aliases, events, i, j, p, e);
    }
  }

  // The tables from step i to step j.
  function History(aliases: map<string, string>, events: seq<Event>, i: nat, j: nat): (ts: seq<Table>)
    requires i <= j <= |events|
    ensures |ts| == j - i + 1 && forall k :: 0 <= k <= j - i ==> ts[k] == At(aliases, events, i + k)
  {
    seq(j - i + 1, k requires 0 <= k <= j - i => At(aliases, events, i + k))
  }

  lemma {:induction false} HistoryMoves(aliases: map<string, string>, events: seq<Event>, i: nat, j: nat,
                                        p: string, e: Entry)
    requires StrictClock(events) && i <= j <= |events|
    requires p in At(aliases, events, i) && At(aliases, events, i)[p] == e && e.status != Healthy && CoherentEntry(e)
    ensures var ts := History(aliases, events, i, j);
            forall k :: 0 <= k < j - i ==> Moves(e, ts[k], ts[k + 1], p)
  {
    var ts := History(aliases, events, i, j);
    forall k | 0 <= k < j - i ensures Moves(e, ts[k], ts[k + 1], p) {
      NextTable(aliases, events, i, i + k, p, e, ts[k], ts[k + 1]);
    }
  }

  lemma {:induction false} NextTable(aliases: map<string, string>, events: seq<Event>, i: nat, k: nat, p: string,
                                     e: Entry, before: Table, after: Table)
    requires StrictClock(events) && i <= k < |events|
    requires p in At(aliases, events, i) && At(aliases, events, i)[p] == e && e.status != Healthy && CoherentEntry(e)
    requires before == At(aliases, events, k) && after == At(aliases, events, k + 1)
    ensures Moves(e, before, after, p)
  {
    NextStep(aliases, events, i, k, p, e);
  }

  lemma {:induction false} HistoryShows(aliases: map<string, string>, events: seq<Event>, i: nat, j: nat,
                                        p: string, e: Entry)
    requires i <= j <= |events| && Shows(At(aliases, events, i), p, e)
    requires forall k :: 0 <= k <= j - i ==> Shows(History(aliases, events, i, j)[k], p, e)
    ensures Unchanged(aliases, events, i, j, p)
  {
    forall k | i <= k <= j ensures Shows(At(aliases, events, k), p, e) {
      assert History(aliases, events, i, j)[k - i] == At(aliases, events, i + (k - i));
    }
  }

  // No ABA: a token taken on a cooling, probing or disabled provider equals a
  // later token exactly when no step in between changed that provider's entry.
  lemma {:induction false} TokensHaveNoABA(aliases: map<string, string>, events: seq<Event>, i: nat, j: nat, p: string)
    requires StrictClock(events) && i <= j <= |events|
    requires p in At(aliases, events, i) && At(aliases, events, i)[p].status != Healthy
    ensures TokenOf(At(aliases, events, i), p) == TokenOf(At(aliases, events, j), p)
            <==> Unchanged(aliases, events, i, j, p)
  {
    AlwaysCoherent(aliases, events[..i]);
    UnchangedOrMovedOn(aliases, events, i, j, p, At(aliases, events, i)[p]);
  }
}
