/** The diagnostics report of the setup checker: an eleven-entry record keyed by
    check id, turned from all-passing to its final state by a fixed sequence of
    steps, then rendered with a verdict. Every file-system result, command
    result, parse result and version comparison is an input. Line numbers in
    this module refer to `scripts/check.js`. */
module Check {
  import opened Wrappers
  import opened Strings
  import opened JsonValue

  // ---------------------------------------------------------------------
  // The report record
  // ---------------------------------------------------------------------

  /** The record's `type` field, which also names the log style of a failure. */
  datatype Severity = Error | Warning

  datatype CheckId =
    | CanRun | CanRunModule | CanText
    | CanAmazonPollyTts | CanGoogleCloudTts | CanWatsonTts
    | CanOfflineFlite | CanOfflineMimic
    | CanGoogleCloudStt | CanWatsonStt | CanOfflineStt

  /** The record's keys in insertion order, as `Object.keys(report)` yields them. */
  const Order: seq<CheckId> :=
    [CanRun, CanRunModule, CanText, CanAmazonPollyTts, CanGoogleCloudTts, CanWatsonTts,
     CanOfflineFlite, CanOfflineMimic, CanGoogleCloudStt, CanWatsonStt, CanOfflineStt]

  /** The property name of each entry in the JavaScript record. */
  function Key(id: CheckId): string
  {
    match id
    case CanRun => "can_run"
    case CanRunModule => "can_run_module"
    case CanText => "can_text"
    case CanAmazonPollyTts => "can_amazon_polly_tts"
    case CanGoogleCloudTts => "can_google_cloud_tts"
    case CanWatsonTts => "can_watson_tts"
    case CanOfflineFlite => "can_offline_flite"
    case CanOfflineMimic => "can_offline_mimic"
    case CanGoogleCloudStt => "can_google_cloud_stt"
    case CanWatsonStt => "can_watson_stt"
    case CanOfflineStt => "can_offline_stt"
  }

  /** The `title` of each entry, which no step changes. */
  function Title(id: CheckId): string
  {
    match id
    case CanRun => "Run"
    case CanRunModule => "Run modules"
    case CanText => "Reply you by texting"
    case CanAmazonPollyTts => "Amazon Polly text-to-speech"
    case CanGoogleCloudTts => "Google Cloud text-to-speech"
    case CanWatsonTts => "Watson text-to-speech"
    case CanOfflineFlite => "Flite text-to-speech"
    case CanOfflineMimic => "Mimic text-to-speech"
    case CanGoogleCloudStt => "Google Cloud speech-to-text"
    case CanWatsonStt => "Watson speech-to-text"
    case CanOfflineStt => "Offline speech-to-text"
  }

  /** The `type` of each entry, which no step changes: only `can_run`,
      `can_run_module` and `can_text` are errors. */
  function SeverityOf(id: CheckId): Severity
  {
    match id
    case CanRun | CanRunModule | CanText => Error
    case _ => Warning
  }

  lemma Listed(id: CheckId)
    ensures id in Order
  {
  }

  /** The record keeps exactly its eleven keys, each in one place, and keys
      are distinct property names. */
  lemma OrderListsEveryCheckOnce()
    ensures |Order| == 11
    ensures forall id :: id in Order
    ensures forall i, j :: 0 <= i < j < |Order| ==> Order[i] != Order[j]
    ensures forall a, b :: Key(a) == Key(b) ==> a == b
  {
    forall id ensures id in Order { Listed(id); }
  }

  /** The `v` flags of the record, by key: the only part any step changes. */
  type Flags = map<CheckId, bool>

  /** A report has a flag for every key. */
  predicate Complete(m: Flags)
  {
    forall id :: id in m
  }

  /** The record as it is built: every check present and passing. */
  function InitialFlags(): (m: Flags)
    ensures Complete(m) && forall id :: m[id]
  {
    var m := map id | id in Order :: true;
    assert Complete(m) by {
      forall id ensures id in m { Listed(id); }
    }
    m
  }

  /** `report[id].v = b`. */
  function SetFlag(m: Flags, id: CheckId, b: bool): (r: Flags)
    requires Complete(m)
    ensures Complete(r)
    ensures forall other :: r[other] == if other == id then b else m[other]
  {
    m[id := b]
  }

  // ---------------------------------------------------------------------
  // The .env validation chain
  // ---------------------------------------------------------------------

  /** A value read from `process.env`: always a string, or undefined. */
  datatype EnvValue = Unset | Str(s: string)

  /** The JavaScript `typeof` tags the chain compares against. */
  datatype JsType = TypeUndefined | TypeString | TypeNumber | TypeBoolean

  function TypeOf(v: EnvValue): JsType
  {
    match v
    case Unset => TypeUndefined
    case Str(_) => TypeString
  }

  /** JavaScript truthiness of a string or undefined. */
  predicate Truthy(v: EnvValue)
  {
    v.Str? && v.s != ""
  }

  /** `values.indexOf(v) !== -1`. */
  predicate ListedIn(v: EnvValue, values: seq<string>)
  {
    v.Str? && v.s in values
  }

  const EnvLangValues: seq<string> := ["en-US", "fr-FR"]
  const EnvEnvValues: seq<string> := ["development", "testing", "production"]
  const EnvSttProviderValues: seq<string> := ["deepspeech", "google-cloud-stt", "watson-stt"]
  const EnvTtsProviderValues: seq<string> := ["flite", "mimic", "amazon-polly", "google-cloud-tts", "watson-tts"]

  /** `process.env[name]`. */
  function EnvVar(vars: map<string, string>, name: string): EnvValue
  {
    if name in vars then Str(vars[name]) else Unset
  }

  /** The `env` object the chain inspects, under its own property names. */
  function EnvObject(vars: map<string, string>): map<string, EnvValue>
  {
    map[
      "lang" := EnvVar(vars, "LEON_LANG"),
      "node_env" := EnvVar(vars, "LEON_NODE_ENV"),
      "host" := EnvVar(vars, "LEON_HOST"),
      "port" := EnvVar(vars, "LEON_PORT"),
      "after_speech" := EnvVar(vars, "LEON_AFTER_SPEECH"),
      "stt" := EnvVar(vars, "LEON_STT"),
      "stt_prov" := EnvVar(vars, "LEON_STT_PROVIDER"),
      "tts" := EnvVar(vars, "LEON_TTS"),
      "tts_prov" := EnvVar(vars, "LEON_TTS_PROVIDER"),
      "logger" := EnvVar(vars, "LEON_LOGGER")
    ]
  }

  /** `env.name`: a property the object lacks reads as undefined. */
  function Prop(env: map<string, EnvValue>, name: string): EnvValue
  {
    if name in env then env[name] else Unset
  }

  /** Which branch of the chain is taken. */
  datatype EnvVerdict =
    | EnvMissing | BadLang | BadNodeEnv | BadPort | BadAfterSpeech | BadStt
    | BadSttProvider | BadTts | BadTtsProvider | BadLogger | EnvValid

  /** The priority-ordered chain, property names exactly as the code reads
      them. */
  function EnvCheck(envFound: bool, vars: map<string, string>): (r: EnvVerdict)
    ensures r == EnvMissing <==> !envFound
  {
    if !envFound then EnvMissing
    else
      var env := EnvObject(vars);
      if Truthy(Prop(env, "lang")) && !ListedIn(Prop(env, "lang"), EnvLangValues) then BadLang
      else if Truthy(Prop(env, "node_env")) && !ListedIn(Prop(env, "node_env"), EnvEnvValues) then BadNodeEnv
      else if TypeOf(Prop(env, "port")) == TypeNumber then BadPort
      else if TypeOf(Prop(env, "after_speech")) == TypeBoolean then BadAfterSpeech
      else if TypeOf(Prop(env, "stt")) == TypeBoolean then BadStt
      else if Truthy(Prop(env, "stt_provider")) && !ListedIn(Prop(env, "stt_provider"), EnvSttProviderValues) then BadSttProvider
      else if TypeOf(Prop(env, "tts")) == TypeBoolean then BadTts
      else if Truthy(Prop(env, "tts_provide")) && !ListedIn(Prop(env, "tts_provider"), EnvTtsProviderValues) then BadTtsProvider
      else if TypeOf(Prop(env, "logger")) == TypeBoolean then BadLogger
      else EnvValid
  }

  /** A variable is set to a non-empty value outside its allowed list. */
  predicate Rejected(vars: map<string, string>, name: string, allowed: seq<string>)
  {
    name in vars && vars[name] != "" && vars[name] !in allowed
  }

  /** Only three branches of the chain can fire: the port, boolean and
      provider branches test `typeof` of strings, or properties the object
      does not have. */
  lemma EnvOnlyLangAndNodeEnvCanFail(envFound: bool, vars: map<string, string>)
    ensures EnvCheck(envFound, vars) in {EnvMissing, BadLang, BadNodeEnv, EnvValid}
  {
    var env := EnvObject(vars);
    assert Prop(env, "stt_provider") == Unset;
    assert Prop(env, "tts_provide") == Unset;
  }

  /** The chain in terms of the variables themselves, in priority order. */
  lemma EnvCheckByVariables(envFound: bool, vars: map<string, string>)
    ensures !envFound ==> EnvCheck(envFound, vars) == EnvMissing
    ensures envFound && Rejected(vars, "LEON_LANG", EnvLangValues)
      ==> EnvCheck(envFound, vars) == BadLang
    ensures envFound && !Rejected(vars, "LEON_LANG", EnvLangValues)
        && Rejected(vars, "LEON_NODE_ENV", EnvEnvValues)
      ==> EnvCheck(envFound, vars) == BadNodeEnv
    ensures EnvCheck(envFound, vars) == EnvValid <==>
      envFound && !Rejected(vars, "LEON_LANG", EnvLangValues)
      && !Rejected(vars, "LEON_NODE_ENV", EnvEnvValues)
  {
    EnvOnlyLangAndNodeEnvCanFail(envFound, vars);
    var env := EnvObject(vars);
    assert Prop(env, "lang") == EnvVar(vars, "LEON_LANG");
    assert Prop(env, "node_env") == EnvVar(vars, "LEON_NODE_ENV");
  }

  /** Lines 56-106: `can_run` ends up true exactly on the success branch. */
  function EnvStep(m: Flags, envFound: bool, vars: map<string, string>): (r: Flags)
    requires Complete(m)
    ensures Complete(r)
    ensures forall id :: r[id] == if id == CanRun then EnvCheck(envFound, vars) == EnvValid else m[id]
  {
    SetFlag(m, CanRun, EnvCheck(envFound, vars) == EnvValid)
  }

  // ---------------------------------------------------------------------
  // Cascades over the whole record
  // ---------------------------------------------------------------------

  /** `Object.keys(report).forEach` clearing every error-typed entry. */
  function FailErrors(m: Flags): (r: Flags)
    requires Complete(m)
    ensures Complete(r)
    ensures forall id :: r[id] == (m[id] && SeverityOf(id) == Warning)
  {
    map id | id in m :: if SeverityOf(id) == Error then false else m[id]
  }

  /** Clearing the error entries a second time changes nothing. */
  lemma FailErrorsIdempotent(m: Flags)
    requires Complete(m)
    ensures FailErrors(FailErrors(m)) == FailErrors(m)
  {
  }

  /** The key test of line 162. */
  predicate NamesSpeech(key: string)
  {
    IndexOf(key, "stt") != -1 || IndexOf(key, "tts") != -1
  }

  /** The speech entries: the record keys containing `stt` or `tts`. */
  const SpeechChecks: set<CheckId> :=
    {CanAmazonPollyTts, CanGoogleCloudTts, CanWatsonTts, CanGoogleCloudStt, CanWatsonStt, CanOfflineStt}

  /** Which keys contain `stt` or `tts`: the three speech-to-text and the
      three cloud text-to-speech checks, and not the offline Flite and Mimic
      text-to-speech checks. */
  lemma SpeechKeys(id: CheckId)
    ensures NamesSpeech(Key(id)) <==> id in SpeechChecks
  {
    match id
    case CanRun => MissingCharacter(Key(id), "stt", 0); MissingCharacter(Key(id), "tts", 2);
    case CanRunModule => MissingCharacter(Key(id), "stt", 0); MissingCharacter(Key(id), "tts", 2);
    case CanText => MissingCharacter(Key(id), "stt", 0); MissingCharacter(Key(id), "tts", 2);
    case CanOfflineFlite => MissingCharacter(Key(id), "stt", 0); MissingCharacter(Key(id), "tts", 2);
    case CanOfflineMimic => MissingCharacter(Key(id), "stt", 0); MissingCharacter(Key(id), "tts", 2);
    case CanAmazonPollyTts => OccursAt3(Key(id), "tts", 17);
    case CanGoogleCloudTts => OccursAt3(Key(id), "tts", 17);
    case CanWatsonTts => OccursAt3(Key(id), "tts", 11);
    case CanGoogleCloudStt => OccursAt3(Key(id), "stt", 17);
    case CanWatsonStt => OccursAt3(Key(id), "stt", 11);
    case CanOfflineStt => OccursAt3(Key(id), "stt", 12);
  }

  /** Lines 161-162: `can_text` and every speech entry fail; nothing else
      changes. The loop that selects the speech entries by their keys is
      `Report.FailSpeechEntries`. */
  function FailSpeech(m: Flags): (r: Flags)
    requires Complete(m)
    ensures Complete(r)
    ensures forall id :: r[id] == (m[id] && id != CanText && id !in SpeechChecks)
  {
    map id | id in m :: if id == CanText || id in SpeechChecks then false else m[id]
  }

  // ---------------------------------------------------------------------
  // Tool versions
  // ---------------------------------------------------------------------

  /** Whether a `forEach` that may fire on each element fires at least once,
      accumulated element by element from the front. */
  predicate SomeSatisfies<T>(xs: seq<T>, p: T -> bool)
  {
    |xs| > 0 && (SomeSatisfies(xs[..|xs| - 1], p) || p(xs[|xs| - 1]))
  }

  /** It fires exactly when some element passes the test. */
  lemma {:induction false} SomeSatisfiesIff<T>(xs: seq<T>, p: T -> bool)
    ensures SomeSatisfies(xs, p) <==> exists i :: 0 <= i < |xs| && p(xs[i])
  {
    if |xs| > 0 {
      var init := xs[..|xs| - 1];
      SomeSatisfiesIff(init, p);
      if exists i :: 0 <= i < |init| && p(init[i]) {
        var i :| 0 <= i < |init| && p(init[i]);
        assert xs[i] == init[i];
      }
      if exists i :: 0 <= i < |xs| && p(xs[i]) {
        var i :| 0 <= i < |xs| && p(xs[i]);
        if i < |init| {
          assert xs[i] == init[i];
        }
      }
    }
  }

  /** One more element visited. */
  lemma SomeSatisfiesPrefix<T>(xs: seq<T>, i: nat, p: T -> bool)
    requires i < |xs|
    ensures SomeSatisfies(xs[..i + 1], p) <==> SomeSatisfies(xs[..i], p) || p(xs[i])
  {
    assert xs[..i + 1][..i] == xs[..i];
  }

  lemma SomeSatisfiesOfThree<T>(a: T, b: T, c: T, p: T -> bool)
    ensures SomeSatisfies([a, b, c], p) <==> p(a) || p(b) || p(c)
  {
    assert [a, b, c][..2] == [a, b];
    assert [a, b][..1] == [a];
    assert [a][..0] == [];
    assert SomeSatisfies([a], p) <==> p(a);
    assert SomeSatisfies([a, b], p) <==> p(a) || p(b);
  }

  lemma SomeSatisfiesOfTwo<T>(a: T, b: T, p: T -> bool)
    ensures SomeSatisfies([a, b], p) <==> p(a) || p(b)
  {
    assert [a, b][..1] == [a];
    assert [a][..0] == [];
    assert SomeSatisfies([a], p) <==> p(a);
  }

  /** The semver library, which is not part of this model: `clean` (None for
      `null`) and `satisfies` (given None for a missing version). */
  datatype Semver = Semver(clean: string -> Option<string>, satisfies: (Option<string>, string) -> bool)

  /** What a resolved `command(...)` promise carries. */
  datatype CommandOutput = CommandOutput(command: string, stdout: string)

  const NodeMinRequiredVersion: string := "10"
  const NpmMinRequiredVersion: string := "5"
  const PythonMinRequiredVersion: string := "3"

  /** The semver range `>=min`. */
  function AtLeast(min: string): string
  {
    ">=" + min
  }

  /** The first branch of lines 117-118. */
  predicate NodeTooOld(p: CommandOutput, semver: Semver)
  {
    IndexOf(p.command, "node --version") != -1
    && !semver.satisfies(semver.clean(p.stdout), AtLeast(NodeMinRequiredVersion))
  }

  /** The second branch of lines 121-122. */
  predicate NpmTooOld(p: CommandOutput, semver: Semver)
  {
    IndexOf(p.command, "npm --version") != -1
    && !semver.satisfies(semver.clean(p.stdout), AtLeast(NpmMinRequiredVersion))
  }

  /** One result of the first batch triggers the error cascade. */
  predicate ToolTooOld(p: CommandOutput, semver: Semver)
  {
    NodeTooOld(p, semver) || NpmTooOld(p, semver)
  }

  /** The test a result of the first batch is put to. */
  function ToolTest(semver: Semver): CommandOutput -> bool
  {
    (p: CommandOutput) => ToolTooOld(p, semver)
  }

  /** The `forEach` over the first batch triggers the cascade at least once. */
  predicate AnyToolTooOld(results: seq<CommandOutput>, semver: Semver)
  {
    SomeSatisfies(results, ToolTest(semver))
  }

  /** `stdout.split(' ')[1]`: undefined exactly when there is no space, and
      otherwise a token without a space. */
  function PythonVersionArg(stdout: string): (r: Option<string>)
    ensures r.Some? <==> ' ' in stdout
    ensures r.Some? ==> ' ' !in r.value
  {
    var parts := Split(stdout, ' ');
    SeveralPartsIff(parts, ' ');
    if |parts| > 1 then Some(parts[1]) else None
  }

  /** The version compared is the second space-separated token, whatever
      follows it after a space; there is none without a space. */
  lemma PythonVersionIsSecondToken(name: string, version: string, rest: string)
    requires ' ' !in name && ' ' !in version
    ensures PythonVersionArg(name + " " + version) == Some(version)
    ensures PythonVersionArg(name + " " + version + " " + rest) == Some(version)
    ensures PythonVersionArg(name) == None
  {
    SplitAtSeparator(name, version, ' ');
    assert Split(version, ' ') == [version] by { SplitPrefix(version, "", ' '); assert version + "" == version; }
    assert name + " " + version == name + [' '] + version;
    var tail := " " + rest;
    assert name + " " + version + " " + rest == name + [' '] + (version + tail);
    SplitAtSeparator(name, version + tail, ' ');
    SplitPrefix(version, tail, ' ');
    assert tail == [' '] + rest;
    assert Split(tail, ' ')[0] == "";
    assert version + "" == version;
    SplitPrefix(name, "", ' ');
    assert name + "" == name;
  }

  /** Line 137. */
  predicate PythonTooOld(p: CommandOutput, semver: Semver)
  {
    IndexOf(p.command, "pipenv run python --version") != -1
    && !semver.satisfies(PythonVersionArg(p.stdout), AtLeast(PythonMinRequiredVersion))
  }

  /** The test a result of the second batch is put to. */
  function PythonTest(semver: Semver): CommandOutput -> bool
  {
    (p: CommandOutput) => PythonTooOld(p, semver)
  }

  /** The `forEach` over the second batch triggers the cascade at least once. */
  predicate AnyPythonTooOld(results: seq<CommandOutput>, semver: Semver)
  {
    SomeSatisfies(results, PythonTest(semver))
  }

  /** The node result is compared against `>=10`. */
  lemma NodeCommandTested(stdout: string, semver: Semver)
    ensures ToolTooOld(CommandOutput("node --version", stdout), semver)
      <==> !semver.satisfies(semver.clean(stdout), ">=10")
  {
    OccursInItself("node --version");
    assert AtLeast(NodeMinRequiredVersion) == ">=10";
    MissingCharacter("node --version", "npm --version", 2);
  }

  /** The npm result is compared against `>=5`. */
  lemma NpmCommandTested(stdout: string, semver: Semver)
    ensures ToolTooOld(CommandOutput("npm --version", stdout), semver)
      <==> !semver.satisfies(semver.clean(stdout), ">=5")
  {
    OccursInItself("npm --version");
    assert AtLeast(NpmMinRequiredVersion) == ">=5";
    MissingCharacter("npm --version", "node --version", 2);
  }

  /** The python result is compared against `>=3`. */
  lemma PythonCommandTested(stdout: string, semver: Semver)
    ensures PythonTooOld(CommandOutput("pipenv run python --version", stdout), semver)
      <==> !semver.satisfies(PythonVersionArg(stdout), ">=3")
  {
    OccursInItself("pipenv run python --version");
    assert AtLeast(PythonMinRequiredVersion) == ">=3";
  }

  /** The output of `pipenv --version` is never compared, whatever it prints. */
  lemma PipenvVersionNeverTested(stdout: string, semver: Semver)
    ensures !ToolTooOld(CommandOutput("pipenv --version", stdout), semver)
  {
    MissingCharacter("pipenv --version", "node --version", 2);
    assert "npm --version"[2] == 'm' && 'm' !in "pipenv --version";
    MissingCharacter("pipenv --version", "npm --version", 2);
  }

  /** The output of `pipenv --where` is never compared, whatever it prints. */
  lemma PipenvWhereNeverTested(stdout: string, semver: Semver)
    ensures !PythonTooOld(CommandOutput("pipenv --where", stdout), semver)
  {
    assert "pipenv run python --version"[12] == 'y' && 'y' !in "pipenv --where";
    MissingCharacter("pipenv --where", "pipenv run python --version", 12);
  }

  /** A failed version check clears the error entries, once or many times. */
  function CascadeIf(m: Flags, failed: bool): (r: Flags)
    requires Complete(m)
    ensures Complete(r)
    ensures forall id :: r[id] == (m[id] && (failed ==> SeverityOf(id) == Warning))
  {
    if failed then FailErrors(m) else m
  }

  // ---------------------------------------------------------------------
  // Module, NLP model, credentials and binaries
  // ---------------------------------------------------------------------

  /** Lines 147-155: a rejected smoke-test command clears `can_run_module`. */
  function ModuleStep(m: Flags, exitedOk: bool): (r: Flags)
    requires Complete(m)
    ensures Complete(r)
    ensures forall id :: r[id] == (m[id] && (id == CanRunModule ==> exitedOk))
  {
    if exitedOk then m else SetFlag(m, CanRunModule, false)
  }

  /** The NLP model file: absent, present but unreadable, or read with its
      size in bytes (`Object.keys` of a Buffer counts its bytes). */
  datatype ModelFile = ModelMissing | ModelUnreadable | ModelRead(size: nat)

  predicate ModelBroken(f: ModelFile)
  {
    f.ModelMissing? || (f.ModelRead? && f.size == 0)
  }

  /** Lines 160-166. An unreadable model throws past this step and is handled
      by the caller. */
  function NlpStep(m: Flags, f: ModelFile): (r: Flags)
    requires Complete(m) && !f.ModelUnreadable?
    ensures Complete(r)
    ensures forall id :: r[id] == (m[id] && (ModelBroken(f) ==> id != CanText && id !in SpeechChecks))
  {
    if ModelBroken(f) then FailSpeech(m) else m
  }

  /** Lines 171-182: the file fails to parse, is `null` (reading a property
      throws), or has an empty access key or secret. */
  predicate AmazonUnconfigured(f: ParseResult)
  {
    match f
    case NotParsed => true
    case Parsed(j) =>
      var keyId := Property(j, "accessKeyId");
      keyId.TypeError? || keyId == Value(JString(""))
      || Property(j, "secretAccessKey") == Value(JString(""))
  }

  /** Amazon is unconfigured only on a parse error, `null`, or an empty
      `accessKeyId` or `secretAccessKey`. Other empty fields do not matter. */
  lemma AmazonUnconfiguredIff(f: ParseResult)
    requires f.Parsed? ==> DistinctKeys(f.value)
    ensures AmazonUnconfigured(f) <==>
      f.NotParsed? || f.value.JNull?
      || (f.value.JObject? &&
            exists k :: 0 <= k < |f.value.members| &&
              f.value.members[k].key in {"accessKeyId", "secretAccessKey"} &&
              IsEmptyString(f.value.members[k].value))
  {
    if f.Parsed? && f.value.JObject? {
      var ms := f.value.members;
      if exists k :: 0 <= k < |ms| && ms[k].key in {"accessKeyId", "secretAccessKey"} && IsEmptyString(ms[k].value) {
        var k :| 0 <= k < |ms| && ms[k].key in {"accessKeyId", "secretAccessKey"} && IsEmptyString(ms[k].value);
        LookupFindsMember(ms, k);
      }
    }
  }

  /** In an object with distinct keys, a lookup finds the member of that key. */
  lemma LookupFindsMember(members: seq<Member>, k: nat)
    requires k < |members|
    requires forall a, b :: 0 <= a < b < |members| ==> members[a].key != members[b].key
    ensures Lookup(members, members[k].key) == Some(members[k].value)
  {
    if k > 0 {
      LookupFindsMember(members[1..], k - 1);
    }
  }

  /** Lines 184-200, 202-216 and 234-248: the file fails to parse, is `null`,
      or has a top-level value that is exactly `''`. */
  predicate CredentialsIncomplete(f: ParseResult)
  {
    match f
    case NotParsed => true
    case Parsed(j) =>
      match OwnValues(j)
      case None => true
      case Some(values) => exists i :: 0 <= i < |values| && IsEmptyString(values[i])
  }

  /** An object is complete exactly when no member's value is `''`; strings,
      numbers and booleans are always complete, `null` never. */
  lemma CredentialsIncompleteIff(j: Json)
    ensures j.JObject? ==> (CredentialsIncomplete(Parsed(j))
      <==> exists k :: 0 <= k < |j.members| && IsEmptyString(j.members[k].value))
    ensures j.JArray? ==> (CredentialsIncomplete(Parsed(j))
      <==> exists k :: 0 <= k < |j.items| && IsEmptyString(j.items[k]))
    ensures (j.JString? || j.JNumber? || j.JBool?) ==> !CredentialsIncomplete(Parsed(j))
    ensures j.JNull? ==> CredentialsIncomplete(Parsed(j))
  {
    if j.JObject? {
      var values := OwnValues(j).value;
      if exists k :: 0 <= k < |j.members| && IsEmptyString(j.members[k].value) {
        var k :| 0 <= k < |j.members| && IsEmptyString(j.members[k].value);
        assert IsEmptyString(values[k]);
      }
    }
    if j.JString? {
      var values := OwnValues(j).value;
      forall i | 0 <= i < |values| ensures !IsEmptyString(values[i]) {
        assert |values[i].s| == 1;
      }
    }
  }

  /** The sample credential files: an empty access key fails both checks,
      two filled-in fields pass. */
  lemma CredentialExamples()
    ensures var amazon := Parsed(JObject([Member("accessKeyId", JString("")), Member("secretAccessKey", JString("x"))]));
      AmazonUnconfigured(amazon) && CredentialsIncomplete(amazon)
    ensures var filled := Parsed(JObject([Member("a", JString("1")), Member("b", JString("2"))]));
      !AmazonUnconfigured(filled) && !CredentialsIncomplete(filled)
  {
    var amazon := JObject([Member("accessKeyId", JString("")), Member("secretAccessKey", JString("x"))]);
    assert OwnValues(amazon).value[0] == JString("");
    var filled := JObject([Member("a", JString("1")), Member("b", JString("2"))]);
    CredentialsIncompleteIff(filled);
  }

  function AmazonStep(m: Flags, f: ParseResult): (r: Flags)
    requires Complete(m)
    ensures Complete(r)
    ensures forall id :: r[id] == (m[id] && (id == CanAmazonPollyTts ==> !AmazonUnconfigured(f)))
  {
    if AmazonUnconfigured(f) then SetFlag(m, CanAmazonPollyTts, false) else m
  }

  /** One Google Cloud file backs two entries: both fail together. */
  function GoogleCloudStep(m: Flags, f: ParseResult): (r: Flags)
    requires Complete(m)
    ensures Complete(r)
    ensures forall id :: r[id] == (m[id] && (id == CanGoogleCloudTts || id == CanGoogleCloudStt ==> !CredentialsIncomplete(f)))
  {
    if CredentialsIncomplete(f) then SetFlag(SetFlag(m, CanGoogleCloudTts, false), CanGoogleCloudStt, false)
    else m
  }

  /** A Watson file backs the one entry `id`. */
  function WatsonStep(m: Flags, id: CheckId, f: ParseResult): (r: Flags)
    requires Complete(m)
    ensures Complete(r)
    ensures forall other :: r[other] == (m[other] && (other == id ==> !CredentialsIncomplete(f)))
  {
    if CredentialsIncomplete(f) then SetFlag(m, id, false) else m
  }

  /** Lines 218-232 and 250-256: a missing file clears the entry `id`. */
  function PresenceStep(m: Flags, id: CheckId, found: bool): (r: Flags)
    requires Complete(m)
    ensures Complete(r)
    ensures forall other :: r[other] == (m[other] && (other == id ==> found))
  {
    if found then m else SetFlag(m, id, false)
  }

  // ---------------------------------------------------------------------
  // Rendering and verdict
  // ---------------------------------------------------------------------

  /** The log function a report line is printed with. */
  datatype Style = SuccessStyle | ErrorStyle | WarningStyle

  datatype Line = Line(title: string, style: Style)

  /** A passing entry prints as a success, a failing one in its own type. */
  function RenderLine(id: CheckId, v: bool): (l: Line)
    ensures l.title == Title(id)
    ensures l.style == SuccessStyle <==> v
    ensures l.style == ErrorStyle <==> !v && SeverityOf(id) == Error
  {
    Line(Title(id), if v then SuccessStyle else if SeverityOf(id) == Error then ErrorStyle else WarningStyle)
  }

  /** Lines 262-268: one line per entry, in insertion order. */
  function Rendered(m: Flags): seq<Line>
    requires Complete(m)
  {
    seq(|Order|, i requires 0 <= i < |Order| => RenderLine(Order[i], m[Order[i]]))
  }

  datatype Verdict = CanRunCorrectly | FixErrors

  /** Lines 271-276: success exactly when every error-typed entry passes. */
  function VerdictOf(m: Flags): (r: Verdict)
    requires Complete(m)
    ensures r == CanRunCorrectly <==> forall id :: SeverityOf(id) == Error ==> m[id]
  {
    if m[CanRun] && m[CanRunModule] && m[CanText] then CanRunCorrectly else FixErrors
  }

  // ---------------------------------------------------------------------
  // The whole run
  // ---------------------------------------------------------------------

  /** A shell command: whether it exited with status 0, and what it printed.
      `command` rejects on any other status. */
  datatype Exec = Exec(exitedOk: bool, stdout: string)

  /** Everything the run observes of the outside world. */
  datatype Inputs = Inputs(
    envFound: bool, vars: map<string, string>,
    node: Exec, npm: Exec, pipenv: Exec,
    pipenvWhere: Exec, python: Exec,
    moduleRun: Exec,
    nlpModel: ModelFile,
    amazon: ParseResult, googleCloud: ParseResult, watsonTts: ParseResult,
    flite: bool, mimic: bool,
    watsonStt: ParseResult, deepSpeech: bool,
    semver: Semver)

  /** `reject()` after an uncaught exception, or the printed report. */
  datatype Outcome = Aborted | Finished(lines: seq<Line>, verdict: Verdict)

  /** The first `Promise.all` batch, in array order. */
  function ToolOutputs(inp: Inputs): seq<CommandOutput>
  {
    [CommandOutput("node --version", inp.node.stdout),
     CommandOutput("npm --version", inp.npm.stdout),
     CommandOutput("pipenv --version", inp.pipenv.stdout)]
  }

  /** The second `Promise.all` batch, in array order. */
  function PipenvOutputs(inp: Inputs): seq<CommandOutput>
  {
    [CommandOutput("pipenv --where", inp.pipenvWhere.stdout),
     CommandOutput("pipenv run python --version", inp.python.stdout)]
  }

  /** Lines 56-155 of a run that is not interrupted: the .env check, the two
      version batches (given whether each fired the error cascade) and the
      module smoke test. */
  function EarlySteps(inp: Inputs, toolsFailed: bool, pythonFailed: bool): (r: Flags)
    ensures Complete(r)
  {
    var m1 := EnvStep(InitialFlags(), inp.envFound, inp.vars);
    var m2 := CascadeIf(m1, toolsFailed);
    var m3 := CascadeIf(m2, pythonFailed);
    ModuleStep(m3, inp.moduleRun.exitedOk)
  }

  /** What lines 160-216 demand of entry `id`, one conjunct per step. */
  predicate CloudPass(inp: Inputs, id: CheckId)
  {
    && (ModelBroken(inp.nlpModel) ==> id != CanText && id !in SpeechChecks)
    && (id == CanAmazonPollyTts ==> !AmazonUnconfigured(inp.amazon))
    && (id == CanGoogleCloudTts || id == CanGoogleCloudStt ==> !CredentialsIncomplete(inp.googleCloud))
    && (id == CanWatsonTts ==> !CredentialsIncomplete(inp.watsonTts))
  }

  /** Lines 160-216: the NLP model, then the Amazon, Google Cloud and Watson
      text-to-speech credential files. */
  function CloudSteps(m: Flags, inp: Inputs): (r: Flags)
    requires Complete(m) && !inp.nlpModel.ModelUnreadable?
    ensures Complete(r)
    ensures forall id :: r[id] == (m[id] && CloudPass(inp, id))
  {
    var m5 := NlpStep(m, inp.nlpModel);
    var m6 := AmazonStep(m5, inp.amazon);
    var m7 := GoogleCloudStep(m6, inp.googleCloud);
    WatsonStep(m7, CanWatsonTts, inp.watsonTts)
  }

  /** What lines 218-256 demand of entry `id`, one conjunct per step. */
  predicate LocalPass(inp: Inputs, id: CheckId)
  {
    && (id == CanOfflineFlite ==> inp.flite)
    && (id == CanOfflineMimic ==> inp.mimic)
    && (id == CanWatsonStt ==> !CredentialsIncomplete(inp.watsonStt))
    && (id == CanOfflineStt ==> inp.deepSpeech)
  }

  /** Lines 218-256: the Flite and Mimic binaries, the Watson speech-to-text
      credential file and the DeepSpeech model. */
  function LocalSteps(m: Flags, inp: Inputs): (r: Flags)
    requires Complete(m)
    ensures Complete(r)
    ensures forall id :: r[id] == (m[id] && LocalPass(inp, id))
  {
    var m9 := PresenceStep(m, CanOfflineFlite, inp.flite);
    var m10 := PresenceStep(m9, CanOfflineMimic, inp.mimic);
    var m11 := WatsonStep(m10, CanWatsonStt, inp.watsonStt);
    PresenceStep(m11, CanOfflineStt, inp.deepSpeech)
  }

  /** Lines 160-256: the NLP model, the credential files and the binaries. */
  function FileSteps(m: Flags, inp: Inputs): (r: Flags)
    requires Complete(m) && !inp.nlpModel.ModelUnreadable?
    ensures Complete(r)
  {
    LocalSteps(CloudSteps(m, inp), inp)
  }

  /** The report of a completed run, or None when an exception escapes: a
      rejected command in either batch, or an NLP model that exists and cannot
      be read. Nothing is printed in those cases, so the steps run before the
      exception leave no trace. */
  function FinalFlags(inp: Inputs): (r: Option<Flags>)
    ensures r.Some? ==> Complete(r.value)
  {
    if !(inp.node.exitedOk && inp.npm.exitedOk && inp.pipenv.exitedOk) then None
    else if !(inp.pipenvWhere.exitedOk && inp.python.exitedOk) then None
    else if inp.nlpModel.ModelUnreadable? then None
    else
      var early := EarlySteps(inp, AnyToolTooOld(ToolOutputs(inp), inp.semver),
                              AnyPythonTooOld(PipenvOutputs(inp), inp.semver));
      Some(FileSteps(early, inp))
  }

  /** What the run prints, or that it rejects: one line per entry. */
  function Diagnose(inp: Inputs): (r: Outcome)
    ensures r.Finished? ==> |r.lines| == |Order|
  {
    match FinalFlags(inp)
    case None => Aborted
    case Some(m) => Finished(Rendered(m), VerdictOf(m))
  }

  /** The three version comparisons the run makes. */
  predicate VersionsOk(inp: Inputs)
  {
    inp.semver.satisfies(inp.semver.clean(inp.node.stdout), ">=10")
    && inp.semver.satisfies(inp.semver.clean(inp.npm.stdout), ">=5")
    && inp.semver.satisfies(PythonVersionArg(inp.python.stdout), ">=3")
  }

  /** Which version checks fail in the two batches. */
  lemma VersionChecksOfRun(inp: Inputs)
    ensures AnyToolTooOld(ToolOutputs(inp), inp.semver) <==>
      !inp.semver.satisfies(inp.semver.clean(inp.node.stdout), ">=10")
      || !inp.semver.satisfies(inp.semver.clean(inp.npm.stdout), ">=5")
    ensures AnyPythonTooOld(PipenvOutputs(inp), inp.semver) <==>
      !inp.semver.satisfies(PythonVersionArg(inp.python.stdout), ">=3")
  {
    NodeCommandTested(inp.node.stdout, inp.semver);
    NpmCommandTested(inp.npm.stdout, inp.semver);
    PipenvVersionNeverTested(inp.pipenv.stdout, inp.semver);
    PipenvWhereNeverTested(inp.pipenvWhere.stdout, inp.semver);
    PythonCommandTested(inp.python.stdout, inp.semver);
    SomeSatisfiesOfThree(CommandOutput("node --version", inp.node.stdout),
      CommandOutput("npm --version", inp.npm.stdout),
      CommandOutput("pipenv --version", inp.pipenv.stdout), ToolTest(inp.semver));
    SomeSatisfiesOfTwo(CommandOutput("pipenv --where", inp.pipenvWhere.stdout),
      CommandOutput("pipenv run python --version", inp.python.stdout), PythonTest(inp.semver));
  }

  /** The run rejects exactly when a version command exits non-zero or the
      NLP model exists but cannot be read. */
  lemma AbortsIff(inp: Inputs)
    ensures Diagnose(inp).Aborted? <==>
      !(inp.node.exitedOk && inp.npm.exitedOk && inp.pipenv.exitedOk
        && inp.pipenvWhere.exitedOk && inp.python.exitedOk)
      || inp.nlpModel.ModelUnreadable?
  {
  }

  /** What lines 56-155 demand of entry `id`: a fired cascade fails every
      error entry; `can_run` also needs the .env check, `can_run_module` the
      smoke test. */
  predicate EarlyPasses(inp: Inputs, toolsFailed: bool, pythonFailed: bool, id: CheckId)
  {
    var versions := !toolsFailed && !pythonFailed;
    match id
    case CanRun => EnvCheck(inp.envFound, inp.vars) == EnvValid && versions
    case CanRunModule => versions && inp.moduleRun.exitedOk
    case CanText => versions
    case _ => true
  }

  lemma EarlyStepsFlags(inp: Inputs, toolsFailed: bool, pythonFailed: bool)
    ensures var m := EarlySteps(inp, toolsFailed, pythonFailed);
      forall id :: m[id] == EarlyPasses(inp, toolsFailed, pythonFailed, id)
  {
    var m := EarlySteps(inp, toolsFailed, pythonFailed);
    forall id ensures m[id] == EarlyPasses(inp, toolsFailed, pythonFailed, id) {
      match id
      case CanRun =>
      case CanRunModule =>
      case CanText =>
      case _ =>
    }
  }

  /** What lines 160-256 demand of entry `id`: every speech entry and
      `can_text` need a non-empty NLP model, and each text-to-speech and
      speech-to-text entry its own credential file or binary. */
  predicate FilesPass(inp: Inputs, id: CheckId)
  {
    var model := !ModelBroken(inp.nlpModel);
    match id
    case CanRun | CanRunModule => true
    case CanText => model
    case CanAmazonPollyTts => model && !AmazonUnconfigured(inp.amazon)
    case CanGoogleCloudTts | CanGoogleCloudStt => model && !CredentialsIncomplete(inp.googleCloud)
    case CanWatsonTts => model && !CredentialsIncomplete(inp.watsonTts)
    case CanWatsonStt => model && !CredentialsIncomplete(inp.watsonStt)
    case CanOfflineFlite => inp.flite
    case CanOfflineMimic => inp.mimic
    case CanOfflineStt => model && inp.deepSpeech
  }

  /** The table of `FilesPass` is the two batches of steps taken together. */
  lemma FilesPassSplits(inp: Inputs, id: CheckId)
    ensures FilesPass(inp, id) == (CloudPass(inp, id) && LocalPass(inp, id))
  {
    match id
    case CanRun =>
    case CanRunModule =>
    case CanText =>
    case CanAmazonPollyTts =>
    case CanGoogleCloudTts =>
    case CanGoogleCloudStt =>
    case CanWatsonTts =>
    case CanWatsonStt =>
    case CanOfflineFlite =>
    case CanOfflineMimic =>
    case CanOfflineStt =>
  }

  lemma FileStepsFlags(m: Flags, inp: Inputs)
    requires Complete(m) && !inp.nlpModel.ModelUnreadable?
    ensures var r := FileSteps(m, inp);
      forall id :: r[id] == (m[id] && FilesPass(inp, id))
  {
    forall id ensures FilesPass(inp, id) == (CloudPass(inp, id) && LocalPass(inp, id)) {
      FilesPassSplits(inp, id);
    }
  }

  /** The .env check as the run decides it. */
  predicate EnvOk(inp: Inputs)
  {
    inp.envFound && !Rejected(inp.vars, "LEON_LANG", EnvLangValues)
    && !Rejected(inp.vars, "LEON_NODE_ENV", EnvEnvValues)
  }

  /** Every final flag of a completed run, in terms of the inputs alone: a
      version too old acts as a fired cascade. */
  lemma FinalFlagsOfRun(inp: Inputs)
    requires FinalFlags(inp).Some?
    ensures var m := FinalFlags(inp).value;
      forall id :: m[id] == (EarlyPasses(inp, !VersionsOk(inp), false, id) && FilesPass(inp, id))
  {
    VersionChecksOfRun(inp);
    var tf := AnyToolTooOld(ToolOutputs(inp), inp.semver);
    var pf := AnyPythonTooOld(PipenvOutputs(inp), inp.semver);
    var early := EarlySteps(inp, tf, pf);
    EarlyStepsFlags(inp, tf, pf);
    FileStepsFlags(early, inp);
    var m := FinalFlags(inp).value;
    assert m == FileSteps(early, inp);
    forall id ensures m[id] == (EarlyPasses(inp, !VersionsOk(inp), false, id) && FilesPass(inp, id)) {
      assert EarlyPasses(inp, tf, pf, id) == EarlyPasses(inp, !VersionsOk(inp), false, id);
    }
  }

  /** A completed run says Leon can run exactly when the .env check passed,
      every version suffices, the module ran and the NLP model is non-empty. */
  lemma VerdictIff(inp: Inputs)
    requires Diagnose(inp).Finished?
    ensures Diagnose(inp).verdict == CanRunCorrectly <==>
      EnvOk(inp) && VersionsOk(inp) && inp.moduleRun.exitedOk && !ModelBroken(inp.nlpModel)
  {
    FinalFlagsOfRun(inp);
    EnvCheckByVariables(inp.envFound, inp.vars);
    var m := FinalFlags(inp).value;
    assert m[CanRun] == (EarlyPasses(inp, !VersionsOk(inp), false, CanRun) && FilesPass(inp, CanRun));
    assert m[CanRunModule] == (EarlyPasses(inp, !VersionsOk(inp), false, CanRunModule) && FilesPass(inp, CanRunModule));
    assert m[CanText] == (EarlyPasses(inp, !VersionsOk(inp), false, CanText) && FilesPass(inp, CanText));
  }

  /** A run in which every check passes. */
  predicate AllPass(inp: Inputs)
  {
    && inp.envFound && EnvCheck(inp.envFound, inp.vars) == EnvValid
    && inp.node.exitedOk && inp.npm.exitedOk && inp.pipenv.exitedOk
    && inp.pipenvWhere.exitedOk && inp.python.exitedOk
    && VersionsOk(inp) && inp.moduleRun.exitedOk
    && inp.nlpModel.ModelRead? && inp.nlpModel.size > 0
    && !AmazonUnconfigured(inp.amazon) && !CredentialsIncomplete(inp.googleCloud)
    && !CredentialsIncomplete(inp.watsonTts) && !CredentialsIncomplete(inp.watsonStt)
    && inp.flite && inp.mimic && inp.deepSpeech
  }

  /** A complete record whose every flag is set is the record as built. */
  lemma AllSetIsInitial(m: Flags)
    requires Complete(m) && forall id :: m[id]
    ensures m == InitialFlags()
  {
    assert m.Keys == InitialFlags().Keys;
  }

  /** Interrupting nothing and failing nothing leaves the record as built. */
  lemma AllPassKeepsRecord(inp: Inputs)
    requires AllPass(inp)
    ensures FinalFlags(inp) == Some(InitialFlags())
  {
    VersionChecksOfRun(inp);
    var early := EarlySteps(inp, false, false);
    EarlyStepsFlags(inp, false, false);
    FileStepsFlags(early, inp);
    var m := FileSteps(early, inp);
    assert FinalFlags(inp) == Some(m);
    forall id ensures m[id] {
      assert EarlyPasses(inp, false, false, id) by {
        match id
        case CanRun =>
        case CanRunModule =>
        case _ =>
      }
      assert FilesPass(inp, id) by {
        match id
        case CanAmazonPollyTts =>
        case CanGoogleCloudTts =>
        case CanGoogleCloudStt =>
        case CanWatsonTts =>
        case CanWatsonStt =>
        case _ =>
      }
    }
    AllSetIsInitial(m);
  }

  /** Without the .env file the same run fails only `can_run`. */
  lemma MissingEnvFailsOnlyRun(inp: Inputs)
    requires AllPass(inp)
    ensures FinalFlags(inp.(envFound := false)) == Some(InitialFlags()[CanRun := false])
  {
    var bad := inp.(envFound := false);
    AllPassKeepsRecord(inp);
    VersionChecksOfRun(bad);
    var early := EarlySteps(bad, false, false);
    EarlyStepsFlags(bad, false, false);
    FileStepsFlags(early, bad);
    var m := FileSteps(early, bad);
    assert FinalFlags(bad) == Some(m);
    var expected := InitialFlags()[CanRun := false];
    forall id ensures m[id] == expected[id] {
      if id != CanRun {
        assert FinalFlags(inp).value[id];
        assert EarlyPasses(bad, false, false, id) == EarlyPasses(inp, false, false, id);
        assert FilesPass(bad, id) == FilesPass(inp, id);
      }
    }
    assert m.Keys == expected.Keys;
  }

  /** Setting one flag changes its own line of the report and no other. */
  lemma RenderedAfterSet(m: Flags, i: nat, b: bool)
    requires Complete(m) && i < |Order|
    ensures Rendered(m[Order[i] := b]) == Rendered(m)[i := RenderLine(Order[i], b)]
  {
    OrderListsEveryCheckOnce();
  }

  /** Lines 262-276 on the two records above: all green, or the first line
      red and the verdict "fix the errors" with every other line unchanged. */
  lemma MissingEnvChangesOnlyTheRunLine(inp: Inputs)
    requires AllPass(inp)
    ensures Diagnose(inp) == Finished(Rendered(InitialFlags()), CanRunCorrectly)
    ensures Diagnose(inp.(envFound := false))
      == Finished(Rendered(InitialFlags())[0 := Line("Run", ErrorStyle)], FixErrors)
  {
    AllPassKeepsRecord(inp);
    MissingEnvFailsOnlyRun(inp);
    var failed := InitialFlags()[CanRun := false];
    assert VerdictOf(InitialFlags()) == CanRunCorrectly;
    assert VerdictOf(failed) == FixErrors;
    RenderedAfterSet(InitialFlags(), 0, false);
    assert Order[0] == CanRun;
    assert RenderLine(CanRun, false) == Line("Run", ErrorStyle);
  }

  /** A version too old fails the run whatever else holds, and every warning
      entry is still decided by its own files alone. */
  lemma OldVersionFailsRun(inp: Inputs)
    requires Diagnose(inp).Finished? && !VersionsOk(inp)
    ensures Diagnose(inp).verdict == FixErrors
    ensures forall id :: SeverityOf(id) == Warning ==> FinalFlags(inp).value[id] == FilesPass(inp, id)
  {
    FinalFlagsOfRun(inp);
    assert !FinalFlags(inp).value[CanRun];
  }

  // ---------------------------------------------------------------------
  // The report object and the steps that update it in place
  // ---------------------------------------------------------------------

  /** Lines 188, 206 and 238: `results.push(false)` for each top-level value
      that is exactly `''`, then `results.includes(false)`. */
  method ReadCredentials(f: ParseResult) returns (incomplete: bool)
    ensures incomplete == CredentialsIncomplete(f)
  {
    match f
    case NotParsed =>
      incomplete := true;
    case Parsed(j) =>
      var keys := OwnValues(j);
      if keys.None? {
        incomplete := true;
      } else {
        var values := keys.value;
        var results: seq<bool> := [];
        for i := 0 to |values|
          invariant false in results <==> exists k :: 0 <= k < i && IsEmptyString(values[k])
        {
          if values[i] == JString("") {
            results := results + [false];
          }
        }
        incomplete := false in results;
      }
  }

  /** Loop invariant of the error cascade: the entries visited so far are
      cleared if error-typed, the rest are as before. */
  predicate ErrorsClearedUpTo(before: Flags, now: Flags, id: CheckId, visited: seq<CheckId>)
    requires Complete(before) && Complete(now)
  {
    now[id] == if id in visited && SeverityOf(id) == Error then false else before[id]
  }

  lemma ErrorLoopStep(before: Flags, prev: Flags, visited: seq<CheckId>, id: CheckId)
    requires Complete(before) && Complete(prev)
    requires forall x :: ErrorsClearedUpTo(before, prev, x, visited)
    ensures var now := if SeverityOf(id) == Error then prev[id := false] else prev;
      Complete(now) && forall x :: ErrorsClearedUpTo(before, now, x, visited + [id])
  {
    var now := if SeverityOf(id) == Error then prev[id := false] else prev;
    forall x ensures ErrorsClearedUpTo(before, now, x, visited + [id]) {
      assert ErrorsClearedUpTo(before, prev, x, visited);
    }
  }

  lemma ErrorLoopDone(before: Flags, now: Flags)
    requires Complete(before) && Complete(now)
    requires forall id :: ErrorsClearedUpTo(before, now, id, Order[..|Order|])
    ensures now == FailErrors(before)
  {
    assert Order[..|Order|] == Order;
    forall id ensures now[id] == FailErrors(before)[id] {
      Listed(id);
      assert ErrorsClearedUpTo(before, now, id, Order[..|Order|]);
    }
    assert now.Keys == FailErrors(before).Keys;
  }

  /** Loop invariant of the speech cascade, over the record `t` in which
      `can_text` is already cleared. */
  predicate SpeechClearedUpTo(t: Flags, now: Flags, id: CheckId, visited: seq<CheckId>)
    requires Complete(t) && Complete(now)
  {
    now[id] == if id in visited && NamesSpeech(Key(id)) then false else t[id]
  }

  lemma SpeechLoopStep(t: Flags, prev: Flags, visited: seq<CheckId>, id: CheckId)
    requires Complete(t) && Complete(prev)
    requires forall x :: SpeechClearedUpTo(t, prev, x, visited)
    ensures var now := if NamesSpeech(Key(id)) then prev[id := false] else prev;
      Complete(now) && forall x :: SpeechClearedUpTo(t, now, x, visited + [id])
  {
    var now := if NamesSpeech(Key(id)) then prev[id := false] else prev;
    forall x ensures SpeechClearedUpTo(t, now, x, visited + [id]) {
      assert SpeechClearedUpTo(t, prev, x, visited);
    }
  }

  lemma SpeechLoopDone(before: Flags, t: Flags, now: Flags)
    requires Complete(before) && Complete(now)
    requires t == SetFlag(before, CanText, false)
    requires forall id :: SpeechClearedUpTo(t, now, id, Order[..|Order|])
    ensures now == FailSpeech(before)
  {
    assert Order[..|Order|] == Order;
    var r := FailSpeech(before);
    forall id ensures now[id] == r[id] {
      Listed(id);
      assert SpeechClearedUpTo(t, now, id, Order[..|Order|]);
      SpeechKeys(id);
    }
    assert now.Keys == r.Keys;
  }

  /** The `report` object: its `v` flags are updated in place by each step. */
  class Report {
    var flags: Flags

    ghost predicate Valid()
      reads this
    {
      Complete(flags)
    }

    constructor ()
      ensures Valid() && flags == InitialFlags()
    {
      flags := InitialFlags();
    }

    /** `report[id].v = b`. */
    method Set(id: CheckId, b: bool)
      requires Valid()
      modifies this
      ensures Valid() && flags == SetFlag(old(flags), id, b)
    {
      flags := flags[id := b];
    }

    /** The error cascade of lines 119, 123 and 138: visits the keys in
        insertion order and clears the flag of every error-typed entry. */
    method FailErrorEntries()
      requires Valid()
      modifies this
      ensures Valid() && flags == FailErrors(old(flags))
    {
      ghost var before := flags;
      for i := 0 to |Order|
        invariant Complete(flags)
        invariant forall id :: ErrorsClearedUpTo(before, flags, id, Order[..i])
      {
        var id := Order[i];
        assert Order[..i + 1] == Order[..i] + [id];
        ErrorLoopStep(before, flags, Order[..i], id);
        if SeverityOf(id) == Error {
          flags := flags[id := false];
        }
      }
      ErrorLoopDone(before, flags);
    }

    /** Lines 161-162: `can_text`, then every key containing `stt` or `tts`. */
    method FailSpeechEntries()
      requires Valid()
      modifies this
      ensures Valid() && flags == FailSpeech(old(flags))
    {
      ghost var before := flags;
      Set(CanText, false);
      ghost var t := flags;
      for i := 0 to |Order|
        invariant Complete(flags)
        invariant forall id :: SpeechClearedUpTo(t, flags, id, Order[..i])
      {
        var id := Order[i];
        assert Order[..i + 1] == Order[..i] + [id];
        SpeechLoopStep(t, flags, Order[..i], id);
        if IndexOf(Key(id), "stt") != -1 || IndexOf(Key(id), "tts") != -1 {
          flags := flags[id := false];
        }
      }
      SpeechLoopDone(before, t, flags);
    }

    /** Lines 56-106. */
    method CheckEnv(envFound: bool, vars: map<string, string>)
      requires Valid()
      modifies this
      ensures Valid() && flags == EnvStep(old(flags), envFound, vars)
    {
      var verdict := EnvCheck(envFound, vars);
      if verdict == EnvValid {
        Set(CanRun, true);
      } else {
        Set(CanRun, false);
      }
    }

    /** Lines 114-128: the first batch, in array order. */
    method CheckTools(results: seq<CommandOutput>, semver: Semver)
      requires Valid()
      modifies this
      ensures Valid() && flags == CascadeIf(old(flags), AnyToolTooOld(results, semver))
    {
      ghost var before := flags;
      for i := 0 to |results|
        invariant Valid()
        invariant flags == CascadeIf(before, AnyToolTooOld(results[..i], semver))
      {
        var p := results[i];
        SomeSatisfiesPrefix(results, i, ToolTest(semver));
        if IndexOf(p.command, "node --version") != -1
          && !semver.satisfies(semver.clean(p.stdout), AtLeast(NodeMinRequiredVersion)) {
          FailErrorEntries();
          FailErrorsIdempotent(before);
        } else if IndexOf(p.command, "npm --version") != -1
          && !semver.satisfies(semver.clean(p.stdout), AtLeast(NpmMinRequiredVersion)) {
          FailErrorEntries();
          FailErrorsIdempotent(before);
        }
      }
      assert results[..|results|] == results;
    }

    /** Lines 133-143: the second batch, in array order. */
    method CheckPython(results: seq<CommandOutput>, semver: Semver)
      requires Valid()
      modifies this
      ensures Valid() && flags == CascadeIf(old(flags), AnyPythonTooOld(results, semver))
    {
      ghost var before := flags;
      for i := 0 to |results|
        invariant Valid()
        invariant flags == CascadeIf(before, AnyPythonTooOld(results[..i], semver))
      {
        var p := results[i];
        SomeSatisfiesPrefix(results, i, PythonTest(semver));
        if IndexOf(p.command, "pipenv run python --version") != -1
          && !semver.satisfies(PythonVersionArg(p.stdout), AtLeast(PythonMinRequiredVersion)) {
          FailErrorEntries();
          FailErrorsIdempotent(before);
        }
      }
      assert results[..|results|] == results;
    }

    /** Lines 147-155. */
    method CheckModule(exitedOk: bool)
      requires Valid()
      modifies this
      ensures Valid() && flags == ModuleStep(old(flags), exitedOk)
    {
      if !exitedOk {
        Set(CanRunModule, false);
      }
    }

    /** Lines 160-166; `thrown` when reading an existing model throws. */
    method CheckNlpModel(f: ModelFile) returns (thrown: bool)
      requires Valid()
      modifies this
      ensures Valid() && thrown == f.ModelUnreadable?
      ensures thrown ==> flags == old(flags)
      ensures !thrown ==> flags == NlpStep(old(flags), f)
    {
      thrown := false;
      if f.ModelMissing? {
        FailSpeechEntries();
      } else if f.ModelUnreadable? {
        thrown := true;
      } else if f.size == 0 {
        FailSpeechEntries();
      }
    }

    /** Lines 170-182. */
    method CheckAmazon(f: ParseResult)
      requires Valid()
      modifies this
      ensures Valid() && flags == AmazonStep(old(flags), f)
    {
      if AmazonUnconfigured(f) {
        Set(CanAmazonPollyTts, false);
      }
    }

    /** Lines 184-200. */
    method CheckGoogleCloud(f: ParseResult)
      requires Valid()
      modifies this
      ensures Valid() && flags == GoogleCloudStep(old(flags), f)
    {
      var incomplete := ReadCredentials(f);
      if incomplete {
        Set(CanGoogleCloudTts, false);
        Set(CanGoogleCloudStt, false);
      }
    }

    /** Lines 202-216 (`id` = `can_watson_tts`) and 234-248 (`can_watson_stt`). */
    method CheckWatson(id: CheckId, f: ParseResult)
      requires Valid()
      modifies this
      ensures Valid() && flags == WatsonStep(old(flags), id, f)
    {
      var incomplete := ReadCredentials(f);
      if incomplete {
        Set(id, false);
      }
    }

    /** Lines 218-224, 226-232 and 250-256. */
    method CheckPresence(id: CheckId, found: bool)
      requires Valid()
      modifies this
      ensures Valid() && flags == PresenceStep(old(flags), id, found)
    {
      if !found {
        Set(id, false);
      }
    }

    /** Lines 262-268: one line per entry, in insertion order. */
    method Render() returns (lines: seq<Line>)
      requires Valid()
      ensures lines == Rendered(flags)
      ensures |lines| == |Order|
      ensures forall i :: 0 <= i < |lines| ==>
        lines[i].title == Title(Order[i]) && (lines[i].style == SuccessStyle <==> flags[Order[i]])
    {
      lines := [];
      for i := 0 to |Order|
        invariant lines == Rendered(flags)[..i]
      {
        lines := lines + [RenderLine(Order[i], flags[Order[i]])];
      }
    }
  }

  /** Lines 56-155 on a fresh record, for a run that gets past both batches. */
  method RunEarlySteps(inp: Inputs) returns (report: Report)
    requires inp.node.exitedOk && inp.npm.exitedOk && inp.pipenv.exitedOk
    requires inp.pipenvWhere.exitedOk && inp.python.exitedOk
    ensures fresh(report) && report.Valid()
    ensures report.flags == EarlySteps(inp, AnyToolTooOld(ToolOutputs(inp), inp.semver),
                                       AnyPythonTooOld(PipenvOutputs(inp), inp.semver))
  {
    report := new Report();
    report.CheckEnv(inp.envFound, inp.vars);
    report.CheckTools(ToolOutputs(inp), inp.semver);
    report.CheckPython(PipenvOutputs(inp), inp.semver);
    report.CheckModule(inp.moduleRun.exitedOk);
  }

  /** Lines 160-256, for a run whose NLP model can be read. */
  method RunFileSteps(report: Report, inp: Inputs)
    requires report.Valid() && !inp.nlpModel.ModelUnreadable?
    modifies report
    ensures report.Valid() && report.flags == FileSteps(old(report.flags), inp)
  {
    var thrown := report.CheckNlpModel(inp.nlpModel);
    report.CheckAmazon(inp.amazon);
    report.CheckGoogleCloud(inp.googleCloud);
    report.CheckWatson(CanWatsonTts, inp.watsonTts);
    report.CheckPresence(CanOfflineFlite, inp.flite);
    report.CheckPresence(CanOfflineMimic, inp.mimic);
    report.CheckWatson(CanWatsonStt, inp.watsonStt);
    report.CheckPresence(CanOfflineStt, inp.deepSpeech);
  }

  /** The whole script: build the record, run every step in order, render.
      A rejected batch or an unreadable model ends the run before anything
      is printed. */
  method Run(inp: Inputs) returns (outcome: Outcome)
    ensures outcome == Diagnose(inp)
  {
    if !(inp.node.exitedOk && inp.npm.exitedOk && inp.pipenv.exitedOk)
      || !(inp.pipenvWhere.exitedOk && inp.python.exitedOk)
      || inp.nlpModel.ModelUnreadable?
    {
      return Aborted;
    }
    var report := RunEarlySteps(inp);
    RunFileSteps(report, inp);
    var lines := report.Render();
    outcome := Finished(lines, VerdictOf(report.flags));
  }
}
