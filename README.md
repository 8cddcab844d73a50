# Setup checker and Home Assistant skill, modelled in Dafny

This project models two pieces of the Leon assistant.

**The setup checker** (`scripts/check.js`). It builds a report of eleven entries, keyed `can_run` … `can_offline_stt`. Each entry has a title, a type (`error` or `warning`) and a flag `v` that starts out `true`. A fixed sequence of steps then clears flags:

- the `.env` validation chain;
- the Node.js/npm and Python version batches, either of which can clear every error entry;
- the module smoke test;
- the NLP model check, which clears `can_text` and every key containing `stt` or `tts`;
- the Amazon, Google Cloud and Watson credential files;
- the Flite, Mimic and DeepSpeech binaries.

Finally it prints one line per entry in insertion order, followed by a verdict. The verdict is success exactly when the three error entries still pass.

The report is the class `Check.Report`, whose `flags` map each step updates in place. Each step is specified by a function on the flags. The loops of the source stay loops, with the invariants that tie them to those functions:

- the two `Object.keys(report).forEach` cascades;
- the `forEach` over each version batch;
- the `results.push` scan of a credential file.

`Check.Run` is proved equal to `Check.Diagnose`, the whole run as a function of its inputs. The lemmas about `Diagnose` state what the run prints for every input. The inputs include:

- whether `.env` exists and the environment;
- each command's exit status and output;
- the NLP model file;
- each credential file as `JSON.parse` returns it;
- whether each binary exists;
- the semver library, as two opaque functions.

**The Home Assistant skill** (`packages/hass/hass.py`). `power_on` and `power_off` share `Hass.Switch`. It checks the API key first, then scans the entities for the last `device`, then posts an event and reports on the HTTP status. The entity scan is a loop proved against `LastDevice`. `PostDataToHass` normalises the hostname in place and assembles the request. The HTTP exchange is a parameter `send` from request to status code.

The JSON body is produced by a model of `json.dumps` with `ensure_ascii` escaping. A JSON string reader (the string grammar of section 7 of RFC 8259) is proved to read every payload back.

Supporting modules:

- `Strings`: JavaScript `indexOf` and `split` on one character, and Python `in` on strings.
- `JsonValue`: parsed JSON values, a JavaScript property read and `Object.keys`.
- `Wrappers`: `Option`.

## Model

| member | source | states |
|---|---|---|
| Check.OrderListsEveryCheckOnce | scripts/check.js:32-44 | the record has exactly eleven keys, each once, in a fixed insertion order, and distinct keys are distinct property names |
| Check.InitialFlags | scripts/check.js:32-44 | the record as built has every check present and passing |
| Check.Report.constructor | scripts/check.js:32-44 | a new report holds the initial record |
| Check.Report.Set | scripts/check.js:57 | `report[id].v = b` sets that flag and leaves every other flag unchanged |
| Check.SetFlag | scripts/check.js:57 | after `report[id].v = b`, flag `id` is `b` and every other flag is as before |
| Check.EnvCheck | scripts/check.js:56-106 | the priority-ordered chain of `.env` tests, with the property names as the code reads them; it reports a missing file exactly when `.env` is absent. Characterised by `Check.EnvCheckByVariables` and `Check.EnvOnlyLangAndNodeEnvCanFail` |
| Check.EnvOnlyLangAndNodeEnvCanFail | scripts/check.js:73-101 | only the missing-file, `LEON_LANG` and `LEON_NODE_ENV` branches can fire; the port, boolean and provider branches never do |
| Check.EnvCheckByVariables | scripts/check.js:56-106 | a missing `.env` fails; otherwise `LEON_LANG` set to a non-empty value outside {en-US, fr-FR} fails first, then `LEON_NODE_ENV` outside {development, testing, production}; the check passes exactly when neither happens |
| Check.EnvStep | scripts/check.js:56-106 | `can_run` ends up true exactly when the chain reaches its success branch; no other flag changes |
| Check.Report.CheckEnv | scripts/check.js:56-106 | the report's flags become those of the env step |
| Check.FailErrors | scripts/check.js:119 | after the error cascade every error entry fails, and every warning entry keeps its flag |
| Check.FailErrorsIdempotent | scripts/check.js:117-123 | running the error cascade again changes nothing, so several failed versions act as one |
| Check.Report.FailErrorEntries | scripts/check.js:119 | the loop over the record's keys leaves exactly the flags of the cascade function |
| Check.SpeechKeys | scripts/check.js:162 | a key contains `stt` or `tts` exactly for the three speech-to-text and three cloud text-to-speech entries; the Flite and Mimic keys do not match |
| Check.FailSpeech | scripts/check.js:161-162 | `can_text` and every speech entry fail; every other entry, including `can_run`, `can_run_module`, Flite and Mimic, keeps its flag |
| Check.Report.FailSpeechEntries | scripts/check.js:161-162 | clearing `can_text`, then looping over the keys with the `indexOf` test, gives exactly the speech cascade |
| Check.SomeSatisfiesIff | scripts/check.js:114-128 | a `forEach` whose body may fire fires at least once exactly when some element passes its test |
| Check.NodeTooOld | scripts/check.js:117-118 | the node branch's test: the command contains `node --version` and the cleaned output does not satisfy `>=10`. Characterised by `Check.NodeCommandTested` |
| Check.NpmTooOld | scripts/check.js:121-122 | the npm branch's test: the command contains `npm --version` and the cleaned output does not satisfy `>=5`. Characterised by `Check.NpmCommandTested` |
| Check.PythonTooOld | scripts/check.js:136-137 | the Python branch's test: the command contains `pipenv run python --version` and its version token does not satisfy `>=3`. Characterised by `Check.PythonCommandTested` |
| Check.NodeCommandTested | scripts/check.js:117-118 | the `node --version` output is compared with `>=10` and fires the cascade exactly when it does not satisfy it |
| Check.NpmCommandTested | scripts/check.js:121-122 | the `npm --version` output is compared with `>=5` and fires exactly when it does not satisfy it |
| Check.PythonCommandTested | scripts/check.js:136-137 | the python output's second space-separated token is compared with `>=3` and fires exactly when it does not satisfy it |
| Check.PythonVersionArg | scripts/check.js:137 | `stdout.split(' ')[1]` is defined exactly when the output holds a space, and is then a token without a space. Characterised by `Check.PythonVersionIsSecondToken` |
| Check.PythonVersionIsSecondToken | scripts/check.js:137 | `split(' ')[1]`: the token after the first space, whatever follows it after a further space; undefined without a space |
| Check.PipenvVersionNeverTested | scripts/check.js:113-127 | the `pipenv --version` output never fires the cascade, whatever it prints |
| Check.PipenvWhereNeverTested | scripts/check.js:131-141 | the `pipenv --where` output never fires the cascade, whatever it prints |
| Check.VersionChecksOfRun | scripts/check.js:110-143 | the first batch fires exactly when node is below 10 or npm below 5, the second exactly when python is below 3 |
| Check.CascadeIf | scripts/check.js:114-143 | a fired cascade fails every error entry and leaves warnings alone; an unfired one changes nothing |
| Check.Report.CheckTools | scripts/check.js:110-128 | the loop over the first batch leaves the flags of the cascade fired exactly when some result fails its version test |
| Check.Report.CheckPython | scripts/check.js:130-143 | the same for the second batch |
| Check.ModuleStep | scripts/check.js:147-155 | a rejected smoke test fails `can_run_module` and nothing else |
| Check.Report.CheckModule | scripts/check.js:147-155 | the report's flags become those of the module step |
| Check.NlpStep | scripts/check.js:160-166 | a missing or empty model fails `can_text` and the speech entries; otherwise nothing changes |
| Check.Report.CheckNlpModel | scripts/check.js:159-166 | an unreadable model throws with the flags untouched; otherwise the flags become those of the NLP step |
| Check.AmazonUnconfigured | scripts/check.js:171-182 | the Amazon test: a parse failure, a `null` document, or an `accessKeyId` or `secretAccessKey` that is `''`. Characterised by `Check.AmazonUnconfiguredIff` |
| Check.AmazonUnconfiguredIff | scripts/check.js:171-182 | Amazon fails exactly on a parse error, a `null` document, or an object whose `accessKeyId` or `secretAccessKey` is `''`; other empty fields do not matter |
| Check.CredentialsIncomplete | scripts/check.js:186-189 | the Google Cloud and Watson test: a parse failure, or `Object.keys` throwing or reaching a value that is `''`. Characterised by `Check.CredentialsIncompleteIff` and computed by `Check.ReadCredentials` |
| Check.CredentialsIncompleteIff | scripts/check.js:185-200 | Google and Watson fail on a parse error or `null`, and on an object or array exactly when some top-level value is `''`; strings, numbers and booleans pass |
| Check.CredentialExamples | scripts/check.js:171-200 | an empty access key fails both kinds of check, and a file with two filled-in fields passes both |
| Check.ReadCredentials | scripts/check.js:186-189 | the `results.push(false)` loop reports incompleteness exactly as the credential predicate does |
| Check.AmazonStep | scripts/check.js:170-182 | only `can_amazon_polly_tts` can change; it fails exactly when Amazon is unconfigured |
| Check.Report.CheckAmazon | scripts/check.js:170-182 | the report's flags become those of the Amazon step |
| Check.GoogleCloudStep | scripts/check.js:184-200 | one incomplete Google Cloud file fails both `can_google_cloud_tts` and `can_google_cloud_stt`; nothing else changes |
| Check.Report.CheckGoogleCloud | scripts/check.js:184-200 | the report's flags become those of the Google Cloud step |
| Check.WatsonStep | scripts/check.js:202-216 | an incomplete Watson file fails only its own entry |
| Check.Report.CheckWatson | scripts/check.js:202-216 | the report's flags become those of the Watson step (also lines 234-248) |
| Check.PresenceStep | scripts/check.js:218-232 | a missing binary fails only its own entry (also lines 250-256) |
| Check.Report.CheckPresence | scripts/check.js:218-232 | the report's flags become those of the presence step |
| Check.CloudSteps | scripts/check.js:159-216 | after the NLP and text-to-speech credential steps, each flag is its old value and the requirements of those steps |
| Check.LocalSteps | scripts/check.js:218-256 | after the binary and Watson speech-to-text steps, each flag is its old value and the requirements of those steps |
| Check.FilesPassSplits | scripts/check.js:159-256 | the per-entry table of file requirements is the conjunction of the two batches of steps |
| Check.FileStepsFlags | scripts/check.js:159-256 | after all file steps, each entry passes exactly when it passed before and its own files are present and complete |
| Check.EarlyStepsFlags | scripts/check.js:56-155 | after the env, version and module steps: `can_run` needs a valid env and no fired cascade, `can_run_module` needs no cascade and the smoke test, `can_text` needs no cascade, and warnings pass |
| Check.FinalFlags | scripts/check.js:56-256 | the record of a completed run holds every entry; when it is absent is stated by `Check.AbortsIff`, its flags by `Check.FinalFlagsOfRun` |
| Check.Diagnose | scripts/check.js:14-283 | a completed run prints one line per entry; what it prints and concludes is characterised by `Check.VerdictIff`, `Check.AbortsIff` and the scenario lemmas below |
| Check.FinalFlagsOfRun | scripts/check.js:56-256 | every final flag of a completed run, stated in terms of the inputs alone |
| Check.AbortsIff | scripts/check.js:279-282 | the run rejects exactly when a version command exits non-zero or an existing NLP model cannot be read |
| Check.RenderLine | scripts/check.js:262-268 | a line prints the entry's title, as a success exactly when it passes, and as an error exactly when it fails and is error-typed |
| Check.Report.Render | scripts/check.js:262-268 | one line per entry in insertion order, with each line's title and its success style matching the flag |
| Check.RenderedAfterSet | scripts/check.js:262-268 | changing one flag changes its own printed line and no other |
| Check.VerdictOf | scripts/check.js:271-276 | success exactly when every error-typed entry passes |
| Check.VerdictIff | scripts/check.js:271-276 | a completed run succeeds exactly when the env check passes, every version suffices, the module runs and the NLP model is non-empty |
| Check.AllPassKeepsRecord | scripts/check.js:32-256 | when nothing fails, the final record is the record as built |
| Check.MissingEnvFailsOnlyRun | scripts/check.js:56-58 | on an otherwise passing setup, a missing `.env` fails exactly `can_run` |
| Check.MissingEnvChangesOnlyTheRunLine | scripts/check.js:262-276 | in that scenario the report differs from the all-green one only in the first line, printed as an error, and in the verdict |
| Check.OldVersionFailsRun | scripts/check.js:117-143 | a version too old forces "fix the errors", and every warning entry is still decided by its own files |
| Check.RunEarlySteps | scripts/check.js:56-155 | the early steps on a new report leave exactly the early-steps function's flags |
| Check.RunFileSteps | scripts/check.js:159-256 | the file steps on a report leave exactly the file-steps function's flags |
| Check.Run | scripts/check.js:14-283 | the script prints exactly what the run function says, or rejects exactly when it says so |
| Strings.IndexOf | scripts/check.js:117 | `indexOf` gives -1 or an index where the string occurs; `Strings.IndexOfIsFirst` shows it is the first one |
| Strings.IndexOfIsFirst | scripts/check.js:117 | `indexOf` finds the first occurrence, and gives -1 exactly when there is none |
| Strings.Split | scripts/check.js:137 | `split` on one character gives at least one piece, no piece holds the separator, and joining the pieces gives back the string |
| Strings.Contains | packages/hass/hass.py:55 | `t in s` holds exactly when `t` occurs somewhere in `s` |
| JsonValue.Property | scripts/check.js:173 | a property read throws exactly on `null` and finds a value only on an object |
| JsonValue.OwnValues | scripts/check.js:188 | `Object.keys` throws exactly on `null` |
| Hass.LastDevice | packages/hass/hass.py:16-18 | the device is `''` or the text of some device entity. Characterised exactly by `Hass.LastDeviceIsLast` |
| Hass.LastDeviceIsLast | packages/hass/hass.py:16-18 | the device is `''` without device entities; otherwise it is the text of a device entity that no other device entity follows |
| Hass.SelectDevice | packages/hass/hass.py:37-39 | the scan that overwrites `device` ends with the last device's text |
| Hass.NormalizeHostname | packages/hass/hass.py:54-56 | the result always contains `://`; it is the hostname itself exactly when that already contains `://`, and otherwise the hostname after `http://` |
| Hass.NormalizeHostnameIdempotent | packages/hass/hass.py:55-56 | normalising twice equals normalising once |
| Hass.EventUrl | packages/hass/hass.py:63 | the URL is the normalised hostname, `:`, the port and `/api/events/script_started`, in that order, and always names a scheme |
| Hass.PostRequest | packages/hass/hass.py:58-69 | the posted body reads back as the payload |
| Hass.PostDataToHass | packages/hass/hass.py:50-73 | a POST to the event URL, with a Bearer authorization header and a JSON content type, whose status is returned |
| Hass.EscapeChar | packages/hass/hass.py:58 | `json.dumps` writes each character as a non-empty run of printable ASCII |
| Hass.Escape | packages/hass/hass.py:58 | `json.dumps` with `ensure_ascii` writes only printable ASCII |
| Hass.Dumps | packages/hass/hass.py:58 | the posted document is printable ASCII; `Hass.DumpsRoundTrip` reads it back |
| Hass.HexRoundTrip | packages/hass/hass.py:58 | the four hex digits of a `\uXXXX` escape read back as the code unit |
| Hass.DumpsRoundTrip | packages/hass/hass.py:58 | reading the posted document back gives the action and the device |
| Hass.Respond | packages/hass/hass.py:11-27 | the answer of either skill and the request it posts: `connection_failed` only ever follows a post and never carries status 200. Characterised by `Hass.KeyCheckedFirst`, `Hass.DeviceCheckedSecond` and `Hass.StatusDecides`; `power_off` at lines 32-48 by the two lemmas comparing the skills |
| Hass.KeyCheckedFirst | packages/hass/hass.py:13-14 | without a key the answer is `key_not_provided`, whatever the entities or the server, and nothing is posted |
| Hass.DeviceCheckedSecond | packages/hass/hass.py:20-21 | with a key, `device_not_provided` is answered exactly when the device is `''`, and nothing is posted when there is no device entity |
| Hass.StatusDecides | packages/hass/hass.py:23-27 | exactly the runs past both checks post the action and the device to the event URL; status 200 reports the device switched, any other status the code |
| Hass.OnAndOffPostAlike | packages/hass/hass.py:44 | the two skills take the same branch and post the same request but for the action in the body |
| Hass.OnAndOffAnswerAlike | packages/hass/hass.py:45-48 | given the same status, the two skills answer alike except that success says turned off |
| Hass.Switch | packages/hass/hass.py:11-27 | the key check, the scan, the device check and the post, in source order, give the response function's answer and request |
| Hass.PowerOn | packages/hass/hass.py:8-27 | `power_on` is the shared skill with action "turn on" |
| Hass.PowerOff | packages/hass/hass.py:29-48 | `power_off` is the shared skill with action "turn off" |

## Left out

- Logging, colours and every message text are not modelled, including the message at `scripts/check.js:93`, which names the wrong variable. What is modelled is the style of each report line and the verdict.
- Reading `.env` through `dotenv`, `fs.existsSync`, `fs.readFileSync`, and running commands through `execa` are not modelled. Their results are fields of `Check.Inputs`.
- The internals of `semver.clean` and `semver.satisfies` are not modelled. They come from a library that is not part of this model, so they are two opaque functions in `Check.Semver`.
- The `Promise.all` fan-out is not modelled. Its results are processed in array order, which is what the model does.
- Check.Run: a rejected `command` in either version batch, or an NLP model that exists but cannot be read, escapes every local `catch`. The run then logs the exception at `scripts/check.js:280` and rejects, and prints no report. The model says only that the run rejects; the lines logged before the exception are not modelled.
- Check.Run: `command` is given no timeout, so a command that never exits stalls the whole run. Every `Exec` in the model completes, so such a stall is not modelled.
- Only `LEON_LANG` and `LEON_NODE_ENV` can fail the env check, although the chain has a branch for every variable. Three things cause this:
  - every `process.env` value is a string;
  - the chain reads `stt_provider`, but the object defines `stt_prov`;
  - it reads `tts_provide`, but the object defines `tts_prov`.
  `Check.EnvOnlyLangAndNodeEnvCanFail` states the consequence.
- The `title` and `type` of each entry are the functions `Check.Title` and `Check.SeverityOf` of the key, since no step writes them. Only the `v` flags are state.
- JavaScript numbers in parsed credential files are modelled as integers, since no check reads their value. Duplicate JSON keys are not modelled: `JSON.parse` keeps the last one, and `Check.AmazonUnconfiguredIff` assumes distinct keys.
- The whole of `scripts/setup-offline/setup-tts.js` is not part of this model. It only sequences shell commands.
- `checkHassConnection` in `packages/hass/hass.py` is not modelled: it is a single network call.
- The HTTP `Session.send` and the formatting done by `utils.translate` and `utils.output` are not modelled. The HTTP exchange is the parameter `send`. Each answer is an `Hass.Answer` tag that carries the code or the device.
- Hass.Switch: a `req.prepare()` that raises (a URL with no host or a port that does not parse, `packages/hass/hass.py:70`) and an `s.send` that raises (a refused connection or a failed name lookup, line 71) are outside the model. Neither skill catches them, so the skill raises instead of answering. In the model `send` always returns a status, and `connection_failed` stands only for a received status other than 200. The same holds for `Hass.PostDataToHass`, `Hass.Respond`, `Hass.PowerOn` and `Hass.PowerOff`.
- A configured `hostname` that is not a string is not modelled, and neither is an entity without an `entity` or `sourceText` field. The source would raise on either and has no handler. The port is kept as the text that `str.format` gives it.
- The payload reader `Hass.ParsePayload` reads the payload written by `json.dumps`. It is not Python's `json.loads`, and it rejects lone surrogate escapes, which Python's decoder accepts.
