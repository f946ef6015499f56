# TranslateAndTTS decision logic in Dafny

TranslateAndTTS (AACSpeakHelper) reads the clipboard, optionally translates it, and speaks it aloud.

- A short-lived **client** (`client.py`) resolves its configuration and sends one request over a Windows named pipe.
- A tray **server** (`AACSpeakHelperServer.py`) handles each request: it decides what text to speak, whether to run speech, whether to rewrite the clipboard, and which voice list to send back.
- A stand-alone **clipboard tool** (`translatepb.py`) does the same translation step on its own.
- Both the server and the clipboard tool prune the audio cache.
- `CreateGridset.py` installs a demo page set whose `.xml` files name the clipboard tool's path.

This project models the decision procedures under that plumbing and proves properties about them. Every effect is a parameter:

- the filesystem, the environment and the clipboard;
- decryption, the translator and the speech engine;
- what each pipe attempt meets.

| file | module | models |
|---|---|---|
| `common.dfy` | `Common` | `Option` / `Result`, the error paths |
| `text.dfy` | `Text` | `str.replace`, literal `re.sub` matching, ASCII `lower`/`upper`, `endswith`, `join` |
| `ini.dfy` | `Ini` | `ConfigParser.get` / `getboolean` with lower-cased option names |
| `config_resolver.dfy` | `ConfigResolver` | `find_config_enc`, `load_config`, `load_standard_config`, the path helpers |
| `pipe_client.dfy` | `PipeClient` | `send_to_pipe`, `main` |
| `server_translation.dfy` | `ServerTranslation` | the server's `translate_clipboard` |
| `pb_translation.dfy` | `PbTranslation` | the clipboard tool's `translate_clipboard` |
| `cache_retention.dfy` | `CacheRetention` | both `remove_stale_temp_files` |
| `dispatcher.dfy` | `Dispatcher` | `MainWindow.handle_message`, the voice-slot flush of `PipeServerThread.run` |
| `gridset.dfy` | `Gridset` | the placeholder rewrite, output paths and `.bat` text of `modify_gridset` |

## How the model follows the code

The model follows the code as written. A few of its behaviours are easy to misread:

- `send_to_pipe` only logs when it runs out of retries. It returns normally, and `main` then returns normally, with status 0.
- The server's cache walk skips a file only when its name ends with both the ignore pattern and `.db-journal`. With the default pattern `.db`, it therefore deletes every stale file, `.db` files included. Only the clipboard tool skips every name ending with the pattern.
- The server stages any truthy `tts_utils.voices`, whether or not the request asked for `listvoices`.
- The server reads `url` only when the provider is `LibreProvider`. That name is not one of the classes it constructs, so `LibreTranslator` always gets `custom_url=None`.

## Model

| member | source | states |
|---|---|---|
| ConfigResolver.GoogleCredsPath | client.py:25-40 | the credentials file is `google_creds.json` directly inside the per-user AppData folder when bundled, inside the working directory otherwise |
| ConfigResolver.SettingsPath | client.py:225-245 | the default `settings.cfg` is directly inside the per-user AppData folder when bundled, inside the script's folder otherwise |
| ConfigResolver.StartDir | client.py:90-103 | a bundled client searches from the folder that contains its executable, a script from the working directory |
| ConfigResolver.BundledFilesShareFolder | client.py:32-34 | a bundled client keeps `google_creds.json` and its default `settings.cfg` in the same folder |
| ConfigResolver.FindConfigEnc | client.py:43-73 | the loop returns exactly what the level-by-level search `Search` returns; `None` is the FileNotFoundError |
| ConfigResolver.SearchFindsFirstLevel | client.py:57-73 | a file is found iff some level below `max_depth` (start, parent, grandparent, ...) has `config.enc` or `_internal/config.enc`; the result is the candidate of the first such level, `config.enc` before `_internal/config.enc` |
| ConfigResolver.OverrideMapLastWins | client.py:262-264 | every override key is stored upper-cased; a key is present iff some item names it; its value is that of the last item naming it |
| ConfigResolver.ApplyOverrideItems | client.py:190-193 | assigning the overrides one by one gives the config with every override key replaced or added and all other keys unchanged |
| ConfigResolver.LoadStandardConfig | client.py:248-269 | a malformed file raises a parsing error; a missing `[overrides]` section gives an empty dict; otherwise the upper-cased override dict |
| ConfigResolver.UpdateIdempotent | client.py:383 | applying the same overrides a second time changes nothing |
| ConfigResolver.Validate | client.py:199-219 | passes iff all four required fields are truthy and the `GOOGLE_CREDS_PATH` file exists; otherwise ValueError for a missing field, FileNotFoundError for a missing file |
| ConfigResolver.LoadConfig | client.py:76-222 | the imperative `load_config` equals its specification function `LoadConfigSpec`; whatever it returns has the four required fields truthy and an existing credentials file |
| ConfigResolver.EnvironmentErrorIffFoundWithoutKey | client.py:106-120 | EnvironmentError is raised exactly when `config.enc` is found within 5 levels and `CONFIG_ENCRYPTION_KEY` is unset or empty |
| ConfigResolver.FallbackKeepsDecryptedEntries | client.py:144-181 | when decryption wrote `GOOGLE_CREDS_PATH` and then failed its own field check, the entries survive the fallback, and an override supplying the missing field makes `load_config` succeed with the decrypted credentials path |
| ConfigResolver.OverridesWinOverDecrypted | client.py:183-195 | each key of the result is the last override naming it, if any, and otherwise what the decrypted layer left; no other key appears |
| PipeClient.ClipboardText | client.py:272-283 | the clipboard text when `pyperclip.paste()` returns, the empty string when it raises a `PyperclipException` |
| PipeClient.SendToPipe | client.py:286-335 | `send_to_pipe` makes at most `retries` attempts, stops at the first that reaches `break`, gives up only after all attempts failed, and writes once per attempt that got past `WriteFile` |
| PipeClient.SendReportUnique | client.py:299-335 | the attempts' outcomes determine the report: two reports meeting the specification are equal |
| PipeClient.DeliveredOnceAfterTwoFailures | client.py:299-331 | two failed connections then a clean exchange: delivered on the third attempt, written once |
| PipeClient.CloseFailureWritesAgain | client.py:311-331 | a `pywintypes.error` from `CloseHandle` after a successful write causes another attempt, so the message is written twice |
| PipeClient.ClientMain | client.py:369-426 | `main` exits with status 1 iff `MainGate` (load, update with an existing `--config` file, re-check) fails; otherwise it sends exactly `{args, config, clipboard_text}`, with a complete config and an existing credentials file, through `send_to_pipe` with 3 retries |
| PipeClient.MainRecheckCatchesBlankedField | client.py:379-404 | the re-check in `main` is not redundant: a `--config` file blanking `microsoft_region` stops a send that `load_config` allowed |
| Ini.GetIgnoresOptionCase | AACSpeakHelperServer.py:281 | option names that differ only in ASCII case (`startlang`, `startLang`) read the same option |
| ServerTranslation.Construct | AACSpeakHelperServer.py:256-301 | the `match` builds a call only for the twelve known classes, with the `endLang` option as target; source `'auto'` for Google, Pons, Linguee, Qcri, Papago and ChatGpt, otherwise the `startLang` option; the key only for classes that take one; `use_free_api` only for DeepL, as `not pro`, and only when `pro` was read; `email`, `region`, `client_id`, `appid` and `custom_url` each only for its own class |
| ServerTranslation.SelectTranslator | AACSpeakHelperServer.py:247-308 | a constructor call names the configured provider, a known class, `endLang` as target; source `'auto'` for Google, Pons, Linguee, Qcri, Papago and ChatGpt, otherwise `startLang`; the key is passed iff the class takes one, read from `<provider>_secret_key`; `use_free_api` only for DeepL, equal to `not deepl_pro`; `email`, `region`, `client_id` and `appid` are the `translate` options `email`, `region`, `papagotranslator_client_id` and `baidutranslator_appid` for MyMemory, Microsoft, Papago and Baidu respectively, and `None` for every other class; never a custom URL |
| ServerTranslation.SelectTranslatorSucceeds | AACSpeakHelperServer.py:247-308 | with a known provider, every option it needs present and a valid DeepL `deepl_pro`, a constructor call comes out |
| ServerTranslation.SelectTranslatorNeeds | AACSpeakHelperServer.py:247-308 | conversely, a constructor call comes out only when every option the provider needs is present and, for DeepL, `deepl_pro` is a valid boolean |
| ServerTranslation.MissingKeyFails | AACSpeakHelperServer.py:248 | every provider but `GoogleTranslator` needs its `<provider>_secret_key`, even the ones that never pass it on |
| ServerTranslation.ServerTranslate | AACSpeakHelperServer.py:245-314 | any error before the translator yields `None`; otherwise the result is the translator's on the selected call |
| PbTranslation.NoneIfEmpty | translatepb.py:26-30 | an empty string becomes `None`; any other value, read or not, is passed unchanged |
| PbTranslation.BuildTranslator | translatepb.py:15-30 | succeeds iff the provider, its `<alias>provider_secret_key`, the provider-specific option, `endLang` and `startLang` are present; the call has the provider's alias and the key; `email` is the `email` option (with `""` turned into `None`) for `MyMemoryProvider` and `None` otherwise, likewise `region` for `MicrosoftProvider` and `base_url` from `url` for `LibreProvider`; `pro` is present iff the provider is `DeeplProvider`, and is then `getboolean('deepl_pro')` |
| PbTranslation.AliasOfProviderName | translatepb.py:16-17 | for `<Name>Provider` with no capital `P` in `<Name>`, the alias is `<Name>` lower-cased and the key option `<name>provider_secret_key` |
| PbTranslation.PbTranslate | translatepb.py:13-40 | a failed configuration read or clipboard read yields `None`; otherwise the result is the translator's on the built call and the clipboard text |
| CacheRetention.RemoveStaleServer | AACSpeakHelperServer.py:317-341 | the walk hands `clear_history` exactly the names `Removed` records over the flattened walk, in walk order; an unreadable threshold ends it before the walk |
| CacheRetention.RemovedMembers | AACSpeakHelperServer.py:328-334 | a name is recorded iff some file of that name is not skipped, strictly older than the threshold, and removable |
| CacheRetention.ServerDefaultSkipsNothing | AACSpeakHelperServer.py:317-329 | with the default pattern `.db` the server skips no file, since no name ends with both `.db` and `.db-journal` |
| CacheRetention.ServerDefaultRemovesStale | AACSpeakHelperServer.py:325-337 | with the default pattern, a name is recorded iff some file of that name is strictly stale and removable |
| CacheRetention.ThirtyDayExample | AACSpeakHelperServer.py:321-334 | under a 30-day threshold, of files 40, 10 and exactly 30 days old and one with an unreadable age, only the 40-day file is deleted |
| CacheRetention.RemoveStalePb | translatepb.py:94-118 | the clipboard tool's walk ends as the step-wise specification `PbWalk` over the flattened walk says, aborted on the first unskipped file whose age cannot be read; an unreadable threshold ends it before the walk |
| CacheRetention.PbWalkFiles | translatepb.py:101-114 | continuing a walk that has not aborted, the loop over one directory ends as `PbWalk` says for the files walked so far followed by that directory's files |
| CacheRetention.PbWalkCharacterised | translatepb.py:100-116 | the walk aborts iff some unskipped file's `getmtime` raises; aborted, it holds the names removed before the first such file; otherwise `clear_history` gets the names `Removed` records |
| CacheRetention.PbAbortSticks | translatepb.py:105 | once a `getmtime` error escapes, no later file is examined |
| CacheRetention.PbNeverRemovesIgnored | translatepb.py:103-104 | with a non-empty pattern, no name ending with it is ever removed |
| Dispatcher.WithAppPaths | AACSpeakHelperServer.py:190-193 | the `App` section exists afterwards with `config_path` and `audio_files_path` set to the values from `get_paths`; its options are exactly the earlier ones plus those two; other sections and other `App` options are unchanged |
| Dispatcher.SetAppPaths | AACSpeakHelperServer.py:190-193 | the statements that create the `App` section if needed and set the two paths produce `WithAppPaths` |
| Dispatcher.PipeServerThread.FlushStep | AACSpeakHelperServer.py:126-133 | with `get_voices` set and a truthy slot, a successful `WriteFile` writes the list and sets the slot to `None`; a failing one leaves the slot as it was and ends the server loop, since the `finally` block is outside any `try`; with an empty slot it keeps waiting; without `get_voices` nothing changes |
| Dispatcher.MainWindow.HandleMessage | AACSpeakHelperServer.py:170-242 | `handle_message` makes the effects `Decide` describes, stopping at the first exception; the voice slot changes only when a list is staged, the last-run entry only when the message completes; the server loop keeps running |
| Dispatcher.MainWindow.ProcessMessage | AACSpeakHelperServer.py:195-242 | once the `App` paths are stored, the rest of `handle_message` makes the effects `Process` describes, with the same slot, loop and last-run updates |
| Dispatcher.MainWindow.FinishMessage | AACSpeakHelperServer.py:228-242 | after speech, staging the voice list, copying to the clipboard and updating the last-run entry make the effects `Finish` describes; a raising `pyperclip.copy` leaves the last-run entry as it was |
| Dispatcher.MainWindow.ServeConnection | AACSpeakHelperServer.py:116-133 | without `listvoices` nothing is written; with it, the list written is the one the request staged or, when it staged none, the list left in the slot by an earlier message; a successful write empties the slot, a failing one keeps it and ends the server loop; with nothing staged and an empty slot the flush keeps waiting |
| Dispatcher.CompletedIff | AACSpeakHelperServer.py:171-239 | a message is fully handled iff it decodes, `get_paths` and the initialisations return, `noTranslate` and `replacepb` are booleans, `bypass_tts` is missing or a boolean, speech, when run, returns, and `pyperclip.copy`, when `replacepb` is set and there is a text, returns |
| Dispatcher.FinishDecisions | AACSpeakHelperServer.py:229-234 | after speech, the list staged is `tts_utils.voices` exactly when it is truthy; the text is copied only under `replacepb` when it is not `None`, and always then once `replacepb` reads as a boolean |
| Dispatcher.ProcessDecisions | AACSpeakHelperServer.py:220-234 | the same decisions as `DecisionsOfMessage`, for a configuration whose `App` paths are already stored |
| Dispatcher.DecisionsOfMessage | AACSpeakHelperServer.py:220-234 | for every message whose paths are resolved: the text is the clipboard under `noTranslate`, otherwise the translation; it is spoken only when `bypass_tts` is missing or false, and always then once the flags are read; only a truthy voice list is staged, and always once speech has returned, even when `replacepb` or the copy fails afterwards; it is copied only when `replacepb` is set and the text is not `None`, and always then once `replacepb` is read |
| Dispatcher.StagedListIsVoices | AACSpeakHelperServer.py:229-231 | for any message, decoded or not, a staged list is the truthy `tts_utils.voices` |
| Dispatcher.ListVoicesAreReturned | AACSpeakHelperServer.py:229-231 | a `listvoices` request that gets past speech stages exactly the truthy voice list, whether or not it then completes |
| Gridset.JoinAllPlain | CreateGridset.py:22 | `os.path.join` of plain names puts one backslash between each two names and the needed separator after the base |
| Gridset.ExePath | CreateGridset.py:21-22 | the exe path is `LOCALAPPDATA`, its separator if needed, then `Programs\Ace Centre\TranslateAndTTS\translatepb.exe`; just that relative path when the variable is unset |
| Gridset.OutputDir | CreateGridset.py:29 | the output folder is `TranslateAndTTS\Example AAC Helper Pages` under the given folder |
| Gridset.OutputPath | CreateGridset.py:30 | the gridset is `AAC Helper Tool Demo.gridset` directly inside the output folder |
| Gridset.BatContent | CreateGridset.py:48 | the shortcut is `start "" "` followed by the folder and a closing quote |
| Gridset.SubLiteral | CreateGridset.py:24 | `re.sub` with a literal pattern fails iff the template is rejected, and otherwise replaces every non-overlapping match with the expanded template |
| Gridset.EscapeIsDoubling | CreateGridset.py:23 | `replace('\\', '\\\\')` doubles every backslash in place |
| Gridset.ExpandDoubled | CreateGridset.py:23-24 | a string with its backslashes doubled expands, as a template, to the string itself |
| Gridset.EscapeRoundTrip | CreateGridset.py:23-24 | the escaped exe path, read back as a template, is the exe path |
| Gridset.RewriteXml | CreateGridset.py:21-24 | the rewrite never fails and replaces every non-overlapping placeholder, left to right, with the exe path verbatim |
| Gridset.RewriteFillsPlaceholders | CreateGridset.py:24 | text made of `%`-free chunks and placeholders becomes the chunks joined by the exe path |
| Gridset.RewriteWithoutPlaceholder | CreateGridset.py:24 | a file whose decoded text lacks the placeholder gets the same text written back |
| Gridset.Rewritten | CreateGridset.py:15-27 | only a name ending in `.xml` gets its text rewritten; every other file is untouched |
| Gridset.RewriteExtracted | CreateGridset.py:13-27 | after the walk, every extracted file is as `Rewritten` says for the exe path |
| Gridset.RewriteFiles | CreateGridset.py:14-27 | the loop over the files leaves each one as `Rewritten` says for the given path: `.xml` files with their placeholders filled, the others untouched |
| Text.ReplaceAllSkipsFree | translatepb.py:16 | `str.replace` copies text that cannot start a match unchanged and continues after it |
| Text.ReplaceAllJoined | CreateGridset.py:24 | replacing the separators of a join whose chunks lack the pattern's first character gives the join with the replacement |
| Text.ReplaceAllAbsent | CreateGridset.py:24 | text in which the pattern does not occur is unchanged |

## Left out

- Named-pipe I/O is modelled only as per-attempt outcomes and decoded requests. This covers `CreateNamedPipe`, `ConnectNamedPipe`, the `ReadFile`/`WriteFile`/`CloseHandle` calls and their 64/128 KiB buffers.
- The client's response read is left out. Its errors are swallowed and do not affect the retry loop.
- Dispatcher.PipeServerThread.FlushStep models one pass of the unbounded `while get_voices` loop, not the loop. The loop waits on `handle_message`, which runs on another thread.
- Dispatcher.MainWindow.ServeConnection runs the handler and then the flush in sequence. It takes `get_voices` from the current request. A `get_voices` value left from an earlier connection, or a missing one after a decode error, is a threading and lifetime artefact and is not modelled; a request that does not decode flushes nothing. A list left in the voices slot by an earlier message is modelled.
- Dispatcher.PipeServerThread.FlushStep: a failing `CloseHandle` in the same `finally` block, which would also end the server loop, is not modelled.
- The Qt tray icon, its menu and timers, the cache-cleaner thread, logging, the `print` of the decrypted configuration in `load_config` and `subprocess` are left out. The last-run entry is kept only as `lastRunInfo`.
- The clipboard tool's `asyncio` entry points (`mainrun`, `main`) and the server's `main`/`mainrun` are left out. The latter calls `translate_clipboard()` without arguments.
- Fernet decryption, `json.loads` and `json.dump` are not modelled. Their outcomes are inputs, and decrypted fields are string-valued.
- Reading INI files is not modelled. A settings file is given as a parse error or its `[overrides]` items.
- ConfigParser's `DEFAULT` section, interpolation and duplicate-option errors are left out. So are option names that collide once lower-cased.
- PipeClient.ClipboardText: an exception other than `PyperclipException` from `pyperclip.paste()` escapes `main` and is not modelled; `None` stands for a `PyperclipException` only.
- Dispatcher.Request: the received section maps are taken with option names already lower-cased.
- The client sends a flat key-to-string dict while the server expects sections of options. The two shapes are not reconciled.
- `deep_translator`, `translate`, `pyttsx3`, `tts_utils`, `utils` (`get_paths`, `init`, `clear_history`) and `pyperclip` are foreign. They are parameters of the model, and `None` or `false` stands for an exception.
- Times are whole seconds. Durations and `time.sleep(delay)` are left out. The formatted time string is an input.
- Case mapping covers ASCII letters only; Python's `lower()` and `upper()` also map other letters.
- Gridset.ExpandTemplate treats group references (`\1`, `\g<...>`) and octal escapes (`\0`, `\101`) as errors. Python accepts some of them, but the escaped exe path never contains a backslash followed by a digit or `g`.
- Gridset.Join handles empty bases, bare drives and a trailing separator. Drive-relative and UNC handling of other `ntpath.join` inputs is left out.
- Gridset.RewriteFiles works on decoded text. The platform's default encoding, its decode and encode errors, and the newline translation of text-mode reads and writes are left out.
- Gridset.RewriteExtracted reads `LOCALAPPDATA` once, before the walk, where the source reads it again for each `.xml` file. The variable does not change during the walk.
- The zip extraction and archiving, `shutil.rmtree`, `os.remove` of the source gridset and the `.bat` file write are left out of `modify_gridset`.
- The directory walks are given as the sequence of `(root, files)` pairs `os.walk` yields. A file's name is its basename.
- ConfigResolver.ClientEnv takes the credentials path as an input rather than computing it with `GoogleCredsPath` from the same `frozen`, home and working-directory fields, so the link between the two is not enforced. The start directory is computed with `StartDir`.
- PipeClient.ClientMain takes the parse of the `--config` file as an input. It equals the parse `load_config` used only when both name the start folder's `settings.cfg`.
- ConfigResolver.Path models `pathlib` paths as an anchor plus components. Symlinks and `..` are not resolved.
- File existence is membership of the rendered path in a set of existing files.
