# A Dafny model of the code-assistant web app's own logic

The application is a FastAPI backend with a small JavaScript front end. An LLM writes, improves and tests code snippets, and the user can run the generated assert-style tests against the code in a throw-away Docker container. Most endpoints only build a prompt and forward it to the chat-completion API. This model covers the parts that make their own decisions:

- **`run_tests`** (`CodeGenerator.RunTests`). It runs the endpoint against a `DockerClient` object. The Docker daemon's answers are an input, the `Behaviour` record: whether `containers.run` raises, what `wait()` reports as `StatusCode`, whether `logs()` raises, what decoding the logs as UTF-8 gives, and whether `remove()` raises. The client keeps a ghost record of every call made and of the containers still live. The method is proved against three specification functions:
  - `ExpectedResponse`: the language gate, the exception capture, and the rule that exit status 1 fails while every other status passes;
  - `ExpectedCalls`: the calls made, including the removal of the container, once and last, exactly when one was created;
  - `ExpectedLog`: the one line printed when the removal fails.
- **The pure pieces of `app/api/code_generator.py`.** `GenerateCode` models the blank-description guard of `generate_code`. `StripFence` models the markdown-fence stripping that `generate_code`, `improve_code` and `regenerate_code_based_on_tests` all apply to the model's reply; the expression is modelled once. `Assemble` models how the program is put together. Python's `str.strip`, `split("\n")` and `"\n".join` are written out in module `PyStrings`.
- **The helpers of `app/static/js/utils.js`** (module `Utils`). `Escape` is `escapeHTML`, with its decoder `Unescape` and the round-trip between them. `ShowLoading`, `UpdateCodeClass` and `ValidateRunTestVisibility` are methods that update an `Element` object in place.
- **The snippet store of `app/static/js/app.js`** (module `Snippets`). The class `SnippetPage` holds:
  - the `localStorage` entry, absent or a list of `Snippet` records;
  - the editor fields;
  - the `data-snippet-id` attribute, as the string the page writes into it;
  - the rendered snippet list.

  `SaveSnippet`, `DeleteSnippet`, `LoadSnippet` and `LoadSnippets` are methods on it, proved against the list functions `WithoutId` (the filter), `Find` (the first record with an id) and `Render`.

The model follows the code as written:
- No timeout is set: `container.wait()` takes no argument.
- No resource limits or network policy are passed to `containers.run`.
- Only exit status exactly 1 reports a failure. Status 0 gives "All tests passed successfully.", and so does any other status (137 after a kill, for example).
- Assertion failures are not told apart from other errors.
- Infrastructure exceptions are reported in the same `{test_result, error: true}` shape as failing tests.
- A container whose removal fails stays live. It is printed about and not retried.

Snippet ids come from `Date.now()`. They are parameters here and are not assumed to be unique. Deletion removes every record with the id, and loading shows the first one.

## Model

| member | source | states |
|---|---|---|
| PyStrings.AsciiSpace | app/api/code_generator.py:21 | among ASCII characters, the whitespace `strip()` removes is exactly tab, LF, VT, FF, CR, the separators 0x1c–0x1f and space (the rest of Python's whitespace set is the Unicode spaces listed in IsSpace) |
| PyStrings.AllSpace | app/api/code_generator.py:21-22 | a text is all whitespace exactly when its whitespace prefix is the whole text |
| PyStrings.Strip | app/api/code_generator.py:21 | `str.strip()` returns the slice of the text between an all-whitespace prefix and an all-whitespace suffix; it is empty exactly when the text is all Python whitespace, and a non-empty result neither starts nor ends with whitespace |
| PyStrings.Split | app/api/code_generator.py:42 | `split("\n")` always yields at least one line and no line contains a newline |
| PyStrings.Join | app/api/code_generator.py:42 | `"\n".join` gives "" for no lines, starts with the first line, puts a newline right after it when there is a second, and adds at least one character per further line |
| PyStrings.JoinSplit | app/api/code_generator.py:42 | joining the lines of a text with "\n" gives the text back |
| PyStrings.SplitJoin | app/api/code_generator.py:42 | newline-free lines, joined and split again, come back unchanged |
| PyStrings.Inner | app/api/code_generator.py:42 | the slice `[1:-1]` is empty for fewer than three lines and otherwise is every line but the first and the last, in order |
| CodeGenerator.IsFenced | app/api/code_generator.py:41 | a fenced reply is at least three characters long and begins and ends with a backtick; the two fences may overlap, so "```" alone counts as fenced |
| CodeGenerator.StripFence | app/api/code_generator.py:41-42 | a reply that does not both start and end with ``` is returned unchanged; the result is never longer than the reply |
| CodeGenerator.FencedKeepsMiddle | app/api/code_generator.py:41-42 | for a fenced reply `first + "\n" + middle + "\n" + last` whose first and last lines hold no newline, the result is exactly `middle` |
| CodeGenerator.ShortFencedReplyIsEmpty | app/api/code_generator.py:41-42 | a fenced reply of one or two lines (e.g. "```python```") becomes "" |
| CodeGenerator.ExtractCode | app/api/code_generator.py:39-42 | the reply is stripped before fence removal; an unfenced stripped reply is kept as it is; the code is never longer than the reply |
| CodeGenerator.GenerateCode | app/api/code_generator.py:15-47 | a whitespace-only description gets "Please provide the code snippet description!" whatever the model would say; otherwise a model exception becomes HTTP 500 with its message, and a reply becomes its extracted code |
| CodeGenerator.Assemble | app/api/code_generator.py:116 | the program is the code, then one '\n', then the test cases, each recoverable by position, with nothing else added |
| CodeGenerator.DockerClient.Run | app/api/code_generator.py:120-126 | `containers.run` is recorded with its image, command and environment; it either raises, leaving no new container, or returns a fresh container that becomes live |
| CodeGenerator.DockerClient.Wait | app/api/code_generator.py:128 | `wait()` is recorded and gives the daemon's status code or its exception |
| CodeGenerator.DockerClient.GetLogs | app/api/code_generator.py:131 | `logs()` is recorded and gives the logs or the exception |
| CodeGenerator.DockerClient.Remove | app/api/code_generator.py:146 | `remove()` is recorded; the container stops being live unless the call raised |
| CodeGenerator.ExpectedResponse | app/api/code_generator.py:110-141 | a language other than exactly "python" gets the fixed "only available for Python" error; an exception from run, wait, logs or the decode becomes `error=True` with its message; status 1 gives `error=True` with the decoded logs; `error=False` (with "All tests passed successfully.") exactly when nothing raised and the status is not 1 |
| CodeGenerator.ExpectedCalls | app/api/code_generator.py:110-146 | no call at all for an unsupported language; otherwise the first call runs `python:3.11-slim` with `CODE` set to the assembled program; `remove()` is called once, as the last call, when a container was created, and never when `run` raised |
| CodeGenerator.ExpectedLog | app/api/code_generator.py:142-149 | one "Error removing container: …" line is printed exactly when a created container's removal raised |
| CodeGenerator.RunTests | app/api/code_generator.py:105-149 | the response, the printed lines and the calls made are the expected ones; no container of this request stays live unless its removal raised |
| CodeGenerator.RemovalNeverChangesResponse | app/api/code_generator.py:147-149 | what `remove()` does never changes the response |
| Utils.EscapeChar | app/static/js/utils.js:8-14 | the lookup table maps each of the five special characters to its entity, copies every other character unchanged, and introduces no `<`, `>`, `"` or `'` |
| Utils.Escape | app/static/js/utils.js:6-16 | the output contains none of `<`, `>`, `"`, `'`; it is at least as long as the input; a string without the five characters is returned unchanged |
| Utils.EscapeAppend | app/static/js/utils.js:7-15 | escaping a concatenation is concatenating the escaped parts |
| Utils.UnescapeEscape | app/static/js/utils.js:8-14 | decoding the five entities recovers the original string |
| Utils.EscapeInjective | app/static/js/utils.js:8-14 | two strings with the same escaped form are equal |
| Utils.ShowLoading | app/static/js/utils.js:22-24 | the overlay's display becomes "block" when visible and "none" otherwise; nothing else changes |
| Utils.LowerChar | app/static/js/utils.js:38 | lower-casing maps A–Z to a–z and keeps every other character |
| Utils.ToLower | app/static/js/utils.js:38 | `toLowerCase()` keeps the length and lower-cases each character in place |
| Utils.ToLowerIdempotent | app/static/js/utils.js:38 | lower-casing twice is lower-casing once |
| Utils.CodeClassName | app/static/js/utils.js:38 | the class starts with "hljs " and contains no upper-case letter |
| Utils.CodeClassNameIgnoresCase | app/static/js/utils.js:38 | languages that lower-case alike get the same class |
| Utils.CodeClassNameOfPython | app/static/js/utils.js:38 | "Python" and "python" give the same class |
| Utils.UpdateCodeClass | app/static/js/utils.js:32-38 | just before `hljs.highlightElement` runs, a set highlight marker has been deleted (an absent or empty marker is left as it was) and the class is "hljs L language-L" for the lower-cased language |
| Utils.ButtonClasses | app/static/js/utils.js:52-60 | exactly one of `bg-teal-500` (enabled) and `bg-gray-500` (disabled) is present, and every other class is kept |
| Utils.ButtonClassesIdempotent | app/static/js/utils.js:52-60 | repeating the update changes nothing |
| Utils.ValidateRunTestVisibility | app/static/js/utils.js:48-61 | the button is disabled unless the language is exactly "python" and `visible` (default true) holds, and its classes follow ButtonClasses |
| Snippets.WithoutId | app/static/js/app.js:280 | no kept record has the id; every record without the id is kept; nothing is added; deleting an absent id changes nothing |
| Snippets.WithoutIdAppend | app/static/js/app.js:280 | the filter keeps the remaining records in their original order |
| Snippets.WithoutIdIdempotent | app/static/js/app.js:280 | deleting the same id twice equals deleting it once |
| Snippets.WithoutIdCommutes | app/static/js/app.js:280 | deleting two ids gives the same store in either order |
| Snippets.FirstIndex | app/static/js/app.js:205 | `find` stops at the first record with the id; no earlier record has it |
| Snippets.Find | app/static/js/app.js:205 | nothing is found exactly when no record has the id; what is found has the id and is the record at the first position holding it |
| Snippets.FindAfterAppend | app/static/js/app.js:303-311 | after a save, an earlier record with the same id still wins; the new record is found only if its id was unused |
| Snippets.FindCons | app/static/js/app.js:205 | `find` returns the head when it has the id and otherwise searches the rest |
| Snippets.FindAfterDelete | app/static/js/app.js:279-281 | after a delete nothing has the id, and every other id is found as before |
| Snippets.Render | app/static/js/app.js:237-271 | one link per record in store order, or the single "No snippets available." item exactly when the store is empty |
| Snippets.IntToString | app/static/js/app.js:214 | the id written into `data-snippet-id` is non-empty, starts with '-' exactly for a negative id, and is digits after that |
| Snippets.NatToString | app/static/js/app.js:214 | the decimal form written into `data-snippet-id` is non-empty and all digits |
| Snippets.ParseInt | app/static/js/app.js:287 | `parseInt` gives NaN (None) for empty text and for text that starts with neither a digit nor a sign; a leading digit gives a non-negative number and a leading '-' a non-positive one |
| Snippets.ParseIntOfString | app/static/js/app.js:287 | `parseInt` reads back every id the page writes into the attribute |
| Snippets.SnippetPage.Stored | app/static/js/app.js:204 | the stored list, with a missing "snippets" entry read as the empty list (the fallback to "[]", used again at lines 233, 279 and 303) |
| Snippets.SnippetPage.LoadSnippets | app/static/js/app.js:232-272 | the list shown is Render of the stored snippets, a missing entry counting as empty |
| Snippets.SnippetPage.SaveSnippet | app/static/js/app.js:302-315 | one record with the given id, description, language and code is appended after the unchanged earlier records; a missing entry counts as empty; the list is redrawn |
| Snippets.SnippetPage.DeleteSnippet | app/static/js/app.js:278-294 | the store becomes WithoutId of the old one and is redrawn; when the displayed id parses to the deleted id, description and code are cleared, the language resets to "python" and the attribute is removed, and otherwise the editor is untouched |
| Snippets.SnippetPage.LoadSnippet | app/static/js/app.js:202-227 | the first record with the id fills description, language and escaped code, records its id and re-classes the code block; with no such record an error naming the id is returned and the editor is untouched |
| Snippets.OpenThenDelete | app/static/js/app.js:202-294 | opening an existing snippet and then deleting it leaves an empty editor and a store without the id |

## Left out

- The chat-completion calls and their prompt texts (app/api/code_generator.py:26-37 and the other endpoints). The model's answer is an input (`reply` in GenerateCode). `generate_tests` and `improve_tests` have no logic beyond the call and a `strip()`. `improve_code` and `regenerate_code_based_on_tests` apply the same fence stripping (lines 177-178 and 210-211) as StripFence.
- The Docker SDK itself: the container's isolation and the daemon's work are outside the model. `Behaviour` states only what each call returns or raises. The daemon's `StatusCode` key is assumed present.
- CodeGenerator.RunTests: UTF-8 decoding of the log bytes is not computed. `Logs` carries what the decode gives (text or exception message).
- Concurrency: the FastAPI handlers are `async`, but each body runs sequentially with no shared state. Interleavings are not modelled.
- Timeouts and cancellation: the code has none.
- DOM event wiring, `fetch`, `hljs.highlightElement`, the JSON round-trip through `localStorage`, and malformed stored JSON (which makes `JSON.parse` throw). The stored list is kept as a sequence of records. `Date.now()` becomes the `id` parameter of SaveSnippet.
- `resetData`, `resetTestResult`, `resetButtons`, `toggleButtonAttribute`, `toggleExtraSection`, `setTestResult` and `sanitizeInput` are imported from utils.js, but their bodies are not part of this model. The fields LoadSnippet sets are all written after `resetData` runs.
- The list styling of `resetSnippetList` and `highlightSnippet` is not modelled: the purple and grey classes and the hidden delete button.
- Snippets.Render: the list item keeps description and language raw. The page interpolates them into `innerHTML` without escaping, and the model does not claim otherwise.
- Snippets.ParseInt: leading whitespace and the `0x` prefix that `parseInt` also accepts are not modelled. The attribute only ever holds what LoadSnippet writes.
- Snippets.NatToString: the exponent form JavaScript uses from 10^21 upwards and fractional ids are not modelled. `Date.now()` ids are integers far below that.
- Utils.UpdateCodeClass: its ensures describe the element just before the final `hljs.highlightElement` call (utils.js:39). highlight.js then marks the element highlighted again and rewrites its markup, and that call is not modelled.
- Snippets.SnippetPage.LoadSnippet: for the same reason, `!code.IsHighlighted()` and `codeHtml == Escape(code)` describe the page before highlight.js rewrites the code block.
- Utils.LowerChar: `toLowerCase` is modelled for ASCII letters only. Other Unicode case mappings are left out.
- Utils.Element: the DOM keeps `className` and `classList` in step. Here they are separate fields, because each helper touches only one of them. `classList` is a set, so the order of class tokens is not kept.
- app/static/app.js (a legacy script), app/main.py, app/core/config.py and the pydantic models are not part of this model, apart from the fields of `CodeTestsRunRequest`, which are RunRequest's.
