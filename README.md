# Email classifier: the classification decision path

This project models the decision logic of a small Flask application that sorts an
email's text into `"Produtivo"` (needs action) or `"Improdutivo"` (courtesy or
noise) and suggests a reply. The logic lives in `app.py`:

- `classificar_fallback`, the keyword classifier. Blank text is unproductive. Otherwise
  the lowered text is searched for each of the 18 productive keywords and then for each
  of the 7 courtesy keywords. Text that matches neither list is unproductive by default.
  Each of the four exits writes exactly one audit-log entry.
- `classificar_com_openai`, the adapter for the remote model. It gives no result when the
  `openai` module did not import, when `OPENAI_API_KEY` is unset or empty, or when the call
  raises. A parsed object without a `category` defaults to `"Produtivo"` and one without a
  `reply` defaults to `""`. A response with no `{...}` span at all becomes
  `("Produtivo", content)`; a `{...}` span that is not valid JSON makes `json.loads`
  raise, and then there is no result.
  Each result it returns is logged. Its category is not checked against the two
  categories, and the model keeps this pass-through (`EmailCategory`).
- `classificar_email`, the orchestrator. It uses the remote result when there is one and
  the keyword classifier otherwise. Either way it logs exactly one entry, carrying the
  returned category.
- `registrar_log`, the audit log. Each entry holds the category and a snippet: the first
  200 characters of the text with every `\n` turned into a space.
- `allowed_file`, the upload check. A name is accepted when it has a `.` and the text
  after its last `.`, lowered, is `txt` or `pdf`.

Modules:

- `Wrappers` (`wrappers.dfy`) holds `Option`.
- `Text` (`text.dfy`) holds the parts of Python's `str` that the code uses: `isspace`/`strip`,
  `lower` and the substring test `p in t`.
- `Audit` (`audit.dfy`) holds the snippet and the log. The log is a class whose `entries`
  sequence `Register` appends to.
- `Upload` (`upload.dfy`) holds `allowed_file`.
- `Keywords` (`fallback.dfy`) holds the keyword lists, the replies, the specification
  function `Fallback` and the imperative `ClassifyFallback`.
- `Orchestrator` (`orchestrator.dfy`) holds the remote adapter and `classificar_email`.

Each method is proved against a specification function (`Fallback`, `Remote`, `Email`),
and the source's promises are lemmas about those functions. The remote call is an input:
`RemoteConfig` gives the library and key checks, and `RemoteOutcome` gives how the call
ended. The two `for p in ...: if p in t` loops of `classificar_fallback` are written as one
scanning method, `ScanKeywords`, called once per list. The early `return` of each loop
becomes a test of its result.

Python's `None` is not a separate input. Both `not texto` and `texto or ""` treat it as
`""`, so the model's `string` input covers it as the empty string.

The text "Muito obrigado pela ajuda, feliz natal!" reads as thanks, but the code
classifies it `"Produtivo"` because it contains the keyword `"ajuda"` (app.py:110-118);
`ThanksForHelpExample` proves this.

## Model

| member | source | states |
|---|---|---|
| `Text.TrimLeft` | app.py:94 | the result is a suffix of the input; everything dropped is white space; the result is empty or starts with a non-space |
| `Text.TrimRight` | app.py:94 | the result is a prefix of the input; everything dropped is white space; the result is empty or ends with a non-space |
| `Text.IsSpace` | app.py:94 | exactly the 29 code points for which Python's `str.isspace` holds: U+0009 to U+000D, U+001C to U+001F, U+0020, U+0085, U+00A0, U+1680, U+2000 to U+200A, U+2028, U+2029, U+202F, U+205F and U+3000 |
| `Text.Strip` | app.py:94 | `s.strip()`: the left trim followed by the right trim, so both ends of the result are non-space |
| `Text.LowerChar` | app.py:98 | `c.lower()` for ASCII and Latin-1 capitals (adds 0x20) and U+212A KELVIN SIGN (gives `k`); every other code point is unchanged |
| `Text.Lower` | app.py:98 | `s.lower()`, code point by code point |
| `Text.Contains` | app.py:111 | `p in t`: some index i with `t[i..i+len(p)] == p` |
| `Text.StripEmptyIffAllSpace` | app.py:94 | `s.strip()` is empty exactly when every character of `s` is white space |
| `Text.LowerCharKeepsSpace` | app.py:98 | lowering a character never changes whether it is white space |
| `Text.LowerIdempotent` | app.py:98 | lowering twice gives the same text as lowering once |
| `Text.OccursAtLower` | app.py:98-111 | an occurrence of `q` in `s` is an occurrence of `q.lower()` in `s.lower()` at the same index |
| `Text.MissingCharNotContained` | app.py:111 | `p in t` is false when some character of `p` does not occur in `t` |
| `Audit.ReplaceNewlines` | app.py:55 | same length; each `\n` becomes a space and every other character is kept |
| `Audit.Snippet` | app.py:55 | length is min(200, len(text)); character i is text[i] with `\n` turned into a space; the snippet has no `\n` |
| `Audit.SnippetIdempotent` | app.py:55 | the snippet of a snippet is the snippet itself |
| `Audit.SnippetOfShortLine` | app.py:55 | text of at most 200 characters without `\n` is logged verbatim |
| `Audit.SnippetOfPrefix` | app.py:55 | characters after the 200th never affect the snippet |
| `Audit.LogEntry` | app.py:55-56 | the entry `registrar_log(texto, categoria)` writes: the category and the snippet of the text |
| `Audit.Log.Register` | app.py:51-58 | appends exactly one entry, (category, snippet of the text), and changes nothing else |
| `Upload.DotIsLast` | app.py:63 | index k holds a `.` and no `.` follows it, the split point of `rsplit(".", 1)` |
| `Upload.AllowedExtension` | app.py:63 | `ext.lower() in ALLOWED_EXTENSIONS`, with ALLOWED_EXTENSIONS = {txt, pdf} |
| `Upload.LastDot` | app.py:63 | gives the index of a `.` with no `.` after it, and nothing exactly when the name has no `.` |
| `Upload.AllowedFile` | app.py:61-63 | accepted iff the name has a `.` and the text after its last `.`, lowered, is in {txt, pdf} |
| `Upload.AllowedFileByExtension` | app.py:61-63 | a name `stem.ext` whose `ext` has no `.` is accepted exactly when `ext`, lowered, is allowed, whatever the stem holds |
| `Upload.AcceptedExamples` | app.py:61-63 | `.txt` and `a.b.PDF` are accepted |
| `Upload.RefusedExamples` | app.py:61-63 | `pdf`, `a.pdf.exe` and `a.` are refused |
| `Keywords.IsBlank` | app.py:94 | `not texto or not texto.strip()` |
| `Keywords.Fallback` | app.py:88-130 | the category is always `Produtivo` or `Improdutivo`: the classifier is total |
| `Keywords.ScanKeywords` | app.py:110-111 | the in-order scan finds a keyword exactly when some keyword of the list occurs in the text |
| `Keywords.ClassifyFallback` | app.py:88-130 | returns `Fallback(texto)` and appends exactly one log entry whose category is the returned one, on each of the four exits |
| `Keywords.KeywordListsStartWithText` | app.py:100-107 | every keyword of both lists is non-empty and starts with a non-space character |
| `Keywords.MentionIsNotBlank` | app.py:94-111 | text whose lowered form contains such a keyword is not blank, so the blank test never hides a keyword |
| `Keywords.BlankReplyDistinct` | app.py:96-130 | the blank-text reply differs from the other three replies |
| `Keywords.BlankIff` | app.py:94-96 | blank text gets exactly ("Improdutivo", "Obrigado pela mensagem!"), and only blank text gets that reply |
| `Keywords.ProductiveWins` | app.py:110-118 | a productive keyword in the lowered text gives ("Produtivo", acknowledgment) whatever courtesy keywords are present |
| `Keywords.ProductiveIff` | app.py:110-118 | the category is `Produtivo` exactly when a productive keyword occurs in the lowered text |
| `Keywords.CourtesyReplied` | app.py:121-126 | with no productive keyword, a courtesy keyword gives ("Improdutivo", "Agradeço a mensagem e o contato!") |
| `Keywords.DefaultReplied` | app.py:128-130 | non-blank text with no keyword of either list gives ("Improdutivo", "Agradeço o contato!") |
| `Keywords.SameLowerSameBlank` | app.py:94-98 | two texts with the same lowered form are blank together |
| `Keywords.FallbackIgnoresCase` | app.py:98 | two texts with the same lowered form get the same classification |
| `Keywords.ProductiveInCapitals` | app.py:98-118 | a productive keyword written in any letter case makes the text productive |
| `Keywords.NoProductiveLetters` | app.py:100-104 | text lacking the letters e, o, t, u, f and j contains no productive keyword |
| `Keywords.ProductiveAround` | app.py:98-118 | a productive keyword in any letter case, with any text before and after it, gives ("Produtivo", acknowledgment) |
| `Keywords.UrgentErrorExample` | app.py:110-118 | "Preciso de ajuda com um erro urgente no sistema" is productive, with the acknowledgment reply |
| `Keywords.ThanksForHelpExample` | app.py:110-118 | "Muito obrigado pela ajuda, feliz natal!" is productive, because it contains "ajuda" |
| `Keywords.CapitalsExample` | app.py:98-118 | "URGENTE" is productive |
| `Keywords.KelvinSignExample` | app.py:98-118 | "TIC" + U+212A KELVIN SIGN + "ET" lowers to "ticket" and is productive |
| `Keywords.CongratulationsExample` | app.py:121-126 | "Parabéns!" gets the courtesy reply |
| `Orchestrator.RemoteDisabled` | app.py:139-143 | `not openai` or `not api_key`: the library did not import, or the key is unset or empty |
| `Orchestrator.Remote` | app.py:139-182 | no result exactly when the library is missing, the key is unset or empty, or the call fails; a response with no `{...}` span gives ("Produtivo", content), while a span that fails to parse counts as a failed call; a parsed object gives its category (default "Produtivo") and reply (default "") |
| `Orchestrator.ClassifyRemote` | app.py:133-182 | returns `Remote(config, outcome)`; logs exactly one entry, with the returned category, when it returns a result, and none otherwise |
| `Orchestrator.Email` | app.py:185-195 | the value `classificar_email` returns: the remote result when there is one, otherwise `Fallback(texto)` |
| `Orchestrator.ClassifyEmail` | app.py:185-195 | returns `Email(...)`, and appends exactly one log entry, with the returned category, on both the remote and the fallback path |
| `Orchestrator.RemoteResultKept` | app.py:191-193 | a remote result is returned unchanged |
| `Orchestrator.FallbackWhenNoRemote` | app.py:139-143 | with no library, no key, or a failed call, the result equals the keyword classifier's |
| `Orchestrator.EmailCategory` | app.py:170-174 | the category is `Produtivo` or `Improdutivo` unless the remote model supplied one; a remote category is passed through unchecked |
| `Orchestrator.UrgentErrorWithoutKey` | app.py:185-195 | with no API key, "Preciso de ajuda com um erro urgente no sistema" is productive with the acknowledgment reply, whatever the remote would have said |

## Left out

- The Flask routes `index` and `uploaded_file` (app.py:198-250) are left out. They are HTTP and template glue. `index` strips the form text and refuses empty text before it classifies anything, but the classifier itself does not depend on this.
- `ler_arquivo` (app.py:65-85) is left out. It is file reading plus the optional `pdfminer` library.
- The remote request is left out: prompt construction, `openai.ChatCompletion.create`, the `\{.*\}` search and `json.loads` (app.py:145-169). `RemoteOutcome` stands for its result. A JSON `category` or `reply` that is not a string, such as a number or `null`, is not modelled.
- The log's file handle, the ISO-8601 timestamp, the `ts | category | snippet` line layout and the recovery from a failed write (app.py:52-58) are left out. They are file I/O and the clock. The log is the sequence of (category, snippet) entries.
- Text.LowerChar: lowers only ASCII capitals, Latin-1 capitals (U+00C0 to U+00DE, except U+00D7) and U+212A KELVIN SIGN; every other code point is unchanged, while Python's `str.lower` covers all of Unicode. Without the Kelvin sign, "TIC" + U+212A + "ET" would have been classified `("Improdutivo", "Agradeço o contato!")` instead of `Produtivo`; `KelvinSignExample` shows it is now productive. No other code point lowers to a letter of a keyword (a-z, ã, ç, é, ó), except U+0130, which Python lowers to "i" followed by U+0307. That pair cannot complete a keyword, since no keyword has an "i" followed by U+0307 or ends in "i", so keyword matching agrees with Python. This rests on the Unicode case tables, which the model does not contain.
- Concurrent appends to the log file by simultaneous requests are not modelled.
