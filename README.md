# Chatbot core in Dafny

A model of the part of the Telegram contracts chatbot (`chatbot.py`) that has
behaviour of its own, apart from the services it calls:

- **Response sanitiser** (`sanitize_response`): the filter applied to the
  language model's answer. It deletes every `*`, deletes every character that
  is not a word character, whitespace or one of `, . ! ? % € $ £ -`, and strips
  whitespace from both ends. It is modelled as functions on `seq<char>`
  (`strings.dfy`, `sanitizer.dfy`).
- **Sheet fetch result** (the end of `get_google_sheets_data`): an empty or
  missing range becomes the string `"Nenhum dado encontrado."`, an `HttpError`
  becomes its text, and anything else is the rows. The handler treats every
  string as an error (`sheets.dfy`).
- **Authorisation gate and router** (`USER_STATE`, `start`, `handle_message`):
  `USER_STATE` is a `Bot` class with a `map<int, string>` field. `Start` and
  `HandleMessage` are methods that update that map in place (`chatbot.py`
  becomes `chatbot.dfy`). An unknown chat must send one of the four accepted
  names, after trimming and lower-casing. An authorised chat's text is then
  compared with the two lower-cased menu captions, and any other text goes to
  the sheet fetch and then to the language model.

Python's Unicode tables decide what `\w`, `\s` and `str.lower()` mean. The
model does not fix them. They are the fields of `Strings.Tables`, and every
property is proved for every choice of them. CPython uses a single whitespace
table for both the regex class `\s` and `str.strip()`, so `isSpace` plays both
roles. `str.lower()` can change a string's length, so `lower` is a function on
strings rather than on characters.

The external services are inputs to `HandleMessage`. `response` is what the
spreadsheet request produced. `modelText` is the text that
`generate_gemini_response` returns. The returned `Action` records which of
them the handler used: `Fetches()` and `AsksModel()`.

Whitespace passes the second substitution, yet the final `strip` deletes it
at both ends, so not every whitelisted character survives sanitising.
`SanitizeCounts` therefore states preservation for the non-whitespace
characters, and `SanitizeIsSliceOfFiltered` states what happens to
whitespace: only the whitespace at the two ends of the filtered text goes.

## Model

| member | source | states |
|---|---|---|
| `Strings.Filter` | chatbot.py:49-50 | the result of deleting characters is no longer than the input, and every character left passes the filter |
| `Strings.FilterIsSubsequence` | chatbot.py:49-50 | a substitution with an empty replacement only deletes: its result is a subsequence of its input |
| `Strings.FilterCount` | chatbot.py:49-50 | every occurrence of a kept character survives and no occurrence of a deleted one does |
| `Strings.FilterKeepsAll` | chatbot.py:49-50 | a string containing nothing to delete comes through unchanged |
| `Strings.SubsequenceMultiset` | chatbot.py:47-51 | a subsequence has no character more often than the original: deleting inserts nothing |
| `Strings.TrimStart` | chatbot.py:51 | the result is a suffix of the input, everything removed is whitespace, and the result does not start with whitespace |
| `Strings.TrimEnd` | chatbot.py:51 | the result is a prefix of the input, everything removed is whitespace, and the result does not end with whitespace |
| `Strings.Strip` | chatbot.py:51 | `str.strip()` leaves no whitespace at either end |
| `Strings.StripIsSlice` | chatbot.py:51 | the stripped string is a contiguous piece `s[i..j]` of the input, and all of `s[..i]` and `s[j..]` is whitespace |
| `Strings.StripIsSubsequence` | chatbot.py:51 | stripping only deletes characters |
| `Strings.StripKeepsNonSpace` | chatbot.py:51 | stripping keeps every occurrence of every non-whitespace character |
| `Strings.StripFixedPoint` | chatbot.py:51 | `strip` leaves a string unchanged if and only if neither end is whitespace |
| `Sanitizer.Allowed` | chatbot.py:50 | word characters, whitespace and the nine signs `, . ! ? % € $ £ -` are allowed, and no other character is |
| `Sanitizer.DropStars` | chatbot.py:49 | the first substitution leaves no `*` |
| `Sanitizer.KeepAllowed` | chatbot.py:50 | the second substitution leaves only word characters, whitespace and `, . ! ? % € $ £ -` |
| `Sanitizer.StaysWhitelisted` | chatbot.py:49-51 | deleting characters from a whitelisted string without `*` keeps it whitelisted and without `*` |
| `Sanitizer.Sanitize` | chatbot.py:47-51 | the sanitised answer contains no `*`, only whitelisted characters, and no whitespace at either end |
| `Sanitizer.SanitizeIsSubsequence` | chatbot.py:47-51 | the sanitised answer is a subsequence of the input: what is kept stays in order and nothing is inserted |
| `Sanitizer.SanitizeCounts` | chatbot.py:47-51 | each non-whitespace whitelisted character other than `*` occurs exactly as often as in the input, and every other non-whitespace character is gone |
| `Sanitizer.SanitizeIsSliceOfFiltered` | chatbot.py:49-51 | the sanitised answer is a contiguous piece of the text left by the two substitutions, and only whitespace lies outside it, so the whitespace inside is kept |
| `Sanitizer.SanitizeFixedPoint` | chatbot.py:47-51 | sanitising leaves a string unchanged if and only if it has no `*`, only whitelisted characters, and no whitespace at either end |
| `Sanitizer.SanitizeIdempotent` | chatbot.py:47-51 | sanitising twice gives the same as sanitising once |
| `Sheets.ValuesOf` | chatbot.py:75 | a missing `values` entry reads as an empty list of rows, a present one as its rows |
| `Sheets.Fetch` | chatbot.py:75-83 | rows are returned exactly when the response has at least one row, and they are that response's rows; an `HttpError` yields its text; an empty or missing `values` entry yields `"Nenhum dado encontrado."` |
| `Sheets.IsError` | chatbot.py:112 | the type test is true of the string half of the fetch result and false of the rows half |
| `Sheets.FetchErrorCases` | chatbot.py:75-83 | the fetch result is a string (the handler's error test) if and only if the request failed or the range was empty or missing |
| `ChatBot.ReplyText` | chatbot.py:95-159 | the sheet-error reply ends with the fetch's text, and the answer reply is the sanitised model text itself |
| `ChatBot.SheetErrorReply` | chatbot.py:112-113 | the reply to a fetch that yielded a string is the error prefix followed by exactly that string |
| `ChatBot.Normalize` | chatbot.py:88 | the normalised text is the lower-casing of a piece of the message that has no whitespace at either end, with only whitespace cut off around it |
| `ChatBot.NormalizeTrimmed` | chatbot.py:88 | for text without whitespace at either end, the normalisation only lower-cases it |
| `ChatBot.MenuButtonsNormalize` | chatbot.py:101-106 | the two captions of the keyboard at line 31 normalise to exactly the strings the router compares against |
| `ChatBot.CommandsDiffer` | chatbot.py:101-106 | the two lower-cased captions are different strings, so the two comparisons never both match |
| `ChatBot.Bot.constructor` | chatbot.py:39 | `USER_STATE` starts empty |
| `ChatBot.Bot.Start` | chatbot.py:149-159 | `/start` removes the caller's entry whatever its state was, leaves every other entry as it was, and replies with the welcome |
| `ChatBot.Bot.HandleMessage` | chatbot.py:85-114 | an unknown chat with an accepted name (after strip and lower) becomes `"authorized"` and gets the greeting with the menu keyboard (`ShowsMenu`); with any other text it is rejected and the map is unchanged; an authorised chat never changes the map; its expiry caption gives the fixed expiry reply, its clean-up caption only the clean-up, and any other text the sheet error with the fetch's text or the sanitised model answer; when the fetch yields a string the reply is exactly the error prefix followed by that string, and the model is not called; the only value written is `"authorized"`, under the caller's own id |
| `ChatBot.RestartThenMessage` | chatbot.py:149-159 | after `/start`, the chat's next message goes through the name check again: it is granted exactly for an accepted name, and nothing is fetched and the model is not called; afterwards the map is the old map without the chat, with the chat added back as `"authorized"` exactly when it was granted |
| `ChatBot.PressExpiryButton` | chatbot.py:101-103 | an authorised chat that presses the expiry button of line 31 gets the fixed reply "📌 O contrato 71 tem vigência até 29/04/2025.", nothing is fetched, the model is not called and the map is unchanged |
| `ChatBot.PressClearButton` | chatbot.py:105-108 | an authorised chat that presses the clean-up button of line 31 is handed to the history clean-up only, with no fetch, no model call and the map unchanged |
| `ChatBot.QueryWithFailedFetch` | chatbot.py:110-114 | an authorised chat's question whose fetch fails or finds no rows gets the error prefix followed by the `HttpError` text or `"Nenhum dado encontrado."`, and the model is not called |

## Left out

- The Gemini call `generate_gemini_response` is a remote service. Its result is the input `modelText`, and the prompt built from `json.dumps` of the rows and the user's text is not modelled. The call can raise; the exception then escapes `handle_message` and no reply is sent, whereas the model always produces `Answer(Sanitize(t, modelText))` on that path.
- An empty sanitised answer (for instance from a model text of only `*` characters) is sent as an empty reply; the messaging platform rejects empty text, and that rejection is not modelled.
- Loading, refreshing and interactively obtaining OAuth credentials, and writing `token.json`, are file I/O and foreign library calls.
- The Sheets API request is a network call. Its outcome is the input `SheetsResponse`. Exceptions other than `HttpError` are not modelled; in the program they escape the handler.
- `clear_chat_history` works on remote chat history through the Telegram API with broad exception catching. The model stops at the `ClearHistory` action that hands control to it.
- `main`, the handler registration, polling, `reply_text` and async/await are framework wiring. The filter that sends only non-command text to `handle_message` is part of that wiring.
- The exact Unicode membership of `\w` and `\s`, and the exact result of `str.lower()`, depend on Python's tables. They stay abstract in `Strings.Tables`. `ChatBot.ReadsMenu` states the two facts about them that the menu buttons need.
- Sanitizer.SanitizeCounts: states count preservation only for non-whitespace characters, because whitespace at the ends is deleted by `strip`; `Sanitizer.SanitizeIsSliceOfFiltered` states what happens to whitespace.
